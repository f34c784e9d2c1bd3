/** The pieces of JavaScript string semantics the backend relies on:
    the `\s` character class (which is also what `trim` removes), the line
    terminators that `.` does not match, UTF-16 `length`, `startsWith`,
    `includes`, `trim`, decimal rendering of a millisecond clock and the
    `replace(/\s+/g, rep)` rewrite. */
module JsString {
  import opened Wrappers

  /** The `\s` class of a JavaScript regular expression: WhiteSpace and LineTerminator. */
  predicate IsSpace(c: char) {
    c == '\t' || c == '\n' || c == '\U{000B}' || c == '\U{000C}' || c == '\r' || c == ' '
    || c == '\U{00A0}' || c == '\U{1680}' || ('\U{2000}' <= c <= '\U{200A}')
    || c == '\U{2028}' || c == '\U{2029}' || c == '\U{202F}' || c == '\U{205F}'
    || c == '\U{3000}' || c == '\U{FEFF}'
  }

  /** The characters `.` does not match. */
  predicate IsLineTerminator(c: char) {
    c == '\n' || c == '\r' || c == '\U{2028}' || c == '\U{2029}'
  }

  lemma LineTerminatorIsSpace(c: char)
    ensures IsLineTerminator(c) ==> IsSpace(c)
  {
  }

  predicate NoSpace(s: string) {
    forall i :: 0 <= i < |s| ==> !IsSpace(s[i])
  }

  predicate NoLineTerminator(s: string) {
    forall i :: 0 <= i < |s| ==> !IsLineTerminator(s[i])
  }

  /** Length of the longest prefix of `s` without a line terminator: what a
      greedy `.+` or `.*` consumes. */
  function LineRun(s: string): (n: nat)
    ensures n <= |s|
    ensures forall i :: 0 <= i < n ==> !IsLineTerminator(s[i])
    ensures n < |s| ==> IsLineTerminator(s[n])
  {
    if s != [] && !IsLineTerminator(s[0]) then 1 + LineRun(s[1..]) else 0
  }

  /** `s.length`: the number of UTF-16 code units. */
  function JsLength(s: string): (n: nat)
    ensures |s| <= n <= 2 * |s|
  {
    if s == [] then 0
    else (if s[0] as int > 0xFFFF then 2 else 1) + JsLength(s[1..])
  }

  lemma {:induction false} JsLengthAppend(a: string, b: string)
    ensures JsLength(a + b) == JsLength(a) + JsLength(b)
  {
    if a == [] {
      assert a + b == b;
    } else {
      assert (a + b)[0] == a[0] && (a + b)[1..] == a[1..] + b;
      JsLengthAppend(a[1..], b);
    }
  }

  predicate StartsWith(s: string, prefix: string) {
    |prefix| <= |s| && s[..|prefix|] == prefix
  }

  /** `s.includes(sub)`. */
  predicate Contains(s: string, sub: string)
    decreases |s|
  {
    StartsWith(s, sub) || (s != [] && Contains(s[1..], sub))
  }

  /** The first index at or after `from` that holds `c`. */
  function Find(t: string, c: char, from: nat): (k: Option<nat>)
    requires from <= |t|
    ensures k.Some? ==> from <= k.value < |t| && t[k.value] == c
    ensures k.Some? ==> forall j :: from <= j < k.value ==> t[j] != c
    ensures k.None? ==> forall j :: from <= j < |t| ==> t[j] != c
    decreases |t| - from
  {
    if from == |t| then None
    else if t[from] == c then Some(from)
    else Find(t, c, from + 1)
  }

  /** Length of the longest prefix of `s` made of the character `c`. */
  function CharRun(s: string, c: char): (n: nat)
    ensures n <= |s|
    ensures forall i :: 0 <= i < n ==> s[i] == c
    ensures n < |s| ==> s[n] != c
  {
    if s != [] && s[0] == c then 1 + CharRun(s[1..], c) else 0
  }

  /** No three `c` stand in a row. */
  predicate NoThreeInARow(s: string, c: char) {
    forall i :: 0 <= i && i + 2 < |s| ==> !(s[i] == c && s[i + 1] == c && s[i + 2] == c)
  }

  /** One more character in front keeps the property while the leading run stays short. */
  lemma NoThreeCons(d: char, rest: string, c: char)
    requires NoThreeInARow(rest, c) && CharRun([d] + rest, c) <= 2
    ensures NoThreeInARow([d] + rest, c)
  {
    var out := [d] + rest;
    forall i | 0 <= i && i + 2 < |out|
      ensures !(out[i] == c && out[i + 1] == c && out[i + 2] == c)
    {
      if i >= 1 {
        assert out[i] == rest[i - 1] && out[i + 1] == rest[i] && out[i + 2] == rest[i + 1];
      } else if out[0] == c && out[1] == c {
        assert out[1..] == rest;
        assert rest[1..][0] == out[2];
      }
    }
  }

  lemma NoThreeSlice(s: string, c: char, i: nat, j: nat)
    requires NoThreeInARow(s, c) && i <= j <= |s|
    ensures NoThreeInARow(s[i..j], c)
  {
    var t := s[i..j];
    assert forall k :: 0 <= k < |t| ==> t[k] == s[i + k];
  }

  /** Length of the longest prefix of `s` made of `\s` characters. */
  function SpaceRun(s: string): (n: nat)
    ensures n <= |s|
    ensures forall i :: 0 <= i < n ==> IsSpace(s[i])
    ensures n < |s| ==> !IsSpace(s[n])
  {
    if s != [] && IsSpace(s[0]) then 1 + SpaceRun(s[1..]) else 0
  }

  /** Length of the longest suffix of `s` made of `\s` characters. */
  function TrailingSpaceRun(s: string): (n: nat)
    ensures n <= |s|
    ensures forall i :: |s| - n <= i < |s| ==> IsSpace(s[i])
    ensures n < |s| ==> !IsSpace(s[|s| - n - 1])
  {
    if s != [] && IsSpace(s[|s| - 1]) then 1 + TrailingSpaceRun(s[..|s| - 1]) else 0
  }

  /** `s.trim()`: the slice of `s` between its leading and trailing white space. */
  function Trim(s: string): string {
    var t := s[SpaceRun(s)..];
    t[..|t| - TrailingSpaceRun(t)]
  }

  /** What `trim` promises: a slice of its input with no white space at either end. */
  lemma TrimShape(s: string)
    ensures exists a, b :: 0 <= a <= b <= |s| && Trim(s) == s[a..b]
    ensures Trim(s) != [] ==> !IsSpace(Trim(s)[0]) && !IsSpace(Trim(s)[|Trim(s)| - 1])
  {
    var a := SpaceRun(s);
    var t := s[a..];
    var b := a + |t| - TrailingSpaceRun(t);
    assert Trim(s) == s[a..b];
  }

  /** A string with no white space at either end is its own trim. */
  lemma TrimIdentity(s: string)
    requires s != [] ==> !IsSpace(s[0]) && !IsSpace(s[|s| - 1])
    ensures Trim(s) == s
  {
    assert SpaceRun(s) == 0;
    assert s[0..] == s;
  }

  /** Trimming twice is trimming once. */
  lemma TrimIdempotent(s: string)
    ensures Trim(Trim(s)) == Trim(s)
  {
    TrimShape(s);
    TrimIdentity(Trim(s));
  }

  /** `${n}` for a non-negative integer. */
  function NatToString(n: nat): (r: string)
    ensures r != []
    ensures forall i :: 0 <= i < |r| ==> '0' <= r[i] <= '9'
  {
    var d := ['0' + (n % 10) as char];
    if n < 10 then d else NatToString(n / 10) + d
  }

  /** `s.replace(/\s+/g, rep)`: every maximal run of white space becomes `rep`. */
  function ReplaceSpaceRuns(s: string, rep: string): string
    decreases |s|
  {
    if s == [] then []
    else if IsSpace(s[0]) then rep + ReplaceSpaceRuns(s[SpaceRun(s)..], rep)
    else [s[0]] + ReplaceSpaceRuns(s[1..], rep)
  }

  /** When the replacement holds no white space, neither does the result. */
  lemma {:induction false} ReplaceSpaceRunsNoSpace(s: string, rep: string)
    requires NoSpace(rep)
    ensures NoSpace(ReplaceSpaceRuns(s, rep))
    decreases |s|
  {
    if s != [] {
      if IsSpace(s[0]) {
        ReplaceSpaceRunsNoSpace(s[SpaceRun(s)..], rep);
      } else {
        ReplaceSpaceRunsNoSpace(s[1..], rep);
      }
    }
  }

  /** A string without white space is left as it is. */
  lemma {:induction false} ReplaceSpaceRunsIdentity(s: string, rep: string)
    requires NoSpace(s)
    ensures ReplaceSpaceRuns(s, rep) == s
    decreases |s|
  {
    if s != [] {
      assert !IsSpace(s[0]);
      ReplaceSpaceRunsIdentity(s[1..], rep);
    }
  }

  lemma NoSpaceHasNoLineTerminator(s: string)
    requires NoSpace(s)
    ensures NoLineTerminator(s)
  {
  }

  predicate IsAsciiUpper(c: char) { 'A' <= c <= 'Z' }

  /** Lower-cases an ASCII letter; every other character is unchanged. */
  function LowerAscii(c: char): (r: char)
    ensures IsAsciiUpper(c) ==> r as int == c as int + 32
    ensures !IsAsciiUpper(c) ==> r == c
  {
    if IsAsciiUpper(c) then (c as int + 32) as char else c
  }
}
