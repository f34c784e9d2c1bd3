/** `aiFormat` (backend/src/utils/textFormatter.js): turns the HTML-flavoured
    reply of the text model into plain text with light Markdown, by a fixed
    chain of global regular-expression replacements followed by `trim`.

    Each regular expression is a `Rule`. `MatchAt` says what the expression
    matches at the very start of a string, with JavaScript's backtracking
    worked out by hand, and `Replace` is the left-to-right scan of
    `String.prototype.replace` with the `g` flag: at each position either the
    rule matches (its replacement is written and the matched text skipped) or
    one character is copied. None of the expressions matches the empty string. */
module TextFormatter {
  import opened Wrappers
  import opened JsString

  datatype Rule =
    | Bold       // <b>...</b> or <strong>...</strong>, any case: **...**
    | Italic     // <i>...</i> or <em>...</em>, any case: *...*
    | ListItem   // <li attrs>...</li>, any case: bullet, text, newline
    | ListTag    // <ul attrs>, </ul attrs>, <ol attrs>, </ol attrs>: removed
    | Paragraph  // <p attrs>...</p>, any case: text and two newlines
    | Break      // <br>, <br/>, <br />, any case: a newline
    | AnyTag     // '<', one or more characters other than '>', '>': removed
    | Blanks     // a run of spaces and tabs: one space
    | Newlines   // a run of three or more newlines: two newlines

  /** The bullet the list-item rule writes, exactly as the bytes of the source
      file read (a UTF-8 bullet decoded as Windows-1252), then a space. */
  const Bullet := "\U{00E2}\U{20AC}\U{00A2} "

  /** A match at the start of a string: how much it consumes and what replaces it. */
  datatype Match = Match(len: nat, rep: string)

  /** With the `i` flag an ASCII letter matches either case; no other
      character folds onto an ASCII one. */
  predicate StartsWithCI(t: string, word: string) {
    |word| <= |t| && forall i :: 0 <= i < |word| ==> LowerAscii(t[i]) == LowerAscii(word[i])
  }

  /** The length of an attribute-free opening tag, `a` tried before `b`, or 0. */
  function OpenPlain(t: string, a: string, b: string): (n: nat)
    ensures n <= |t|
  {
    if StartsWithCI(t, a) then |a| else if StartsWithCI(t, b) then |b| else 0
  }

  /** The length of `word` followed by `[^>]*>`, that is, up to the first `>`, or 0. */
  function OpenAttrs(t: string, word: string): (n: nat)
    ensures n <= |t|
  {
    if StartsWithCI(t, word) then
      match Find(t, '>', |word|)
      case Some(k) => k + 1
      case None => 0
    else 0
  }

  /** The lazy `(.*?)` before a closing tag: the least position `k >= from`
      where `c1` or `c2` starts such that no line terminator lies between
      `from` and `k`; with the length of the closing tag found there. */
  function LazyClose(t: string, from: nat, c1: string, c2: string): (r: Option<(nat, nat)>)
    requires from <= |t|
    requires c1 != [] && c2 != []
    ensures r.Some? ==> from <= r.value.0 && 0 < r.value.1 && r.value.0 + r.value.1 <= |t|
    decreases |t| - from
  {
    if StartsWithCI(t[from..], c1) then Some((from, |c1|))
    else if StartsWithCI(t[from..], c2) then Some((from, |c2|))
    else if from < |t| && !IsLineTerminator(t[from]) then LazyClose(t, from + 1, c1, c2)
    else None
  }

  /** An opening tag of length `open`, lazily matched text, a closing tag;
      the text is kept between `before` and `after`. */
  function Enclosed(t: string, open: nat, c1: string, c2: string, before: string, after: string): (m: Option<Match>)
    requires open <= |t|
    requires c1 != [] && c2 != []
    ensures m.Some? ==> 0 < m.value.len <= |t|
  {
    if open == 0 then None
    else match LazyClose(t, open, c1, c2)
      case None => None
      case Some((k, n)) => Some(Match(k + n, before + t[open..k] + after))
  }

  predicate IsBlank(c: char) { c == ' ' || c == '\t' }

  function BlankRun(t: string): (n: nat)
    ensures n <= |t|
    ensures forall i :: 0 <= i < n ==> IsBlank(t[i])
    ensures n < |t| ==> !IsBlank(t[n])
  {
    if t != [] && IsBlank(t[0]) then 1 + BlankRun(t[1..]) else 0
  }

  /** What rule `r` matches at the start of `t`, if anything. */
  function MatchAt(r: Rule, t: string): (m: Option<Match>)
    ensures m.Some? ==> 0 < m.value.len <= |t|
  {
    match r
    case Bold => Enclosed(t, OpenPlain(t, "<b>", "<strong>"), "</b>", "</strong>", "**", "**")
    case Italic => Enclosed(t, OpenPlain(t, "<i>", "<em>"), "</i>", "</em>", "*", "*")
    case ListItem => Enclosed(t, OpenAttrs(t, "<li"), "</li>", "</li>", Bullet, "\n")
    case Paragraph => Enclosed(t, OpenAttrs(t, "<p"), "</p>", "</p>", "", "\n\n")
    case ListTag =>
      // `\/?` is tried with the slash first; without it the next character
      // would have to be a letter, so the two cases cannot both apply.
      var w := if StartsWithCI(t, "</ul") || StartsWithCI(t, "</ol") then 4
               else if StartsWithCI(t, "<ul") || StartsWithCI(t, "<ol") then 3
               else 0;
      if w == 0 then None
      else (match Find(t, '>', w)
            case Some(k) => Some(Match(k + 1, ""))
            case None => None)
    case Break =>
      if StartsWithCI(t, "<br") then
        var k := 3 + SpaceRun(t[3..]);
        if StartsWith(t[k..], "/>") then Some(Match(k + 2, "\n"))
        else if StartsWith(t[k..], ">") then Some(Match(k + 1, "\n"))
        else None
      else None
    case AnyTag =>
      if |t| >= 2 && t[0] == '<' && t[1] != '>' then
        (match Find(t, '>', 1)
         case Some(k) => Some(Match(k + 1, ""))
         case None => None)
      else None
    case Blanks =>
      if t != [] && IsBlank(t[0]) then Some(Match(BlankRun(t), " ")) else None
    case Newlines =>
      var n := CharRun(t, '\n');
      if n >= 3 then Some(Match(n, "\n\n")) else None
  }

  /** `t.replace(re, rep)` for a global regular expression. */
  function Replace(r: Rule, t: string): string
    decreases |t|
  {
    if t == [] then []
    else match MatchAt(r, t)
      case Some(m) => m.rep + Replace(r, t[m.len..])
      case None => [t[0]] + Replace(r, t[1..])
  }

  /** The six tag rewrites that precede the catch-all. */
  function RewriteTags(s: string): string {
    Replace(Break, Replace(Paragraph, Replace(ListTag, Replace(ListItem, Replace(Italic, Replace(Bold, s))))))
  }

  /** The catch-all, the two white-space passes and `trim`. */
  function Finish(s: string): string {
    Trim(Replace(Newlines, Replace(Blanks, Replace(AnyTag, s))))
  }

  /** `aiFormat(text)`. */
  function AiFormat(text: Option<string>): string {
    if !Truthy(text) then "" else Finish(RewriteTags(text.value))
  }

  // ---------------------------------------------------------------------
  // Properties of the output
  // ---------------------------------------------------------------------

  /** Every `<` is followed directly by `>` or by no `>` at all. */
  predicate NoTag(s: string) {
    forall i :: 0 <= i < |s| && s[i] == '<' ==> (i + 1 < |s| && s[i + 1] == '>') || '>' !in s[i + 1..]
  }

  predicate NoTab(s: string) {
    forall i :: 0 <= i < |s| ==> s[i] != '\t'
  }

  predicate NoDoubleSpace(s: string) {
    forall i :: 0 <= i && i + 1 < |s| ==> !(s[i] == ' ' && s[i + 1] == ' ')
  }

  /** A falsy input gives the empty string. */
  lemma AiFormatFalsy(text: Option<string>)
    requires !Truthy(text)
    ensures AiFormat(text) == ""
  {
  }

  /** `NoTag` says exactly that the catch-all expression matches nowhere. */
  lemma NoTagMeansNoMatch(s: string)
    ensures NoTag(s) <==> forall i :: 0 <= i < |s| ==> MatchAt(AnyTag, s[i..]).None?
  {
    if NoTag(s) {
      forall i | 0 <= i < |s| ensures MatchAt(AnyTag, s[i..]).None? {
        var t := s[i..];
        if |t| >= 2 && t[0] == '<' && t[1] != '>' {
          assert '>' !in s[i + 1..];
          assert t[1..] == s[i + 1..];
          assert Find(t, '>', 1).None?;
        }
      }
    } else {
      var i :| 0 <= i < |s| && s[i] == '<' && !((i + 1 < |s| && s[i + 1] == '>') || '>' !in s[i + 1..]);
      var t := s[i..];
      var j :| 0 <= j < |s[i + 1..]| && s[i + 1..][j] == '>';
      assert t[j + 1] == '>';
      assert Find(t, '>', 1).Some?;
      assert MatchAt(AnyTag, s[i..]).Some?;
    }
  }

  lemma NoTagCons(c: char, t: string)
    requires NoTag(t)
    requires c == '<' ==> (t != [] && t[0] == '>') || '>' !in t
    ensures NoTag([c] + t)
  {
    var s := [c] + t;
    forall i | 0 <= i < |s| && s[i] == '<'
      ensures (i + 1 < |s| && s[i + 1] == '>') || '>' !in s[i + 1..]
    {
      if i > 0 {
        assert s[i + 1..] == t[i..];
      } else {
        assert s[1..] == t;
      }
    }
  }

  lemma NoTagSuffix(s: string, k: nat)
    requires NoTag(s) && k <= |s|
    ensures NoTag(s[k..])
  {
    var t := s[k..];
    forall i | 0 <= i < |t| && t[i] == '<'
      ensures (i + 1 < |t| && t[i + 1] == '>') || '>' !in t[i + 1..]
    {
      assert t[i + 1..] == s[k + i + 1..];
    }
  }

  lemma NoTagSlice(s: string, a: nat, b: nat)
    requires NoTag(s) && a <= b <= |s|
    ensures NoTag(s[a..b])
  {
    var t := s[a..b];
    forall i | 0 <= i < |t| && t[i] == '<'
      ensures (i + 1 < |t| && t[i + 1] == '>') || '>' !in t[i + 1..]
    {
      assert s[a + i] == '<';
      if '>' in t[i + 1..] {
        var j :| 0 <= j < |t[i + 1..]| && t[i + 1..][j] == '>';
        assert s[a + i + 1..][j] == '>';
        assert s[a + i + 1] == '>';
      }
    }
  }

  // --- The catch-all pass --------------------------------------------------

  /** The catch-all pass only removes characters. */
  lemma {:induction false} AnyTagAddsNoChar(s: string, c: char)
    requires c !in s
    ensures c !in Replace(AnyTag, s)
    decreases |s|
  {
    if s != [] {
      match MatchAt(AnyTag, s)
      case Some(m) =>
        assert c !in s[m.len..];
        AnyTagAddsNoChar(s[m.len..], c);
      case None =>
        assert c !in s[1..];
        AnyTagAddsNoChar(s[1..], c);
    }
  }

  /** The catch-all pass leaves no tag behind. */
  lemma {:induction false} AnyTagLeavesNoTag(s: string)
    ensures NoTag(Replace(AnyTag, s))
    decreases |s|
  {
    if s != [] {
      match MatchAt(AnyTag, s)
      case Some(m) =>
        AnyTagLeavesNoTag(s[m.len..]);
      case None =>
        var rest := Replace(AnyTag, s[1..]);
        AnyTagLeavesNoTag(s[1..]);
        if s[0] == '<' {
          if |s| >= 2 && s[1] == '>' {
            assert MatchAt(AnyTag, s[1..]).None?;
            assert rest == [s[1]] + Replace(AnyTag, s[2..]);
          } else if |s| >= 2 {
            assert Find(s, '>', 1).None?;
            assert '>' !in s[1..];
            AnyTagAddsNoChar(s[1..], '>');
          }
        }
        NoTagCons(s[0], rest);
    }
  }

  // --- The blank pass --------------------------------------------------------

  /** The blank pass adds no character other than a space. */
  lemma {:induction false} BlanksAddsNoChar(s: string, c: char)
    requires c !in s && c != ' '
    ensures c !in Replace(Blanks, s)
    decreases |s|
  {
    if s != [] {
      match MatchAt(Blanks, s)
      case Some(m) =>
        assert c !in s[m.len..];
        BlanksAddsNoChar(s[m.len..], c);
      case None =>
        assert c !in s[1..];
        BlanksAddsNoChar(s[1..], c);
    }
  }

  /** The first character of the output: a space for a leading run of
      blanks, otherwise the first character of the input. */
  lemma BlanksHead(s: string)
    requires s != []
    ensures Replace(Blanks, s) != []
    ensures Replace(Blanks, s)[0] == if IsBlank(s[0]) then ' ' else s[0]
  {
  }

  /** After the blank pass there is no tab and no two spaces in a row. */
  lemma {:induction false} BlanksClean(s: string)
    ensures NoTab(Replace(Blanks, s)) && NoDoubleSpace(Replace(Blanks, s))
    decreases |s|
  {
    if s != [] {
      match MatchAt(Blanks, s)
      case Some(m) =>
        var rest := s[m.len..];
        BlanksClean(rest);
        if rest != [] {
          BlanksHead(rest);
        }
      case None =>
        BlanksClean(s[1..]);
    }
  }

  lemma {:induction false} BlanksKeepsNoTag(s: string)
    requires NoTag(s)
    ensures NoTag(Replace(Blanks, s))
    decreases |s|
  {
    if s != [] {
      match MatchAt(Blanks, s)
      case Some(m) =>
        NoTagSuffix(s, m.len);
        BlanksKeepsNoTag(s[m.len..]);
        NoTagCons(' ', Replace(Blanks, s[m.len..]));
      case None =>
        var rest := Replace(Blanks, s[1..]);
        NoTagSuffix(s, 1);
        BlanksKeepsNoTag(s[1..]);
        if s[0] == '<' {
          if |s| >= 2 && s[1] == '>' {
            BlanksHead(s[1..]);
          } else {
            BlanksAddsNoChar(s[1..], '>');
          }
        }
        NoTagCons(s[0], rest);
    }
  }

  // --- The newline pass ------------------------------------------------------

  /** The newline pass adds no character other than a newline. */
  lemma {:induction false} NewlinesAddsNoChar(s: string, c: char)
    requires c !in s && c != '\n'
    ensures c !in Replace(Newlines, s)
    decreases |s|
  {
    if s != [] {
      match MatchAt(Newlines, s)
      case Some(m) =>
        assert c !in s[m.len..];
        NewlinesAddsNoChar(s[m.len..], c);
      case None =>
        assert c !in s[1..];
        NewlinesAddsNoChar(s[1..], c);
    }
  }

  /** The pass never changes the first character. */
  lemma NewlinesHead(s: string)
    requires s != []
    ensures Replace(Newlines, s) != [] && Replace(Newlines, s)[0] == s[0]
  {
  }

  /** A leading run of newlines comes out at most two long, and exactly as
      long when it was shorter than three. */
  lemma {:induction false} NewlinesLeadingRun(s: string)
    ensures CharRun(Replace(Newlines, s), '\n') == if CharRun(s, '\n') >= 3 then 2 else CharRun(s, '\n')
    decreases |s|
  {
    if s != [] {
      var n := CharRun(s, '\n');
      if n >= 3 {
        var rest := s[n..];
        NewlinesLeadingRun(rest);
        assert Replace(Newlines, s) == "\n\n" + Replace(Newlines, rest);
        assert CharRun("\n\n" + Replace(Newlines, rest), '\n') == 2 + CharRun(Replace(Newlines, rest), '\n') by {
          var x := Replace(Newlines, rest);
          assert ("\n\n" + x)[1..] == "\n" + x;
          assert ("\n" + x)[1..] == x;
        }
      } else {
        NewlinesLeadingRun(s[1..]);
        assert Replace(Newlines, s) == [s[0]] + Replace(Newlines, s[1..]);
        assert ([s[0]] + Replace(Newlines, s[1..]))[1..] == Replace(Newlines, s[1..]);
      }
    }
  }

  lemma NoTripleAfterPair(rest: string)
    requires NoThreeInARow(rest, '\n') && CharRun(rest, '\n') == 0
    ensures NoThreeInARow("\n\n" + rest, '\n')
  {
    var out := "\n\n" + rest;
    forall i | 0 <= i && i + 2 < |out|
      ensures !(out[i] == '\n' && out[i + 1] == '\n' && out[i + 2] == '\n')
    {
      if i >= 2 {
        assert out[i] == rest[i - 2] && out[i + 1] == rest[i - 1] && out[i + 2] == rest[i];
      } else {
        assert out[2] == rest[0];
      }
    }
  }

  /** After the newline pass no three newlines stand in a row. */
  lemma {:induction false} NewlinesClean(s: string)
    ensures NoThreeInARow(Replace(Newlines, s), '\n')
    decreases |s|
  {
    if s != [] {
      var n := CharRun(s, '\n');
      NewlinesLeadingRun(s);
      if n >= 3 {
        NewlinesClean(s[n..]);
        NewlinesLeadingRun(s[n..]);
        assert Replace(Newlines, s) == "\n\n" + Replace(Newlines, s[n..]);
        NoTripleAfterPair(Replace(Newlines, s[n..]));
      } else {
        NewlinesClean(s[1..]);
        assert Replace(Newlines, s) == [s[0]] + Replace(Newlines, s[1..]);
        NoThreeCons(s[0], Replace(Newlines, s[1..]), '\n');
      }
    }
  }

  /** The newline pass keeps what the blank pass established. */
  lemma {:induction false} NewlinesKeepsBlanksClean(s: string)
    requires NoTab(s) && NoDoubleSpace(s)
    ensures NoTab(Replace(Newlines, s)) && NoDoubleSpace(Replace(Newlines, s))
    decreases |s|
  {
    if s != [] {
      match MatchAt(Newlines, s)
      case Some(m) =>
        NewlinesKeepsBlanksClean(s[m.len..]);
      case None =>
        var rest := Replace(Newlines, s[1..]);
        NewlinesKeepsBlanksClean(s[1..]);
        if |s| >= 2 {
          NewlinesHead(s[1..]);
        }
        assert Replace(Newlines, s) == [s[0]] + rest;
    }
  }

  lemma {:induction false} NewlinesKeepsNoTag(s: string)
    requires NoTag(s)
    ensures NoTag(Replace(Newlines, s))
    decreases |s|
  {
    if s != [] {
      match MatchAt(Newlines, s)
      case Some(m) =>
        NoTagSuffix(s, m.len);
        NewlinesKeepsNoTag(s[m.len..]);
        NoTagCons('\n', Replace(Newlines, s[m.len..]));
        NoTagCons('\n', "\n" + Replace(Newlines, s[m.len..]));
        assert "\n\n" + Replace(Newlines, s[m.len..]) == ['\n'] + ("\n" + Replace(Newlines, s[m.len..]));
      case None =>
        var rest := Replace(Newlines, s[1..]);
        NoTagSuffix(s, 1);
        NewlinesKeepsNoTag(s[1..]);
        if s[0] == '<' {
          if |s| >= 2 && s[1] == '>' {
            NewlinesHead(s[1..]);
          } else {
            NewlinesAddsNoChar(s[1..], '>');
          }
        }
        NoTagCons(s[0], rest);
    }
  }

  /** The four properties of a cleaned-up text. */
  predicate Clean(s: string) {
    NoTag(s) && NoTab(s) && NoDoubleSpace(s) && NoThreeInARow(s, '\n')
  }

  /** The last three passes make any text clean. */
  lemma LastPassesClean(s: string)
    ensures Clean(Replace(Newlines, Replace(Blanks, Replace(AnyTag, s))))
  {
    var a := Replace(AnyTag, s);
    var b := Replace(Blanks, a);
    AnyTagLeavesNoTag(s);
    BlanksKeepsNoTag(a);
    BlanksClean(a);
    NewlinesKeepsNoTag(b);
    NewlinesKeepsBlanksClean(b);
    NewlinesClean(b);
  }

  lemma CleanSlice(s: string, i: nat, j: nat)
    requires Clean(s) && i <= j <= |s|
    ensures Clean(s[i..j])
  {
    NoTagSlice(s, i, j);
    var t := s[i..j];
    assert forall k :: 0 <= k < |t| ==> t[k] == s[i + k];
  }

  lemma TrimClean(s: string)
    requires Clean(s)
    ensures Clean(Trim(s))
  {
    TrimShape(s);
    var i, j :| 0 <= i <= j <= |s| && Trim(s) == s[i..j];
    CleanSlice(s, i, j);
  }

  /** What `aiFormat` promises of any input: no tag, no tab, no two spaces in
      a row, no three newlines in a row, and no white space at either end. */
  lemma AiFormatClean(text: Option<string>)
    ensures Clean(AiFormat(text))
    ensures AiFormat(text) != [] ==> !IsSpace(AiFormat(text)[0]) && !IsSpace(AiFormat(text)[|AiFormat(text)| - 1])
  {
    if Truthy(text) {
      var c := Replace(Newlines, Replace(Blanks, Replace(AnyTag, RewriteTags(text.value))));
      LastPassesClean(RewriteTags(text.value));
      TrimClean(c);
      TrimShape(c);
    }
  }

  // --- Formatted text is left alone -------------------------------------------

  /** A rule that rewrites tags. */
  predicate IsTagRule(r: Rule) {
    r != Blanks && r != Newlines
  }

  /** Case folding leaves punctuation alone and never yields one from a letter. */
  lemma LowerAsciiPunct(s: string)
    ensures forall i :: 0 <= i < |s| ==>
              (LowerAscii(s[i]) == '<' ==> s[i] == '<') && (LowerAscii(s[i]) == '>' ==> s[i] == '>') &&
              ('a' <= LowerAscii(s[i]) <= 'z' || LowerAscii(s[i]) == '/' ==> s[i] != '>')
  {
  }

  /** Everything a tag rule matches is a tag in the sense of the catch-all:
      `<`, then not `>`, and a `>` later on. */
  predicate TagShaped(s: string) {
    |s| >= 2 && s[0] == '<' && s[1] != '>' && '>' in s[1..]
  }

  /** The head of `word`, and so of `s` when `s` starts with it, is tag shaped. */
  lemma OpenShape(s: string, word: string, close: nat)
    requires |word| >= 2 && word[0] == '<' && ('a' <= word[1] <= 'z' || word[1] == '/')
    requires 1 <= close < |s| && s[close] == '>'
    ensures StartsWithCI(s, word) ==> TagShaped(s)
  {
    LowerAsciiPunct(s);
    assert s[1..][close - 1] == '>';
    assert StartsWithCI(s, word) ==> LowerAscii(s[0]) == '<' && LowerAscii(s[1]) == LowerAscii(word[1]);
  }

  lemma ClosedOpenShape(s: string, word: string)
    requires |word| >= 3 && word[0] == '<' && 'a' <= word[1] <= 'z' && word[|word| - 1] == '>'
    ensures StartsWithCI(s, word) ==> TagShaped(s)
  {
    if |word| <= |s| {
      LowerAsciiPunct(s);
      assert StartsWithCI(s, word) ==> LowerAscii(s[|word| - 1]) == '>';
      if s[|word| - 1] == '>' {
        OpenShape(s, word, |word| - 1);
      }
    }
  }

  lemma AttrsOpenShape(s: string, word: string)
    requires |word| >= 2 && word[0] == '<' && ('a' <= word[1] <= 'z' || word[1] == '/')
    ensures StartsWithCI(s, word) && Find(s, '>', |word|).Some? ==> TagShaped(s)
  {
    if |word| <= |s| {
      match Find(s, '>', |word|)
      case Some(k) => OpenShape(s, word, k);
      case None =>
    }
  }

  /** Whatever a tag rule matches is tag shaped. */
  lemma TagMatchShape(r: Rule, s: string)
    requires IsTagRule(r)
    ensures MatchAt(r, s).Some? ==> TagShaped(s)
  {
    match r
    case Bold =>
      ClosedOpenShape(s, "<b>");
      ClosedOpenShape(s, "<strong>");
    case Italic =>
      ClosedOpenShape(s, "<i>");
      ClosedOpenShape(s, "<em>");
    case ListItem =>
      AttrsOpenShape(s, "<li");
    case Paragraph =>
      AttrsOpenShape(s, "<p");
    case ListTag =>
      AttrsOpenShape(s, "</ul");
      AttrsOpenShape(s, "</ol");
      AttrsOpenShape(s, "<ul");
      AttrsOpenShape(s, "<ol");
    case Break =>
      if StartsWithCI(s, "<br") {
        var k := 3 + SpaceRun(s[3..]);
        if StartsWith(s[k..], "/>") {
          assert s[k..][1] == '>';
          OpenShape(s, "<br", k + 1);
        } else if StartsWith(s[k..], ">") {
          assert s[k..][0] == '>';
          OpenShape(s, "<br", k);
        }
      }
    case AnyTag =>
      if |s| >= 2 {
        match Find(s, '>', 1)
        case Some(k) => assert s[1..][k - 1] == '>';
        case None =>
      }
  }

  /** No tag rule matches where there is no tag. */
  lemma NoTagNoMatch(r: Rule, s: string)
    requires IsTagRule(r) && NoTag(s)
    ensures MatchAt(r, s).None?
  {
    TagMatchShape(r, s);
  }

  /** A tag pass leaves a text without tags unchanged. */
  lemma {:induction false} TagPassIdentity(r: Rule, s: string)
    requires IsTagRule(r) && NoTag(s)
    ensures Replace(r, s) == s
    decreases |s|
  {
    if s != [] {
      NoTagNoMatch(r, s);
      NoTagSuffix(s, 1);
      TagPassIdentity(r, s[1..]);
    }
  }

  lemma RewriteTagsIdentity(s: string)
    requires NoTag(s)
    ensures RewriteTags(s) == s
  {
    TagPassIdentity(Bold, s);
    TagPassIdentity(Italic, s);
    TagPassIdentity(ListItem, s);
    TagPassIdentity(ListTag, s);
    TagPassIdentity(Paragraph, s);
    TagPassIdentity(Break, s);
  }

  /** Single spaces survive the blank pass. */
  lemma {:induction false} BlanksIdentity(s: string)
    requires NoTab(s) && NoDoubleSpace(s)
    ensures Replace(Blanks, s) == s
    decreases |s|
  {
    if s != [] {
      if IsBlank(s[0]) {
        assert |s| >= 2 ==> !IsBlank(s[1]);
        assert BlankRun(s) == 1 by {
          assert BlankRun(s) == 1 + BlankRun(s[1..]);
        }
      }
      BlanksIdentity(s[1..]);
      assert s == [s[0]] + s[1..];
    }
  }

  /** Runs of one or two newlines survive the newline pass. */
  lemma {:induction false} NewlinesIdentity(s: string)
    requires NoThreeInARow(s, '\n')
    ensures Replace(Newlines, s) == s
    decreases |s|
  {
    if s != [] {
      assert CharRun(s, '\n') < 3 by {
        if |s| >= 3 {
          assert !(s[0] == '\n' && s[1] == '\n' && s[2] == '\n');
        }
      }
      NoThreeSlice(s, '\n', 1, |s|);
      assert s[1..|s|] == s[1..];
      NewlinesIdentity(s[1..]);
    }
  }

  /** A clean text without white space at its ends is a fixed point of `aiFormat`. */
  lemma AiFormatFixes(s: string)
    requires Clean(s)
    requires s != [] ==> !IsSpace(s[0]) && !IsSpace(s[|s| - 1])
    ensures s != [] ==> AiFormat(Some(s)) == s
  {
    RewriteTagsIdentity(s);
    TagPassIdentity(AnyTag, s);
    BlanksIdentity(s);
    NewlinesIdentity(s);
    TrimIdentity(s);
  }

  /** Formatting twice is formatting once. */
  lemma AiFormatIdempotent(text: Option<string>)
    ensures AiFormat(Some(AiFormat(text))) == AiFormat(text)
  {
    AiFormatClean(text);
    AiFormatFixes(AiFormat(text));
  }

  // --- The tag rewrites ------------------------------------------------------

  /** `s` is `word` up to the case of ASCII letters. */
  predicate EqualsCI(s: string, word: string) {
    |s| == |word| && StartsWithCI(s, word)
  }

  lemma StartsWithCIAppend(a: string, b: string, word: string)
    requires EqualsCI(a, word)
    ensures StartsWithCI(a + b, word)
  {
    assert forall i :: 0 <= i < |word| ==> (a + b)[i] == a[i];
  }

  /** Scanning lazily over text with no `<` and no line terminator reaches the closing tag. */
  lemma {:induction false} LazyCloseSkips(t: string, from: nat, k: nat, c1: string, c2: string)
    requires from <= k <= |t|
    requires c1 != [] && c2 != [] && c1[0] == '<' && c2[0] == '<'
    requires forall j :: from <= j < k ==> t[j] != '<' && !IsLineTerminator(t[j])
    ensures LazyClose(t, from, c1, c2) == LazyClose(t, k, c1, c2)
    decreases k - from
  {
    if from < k {
      assert LowerAscii(t[from]) != '<';
      assert !StartsWithCI(t[from..], c1) && !StartsWithCI(t[from..], c2);
      LazyCloseSkips(t, from + 1, k, c1, c2);
    }
  }

  /** Text between an opening and a closing tag, with no `<` and no line terminator. */
  predicate Plain(x: string) {
    forall j :: 0 <= j < |x| ==> x[j] != '<' && !IsLineTerminator(x[j])
  }

  /** The common shape of the rewrites: a rule whose whole match is the input
      rewrites it once and stops. */
  lemma ReplaceWhole(r: Rule, t: string, rep: string)
    requires t != [] && MatchAt(r, t) == Some(Match(|t|, rep))
    ensures Replace(r, t) == rep
  {
    assert t[|t|..] == [];
  }

  /** The pieces of a three-part concatenation, read back by slicing. */
  lemma ThreeSlices(a: string, x: string, c: string)
    ensures (a + x + c)[|a|..|a| + |x|] == x && (a + x + c)[|a| + |x|..] == c
    ensures forall j :: |a| <= j < |a| + |x| ==> (a + x + c)[j] == x[j - |a|]
  {
  }

  /** A closing tag that is the rest of the text is found where it starts. */
  lemma CloseAt(t: string, k: nat, c: string, c1: string, c2: string)
    requires k <= |t| && t[k..] == c && c1 != [] && c2 != []
    requires (EqualsCI(c, c1)) || (EqualsCI(c, c2) && !StartsWithCI(c, c1))
    ensures LazyClose(t, k, c1, c2) == Some((k, |c|))
  {
  }

  /** Where the closing tag found after the opening one ends the text, the
      match is the whole text. */
  lemma EnclosedUpTo(t: string, o: nat, k: nat, n: nat, c1: string, c2: string, before: string, after: string)
    requires 0 < o <= k && k + n == |t| && c1 != [] && c2 != []
    requires LazyClose(t, o, c1, c2) == Some((k, n))
    ensures Enclosed(t, o, c1, c2, before, after) == Some(Match(|t|, before + t[o..k] + after))
  {
  }

  lemma EnclosedWhole(a: string, x: string, c: string, c1: string, c2: string, before: string, after: string)
    requires a != [] && c1 != [] && c2 != [] && c1[0] == '<' && c2[0] == '<'
    requires Plain(x)
    requires (EqualsCI(c, c1)) || (EqualsCI(c, c2) && !StartsWithCI(c, c1))
    ensures Enclosed(a + x + c, |a|, c1, c2, before, after) == Some(Match(|a + x + c|, before + x + after))
  {
    var t := a + x + c;
    var k := |a| + |x|;
    ThreeSlices(a, x, c);
    LazyCloseSkips(t, |a|, k, c1, c2);
    CloseAt(t, k, c, c1, c2);
    EnclosedUpTo(t, |a|, k, |c|, c1, c2, before, after);
  }

  /** `<b>x</b>` and `<strong>x</strong>`, in any case and in any pairing,
      become `**x**`. */
  lemma BoldRewrite(o: string, x: string, c: string)
    requires EqualsCI(o, "<b>") || EqualsCI(o, "<strong>")
    requires EqualsCI(c, "</b>") || EqualsCI(c, "</strong>")
    requires Plain(x)
    ensures Replace(Bold, o + x + c) == "**" + x + "**"
  {
    var t := o + x + c;
    assert t[..|o|] == o;
    StartsWithCIAppend(o, x + c, if EqualsCI(o, "<b>") then "<b>" else "<strong>");
    assert t == o + (x + c);
    if EqualsCI(o, "<strong>") {
      assert LowerAscii(t[1]) == 's';
    }
    assert OpenPlain(t, "<b>", "<strong>") == |o|;
    if EqualsCI(c, "</strong>") {
      assert LowerAscii(c[2]) == 's';
    }
    EnclosedWhole(o, x, c, "</b>", "</strong>", "**", "**");
    ReplaceWhole(Bold, t, "**" + x + "**");
  }

  /** `<i>x</i>` and `<em>x</em>`, in any case and in any pairing, become `*x*`. */
  lemma ItalicRewrite(o: string, x: string, c: string)
    requires EqualsCI(o, "<i>") || EqualsCI(o, "<em>")
    requires EqualsCI(c, "</i>") || EqualsCI(c, "</em>")
    requires Plain(x)
    ensures Replace(Italic, o + x + c) == "*" + x + "*"
  {
    var t := o + x + c;
    assert t[..|o|] == o;
    StartsWithCIAppend(o, x + c, if EqualsCI(o, "<i>") then "<i>" else "<em>");
    assert t == o + (x + c);
    if EqualsCI(o, "<em>") {
      assert LowerAscii(t[1]) == 'e';
    }
    assert OpenPlain(t, "<i>", "<em>") == |o|;
    if EqualsCI(c, "</em>") {
      assert LowerAscii(c[2]) == 'e';
    }
    EnclosedWhole(o, x, c, "</i>", "</em>", "*", "*");
    ReplaceWhole(Italic, t, "*" + x + "*");
  }

  /** An opening tag with attributes ends at its first `>`. */
  lemma OpenAttrsAt(o: string, attrs: string, rest: string, word: string)
    requires EqualsCI(o, word) && '>' !in attrs
    ensures OpenAttrs(o + attrs + ">" + rest, word) == |o| + |attrs| + 1
  {
    var t := o + attrs + ">" + rest;
    assert t == o + (attrs + ">" + rest);
    StartsWithCIAppend(o, attrs + ">" + rest, word);
    assert forall j :: |o| <= j < |o| + |attrs| ==> t[j] == attrs[j - |o|];
    assert t[|o| + |attrs|] == '>';
    assert Find(t, '>', |word|) == Some(|o| + |attrs|);
  }

  /** `<p attrs>x</p>` becomes `x` and two newlines. */
  lemma ParagraphRewrite(o: string, attrs: string, x: string, c: string)
    requires EqualsCI(o, "<p") && EqualsCI(c, "</p>")
    requires '>' !in attrs
    requires Plain(x)
    ensures Replace(Paragraph, o + attrs + ">" + x + c) == x + "\n\n"
  {
    var head := o + attrs + ">";
    var t := head + x + c;
    OpenAttrsAt(o, attrs, x + c, "<p");
    assert head + (x + c) == t;
    EnclosedWhole(head, x, c, "</p>", "</p>", "", "\n\n");
    assert "" + x + "\n\n" == x + "\n\n";
    ReplaceWhole(Paragraph, t, x + "\n\n");
  }

  /** `<li attrs>x</li>` becomes the bullet, `x` and a newline. */
  lemma ListItemRewrite(o: string, attrs: string, x: string, c: string)
    requires EqualsCI(o, "<li") && EqualsCI(c, "</li>")
    requires '>' !in attrs
    requires Plain(x)
    ensures Replace(ListItem, o + attrs + ">" + x + c) == Bullet + x + "\n"
  {
    var head := o + attrs + ">";
    var t := head + x + c;
    OpenAttrsAt(o, attrs, x + c, "<li");
    assert head + (x + c) == t;
    EnclosedWhole(head, x, c, "</li>", "</li>", Bullet, "\n");
    ReplaceWhole(ListItem, t, Bullet + x + "\n");
  }

  /** `<br>`, `<br/>` and `<br />` (any white space before the optional
      slash, any case) become a newline. */
  lemma BreakRewrite(o: string, ws: string, close: string)
    requires EqualsCI(o, "<br")
    requires forall j :: 0 <= j < |ws| ==> IsSpace(ws[j])
    requires close == ">" || close == "/>"
    ensures Replace(Break, o + ws + close) == "\n"
  {
    var t := o + ws + close;
    assert t == o + (ws + close);
    StartsWithCIAppend(o, ws + close, "<br");
    assert t[3..] == ws + close;
    SpaceRunPrefix(ws, close);
    assert t[3 + |ws|..] == close;
    ReplaceWhole(Break, t, "\n");
  }

  lemma SpaceRunPrefix(ws: string, rest: string)
    requires forall j :: 0 <= j < |ws| ==> IsSpace(ws[j])
    requires rest != [] && !IsSpace(rest[0])
    ensures SpaceRun(ws + rest) == |ws|
  {
    var s := ws + rest;
    assert s[|ws|] == rest[0];
    assert forall j :: 0 <= j < |ws| ==> s[j] == ws[j];
  }

  /** A whole reply in bold, with no white space in it, comes out in asterisks. */
  lemma BoldReply(x: string)
    requires Plain(x) && NoSpace(x)
    ensures AiFormat(Some("<b>" + x + "</b>")) == "**" + x + "**"
  {
    var md := "**" + x + "**";
    BoldTags(x);
    StarredClean(x);
    AiFormatFixes(md);
    RewriteTagsIdentity(md);
  }

  lemma BoldTags(x: string)
    requires Plain(x) && NoSpace(x)
    ensures RewriteTags("<b>" + x + "</b>") == "**" + x + "**"
  {
    BoldRewrite("<b>", x, "</b>");
    StarredClean(x);
    RewriteTagsStep("**" + x + "**");
  }

  lemma StarredClean(x: string)
    requires Plain(x) && NoSpace(x)
    ensures forall i :: 0 <= i < |"**" + x + "**"| ==> ("**" + x + "**")[i] != '<'
    ensures Clean("**" + x + "**")
  {
    var md := "**" + x + "**";
    assert forall i :: 2 <= i < 2 + |x| ==> md[i] == x[i - 2];
    assert forall i :: 0 <= i < |md| ==> md[i] != '<' && !IsSpace(md[i]);
    assert NoTag(md);
  }

  /** After the bold pass, the other five tag passes find no tag. */
  lemma RewriteTagsStep(md: string)
    requires forall i :: 0 <= i < |md| ==> md[i] != '<'
    ensures Replace(Break, Replace(Paragraph, Replace(ListTag, Replace(ListItem, Replace(Italic, md))))) == md
  {
    assert NoTag(md);
    TagPassIdentity(Italic, md);
    TagPassIdentity(ListItem, md);
    TagPassIdentity(ListTag, md);
    TagPassIdentity(Paragraph, md);
    TagPassIdentity(Break, md);
  }
}
