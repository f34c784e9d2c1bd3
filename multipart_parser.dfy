/** `parseMultipart` (backend/src/utils/multipart-parser.js).

    Busboy is replaced by the list of events it would deliver to the handlers
    the function installs: a file part (with its own stream), a chunk of a
    file stream, the end of a file stream, a text field, a parse error and
    the end of the body. The promise settles at the first 'finish' or
    'error'; `Decode` is its value, `None` when it never settles. */
module MultipartParser {
  import opened Wrappers
  import opened JsString

  newtype byte = x: int | 0 <= x < 256

  /** The record the 'end' handler pushes onto `result.files`. */
  datatype FileRecord = FileRecord(
    fieldname: string,
    originalname: string,
    originalNameRaw: Option<string>,
    encoding: string,
    mimetype: string,
    buffer: seq<byte>,
    size: nat)

  /** One callback from Busboy. File streams are named by a number; `clock` is
      what `Date.now()` returns while the 'file' handler runs. */
  datatype Event =
    | FilePart(stream: nat, fieldname: string, filename: Option<string>,
               encoding: string, mimeType: string, clock: nat)
    | FileChunk(stream: nat, chunk: seq<byte>)
    | FileEnd(stream: nat)
    | FieldPart(name: string, value: string)
    | ParseError
    | Finish

  predicate IsTerminal(e: Event) {
    e.ParseError? || e.Finish?
  }

  /** What `parseMultipart` reads from `req`: the content type, the body an
      earlier middleware may have parsed, whether Busboy's constructor throws,
      and the events of the body. */
  datatype Request = Request(
    contentType: Option<string>,
    body: Option<map<string, string>>,
    initFails: bool,
    events: seq<Event>)

  datatype Parsed = Parsed(fields: map<string, string>, files: seq<FileRecord>)

  const MultipartType := "multipart/form-data"

  /** The `fileSize` limit handed to Busboy (50 MiB). */
  const FileSizeLimit: nat := 50 * 1024 * 1024

  /** The accessor `Object.prototype.__proto__`: assigning a string to it on a
      plain object does nothing, so a text field of this name is dropped. */
  const ProtoKey := "__proto__"

  /** The properties every plain object inherits from `Object.prototype`; on
      `{}` each reads as a truthy value that is not an array. */
  predicate PrototypeKey(name: string) {
    name in {"constructor", "__proto__", "toString", "toLocaleString", "valueOf",
             "hasOwnProperty", "isPrototypeOf", "propertyIsEnumerable",
             "__defineGetter__", "__defineSetter__", "__lookupGetter__", "__lookupSetter__"}
  }

  predicate IsMultipart(contentType: Option<string>) {
    Contains(contentType.GetOr(""), MultipartType)
  }

  // ---------------------------------------------------------------------
  // The filename sanitiser (multipart-parser.js:29-37)
  // ---------------------------------------------------------------------

  /** The class `[a-zA-Z0-9.\-_]`. */
  predicate IsAllowed(c: char) {
    'a' <= c <= 'z' || 'A' <= c <= 'Z' || '0' <= c <= '9' || c == '.' || c == '-' || c == '_'
  }

  /** The class `[a-z0-9._-]` every sanitised name is drawn from. */
  predicate IsSafe(c: char) {
    'a' <= c <= 'z' || '0' <= c <= '9' || c == '.' || c == '-' || c == '_'
  }

  predicate AllAllowed(s: string) {
    forall i :: 0 <= i < |s| ==> IsAllowed(s[i])
  }

  predicate AllSafe(s: string) {
    forall i :: 0 <= i < |s| ==> IsSafe(s[i])
  }

  predicate NoUpper(s: string) {
    forall i :: 0 <= i < |s| ==> !IsAsciiUpper(s[i])
  }

  predicate NoDoubleDash(s: string) {
    forall i :: 0 <= i && i + 1 < |s| ==> !(s[i] == '-' && s[i + 1] == '-')
  }

  /** `.replace(/[^a-zA-Z0-9.\-_]/g, '')` */
  function KeepAllowed(s: string): string {
    if s == [] then []
    else (if IsAllowed(s[0]) then [s[0]] else []) + KeepAllowed(s[1..])
  }

  function DashRun(s: string): (n: nat)
    ensures n <= |s|
    ensures n < |s| ==> s[n] != '-'
  {
    if s != [] && s[0] == '-' then 1 + DashRun(s[1..]) else 0
  }

  /** `.replace(/-+/g, '-')` */
  function CollapseDashes(s: string): string
    decreases |s|
  {
    if s == [] then []
    else if s[0] == '-' then "-" + CollapseDashes(s[DashRun(s)..])
    else [s[0]] + CollapseDashes(s[1..])
  }

  /** `.toLowerCase()`; after `KeepAllowed` only ASCII letters are left to lower. */
  function ToLower(s: string): (r: string)
    ensures |r| == |s|
    ensures forall i :: 0 <= i < |s| ==> r[i] == LowerAscii(s[i])
  {
    if s == [] then [] else [LowerAscii(s[0])] + ToLower(s[1..])
  }

  /** The pipeline applied to a truthy filename. */
  function Sanitize(filename: string): string {
    ToLower(CollapseDashes(KeepAllowed(ReplaceSpaceRuns(filename, "-"))))
  }

  /** `safeFilename`: the sanitised name, or `file-<Date.now()>` for a missing or empty one. */
  function SafeFilename(filename: Option<string>, clock: nat): string {
    if Truthy(filename) then Sanitize(filename.value) else "file-" + NatToString(clock)
  }

  lemma {:induction false} KeepAllowedOnlyAllowed(s: string)
    ensures AllAllowed(KeepAllowed(s))
  {
    if s != [] {
      KeepAllowedOnlyAllowed(s[1..]);
    }
  }

  lemma {:induction false} KeepAllowedIdentity(s: string)
    requires AllAllowed(s)
    ensures KeepAllowed(s) == s
  {
    if s != [] {
      KeepAllowedIdentity(s[1..]);
    }
  }

  /** Collapsing introduces no character that was not there: every character
      of the result is allowed when every character of the input is. */
  lemma {:induction false} CollapseDashesKeepsAllowed(s: string)
    requires AllAllowed(s)
    ensures AllAllowed(CollapseDashes(s))
    decreases |s|
  {
    if s != [] {
      if s[0] == '-' {
        CollapseDashesKeepsAllowed(s[DashRun(s)..]);
      } else {
        CollapseDashesKeepsAllowed(s[1..]);
      }
    }
  }

  /** The result starts with a dash exactly when the input does. */
  lemma CollapseDashesHead(s: string)
    requires s != []
    ensures CollapseDashes(s) != [] && (CollapseDashes(s)[0] == '-' <==> s[0] == '-')
  {
  }

  lemma {:induction false} CollapseDashesNoDoubleDash(s: string)
    ensures NoDoubleDash(CollapseDashes(s))
    decreases |s|
  {
    if s != [] {
      var k := if s[0] == '-' then DashRun(s) else 1;
      var rest := s[k..];
      CollapseDashesNoDoubleDash(rest);
      if rest != [] {
        CollapseDashesHead(rest);
      }
    }
  }

  lemma {:induction false} CollapseDashesIdentity(s: string)
    requires NoDoubleDash(s)
    ensures CollapseDashes(s) == s
    decreases |s|
  {
    if s != [] {
      if s[0] == '-' {
        assert DashRun(s) == 1;
      }
      CollapseDashesIdentity(s[1..]);
    }
  }

  lemma ToLowerIdentity(s: string)
    requires NoUpper(s)
    ensures ToLower(s) == s
  {
  }

  /** A sanitised name draws only on `[a-z0-9._-]`. */
  lemma SanitizedChars(filename: string)
    ensures AllSafe(Sanitize(filename))
  {
    var a := KeepAllowed(ReplaceSpaceRuns(filename, "-"));
    KeepAllowedOnlyAllowed(ReplaceSpaceRuns(filename, "-"));
    CollapseDashesKeepsAllowed(a);
  }

  /** A sanitised name never holds `--`: dashes are collapsed after stripping. */
  lemma SanitizedNoDoubleDash(filename: string)
    ensures NoDoubleDash(Sanitize(filename))
  {
    var c := CollapseDashes(KeepAllowed(ReplaceSpaceRuns(filename, "-")));
    CollapseDashesNoDoubleDash(KeepAllowed(ReplaceSpaceRuns(filename, "-")));
    assert forall i :: 0 <= i < |c| ==> (ToLower(c)[i] == '-' <==> c[i] == '-');
  }

  /** Sanitising twice is sanitising once. */
  lemma SanitizeIdempotent(filename: string)
    ensures Sanitize(Sanitize(filename)) == Sanitize(filename)
  {
    var s := Sanitize(filename);
    SanitizedChars(filename);
    SanitizedNoDoubleDash(filename);
    assert NoSpace(s) by {
      forall i | 0 <= i < |s| ensures !IsSpace(s[i]) {
        assert IsSafe(s[i]);
      }
    }
    ReplaceSpaceRunsIdentity(s, "-");
    KeepAllowedIdentity(s);
    CollapseDashesIdentity(s);
    ToLowerIdentity(s);
  }

  /** The sanitiser can empty a name: one made only of non-ASCII letters. */
  lemma SanitizeCanBeEmpty()
    ensures Sanitize("\U{00E9}\U{00E8}") == ""
  {
    assert ReplaceSpaceRuns("\U{00E9}\U{00E8}", "-") == "\U{00E9}\U{00E8}";
    assert KeepAllowed("\U{00E9}\U{00E8}") == "";
  }

  // ---------------------------------------------------------------------
  // The handlers as a fold over events (multipart-parser.js:19-69)
  // ---------------------------------------------------------------------

  /** What the 'file' handler captures in its closure. */
  datatype Header = Header(
    fieldname: string,
    safeFilename: string,
    rawFilename: Option<string>,
    encoding: string,
    mimeType: string)

  /** An open file stream: its header and the `buffers` array filled by 'data'. */
  datatype Pending = Pending(header: Header, buffers: seq<seq<byte>>)

  /** `result`, plus the file streams that have not ended yet. */
  datatype State = State(fields: map<string, string>, files: seq<FileRecord>, open: map<nat, Pending>)

  const Init := State(map[], [], map[])

  /** `Buffer.concat(buffers)` */
  function Concat(chunks: seq<seq<byte>>): seq<byte> {
    if chunks == [] then [] else Concat(chunks[..|chunks| - 1]) + chunks[|chunks| - 1]
  }

  function HeaderOf(e: Event): Header
    requires e.FilePart?
  {
    Header(e.fieldname, SafeFilename(e.filename, e.clock), e.filename, e.encoding, e.mimeType)
  }

  function Record(h: Header, buffers: seq<seq<byte>>): FileRecord {
    FileRecord(h.fieldname, h.safeFilename, h.rawFilename, h.encoding, h.mimeType,
               Concat(buffers), |Concat(buffers)|)
  }

  /** One handler run. Terminal events settle the promise and change nothing. */
  function Step(st: State, e: Event): State {
    match e
    case FilePart(id, _, _, _, _, _) =>
      st.(open := st.open[id := Pending(HeaderOf(e), [])])
    case FileChunk(id, c) =>
      if id in st.open then st.(open := st.open[id := st.open[id].(buffers := st.open[id].buffers + [c])])
      else st
    case FileEnd(id) =>
      if id in st.open then
        var p := st.open[id];
        st.(files := if |p.buffers| > 0 then st.files + [Record(p.header, p.buffers)] else st.files,
            open := st.open - {id})
      else st
    case FieldPart(name, value) =>
      if name == ProtoKey then st else st.(fields := st.fields[name := value])
    case ParseError => st
    case Finish => st
  }

  function Run(evs: seq<Event>): State {
    if evs == [] then Init else Step(Run(evs[..|evs| - 1]), evs[|evs| - 1])
  }

  /** One more handler run extends the run over a prefix of the events by one. */
  lemma RunAdvance(evs: seq<Event>, i: nat, st: State, st': State)
    requires i < |evs| && st == Run(evs[..i]) && st' == Step(st, evs[i])
    ensures st' == Run(evs[..i + 1])
  {
    assert evs[..i + 1][..i] == evs[..i];
  }

  /** Index of the first 'finish' or 'error'. */
  function FirstTerminal(evs: seq<Event>): (k: Option<nat>)
    ensures k.Some? ==> k.value < |evs| && IsTerminal(evs[k.value])
    ensures k.Some? ==> forall j :: 0 <= j < k.value ==> !IsTerminal(evs[j])
    ensures k.None? ==> forall j :: 0 <= j < |evs| ==> !IsTerminal(evs[j])
  {
    if evs == [] then None
    else if IsTerminal(evs[0]) then Some(0)
    else match FirstTerminal(evs[1..])
      case None => None
      case Some(k) => Some(k + 1)
  }

  lemma FirstTerminalAt(evs: seq<Event>, k: nat)
    requires k < |evs| && IsTerminal(evs[k])
    requires forall j :: 0 <= j < k ==> !IsTerminal(evs[j])
    ensures FirstTerminal(evs) == Some(k)
  {
    match FirstTerminal(evs)
    case None =>
    case Some(m) =>
  }

  /** What the handlers settle the promise with once Busboy runs over the
      events; `None` if neither 'finish' nor 'error' arrives. */
  function Settled(evs: seq<Event>): Option<Parsed> {
    match FirstTerminal(evs)
    case None => None
    case Some(k) => var st := Run(evs[..k]); Some(Parsed(st.fields, st.files))
  }

  /** The value the promise of `parseMultipart` resolves with; `None` if it never settles. */
  function Decode(req: Request): Option<Parsed> {
    if !IsMultipart(req.contentType) then Some(Parsed(req.body.GetOr(map[]), []))
    else if req.initFails then Some(Parsed(map[], []))
    else Settled(req.events)
  }

  // ---------------------------------------------------------------------
  // An independent account of what the events deliver
  // ---------------------------------------------------------------------

  /** The header of the file part that opened stream `id`. */
  function StartOf(evs: seq<Event>, id: nat): Option<Header> {
    if evs == [] then None
    else
      var e := evs[|evs| - 1];
      if e.FilePart? && e.stream == id then Some(HeaderOf(e)) else StartOf(evs[..|evs| - 1], id)
  }

  function Ended(evs: seq<Event>, id: nat): bool {
    if evs == [] then false
    else
      var e := evs[|evs| - 1];
      (e.FileEnd? && e.stream == id) || Ended(evs[..|evs| - 1], id)
  }

  /** The chunks stream `id` delivered, in order. */
  function ChunksOf(evs: seq<Event>, id: nat): seq<seq<byte>> {
    if evs == [] then []
    else
      var e := evs[|evs| - 1];
      ChunksOf(evs[..|evs| - 1], id) + (if e.FileChunk? && e.stream == id then [e.chunk] else [])
  }

  /** The value of the last text field called `name`. */
  function LastValue(evs: seq<Event>, name: string): Option<string> {
    if evs == [] then None
    else
      var e := evs[|evs| - 1];
      if e.FieldPart? && e.name == name then Some(e.value) else LastValue(evs[..|evs| - 1], name)
  }

  /** One record per file stream that ended after delivering at least one
      chunk, in the order the streams ended, holding exactly those chunks. */
  function ExpectedFiles(evs: seq<Event>): seq<FileRecord> {
    if evs == [] then []
    else
      var p := evs[..|evs| - 1];
      var e := evs[|evs| - 1];
      if e.FileEnd? && StartOf(p, e.stream).Some? && !Ended(p, e.stream) && ChunksOf(p, e.stream) != []
      then ExpectedFiles(p) + [Record(StartOf(p, e.stream).value, ChunksOf(p, e.stream))]
      else ExpectedFiles(p)
  }

  /** What Busboy guarantees: each stream opens once, and delivers chunks and
      its end only while open. */
  predicate WellFormed(evs: seq<Event>) {
    if evs == [] then true
    else
      var p := evs[..|evs| - 1];
      var e := evs[|evs| - 1];
      WellFormed(p) &&
      match e
      case FilePart(id, _, _, _, _, _) => StartOf(p, id).None?
      case FileChunk(id, _) => StartOf(p, id).Some? && !Ended(p, id)
      case FileEnd(id) => StartOf(p, id).Some? && !Ended(p, id)
      case _ => true
  }

  lemma {:induction false} NotStartedIsQuiet(evs: seq<Event>, id: nat)
    requires WellFormed(evs) && StartOf(evs, id).None?
    ensures ChunksOf(evs, id) == [] && !Ended(evs, id)
  {
    if evs != [] {
      NotStartedIsQuiet(evs[..|evs| - 1], id);
    }
  }

  /** The fold agrees with the reference account, stream by stream. */
  lemma {:induction false} RunMatchesReference(evs: seq<Event>)
    requires WellFormed(evs)
    ensures Run(evs).files == ExpectedFiles(evs)
    ensures forall id :: id in Run(evs).open <==> StartOf(evs, id).Some? && !Ended(evs, id)
    ensures forall id :: id in Run(evs).open ==>
              Run(evs).open[id] == Pending(StartOf(evs, id).value, ChunksOf(evs, id))
  {
    if evs != [] {
      var p := evs[..|evs| - 1];
      var e := evs[|evs| - 1];
      RunMatchesReference(p);
      match e {
        case FilePart(id, _, _, _, _, _) =>
          NotStartedIsQuiet(p, id);
        case FileChunk(id, c) =>
        case FileEnd(id) =>
        case FieldPart(_, _) =>
        case ParseError =>
        case Finish =>
      }
    }
  }

  /** A repeated field name keeps the last value; a field called `__proto__`
      is never stored. */
  lemma {:induction false} FieldsAreLastValues(evs: seq<Event>)
    ensures forall name :: name in Run(evs).fields <==> name != ProtoKey && LastValue(evs, name).Some?
    ensures forall name :: name in Run(evs).fields ==> Run(evs).fields[name] == LastValue(evs, name).value
  {
    if evs != [] {
      FieldsAreLastValues(evs[..|evs| - 1]);
    }
  }

  /** Every record's `size` is the length of its buffer, and its names come
      from the file part's header. */
  lemma {:induction false} ExpectedFilesShape(evs: seq<Event>)
    ensures forall f :: f in ExpectedFiles(evs) ==> f.size == |f.buffer|
  {
    if evs != [] {
      ExpectedFilesShape(evs[..|evs| - 1]);
    }
  }

  /** A body that is not multipart is passed through untouched and yields no files. */
  lemma DecodeNonMultipart(req: Request)
    requires !IsMultipart(req.contentType)
    ensures Decode(req) == Some(Parsed(req.body.GetOr(map[]), []))
  {
  }

  /** The promise never rejects: a constructor failure resolves empty, and it
      stays pending only when the events hold neither 'finish' nor 'error'. */
  lemma DecodeNeverRejects(req: Request)
    ensures IsMultipart(req.contentType) && req.initFails ==> Decode(req) == Some(Parsed(map[], []))
    ensures Decode(req).None? <==>
              IsMultipart(req.contentType) && !req.initFails &&
              forall j :: 0 <= j < |req.events| ==> !IsTerminal(req.events[j])
  {
    if IsMultipart(req.contentType) && !req.initFails
       && !(forall j :: 0 <= j < |req.events| ==> !IsTerminal(req.events[j])) {
      assert FirstTerminal(req.events).Some?;
    }
  }

  /** What a multipart body settles to: the fields and files decoded before the
      first 'finish' or 'error' (so after an error, the parts decoded so far). */
  lemma DecodeMultipart(req: Request, pre: seq<Event>, t: Event, post: seq<Event>)
    requires IsMultipart(req.contentType) && !req.initFails
    requires req.events == pre + [t] + post && IsTerminal(t)
    requires forall j :: 0 <= j < |pre| ==> !IsTerminal(pre[j])
    requires WellFormed(pre)
    ensures Decode(req).Some?
    ensures Decode(req).value.files == ExpectedFiles(pre)
    ensures forall name :: name in Decode(req).value.fields <==> name != ProtoKey && LastValue(pre, name).Some?
    ensures forall name :: name in Decode(req).value.fields ==>
              Decode(req).value.fields[name] == LastValue(pre, name).value
    ensures forall f :: f in Decode(req).value.files ==> f.size == |f.buffer|
  {
    FirstTerminalAt(req.events, |pre|);
    assert req.events[..|pre|] == pre;
    RunMatchesReference(pre);
    FieldsAreLastValues(pre);
    ExpectedFilesShape(pre);
  }

  /** The 'end' handler's record: in-order concatenation of the chunks, the
      sanitised (or synthesised) name, and the raw name kept apart. */
  lemma EndedStreamRecord(p: seq<Event>, id: nat)
    requires StartOf(p, id).Some? && !Ended(p, id) && ChunksOf(p, id) != []
    ensures var f := ExpectedFiles(p + [FileEnd(id)]);
            var h := StartOf(p, id).value;
            |f| > 0 && f[|f| - 1].buffer == Concat(ChunksOf(p, id)) &&
            f[|f| - 1].originalname == h.safeFilename &&
            f[|f| - 1].originalNameRaw == h.rawFilename
  {
    assert (p + [FileEnd(id)])[..|p|] == p;
  }

  /** A stream that ended without delivering a chunk leaves no record. */
  lemma EmptyStreamDropped(p: seq<Event>, id: nat)
    requires ChunksOf(p, id) == []
    ensures ExpectedFiles(p + [FileEnd(id)]) == ExpectedFiles(p)
  {
    assert (p + [FileEnd(id)])[..|p|] == p;
  }

  /** The header a file part records: a truthy filename is sanitised, a
      missing or empty one becomes `file-<clock>`; the raw name is kept. */
  lemma HeaderNames(e: Event)
    requires e.FilePart?
    ensures Truthy(e.filename) ==> HeaderOf(e).safeFilename == Sanitize(e.filename.value)
    ensures !Truthy(e.filename) ==> HeaderOf(e).safeFilename == "file-" + NatToString(e.clock)
    ensures HeaderOf(e).rawFilename == e.filename
  {
  }

  // ---------------------------------------------------------------------
  // The function itself
  // ---------------------------------------------------------------------

  /** The first 'finish' or 'error' settles the promise with what the handlers
      have built so far. */
  lemma SettlesAt(evs: seq<Event>, k: nat)
    requires k < |evs| && IsTerminal(evs[k])
    requires forall j :: 0 <= j < k ==> !IsTerminal(evs[j])
    ensures Settled(evs) == Some(Parsed(Run(evs[..k]).fields, Run(evs[..k]).files))
  {
    FirstTerminalAt(evs, k);
  }

  /** Without a 'finish' or an 'error' the promise stays pending. */
  lemma StaysPending(evs: seq<Event>)
    requires forall j :: 0 <= j < |evs| ==> !IsTerminal(evs[j])
    ensures Settled(evs).None?
  {
    assert FirstTerminal(evs).None?;
  }

  /** The 'file', 'data', 'end' and 'field' handlers: one event applied to
      `result` and the open file streams. */
  method OnEvent(e: Event, fields: map<string, string>, files: seq<FileRecord>, open: map<nat, Pending>)
    returns (fields': map<string, string>, files': seq<FileRecord>, open': map<nat, Pending>)
    requires !IsTerminal(e)
    ensures State(fields', files', open') == Step(State(fields, files, open), e)
  {
    fields', files', open' := fields, files, open;
    match e {
      case FilePart(id, fieldname, filename, encoding, mimeType, clock) =>
        var safe := SafeFilename(filename, clock);
        open' := open[id := Pending(Header(fieldname, safe, filename, encoding, mimeType), [])];
      case FileChunk(id, chunk) =>
        if id in open {
          open' := open[id := open[id].(buffers := open[id].buffers + [chunk])];
        }
      case FileEnd(id) =>
        if id in open {
          var buffers := open[id].buffers;
          if |buffers| > 0 {
            files' := files + [Record(open[id].header, buffers)];
          }
          open' := open - {id};
        }
      case FieldPart(name, value) =>
        if name != ProtoKey {
          fields' := fields[name := value];
        }
    }
  }

  /** The handlers running over the events of a multipart body until the
      promise settles. */
  method Settle(events: seq<Event>) returns (r: Option<Parsed>)
    ensures r == Settled(events)
  {
    var fields: map<string, string> := map[];
    var files: seq<FileRecord> := [];
    var open: map<nat, Pending> := map[];
    var i := 0;
    while i < |events|
      invariant 0 <= i <= |events|
      invariant forall j :: 0 <= j < i ==> !IsTerminal(events[j])
      invariant State(fields, files, open) == Run(events[..i])
    {
      var e := events[i];
      if IsTerminal(e) {
        SettlesAt(events, i);
        return Some(Parsed(fields, files));
      }
      ghost var before := State(fields, files, open);
      fields, files, open := OnEvent(e, fields, files, open);
      RunAdvance(events, i, before, State(fields, files, open));
      i := i + 1;
    }
    StaysPending(events);
    return None;
  }

  /** `parseMultipart(req)`: installs the handlers and runs them over the
      events until the promise settles. */
  method ParseMultipart(req: Request) returns (r: Option<Parsed>)
    ensures r == Decode(req)
  {
    if !IsMultipart(req.contentType) {
      return Some(Parsed(req.body.GetOr(map[]), []));
    }
    if req.initFails {
      return Some(Parsed(map[], []));
    }
    r := Settle(req.events);
  }
}
