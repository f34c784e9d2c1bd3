/** `multipartMiddleware` (backend/src/middlewares/multipart-middleware.js):
    lets non-multipart requests through untouched; otherwise replaces
    `req.body` by the parsed fields and `req.files` by the parsed files
    grouped by field name. */
module MultipartMiddleware {
  import opened Wrappers
  import opened MultipartParser

  /** How the middleware hands control on: `next()`, `next(error)`, or not at
      all because the parser's promise never settles. */
  datatype NextCall = Next | NextWithError(error: Error) | NoCall

  /** The parts of an Express request the middleware reads and writes. */
  class HttpRequest {
    const contentType: Option<string>
    const initFails: bool
    const events: seq<Event>
    var body: Option<map<string, string>>
    var files: Option<map<string, seq<FileRecord>>>

    constructor (contentType: Option<string>, initFails: bool, events: seq<Event>,
                 body: Option<map<string, string>>)
      ensures this.contentType == contentType && this.initFails == initFails
      ensures this.events == events && this.body == body && this.files == None
    {
      this.contentType := contentType;
      this.initFails := initFails;
      this.events := events;
      this.body := body;
      this.files := None;
    }

    /** What `parseMultipart(req)` sees of this request. */
    function AsParserInput(): Request
      reads this
    {
      Request(contentType, body, initFails, events)
    }
  }

  /** The files of field `name`, in the order the parser produced them. */
  function FilesNamed(files: seq<FileRecord>, name: string): (g: seq<FileRecord>)
    ensures |g| <= |files|
    ensures forall f :: f in g ==> f in files && f.fieldname == name
  {
    if files == [] then []
    else
      var last := files[|files| - 1];
      FilesNamed(files[..|files| - 1], name) + (if last.fieldname == name then [last] else [])
  }

  function FieldNames(files: seq<FileRecord>): set<string> {
    set f | f in files :: f.fieldname
  }

  /** `req.files` after the `forEach`: one key per field name that has a file. */
  function Grouped(files: seq<FileRecord>): map<string, seq<FileRecord>> {
    map name | name in FieldNames(files) :: FilesNamed(files, name)
  }

  /** The field names in order of first appearance. */
  function FieldOrder(files: seq<FileRecord>): (names: seq<string>)
    ensures forall n :: n in names <==> n in FieldNames(files)
  {
    if files == [] then []
    else
      var p := files[..|files| - 1];
      var last := files[|files| - 1];
      assert files == p + [last];
      if last.fieldname in FieldOrder(p) then FieldOrder(p) else FieldOrder(p) + [last.fieldname]
  }

  predicate Distinct(names: seq<string>) {
    forall i, j :: 0 <= i < j < |names| ==> names[i] != names[j]
  }

  function SumSizes(files: seq<FileRecord>, names: seq<string>): nat {
    if names == [] then 0
    else SumSizes(files, names[..|names| - 1]) + |FilesNamed(files, names[|names| - 1])|
  }

  /** The position of the first file whose field name `req.files` inherits
      from `Object.prototype`, or the number of files when there is none. */
  function FirstInherited(files: seq<FileRecord>): (k: nat)
    ensures k <= |files|
    ensures forall i :: 0 <= i < k ==> !PrototypeKey(files[i].fieldname)
    ensures k < |files| ==> PrototypeKey(files[k].fieldname)
  {
    if files == [] then 0
    else if PrototypeKey(files[0].fieldname) then 0
    else 1 + FirstInherited(files[1..])
  }

  /** What `push` on an inherited property that is not an array throws. */
  const PushFailed := Unexpected("TypeError: req.files[file.fieldname].push is not a function")

  /** The `forEach` that fills `req.files`. A file whose field name is an
      inherited property finds a truthy value that is not an array, so its
      `push` throws; the groups built before it stay in `req.files`. */
  method GroupByField(files: seq<FileRecord>) returns (groups: map<string, seq<FileRecord>>, thrown: bool)
    ensures var k := FirstInherited(files);
            groups == Grouped(files[..k]) && thrown == (k < |files|)
  {
    groups := map[];
    var i := 0;
    while i < |files|
      invariant 0 <= i <= |files|
      invariant groups == Grouped(files[..i])
      invariant forall j :: 0 <= j < i ==> !PrototypeKey(files[j].fieldname)
    {
      var file := files[i];
      if PrototypeKey(file.fieldname) {
        return groups, true;
      }
      assert files[..i + 1] == files[..i] + [file];
      GroupedSnoc(files[..i], file);
      var group := if file.fieldname in groups then groups[file.fieldname] else [];
      groups := groups[file.fieldname := group + [file]];
      i := i + 1;
    }
    assert files[..i] == files;
    thrown := false;
  }

  /** Pushing one more file extends its own group, creating it when new. */
  lemma GroupedSnoc(files: seq<FileRecord>, f: FileRecord)
    ensures var g := Grouped(files);
            Grouped(files + [f]) == g[f.fieldname := (if f.fieldname in g then g[f.fieldname] else []) + [f]]
  {
    var after := files + [f];
    FieldNamesSnoc(files, f);
    var g := Grouped(files);
    var r := g[f.fieldname := (if f.fieldname in g then g[f.fieldname] else []) + [f]];
    forall n | n in FieldNames(after)
      ensures Grouped(after)[n] == r[n]
    {
      FilesNamedSnoc(files, f, n);
    }
    assert Grouped(after).Keys == r.Keys;
  }

  /** Pushing one more file extends the group of its own field name only. */
  lemma FilesNamedSnoc(files: seq<FileRecord>, f: FileRecord, n: string)
    requires n in FieldNames(files) || n == f.fieldname
    ensures var g := Grouped(files);
            FilesNamed(files + [f], n) ==
              if n != f.fieldname then g[n]
              else (if f.fieldname in g then g[f.fieldname] else []) + [f]
  {
    var after := files + [f];
    assert after[..|files|] == files;
    if f.fieldname !in FieldNames(files) {
      FilesNamedAbsent(files, f.fieldname);
    }
  }

  lemma FieldNamesSnoc(files: seq<FileRecord>, f: FileRecord)
    ensures FieldNames(files + [f]) == FieldNames(files) + {f.fieldname}
  {
    var after := files + [f];
    forall n | n in FieldNames(after) ensures n in FieldNames(files) + {f.fieldname} {
      var x :| x in after && x.fieldname == n;
    }
    forall n | n in FieldNames(files) ensures n in FieldNames(after) {
      var x :| x in files && x.fieldname == n;
      assert x in after;
    }
    assert f in after;
  }

  /** Keys exist exactly for the field names that received a file; no files, no keys. */
  lemma GroupedKeys(files: seq<FileRecord>)
    ensures forall n :: n in Grouped(files) <==> exists f :: f in files && f.fieldname == n
    ensures files == [] ==> Grouped(files) == map[]
  {
  }

  /** Every file ends up in the group of its own field name. */
  lemma {:induction false} EveryFileGrouped(files: seq<FileRecord>, i: nat)
    requires i < |files|
    ensures files[i].fieldname in Grouped(files)
    ensures files[i] in Grouped(files)[files[i].fieldname]
  {
    assert files[i] in files;
    InFilesNamed(files, i);
  }

  lemma {:induction false} InFilesNamed(files: seq<FileRecord>, i: nat)
    requires i < |files|
    ensures files[i] in FilesNamed(files, files[i].fieldname)
  {
    if i < |files| - 1 {
      InFilesNamed(files[..|files| - 1], i);
    }
  }

  /** Grouping keeps the relative order: the group a prefix of the files
      produces is a prefix of the group of all of them. */
  lemma {:induction false} GroupKeepsOrder(files: seq<FileRecord>, k: nat, name: string)
    requires k <= |files|
    ensures var g := FilesNamed(files, name);
            var h := FilesNamed(files[..k], name);
            |h| <= |g| && g[..|h|] == h
    decreases |files|
  {
    if k < |files| {
      var p := files[..|files| - 1];
      assert p[..k] == files[..k];
      GroupKeepsOrder(p, k, name);
    } else {
      assert files[..k] == files;
    }
  }

  lemma {:induction false} SumSizesAppend(files: seq<FileRecord>, f: FileRecord, names: seq<string>)
    requires Distinct(names)
    ensures SumSizes(files + [f], names) == SumSizes(files, names) + (if f.fieldname in names then 1 else 0)
  {
    if names != [] {
      var front := names[..|names| - 1];
      assert (files + [f])[..|files|] == files;
      SumSizesAppend(files, f, front);
      assert f.fieldname in names <==> f.fieldname in front || f.fieldname == names[|names| - 1];
    }
  }

  lemma {:induction false} FilesNamedAbsent(files: seq<FileRecord>, name: string)
    requires name !in FieldNames(files)
    ensures FilesNamed(files, name) == []
  {
    if files != [] {
      var p := files[..|files| - 1];
      assert FieldNames(p) <= FieldNames(files);
      FilesNamedAbsent(p, name);
    }
  }

  lemma DistinctSnoc(names: seq<string>, n: string)
    requires Distinct(names) && n !in names
    ensures Distinct(names + [n])
  {
    var after := names + [n];
    forall i, j | 0 <= i < j < |after|
      ensures after[i] != after[j]
    {
      assert after[i] == names[i];
    }
  }

  /** Grouping loses and duplicates nothing: the group sizes add up to the number of files. */
  lemma {:induction false} GroupSizesSum(files: seq<FileRecord>)
    ensures Distinct(FieldOrder(files))
    ensures SumSizes(files, FieldOrder(files)) == |files|
  {
    if files != [] {
      var p := files[..|files| - 1];
      var last := files[|files| - 1];
      assert files == p + [last];
      GroupSizesSum(p);
      SumSizesAppend(p, last, FieldOrder(p));
      if last.fieldname in FieldOrder(p) {
        assert FieldOrder(files) == FieldOrder(p);
        assert SumSizes(files, FieldOrder(p)) == |p| + 1;
      } else {
        var names := FieldOrder(p) + [last.fieldname];
        assert FieldOrder(files) == names;
        assert names[..|names| - 1] == FieldOrder(p);
        assert SumSizes(files, FieldOrder(p)) == |p|;
        FilesNamedAbsent(p, last.fieldname);
        assert FilesNamed(files, last.fieldname) == [last];
        assert SumSizes(files, names) == |p| + 1;
        DistinctSnoc(FieldOrder(p), last.fieldname);
      }
    }
  }

  /** The middleware. A request that is not multipart is passed on untouched;
      otherwise the body and the grouped files replace `req.body` and
      `req.files` before `next()`, unless a file's field name is inherited
      from `Object.prototype`, which ends in `next(error)`. */
  method Handle(req: HttpRequest) returns (outcome: NextCall)
    modifies req
    ensures !IsMultipart(req.contentType) ==>
              outcome == Next && req.body == old(req.body) && req.files == old(req.files)
    ensures IsMultipart(req.contentType) && Decode(old(req.AsParserInput())).None? ==>
              outcome == NoCall && req.body == old(req.body) && req.files == old(req.files)
    ensures IsMultipart(req.contentType) && Decode(old(req.AsParserInput())).Some? ==>
              var parsed := Decode(old(req.AsParserInput())).value;
              var k := FirstInherited(parsed.files);
              req.body == Some(parsed.fields) && req.files == Some(Grouped(parsed.files[..k])) &&
              outcome == (if k < |parsed.files| then NextWithError(PushFailed) else Next)
    ensures IsMultipart(req.contentType) && Decode(old(req.AsParserInput())).Some? ==>
              (outcome.NextWithError? <==>
                 exists f :: f in Decode(old(req.AsParserInput())).value.files && PrototypeKey(f.fieldname))
  {
    if !IsMultipart(req.contentType) {
      return Next;
    }
    var result := ParseMultipart(req.AsParserInput());
    if result.None? {
      return NoCall;
    }
    req.body := Some(result.value.fields);
    var groups, thrown := GroupByField(result.value.files);
    req.files := Some(groups);
    if thrown {
      return NextWithError(PushFailed);
    }
    return Next;
  }
}
