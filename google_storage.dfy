/** The bucket behind `uploadToGCS` and `deleteFromGCS`
    (backend/src/applications/google-storage.js): a map from object key to
    its bytes and content type, plus the key and URL arithmetic both
    functions share. */
module GoogleStorage {
  import opened Wrappers
  import opened JsString
  import opened MultipartParser

  /** What the bucket stores under a key. */
  datatype Blob = Blob(data: seq<byte>, contentType: string)

  const Host := "https://storage.googleapis.com/"

  /** `https://storage.googleapis.com/${bucketName}/` */
  function Prefix(bucketName: string): string {
    Host + bucketName + "/"
  }

  /** The public URL of an object; `uploadToGCS` resolves with it. */
  function PublicUrl(bucketName: string, key: string): string
  {
    Prefix(bucketName) + key
  }

  /** `${Date.now()}-${originalname.replace(/\s+/g, '-')}` under `${folder}/`. */
  function Destination(folder: string, clock: nat, originalname: string): string {
    folder + "/" + NatToString(clock) + "-" + ReplaceSpaceRuns(originalname, "-")
  }

  /** Index of the leftmost occurrence of `sub` in `s`. */
  function IndexOf(s: string, sub: string): (k: Option<nat>)
    ensures k.Some? ==> k.value + |sub| <= |s| && s[k.value..k.value + |sub|] == sub
    ensures k.Some? ==> forall j :: 0 <= j < k.value ==> !StartsWith(s[j..], sub)
    ensures k.None? ==> forall j :: 0 <= j <= |s| ==> !StartsWith(s[j..], sub)
    decreases |s|
  {
    if StartsWith(s, sub) then Some(0)
    else if s == [] then None
    else match IndexOf(s[1..], sub)
      case None =>
        assert forall j :: 1 <= j <= |s| ==> s[j..] == s[1..][j - 1..];
        None
      case Some(k) =>
        assert forall j :: 1 <= j < k + 1 ==> s[j..] == s[1..][j - 1..];
        Some(k + 1)
  }

  /** `s.replace(sub, rep)` with a string pattern: only the first occurrence. */
  function ReplaceFirst(s: string, sub: string, rep: string): string {
    match IndexOf(s, sub)
    case None => s
    case Some(k) => s[..k] + rep + s[k + |sub|..]
  }

  /** The key `deleteFromGCS` derives from a URL, or `None` when it refuses the URL. */
  function KeyOfUrl(bucketName: string, url: string): Option<string> {
    var prefix := Prefix(bucketName);
    if StartsWith(url, prefix) then Some(ReplaceFirst(url, prefix, "")) else None
  }

  /** The bucket after `deleteFromGCS(url)`; `fails` stands for the delete
      request failing, an error the function logs and swallows. */
  function AfterDelete(objects: map<string, Blob>, bucketName: string, url: Option<string>, fails: bool): map<string, Blob> {
    if !Truthy(url) then objects
    else match KeyOfUrl(bucketName, url.value)
      case None => objects
      case Some(key) => if fails then objects else objects - {key}
  }

  /** Stripping a prefix the URL starts with removes it from the front. */
  lemma ReplaceFirstAtStart(s: string, sub: string)
    requires StartsWith(s, sub)
    ensures ReplaceFirst(s, sub, "") == s[|sub|..]
  {
    assert IndexOf(s, sub) == Some(0);
  }

  /** Round trip: the key of a public URL is the key it was made from. */
  lemma UrlRoundTrip(bucketName: string, key: string)
    ensures KeyOfUrl(bucketName, PublicUrl(bucketName, key)) == Some(key)
  {
    ReplaceFirstAtStart(PublicUrl(bucketName, key), Prefix(bucketName));
  }

  /** The other direction: a URL `deleteFromGCS` accepts is the public URL of the key it deletes. */
  lemma KeyOfUrlInverse(bucketName: string, url: string)
    requires KeyOfUrl(bucketName, url).Some?
    ensures PublicUrl(bucketName, KeyOfUrl(bucketName, url).value) == url
  {
    var prefix := Prefix(bucketName);
    ReplaceFirstAtStart(url, prefix);
    assert url == url[..|prefix|] + url[|prefix|..];
  }

  /** The destination key sits under the folder, and its file part holds no white space
      when the original name has none left after the space-run rewrite. */
  lemma DestinationShape(folder: string, clock: nat, originalname: string)
    ensures StartsWith(Destination(folder, clock, originalname), folder + "/")
    ensures NoSpace(Destination(folder, clock, originalname)[|folder| + 1..])
  {
    var d := Destination(folder, clock, originalname);
    var rest := NatToString(clock) + "-" + ReplaceSpaceRuns(originalname, "-");
    assert d == (folder + "/") + rest;
    assert d[|folder| + 1..] == rest;
    ReplaceSpaceRunsNoSpace(originalname, "-");
    assert forall i :: 0 <= i < |NatToString(clock)| ==> !IsSpace(NatToString(clock)[i]);
  }

  /** Deleting an empty or missing URL, or a URL of another bucket, changes nothing. */
  lemma DeleteRefused(objects: map<string, Blob>, bucketName: string, url: Option<string>, fails: bool)
    requires !Truthy(url) || !StartsWith(url.value, Prefix(bucketName))
    ensures AfterDelete(objects, bucketName, url, fails) == objects
  {
  }

  /** Deleting the URL an upload returned removes exactly the key that upload
      wrote: every other object is kept. */
  lemma DeleteAfterUpload(objects: map<string, Blob>, bucketName: string, key: string, blob: Blob)
    ensures var after := AfterDelete(objects[key := blob], bucketName, Some(PublicUrl(bucketName, key)), false);
            key !in after &&
            forall k :: k != key ==> (k in after <==> k in objects) && (k in after ==> after[k] == objects[k])
  {
    UrlRoundTrip(bucketName, key);
    assert PublicUrl(bucketName, key) != "" by {
      assert |Prefix(bucketName)| > 0;
    }
  }

  /** Deleting twice leaves the bucket as deleting once, whatever became of the first attempt. */
  lemma DeleteIdempotent(objects: map<string, Blob>, bucketName: string, url: Option<string>, firstFails: bool)
    ensures var once := AfterDelete(objects, bucketName, url, false);
            AfterDelete(AfterDelete(objects, bucketName, url, firstFails), bucketName, url, false) == once
  {
  }

  /** Delete only ever removes objects; it never adds or changes one. */
  lemma DeleteOnlyRemoves(objects: map<string, Blob>, bucketName: string, url: Option<string>, fails: bool)
    ensures var after := AfterDelete(objects, bucketName, url, fails);
            after.Keys <= objects.Keys && forall k :: k in after ==> after[k] == objects[k]
  {
  }

  /** The bucket `GCS_BUCKET_NAME` names. */
  class Bucket {
    const name: string
    var objects: map<string, Blob>

    constructor (name: string, objects: map<string, Blob>)
      ensures this.name == name && this.objects == objects
    {
      this.name := name;
      this.objects := objects;
    }

    /** `uploadToGCS(file, folder)`. `clock` is `Date.now()`; `streamError`
        is the message of an 'error' event on the write stream, if one comes. */
    method Upload(file: Option<FileRecord>, folder: string, clock: nat, streamError: Option<string>)
      returns (r: Result<string>)
      modifies this
      ensures file.None? ==>
                r == Err(ResponseError(400, "File wajib diupload.")) && objects == old(objects)
      ensures file.Some? && streamError.Some? ==>
                r == Err(ResponseError(500, "Gagal upload ke storage: " + streamError.value)) &&
                objects == old(objects)
      ensures file.Some? && streamError.None? ==>
                var key := Destination(folder, clock, file.value.originalname);
                r == Ok(PublicUrl(name, key)) &&
                objects == old(objects)[key := Blob(file.value.buffer, file.value.mimetype)]
    {
      if file.None? {
        return Err(ResponseError(400, "File wajib diupload."));
      }
      var destination := Destination(folder, clock, file.value.originalname);
      if streamError.Some? {
        return Err(ResponseError(500, "Gagal upload ke storage: " + streamError.value));
      }
      objects := objects[destination := Blob(file.value.buffer, file.value.mimetype)];
      return Ok(PublicUrl(name, destination));
    }

    /** `deleteFromGCS(url)`: never fails; `fails` stands for the delete request failing. */
    method Delete(url: Option<string>, fails: bool)
      modifies this
      ensures objects == AfterDelete(old(objects), name, url, fails)
    {
      if !Truthy(url) {
        return;
      }
      var prefix := Prefix(name);
      if !StartsWith(url.value, prefix) {
        return;
      }
      var filePath := ReplaceFirst(url.value, prefix, "");
      if !fails {
        objects := objects - {filePath};
      }
    }
  }
}
