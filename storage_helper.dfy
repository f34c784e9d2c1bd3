/** `getGcsUrl` (backend/src/utils/storageHelper.js): renders a stored
    object path as its public URL. */
module StorageHelper {
  import opened Wrappers
  import opened JsString
  import opened GoogleStorage

  /** `path.replace(/^\/+/, '')` */
  function StripLeadingSlashes(path: string): (clean: string)
    ensures clean == [] || clean[0] != '/'
    ensures exists k :: 0 <= k <= |path| && clean == path[k..] &&
                        forall i :: 0 <= i < k ==> path[i] == '/'
  {
    if path != [] && path[0] == '/' then
      var rest := StripLeadingSlashes(path[1..]);
      assert exists k :: 0 <= k <= |path| - 1 && rest == path[1..][k..] &&
                         forall i :: 0 <= i < k ==> path[1..][i] == '/';
      var k :| 0 <= k <= |path| - 1 && rest == path[1..][k..] && forall i :: 0 <= i < k ==> path[1..][i] == '/';
      assert rest == path[k + 1..];
      rest
    else
      assert path == path[0..];
      path
  }

  /** `getGcsUrl(path)`: null for a missing or empty path. */
  function GcsUrl(bucketName: string, path: Option<string>): Option<string> {
    if !Truthy(path) then None
    else Some(PublicUrl(bucketName, StripLeadingSlashes(path.value)))
  }

  lemma GcsUrlFalsy(bucketName: string, path: Option<string>)
    ensures GcsUrl(bucketName, path).None? <==> !Truthy(path)
  {
  }

  /** Leading slashes do not matter: `getGcsUrl("/a/b") == getGcsUrl("a/b")`. */
  lemma GcsUrlLeadingSlash(bucketName: string, path: string)
    requires path != ""
    ensures GcsUrl(bucketName, Some("/" + path)) == GcsUrl(bucketName, Some(path))
  {
    assert ("/" + path)[1..] == path;
  }

  /** Stripping the prefix from the URL, as `deleteFromGCS` does, recovers the
      cleaned path, which does not start with `/`. */
  lemma GcsUrlKey(bucketName: string, path: string)
    requires path != ""
    ensures var url := GcsUrl(bucketName, Some(path));
            url.Some? && KeyOfUrl(bucketName, url.value) == Some(StripLeadingSlashes(path))
    ensures var key := StripLeadingSlashes(path); key == [] || key[0] != '/'
  {
    UrlRoundTrip(bucketName, StripLeadingSlashes(path));
  }

  /** A path without a leading slash is rendered as the public URL of that very key. */
  lemma GcsUrlOfKey(bucketName: string, key: string)
    requires key != "" && key[0] != '/'
    ensures GcsUrl(bucketName, Some(key)) == Some(PublicUrl(bucketName, key))
  {
  }
}
