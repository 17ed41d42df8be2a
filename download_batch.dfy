/** The batch-download endpoint: its request guard and the names it gives the archive
    entries. Fetching the images and streaming the ZIP archive are not modelled. */
module DownloadBatch {
  import opened Wrappers
  import opened Text
  import opened Web

  /** `image-${Date.now()}.jpg`, with the clock reading given. */
  function FallbackName(now: nat): string {
    "image-" + NatToString(now) + ".jpg"
  }

  /** `url.split('/').pop()?.split('?')[0] || fallback`: the last path segment without its
      query string, or the fallback when that is empty. */
  function SanitizeFilename(url: string, now: nat): (r: string)
    ensures r != ""
    ensures '/' !in r && '?' !in r
  {
    var segment := Before(AfterLast(url, '/'), '?');
    if segment != "" then segment else FallbackName(now)
  }

  /** A name with neither `/` nor `?` is kept as it is. */
  lemma PlainNameUnchanged(url: string, now: nat)
    requires url != "" && '/' !in url && '?' !in url
    ensures SanitizeFilename(url, now) == url
  {
    AfterLastWithout(url, '/');
    BeforeWithout(url, '?');
  }

  /** Sanitising a sanitised name gives it back, whatever the clock reads the second time. */
  lemma SanitizeIsIdempotent(url: string, now: nat, later: nat)
    ensures SanitizeFilename(SanitizeFilename(url, now), later) == SanitizeFilename(url, now)
  {
    PlainNameUnchanged(SanitizeFilename(url, now), later);
  }

  /** A trailing `/`, or a last segment that starts with `?`, leaves nothing and gives the
      fallback name. */
  lemma EmptySegmentFallsBack(path: string, query: string, now: nat)
    requires '/' !in query
    ensures SanitizeFilename(path + "/", now) == FallbackName(now)
    ensures SanitizeFilename(path + "/?" + query, now) == FallbackName(now)
  {
    assert (path + "/")[|path + "/"| - 1] == '/';
    assert path + "/?" + query == path + ['/'] + ("?" + query);
    AfterLastOfSuffix(path, '/', "?" + query);
  }

  /** The last segment is what is kept, up to its first `?`. */
  lemma LastSegmentKept(path: string, name: string, query: string, now: nat)
    requires name != "" && '/' !in name && '?' !in name && '/' !in query
    ensures SanitizeFilename(path + "/" + name + "?" + query, now) == name
  {
    assert path + "/" + name + "?" + query == path + ['/'] + (name + "?" + query);
    AfterLastOfSuffix(path, '/', name + "?" + query);
    BeforeFirst(name, '?', query);
  }

  /** The body's `urls` field: absent or `null`, a non-array value (with its JavaScript
      truthiness), or an array. */
  datatype UrlsField = Missing | Scalar(truthy: bool) | UrlArray(urls: seq<string>)

  /** The checks before the archive is built: signed in, then a non-empty `urls` array. */
  function CheckRequest(user: Option<LocalUser>, body: UrlsField): (r: Result<seq<string>, Fail>)
    ensures r.Failure? && r.error.status == 401 <==> user.None?
    ensures r.Failure? && r.error.status == 401 ==> r.error.message == "Unauthorized"
    ensures r.Failure? && r.error.status != 401 ==> r.error == Fail(400, "No files specified")
    ensures r.Success? <==> user.Some? && body.UrlArray? && body.urls != []
    ensures r.Success? ==> r.value == body.urls
  {
    if user.None? then Failure(Fail(401, "Unauthorized"))
    else if !(body.UrlArray?) || |body.urls| == 0 then Failure(Fail(400, "No files specified"))
    else Success(body.urls)
  }
}
