/** Normalisation of the base path, done at the top of the generated
    `RegisterRoutes` function before any route is registered. */
module BasePath {
  import opened Text

  /** The base path `RegisterRoutes` ends up using for a caller's
      `basePath`: an empty one is kept; any other gets a leading `/` if it
      has none and then loses all of its trailing `/`. The result is empty
      or starts with `/` and does not end with `/`, so `basePath + "/users"`
      never doubles a slash at the join; nothing but slashes is removed. */
  function NormalizedBasePath(basePath: string): (b: string)
    ensures basePath == "" ==> b == ""
    ensures b == "" || (b[0] == '/' && b[|b| - 1] != '/')
    ensures basePath != "" ==>
      var prefixed := if basePath[0] == '/' then basePath else "/" + basePath;
      b <= prefixed && forall i :: |b| <= i < |prefixed| ==> prefixed[i] == '/'
  {
    if basePath == [] then []
    else TrimRight(if basePath[0] != '/' then "/" + basePath else basePath, '/')
  }

  /** The generated code, which reassigns `basePath` in place. */
  method NormalizeBasePath(basePath: string) returns (normalized: string)
    ensures normalized == NormalizedBasePath(basePath)
  {
    normalized := basePath;
    if normalized != "" {
      if normalized[0] != '/' {
        normalized := "/" + normalized;
      }
      normalized := TrimRight(normalized, '/');
    }
  }

  /** Normalising a normalised base path changes nothing. */
  lemma BasePathIdempotent(basePath: string)
    ensures NormalizedBasePath(NormalizedBasePath(basePath)) == NormalizedBasePath(basePath)
  {
    var b := NormalizedBasePath(basePath);
    if b != "" {
      TrimmedUnchanged(b, '/');
    }
  }

  lemma TrimmedUnchanged(s: string, c: char)
    requires s != [] && s[|s| - 1] != c
    ensures TrimRight(s, c) == s
  {
  }

  /** `/` alone normalises to the empty base path; `api` and `/api/` both
      normalise to `/api`. */
  lemma BasePathExamples()
    ensures NormalizedBasePath("/") == ""
    ensures NormalizedBasePath("api") == "/api"
    ensures NormalizedBasePath("/api/") == "/api"
    ensures NormalizedBasePath("/api//") == "/api"
  {
    assert "/api/"[..4] == "/api";
    assert "/api//"[..5] == "/api/";
    assert "/"[..0] == "";
    assert "/" + "api" == "/api";
  }
}
