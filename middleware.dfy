/**
 * The request filter of src/middleware.ts (the function `withAuth` wraps): a path that contains one
 * of the blocked fragments gets an empty 403 response; every other request passes on with two
 * security headers added.
 */
module Middleware {
  import opened Wrappers
  import opened Text

  const BlockedPaths: seq<string> := ["/.env", "/.git", "/wp-admin", "/phpinfo", "/config.php"]

  /** `paths.some(path => pathname.includes(path))` */
  predicate SomeIncluded(pathname: string, paths: seq<string>)
    decreases |paths|
  {
    |paths| > 0 && (Contains(pathname, paths[0]) || SomeIncluded(pathname, paths[1..]))
  }

  lemma {:induction false} SomeIncludedIff(pathname: string, paths: seq<string>)
    ensures SomeIncluded(pathname, paths) <==> exists i :: 0 <= i < |paths| && Contains(pathname, paths[i])
    decreases |paths|
  {
    if |paths| > 0 {
      SomeIncludedIff(pathname, paths[1..]);
      if exists i :: 0 <= i < |paths| && Contains(pathname, paths[i]) {
        var i :| 0 <= i < |paths| && Contains(pathname, paths[i]);
        if i > 0 { assert paths[1..][i - 1] == paths[i]; }
      }
    }
  }

  datatype Header = Header(name: string, value: string)

  datatype Response =
    | Forbidden(status: nat, body: Option<string>)   // `new NextResponse(null, { status: 403 })`
    | Next(headers: seq<Header>)                     // `NextResponse.next()` with the headers set

  const SecurityHeaders: seq<Header> :=
    [Header("X-XSS-Protection", "1; mode=block"), Header("X-Download-Options", "noopen")]

  /** `middleware(req)` on the request's pathname. */
  function Filter(pathname: string): (r: Response)
    ensures r.Forbidden? <==> exists i :: 0 <= i < |BlockedPaths| && Contains(pathname, BlockedPaths[i])
    ensures r.Forbidden? ==> r.status == 403 && r.body.None?
    ensures r.Next? ==> r.headers == SecurityHeaders
  {
    SomeIncludedIff(pathname, BlockedPaths);
    if SomeIncluded(pathname, BlockedPaths) then Forbidden(403, None)
    else Next(SecurityHeaders)
  }

  /**
   * Matching is containment anywhere in the path: whatever surrounds a blocked path is blocked too,
   * so blocking a path blocks every path that contains it.
   */
  lemma BlockedAnywhere(a: string, pathname: string, b: string)
    requires Filter(pathname).Forbidden?
    ensures Filter(a + pathname + b).Forbidden?
  {
    var i :| 0 <= i < |BlockedPaths| && Contains(pathname, BlockedPaths[i]);
    ContainsInfix(a, pathname, b, BlockedPaths[i]);
  }

  /** A fragment in the middle of a longer name is enough: `/api/.envelope` is refused. */
  lemma NotOnlyPrefixes()
    ensures Filter("/api/.envelope").Forbidden?
  {
    var p := "/api/.envelope";
    assert p[4..9] == "/.env";
    assert OccursAt(p, "/.env", 4);
    ContainsIff(p, "/.env");
  }
}
