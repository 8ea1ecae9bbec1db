/** The route guard of middleware.ts: which paths are protected, and whether
    a request passes through or is redirected to the login page. */
module Middleware {
  import opened Text

  const ProtectedPaths: seq<string> := ["/prozesse", "/kommunikation", "/konfiguration"]

  /** The authentication state is the constant `true` in the source. */
  const IsAuthenticated := true

  datatype Decision =
    | Next                                  // NextResponse.next()
    | Redirect(location: string, from: string)  // to /login?from=<pathname>

  /** The path is `base` itself or lies below it. */
  predicate UnderBase(path: string, base: string) {
    path == base || StartsWith(path, base + "/")
  }

  /** `protectedPaths.some(path => pathname === path || pathname.startsWith(path + "/"))`. */
  predicate IsProtectedPath(pathname: string) {
    exists i :: 0 <= i < |ProtectedPaths| && UnderBase(pathname, ProtectedPaths[i])
  }

  /** The decision for a request to `pathname` by a user whose authentication
      state is `authenticated`. */
  function Decide(pathname: string, authenticated: bool): (d: Decision)
    ensures d.Redirect? <==> IsProtectedPath(pathname) && !authenticated
    ensures d.Redirect? ==> d.location == "/login" && d.from == pathname
  {
    if IsProtectedPath(pathname) && !authenticated then Redirect("/login", pathname) else Next
  }

  /** `middleware(request)` as written. */
  function Handle(pathname: string): Decision {
    Decide(pathname, IsAuthenticated)
  }

  /** With the constant authentication state every request passes through. */
  lemma EveryRequestPasses(pathname: string)
    ensures Handle(pathname) == Next
  {
  }

  /** Unprotected paths pass whatever the authentication state. */
  lemma UnprotectedPasses(pathname: string, authenticated: bool)
    requires !IsProtectedPath(pathname)
    ensures Decide(pathname, authenticated) == Next
  {
  }

  /** A path is protected exactly when it is one of the three bases or lies below one. */
  lemma ProtectedPathSpec(pathname: string)
    ensures IsProtectedPath(pathname) <==>
      UnderBase(pathname, "/prozesse") || UnderBase(pathname, "/kommunikation")
      || UnderBase(pathname, "/konfiguration")
  {
    if UnderBase(pathname, "/prozesse") { assert UnderBase(pathname, ProtectedPaths[0]); }
    if UnderBase(pathname, "/kommunikation") { assert UnderBase(pathname, ProtectedPaths[1]); }
    if UnderBase(pathname, "/konfiguration") { assert UnderBase(pathname, ProtectedPaths[2]); }
  }

  /** The matcher works on whole path segments: a sibling sharing a base as a
      plain prefix is not protected, a sub-path is. */
  lemma SegmentMatching()
    ensures !IsProtectedPath("/prozessefoo")
    ensures IsProtectedPath("/prozesse/42")
    ensures IsProtectedPath("/konfiguration")
    ensures !IsProtectedPath("/")
    ensures !IsProtectedPath("/login")
  {
    ProtectedPathSpec("/prozessefoo");
    assert "/prozessefoo"[9] != ("/prozesse" + "/")[9];
    ProtectedPathSpec("/prozesse/42");
    ProtectedPathSpec("/konfiguration");
    ProtectedPathSpec("/");
    ProtectedPathSpec("/login");
    assert "/prozesse/42"[..|"/prozesse/"|] == "/prozesse/";
  }
}
