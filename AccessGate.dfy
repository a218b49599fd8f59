/**
 * The access gate (middleware.js): a decision over the request path, the
 * presented token and the role the token carries. Token verification is the
 * function `verify` (see module Session).
 */
module AccessGate {
  import opened Wrappers
  import opened Text
  import opened Session

  datatype Request = Request(
    path: string,
    /** the value of the `token` cookie, if the cookie is present */
    cookieToken: Option<string>,
    /** the `Authorization` header, if present */
    authorization: Option<string>)

  datatype Decision =
    | Next
    /** a redirect to `location`, with the `redirect` query parameter when `returnTo` is present */
    | Redirect(location: string, returnTo: Option<string>)

  /** `protectedPaths`, flattened: the worker prefix, then the leader prefix. */
  const ProtectedPrefixes: seq<string> := ["/workers", "/leaders"]

  /** `Object.values(protectedPaths).flat().some((p) => url.startsWith(p))` */
  predicate IsProtected(path: string) {
    exists i :: 0 <= i < |ProtectedPrefixes| && StartsWith(path, ProtectedPrefixes[i])
  }

  lemma ProtectedIff(path: string)
    ensures IsProtected(path) <==> StartsWith(path, "/workers") || StartsWith(path, "/leaders")
  {
    if StartsWith(path, "/workers") { assert StartsWith(path, ProtectedPrefixes[0]); }
    if StartsWith(path, "/leaders") { assert StartsWith(path, ProtectedPrefixes[1]); }
  }

  /**
   * `req.cookies.get("token")?.value || req.headers.get("authorization")?.replace("Bearer ", "")`:
   * the cookie value when it is non-empty, else the header with its first
   * "Bearer " removed; an empty result counts as no token.
   */
  function PresentedToken(req: Request): (t: Option<string>)
    ensures t.Some? ==> t.value != ""
    ensures req.cookieToken.Some? && req.cookieToken.value != "" ==> t == req.cookieToken
    ensures (req.cookieToken.None? || req.cookieToken.value == "") ==>
      t == (if req.authorization.Some? && ReplaceFirst(req.authorization.value, "Bearer ", "") != ""
            then Some(ReplaceFirst(req.authorization.value, "Bearer ", "")) else None)
  {
    if req.cookieToken.Some? && req.cookieToken.value != "" then req.cookieToken
    else if req.authorization.Some? then
      var h := ReplaceFirst(req.authorization.value, "Bearer ", "");
      if h != "" then Some(h) else None
    else None
  }

  /** A bearer header yields the credential that follows "Bearer ". */
  lemma BearerHeaderYieldsCredential(path: string, credential: string)
    requires credential != ""
    ensures PresentedToken(Request(path, None, Some("Bearer " + credential))) == Some(credential)
  {
    var h := "Bearer " + credential;
    assert StartsWith(h, "Bearer ");
    assert h[|"Bearer "|..] == credential;
    assert "" + credential == credential;
    assert ReplaceFirst(h, "Bearer ", "") == credential;
  }

  /** The role an area is reserved for: None outside the two protected areas. */
  function AreaRole(path: string): (r: Option<string>)
    ensures r.Some? <==> IsProtected(path)
  {
    ProtectedIff(path);
    if StartsWith(path, "/leaders") then Some("leader")
    else if StartsWith(path, "/workers") then Some("worker")
    else None
  }

  /** No path lies in both areas, so the order of the two role checks cannot matter. */
  lemma AreasDisjoint(path: string)
    ensures !(StartsWith(path, "/workers") && StartsWith(path, "/leaders"))
  {
  }

  /**
   * `middleware(req)`. A protected path without a token goes to "/signin"
   * carrying the requested path; a token that fails verification goes to
   * "/signin" without it (on any path); with a valid token a non-leader is
   * sent from "/leaders…" to "/workers" and a non-worker from "/workers…" to
   * "/leaders"; everything else passes.
   */
  function Middleware(req: Request, verify: string -> Option<Claims>): (d: Decision)
    ensures IsProtected(req.path) && PresentedToken(req).None? ==> d == Redirect("/signin", Some(req.path))
    ensures PresentedToken(req).Some? && verify(PresentedToken(req).value).None? ==> d == Redirect("/signin", None)
    ensures PresentedToken(req).Some? && verify(PresentedToken(req).value).Some? ==>
      var role := verify(PresentedToken(req).value).value.role;
      && (StartsWith(req.path, "/leaders") && role != "leader" ==> d == Redirect("/workers", None))
      && (StartsWith(req.path, "/workers") && role != "worker" ==> d == Redirect("/leaders", None))
    ensures d == Next <==>
      || (PresentedToken(req).None? && !IsProtected(req.path))
      || (PresentedToken(req).Some? && verify(PresentedToken(req).value).Some?
          && (AreaRole(req.path).None? || AreaRole(req.path) == Some(verify(PresentedToken(req).value).value.role)))
  {
    var token := PresentedToken(req);
    var url := req.path;
    ProtectedIff(url);
    AreasDisjoint(url);
    if IsProtected(url) && token.None? then
      Redirect("/signin", Some(url))
    else if token.Some? then
      match verify(token.value)
      case None => Redirect("/signin", None)
      case Some(decoded) =>
        if StartsWith(url, "/leaders") && decoded.role != "leader" then Redirect("/workers", None)
        else if StartsWith(url, "/workers") && decoded.role != "worker" then Redirect("/leaders", None)
        else Next
    else
      Next
  }

  /** Every redirect goes to one of three fixed pages. */
  lemma RedirectTargets(req: Request, verify: string -> Option<Claims>)
    ensures Middleware(req, verify).Redirect? ==>
      Middleware(req, verify).location in {"/signin", "/workers", "/leaders"}
  {
  }

  /** `config.matcher`: "/workers/:path*" and "/leaders/:path*". */
  predicate MatcherApplies(path: string) {
    path == "/workers" || StartsWith(path, "/workers/") || path == "/leaders" || StartsWith(path, "/leaders/")
  }

  /** Every path the matcher hands to the middleware is a protected one. */
  lemma MatchedPathsAreProtected(path: string)
    requires MatcherApplies(path)
    ensures IsProtected(path)
  {
    ProtectedIff(path);
    if StartsWith(path, "/workers/") { assert path[..8] == "/workers/"[..8]; }
    if StartsWith(path, "/leaders/") { assert path[..8] == "/leaders/"[..8]; }
  }

  /** The deployed gate: the middleware runs only on paths the matcher selects. */
  function Gate(req: Request, verify: string -> Option<Claims>): (d: Decision)
    ensures !MatcherApplies(req.path) ==> d == Next
    ensures MatcherApplies(req.path) ==> d == Middleware(req, verify)
  {
    if MatcherApplies(req.path) then Middleware(req, verify) else Next
  }

  /**
   * Under the matcher, a request for a matched path passes exactly when it
   * carries a valid token whose role owns the area.
   */
  lemma GatePassesOnlyOwners(req: Request, verify: string -> Option<Claims>)
    requires MatcherApplies(req.path)
    ensures Gate(req, verify) == Next <==>
      && PresentedToken(req).Some?
      && verify(PresentedToken(req).value).Some?
      && AreaRole(req.path) == Some(verify(PresentedToken(req).value).value.role)
  {
    MatchedPathsAreProtected(req.path);
  }
}
