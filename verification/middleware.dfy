/**
 * The authentication gate run before page requests: which paths it is run on,
 * the session-cookie test, and the redirect to the sign-in page carrying the
 * requested path as `callbackUrl`.
 */
module Middleware {
  import opened Wrappers

  const SessionCookie: string := "next-auth.session-token"
  const SecureSessionCookie: string := "__Secure-next-auth.session-token"
  const SignInPath: string := "/signin"
  const CallbackParam: string := "callbackUrl"

  /** A query string as `URLSearchParams` holds it: name-value pairs in order. */
  type Query = seq<(string, string)>

  datatype Url = Url(origin: string, pathname: string, query: Query, hash: string)

  /** An incoming request: its URL and the names of the cookies it carries. */
  datatype Request = Request(url: Url, cookies: set<string>)

  datatype Decision = Redirect(location: Url) | Next

  /** The pairs whose name is not `name`, in order. */
  function Without(q: Query, name: string): (r: Query)
    ensures forall i :: 0 <= i < |r| ==> r[i].0 != name
    ensures |r| <= |q|
  {
    if q == [] then []
    else (if q[0].0 == name then [] else [q[0]]) + Without(q[1..], name)
  }

  /** The value of the first pair named `name`: `URLSearchParams.get`. */
  function Get(q: Query, name: string): (r: Option<string>)
    ensures r.Some? <==> exists i :: 0 <= i < |q| && q[i].0 == name
  {
    if q == [] then None
    else if q[0].0 == name then Some(q[0].1)
    else
      var r := Get(q[1..], name);
      assert r.Some? <==> exists i :: 0 <= i < |q[1..]| && q[1..][i].0 == name;
      assert forall i :: 1 <= i < |q| ==> q[i] == q[1..][i - 1];
      r
  }

  /** Whether a pair named `name` occurs. */
  predicate Has(q: Query, name: string) {
    exists i :: 0 <= i < |q| && q[i].0 == name
  }

  /**
   * `URLSearchParams.set`: the first pair named `name` takes the value `value` and
   * the later ones are removed; without such a pair, one is appended.
   */
  function SetParam(q: Query, name: string, value: string): (r: Query)
  {
    if q == [] then [(name, value)]
    else if q[0].0 == name then [(name, value)] + Without(q[1..], name)
    else [q[0]] + SetParam(q[1..], name, value)
  }

  /** After `set`, `get` reads the value set. */
  lemma {:induction false} SetThenGet(q: Query, name: string, value: string)
    ensures Get(SetParam(q, name, value), name) == Some(value)
    decreases |q|
  {
    if q != [] && q[0].0 != name {
      SetThenGet(q[1..], name, value);
    }
  }

  /** `set` leaves the pairs of every other name as they were, in order. */
  lemma {:induction false} SetKeepsOthers(q: Query, name: string, value: string)
    ensures Without(SetParam(q, name, value), name) == Without(q, name)
    decreases |q|
  {
    if q == [] {
      assert Without([(name, value)], name) == [] + Without([], name);
    } else if q[0].0 == name {
      var rest := Without(q[1..], name);
      WithoutAbsent(Without(q[1..], name), name);
      assert ([(name, value)] + rest)[1..] == rest;
    } else {
      SetKeepsOthers(q[1..], name, value);
      assert ([q[0]] + SetParam(q[1..], name, value))[1..] == SetParam(q[1..], name, value);
    }
  }

  /** Removing a name no pair carries changes nothing. */
  lemma {:induction false} WithoutAbsent(q: Query, name: string)
    requires forall i :: 0 <= i < |q| ==> q[i].0 != name
    ensures Without(q, name) == q
    decreases |q|
  {
    if q != [] {
      WithoutAbsent(q[1..], name);
      assert [q[0]] + q[1..] == q;
    }
  }

  /** `set` leaves exactly one pair with the name. */
  lemma {:induction false} SetLeavesOne(q: Query, name: string, value: string)
    ensures |SetParam(q, name, value)| == |Without(q, name)| + 1
    decreases |q|
  {
    if q != [] {
      if q[0].0 == name {
        WithoutAbsent(Without(q[1..], name), name);
      } else {
        SetLeavesOne(q[1..], name, value);
      }
    }
  }

  /** A request carries a session when either NextAuth session cookie is present. */
  predicate HasSession(req: Request) {
    SessionCookie in req.cookies || SecureSessionCookie in req.cookies
  }

  /** The gate itself, on a path it is run on. */
  function Gate(req: Request): (d: Decision)
    ensures d.Redirect? <==> !HasSession(req) && req.url.pathname != SignInPath
    ensures d.Redirect? ==>
      d.location.pathname == SignInPath && d.location.origin == req.url.origin && d.location.hash == req.url.hash &&
      d.location.query == SetParam(req.url.query, CallbackParam, req.url.pathname)
  {
    if !HasSession(req) && req.url.pathname != SignInPath then
      Redirect(req.url.(pathname := SignInPath, query := SetParam(req.url.query, CallbackParam, req.url.pathname)))
    else Next
  }

  function StartsWith(s: string, p: string): bool {
    |p| <= |s| && s[..|p|] == p
  }

  /** The characters a JavaScript regular expression's `.` does not match. */
  predicate LineTerminator(c: char) {
    c == '\n' || c == '\r' || c == '\U{2028}' || c == '\U{2029}'
  }

  /** `favicon.ico` as a regular-expression fragment: its dot matches any character but a line terminator. */
  predicate FaviconLike(s: string) {
    |s| >= 11 && s[..7] == "favicon" && !LineTerminator(s[7]) && s[8..11] == "ico"
  }

  /**
   * The matcher `/((?!api/auth|_next/static|_next/image|favicon.ico|signin).*)`:
   * a path that starts with `/` and whose remainder starts with none of the excluded
   * fragments (and holds no line terminator, which `.*` does not cross).
   */
  predicate Matched(pathname: string) {
    |pathname| >= 1 && pathname[0] == '/' && (forall i :: 1 <= i < |pathname| ==> !LineTerminator(pathname[i])) &&
    var rest := pathname[1..];
    !StartsWith(rest, "api/auth") && !StartsWith(rest, "_next/static") && !StartsWith(rest, "_next/image") &&
    !FaviconLike(rest) && !StartsWith(rest, "signin")
  }

  /** What happens to a request: the gate runs only on matched paths. */
  function Handle(req: Request): (d: Decision)
    ensures d.Redirect? <==> Matched(req.url.pathname) && !HasSession(req) && req.url.pathname != SignInPath
  {
    if Matched(req.url.pathname) then Gate(req) else Next
  }

  /** A redirected request carries its path as `callbackUrl` and keeps every other parameter. */
  lemma RedirectCarriesCallback(req: Request)
    requires Handle(req).Redirect?
    ensures Get(Handle(req).location.query, CallbackParam) == Some(req.url.pathname)
    ensures Without(Handle(req).location.query, CallbackParam) == Without(req.url.query, CallbackParam)
  {
    SetThenGet(req.url.query, CallbackParam, req.url.pathname);
    SetKeepsOthers(req.url.query, CallbackParam, req.url.pathname);
  }

  /** The sign-in page is never redirected, so following a redirect ends there. */
  lemma NoRedirectLoop(req: Request)
    requires Handle(req).Redirect?
    ensures Handle(Request(Handle(req).location, req.cookies)) == Next
  {
  }

  /** Requests with a session always pass. */
  lemma SessionPasses(req: Request)
    requires HasSession(req)
    ensures Handle(req) == Next
  {
  }

  /** The sign-in page, NextAuth's own routes and static assets are not gated. */
  lemma ExcludedPathsPass(req: Request, excluded: string, tail: string)
    requires excluded in {"signin", "api/auth", "_next/static", "_next/image", "favicon.ico"}
    requires req.url.pathname == "/" + excluded + tail
    ensures Handle(req) == Next
  {
    var rest := req.url.pathname[1..];
    assert rest == excluded + tail;
    assert rest[..|excluded|] == excluded;
  }
}
