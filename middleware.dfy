/** The route guard: a request whose path starts with one of the protected route prefixes is
    redirected to the login page when it carries no `token` cookie; every other request goes
    through. The cookie's value is never inspected, only whether the cookie is present. */
module Middleware {
  import opened Text

  const ProtectedRoutes: seq<string> := ["/dashboard", "/users/list", "/providers/list"]
  const LoginPath: string := "/login"

  /** `protectedRoutes.some(route => pathname.startsWith(route))`: a plain string prefix test,
      not a path-segment test. */
  predicate IsProtected(path: string)
    ensures IsProtected(path) ==> |path| >= |"/dashboard"| && path[0] == '/'
  {
    exists i :: 0 <= i < |ProtectedRoutes| && StartsWith(path, ProtectedRoutes[i])
  }

  /** What the guard answers: a redirect to a location, or letting the request continue. */
  datatype Decision = RedirectTo(location: string) | Continue

  function Decide(path: string, hasToken: bool): (d: Decision)
    ensures d.RedirectTo? <==> IsProtected(path) && !hasToken
    ensures d.RedirectTo? ==> d.location == LoginPath
  {
    if IsProtected(path) && !hasToken then RedirectTo(LoginPath) else Continue
  }

  /** A path is protected iff it starts with one of the three prefixes. */
  lemma ProtectedIff(path: string)
    ensures IsProtected(path) <==>
      StartsWith(path, "/dashboard") || StartsWith(path, "/users/list") || StartsWith(path, "/providers/list")
  {
    if StartsWith(path, "/dashboard") {
      assert StartsWith(path, ProtectedRoutes[0]);
    } else if StartsWith(path, "/users/list") {
      assert StartsWith(path, ProtectedRoutes[1]);
    } else if StartsWith(path, "/providers/list") {
      assert StartsWith(path, ProtectedRoutes[2]);
    }
  }

  /** A request with the cookie always continues, whatever its path. */
  lemma TokenAlwaysContinues(path: string)
    ensures Decide(path, true) == Continue
  {
  }

  /** Anything below a protected path is protected too: extending a path never lifts the
      guard. */
  lemma SubpathsInheritProtection(path: string, suffix: string)
    requires IsProtected(path)
    ensures IsProtected(path + suffix)
  {
    var i :| 0 <= i < |ProtectedRoutes| && StartsWith(path, ProtectedRoutes[i]);
    var n := |ProtectedRoutes[i]|;
    assert (path + suffix)[..n] == path[..n];
    assert StartsWith(path + suffix, ProtectedRoutes[i]);
  }

  /** The login page is not guarded, so the redirect cannot send a visitor round in a loop. */
  lemma LoginIsNotProtected()
    ensures !IsProtected(LoginPath)
    ensures Decide(LoginPath, false) == Continue
  {
  }

  /** The prefix test reaches beyond the intended pages: "/users/listing" and "/dashboard2" are
      guarded, while "/users", "/invoices/list", "/purchase-orders/list" and
      "/commissions/list" are not. */
  lemma PrefixTestExamples()
    ensures IsProtected("/users/listing") && IsProtected("/dashboard2")
    ensures !IsProtected("/users") && !IsProtected("/invoices/list")
    ensures !IsProtected("/purchase-orders/list") && !IsProtected("/commissions/list")
  {
    assert StartsWith("/users/listing", ProtectedRoutes[1]);
    assert StartsWith("/dashboard2", ProtectedRoutes[0]);
    NotProtectedByMismatch("/invoices/list", 1, 1, 1);
    NotProtectedByMismatch("/purchase-orders/list", 1, 1, 2);
    NotProtectedByMismatch("/commissions/list", 1, 1, 1);
  }

  /** A path that differs from each protected prefix at some position within it is not
      protected. */
  lemma NotProtectedByMismatch(path: string, k0: nat, k1: nat, k2: nat)
    requires k0 < |ProtectedRoutes[0]| && k0 < |path| && path[k0] != ProtectedRoutes[0][k0]
    requires k1 < |ProtectedRoutes[1]| && k1 < |path| && path[k1] != ProtectedRoutes[1][k1]
    requires k2 < |ProtectedRoutes[2]| && k2 < |path| && path[k2] != ProtectedRoutes[2][k2]
    ensures !IsProtected(path)
  {
  }
}
