/**
 * The authentication guard: on every pathname change it reads the stored user, records
 * whether someone is logged in and redirects an anonymous visitor to the login page and a
 * logged-in user away from it.
 */
module Guard {
  import opened Wrappers
  import opened Js

  const LoginPath := "/login"
  const DashboardPath := "/dashboard"

  /** `!!user` for the stored user (`null` when nothing is stored). */
  predicate IsLoggedIn(user: Value)
    ensures user.Null? ==> !IsLoggedIn(user)
    ensures user.Obj? ==> IsLoggedIn(user)
  {
    Truthy(Some(user))
  }

  /** The `router.replace` targets of one evaluation. The effect's two `if`s have exclusive
      conditions, so at most one of them fires. */
  function Redirects(isLoggedIn: bool, pathname: string): (r: seq<string>)
    ensures |r| <= 1
    ensures r == [LoginPath] <==> !isLoggedIn && pathname != LoginPath
    ensures r == [DashboardPath] <==> isLoggedIn && pathname == LoginPath
    ensures r == [] <==> (!isLoggedIn && pathname == LoginPath) || (isLoggedIn && pathname != LoginPath)
  {
    assert LoginPath != DashboardPath by { assert LoginPath[1] != DashboardPath[1]; }
    if !isLoggedIn && pathname != LoginPath then [LoginPath]
    else if isLoggedIn && pathname == LoginPath then [DashboardPath]
    else []
  }

  /** Following a redirect lands where the guard redirects no further. */
  lemma RedirectSettles(isLoggedIn: bool, pathname: string)
    requires Redirects(isLoggedIn, pathname) != []
    ensures Redirects(isLoggedIn, Redirects(isLoggedIn, pathname)[0]) == []
  {
  }

  class AuthGuard {
    /** `isAuthenticated`: None until the first evaluation finishes. */
    var isAuthenticated: Option<bool>
    /** Every `router.replace` target, in order. */
    var replaced: seq<string>

    constructor ()
      ensures isAuthenticated == None && replaced == []
    {
      isAuthenticated, replaced := None, [];
    }

    /** One run of the effect for `pathname`. A stored user that cannot be parsed makes
        `getUser` throw; the effect then stops before changing anything. */
    method Evaluate(user: Read<Value>, pathname: string)
      modifies this
      ensures user.Value? ==> isAuthenticated == Some(IsLoggedIn(user.value))
      ensures user.Value? ==> replaced == old(replaced) + Redirects(IsLoggedIn(user.value), pathname)
      ensures user.Threw? ==> isAuthenticated == old(isAuthenticated) && replaced == old(replaced)
    {
      if user.Threw? {
        return;
      }
      var isLoggedIn := Truthy(Some(user.value));
      isAuthenticated := Some(isLoggedIn);
      if !isLoggedIn && pathname != LoginPath {
        replaced := replaced + [LoginPath];
      }
      if isLoggedIn && pathname == LoginPath {
        replaced := replaced + [DashboardPath];
      }
    }
  }

  /** Opening the app on "/loads" with nothing stored: one redirect, to the login page, and
      evaluating again there redirects no further. */
  method ColdStartLoggedOut() returns (authenticated: Option<bool>, targets: seq<string>)
    ensures authenticated == Some(false)
    ensures targets == [LoginPath]
  {
    var guard := new AuthGuard();
    guard.Evaluate(Value(Null), "/loads");
    guard.Evaluate(Value(Null), LoginPath);
    authenticated, targets := guard.isAuthenticated, guard.replaced;
  }
}
