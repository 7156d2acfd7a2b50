/** The admin route guard: a three-valued `isAdmin` (undecided, yes, no) set by the
    role request, and the view it selects. */
module AdminRoute {
  import opened Js
  import opened Model

  class AdminGuard {
    /** `None` while undecided (`null`). */
    var isAdmin: Option<bool>

    /** The guard starts undecided. */
    constructor ()
      ensures isAdmin.None?
    {
      isAdmin := None;
    }

    /** The effect: nothing without an email; otherwise the request's answer decides,
        and a failed request decides "no". */
    method CheckRole(user: Option<AuthUser>, res: Fetch<Option<UserDoc>>)
      modifies this
      ensures !HasEmail(user) ==> isAdmin == old(isAdmin)
      ensures HasEmail(user) && res.Ok? ==> isAdmin == Some(HasRole(res.data, "admin"))
      ensures HasEmail(user) && res.Failed? ==> isAdmin == Some(false)
    {
      if !HasEmail(user) {
        return;
      }
      match res
      case Ok(data) => isAdmin := Some(HasRole(data, "admin"));
      case Failed(_) => isAdmin := Some(false);
    }

    /** The render: checking while auth loads or the answer is pending, a redirect to "/"
        for "no", else the page. */
    function View(loading: bool): (v: RouteView)
      reads this
      ensures v == Checking <==> loading || isAdmin.None?
      ensures v.Redirect? <==> !loading && isAdmin == Some(false)
      ensures v.Redirect? ==> v == Redirect("/", false)
      ensures v == Children <==> !loading && isAdmin == Some(true)
    {
      if loading || isAdmin.None? then Checking
      else if !isAdmin.value then Redirect("/", false)
      else Children
    }
  }

  /** Without an email no request is made. A fresh guard therefore shows the checking
      message after any run of effects in which no session had an email, whatever the
      responses would have been. */
  method NoEmailStaysChecking(users: seq<Option<AuthUser>>, responses: seq<Fetch<Option<UserDoc>>>, loading: bool)
    returns (v: RouteView)
    requires |responses| == |users|
    requires forall i :: 0 <= i < |users| ==> !HasEmail(users[i])
    ensures v == Checking
  {
    var guard := new AdminGuard();
    var i := 0;
    while i < |users|
      invariant 0 <= i <= |users|
      invariant guard.isAdmin.None?
    {
      guard.CheckRole(users[i], responses[i]);
      i := i + 1;
    }
    v := guard.View(loading);
  }

  /** Once decided, signing in as an admin leads to the page once auth has loaded, and a
      role other than admin, or a failed request, leads to "/". */
  method DecidedView(user: Option<AuthUser>, res: Fetch<Option<UserDoc>>) returns (v: RouteView)
    requires HasEmail(user)
    ensures v == Children <==> res.Ok? && HasRole(res.data, "admin")
    ensures v != Children ==> v == Redirect("/", false)
  {
    var guard := new AdminGuard();
    guard.CheckRole(user, res);
    v := guard.View(false);
  }

  /** The effect leaves a decision in place when the email disappears: after an admin
      signs out, the guard still holds "yes" and, once auth is no longer loading, still
      renders the page. */
  method SignOutKeepsDecision(admin: Option<AuthUser>, res: Fetch<Option<UserDoc>>, later: Fetch<Option<UserDoc>>)
    returns (v: RouteView)
    requires HasEmail(admin) && res.Ok? && HasRole(res.data, "admin")
    ensures v == Children
  {
    var guard := new AdminGuard();
    guard.CheckRole(admin, res);
    guard.CheckRole(None, later);
    v := guard.View(false);
  }
}
