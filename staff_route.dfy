/** The staff route guard and the `useStaff` hook it reads. */
module StaffRoute {
  import opened Js
  import opened Model

  /** `useStaff`'s result: `[query.data || false, query.isLoading]`, where the query's
      data is absent until it has answered and is otherwise the query function's
      `HasRole(data, "staff")`. A definition; the lemmas below state what it means. */
  function UseStaff(queryData: Option<bool>, isLoading: bool): (bool, bool) {
    (queryData == Some(true), isLoading)
  }

  /** The render: checking while either source loads, a redirect to "/" that replaces
      the history entry when the user is not staff, else the page. */
  function View(authLoading: bool, staffLoading: bool, isStaff: bool): (v: RouteView)
    ensures v == Checking <==> authLoading || staffLoading
    ensures v.Redirect? <==> !authLoading && !staffLoading && !isStaff
    ensures v.Redirect? ==> v == Redirect("/", true)
    ensures v == Children <==> !authLoading && !staffLoading && isStaff
  {
    if authLoading || staffLoading then Checking
    else if !isStaff then Redirect("/", true)
    else Children
  }

  /** The page is rendered only for a user whose fetched role is "staff". */
  lemma ChildrenOnlyForStaff(authLoading: bool, data: Option<UserDoc>, isLoading: bool)
    ensures var (isStaff, staffLoading) := UseStaff(Some(HasRole(data, "staff")), isLoading);
            View(authLoading, staffLoading, isStaff) == Children ==> data.Some? && data.value.role == Some("staff")
  {
  }

  /** Before the query has answered the hook reports "not staff", so a finished load
      without data redirects. */
  lemma NoDataRedirects(authLoading: bool)
    requires !authLoading
    ensures View(authLoading, UseStaff(None, false).1, UseStaff(None, false).0) == Redirect("/", true)
  {
  }
}
