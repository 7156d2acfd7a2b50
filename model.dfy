/** The shapes of the records the client receives from the backend and the identity
    provider, as the pages read them. A JavaScript field that may be missing is an
    `Option`; a string field that the pages only test for truthiness uses "" for
    "missing". */
module Model {
  import opened Js

  /** One entry of an issue's status history. */
  datatype TimelineEntry = TimelineEntry(status: string, message: string, updatedBy: string, date: string)

  /** An issue as returned by the backend. `reportedAt` is an abstract timestamp:
      a larger value is a later moment. */
  datatype Issue = Issue(
    id: string,
    title: Option<string>,
    description: Option<string>,
    location: Option<string>,
    category: string,
    status: string,
    priority: string,
    reporterEmail: string,
    isBoosted: bool,
    reportedAt: int,
    upvotes: Option<int>,
    upvoters: Option<seq<string>>,
    assignedStaff: string,
    image: string,
    timeline: seq<TimelineEntry>)

  /** A comment on an issue. Its author's email may be absent or stored as `null`. */
  datatype Comment = Comment(id: string, userEmail: Field<string>, text: string)

  /** The signed-in identity as the pages see it (`user` from the session store). The
      identity provider reports a missing email as `null`, so `None` is `null` here. */
  datatype AuthUser = AuthUser(email: Option<string>, role: Option<string>)

  /** A user record fetched from `/users/:email` or `/users/profile`. */
  datatype UserDoc = UserDoc(role: Option<string>, premium: bool, isPremium: bool, isBlocked: bool)

  /** A staff member as listed by `/staff`. */
  datatype StaffMember = StaffMember(email: string, name: Option<string>, role: string)

  /** The outcome of a request: the response body, or a rejected promise. `status` is the
      HTTP status of an error response, absent for errors without a response. */
  datatype Fetch<T> = Ok(data: T) | Failed(status: Option<int>)

  /** The body of an issue-list response: nothing, a bare array, or a paginated object
      `{ total, items }`. */
  datatype IssuesData = NoData | ArrayData(arr: seq<Issue>) | PagedData(total: Option<int>, items: seq<Issue>)

  /** The answer of a confirmation or input dialog. */
  datatype DialogResult = DialogResult(isConfirmed: bool, value: Option<string>)

  /** What a route guard renders: the checking message, a redirect (optionally
      replacing the history entry), or the guarded page. */
  datatype RouteView = Checking | Redirect(to: string, replace: bool) | Children

  /** `user?.email` */
  function UserEmail(user: Option<AuthUser>): (e: Option<string>)
    ensures user.None? ==> e.None?
  {
    if user.Some? then user.value.email else None
  }

  /** `user?.role` */
  function UserRole(user: Option<AuthUser>): (r: Option<string>)
    ensures user.None? ==> r.None?
  {
    if user.Some? then user.value.role else None
  }

  /** `!!user?.email` */
  predicate HasEmail(user: Option<AuthUser>) {
    Truthy(UserEmail(user))
  }

  /** `user?.email` as strict equality sees it: `undefined` without a session, `null`
      for a session without an email. */
  function UserEmailField(user: Option<AuthUser>): (f: Field<string>)
    ensures f.Undefined? <==> user.None?
    ensures f.Null? <==> user.Some? && user.value.email.None?
    ensures f.Defined? ==> UserEmail(user) == Some(f.value)
  {
    match user
    case None => Undefined
    case Some(u) => if u.email.None? then Null else Defined(u.email.value)
  }

  /** `res.data?.role === role` on a fetched user record; both route guards test it. */
  predicate HasRole(data: Option<UserDoc>, role: string) {
    data.Some? && data.value.role == Some(role)
  }

  /** A staff member named in a dialog: `name || email`. */
  function NameOrEmail(s: StaffMember): (text: string)
    ensures Truthy(s.name) ==> text == s.name.value
    ensures !Truthy(s.name) ==> text == s.email
  {
    OrElse(s.name, s.email)
  }

  /** A confirmation dialog in front of a request: the request's argument is sent only
      when the dialog is confirmed. */
  function ConfirmedSend<T>(x: T, confirmed: bool): (r: Option<T>)
    ensures r.Some? <==> confirmed
    ensures r.Some? ==> r.value == x
  {
    if confirmed then Some(x) else None
  }
}
