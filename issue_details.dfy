/** The issue details page: who is shown the edit, delete and comment-delete buttons,
    what the delete and comment handlers let through, the edit form's payload and the
    newest-first timeline. */
module IssueDetails {
  import opened Js
  import opened Model

  // ---------------------------------------------------------------------------
  // Role checks and button visibility

  /** The page runs with dashboard actions when mounted in dashboard mode or under a
      "/dashboard" path. */
  function IsDashboard(mode: string, pathname: string): (b: bool)
    ensures mode == "dashboard" ==> b
    ensures b <==> mode == "dashboard" || exists i :: OccursAt(pathname, "/dashboard", i)
  {
    IncludesIffOccurs(pathname, "/dashboard");
    mode == "dashboard" || Includes(pathname, "/dashboard")
  }

  /** `isReporter`: an issue is loaded and the signed-in user, who has an email, filed it. */
  function IsReporter(issue: Option<Issue>, user: Option<AuthUser>): (b: bool)
    ensures b ==> issue.Some? && user.Some? && UserEmail(user) == Some(issue.value.reporterEmail)
    ensures b ==> issue.value.reporterEmail != ""
    ensures issue.Some? && issue.value.reporterEmail != "" && UserEmail(user) == Some(issue.value.reporterEmail) ==> b
  {
    issue.Some? && HasEmail(user) && issue.value.reporterEmail == UserEmail(user).value
  }

  /** `isAdmin`: the session's role is "admin". */
  function IsAdmin(user: Option<AuthUser>): (b: bool)
    ensures b <==> user.Some? && user.value.role == Some("admin")
  {
    UserRole(user) == Some("admin")
  }

  /** The "Edit Issue" button: dashboard mode, the reporter, a pending issue. */
  function EditOffered(dashboard: bool, issue: Issue, user: Option<AuthUser>): (b: bool)
    ensures b ==> dashboard && issue.status == "pending"
    ensures b <==> dashboard && issue.status == "pending" && UserEmail(user) == Some(issue.reporterEmail) && issue.reporterEmail != ""
  {
    dashboard && IsReporter(Some(issue), user) && issue.status == "pending"
  }

  /** The "Delete Issue" button: dashboard mode, and the reporter of a pending issue or an admin. */
  function DeleteOffered(dashboard: bool, issue: Issue, user: Option<AuthUser>): (b: bool)
    ensures b ==> dashboard
    ensures IsAdmin(user) ==> (b <==> dashboard)
    ensures !IsAdmin(user) ==> (b <==> EditOffered(dashboard, issue, user))
  {
    dashboard && ((IsReporter(Some(issue), user) && issue.status == "pending") || IsAdmin(user))
  }

  /** Whoever is offered Edit is offered Delete too. */
  lemma EditOfferedImpliesDeleteOffered(dashboard: bool, issue: Issue, user: Option<AuthUser>)
    ensures EditOffered(dashboard, issue, user) ==> DeleteOffered(dashboard, issue, user)
  {
  }

  /** The comment's Delete button: its author (`user?.email === c.userEmail`) or an admin.
      The comparison is strict, so `undefined` and `null` differ. Without a session the
      button shows on exactly the comments whose author email is absent. For a session
      without an email, it shows on exactly those whose author email is `null`. */
  function CommentDeleteOffered(user: Option<AuthUser>, c: Comment): (b: bool)
    ensures IsAdmin(user) ==> b
    ensures !IsAdmin(user) && c.userEmail.Defined? ==> (b <==> UserEmail(user) == Some(c.userEmail.value))
    ensures user.None? ==> (b <==> c.userEmail.Undefined?)
    ensures user.Some? && user.value.email.None? && !IsAdmin(user) ==> (b <==> c.userEmail.Null?)
  {
    UserEmailField(user) == c.userEmail || IsAdmin(user)
  }

  // ---------------------------------------------------------------------------
  // Handlers

  /** What `handleDeleteIssue` does. */
  datatype DeleteOutcome = LoginError | OnlyPendingWarning | Cancelled | DeleteSent

  /** `handleDeleteIssue` on a loaded issue: an error without a session, a refusal when
      the user is the reporter and the issue is no longer pending, else a confirmation
      dialog whose answer decides whether the delete request is sent. */
  function HandleDeleteIssue(user: Option<AuthUser>, issue: Issue, confirmed: bool): (o: DeleteOutcome)
    ensures o == LoginError <==> user.None?
    ensures o == OnlyPendingWarning <==> user.Some? && IsReporter(Some(issue), user) && issue.status != "pending"
    ensures o == DeleteSent <==> user.Some? && !(IsReporter(Some(issue), user) && issue.status != "pending") && confirmed
  {
    if user.None? then LoginError
    else if IsReporter(Some(issue), user) && issue.status != "pending" then OnlyPendingWarning
    else if confirmed then DeleteSent
    else Cancelled
  }

  /** A request is sent only on confirmation, and then only to a signed-in user who is
      offered the button, so no user who is not offered Delete gets past a page that
      shows it. */
  lemma DeleteSentOnlyWhenOffered(issue: Issue, user: Option<AuthUser>, confirmed: bool)
    requires HandleDeleteIssue(user, issue, confirmed) == DeleteSent
    ensures confirmed && user.Some?
    ensures IsReporter(Some(issue), user) ==> issue.status == "pending"
  {
  }

  /** An admin who filed an issue that is no longer pending is shown the Delete button,
      but the handler answers with the "only pending issues" warning and sends nothing. */
  lemma AdminReporterRefused(issue: Issue, user: Option<AuthUser>, confirmed: bool)
    requires IsAdmin(user) && UserEmail(user) == Some(issue.reporterEmail) && issue.reporterEmail != ""
    requires issue.status != "pending"
    ensures DeleteOffered(true, issue, user)
    ensures HandleDeleteIssue(user, issue, confirmed) == OnlyPendingWarning
  {
  }

  /** The body of a new comment. */
  datatype NewComment = NewComment(issueId: string, text: string)

  /** What `handleAddComment` does with the text in the box. */
  datatype CommentOutcome = LoginPrompt | WriteSomethingInfo | CommentSent(body: NewComment)

  /** `handleAddComment`: a login prompt without an email, an info message for text that
      is only white space, else the comment is sent with the text exactly as typed. */
  function AddComment(user: Option<AuthUser>, issueId: string, text: string): (o: CommentOutcome)
    ensures o == LoginPrompt <==> !HasEmail(user)
    ensures o.CommentSent? <==> HasEmail(user) && !IsBlank(text)
    ensures o.CommentSent? ==> o.body == NewComment(issueId, text)
  {
    TrimEmptyIffBlank(text);
    if !HasEmail(user) then LoginPrompt
    else if Trim(text) == "" then WriteSomethingInfo
    else CommentSent(NewComment(issueId, text))
  }

  // ---------------------------------------------------------------------------
  // Edit form

  /** The edit form's state object; it starts as `{}` (every field absent). */
  datatype EditForm = EditForm(title: Option<string>, description: Option<string>, location: Option<string>)

  /** `openEdit`'s payload: the three editable fields, each falling back to "". */
  function EditFormFor(issue: Issue): (f: EditForm)
    ensures f.title.Some? && f.description.Some? && f.location.Some?
    ensures Truthy(issue.title) ==> f.title == issue.title
    ensures !Truthy(issue.title) ==> f.title == Some("")
    ensures Truthy(issue.description) ==> f.description == issue.description
    ensures !Truthy(issue.description) ==> f.description == Some("")
    ensures Truthy(issue.location) ==> f.location == issue.location
    ensures !Truthy(issue.location) ==> f.location == Some("")
  {
    EditForm(Some(OrElse(issue.title, "")), Some(OrElse(issue.description, "")), Some(OrElse(issue.location, "")))
  }

  /** The component state of the page that its handlers change. */
  class DetailsView {
    var commentText: string
    var editOpen: bool
    var editPayload: EditForm

    /** The initial state: an empty comment box, the edit modal closed, an empty payload. */
    constructor ()
      ensures commentText == "" && !editOpen && editPayload == EditForm(None, None, None)
    {
      commentText := "";
      editOpen := false;
      editPayload := EditForm(None, None, None);
    }

    /** Typing in the comment box. */
    method SetCommentText(text: string)
      modifies this
      ensures commentText == text
      ensures editOpen == old(editOpen) && editPayload == old(editPayload)
    {
      commentText := text;
    }

    /** Submitting the comment form: the box is cleared exactly when the comment was sent. */
    method HandleAddComment(user: Option<AuthUser>, issueId: string) returns (o: CommentOutcome)
      modifies this
      ensures o == AddComment(user, issueId, old(commentText))
      ensures commentText == if o.CommentSent? then "" else old(commentText)
      ensures editOpen == old(editOpen) && editPayload == old(editPayload)
    {
      o := AddComment(user, issueId, commentText);
      if o.CommentSent? {
        commentText := "";
      }
    }

    /** `openEdit`: fills the form from the issue and opens the modal. */
    method OpenEdit(issue: Issue)
      modifies this
      ensures editPayload == EditFormFor(issue) && editOpen
      ensures commentText == old(commentText)
    {
      editPayload := EditFormFor(issue);
      editOpen := true;
    }

    /** Typing in the Title field: only the title changes. */
    method SetEditTitle(value: string)
      modifies this
      ensures editPayload == old(editPayload).(title := Some(value))
      ensures commentText == old(commentText) && editOpen == old(editOpen)
    {
      editPayload := editPayload.(title := Some(value));
    }

    /** Typing in the Description field: only the description changes. */
    method SetEditDescription(value: string)
      modifies this
      ensures editPayload == old(editPayload).(description := Some(value))
      ensures commentText == old(commentText) && editOpen == old(editOpen)
    {
      editPayload := editPayload.(description := Some(value));
    }

    /** Typing in the Location field: only the location changes. */
    method SetEditLocation(value: string)
      modifies this
      ensures editPayload == old(editPayload).(location := Some(value))
      ensures commentText == old(commentText) && editOpen == old(editOpen)
    {
      editPayload := editPayload.(location := Some(value));
    }

    /** `handleEditSubmit`: sends a copy of the form and changes nothing. */
    method HandleEditSubmit() returns (payload: EditForm)
      ensures payload == editPayload
    {
      payload := editPayload;
    }

    /** The modal closes on a successful edit and on Cancel; the form keeps its values. */
    method CloseEdit()
      modifies this
      ensures !editOpen
      ensures commentText == old(commentText) && editPayload == old(editPayload)
    {
      editOpen := false;
    }
  }

  /** Opening the edit modal on an issue, typing a title and submitting: the payload
      sent holds exactly the three editable fields, the new title and the issue's own
      description and location, each defaulting to "". */
  method EditSubmitAfterOpen(issue: Issue, t: string) returns (p: EditForm)
    ensures p == EditFormFor(issue).(title := Some(t))
    ensures p.title == Some(t) && p.description.Some? && p.location.Some?
    ensures p.description == Some(OrElse(issue.description, "")) && p.location == Some(OrElse(issue.location, ""))
  {
    var view := new DetailsView();
    view.OpenEdit(issue);
    view.SetEditTitle(t);
    p := view.HandleEditSubmit();
  }

  /** Submitting the edit form untouched sends the issue's three fields as they were
      loaded, each defaulting to "". */
  method EditSubmitUnchanged(issue: Issue) returns (p: EditForm)
    ensures p == EditFormFor(issue)
    ensures p.title == Some(OrElse(issue.title, "")) && p.description.Some? && p.location.Some?
  {
    var view := new DetailsView();
    view.OpenEdit(issue);
    p := view.HandleEditSubmit();
  }

  // ---------------------------------------------------------------------------
  // Timeline

  /** `reverse()`: reverses the array in place by swapping from both ends inwards. */
  method ReverseInPlace<T>(a: array<T>)
    modifies a
    ensures a[..] == Reversed(old(a[..]))
  {
    ghost var s := a[..];
    var lo, hi := 0, a.Length;
    while lo + 1 < hi
      invariant 0 <= lo <= hi && hi == a.Length - lo
      invariant forall k :: 0 <= k < lo ==> a[k] == s[a.Length - 1 - k]
      invariant forall k :: hi <= k < a.Length ==> a[k] == s[a.Length - 1 - k]
      invariant forall k :: lo <= k < hi ==> a[k] == s[k]
      decreases hi - lo
    {
      a[lo], a[hi - 1] := a[hi - 1], a[lo];
      lo, hi := lo + 1, hi - 1;
    }
  }

  /** The timeline as displayed: a copy reversed in place, so the newest entry (the last
      one stored) is shown first and the stored list is left as it was. */
  method NewestFirst(timeline: seq<TimelineEntry>) returns (shown: seq<TimelineEntry>)
    ensures shown == Reversed(timeline)
  {
    var copy := new TimelineEntry[|timeline|](i requires 0 <= i < |timeline| => timeline[i]);
    assert copy[..] == timeline;
    ReverseInPlace(copy);
    shown := copy[..];
  }
}
