/** The citizen dashboard's submission form: the role-aware free-tier limit read from the
    profile, the blocked-account check, the five-field record, the backend's 403 refusal
    and the submit button's state. */
module CitizenSubmitIssue {
  import opened Js
  import opened Model

  /** Issues a citizen without premium may have before the form refuses more. */
  const FreeLimit: int := 3

  /** The limit test the handler and the button share: a citizen profile without premium
      that already has 3 issues. A profile that has not loaded (`{}`) has no role, so it
      is never limited, and neither is a staff member or an admin. */
  function IsLimited(profile: Option<UserDoc>, myIssuesCount: nat): (b: bool)
    ensures b ==> profile.Some? && profile.value.role == Some("citizen")
    ensures profile.Some? && profile.value.role == Some("citizen") ==>
              (b <==> !profile.value.isPremium && myIssuesCount >= FreeLimit)
    ensures profile.Some? && profile.value.isPremium ==> !b
  {
    profile.Some? && profile.value.role == Some("citizen") && !profile.value.isPremium && myIssuesCount >= FreeLimit
  }

  /** Staff members and admins are never limited, whatever their issue count. */
  lemma StaffAndAdminsNeverLimited(profile: UserDoc, myIssuesCount: nat)
    requires profile.role == Some("staff") || profile.role == Some("admin")
    ensures !IsLimited(Some(profile), myIssuesCount)
  {
  }

  /** The record posted to `/issues`: exactly the five form fields. The backend fills in
      the rest. */
  datatype IssuePayload = IssuePayload(title: string, description: string, category: string, location: string, image: string)

  /** The submitted form; `files` is the file input's list. */
  datatype IssueForm = IssueForm(title: string, description: string, category: string, location: string, files: seq<string>)

  /** The image of the record: "" without a file, else the upload's URL (`None` when
      the upload failed, which aborts the submission). */
  function ImageFor(form: IssueForm, uploadedUrl: Option<string>): (r: Option<string>)
    ensures form.files == [] ==> r == Some("")
    ensures form.files != [] ==> (r.Some? <==> Truthy(uploadedUrl))
    ensures form.files != [] && r.Some? ==> r == uploadedUrl
  {
    if form.files == [] then Some("")
    else if Truthy(uploadedUrl) then uploadedUrl
    else None
  }

  /** The record for a form and image. */
  function PayloadFor(form: IssueForm, image: string): (p: IssuePayload)
    ensures (p.title, p.description, p.category, p.location) == (form.title, form.description, form.category, form.location)
    ensures p.image == image
  {
    IssuePayload(form.title, form.description, form.category, form.location, image)
  }

  /** What a click on Submit ends in. */
  datatype SubmitOutcome =
    | LimitDialog(goToPremium: bool)
    | Submitted(payload: IssuePayload)
    | Forbidden(refused: IssuePayload)
    | SubmitFailed(attempted: Option<IssuePayload>)

  /** The location the page moves to after an outcome, if any. */
  function NavigationAfter(o: SubmitOutcome): Option<string> {
    match o
    case LimitDialog(go) => if go then Some("/dashboard/premium-payment") else None
    case Submitted(_) => Some("/dashboard/my-issues")
    case Forbidden(_) => Some("/dashboard/premium-payment")
    case SubmitFailed(_) => None
  }

  /** The record posted by an outcome, if the request was made. */
  function PostedPayload(o: SubmitOutcome): Option<IssuePayload> {
    match o
    case LimitDialog(_) => None
    case Submitted(p) => Some(p)
    case Forbidden(p) => Some(p)
    case SubmitFailed(a) => a
  }

  /** `onSubmit`: the limit dialog when limited; else the image is uploaded if a file was
      chosen and the record posted; `post` is the request's outcome. A rejection with
      HTTP status 403 leads to the premium page; any other error, an upload failure or
      a rejection without a response included, shows a generic failure and stays. */
  function OnSubmit(profile: Option<UserDoc>, myIssuesCount: nat, limitConfirmed: bool,
                    form: IssueForm, uploadedUrl: Option<string>, post: Fetch<()>): (o: SubmitOutcome)
    ensures o.LimitDialog? <==> IsLimited(profile, myIssuesCount)
    ensures PostedPayload(o).Some? <==> !IsLimited(profile, myIssuesCount) && ImageFor(form, uploadedUrl).Some?
    ensures PostedPayload(o).Some? ==> PostedPayload(o).value == PayloadFor(form, ImageFor(form, uploadedUrl).value)
    ensures o.Forbidden? <==> PostedPayload(o).Some? && post == Failed(Some(403))
    ensures o.Submitted? <==> PostedPayload(o).Some? && post.Ok?
    ensures NavigationAfter(o) == Some("/dashboard/premium-payment") <==> o.Forbidden? || (o.LimitDialog? && limitConfirmed)
    ensures NavigationAfter(o).None? <==> o.SubmitFailed? || (o.LimitDialog? && !limitConfirmed)
  {
    if IsLimited(profile, myIssuesCount) then LimitDialog(limitConfirmed)
    else
      var image := ImageFor(form, uploadedUrl);
      if image.None? then SubmitFailed(None)
      else
        var p := PayloadFor(form, image.value);
        if post.Ok? then Submitted(p)
        else if post == Failed(Some(403)) then Forbidden(p)
        else SubmitFailed(Some(p))
  }

  /** The submit button: disabled while submitting or when limited. A definition; the
      lemmas below tie it to the handler. */
  function ButtonDisabled(profile: Option<UserDoc>, myIssuesCount: nat, isSubmitting: bool): bool {
    isSubmitting || IsLimited(profile, myIssuesCount)
  }

  /** The submit button's label: the upgrade prompt exactly when limited. */
  function ButtonLabel(profile: Option<UserDoc>, myIssuesCount: nat, isSubmitting: bool): (text: string)
    ensures text == "Upgrade to Premium" <==> IsLimited(profile, myIssuesCount)
    ensures !IsLimited(profile, myIssuesCount) ==> (text == "Submitting..." <==> isSubmitting)
  {
    if IsLimited(profile, myIssuesCount) then "Upgrade to Premium"
    else if isSubmitting then "Submitting..."
    else "Submit Issue"
  }

  /** A limited user sees a disabled button that invites an upgrade, and a submission
      that gets through anyway posts nothing. */
  lemma LimitedMeansNoPost(profile: Option<UserDoc>, myIssuesCount: nat, limitConfirmed: bool, isSubmitting: bool,
                           form: IssueForm, uploadedUrl: Option<string>, post: Fetch<()>)
    requires IsLimited(profile, myIssuesCount)
    ensures ButtonDisabled(profile, myIssuesCount, isSubmitting)
    ensures ButtonLabel(profile, myIssuesCount, isSubmitting) == "Upgrade to Premium"
    ensures PostedPayload(OnSubmit(profile, myIssuesCount, limitConfirmed, form, uploadedUrl, post)).None?
  {
  }

  /** A click on an enabled button never meets the limit dialog: the handler goes on
      to the upload and the post. */
  lemma EnabledButtonPassesLimit(profile: Option<UserDoc>, myIssuesCount: nat, limitConfirmed: bool,
                                 form: IssueForm, uploadedUrl: Option<string>, post: Fetch<()>)
    requires !ButtonDisabled(profile, myIssuesCount, false)
    ensures !OnSubmit(profile, myIssuesCount, limitConfirmed, form, uploadedUrl, post).LimitDialog?
    ensures ButtonLabel(profile, myIssuesCount, false) == "Submit Issue"
    ensures form.files == [] && post.Ok? ==>
              OnSubmit(profile, myIssuesCount, limitConfirmed, form, uploadedUrl, post) == Submitted(PayloadFor(form, ""))
  {
  }

  /** The page's "checking account" flag and the blocked-user check that clears it. */
  class AccountCheck {
    var checkingUser: bool

    /** The page starts in the checking state. */
    constructor ()
      ensures checkingUser
    {
      checkingUser := true;
    }

    /** `checkUserStatus`: without an email it returns at once; otherwise a blocked
        account is sent to "/". The `finally` clears the flag on every path, the early
        return and a failed request included. */
    method CheckUserStatus(user: Option<AuthUser>, res: Fetch<Option<UserDoc>>) returns (navigateTo: Option<string>)
      modifies this
      ensures !checkingUser
      ensures navigateTo.Some? <==> HasEmail(user) && res.Ok? && res.data.Some? && res.data.value.isBlocked
      ensures navigateTo.Some? ==> navigateTo.value == "/"
    {
      navigateTo := None;
      if HasEmail(user) {
        if res.Ok? && res.data.Some? && res.data.value.isBlocked {
          navigateTo := Some("/");
        }
      }
      checkingUser := false;
    }
  }
}
