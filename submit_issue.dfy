/** The issue submission form of the dashboard: the free-tier limit of 3 issues, the
    premium flag and issue count loaded when the page opens, the image choice, and the
    record sent to the backend with its initial timeline entry. */
module SubmitIssue {
  import opened Js
  import opened Model

  /** Issues a user without premium may have submitted before the form refuses more. */
  const FreeLimit: int := 3

  /** The premium flag derived from the fetched user: `premium || isPremium`, false when
      the response has no body. */
  function PremiumFlag(data: Option<UserDoc>): (b: bool)
    ensures data.None? ==> !b
    ensures data.Some? && data.value.premium ==> b
    ensures data.Some? && data.value.isPremium ==> b
    ensures b ==> data.Some? && (data.value.premium || data.value.isPremium)
  {
    data.Some? && (data.value.premium || data.value.isPremium)
  }

  /** `canSubmit`: premium users always may; others while they have fewer than 3 issues. */
  function CanSubmit(isPremium: bool, count: int): (b: bool)
    ensures isPremium ==> b
    ensures !isPremium ==> (b <==> count < FreeLimit)
  {
    if isPremium then true else count < FreeLimit
  }

  /** The state the page's loading effect fills in. */
  class LimitCheck {
    var userIssueCount: int
    var isPremium: bool
    var checkingLimit: bool

    /** A count of 0, no premium, and the check still running. */
    constructor ()
      ensures userIssueCount == 0 && !isPremium && checkingLimit
    {
      userIssueCount := 0;
      isPremium := false;
      checkingLimit := true;
    }

    /** `fetchInfo`: without an email only the flag is cleared; otherwise the premium flag
        is set from the user request and then the count from the issues request, each
        only if its request succeeded (a failure skips everything after it). Whatever
        happens, the check ends. */
    method FetchInfo(user: Option<AuthUser>, userRes: Fetch<Option<UserDoc>>, issuesRes: Fetch<Option<seq<Issue>>>)
      modifies this
      ensures !checkingLimit
      ensures !HasEmail(user) || userRes.Failed? ==>
                isPremium == old(isPremium) && userIssueCount == old(userIssueCount)
      ensures HasEmail(user) && userRes.Ok? ==> isPremium == PremiumFlag(userRes.data)
      ensures HasEmail(user) && userRes.Ok? && issuesRes.Ok? ==> userIssueCount == |issuesRes.data.GetOr([])|
      ensures HasEmail(user) && userRes.Ok? && issuesRes.Failed? ==> userIssueCount == old(userIssueCount)
    {
      if !HasEmail(user) {
        checkingLimit := false;
        return;
      }
      if userRes.Ok? {
        isPremium := PremiumFlag(userRes.data);
        if issuesRes.Ok? {
          userIssueCount := |issuesRes.data.GetOr([])|;
        }
      }
      checkingLimit := false;
    }

    /** The submit button: disabled when the limit applies or the form is submitting. */
    function SubmitDisabled(isSubmitting: bool): (b: bool)
      reads this
      ensures b <==> isSubmitting || (!isPremium && userIssueCount >= FreeLimit)
    {
      !CanSubmit(isPremium, userIssueCount) || isSubmitting
    }
  }

  // ---------------------------------------------------------------------------
  // Image

  /** The outcome of the image-host upload helper. */
  datatype Upload = Uploaded(url: string) | UploadFailed

  /** `uploadImageToImgBB`: nothing without a file; a failure when the host key is not
      configured or the response carries no URL; else the URL. */
  function UploadImage(hasFile: bool, hostKey: string, responseUrl: Option<string>): (r: Option<Upload>)
    ensures r.None? <==> !hasFile
    ensures r == Some(UploadFailed) <==> hasFile && (hostKey == "" || !Truthy(responseUrl))
    ensures r.Some? && r.value.Uploaded? ==> Some(r.value.url) == responseUrl && r.value.url != ""
  {
    if !hasFile then None
    else if hostKey == "" then Some(UploadFailed)
    else if !Truthy(responseUrl) then Some(UploadFailed)
    else Some(Uploaded(responseUrl.value))
  }

  /** The submitted form. `files` is the file input's list; `imageURL` a URL field the
      handler also reads. */
  datatype IssueForm = IssueForm(
    title: string, description: string, category: string, location: string,
    files: seq<string>, imageURL: Option<string>)

  /** The image URL that goes into the record. When a file was chosen it is uploaded and
      the host's URL is used; the upload fails, aborting the submission, without a host
      key or without a URL in the host's answer. Without a file the typed URL is used
      when present, else "". `responseUrl` is the URL in the host's answer. */
  function ImageChoice(form: IssueForm, hostKey: string, responseUrl: Option<string>): (r: Option<string>)
    ensures r.None? <==> form.files != [] && (hostKey == "" || !Truthy(responseUrl))
    ensures form.files != [] && r.Some? ==> r == responseUrl && r.value != ""
    ensures form.files == [] && Truthy(form.imageURL) ==> r == form.imageURL
    ensures form.files == [] && !Truthy(form.imageURL) ==> r == Some("")
  {
    var upload := UploadImage(form.files != [], hostKey, responseUrl);
    if upload.Some? then
      (if upload.value.Uploaded? then Some(upload.value.url) else None)
    else Some(OrElse(form.imageURL, ""))
  }

  // ---------------------------------------------------------------------------
  // Payload

  /** The record posted to `/issues`. */
  datatype NewIssue = NewIssue(
    title: string, description: string, category: string, location: string, image: string,
    reporterEmail: string, status: string, priority: string, upvotes: int, upvoters: seq<string>,
    timeline: seq<TimelineEntry>, reportedAt: string)

  /** The timeline a new issue starts with; `isoNow` is the clock's ISO time. */
  function InitialTimeline(email: string, isoNow: string): seq<TimelineEntry> {
    [TimelineEntry("pending", "Issue reported by citizen", email, isoNow)]
  }

  /** The record built from the form; `localNow` is the clock's local time string. */
  function Payload(form: IssueForm, image: string, email: string, isoNow: string, localNow: string): NewIssue {
    NewIssue(form.title, form.description, form.category, form.location, image,
             email, "pending", "normal", 0, [], InitialTimeline(email, isoNow), localNow)
  }

  /** The record starts pending with normal priority and no votes, names the reporter,
      copies the form's four text fields, and its timeline holds one pending entry by
      the reporter. */
  lemma PayloadShape(form: IssueForm, image: string, email: string, isoNow: string, localNow: string)
    ensures var p := Payload(form, image, email, isoNow, localNow);
            && p.status == "pending" && p.priority == "normal" && p.upvotes == 0 && p.upvoters == []
            && p.reporterEmail == email && p.image == image
            && (p.title, p.description, p.category, p.location) == (form.title, form.description, form.category, form.location)
            && |p.timeline| == 1 && p.timeline[0].status == p.status && p.timeline[0].updatedBy == email
  {
  }

  // ---------------------------------------------------------------------------
  // Submit

  /** What a click on Submit ends in. */
  datatype SubmitOutcome =
    | NotLoggedIn
    | LimitReached(goToProfile: bool)
    | SubmissionFailed(attempted: Option<NewIssue>)
    | Submitted(record: NewIssue, navigateTo: string)

  /** The record a submission posted, if it got as far as the request. */
  function Posted(o: SubmitOutcome): Option<NewIssue> {
    match o
    case Submitted(p, _) => Some(p)
    case SubmissionFailed(a) => a
    case _ => None
  }

  /** `onSubmit`: a warning without an email; a limit dialog (which leads to the profile
      page when confirmed) when the limit applies; else the image is chosen and the
      record posted, and either outcome of a successful post leads to "My issues". An
      upload failure or a rejected post ends in the failure message. */
  function OnSubmit(user: Option<AuthUser>, isPremium: bool, count: int, limitConfirmed: bool,
                    form: IssueForm, hostKey: string, responseUrl: Option<string>, postSucceeds: bool,
                    isoNow: string, localNow: string): (o: SubmitOutcome)
    ensures o.NotLoggedIn? <==> !HasEmail(user)
    ensures o.LimitReached? <==> HasEmail(user) && !CanSubmit(isPremium, count)
    ensures o.LimitReached? ==> o.goToProfile == limitConfirmed
    ensures o.Submitted? <==> HasEmail(user) && CanSubmit(isPremium, count) && ImageChoice(form, hostKey, responseUrl).Some? && postSucceeds
    ensures Posted(o).Some? <==> HasEmail(user) && CanSubmit(isPremium, count) && ImageChoice(form, hostKey, responseUrl).Some?
    ensures Posted(o).Some? ==>
              Posted(o).value == Payload(form, ImageChoice(form, hostKey, responseUrl).value, UserEmail(user).value, isoNow, localNow)
    ensures o.Submitted? ==> o.navigateTo == "/dashboard/my-issues"
  {
    if !HasEmail(user) then NotLoggedIn
    else if !isPremium && count >= FreeLimit then LimitReached(limitConfirmed)
    else
      var image := ImageChoice(form, hostKey, responseUrl);
      if image.None? then SubmissionFailed(None)
      else
        var p := Payload(form, image.value, UserEmail(user).value, isoNow, localNow);
        if postSucceeds then Submitted(p, "/dashboard/my-issues") else SubmissionFailed(Some(p))
  }

  /** Nothing is posted when not logged in or when the limit applies. */
  lemma BlockedSubmitPostsNothing(user: Option<AuthUser>, isPremium: bool, count: int, limitConfirmed: bool,
                                  form: IssueForm, hostKey: string, responseUrl: Option<string>, postSucceeds: bool, isoNow: string, localNow: string)
    requires !HasEmail(user) || (!isPremium && count >= FreeLimit)
    ensures var o := OnSubmit(user, isPremium, count, limitConfirmed, form, hostKey, responseUrl, postSucceeds, isoNow, localNow);
            Posted(o).None?
  {
  }
}
