/** The staff member's list of assigned issues: the list read from the response, the one
    status step offered for each issue, and the status request sent from the dialog. */
module StaffAssignedIssues {
  import opened Js
  import opened Model

  /** `res.data?.items || []`: only a paged body yields issues; a bare array has no
      `items` and so yields none. */
  function AssignedItems(data: IssuesData): (r: seq<Issue>)
    ensures data.PagedData? ==> r == data.items
    ensures !data.PagedData? ==> r == []
  {
    if data.PagedData? then data.items else []
  }

  /** The status step the card offers: "resolved" for an issue in progress, "closed" for
      a resolved one, nothing otherwise. */
  function OfferedStep(status: string): (r: Option<string>)
    ensures r == Some("resolved") <==> status == "in-progress"
    ensures r == Some("closed") <==> status == "resolved"
    ensures r.None? <==> status != "in-progress" && status != "resolved"
  {
    if status == "in-progress" then Some("resolved")
    else if status == "resolved" then Some("closed")
    else None
  }

  /** The position of a status in an issue's life. */
  function Stage(status: string): int {
    if status == "pending" then 0
    else if status == "assigned" then 1
    else if status == "in-progress" then 2
    else if status == "resolved" then 3
    else if status == "closed" then 4
    else -1
  }

  /** A staff member can only move an issue one stage forward, and never out of the
      pending, assigned, closed or any unknown status. */
  lemma OfferedStepMovesForward(status: string)
    ensures OfferedStep(status).Some? ==> Stage(OfferedStep(status).value) == Stage(status) + 1
    ensures Stage(status) < 2 || Stage(status) == 4 ==> OfferedStep(status).None?
  {
  }

  /** Following the offered steps from "in-progress" reaches "closed" in two steps and
      stops there. */
  lemma OfferedStepsEnd()
    ensures OfferedStep("in-progress") == Some("resolved")
    ensures OfferedStep("resolved") == Some("closed")
    ensures OfferedStep("closed").None?
  {
  }

  /** The body of the status request. */
  datatype StatusRequest = StatusRequest(id: string, status: string, note: string)

  /** `updateStatus`: nothing for a dismissed dialog; otherwise the new status with the
      typed comment, or "" when the comment is empty or missing. */
  function UpdateStatus(issue: Issue, newStatus: string, result: DialogResult): (r: Option<StatusRequest>)
    ensures r.Some? <==> result.isConfirmed
    ensures r.Some? ==> r.value.id == issue.id && r.value.status == newStatus
    ensures r.Some? && Truthy(result.value) ==> r.value.note == result.value.value
    ensures r.Some? && !Truthy(result.value) ==> r.value.note == ""
  {
    if !result.isConfirmed then None
    else Some(StatusRequest(issue.id, newStatus, OrElse(result.value, "")))
  }
}
