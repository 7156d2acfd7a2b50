/** The admin's assignment page: the issues that still need a staff member, the staff
    picker labelled "name (email)", and the two dialogs before the request. */
module AdminAssignStaff {
  import opened Js
  import opened Model
  import StaffOptions

  /** The `queryFn`'s list: the `items` of a paged body, a bare array as it is, or none. */
  function IssueList(data: IssuesData): (r: seq<Issue>)
    ensures data.PagedData? ==> r == data.items
    ensures data.ArrayData? ==> r == data.arr
    ensures data.NoData? ==> r == []
  {
    match data
    case NoData => []
    case ArrayData(a) => a
    case PagedData(_, items) => items
  }

  /** `!i.assignedStaff` */
  predicate IsUnassigned(issue: Issue) {
    issue.assignedStaff == ""
  }

  /** `rawIssues.filter(i => !i.assignedStaff)`: the issues without a staff member, in
      their original order, each as often as in the list, and no other issue. */
  function Unassigned(issues: seq<Issue>): (r: seq<Issue>)
    ensures forall k :: 0 <= k < |r| ==> r[k].assignedStaff == ""
    ensures forall x :: multiset(r)[x] == if x.assignedStaff == "" then multiset(issues)[x] else 0
    ensures IsSubsequence(r, issues)
  {
    Filter(issues, IsUnassigned)
  }

  /** Selecting the unassigned issues twice gives the same list. */
  lemma UnassignedIdempotent(issues: seq<Issue>)
    ensures Unassigned(Unassigned(issues)) == Unassigned(issues)
  {
    FilterAll(Unassigned(issues), IsUnassigned);
  }

  /** The label of a staff member in the picker: "name (email)", or the email alone. */
  function StaffLabel(s: StaffMember): (text: string)
    ensures Truthy(s.name) ==> text == s.name.value + " (" + s.email + ")"
    ensures !Truthy(s.name) ==> text == s.email
  {
    if Truthy(s.name) then s.name.value + " (" + s.email + ")" else s.email
  }

  /** Every label shows the staff member's email. */
  lemma LabelShowsEmail(s: StaffMember)
    ensures Includes(StaffLabel(s), s.email)
  {
    var text := StaffLabel(s);
    if Truthy(s.name) {
      var i := |s.name.value| + 2;
      assert text[i..i + |s.email|] == s.email;
      assert OccursAt(text, s.email, i);
    } else {
      assert OccursAt(text, s.email, 0);
    }
    IncludesIffOccurs(text, s.email);
  }

  /** What `handleAssign` does. */
  datatype AssignOutcome = NoStaff | SelectionCancelled | NotConfirmed | AssignSent(issueId: string, staffEmail: string)

  /** `handleAssign`: an info message without staff; otherwise the picker, with one
      option per staff email; a dismissed or empty choice ends it; the choice is then
      confirmed in a second dialog, and only a confirmed choice is sent. */
  method HandleAssign(issueId: string, staffList: seq<StaffMember>, chosen: Option<string>, confirmed: bool)
    returns (o: AssignOutcome, picker: Option<map<string, string>>)
    ensures o.NoStaff? <==> staffList == []
    ensures picker.None? <==> staffList == []
    ensures picker.Some? ==> picker.value == StaffOptions.OptionsOf(staffList, StaffLabel)
    ensures o.AssignSent? <==> staffList != [] && Truthy(chosen) && confirmed
    ensures o.NotConfirmed? <==> staffList != [] && Truthy(chosen) && !confirmed
    ensures o.AssignSent? ==> o == AssignSent(issueId, chosen.value)
  {
    if staffList == [] {
      return NoStaff, None;
    }
    var options := StaffOptions.BuildOptions(staffList, StaffLabel);
    picker := Some(options);
    if !Truthy(chosen) {
      return SelectionCancelled, picker;
    }
    if !confirmed {
      return NotConfirmed, picker;
    }
    o := AssignSent(issueId, chosen.value);
  }
}
