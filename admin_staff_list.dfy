/** The admin's staff table: the role-change dialog, titled with `NameOrEmail`. The
    delete confirmation is `ConfirmedSend` on the email. */
module AdminStaffList {
  import opened Js
  import opened Model

  /** The role picker's options: staff and admin only. */
  const RoleOptions: map<string, string> := map["staff" := "Staff", "admin" := "Admin"]

  /** The body of the role request: the staff member's email and the new role. */
  datatype RoleChange = RoleChange(email: string, role: string)

  /** `handleRoleChange`: the picker opens on the current role; nothing is sent for a
      dismissed picker or for the role the member already has; otherwise the request
      carries the member's email and the chosen role. */
  function HandleRoleChange(member: StaffMember, selected: Option<string>): (r: Option<RoleChange>)
    ensures r.Some? <==> Truthy(selected) && selected.value != member.role
    ensures r.Some? ==> r.value == RoleChange(member.email, selected.value)
  {
    if !Truthy(selected) || selected.value == member.role then None
    else Some(RoleChange(member.email, selected.value))
  }

  /** Keeping the preselected value (the current role) sends nothing, and a change made
      in the picker asks for "staff" or "admin" and differs from the current role. */
  lemma RoleChangeSpec(member: StaffMember, selected: Option<string>)
    requires selected.Some? ==> selected.value in RoleOptions
    ensures RoleOptions.Keys == {"staff", "admin"}
    ensures HandleRoleChange(member, Some(member.role)).None?
    ensures HandleRoleChange(member, selected).Some? ==>
              var c := HandleRoleChange(member, selected).value;
              c.role in {"staff", "admin"} && c.role != member.role
  {
  }
}
