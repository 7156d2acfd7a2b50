/** The staff picker's `inputOptions` object, built by folding the staff list into an
    object keyed by email (`acc[s.email] = label`). Both admin pages build it, each with
    its own label. */
module StaffOptions {
  import opened Model

  /** The object after the fold has visited `staff` in order: a later member with the
      same email overwrites the earlier entry. */
  function OptionsOf(staff: seq<StaffMember>, labelOf: StaffMember -> string): map<string, string>
    decreases |staff|
  {
    if staff == [] then map[]
    else OptionsOf(staff[..|staff| - 1], labelOf)[staff[|staff| - 1].email := labelOf(staff[|staff| - 1])]
  }

  /** The `reduce`: one write into the accumulator per staff member. */
  method BuildOptions(staff: seq<StaffMember>, labelOf: StaffMember -> string) returns (options: map<string, string>)
    ensures options == OptionsOf(staff, labelOf)
  {
    options := map[];
    var i := 0;
    while i < |staff|
      invariant 0 <= i <= |staff|
      invariant options == OptionsOf(staff[..i], labelOf)
    {
      assert staff[..i + 1][..i] == staff[..i];
      options := options[staff[i].email := labelOf(staff[i])];
      i := i + 1;
    }
    assert staff[..|staff|] == staff;
  }

  /** The emails of the staff list. */
  function Emails(staff: seq<StaffMember>): set<string> {
    set i | 0 <= i < |staff| :: staff[i].email
  }

  /** The options offer exactly the staff members' emails. */
  lemma {:induction false} OptionsKeys(staff: seq<StaffMember>, labelOf: StaffMember -> string)
    ensures OptionsOf(staff, labelOf).Keys == Emails(staff)
    decreases |staff|
  {
    if staff != [] {
      var init := staff[..|staff| - 1];
      OptionsKeys(init, labelOf);
      var last := staff[|staff| - 1];
      forall e | e in Emails(staff) ensures e in Emails(init) + {last.email} {
        var i :| 0 <= i < |staff| && staff[i].email == e;
        if i < |init| {
          assert init[i].email == e;
        }
      }
      forall e | e in Emails(init) ensures e in Emails(staff) {
        var i :| 0 <= i < |init| && init[i].email == e;
        assert staff[i].email == e;
      }
      assert Emails(staff) == Emails(init) + {last.email};
    }
  }

  /** The label shown for an email is that of the last staff member with the email. */
  lemma {:induction false} OptionsLabel(staff: seq<StaffMember>, labelOf: StaffMember -> string, k: int)
    requires 0 <= k < |staff|
    requires forall j :: k < j < |staff| ==> staff[j].email != staff[k].email
    ensures staff[k].email in OptionsOf(staff, labelOf)
    ensures OptionsOf(staff, labelOf)[staff[k].email] == labelOf(staff[k])
    decreases |staff|
  {
    if k < |staff| - 1 {
      var init := staff[..|staff| - 1];
      OptionsLabel(init, labelOf, k);
    }
  }
}
