/** The home page's "resolved issues" strip: the first six resolved issues of the list. */
module ResolvedIssues {
  import opened Js
  import opened Model

  /** How many issues the strip shows at most. */
  const Shown: int := 6

  /** The strip's test. */
  predicate IsResolved(issue: Issue) {
    issue.status == "resolved"
  }

  /** `issues.filter(resolved).slice(0, 6)`: at most six issues, all resolved, and they
      are the first resolved issues of the list, in the list's order. */
  function ResolvedStrip(issues: seq<Issue>): (r: seq<Issue>)
    ensures |r| <= Shown
    ensures forall k :: 0 <= k < |r| ==> r[k].status == "resolved"
    ensures var all := Filter(issues, IsResolved);
            r == all[..if |all| <= Shown then |all| else Shown]
  {
    Slice(Filter(issues, IsResolved), 0, Shown)
  }

  /** The strip is an order-preserving selection from the list. */
  lemma StripIsSubsequence(issues: seq<Issue>)
    ensures IsSubsequence(ResolvedStrip(issues), issues)
  {
    var all := Filter(issues, IsResolved);
    PrefixIsSubsequence(all, |ResolvedStrip(issues)|);
    SubsequenceTransitive(ResolvedStrip(issues), all, issues);
  }

  /** A prefix is a sub-sequence. */
  lemma {:induction false} PrefixIsSubsequence(s: seq<Issue>, n: nat)
    requires n <= |s|
    ensures IsSubsequence(s[..n], s)
  {
    if n > 0 {
      PrefixIsSubsequence(s[1..], n - 1);
      assert s[..n][1..] == s[1..][..n - 1];
    }
  }

  /** When the list has at most six resolved issues the strip shows all of them. */
  lemma FewResolvedAllShown(issues: seq<Issue>)
    requires |Filter(issues, IsResolved)| <= Shown
    ensures ResolvedStrip(issues) == Filter(issues, IsResolved)
  {
  }

  /** The "No resolved issues yet." message shows exactly when no issue is resolved. */
  lemma EmptyStateIffNoneResolved(issues: seq<Issue>)
    ensures ResolvedStrip(issues) == [] <==> forall k :: 0 <= k < |issues| ==> issues[k].status != "resolved"
  {
    FilterEmpty(issues, IsResolved);
  }
}
