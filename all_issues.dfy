/** The public issue list page: the optimistic upvote written into the cached list and
    rolled back on failure, the guard in front of it, the feed order (boosted or
    high-priority first, then newest first), the four filters and 9-per-page paging. */
module AllIssues {
  import opened Js
  import opened Model

  const PerPage: int := 9

  // ---------------------------------------------------------------------------
  // Optimistic upvote

  /** `issue.upvoters?.includes(email)` */
  predicate HasUpvoted(issue: Issue, email: string) {
    issue.upvoters.Some? && email in issue.upvoters.value
  }

  /** `issue.upvotes || 0` */
  function VoteCount(issue: Issue): int {
    issue.upvotes.GetOr(0)
  }

  /** `issue.upvoters || []` */
  function Voters(issue: Issue): seq<string> {
    issue.upvoters.GetOr([])
  }

  /** The two issues agree on every field other than `upvotes` and `upvoters`. */
  predicate SameExceptVotes(a: Issue, b: Issue) {
    a.(upvotes := None, upvoters := None) == b.(upvotes := None, upvoters := None)
  }

  /** The callback that the cache updater maps over the list: the target issue, if the
      voter is not yet among its upvoters, gets one more vote and the voter appended. */
  function UpvoteIssue(issue: Issue, id: string, email: string): (r: Issue)
    ensures issue.id != id || HasUpvoted(issue, email) ==> r == issue
    ensures issue.id == id && !HasUpvoted(issue, email) ==>
              && SameExceptVotes(r, issue)
              && r.upvotes == Some(VoteCount(issue) + 1)
              && r.upvoters == Some(Voters(issue) + [email])
    ensures issue.id == id ==> HasUpvoted(r, email)
  {
    if issue.id == id && !HasUpvoted(issue, email) then
      issue.(upvotes := Some(VoteCount(issue) + 1), upvoters := Some(Voters(issue) + [email]))
    else
      issue
  }

  /** `old.map(...)` in the optimistic write: the list keeps its length, issues with
      another id or already voted on are untouched, and the target gains the vote. */
  function OptimisticUpvote(list: seq<Issue>, id: string, email: string): (r: seq<Issue>)
    ensures |r| == |list|
    ensures forall i :: 0 <= i < |list| && (list[i].id != id || HasUpvoted(list[i], email)) ==> r[i] == list[i]
    ensures forall i :: 0 <= i < |list| && list[i].id == id && !HasUpvoted(list[i], email) ==>
              && SameExceptVotes(r[i], list[i])
              && r[i].upvotes == Some(VoteCount(list[i]) + 1)
              && r[i].upvoters == Some(Voters(list[i]) + [email])
    ensures forall i :: 0 <= i < |list| && list[i].id == id ==> HasUpvoted(r[i], email)
  {
    seq(|list|, i requires 0 <= i < |list| => UpvoteIssue(list[i], id, email))
  }

  /** Applying the optimistic write a second time with the same id and voter changes nothing. */
  lemma {:induction false} OptimisticUpvoteIdempotent(list: seq<Issue>, id: string, email: string)
    ensures OptimisticUpvote(OptimisticUpvote(list, id, email), id, email) == OptimisticUpvote(list, id, email)
  {
    if list != [] {
      OptimisticUpvoteIdempotent(list[1..], id, email);
      assert OptimisticUpvote(list, id, email)[1..] == OptimisticUpvote(list[1..], id, email);
    }
  }

  /** The sum of the displayed vote counts. */
  function TotalVotes(list: seq<Issue>): int {
    if list == [] then 0 else VoteCount(list[0]) + TotalVotes(list[1..])
  }

  /** How many issues of the list the write would change. */
  function Eligible(list: seq<Issue>, id: string, email: string): nat {
    if list == [] then 0
    else (if list[0].id == id && !HasUpvoted(list[0], email) then 1 else 0) + Eligible(list[1..], id, email)
  }

  /** The write adds exactly one vote per changed issue to the list's total. */
  lemma {:induction false} TotalVotesAfterUpvote(list: seq<Issue>, id: string, email: string)
    ensures TotalVotes(OptimisticUpvote(list, id, email)) == TotalVotes(list) + Eligible(list, id, email)
  {
    if list != [] {
      TotalVotesAfterUpvote(list[1..], id, email);
      assert OptimisticUpvote(list, id, email)[1..] == OptimisticUpvote(list[1..], id, email);
    }
  }

  /** Issue ids are distinct. */
  predicate UniqueIds(list: seq<Issue>) {
    forall i, j :: 0 <= i < j < |list| ==> list[i].id != list[j].id
  }

  /** With distinct ids, a write for an issue that is present and not yet voted on by
      `email` adds exactly one vote to the list. */
  lemma {:induction false} UpvoteAddsExactlyOne(list: seq<Issue>, k: int, email: string)
    requires UniqueIds(list)
    requires 0 <= k < |list| && !HasUpvoted(list[k], email)
    ensures TotalVotes(OptimisticUpvote(list, list[k].id, email)) == TotalVotes(list) + 1
  {
    TotalVotesAfterUpvote(list, list[k].id, email);
    EligibleOnlyAt(list, k, email);
  }

  lemma {:induction false} EligibleOnlyAt(list: seq<Issue>, k: int, email: string)
    requires UniqueIds(list)
    requires 0 <= k < |list| && !HasUpvoted(list[k], email)
    ensures Eligible(list, list[k].id, email) == 1
  {
    if k == 0 {
      NoneEligible(list[1..], list[k].id, email);
    } else {
      EligibleOnlyAt(list[1..], k - 1, email);
    }
  }

  lemma {:induction false} NoneEligible(list: seq<Issue>, id: string, email: string)
    requires forall i :: 0 <= i < |list| ==> list[i].id != id
    ensures Eligible(list, id, email) == 0
  {
    if list != [] {
      NoneEligible(list[1..], id, email);
    }
  }

  /** The updater passed to `setQueryData`: `old?.map(...)`, so an empty cache stays empty. */
  function UpdateCache(cached: Option<seq<Issue>>, id: string, email: string): (r: Option<seq<Issue>>)
    ensures r.None? <==> cached.None?
  {
    if cached.Some? then Some(OptimisticUpvote(cached.value, id, email)) else None
  }

  /** What `handleUpvote` does with a click. */
  datatype UpvoteDecision =
    | LoginRequired(goToLogin: bool)
    | OwnIssue
    | AlreadyVoted
    | Dispatch(id: string, email: string)

  /** `handleUpvote`'s guards: a login prompt (which leads to "/login" when confirmed), a
      refusal for the reporter, a refusal for a repeated vote, else the mutation. */
  function UpvoteGuard(issue: Issue, user: Option<AuthUser>, loginConfirmed: bool): (d: UpvoteDecision)
    ensures d.LoginRequired? <==> !HasEmail(user)
    ensures d.LoginRequired? ==> d.goToLogin == loginConfirmed
    ensures d.Dispatch? <==>
              HasEmail(user) && issue.reporterEmail != UserEmail(user).value
              && !HasUpvoted(issue, UserEmail(user).value)
    ensures d.Dispatch? ==> d.id == issue.id && UserEmail(user) == Some(d.email)
  {
    if !HasEmail(user) then LoginRequired(loginConfirmed)
    else
      var email := UserEmail(user).value;
      if issue.reporterEmail == email then OwnIssue
      else if HasUpvoted(issue, email) then AlreadyVoted
      else Dispatch(issue.id, email)
  }

  /** A dispatched upvote always takes effect on the clicked issue of the cached list. */
  lemma GuardedUpvoteTakesEffect(list: seq<Issue>, k: int, user: Option<AuthUser>, loginConfirmed: bool)
    requires 0 <= k < |list|
    requires UpvoteGuard(list[k], user, loginConfirmed).Dispatch?
    ensures var d := UpvoteGuard(list[k], user, loginConfirmed);
            VoteCount(OptimisticUpvote(list, d.id, d.email)[k]) == VoteCount(list[k]) + 1
  {
  }

  /** The react-query cache entry `["allIssues"]`. */
  class IssueCache {
    var data: Option<seq<Issue>>

    constructor (initial: Option<seq<Issue>>)
      ensures data == initial
    {
      data := initial;
    }

    /** `onMutate`: takes the snapshot, then writes the optimistic list. */
    method OnMutate(id: string, email: string) returns (previous: Option<seq<Issue>>)
      modifies this
      ensures previous == old(data)
      ensures data == UpdateCache(old(data), id, email)
    {
      previous := data;
      data := UpdateCache(data, id, email);
    }

    /** `onError`: puts the snapshot back. Writing `undefined` to a react-query entry
        leaves it as it is, so a missing snapshot changes nothing. */
    method OnError(previous: Option<seq<Issue>>)
      modifies this
      ensures data == if previous.Some? then previous else old(data)
    {
      if previous.Some? {
        data := previous;
      }
    }

    /** A click on the upvote button followed by the request's outcome: nothing is written
        unless the guard dispatches; a failed request leaves exactly the state before the
        click; a successful one leaves the optimistic list. */
    method HandleUpvote(issue: Issue, user: Option<AuthUser>, loginConfirmed: bool, requestFails: bool)
      returns (d: UpvoteDecision)
      modifies this
      ensures d == UpvoteGuard(issue, user, loginConfirmed)
      ensures !d.Dispatch? ==> data == old(data)
      ensures d.Dispatch? && requestFails ==> data == old(data)
      ensures d.Dispatch? && !requestFails ==> data == UpdateCache(old(data), d.id, d.email)
    {
      d := UpvoteGuard(issue, user, loginConfirmed);
      if d.Dispatch? {
        var context := OnMutate(d.id, d.email);
        if requestFails {
          OnError(context);
        }
      }
    }

    /** Two upvotes in flight at once, the first of which fails after the second was
        written: the first rollback restores the snapshot taken before both writes, so the
        second (still pending) optimistic vote disappears from the cache. */
    method OverlappingUpvotes(first: string, second: string, email: string)
      modifies this
      ensures data == old(data)
    {
      var firstSnapshot := OnMutate(first, email);
      var secondSnapshot := OnMutate(second, email);
      OnError(firstSnapshot);
    }
  }

  // ---------------------------------------------------------------------------
  // Feed order

  /** 1 for a high-priority or boosted issue, else 0. */
  function Rank(issue: Issue): int {
    if issue.priority == "high" || issue.isBoosted then 1 else 0
  }

  /** The comparator given to `sort`: negative when `a` is to come first. */
  function Compare(a: Issue, b: Issue): int {
    if Rank(a) != Rank(b) then Rank(b) - Rank(a) else b.reportedAt - a.reportedAt
  }

  /** The feed order: `a` may precede `b` when it is in a higher group, or in the same
      group and reported no earlier. */
  predicate FeedOrder(a: Issue, b: Issue) {
    Rank(a) > Rank(b) || (Rank(a) == Rank(b) && a.reportedAt >= b.reportedAt)
  }

  /** Every pair of the sequence is in feed order. */
  predicate InFeedOrder(s: seq<Issue>) {
    forall i, j :: 0 <= i < j < |s| ==> FeedOrder(s[i], s[j])
  }

  /** The comparator says "not after" exactly when the pair is in feed order. */
  lemma CompareIsFeedOrder(a: Issue, b: Issue)
    ensures Compare(a, b) <= 0 <==> FeedOrder(a, b)
  {
  }

  /** Inserts `x` before the first element the comparator does not put ahead of it. */
  function Insert(x: Issue, s: seq<Issue>): (r: seq<Issue>)
    requires InFeedOrder(s)
    ensures InFeedOrder(r)
    ensures multiset(r) == multiset(s) + multiset{x}
  {
    if s == [] then [x]
    else if Compare(x, s[0]) <= 0 then
      assert forall k :: 0 <= k < |s| ==> FeedOrder(s[0], s[k]);
      [x] + s
    else
      var rest := Insert(x, s[1..]);
      assert s == [s[0]] + s[1..];
      forall k | 0 <= k < |rest| ensures FeedOrder(s[0], rest[k]) {
        assert rest[k] in multiset(rest);
        if rest[k] != x {
          assert rest[k] in multiset(s[1..]);
          var m :| 0 <= m < |s[1..]| && s[1..][m] == rest[k];
          assert s[m + 1] == rest[k];
        }
      }
      [s[0]] + rest
  }

  /** `list.sort(...)` with the feed comparator (a stable sort): the result is a
      permutation of the input in feed order, so every high-priority or boosted issue
      precedes every other issue, and within a group later reports come first. */
  function SortIssues(s: seq<Issue>): (r: seq<Issue>)
    ensures InFeedOrder(r)
    ensures multiset(r) == multiset(s)
  {
    if s == [] then []
    else
      assert s == [s[0]] + s[1..];
      Insert(s[0], SortIssues(s[1..]))
  }

  /** A sub-sequence of a sequence in feed order is in feed order. */
  lemma {:induction false} SubsequenceKeepsFeedOrder(a: seq<Issue>, b: seq<Issue>)
    requires IsSubsequence(a, b) && InFeedOrder(b)
    ensures InFeedOrder(a)
    decreases |b|
  {
    if a != [] {
      assert b != [];
      if a[0] == b[0] && IsSubsequence(a[1..], b[1..]) {
        SubsequenceKeepsFeedOrder(a[1..], b[1..]);
        forall j | 0 < j < |a| ensures FeedOrder(a[0], a[j]) {
          SubsequenceMember(a[1..], b[1..], j - 1);
        }
      } else {
        SubsequenceKeepsFeedOrder(a, b[1..]);
      }
    }
  }

  /** Each element of a sub-sequence occurs in the larger sequence. */
  lemma {:induction false} SubsequenceMember(a: seq<Issue>, b: seq<Issue>, k: int)
    requires IsSubsequence(a, b) && 0 <= k < |a|
    ensures exists m :: 0 <= m < |b| && b[m] == a[k]
    decreases |b|
  {
    assert b != [];
    if a[0] == b[0] && IsSubsequence(a[1..], b[1..]) {
      if k == 0 {
        assert b[0] == a[k];
      } else {
        SubsequenceMember(a[1..], b[1..], k - 1);
        var m :| 0 <= m < |b[1..]| && b[1..][m] == a[1..][k - 1];
        assert b[m + 1] == a[k];
      }
    } else {
      SubsequenceMember(a, b[1..], k);
      var m :| 0 <= m < |b[1..]| && b[1..][m] == a[k];
      assert b[m + 1] == a[k];
    }
  }

  // ---------------------------------------------------------------------------
  // Filters

  /** The search box's test: the lowercased query occurs in the lowercased title,
      description or location (a missing field never matches). */
  predicate SearchHit(issue: Issue, q: string) {
    || (issue.title.Some? && Includes(ToLower(issue.title.value), q))
    || (issue.description.Some? && Includes(ToLower(issue.description.value), q))
    || (issue.location.Some? && Includes(ToLower(issue.location.value), q))
  }

  /** An issue passes every filter whose selection is not the default. The search
      applies only when the trimmed text is non-empty, and then it matches the
      untrimmed text, lowercased. */
  predicate MatchesFilters(issue: Issue, category: string, status: string, priority: string, search: string) {
    && (category != "Category" ==> issue.category == category)
    && (status != "Status" ==> issue.status == ToLower(status))
    && (priority != "Priority" ==> issue.priority == priority)
    && (Trim(search) != "" ==> SearchHit(issue, ToLower(search)))
  }

  /** One `if (...) list = list.filter(p)` step. */
  function FilterIf(active: bool, list: seq<Issue>, p: Issue -> bool): seq<Issue> {
    if active then Filter(list, p) else list
  }

  /** `filteredIssues`: sort a copy, then apply the filters one after the other. */
  function FilteredIssues(issues: seq<Issue>, category: string, status: string, priority: string, search: string): seq<Issue> {
    FilterSteps(SortIssues(issues), category, status, priority, search)
  }

  /** One filter step keeps an order-preserving part of its input and, of every issue,
      either all copies (when the step is off or the issue passes) or none. */
  lemma FilterIfSpec(active: bool, list: seq<Issue>, p: Issue -> bool)
    ensures IsSubsequence(FilterIf(active, list, p), list)
    ensures forall x :: multiset(FilterIf(active, list, p))[x] == if !active || p(x) then multiset(list)[x] else 0
  {
    if !active {
      SubsequenceReflexive(list);
    }
  }

  /** The four filter steps after the sort, on a given list. */
  function FilterSteps(sorted: seq<Issue>, category: string, status: string, priority: string, search: string): seq<Issue> {
    var byCategory := FilterIf(category != "Category", sorted, (i: Issue) => i.category == category);
    var byStatus := FilterIf(status != "Status", byCategory, (i: Issue) => i.status == ToLower(status));
    var byPriority := FilterIf(priority != "Priority", byStatus, (i: Issue) => i.priority == priority);
    FilterIf(Trim(search) != "", byPriority, (i: Issue) => SearchHit(i, ToLower(search)))
  }

  /** The filter steps delete issues and never reorder them. */
  lemma FilterStepsKeepOrder(sorted: seq<Issue>, category: string, status: string, priority: string, search: string)
    ensures IsSubsequence(FilterSteps(sorted, category, status, priority, search), sorted)
  {
    var byCategory := FilterIf(category != "Category", sorted, (i: Issue) => i.category == category);
    var byStatus := FilterIf(status != "Status", byCategory, (i: Issue) => i.status == ToLower(status));
    var byPriority := FilterIf(priority != "Priority", byStatus, (i: Issue) => i.priority == priority);
    var r := FilterIf(Trim(search) != "", byPriority, (i: Issue) => SearchHit(i, ToLower(search)));
    FilterIfSpec(category != "Category", sorted, (i: Issue) => i.category == category);
    FilterIfSpec(status != "Status", byCategory, (i: Issue) => i.status == ToLower(status));
    FilterIfSpec(priority != "Priority", byStatus, (i: Issue) => i.priority == priority);
    FilterIfSpec(Trim(search) != "", byPriority, (i: Issue) => SearchHit(i, ToLower(search)));
    SubsequenceTransitive(byStatus, byCategory, sorted);
    SubsequenceTransitive(byPriority, byStatus, sorted);
    SubsequenceTransitive(r, byPriority, sorted);
  }

  /** The filter steps keep every copy of a matching issue and no copy of any other. */
  lemma FilterStepsCounts(sorted: seq<Issue>, category: string, status: string, priority: string, search: string)
    ensures forall x :: multiset(FilterSteps(sorted, category, status, priority, search))[x]
                        == if MatchesFilters(x, category, status, priority, search) then multiset(sorted)[x] else 0
  {
    var byCategory := FilterIf(category != "Category", sorted, (i: Issue) => i.category == category);
    var byStatus := FilterIf(status != "Status", byCategory, (i: Issue) => i.status == ToLower(status));
    var byPriority := FilterIf(priority != "Priority", byStatus, (i: Issue) => i.priority == priority);
    FilterIfSpec(category != "Category", sorted, (i: Issue) => i.category == category);
    FilterIfSpec(status != "Status", byCategory, (i: Issue) => i.status == ToLower(status));
    FilterIfSpec(priority != "Priority", byStatus, (i: Issue) => i.priority == priority);
    FilterIfSpec(Trim(search) != "", byPriority, (i: Issue) => SearchHit(i, ToLower(search)));
  }

  /** The filtered list is the sorted list with exactly the non-matching issues removed:
      it is a sub-sequence of the sorted list, still in feed order, every element passes
      every active filter, and every matching issue keeps its multiplicity. */
  lemma FilteredIssuesSpec(issues: seq<Issue>, category: string, status: string, priority: string, search: string)
    ensures var r := FilteredIssues(issues, category, status, priority, search);
            && IsSubsequence(r, SortIssues(issues))
            && InFeedOrder(r)
            && (forall k :: 0 <= k < |r| ==> MatchesFilters(r[k], category, status, priority, search))
            && (forall x :: multiset(r)[x] == if MatchesFilters(x, category, status, priority, search) then multiset(issues)[x] else 0)
  {
    var sorted := SortIssues(issues);
    var r := FilterSteps(sorted, category, status, priority, search);
    FilterStepsKeepOrder(sorted, category, status, priority, search);
    FilterStepsCounts(sorted, category, status, priority, search);
    SubsequenceKeepsFeedOrder(r, sorted);
    forall k | 0 <= k < |r| ensures MatchesFilters(r[k], category, status, priority, search) {
      assert r[k] in multiset(r);
    }
  }

  // ---------------------------------------------------------------------------
  // Paging

  /** `Math.ceil(total / perPage)` */
  function PageCount(total: nat): (n: nat)
    ensures (n - 1) * PerPage < total <= n * PerPage
  {
    CeilDiv(total, PerPage)
  }

  /** `filteredIssues.slice((page - 1) * perPage, page * perPage)` */
  function PageItems(list: seq<Issue>, page: int): seq<Issue> {
    Slice(list, (page - 1) * PerPage, page * PerPage)
  }

  /** Page `page` (counted from 1) holds at most 9 issues: those at positions
      (page-1)*9 up to page*9 of the list, cut off at its end. */
  lemma PageItemsSpec(list: seq<Issue>, page: int)
    requires page >= 1
    ensures |PageItems(list, page)| <= PerPage
    ensures (page - 1) * PerPage <= |list| ==>
              PageItems(list, page) == list[(page - 1) * PerPage..if page * PerPage <= |list| then page * PerPage else |list|]
    ensures (page - 1) * PerPage >= |list| ==> PageItems(list, page) == []
  {
  }

  /** `count` consecutive pages of the list, starting at page `from`, one after the other. */
  function PagesFrom(list: seq<Issue>, from: int, count: nat): seq<Issue>
    decreases count
  {
    if count == 0 then [] else PageItems(list, from) + PagesFrom(list, from + 1, count - 1)
  }

  /** Pages 1 to `pages` together hold the whole list, in order: no issue is skipped or
      shown twice. */
  lemma PagesCoverList(list: seq<Issue>)
    ensures PagesFrom(list, 1, PageCount(|list|)) == list
  {
    PagesFromSuffix(list, 1, PageCount(|list|));
  }

  lemma {:induction false} PagesFromSuffix(list: seq<Issue>, from: int, count: nat)
    requires 1 <= from && (from - 1) * PerPage <= |list| <= (from - 1 + count) * PerPage
    ensures PagesFrom(list, from, count) == list[(from - 1) * PerPage..]
    decreases count
  {
    if count > 0 {
      var lo := (from - 1) * PerPage;
      var hi := from * PerPage;
      assert hi == lo + PerPage && (from - 1 + count) * PerPage == hi + (count - 1) * PerPage;
      if hi <= |list| {
        PagesFromSuffix(list, from + 1, count - 1);
        SplitAt(list, lo, hi);
      } else {
        PagesFromEmpty(list, from + 1, count - 1);
      }
    }
  }

  lemma SplitAt(list: seq<Issue>, lo: int, hi: int)
    requires 0 <= lo <= hi <= |list|
    ensures list[lo..] == list[lo..hi] + list[hi..]
  {
  }

  lemma {:induction false} PagesFromEmpty(list: seq<Issue>, from: int, count: nat)
    requires 1 <= from && (from - 1) * PerPage >= |list|
    ensures PagesFrom(list, from, count) == []
    decreases count
  {
    if count > 0 {
      PagesFromEmpty(list, from + 1, count - 1);
    }
  }

  /** The "Showing a – b of total" text. */
  function ShowingRange(page: int, total: int): (int, int) {
    ((page - 1) * PerPage + 1, if page * PerPage <= total then page * PerPage else total)
  }

  /** On a page that has issues, the range shown counts exactly the issues on it. */
  lemma ShowingRangeCountsPage(list: seq<Issue>, page: int)
    requires 1 <= page && (page - 1) * PerPage < |list|
    ensures var (a, b) := ShowingRange(page, |list|);
            1 <= a <= b && b - a + 1 == |PageItems(list, page)|
  {
  }

  /** The Next button's enabled test as the page writes it (`disabled={page === pages}`). */
  function NextEnabledAsWritten(page: int, pages: int): bool {
    page != pages
  }

  /** With no matching issue there are 0 pages, so the test as written leaves Next enabled
      on page 1 and a click moves to page 2 of a list that has no page 1. */
  lemma NextEnabledOnEmptyList()
    ensures PageCount(0) == 0
    ensures NextEnabledAsWritten(1, PageCount(0))
    ensures PageItems([], 1 + 1) == [] && 1 + 1 > PageCount(0)
  {
  }

  /** The evidently intended test: Next is enabled only while a later page exists. */
  predicate NextEnabled(page: int, pages: int) {
    page < pages
  }

  /** With the intended test, Next is enabled on a page exactly when the following page
      has issues to show. */
  lemma NextEnabledIffNextPageHasIssues(list: seq<Issue>, page: int)
    requires page >= 1
    ensures NextEnabled(page, PageCount(|list|)) <==> PageItems(list, page + 1) != []
  {
    var n := PageCount(|list|);
    var lo := (page + 1 - 1) * PerPage;
    assert lo == page * PerPage;
    if page < n {
      assert page * PerPage <= (n - 1) * PerPage;
      assert lo < |list|;
      assert |PageItems(list, page + 1)| > 0 by {
        var hi := (page + 1) * PerPage;
        assert hi == lo + PerPage;
        if hi <= |list| {
          assert PageItems(list, page + 1) == list[lo..hi];
        } else {
          assert PageItems(list, page + 1) == list[lo..|list|];
        }
      }
    } else {
      assert n * PerPage <= page * PerPage;
      assert |list| <= lo;
    }
  }

  /** The page number of the list, reset to 1 by every filter change. */
  class Pager {
    var page: int

    /** The page lies between 1 and the last page (1 when there is none). */
    predicate Within(pages: int)
      reads this
    {
      1 <= page && (page <= pages || page == 1)
    }

    constructor ()
      ensures page == 1
    {
      page := 1;
    }

    /** `setPage(1)`, called by every filter and search change. */
    method Reset()
      modifies this
      ensures page == 1
    {
      page := 1;
    }

    /** The Prev button: disabled on page 1, else one page back. */
    method Prev()
      modifies this
      ensures page == if old(page) == 1 then old(page) else old(page) - 1
    {
      if page != 1 {
        page := page - 1;
      }
    }

    /** The Next button as written: enabled whenever the page is not `pages`. */
    method NextAsWritten(pages: int)
      modifies this
      ensures page == if NextEnabledAsWritten(old(page), pages) then old(page) + 1 else old(page)
    {
      if NextEnabledAsWritten(page, pages) {
        page := page + 1;
      }
    }

    /** The Next button, with the intended enabled test: it keeps the page within range. */
    method Next(pages: int)
      modifies this
      ensures page == if NextEnabled(old(page), pages) then old(page) + 1 else old(page)
      ensures old(Within(pages)) ==> Within(pages)
    {
      if NextEnabled(page, pages) {
        page := page + 1;
      }
    }
  }

  /** As written, a click on Next on an empty list moves from page 1 to page 2, out of the
      range of a list without pages. */
  method EmptyListNextAsWritten() returns (page: int, within: bool)
    ensures page == 2 && !within
  {
    var pager := new Pager();
    pager.NextAsWritten(PageCount(0));
    page := pager.page;
    within := pager.Within(PageCount(0));
  }
}
