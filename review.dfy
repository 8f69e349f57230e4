/**
 * The pure derivations of AuditDashboard's review state: the `find` and
 * `filter` expressions over the issue list, and the `map` that records a
 * decision. The stateful handlers that use them are in AuditDashboard.
 */
module Review {
  import opened Wrappers
  import opened AuditTypes

  /** No two issues share an id (not enforced by the source; some lemmas assume it). */
  predicate UniqueIds(issues: seq<Issue>) {
    forall i, j :: 0 <= i < j < |issues| ==> issues[i].id != issues[j].id
  }

  /** Index of the first issue carrying `id`; `null` matches no issue. */
  function FindIndex(issues: seq<Issue>, id: Option<string>): (r: Option<nat>)
    ensures r.Some? ==> r.value < |issues| && id == Some(issues[r.value].id)
    ensures r.Some? ==> forall j :: 0 <= j < r.value ==> id != Some(issues[j].id)
    ensures r.None? ==> forall j :: 0 <= j < |issues| ==> id != Some(issues[j].id)
  {
    if issues == [] then None
    else if id == Some(issues[0].id) then Some(0)
    else match FindIndex(issues[1..], id)
      case None => None
      case Some(k) => Some(k + 1)
  }

  /** `issues.find(i => i.id === id)`. */
  function FindIssue(issues: seq<Issue>, id: Option<string>): (r: Option<Issue>)
    ensures r.Some? <==> FindIndex(issues, id).Some?
    ensures r.Some? ==> r.value == issues[FindIndex(issues, id).value] && id == Some(r.value.id)
  {
    match FindIndex(issues, id)
    case None => None
    case Some(k) => Some(issues[k])
  }

  /** The first issue carrying `id` exists and is pending. */
  predicate FirstMatchPending(issues: seq<Issue>, id: Option<string>) {
    FindIndex(issues, id).Some? && issues[FindIndex(issues, id).value].status == Pending
  }

  /** Index of the first still-pending issue in list order. */
  function FirstPendingIndex(issues: seq<Issue>): (r: Option<nat>)
    ensures r.Some? ==> r.value < |issues| && issues[r.value].status == Pending
    ensures r.Some? ==> forall j :: 0 <= j < r.value ==> issues[j].status != Pending
    ensures r.None? ==> forall j :: 0 <= j < |issues| ==> issues[j].status != Pending
  {
    if issues == [] then None
    else if issues[0].status == Pending then Some(0)
    else match FirstPendingIndex(issues[1..])
      case None => None
      case Some(k) => Some(k + 1)
  }

  /** `issues.find(i => i.status === 'pending')`. */
  function FirstPending(issues: seq<Issue>): (r: Option<Issue>)
    ensures r.Some? <==> FirstPendingIndex(issues).Some?
    ensures r.Some? ==> r.value == issues[FirstPendingIndex(issues).value]
  {
    match FirstPendingIndex(issues)
    case None => None
    case Some(k) => Some(issues[k])
  }

  /** The id the delayed advance selects: the first pending issue's, or `null`. */
  function NextActiveId(snapshot: seq<Issue>): (r: Option<string>)
    ensures r.None? <==> forall j :: 0 <= j < |snapshot| ==> snapshot[j].status != Pending
    ensures r.Some? ==> FirstPendingIndex(snapshot).Some? && r.value == snapshot[FirstPendingIndex(snapshot).value].id
  {
    match FirstPending(snapshot)
    case None => None
    case Some(i) => Some(i.id)
  }

  /** `issues.filter(i => i.status === 'pending').length`. */
  function PendingCount(issues: seq<Issue>): (r: nat)
    ensures r <= |issues|
    ensures r == 0 <==> forall j :: 0 <= j < |issues| ==> issues[j].status != Pending
  {
    if issues == [] then 0
    else
      assert forall j :: 1 <= j < |issues| ==> issues[j] == issues[1..][j - 1];
      (if issues[0].status == Pending then 1 else 0) + PendingCount(issues[1..])
  }

  /** How many pending issues carry `id` (one or none when ids are unique). */
  function PendingWithId(issues: seq<Issue>, id: string): nat {
    if issues == [] then 0
    else (if issues[0].status == Pending && issues[0].id == id then 1 else 0) + PendingWithId(issues[1..], id)
  }

  /** `{ ...i, status, notes }` for the issue whose id matches, `i` otherwise. */
  function Resolve(i: Issue, id: string, status: Status, notes: string): Issue {
    if i.id == id then i.(status := status, notes := Some(notes)) else i
  }

  /**
   * `issues.map(i => i.id === id ? { ...i, status, notes: currentNotes } : i)`:
   * same length and order; every issue with that id takes the decision and
   * the notes, every other issue is left as it was.
   */
  function UpdateIssues(issues: seq<Issue>, id: string, status: Status, notes: string): (r: seq<Issue>)
    ensures |r| == |issues|
    ensures forall k :: 0 <= k < |r| && issues[k].id != id ==> r[k] == issues[k]
    ensures forall k :: 0 <= k < |r| && issues[k].id == id ==>
      r[k].status == status && r[k].notes == Some(notes) &&
      r[k] == issues[k].(status := status, notes := Some(notes))
  {
    if issues == [] then [] else [Resolve(issues[0], id, status, notes)] + UpdateIssues(issues[1..], id, status, notes)
  }

  /** Recording a decision removes exactly the pending issues with that id from the count. */
  lemma {:induction false} PendingCountAfterUpdate(issues: seq<Issue>, id: string, status: Status, notes: string)
    requires status != Pending
    ensures PendingCount(UpdateIssues(issues, id, status, notes)) == PendingCount(issues) - PendingWithId(issues, id)
    ensures PendingWithId(issues, id) <= PendingCount(issues)
  {
    if issues != [] {
      var r := UpdateIssues(issues, id, status, notes);
      assert r[1..] == UpdateIssues(issues[1..], id, status, notes);
      PendingCountAfterUpdate(issues[1..], id, status, notes);
    }
  }

  /** With unique ids, the pending issues with a given id are just that one issue, if pending. */
  lemma {:induction false} PendingWithUniqueId(issues: seq<Issue>, k: nat)
    requires UniqueIds(issues) && k < |issues|
    ensures PendingWithId(issues, issues[k].id) == if issues[k].status == Pending then 1 else 0
  {
    if k == 0 {
      NoOtherWithId(issues[1..], issues[0].id);
    } else {
      assert issues[1..][k - 1] == issues[k];
      PendingWithUniqueId(issues[1..], k - 1);
    }
  }

  lemma {:induction false} NoOtherWithId(issues: seq<Issue>, id: string)
    requires forall j :: 0 <= j < |issues| ==> issues[j].id != id
    ensures PendingWithId(issues, id) == 0
  {
    if issues != [] {
      NoOtherWithId(issues[1..], id);
    }
  }

  /**
   * `pendingCount` drops by one when a pending issue is decided, and stays
   * put when an already decided issue is decided again.
   */
  lemma ResolveDecrementsPending(issues: seq<Issue>, k: nat, status: Status, notes: string)
    requires UniqueIds(issues) && k < |issues| && status != Pending
    ensures PendingCount(UpdateIssues(issues, issues[k].id, status, notes)) ==
      PendingCount(issues) - (if issues[k].status == Pending then 1 else 0)
  {
    PendingCountAfterUpdate(issues, issues[k].id, status, notes);
    PendingWithUniqueId(issues, k);
  }

  /**
   * Deciding the first pending issue moves the scan from the top strictly
   * past it: the advance never re-selects it or anything before it.
   */
  lemma AdvanceMovesForward(issues: seq<Issue>, status: Status, notes: string)
    requires FirstPendingIndex(issues).Some? && status != Pending
    ensures var k := FirstPendingIndex(issues).value;
      var next := FirstPendingIndex(UpdateIssues(issues, issues[k].id, status, notes));
      next.None? || next.value > k
  {
  }
}
