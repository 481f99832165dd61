/**
 One lease, seen as a machine over the successful calls that touch it, and what its history
 guarantees. LeaseExclusion shows that the store's four lease tables are such machines.
 */
module LeaseMachine {
  import opened Wrappers
  import opened Model

  datatype LeaseView = LeaseView(owner: string, expiresAt: Time)

  /** A successful claim, renewal or completion (release, ack, retry, dead letter, delete), or nothing. */
  datatype LeaseEvent =
    | Claimed(owner: string, now: Time, until: Time)
    | Renewed(owner: string, now: Time, until: Time)
    | Finished(owner: string)
    | Quiet

  ghost predicate Step(before: LeaseView, e: LeaseEvent, after: LeaseView) {
    match e
    case Claimed(owner, now, until) =>
      owner != "" && (before.owner == "" || before.expiresAt <= now) && after == LeaseView(owner, until)
    case Renewed(owner, now, until) =>
      before.owner == owner && before.expiresAt > now && after == LeaseView(owner, until)
    case Finished(owner) =>
      before.owner == owner && after.owner == ""
    case Quiet =>
      after.owner == before.owner && (before.owner != "" ==> after == before)
  }

  ghost predicate History(views: seq<LeaseView>, events: seq<LeaseEvent>) {
    |views| == |events| + 1 && views[0].owner == "" &&
    forall i :: 0 <= i < |events| ==> Step(views[i], events[i], views[i + 1])
  }

  /** A claim or renewal by a named owner. */
  predicate Extends(e: LeaseEvent) {
    e.Claimed? || (e.Renewed? && e.owner != "")
  }

  /** Nothing in events[from..to] claims, renews or completes. */
  ghost predicate Undisturbed(events: seq<LeaseEvent>, from: nat, to: nat)
    requires to <= |events|
  {
    forall m :: from <= m < to ==> !Extends(events[m]) && !events[m].Finished?
  }

  lemma {:induction false} ViewAfterExtension(views: seq<LeaseView>, events: seq<LeaseEvent>, i: nat, n: nat)
    requires History(views, events) && i < n <= |events| && Extends(events[i]) && Undisturbed(events, i + 1, n)
    ensures events[i].owner != "" && views[n] == LeaseView(events[i].owner, events[i].until)
    decreases n
  {
    assert Step(views[i], events[i], views[i + 1]);
    assert Step(views[n - 1], events[n - 1], views[n]);
    if n - 1 > i {
      ViewAfterExtension(views, events, i, n - 1);
    }
  }

  /**
   Exclusion: while a claim is neither completed nor past its last renewed expiry, no claim succeeds.
   */
  lemma Exclusion(views: seq<LeaseView>, events: seq<LeaseEvent>, i: nat, j: nat)
    requires History(views, events) && i < j < |events|
    requires Extends(events[i]) && Undisturbed(events, i + 1, j) && events[j].Claimed?
    ensures events[j].now >= events[i].until
  {
    ViewAfterExtension(views, events, i, j);
    assert Step(views[j], events[j], views[j + 1]);
  }

  /** Only the latest claimant renews, and only before its expiry. */
  lemma RenewalBelongsToHolder(views: seq<LeaseView>, events: seq<LeaseEvent>, i: nat, j: nat)
    requires History(views, events) && i < j < |events|
    requires Extends(events[i]) && Undisturbed(events, i + 1, j) && events[j].Renewed?
    ensures events[j].owner == events[i].owner && events[j].now < events[i].until
  {
    ViewAfterExtension(views, events, i, j);
    assert Step(views[j], events[j], views[j + 1]);
  }

  lemma {:induction false} ClaimBehind(views: seq<LeaseView>, events: seq<LeaseEvent>, n: nat) returns (i: nat)
    requires History(views, events) && n <= |events| && views[n].owner != ""
    ensures i < n && events[i].Claimed? && events[i].owner == views[n].owner
    ensures forall m :: i < m < n ==> !events[m].Claimed? && !events[m].Finished?
    decreases n
  {
    assert Step(views[n - 1], events[n - 1], views[n]);
    if events[n - 1].Claimed? {
      i := n - 1;
    } else {
      i := ClaimBehind(views, events, n - 1);
    }
  }

  /** A completion by a named owner comes only from the owner of the latest, still uncompleted claim. */
  lemma CompletionBelongsToClaimant(views: seq<LeaseView>, events: seq<LeaseEvent>, j: nat) returns (i: nat)
    requires History(views, events) && j < |events| && events[j].Finished? && events[j].owner != ""
    ensures i < j && events[i].Claimed? && events[i].owner == events[j].owner
    ensures forall m :: i < m < j ==> !events[m].Claimed? && !events[m].Finished?
  {
    assert Step(views[j], events[j], views[j + 1]);
    i := ClaimBehind(views, events, j);
  }
}
