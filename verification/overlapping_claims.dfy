/** Claim transactions that overlap: each selects and locks its rows, updates them later, and skips
    rows that others have locked. `t` is what is committed. */
module OverlappingClaims {
  import opened Options
  import opened Schema
  import opened ClaimSelection
  import opened QueueEngine

  /** An open claim: its time, the rows it locked, and the snapshots it will return. */
  datatype OpenClaim = OpenClaim(at: Time, scope: Scope, claimed: seq<ClaimedEvent>)

  datatype LockState = LockState(t: Tables, open: map<nat, OpenClaim>)

  /** `Others` is any statement of anybody else; it waits for row locks. */
  datatype LockStep =
    | Select(x: nat, now: Time, scope: Scope, limit: nat, claimed: seq<ClaimedEvent>)
    | Commit(x: nat)
    | Rollback(x: nat)
    | Others(u: Tables)

  datatype LockRun = Opened(t: Tables) | Then(prev: LockRun, step: LockStep)

  function RowsOf(claimed: seq<ClaimedEvent>): set<Id> {
    set c | c in claimed :: c.id
  }

  function LockedRows(open: map<nat, OpenClaim>): set<Id> {
    set x, c | x in open && c in open[x].claimed :: c.id
  }

  /** Locked rows stay as they are, and events keep what they are about. */
  ghost predicate RespectsLocks(s: LockState, u: Tables) {
    && (forall d :: d in LockedRows(s.open) && d in s.t.deliveries ==>
          d in u.deliveries && u.deliveries[d] == s.t.deliveries[d])
    && (forall e :: e in s.t.events ==>
          e in u.events && u.events[e].topic == s.t.events[e].topic && u.events[e].payload == s.t.events[e].payload)
  }

  ghost predicate CanDo(s: LockState, step: LockStep) {
    match step
    case Select(x, now, scope, limit, claimed) =>
      x !in s.open && Selected(s.t, scope, LockedRows(s.open), now, limit, claimed)
    case Commit(x) => x in s.open
    case Rollback(x) => x in s.open
    case Others(u) => RespectsLocks(s, u)
  }

  ghost function AfterLockStep(s: LockState, step: LockStep): LockState
    requires CanDo(s, step)
  {
    match step
    case Select(x, now, scope, _, claimed) => s.(open := s.open[x := OpenClaim(now, scope, claimed)])
    case Commit(x) =>
      LockState(ClaimRows(s.t, RowsOf(s.open[x].claimed) * s.t.deliveries.Keys, s.open[x].at), s.open - {x})
    case Rollback(x) => s.(open := s.open - {x})
    case Others(u) => s.(t := u)
  }

  ghost predicate PossibleLocks(run: LockRun)
    decreases run, 0
  {
    run.Opened? || (PossibleLocks(run.prev) && CanDo(LockEnd(run.prev), run.step))
  }

  ghost function LockEnd(run: LockRun): LockState
    requires PossibleLocks(run)
    decreases run, 1
  {
    match run
    case Opened(t) => LockState(t, map[])
    case Then(prev, step) => AfterLockStep(LockEnd(prev), step)
  }

  /** Every locked row is still as its claim saw it: due, pending, and equal to its snapshot. */
  ghost predicate StillClaimable(t: Tables, claim: OpenClaim) {
    SnapshotsOf(t, claim.claimed)
    && forall i :: 0 <= i < |claim.claimed| ==> Claimable(t, claim.scope, {}, claim.at, claim.claimed[i].id)
  }

  ghost predicate Disjoint(open: map<nat, OpenClaim>) {
    forall x, y :: x in open && y in open && x != y ==> RowsOf(open[x].claimed) !! RowsOf(open[y].claimed)
  }

  ghost predicate LocksHold(s: LockState) {
    Disjoint(s.open) && forall x :: x in s.open ==> StillClaimable(s.t, s.open[x])
  }

  lemma SelectKeepsLocks(s: LockState, step: LockStep)
    requires CanDo(s, step) && step.Select? && LocksHold(s)
    ensures LocksHold(AfterLockStep(s, step))
  {
    var claimed := step.claimed;
    forall i | 0 <= i < |claimed|
      ensures Claimable(s.t, step.scope, {}, step.now, claimed[i].id) && claimed[i].id !in LockedRows(s.open)
    {
      assert Ids(claimed)[i] in Ids(claimed);
    }
  }

  lemma OthersKeepLocks(s: LockState, u: Tables)
    requires RespectsLocks(s, u) && LocksHold(s)
    ensures LocksHold(AfterLockStep(s, Others(u)))
  {
    forall x | x in s.open ensures StillClaimable(u, s.open[x]) {
      var claimed := s.open[x].claimed;
      forall i | 0 <= i < |claimed|
        ensures claimed[i].id in u.deliveries && u.deliveries[claimed[i].id] == s.t.deliveries[claimed[i].id]
      {
        assert claimed[i].id in LockedRows(s.open);
      }
    }
  }

  lemma CommitKeepsLocks(s: LockState, x: nat)
    requires x in s.open && LocksHold(s)
    ensures LocksHold(AfterLockStep(s, Commit(x)))
  {
    var u := AfterLockStep(s, Commit(x));
    forall y | y in u.open ensures StillClaimable(u.t, u.open[y]) {
      var claimed := s.open[y].claimed;
      assert StillClaimable(s.t, s.open[y]);
      forall i | 0 <= i < |claimed| ensures claimed[i].id !in RowsOf(s.open[x].claimed) {
        assert claimed[i].id in RowsOf(claimed);
      }
    }
  }

  lemma {:induction false} OpenClaimsHold(run: LockRun)
    requires PossibleLocks(run)
    ensures LocksHold(LockEnd(run))
  {
    if run.Then? {
      var s := LockEnd(run.prev);
      OpenClaimsHold(run.prev);
      match run.step
      case Select(_, _, _, _, _) => SelectKeepsLocks(s, run.step);
      case Commit(x) => CommitKeepsLocks(s, x);
      case Others(u) => OthersKeepLocks(s, u);
      case Rollback(_) =>
    }
  }

  /** Overlapping claims take disjoint rows; and a commit takes each of its rows from `pending`, at
      the retry count that its claim returns, however long after the selection it happens. */
  lemma {:induction false} OverlappingClaimsDisjoint(run: LockRun, x: nat)
    requires PossibleLocks(run) && x in LockEnd(run).open
    ensures var s := LockEnd(run);
      var mine := s.open[x].claimed;
      && (forall y :: y in s.open && y != x ==> RowsOf(mine) !! RowsOf(s.open[y].claimed))
      && (forall c :: c in mine ==>
            && c.id in s.t.deliveries && s.t.deliveries[c.id].status == Pending
            && s.t.deliveries[c.id].retryCount == c.attempt
            && LockEnd(Then(run, Commit(x))).t.deliveries[c.id] ==
                 s.t.deliveries[c.id].(status := Processing, startedAt := Some(s.open[x].at)))
      && (forall d :: d in s.t.deliveries && d !in RowsOf(mine) ==>
            LockEnd(Then(run, Commit(x))).t.deliveries[d] == s.t.deliveries[d])
  {
    OpenClaimsHold(run);
    var s := LockEnd(run);
    assert StillClaimable(s.t, s.open[x]);
    assert PossibleLocks(Then(run, Commit(x)));
  }
}
