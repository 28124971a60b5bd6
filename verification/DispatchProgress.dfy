/**
 * No deadlock and no endless call: locks are taken in one order, so waiting never
 * closes a circle, somebody can always go on, and every move counts down.
 */
module DispatchProgress {
  import opened Dispatch
  import DispatchSafety

  /** Membership and counter rows come first, then the role, then the job, then the job's assignments. */
  function LockRank(lock: Lock): nat {
    match lock
    case MemberRow(_) => 0
    case CounterRow => 0
    case RoleRow(_) => 1
    case JobRow(_) => 2
    case AssignmentRow(_) => 3
    case OfferSlot(_) => 4
  }

  ghost predicate Blocked(s: State, t: TxId) {
    t in s.active && Advance(s, t, s.active[t]).Waits?
  }

  ghost predicate WaitsFor(s: State, t: TxId, u: TxId) {
    Blocked(s, t) && u in s.active && u != t && Holds(u, s.active[u], Advance(s, t, s.active[t]).lock)
  }

  ghost function AwaitedRank(s: State, t: TxId): nat
    requires Blocked(s, t)
  {
    LockRank(Advance(s, t, s.active[t]).lock)
  }

  // ---------------------------------------------------------------- lock order

  /** A call that waits already holds only locks of lower rank than the one it waits for. */
  lemma LocksComeInOrder(s: State, t: TxId, held: Lock)
    requires Blocked(s, t) && DispatchSafety.TxOk(s.db, t, s.active[t]) && Holds(t, s.active[t], held)
    ensures LockRank(held) < AwaitedRank(s, t)
  {
  }

  lemma WaitingHasAHolder(s: State, t: TxId) returns (u: TxId)
    requires Blocked(s, t)
    ensures WaitsFor(s, t, u)
  {
    var lock := Advance(s, t, s.active[t]).lock;
    assert HeldByOther(s, t, lock);
    u :| u in s.active && u != t && Holds(u, s.active[u], lock);
  }

  lemma AssignmentHoldersHoldTheJob(db: Tables, u: TxId, other: Tx, lock: Lock, t: TxId, tx: Tx)
    requires DispatchSafety.TxOk(db, u, other) && Holds(u, other, lock)
    requires DispatchSafety.TxOk(db, t, tx) && tx.op.Closes() && tx.phase.Claimed?
    requires lock.AssignmentRow? && lock.assignment in db.assignments && db.assignments[lock.assignment].job == tx.op.job
    ensures Holds(u, other, JobRow(tx.op.job))
  {
  }

  /** Nobody ever waits for an assignment row or an index entry: these are written under the job lock. */
  lemma AssignmentWritesNeverWait(start: State, actions: seq<Action>, t: TxId)
    requires Initial(start) && Blocked(After(start, actions), t)
    ensures var s := After(start, actions);
            !Advance(s, t, s.active[t]).lock.AssignmentRow? && !Advance(s, t, s.active[t]).lock.OfferSlot?
  {
    DispatchSafety.RunsKeepInv(start, actions);
    NeverWaits(After(start, actions), t);
  }

  lemma AwaitedEntries(s: State, t: TxId)
    requires Blocked(s, t)
    ensures var tx, lock := s.active[t], Advance(s, t, s.active[t]).lock;
            && (lock.AssignmentRow? ==>
                  && tx.op.Closes() && tx.phase.Claimed?
                  && lock.assignment in s.db.assignments && s.db.assignments[lock.assignment].job == tx.op.job)
            && (lock.OfferSlot? ==> tx.op.Offers() && tx.phase.HasRow() && lock.slot == tx.op.job)
  {
  }

  lemma NeverWaits(s: State, t: TxId)
    requires DispatchSafety.Exclusive(s.active) && Blocked(s, t)
    requires forall u :: u in s.active ==> DispatchSafety.TxOk(s.db, u, s.active[u])
    ensures !Advance(s, t, s.active[t]).lock.AssignmentRow? && !Advance(s, t, s.active[t]).lock.OfferSlot?
  {
    var tx, lock := s.active[t], Advance(s, t, s.active[t]).lock;
    AwaitedEntries(s, t);
    if lock.AssignmentRow? || lock.OfferSlot? {
      var u := WaitingHasAHolder(s, t);
      assert Holds(u, s.active[u], JobRow(tx.op.job)) by {
        if lock.AssignmentRow? {
          AssignmentHoldersHoldTheJob(s.db, u, s.active[u], lock, t, tx);
        }
      }
      assert Holds(t, tx, JobRow(tx.op.job));
    }
  }

  // ---------------------------------------------------------------- no circle of waiting calls

  lemma WaitingClimbs(s: State, t: TxId, u: TxId)
    requires DispatchSafety.Inv(s) && WaitsFor(s, t, u) && Blocked(s, u)
    ensures AwaitedRank(s, t) < AwaitedRank(s, u)
  {
    LocksComeInOrder(s, u, Advance(s, t, s.active[t]).lock);
  }

  /** The i-th call of a chain waits for the one after it; the last one's successor is the first. */
  ghost predicate WaitsForNext(s: State, chain: seq<TxId>, i: nat)
    requires i < |chain|
  {
    WaitsFor(s, chain[i], if i + 1 < |chain| then chain[i + 1] else chain[0])
  }

  /** Each call waits for the next one, and the last for the first. */
  ghost predicate WaitInACircle(s: State, circle: seq<TxId>) {
    forall i :: 0 <= i < |circle| ==> WaitsForNext(s, circle, i)
  }

  /** The i-th call and its successor both wait, the successor for a later lock. */
  ghost predicate Climbs(s: State, chain: seq<TxId>, i: nat)
    requires i < |chain|
  {
    var next := if i + 1 < |chain| then chain[i + 1] else chain[0];
    Blocked(s, chain[i]) && Blocked(s, next) && AwaitedRank(s, chain[i]) < AwaitedRank(s, next)
  }

  lemma LinkClimbs(s: State, circle: seq<TxId>, i: nat)
    requires DispatchSafety.Inv(s) && i < |circle| && WaitInACircle(s, circle)
    ensures Climbs(s, circle, i)
  {
    var next := if i + 1 < |circle| then i + 1 else 0;
    assert WaitsForNext(s, circle, i);
    assert WaitsForNext(s, circle, next);
    WaitingClimbs(s, circle[i], circle[next]);
  }

  predicate Lower(ranks: seq<nat>, i: nat)
    requires i + 1 < |ranks|
  {
    ranks[i] < ranks[i + 1]
  }

  lemma {:induction false} RanksClimb(ranks: seq<nat>, k: nat)
    requires k < |ranks| && forall i :: 0 <= i < |ranks| - 1 ==> Lower(ranks, i)
    ensures ranks[0] + k <= ranks[k]
  {
    if k > 0 {
      RanksClimb(ranks, k - 1);
      assert Lower(ranks, k - 1);
    }
  }

  /** The ranks of the locks that the calls of a circle wait for. */
  ghost function Ranks(s: State, circle: seq<TxId>): (ranks: seq<nat>)
    requires forall i :: 0 <= i < |circle| ==> Climbs(s, circle, i)
    ensures |ranks| == |circle|
    ensures forall i :: 0 <= i < |circle| ==> Blocked(s, circle[i]) && ranks[i] == AwaitedRank(s, circle[i])
  {
    assert forall i :: 0 <= i < |circle| ==> Blocked(s, circle[i]) by {
      forall i | 0 <= i < |circle|
        ensures Blocked(s, circle[i])
      {
        assert Climbs(s, circle, i);
      }
    }
    seq(|circle|, i requires 0 <= i < |circle| && Climbs(s, circle, i) => AwaitedRank(s, circle[i]))
  }

  lemma LinkLowers(s: State, circle: seq<TxId>, i: nat)
    requires i < |circle| && forall k :: 0 <= k < |circle| ==> Climbs(s, circle, k)
    ensures Ranks(s, circle)[i] < Ranks(s, circle)[if i + 1 < |circle| then i + 1 else 0]
  {
    assert Climbs(s, circle, i);
  }

  lemma NoCircle(s: State, circle: seq<TxId>)
    requires DispatchSafety.Inv(s) && circle != []
    ensures !WaitInACircle(s, circle)
  {
    if WaitInACircle(s, circle) {
      forall i | 0 <= i < |circle|
        ensures Climbs(s, circle, i)
      {
        LinkClimbs(s, circle, i);
      }
      var ranks, last := Ranks(s, circle), |circle| - 1;
      forall i | 0 <= i < last
        ensures Lower(ranks, i)
      {
        LinkLowers(s, circle, i);
      }
      RanksClimb(ranks, last);
      LinkLowers(s, circle, last);
    }
  }

  /** No reachable state has a circle of calls each waiting for the next. */
  lemma NoDeadlock(start: State, actions: seq<Action>, circle: seq<TxId>)
    requires Initial(start) && circle != []
    ensures !WaitInACircle(After(start, actions), circle)
  {
    DispatchSafety.RunsKeepInv(start, actions);
    NoCircle(After(start, actions), circle);
  }

  // ---------------------------------------------------------------- somebody can always go on

  lemma FindMover(s: State, t: TxId) returns (u: TxId)
    requires DispatchSafety.Inv(s) && t in s.active
    ensures u in s.active && !Blocked(s, u)
    decreases if Blocked(s, t) then 5 - AwaitedRank(s, t) else 0
  {
    u := t;
    if Blocked(s, t) {
      var holder := WaitingHasAHolder(s, t);
      if Blocked(s, holder) {
        WaitingClimbs(s, t, holder);
      }
      u := FindMover(s, holder);
    }
  }

  // ---------------------------------------------------------------- every move counts down

  function Remaining(phase: Phase): nat {
    match phase
    case Called => 10
    case MemberTaken => 9
    case MemberLocked(_) => 8
    case CapChecked => 7
    case Numbered(_) => 7
    case JobRead(_) => 6
    case OfferRead(_, _) => 5
    case Claimed(_, _, _) => 4
    case OffersClosed(_, _, _) => 3
    case OfferMade(_, _, _) => 2
    case Recorded(_, _, _, _) => 1
  }

  /** The statements all running calls together have left, at most. */
  ghost function Total(active: map<TxId, Tx>): nat
    decreases |active|
  {
    if active == map[] then 0
    else
      var t :| t in active;
      assert |active - {t}| < |active| by { assert (active - {t}).Keys == active.Keys - {t}; }
      Remaining(active[t].phase) + Total(active - {t})
  }

  lemma {:induction false} TotalSplits(active: map<TxId, Tx>, t: TxId)
    requires t in active
    ensures Total(active) == Remaining(active[t].phase) + Total(active - {t})
    decreases |active|
  {
    var u :| u in active && Total(active) == Remaining(active[u].phase) + Total(active - {u});
    if u != t {
      assert (active - {u}).Keys == active.Keys - {u} && (active - {t}).Keys == active.Keys - {t};
      TotalSplits(active - {u}, t);
      TotalSplits(active - {t}, u);
      assert active - {u} - {t} == active - {t} - {u};
    }
  }

  /** A statement of a call that need not wait uses up at least one of the statements left. */
  lemma MovesCountDown(s: State, t: TxId)
    requires t in s.active && !Blocked(s, t)
    ensures Total(Step(s, Run(t)).active) < Total(s.active)
    ensures Step(s, Run(t)).active.Keys <= s.active.Keys
  {
    TotalSplits(s.active, t);
    var after := Step(s, Run(t)).active;
    if t in after {
      TotalSplits(after, t);
      assert after - {t} == s.active - {t};
    } else {
      assert after == s.active - {t};
    }
  }

  lemma AbortCountsDown(s: State, t: TxId)
    ensures Total(Step(s, Abort(t)).active) <= Total(s.active)
    ensures t in s.active ==> Total(Step(s, Abort(t)).active) < Total(s.active)
  {
    if t in s.active {
      TotalSplits(s.active, t);
    } else {
      assert s.active - {t} == s.active;
    }
  }

  /** How many actions of a schedule actually moved or ended a call. */
  ghost function Moves(s: State, actions: seq<Action>): nat {
    if actions == [] then 0
    else Moves(s, actions[..|actions| - 1]) +
         var before := After(s, actions[..|actions| - 1]);
         if Step(before, actions[|actions| - 1]).active != before.active then 1 else 0
  }

  /** Whatever the schedule, a finite set of started calls makes finitely many moves: at most their total. */
  lemma {:induction false} SchedulesAreBounded(s: State, actions: seq<Action>)
    requires forall i :: 0 <= i < |actions| ==> !actions[i].Begin?
    ensures Moves(s, actions) + Total(After(s, actions).active) <= Total(s.active)
  {
    if actions != [] {
      var n := |actions| - 1;
      SchedulesAreBounded(s, actions[..n]);
      var before, a := After(s, actions[..n]), actions[n];
      assert !a.Begin?;
      match a
      case Run(t) => if t in before.active && !Blocked(before, t) { MovesCountDown(before, t); }
      case Abort(t) => AbortCountsDown(before, t);
      case PutMember(_, _) =>
    }
  }

  lemma OneMove(s: State) returns (t: TxId)
    requires DispatchSafety.Inv(s) && s.active != map[]
    ensures t in s.active && Total(Step(s, Run(t)).active) < Total(s.active)
    ensures Step(s, Run(t)).active.Keys <= s.active.Keys && DispatchSafety.Inv(Step(s, Run(t)))
  {
    var any :| any in s.active;
    t := FindMover(s, any);
    MovesCountDown(s, t);
    DispatchSafety.StepKeepsInv(s, Run(t));
  }

  lemma {:induction false} EndFrom(s: State) returns (more: seq<Action>)
    requires DispatchSafety.Inv(s)
    ensures forall i :: 0 <= i < |more| ==> more[i].Run? && more[i].tx in s.active
    ensures |more| <= Total(s.active) && After(s, more).active == map[]
    decreases Total(s.active)
  {
    if s.active == map[] {
      more := [];
    } else {
      var t := OneMove(s);
      var after := Step(s, Run(t));
      var rest := EndFrom(after);
      AfterAppend(s, [Run(t)], rest);
      assert After(s, [Run(t)]) == Step(After(s, []), Run(t));
      more := [Run(t)] + rest;
    }
  }

  /** From every reachable state, the calls that run can all be brought to commit or refusal, within their total. */
  lemma CallsRunToTheEnd(start: State, actions: seq<Action>) returns (more: seq<Action>)
    requires Initial(start)
    ensures forall i :: 0 <= i < |more| ==> more[i].Run? && more[i].tx in After(start, actions).active
    ensures |more| <= Total(After(start, actions).active)
    ensures After(start, actions + more).active == map[]
  {
    DispatchSafety.RunsKeepInv(start, actions);
    more := EndFrom(After(start, actions));
    AfterAppend(start, actions, more);
  }
}
