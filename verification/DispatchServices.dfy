/**
 * The ten operations as the services write them: statement after statement on a
 * shared database, with other calls' statements in between. Every statement is one
 * action of the protocol, so whatever is proved of all its runs holds here.
 */
module DispatchServices {
  import opened Collections
  import opened Optional
  import opened Lifecycle
  import opened Eligibility
  import opened Dispatch
  import opened DispatchAlone
  import opened DispatchAnswers
  import DispatchProgress
  import DispatchSafety

  datatype Reply = Done(job: Job) | Refused(error: Error)

  /** Nobody else acts between this call's own statements. */
  ghost predicate Undisturbed(plan: seq<seq<Action>>) {
    forall k :: 0 <= k < |plan| ==> plan[k] == []
  }

  /** A run spelled out: the states it passes through, one more than its actions. */
  ghost predicate IsRun(start: State, states: seq<State>, actions: seq<Action>) {
    && |states| == |actions| + 1 && states[0] == start
    && forall i :: 0 <= i < |actions| ==> Linked(states, actions, i)
  }

  ghost predicate Linked(states: seq<State>, actions: seq<Action>, i: nat)
    requires i < |actions| < |states|
  {
    states[i + 1] == Step(states[i], actions[i])
  }

  lemma ExtendRun(start: State, states: seq<State>, actions: seq<Action>, a: Action, s: State)
    requires IsRun(start, states, actions) && s == Step(states[|actions|], a)
    ensures IsRun(start, states + [s], actions + [a])
  {
    forall i | 0 <= i < |actions + [a]|
      ensures Linked(states + [s], actions + [a], i)
    {
      assert i < |actions| ==> Linked(states, actions, i);
    }
  }

  lemma RunPrefix(start: State, states: seq<State>, actions: seq<Action>)
    requires IsRun(start, states, actions) && actions != []
    ensures IsRun(start, states[..|actions|], actions[..|actions| - 1])
  {
    var fewerStates, fewer := states[..|actions|], actions[..|actions| - 1];
    forall i | 0 <= i < |fewer|
      ensures Linked(fewerStates, fewer, i)
    {
      assert Linked(states, actions, i);
    }
  }

  lemma {:induction false} RunReaches(start: State, states: seq<State>, actions: seq<Action>)
    requires IsRun(start, states, actions)
    ensures states[|actions|] == After(start, actions)
  {
    if actions != [] {
      var n := |actions| - 1;
      assert Linked(states, actions, n);
      RunPrefix(start, states, actions);
      RunReaches(start, states[..n + 1], actions[..n]);
    }
  }

  lemma {:induction false} RunSuffix(start: State, states: seq<State>, actions: seq<Action>, from: nat, i: nat)
    requires IsRun(start, states, actions) && from <= i <= |actions|
    ensures states[i] == After(states[from], actions[from..i])
    decreases i
  {
    if from < i {
      var last := i - 1;
      RunSuffix(start, states, actions, from, last);
      assert Linked(states, actions, last);
      assert actions[from..i] == actions[from..last] + [actions[last]];
      assert (actions[from..last] + [actions[last]])[..last - from] == actions[from..last];
    }
  }

  /** The assignments a closing statement finds: the answered offer if still open, or all the active ones. */
  function Target(s: State, op: Op, only: Option<AssignmentId>): set<AssignmentId>
    requires op.Closes()
  {
    if only.Some? then {only.value} * OffersFor(s.db.assignments, op.job) else ActiveOf(s.db.assignments, op.job)
  }

  lemma ClosingVerdict(s: State, t: TxId)
    requires t in s.active && s.active[t].phase.Claimed? && s.active[t].op.Closes()
    requires !Advance(s, t, s.active[t]).Waits?
    ensures var op, phase := s.active[t].op, s.active[t].phase;
            var target := Target(s, op, phase.offer);
            var changed := Moved(s.db.assignments, target, op.CloseTo());
            && changed.Keys == target && |changed| == |target|
            && Advance(s, t, s.active[t]) ==
               if phase.offer.Some? && target == {} then Verdict.Refused(OfferGone)
               else Goes(OffersClosed(phase.seen, phase.row, changed))
  {
  }

  lemma OthersLeaveMyMemberAlone(s: State, a: Action, t: TxId, user: UserId)
    requires t in s.active && Holds(t, s.active[t], MemberRow(user)) && user in s.db.members
    ensures user in Step(s, a).db.members && Step(s, a).db.members[user] == s.db.members[user]
  {
    OnlyCommitsWrite(s, a);
  }

  class Database {
    var tables: Tables
    var active: map<TxId, Tx>
    var used: set<TxId>
    var log: seq<CommitRecord>
    ghost const start: State
    ghost var history: seq<Action>
    ghost var states: seq<State>

    function View(): State
      reads this
    {
      State(tables, active, used, log)
    }

    /** The database is where its history of actions has brought it, starting from empty tables. */
    ghost predicate Valid()
      reads this
    {
      Initial(start) && IsRun(start, states, history) && View() == states[|history|]
    }

    /** Everything proved of all runs of the protocol holds of the database. */
    lemma IsReachable()
      requires Valid()
      ensures View() == After(start, history)
    {
      RunReaches(start, states, history);
    }

    /** A running call is known, and has committed nothing. */
    lemma StillRunning(t: TxId)
      requires Valid() && t in active
      ensures t in used && forall i :: 0 <= i < |log| ==> log[i].tx != t
    {
      InvHolds();
    }

    lemma InvHolds()
      requires Valid()
      ensures DispatchSafety.Inv(View())
    {
      IsReachable();
      DispatchSafety.RunsKeepInv(start, history);
    }

    /** No constraint refuses the next statement of a call, and none past the job claim has to queue. */
    lemma NothingInTheWay(t: TxId)
      requires Valid() && t in active
      ensures Advance(View(), t, active[t]) !in {Verdict.Refused(AlreadyAssigned), Verdict.Refused(CheckViolation)}
      ensures active[t].phase.HasRow() ==> !Advance(View(), t, active[t]).Waits?
    {
      IsReachable();
      DispatchSafety.ConstraintsNeverFire(start, history, t);
      if active[t].phase.HasRow() && Advance(View(), t, active[t]).Waits? {
        DispatchProgress.AssignmentWritesNeverWait(start, history, t);
      }
    }

    /** A call that is over and has committed nothing. */
    ghost predicate Gone(t: TxId)
      reads this
    {
      t in used && t !in active && forall i :: 0 <= i < |log| ==> log[i].tx != t
    }

    /** Nothing of the past is forgotten. */
    ghost predicate Grown(h: seq<Action>, passed: seq<State>)
      reads this
    {
      h <= history && passed <= states
    }

    /** One action was added. */
    ghost predicate Appended(h: seq<Action>, passed: seq<State>, a: Action)
      reads this
    {
      history == h + [a] && states == passed + [View()]
    }

    /** Since a point of the history nobody but this call has acted. */
    ghost predicate OnlyMine(from: nat, t: TxId)
      reads this
    {
      forall i :: from <= i < |history| ==> Mine(history[i], t)
    }

    /** The state in which the last action was taken. */
    ghost function Before(): State
      reads this
      requires 0 < |history| < |states|
    {
      states[|history| - 1]
    }

    /** The last action ended this call with an error: a refused statement, or giving up on a lock. */
    ghost predicate Stopped(t: TxId, op: Op, error: Error)
      reads this
    {
      && 0 < |history| < |states| && t in Before().active && Before().active[t].op == op
      && if error == LockTimeout
         then history[|history| - 1] == Abort(t) && Advance(Before(), t, Before().active[t]).Waits?
         else history[|history| - 1] == Run(t) && Advance(Before(), t, Before().active[t]) == Verdict.Refused(error)
    }

    /** The last action committed this call. */
    ghost predicate Committed(t: TxId, op: Op, row: Job)
      reads this
    {
      && 0 < |history| < |states| && t in Before().active && Before().active[t].op == op
      && history[|history| - 1] == Run(t)
      && Before().active[t].phase.Recorded? && Before().active[t].phase.row == row
      && log != [] && log[|log| - 1] == CommitRecord(t, op, JobOf(t, op))
      && Fits(Before().db, op) && Wrote(Before().db, t, op, row, tables)
    }

    /** A call that is over without a commit, and why. */
    ghost predicate Denied(t: TxId, op: Op, error: Error)
      reads this
    {
      Gone(t) && Stopped(t, op, error)
    }

    /** How a call ends: its reply shows the row it has just committed, or it committed nothing. */
    ghost predicate Ended(t: TxId, op: Op, r: Reply)
      reads this
    {
      && t in used && t !in active
      && (r.Done? ==> Committed(t, op, r.job))
      && (r.Refused? ==> Denied(t, op, r.error))
    }

    /** Why a call was refused, on the rows it met last and on the committed row it had read since it began. */
    ghost predicate Explained(from: nat, t: TxId, op: Op, error: Error)
      reads this
    {
      && 0 < |history| < |states| && t in Before().active && Before().active[t].op == op
      && Justified(Before(), t, Before().active[t], error)
      && (!op.Create? && Before().active[t].phase.HasSeen() ==> WasCommitted(from, op.job, Before().active[t].phase.seen))
    }

    /** The row was the job's committed one at some point of the history. */
    ghost predicate WasCommitted(from: nat, job: JobId, row: Job)
      reads this
    {
      exists k :: from <= k < |states| && CommittedAs(states[k].db, job, row)
    }

    constructor (organization: OrgId, defaultCap: int, hasCounter: bool, members: map<UserId, Membership>)
      ensures Valid() && history == []
      ensures tables == Tables(organization, defaultCap, hasCounter, members, map[], map[], map[], 0)
      ensures active == map[] && used == {} && log == []
    {
      tables := Tables(organization, defaultCap, hasCounter, members, map[], map[], map[], 0);
      active, used, log := map[], {}, [];
      start := State(Tables(organization, defaultCap, hasCounter, members, map[], map[], map[], 0), map[], {}, []);
      history := [];
      states := [State(Tables(organization, defaultCap, hasCounter, members, map[], map[], map[], 0), map[], {}, [])];
    }

    // -------------------------------------------------------------- other calls

    method Perform(a: Action)
      requires Valid()
      modifies this
      ensures Valid() && Appended(old(history), old(states), a) && View() == Step(old(View()), a)
    {
      var s := Step(View(), a);
      tables, active, used, log := s.db, s.active, s.used, s.log;
      ExtendRun(start, states, history, a, View());
      history, states := history + [a], states + [View()];
    }

    /** The membership row a call has locked is still as it was. */
    predicate MemberKept(t: TxId, before: map<UserId, Membership>, after: map<UserId, Membership>)
      reads this
      requires t in active
    {
      active[t].op.Offers() && Holds(t, active[t], MemberRow(active[t].op.agent)) && active[t].op.agent in before ==>
        active[t].op.agent in after && after[active[t].op.agent] == before[active[t].op.agent]
    }

    /** Other calls run some statements; what this call has done so far stays as it is. */
    method Interleave(t: TxId, others: seq<Action>)
      requires Valid() && t in active
      modifies this
      ensures Valid() && Grown(old(history), old(states))
      ensures t in active && active[t] == old(active[t]) && MemberKept(t, old(tables.members), tables.members)
      ensures others == [] ==> history == old(history)
    {
      for i := 0 to |others|
        invariant Valid() && Grown(old(history), old(states)) && (i == 0 ==> history == old(history))
        invariant t in active && active[t] == old(active[t]) && MemberKept(t, old(tables.members), tables.members)
      {
        if !Mine(others[i], t) {
          InvHolds();
          OthersLeaveMyCallAlone(View(), others[i], t);
          if active[t].op.Offers() && Holds(t, active[t], MemberRow(active[t].op.agent)) && active[t].op.agent in tables.members {
            OthersLeaveMyMemberAlone(View(), others[i], t, active[t].op.agent);
          }
          Perform(others[i]);
        }
      }
    }

    /** Waits in the lock queue of its next statement while others run; gives up if the lock is then still taken. */
    method Await(t: TxId, others: seq<Action>) returns (granted: bool)
      requires Valid() && t in active
      modifies this
      ensures Valid() && Grown(old(history), old(states))
      ensures granted ==> t in active && active[t] == old(active[t]) && !Advance(View(), t, active[t]).Waits?
      ensures granted ==> MemberKept(t, old(tables.members), tables.members)
      ensures !granted ==> Denied(t, old(active[t].op), LockTimeout)
      ensures others == [] ==> OnlyMine(|old(history)|, t)
    {
      Interleave(t, others);
      granted := !Advance(View(), t, active[t]).Waits?;
      if !granted {
        Rollback(t);
      }
    }

    // -------------------------------------------------------------- statements

    method Begin(t: TxId, op: Op)
      requires Valid() && t !in used
      modifies this
      ensures Valid() && Appended(old(history), old(states), Action.Begin(t, op))
      ensures t in active && active[t] == Tx(op, Called)
    {
      used := used + {t};
      active := active[t := Tx(op, Called)];
      ExtendRun(start, states, history, Action.Begin(t, op), View());
      history, states := history + [Action.Begin(t, op)], states + [View()];
    }

    method Rollback(t: TxId)
      requires Valid() && t in active
      modifies this
      ensures Valid() && Appended(old(history), old(states), Action.Abort(t)) && Gone(t)
    {
      StillRunning(t);
      active := active - {t};
      ExtendRun(start, states, history, Action.Abort(t), View());
      history, states := history + [Action.Abort(t)], states + [View()];
    }

    /** A test that fails ends the call with its error. */
    method Refuse(t: TxId, error: Error)
      requires Valid() && t in active && Advance(View(), t, active[t]) == Verdict.Refused(error) && error != LockTimeout
      modifies this
      ensures Valid() && Appended(old(history), old(states), Run(t)) && Denied(t, old(active[t].op), error)
    {
      StillRunning(t);
      active := active - {t};
      ExtendRun(start, states, history, Run(t), View());
      history, states := history + [Run(t)], states + [View()];
    }

    /** The membership row's half of the locking read; without a row the call is over. */
    method TakeMembership(t: TxId) returns (found: bool)
      requires Valid() && t in active && active[t].phase.Called? && active[t].op.Offers()
      requires !Advance(View(), t, active[t]).Waits?
      modifies this
      ensures Valid() && Appended(old(history), old(states), Run(t)) && tables == old(tables)
      ensures found <==> old(active[t].op.agent) in tables.members
      ensures found ==> t in active && active[t] == Tx(old(active[t].op), MemberTaken)
      ensures !found ==> Denied(t, old(active[t].op), NotEligible)
    {
      StillRunning(t);
      var op := active[t].op;
      found := op.agent in tables.members;
      active := if found then active[t := Tx(op, MemberTaken)] else active - {t};
      ExtendRun(start, states, history, Run(t), View());
      history, states := history + [Run(t)], states + [View()];
    }

    /** The role row's half. */
    method TakeRole(t: TxId)
      requires Valid() && t in active && active[t].phase.MemberTaken? && active[t].op.Offers()
      requires active[t].op.agent in tables.members
      requires !Advance(View(), t, active[t]).Waits?
      modifies this
      ensures Valid() && Appended(old(history), old(states), Run(t)) && tables == old(tables)
      ensures t in active && active[t] == Tx(old(active[t].op), MemberLocked(tables.members[old(active[t].op.agent)].role))
    {
      var op := active[t].op;
      active := active[t := Tx(op, MemberLocked(tables.members[op.agent].role))];
      ExtendRun(start, states, history, Run(t), View());
      history, states := history + [Run(t)], states + [View()];
    }

    /** Locks the membership row and the role row it is joined with, waiting for each in turn. */
    method LockMembership(t: TxId, others: seq<Action>, more: seq<Action>) returns (failure: Option<Error>)
      requires Valid() && t in active && active[t].phase.Called? && active[t].op.Offers()
      modifies this
      ensures Valid() && Grown(old(history), old(states))
      ensures failure.None? ==>
                && t in active && active[t].op == old(active[t].op) && active[t].phase.MemberLocked?
                && active[t].op.agent in tables.members && tables.members[active[t].op.agent].role == active[t].phase.role
      ensures failure.Some? ==> failure.value in {LockTimeout, NotEligible} && Denied(t, old(active[t].op), failure.value)
      ensures others == [] && more == [] ==> OnlyMine(|old(history)|, t)
    {
      var agent := active[t].op.agent;
      var granted := Await(t, others);
      if !granted {
        return Some(LockTimeout);
      }
      var found := TakeMembership(t);
      if !found {
        return Some(NotEligible);
      }
      granted := LockRoleRow(t, more);
      failure := if granted then None else Some(LockTimeout);
    }

    /** The role row in its turn; the membership row stays locked meanwhile. */
    method LockRoleRow(t: TxId, others: seq<Action>) returns (granted: bool)
      requires Valid() && t in active && active[t].phase.MemberTaken? && active[t].op.Offers()
      requires active[t].op.agent in tables.members
      modifies this
      ensures Valid() && Grown(old(history), old(states))
      ensures granted ==>
                && t in active && active[t].op == old(active[t].op) && active[t].phase.MemberLocked?
                && active[t].op.agent in tables.members && tables.members[active[t].op.agent].role == active[t].phase.role
      ensures !granted ==> Denied(t, old(active[t].op), LockTimeout)
      ensures others == [] ==> OnlyMine(|old(history)|, t)
    {
      granted := Await(t, others);
      if granted {
        TakeRole(t);
      }
    }

    /** Counts the agent's active assignments and applies the eligibility rules to the locked row. */
    method CheckCap(t: TxId) returns (eligible: bool)
      requires Valid() && t in active && active[t].phase.MemberLocked? && active[t].op.Offers()
      modifies this
      ensures Valid() && Appended(old(history), old(states), Run(t))
      ensures tables == old(tables)
      ensures eligible <==> Dispatch.CheckCap(tables, old(active[t].op)) == Goes(CapChecked)
      ensures eligible ==> t in active && active[t] == Tx(old(active[t].op), CapChecked)
      ensures !eligible ==> Denied(t, old(active[t].op), NotEligible)
    {
      StillRunning(t);
      var op := active[t].op;
      var member := if op.agent in tables.members then Some(tables.members[op.agent]) else None;
      var count := |ActiveFor(tables.assignments, op.agent)|;
      var reasons, effectiveCap;
      eligible, reasons, effectiveCap := CheckAgentEligibility(member, tables.organization, count, tables.defaultCap);
      active := if eligible then active[t := Tx(op, CapChecked)] else active - {t};
      ExtendRun(start, states, history, Run(t), View());
      history, states := history + [Run(t)], states + [View()];
    }

    method FindJob(t: TxId) returns (job: Option<Job>)
      requires Valid() && t in active && !active[t].op.Create?
      requires active[t].phase == if active[t].op.Offers() then CapChecked else Called
      modifies this
      ensures Valid() && Appended(old(history), old(states), Run(t))
      ensures tables == old(tables)
      ensures job == if old(active[t].op.job) in tables.jobs then Some(tables.jobs[old(active[t].op.job)]) else None
      ensures job.Some? ==> t in active && active[t] == Tx(old(active[t].op), JobRead(job.value))
      ensures job.None? ==> Denied(t, old(active[t].op), NotFound)
    {
      StillRunning(t);
      var op := active[t].op;
      if op.job in tables.jobs {
        job := Some(tables.jobs[op.job]);
        active := active[t := Tx(op, JobRead(job.value))];
      } else {
        job := None;
        active := active - {t};
      }
      ExtendRun(start, states, history, Run(t), View());
      history, states := history + [Run(t)], states + [View()];
    }

    /** The actor's own newest open offer; a miss tells a lost race from no offer at all. */
    method FindOwnOffer(t: TxId) returns (offer: Option<AssignmentId>, error: Error)
      requires Valid() && t in active && active[t].phase.JobRead? && active[t].op.Responds()
      modifies this
      ensures Valid() && Appended(old(history), old(states), Run(t))
      ensures offer.Some? ==>
                && t in active
                && active[t] == Tx(old(active[t].op), OfferRead(old(active[t].phase.seen), offer.value))
      ensures offer.Some? ==>
                && offer.value in old(tables.assignments)
                && old(tables.assignments)[offer.value] == Assignment(active[t].op.job, active[t].op.actor, Offered)
      ensures offer.None? ==>
                && Denied(t, old(active[t].op), error)
                && !HasOpenOffer(old(tables.assignments), old(active[t].op.job), old(active[t].op.actor))
                && error == (if AnyOpenOffer(old(tables.assignments), old(active[t].op.job))
                             then VersionConflict(old(active[t].phase.seen.version), old(active[t].phase.seen.status))
                             else InvalidTransition(old(active[t].phase.seen.status)))
    {
      OpenOffers(tables.assignments, active[t].op.job, active[t].op.actor);
      StillRunning(t);
      var op, seen := active[t].op, active[t].phase.seen;
      var own := OwnOffers(tables.assignments, op.job, op.actor);
      error := InvalidTransition(seen.status);
      if own != {} {
        offer := Some(Newest(own));
        active := active[t := Tx(op, OfferRead(seen, offer.value))];
      } else {
        var rivals := OffersFor(tables.assignments, op.job);
        if rivals != {} {
          error := VersionConflict(seen.version, seen.status);
        }
        offer := None;
        active := active - {t};
      }
      ExtendRun(start, states, history, Run(t), View());
      history, states := history + [Run(t)], states + [View()];
    }

    predicate ReadyToClaim(t: TxId)
      reads this
    {
      t in active && !active[t].op.Create?
      && (if active[t].op.Responds() then active[t].phase.OfferRead? else active[t].phase.JobRead?)
      && Objection(active[t].op, active[t].phase.seen).None?
    }

    /** The conditional update of the job row: it counts the row if the `where` still holds on it. */
    method ClaimJob(t: TxId, where: JobWhere, data: JobUpdate) returns (count: nat, error: Error)
      requires Valid() && ReadyToClaim(t) && !Advance(View(), t, active[t]).Waits?
      requires where == WhereOf(active[t].op, active[t].phase.seen)
      requires data == UpdateOf(active[t].op, active[t].phase.seen)
      modifies this
      ensures Valid() && Appended(old(history), old(states), Run(t))
      ensures count == 1 <==> old(active[t].op.job) in old(tables.jobs)
                              && Matches(where, old(tables.jobs)[old(active[t].op.job)])
      ensures count == 1 ==>
                && t in active && active[t].op == old(active[t].op) && active[t].phase.Claimed?
                && active[t].phase.seen == old(active[t].phase.seen)
                && (active[t].op.Responds() ==> active[t].phase.offer == Some(old(active[t].phase.own)))
                && (!active[t].op.Responds() ==> active[t].phase.offer == None)
                && active[t].op.job in tables.jobs && active[t].phase.row == ApplyUpdate(tables.jobs[active[t].op.job], data)
      ensures count != 1 ==> count == 0 && Denied(t, old(active[t].op), error)
      ensures count != 1 ==>
                error == (if old(active[t].op.job) in old(tables.jobs)
                          then VersionConflict(old(tables.jobs)[old(active[t].op.job)].version,
                                               old(tables.jobs)[old(active[t].op.job)].status)
                          else NotFound)
    {
      StillRunning(t);
      NothingInTheWay(t);
      var op, phase := active[t].op, active[t].phase;
      if op.job in tables.jobs && Matches(where, tables.jobs[op.job]) {
        var offer := if op.Responds() then Some(phase.own) else None;
        count, error := 1, NotFound;
        active := active[t := Tx(op, Claimed(phase.seen, offer, ApplyUpdate(tables.jobs[op.job], data)))];
      } else {
        count := 0;
        error := NotFound;
        if op.job in tables.jobs {
          error := VersionConflict(tables.jobs[op.job].version, tables.jobs[op.job].status);
        }
        active := active - {t};
      }
      ExtendRun(start, states, history, Run(t), View());
      history, states := history + [Run(t)], states + [View()];
    }

    /** Nothing holds a closing statement up, so its effect is known. */
    lemma CloseStep(t: TxId)
      requires Valid() && t in active && active[t].phase.Claimed? && active[t].op.Closes()
      ensures
        var s, op, phase := View(), active[t].op, active[t].phase;
        var target := Target(s, op, phase.offer);
        if phase.offer.Some? && target == {}
        then Advance(s, t, s.active[t]) == Verdict.Refused(OfferGone) && Step(s, Run(t)) == s.(active := active - {t})
        else Step(s, Run(t)) ==
             s.(active := active[t := Tx(op, OffersClosed(phase.seen, phase.row, Moved(tables.assignments, target, op.CloseTo())))])
    {
      NothingInTheWay(t);
      ClosingVerdict(View(), t);
    }

    /** Moves the job's active assignments, or just the answered offer, to their closing state. */
    method CloseAssignments(t: TxId, only: Option<AssignmentId>, to: OfferState) returns (count: nat)
      requires Valid() && t in active && active[t].phase.Claimed? && active[t].op.Closes()
      requires only == active[t].phase.offer && to == active[t].op.CloseTo()
      modifies this
      ensures Valid() && Appended(old(history), old(states), Run(t))
      ensures count > 0 || only.None? ==>
                t in active && active[t].op == old(active[t].op) && active[t].phase.OffersClosed?
                && active[t].phase.seen == old(active[t].phase.seen) && active[t].phase.row == old(active[t].phase.row)
                && active[t].phase.changed == Moved(old(tables.assignments), Target(old(View()), active[t].op, only), to)
      ensures count == |Target(old(View()), old(active[t].op), only)|
      ensures count == 0 && only.Some? ==> Denied(t, old(active[t].op), OfferGone)
    {
      StillRunning(t);
      CloseStep(t);
      var op, phase := active[t].op, active[t].phase;
      var target := Target(View(), op, only);
      var changed := Moved(tables.assignments, target, to);
      count := |target|;
      if count == 0 && only.Some? {
        active := active - {t};
      } else {
        active := active[t := Tx(op, OffersClosed(phase.seen, phase.row, changed))];
      }
      ExtendRun(start, states, history, Run(t), View());
      history, states := history + [Run(t)], states + [View()];
    }

    /** Offers the job; the one-active index has nothing to object. */
    method CreateAssignment(t: TxId)
      requires Valid() && t in active && active[t].op.Offers()
      requires if active[t].op.Assign? then active[t].phase.Claimed? else active[t].phase.OffersClosed?
      modifies this
      ensures Valid() && Appended(old(history), old(states), Run(t))
      ensures t in active && active[t].op == old(active[t].op) && active[t].phase.OfferMade?
      ensures active[t].phase.seen == old(active[t].phase.seen) && active[t].phase.row == old(active[t].phase.row)
      ensures t in active[t].phase.changed
              && active[t].phase.changed[t] == Assignment(active[t].op.job, active[t].op.agent, Offered)
    {
      NothingInTheWay(t);
      var op, phase := active[t].op, active[t].phase;
      var before := if phase.Claimed? then map[] else phase.changed;
      active := active[t := Tx(op, OfferMade(phase.seen, phase.row, before[t := Assignment(op.job, op.agent, Offered)]))];
      ExtendRun(start, states, history, Run(t), View());
      history, states := history + [Run(t)], states + [View()];
    }

    predicate ReadyToRecord(t: TxId)
      reads this
    {
      && t in active
      && var op, phase := active[t].op, active[t].phase;
         if op.Offers() then phase.OfferMade? else if op.Closes() then phase.OffersClosed? else phase.Claimed?
    }

    method CreateEvent(t: TxId, from: Option<Status>, to: Status)
      requires Valid() && ReadyToRecord(t)
      requires Event(active[t].op.actor, from, to) == EventOf(active[t].op, active[t].phase.seen)
      modifies this
      ensures Valid() && Appended(old(history), old(states), Run(t))
      ensures t in active && active[t].op == old(active[t].op) && active[t].phase.Recorded?
      ensures active[t].phase.row == old(active[t].phase.row)
      ensures active[t].phase.event == Event(active[t].op.actor, from, to)
    {
      var op, phase := active[t].op, active[t].phase;
      var changed := if phase.Claimed? then map[] else phase.changed;
      active := active[t := Tx(op, Recorded(phase.seen, phase.row, changed, Event(op.actor, from, to)))];
      ExtendRun(start, states, history, Run(t), View());
      history, states := history + [Run(t)], states + [View()];
    }

    method Commit(t: TxId) returns (r: Reply)
      requires Valid() && t in active && active[t].phase.Recorded?
      modifies this
      ensures Valid() && Appended(old(history), old(states), Run(t))
      ensures r.Done? && r.job == old(active[t].phase.row) && Ended(t, old(active[t].op), r)
    {
      StillRunning(t);
      WritesAtCommit(t);
      OnlyCommitsWrite(View(), Run(t));
      var tx := active[t];
      var job := JobOf(t, tx.op);
      r := Done(tx.phase.row);
      tables := Merge(tables, t, tx.op, tx.phase);
      log := log + [CommitRecord(t, tx.op, job)];
      active := active - {t};
      ExtendRun(start, states, history, Run(t), View());
      history, states := history + [Run(t)], states + [View()];
    }

    /** Reads the locked counter row and raises it; without a row the call is over. */
    method NextCounterValue(t: TxId) returns (next: Option<nat>)
      requires Valid() && t in active && active[t].phase.Called? && active[t].op.Create?
      requires !Advance(View(), t, active[t]).Waits?
      modifies this
      ensures Valid() && Appended(old(history), old(states), Run(t))
      ensures next == if old(tables.hasCounter) then Some(old(tables.counter) + 1) else None
      ensures next.Some? ==> t in active && active[t] == Tx(old(active[t].op), Numbered(next.value))
      ensures next.None? ==> Denied(t, old(active[t].op), CounterMissing)
    {
      StillRunning(t);
      if tables.hasCounter {
        next := Some(tables.counter + 1);
        active := active[t := Tx(active[t].op, Numbered(next.value))];
      } else {
        next := None;
        active := active - {t};
      }
      ExtendRun(start, states, history, Run(t), View());
      history, states := history + [Run(t)], states + [View()];
    }

    method InsertJob(t: TxId, row: Job)
      requires Valid() && t in active && active[t].phase.Numbered? && active[t].op.Create?
      requires row == FreshJob(active[t].op, active[t].phase.number)
      modifies this
      ensures Valid() && Appended(old(history), old(states), Run(t))
      ensures t in active && active[t] == Tx(old(active[t].op), Claimed(row, None, row))
    {
      active := active[t := Tx(active[t].op, Claimed(row, None, row))];
      ExtendRun(start, states, history, Run(t), View());
      history, states := history + [Run(t)], states + [View()];
    }


    // -------------------------------------------------------------- what a commit and a refusal mean

    /** What a call is about to commit fits the committed rows, and is what its operation writes. */
    lemma WritesAtCommit(t: TxId)
      requires Valid() && t in active && active[t].phase.Recorded?
      ensures Fits(tables, active[t].op)
      ensures Wrote(tables, t, active[t].op, active[t].phase.row, Merge(tables, t, active[t].op, active[t].phase))
    {
      InvHolds();
      DispatchSafety.InvGivesCallOk(View(), t);
      CommitWrites(tables, t, active[t]);
      CommitFits(tables, t, active[t]);
    }

    lemma ReachedState(i: nat)
      requires Valid() && i <= |history|
      ensures states[i] == After(start, history[..i]) && DispatchSafety.Inv(states[i])
    {
      RunSuffix(start, states, history, 0, i);
      DispatchSafety.RunsKeepInv(start, history[..i]);
    }

    /** A refused call stands before its last statement, and what it read had been committed since it began. */
    lemma RefusalExplained(from: nat, t: TxId, op: Op, error: Error)
      requires Valid() && from < |history| && t !in states[from].used && Denied(t, op, error)
      ensures Explained(from, t, op, error)
    {
      var last: nat := |history| - 1;
      ReachedState(last);
      if error == LockTimeout {
        TimeoutsAreJustified(Before(), t);
      } else {
        RefusalsAreJustified(Before(), t, error);
      }
      if !op.Create? && Before().active[t].phase.HasSeen() {
        ReadSince(from, last, t);
      }
    }

    lemma ReadSince(from: nat, last: nat, t: TxId)
      requires Valid() && from <= last <= |history| && t !in states[from].used
      requires t in states[last].active && !states[last].active[t].op.Create? && states[last].active[t].phase.HasSeen()
      ensures WasCommitted(from, states[last].active[t].op.job, states[last].active[t].phase.seen)
    {
      ReachedState(from);
      RunSuffix(start, states, history, from, last);
      var k := SeenWasCommitted(states[from], history[from..last], t);
      var at := from + k;
      RunSuffix(start, states, history, from, at);
      assert history[from..last][..k] == history[from..at];
      assert CommittedAs(states[at].db, states[last].active[t].op.job, states[last].active[t].phase.seen);
    }

    /** Until its last statement a call that met nobody has changed no table; one that is sure to succeed has done so. */
    lemma AnsweredAlone(from: nat, t: TxId, op: Op, r: Reply)
      requires Valid() && from < |history| && t !in states[from].used && history[from] == Action.Begin(t, op)
      requires Ended(t, op, r) && OnlyMine(from, t)
      ensures Before().db == states[from].db
      ensures Sure(states[from], op) ==>
                && r.Done?
                && r.job == if op.Create? then FreshJob(op, states[from].db.counter + 1)
                            else RowAfter(states[from].db.jobs[op.job], op, states[from].db.jobs[op.job].version + 1)
    {
      var k := AloneUntilTheEnd(from, t, op, r);
      if Sure(states[from], op) {
        ReachedState(from);
        SureIsDone(states[from], t, op, r, k);
      }
    }

    lemma AloneUntilTheEnd(from: nat, t: TxId, op: Op, r: Reply) returns (k: nat)
      requires Valid() && from < |history| && t !in states[from].used && history[from] == Action.Begin(t, op)
      requires Ended(t, op, r) && OnlyMine(from, t)
      ensures Before().db == states[from].db && Before() == After(With(states[from], t, Tx(op, Called)), Runs(t, k))
    {
      var last: nat := |history| - 1;
      assert last > from;
      RunSuffix(start, states, history, from, last);
      k := OwnActionsAreRuns(states[from], t, op, history[from..last]);
    }

    lemma SureIsDone(s: State, t: TxId, op: Op, r: Reply, k: nat)
      requires DispatchSafety.Inv(s) && Sure(s, op) && t !in s.used && Ended(t, op, r)
      requires Before() == After(With(s, t, Tx(op, Called)), Runs(t, k))
      ensures r.Done?
      ensures r.job == if op.Create? then FreshJob(op, s.db.counter + 1)
                       else RowAfter(s.db.jobs[op.job], op, s.db.jobs[op.job].version + 1)
    {
      var n, ready := SureGetsReady(s, t, op);
      NoStopOnTheWay(s, t, op, n, ready, k);
    }

    // -------------------------------------------------------------- stretches the operations share

    method OpenJob(t: TxId, op: Op, others: seq<Action>) returns (found: Option<Job>)
      requires Valid() && t !in used && !op.Create? && !op.Offers()
      modifies this
      ensures Valid() && Started(old(history), old(states), t, op)
      ensures found.Some? ==> t in active && active[t] == Tx(op, JobRead(found.value))
      ensures found.None? ==> Denied(t, op, NotFound)
      ensures others == [] ==> OnlyMine(|old(history)|, t)
    {
      Begin(t, op);
      Interleave(t, others);
      found := FindJob(t);
    }

    /** The history goes on with this call's beginning. */
    ghost predicate Started(h: seq<Action>, passed: seq<State>, t: TxId, op: Op)
      reads this
    {
      Grown(h, passed) && |h| < |history| && history[|h|] == Action.Begin(t, op)
    }

    /** Assign and reassign take the membership lock before anything else. */
    method OpenOffer(t: TxId, op: Op, plan: seq<seq<Action>>) returns (found: Option<Job>, error: Error)
      requires Valid() && t !in used && op.Offers()
      modifies this
      ensures Valid() && Started(old(history), old(states), t, op)
      ensures found.Some? ==> t in active && active[t] == Tx(op, JobRead(found.value))
      ensures found.None? ==> Denied(t, op, error)
      ensures Undisturbed(plan) ==> OnlyMine(|old(history)|, t)
    {
      Begin(t, op);
      var failure := LockMembership(t, Gap(plan, 0), Gap(plan, 1));
      if failure.Some? {
        return None, failure.value;
      }
      found, error := CheckThenFind(t, Gap(plan, 2), Gap(plan, 3));
    }

    /** Under the membership lock the rules are checked, then the job is read. */
    method CheckThenFind(t: TxId, others: seq<Action>, more: seq<Action>) returns (found: Option<Job>, error: Error)
      requires Valid() && t in active && active[t].phase.MemberLocked? && active[t].op.Offers()
      modifies this
      ensures Valid() && Grown(old(history), old(states))
      ensures found.Some? ==> t in active && active[t] == Tx(old(active[t].op), JobRead(found.value))
      ensures found.None? ==> Denied(t, old(active[t].op), error)
      ensures others == [] && more == [] ==> OnlyMine(|old(history)|, t)
    {
      Interleave(t, others);
      var eligible := CheckCap(t);
      if !eligible {
        return None, NotEligible;
      }
      Interleave(t, more);
      found := FindJob(t);
      error := NotFound;
    }

    /** Accept and decline read the job, then the actor's own offer. */
    method OpenAnswer(t: TxId, op: Op, plan: seq<seq<Action>>)
      returns (seen: Option<Job>, offer: AssignmentId, error: Error)
      requires Valid() && t !in used && op.Responds()
      modifies this
      ensures Valid() && Started(old(history), old(states), t, op)
      ensures seen.Some? ==> t in active && active[t] == Tx(op, OfferRead(seen.value, offer))
      ensures seen.None? ==> Denied(t, op, error)
      ensures Undisturbed(plan) ==> OnlyMine(|old(history)|, t)
    {
      offer := 0;
      seen := OpenJob(t, op, Gap(plan, 0));
      if seen.None? {
        return None, 0, NotFound;
      }
      Interleave(t, Gap(plan, 1));
      var own;
      own, error := FindOwnOffer(t);
      if own.None? {
        return None, 0, error;
      }
      offer := own.value;
    }

    /** Reads the job and tests the move and, where it is required, the ownership. */
    method OpenTransition(t: TxId, op: Op, to: Status, requireOwner: bool, others: seq<Action>)
      returns (found: Option<Job>, error: Error)
      requires Valid() && t !in used && op.Transitions() && to == op.To() && requireOwner == op.OwnerOnly()
      modifies this
      ensures Valid() && Started(old(history), old(states), t, op)
      ensures found.Some? ==> t in active && active[t] == Tx(op, JobRead(found.value)) && Objection(op, found.value).None?
      ensures found.None? ==> Denied(t, op, error)
      ensures others == [] ==> OnlyMine(|old(history)|, t)
    {
      error := NotFound;
      found := OpenJob(t, op, others);
      if found.None? {
        return;
      }
      if !CanTransition(found.value.status, to) {
        error := InvalidTransition(found.value.status);
      } else if requireOwner && found.value.assignee != Some(op.actor) {
        error := Forbidden;
      } else {
        return;
      }
      found := None;
      Refuse(t, error);
    }

    /** Waits for the job row, then claims it. */
    method ClaimInTurn(t: TxId, where: JobWhere, data: JobUpdate, others: seq<Action>) returns (lost: Option<Error>)
      requires Valid() && ReadyToClaim(t)
      requires where == WhereOf(active[t].op, active[t].phase.seen)
      requires data == UpdateOf(active[t].op, active[t].phase.seen)
      modifies this
      ensures Valid() && Grown(old(history), old(states))
      ensures lost.None? ==>
                && t in active && active[t].op == old(active[t].op) && active[t].phase.Claimed?
                && active[t].phase.seen == old(active[t].phase.seen)
                && (active[t].op.Responds() ==> active[t].phase.offer == Some(old(active[t].phase.own)))
                && (!active[t].op.Responds() ==> active[t].phase.offer == None)
                && active[t].op.job in tables.jobs
                && active[t].phase.row == ApplyUpdate(tables.jobs[active[t].op.job], data)
      ensures lost.Some? ==> Denied(t, old(active[t].op), lost.value)
      ensures others == [] ==> OnlyMine(|old(history)|, t)
    {
      var granted := Await(t, others);
      if !granted {
        return Some(LockTimeout);
      }
      var count, error := ClaimJob(t, where, data);
      lost := if count == 0 then Some(error) else None;
    }

    /** Closes the job's active assignments where the operation asks for it. */
    method CloseIfAsked(t: TxId, closeAssignmentsTo: Option<OfferState>, others: seq<Action>)
      requires Valid() && t in active && active[t].phase.Claimed? && active[t].phase.offer.None? && !active[t].op.Offers()
      requires closeAssignmentsTo == if active[t].op.Closes() then Some(active[t].op.CloseTo()) else None
      modifies this
      ensures Valid() && Grown(old(history), old(states)) && ReadyToRecord(t)
      ensures active[t].op == old(active[t].op)
      ensures active[t].phase.seen == old(active[t].phase.seen) && active[t].phase.row == old(active[t].phase.row)
      ensures others == [] ==> OnlyMine(|old(history)|, t)
    {
      if closeAssignmentsTo.Some? {
        Interleave(t, others);
        var _ := CloseAssignments(t, None, closeAssignmentsTo.value);
      }
    }

    /** Moves the answered offer alone; an offer that is no longer open ends the call. */
    method MoveOwnOffer(t: TxId, offer: AssignmentId, to: OfferState, others: seq<Action>) returns (moved: bool)
      requires Valid() && t in active && active[t].phase.Claimed? && active[t].phase.offer == Some(offer)
      requires active[t].op.Responds() && to == active[t].op.CloseTo()
      modifies this
      ensures Valid() && Grown(old(history), old(states))
      ensures moved ==>
                && ReadyToRecord(t) && active[t].op == old(active[t].op)
                && active[t].phase.seen == old(active[t].phase.seen) && active[t].phase.row == old(active[t].phase.row)
      ensures !moved ==> Denied(t, old(active[t].op), OfferGone)
      ensures others == [] ==> OnlyMine(|old(history)|, t)
    {
      Interleave(t, others);
      var count := CloseAssignments(t, Some(offer), to);
      moved := count > 0;
    }

    /** Revokes the job's active assignments, then makes the new offer. */
    method MoveOffer(t: TxId, others: seq<Action>, more: seq<Action>)
      requires Valid() && t in active && active[t].phase.Claimed? && active[t].phase.offer.None? && active[t].op.Reassign?
      modifies this
      ensures Valid() && Grown(old(history), old(states)) && ReadyToRecord(t)
      ensures active[t].op == old(active[t].op)
      ensures active[t].phase.seen == old(active[t].phase.seen) && active[t].phase.row == old(active[t].phase.row)
      ensures others == [] && more == [] ==> OnlyMine(|old(history)|, t)
    {
      Interleave(t, others);
      var _ := CloseAssignments(t, None, OfferRevoked);
      Interleave(t, more);
      CreateAssignment(t);
    }

    /** Writes the event and commits. */
    method Finish(t: TxId, from: Option<Status>, to: Status, others: seq<Action>, more: seq<Action>) returns (r: Reply)
      requires Valid() && ReadyToRecord(t)
      requires Event(active[t].op.actor, from, to) == EventOf(active[t].op, active[t].phase.seen)
      modifies this
      ensures Valid() && Grown(old(history), old(states))
      ensures r.Done? && r.job == old(active[t].phase.row) && Ended(t, old(active[t].op), r)
      ensures others == [] && more == [] ==> OnlyMine(|old(history)|, t)
    {
      Record(t, from, to, others);
      Interleave(t, more);
      r := Commit(t);
    }

    method Record(t: TxId, from: Option<Status>, to: Status, others: seq<Action>)
      requires Valid() && ReadyToRecord(t)
      requires Event(active[t].op.actor, from, to) == EventOf(active[t].op, active[t].phase.seen)
      modifies this
      ensures Valid() && Grown(old(history), old(states)) && t in active && active[t].op == old(active[t].op)
      ensures active[t].phase.Recorded? && active[t].phase.row == old(active[t].phase.row)
      ensures others == [] ==> OnlyMine(|old(history)|, t)
    {
      Interleave(t, others);
      CreateEvent(t, from, to);
    }

    /** The committed assignments fit the committed row. */
    lemma AssignmentsFit(job: JobId)
      requires Valid() && job in tables.jobs
      ensures tables.jobs[job].status == Assigned ==>
                tables.jobs[job].assignee.Some?
                && DispatchSafety.OneActive(tables.assignments, job, tables.jobs[job].assignee.value, Offered)
      ensures tables.jobs[job].status == Accepted ==>
                tables.jobs[job].assignee.Some?
                && DispatchSafety.OneActive(tables.assignments, job, tables.jobs[job].assignee.value, OfferAccepted)
      ensures tables.jobs[job].status == Pending || Terminal(tables.jobs[job].status) ==>
                ActiveOf(tables.assignments, job) == {}
    {
      IsReachable();
      assert job in After(start, history).db.jobs;
      DispatchSafety.JobsAndAssignmentsAgree(start, history);
    }

    /** What every operation answers for, once it has ended. */
    lemma Answered(h: seq<Action>, passed: seq<State>, t: TxId, op: Op, r: Reply, alone: bool)
      requires Valid() && Started(h, passed, t, op) && |passed| == |h| + 1 && t !in passed[|h|].used
      requires Ended(t, op, r) && (alone ==> OnlyMine(|h|, t))
      ensures r.Refused? ==> Explained(|h|, t, op, r.error) && MayBeTold(op, r.error)
      ensures alone ==> Before().db == passed[|h|].db
      ensures alone && Sure(passed[|h|], op) ==>
                r.Done? && r.job.version == if op.Create? then 1 else passed[|h|].db.jobs[op.job].version + 1
    {
      if r.Refused? {
        RefusalTold(h, passed, t, op, r.error);
      }
      if alone {
        AloneTold(h, passed, t, op, r);
      }
    }

    lemma RefusalTold(h: seq<Action>, passed: seq<State>, t: TxId, op: Op, error: Error)
      requires Valid() && Started(h, passed, t, op) && |passed| == |h| + 1 && t !in passed[|h|].used
      requires Denied(t, op, error)
      ensures Explained(|h|, t, op, error) && MayBeTold(op, error)
    {
      assert states[|h|] == passed[|h|];
      RefusalExplained(|h|, t, op, error);
      ToldAtTheEnd(t, op, error);
    }

    lemma AloneTold(h: seq<Action>, passed: seq<State>, t: TxId, op: Op, r: Reply)
      requires Valid() && Started(h, passed, t, op) && |passed| == |h| + 1 && t !in passed[|h|].used
      requires Ended(t, op, r) && OnlyMine(|h|, t)
      ensures Before().db == passed[|h|].db
      ensures Sure(passed[|h|], op) ==>
                r.Done? && r.job.version == if op.Create? then 1 else passed[|h|].db.jobs[op.job].version + 1
    {
      assert states[|h|] == passed[|h|];
      AnsweredAlone(|h|, t, op, r);
    }

    lemma ToldAtTheEnd(t: TxId, op: Op, error: Error)
      requires Valid() && 0 < |history| && t in Before().active && Before().active[t].op == op
      requires Justified(Before(), t, Before().active[t], error)
      ensures MayBeTold(op, error)
    {
      ReachedState(|history| - 1);
      DispatchSafety.InvGivesCallOk(Before(), t);
      GroundsAreTold(Before(), t, Before().active[t], error);
    }

    // -------------------------------------------------------------- job service

    method ExecuteCreate(t: TxId, actor: UserId, year: nat, data: Details, plan: seq<seq<Action>>) returns (r: Reply)
      requires Valid() && t !in used
      modifies this
      ensures Valid() && Started(old(history), old(states), t, Op.Create(actor, year, data))
      ensures Ended(t, Op.Create(actor, year, data), r)
      ensures Undisturbed(plan) ==> OnlyMine(|old(history)|, t)
    {
      var number, error := OpenCreate(t, Op.Create(actor, year, data), Gap(plan, 0));
      if number.None? {
        return Reply.Refused(error);
      }
      Interleave(t, Gap(plan, 1));
      InsertJob(t, Job(year, number.value, Pending, 1, None, None, data));
      r := Finish(t, None, Pending, Gap(plan, 2), Gap(plan, 3));
    }

    /** The counter row is locked, read and raised before anything is inserted. */
    method OpenCreate(t: TxId, op: Op, others: seq<Action>) returns (number: Option<nat>, error: Error)
      requires Valid() && t !in used && op.Create?
      modifies this
      ensures Valid() && Started(old(history), old(states), t, op)
      ensures number.Some? ==> t in active && active[t] == Tx(op, Numbered(number.value))
      ensures number.None? ==> Denied(t, op, error)
      ensures others == [] ==> OnlyMine(|old(history)|, t)
    {
      Begin(t, op);
      var granted := Await(t, others);
      if !granted {
        return None, LockTimeout;
      }
      number := NextCounterValue(t);
      error := CounterMissing;
    }

    method CreateJob(t: TxId, actor: UserId, year: nat, data: Details, plan: seq<seq<Action>>) returns (r: Reply)
      requires Valid() && t !in used
      modifies this
      ensures Valid() && Grown(old(history), old(states)) && Ended(t, Op.Create(actor, year, data), r)
      ensures r.Done? ==> r.job == Job(year, Before().db.counter + 1, Pending, 1, None, None, data)
      ensures r.Done? ==> tables.counter == r.job.number && tables.assignments == Before().db.assignments
      ensures r.Refused? ==> r.error in {CounterMissing, LockTimeout}
      ensures r.Refused? ==> Explained(|old(history)|, t, Op.Create(actor, year, data), r.error)
      ensures Undisturbed(plan) ==> Before().db == old(tables)
      ensures Undisturbed(plan) && Sure(old(View()), Op.Create(actor, year, data)) ==> r.Done?
    {
      r := ExecuteCreate(t, actor, year, data, plan);
      Answered(old(history), old(states), t, Op.Create(actor, year, data), r, Undisturbed(plan));
    }

    /** The shared runner of start, complete, cancel and fail. */
    method Transition(t: TxId, op: Op, to: Status, completedAt: Option<int>, assignee: Option<Option<UserId>>,
                      requireOwner: bool, closeAssignmentsTo: Option<OfferState>, plan: seq<seq<Action>>)
      returns (r: Reply)
      requires Valid() && t !in used && op.Transitions() && to == op.To() && requireOwner == op.OwnerOnly()
      requires closeAssignmentsTo == if op.Closes() then Some(op.CloseTo()) else None
      requires completedAt == (if op.Complete? then Some(op.now) else None)
      requires assignee == if op.Cancel? then Some(None) else None
      modifies this
      ensures Valid() && Started(old(history), old(states), t, op) && Ended(t, op, r)
      ensures Undisturbed(plan) ==> OnlyMine(|old(history)|, t)
    {
      var found, error := OpenTransition(t, op, to, requireOwner, Gap(plan, 0));
      if found.None? {
        return Reply.Refused(error);
      }
      var current := found.value;
      r := ClaimAndClose(t, JobWhere(op.version, Some(current.status)),
                         JobUpdate(Some(to), current.version + 1, assignee, completedAt, map[]),
                         closeAssignmentsTo, current.status, to, plan);
    }

    method ClaimAndClose(t: TxId, where: JobWhere, data: JobUpdate, closeAssignmentsTo: Option<OfferState>,
                         from: Status, to: Status, plan: seq<seq<Action>>)
      returns (r: Reply)
      requires Valid() && ReadyToClaim(t) && active[t].op.Transitions()
      requires where == WhereOf(active[t].op, active[t].phase.seen)
      requires data == UpdateOf(active[t].op, active[t].phase.seen)
      requires closeAssignmentsTo == if active[t].op.Closes() then Some(active[t].op.CloseTo()) else None
      requires from == active[t].phase.seen.status && to == active[t].op.To()
      modifies this
      ensures Valid() && Grown(old(history), old(states)) && Ended(t, old(active[t].op), r)
      ensures Undisturbed(plan) ==> OnlyMine(|old(history)|, t)
    {
      var lost := ClaimInTurn(t, where, data, Gap(plan, 1));
      if lost.Some? {
        return Reply.Refused(lost.value);
      }
      CloseIfAsked(t, closeAssignmentsTo, Gap(plan, 2));
      r := Finish(t, Some(from), to, Gap(plan, 3), Gap(plan, 4));
    }

    /** Work on an accepted job begins. */
    method StartJob(t: TxId, actor: UserId, job: JobId, version: Option<int>, plan: seq<seq<Action>>)
      returns (r: Reply)
      requires Valid() && t !in used
      modifies this
      ensures Valid() && Grown(old(history), old(states)) && Ended(t, Op.Start(actor, job, version), r)
      ensures r.Done? ==> r.job.status == InProgress && r.job.assignee == Some(actor)
      ensures r.Done? ==> r.job == Before().db.jobs[job].(status := InProgress, version := r.job.version)
      ensures r.Done? ==> tables.assignments == Before().db.assignments
      ensures r.Refused? ==>
                r.error in {NotFound, Forbidden, LockTimeout} || r.error.VersionConflict? || r.error.InvalidTransition?
      ensures r.Refused? ==> Explained(|old(history)|, t, Op.Start(actor, job, version), r.error)
      ensures Undisturbed(plan) ==> Before().db == old(tables)
      ensures Undisturbed(plan) && Sure(old(View()), Op.Start(actor, job, version)) ==>
                r.Done? && r.job.version == old(tables).jobs[job].version + 1
    {
      r := Transition(t, Op.Start(actor, job, version), InProgress, None, None, true, None, plan);
      Answered(old(history), old(states), t, Op.Start(actor, job, version), r, Undisturbed(plan));
    }

    /** Work in progress is done. */
    method CompleteJob(t: TxId, actor: UserId, job: JobId, version: Option<int>, now: int, plan: seq<seq<Action>>)
      returns (r: Reply)
      requires Valid() && t !in used
      modifies this
      ensures Valid() && Grown(old(history), old(states)) && Ended(t, Op.Complete(actor, job, version, now), r)
      ensures r.Done? ==> r.job.status == Completed && r.job.assignee == Some(actor) && r.job.completedAt == Some(now)
      ensures r.Done? ==>
                r.job == Before().db.jobs[job].(status := Completed, completedAt := Some(now), version := r.job.version)
      ensures r.Done? ==> tables.assignments == Closed(Before().db.assignments, job, OfferCompleted)
      ensures r.Done? ==> ActiveOf(tables.assignments, job) == {}
      ensures r.Refused? ==>
                r.error in {NotFound, Forbidden, LockTimeout} || r.error.VersionConflict? || r.error.InvalidTransition?
      ensures r.Refused? ==> Explained(|old(history)|, t, Op.Complete(actor, job, version, now), r.error)
      ensures Undisturbed(plan) ==> Before().db == old(tables)
      ensures Undisturbed(plan) && Sure(old(View()), Op.Complete(actor, job, version, now)) ==>
                r.Done? && r.job.version == old(tables).jobs[job].version + 1
    {
      r := Transition(t, Op.Complete(actor, job, version, now), Completed, Some(now), None, true,
                      Some(OfferCompleted), plan);
      Answered(old(history), old(states), t, Op.Complete(actor, job, version, now), r, Undisturbed(plan));
      if r.Done? {
        AssignmentsFit(job);
      }
    }

    /** The job is called off; nobody owns it any more. */
    method CancelJob(t: TxId, actor: UserId, job: JobId, version: Option<int>, plan: seq<seq<Action>>)
      returns (r: Reply)
      requires Valid() && t !in used
      modifies this
      ensures Valid() && Grown(old(history), old(states)) && Ended(t, Op.Cancel(actor, job, version), r)
      ensures r.Done? ==> r.job.status == Cancelled && r.job.assignee == None
      ensures r.Done? ==>
                r.job == Before().db.jobs[job].(status := Cancelled, assignee := None, version := r.job.version)
      ensures r.Done? ==> tables.assignments == Closed(Before().db.assignments, job, OfferRevoked)
      ensures r.Done? ==> ActiveOf(tables.assignments, job) == {}
      ensures r.Refused? ==>
                r.error in {NotFound, LockTimeout} || r.error.VersionConflict? || r.error.InvalidTransition?
      ensures r.Refused? ==> Explained(|old(history)|, t, Op.Cancel(actor, job, version), r.error)
      ensures Undisturbed(plan) ==> Before().db == old(tables)
      ensures Undisturbed(plan) && Sure(old(View()), Op.Cancel(actor, job, version)) ==>
                r.Done? && r.job.version == old(tables).jobs[job].version + 1
    {
      r := Transition(t, Op.Cancel(actor, job, version), Cancelled, None, Some(None), false, Some(OfferRevoked), plan);
      Answered(old(history), old(states), t, Op.Cancel(actor, job, version), r, Undisturbed(plan));
      if r.Done? {
        AssignmentsFit(job);
      }
    }

    /** Work in progress has failed. */
    method FailJob(t: TxId, actor: UserId, job: JobId, version: Option<int>, plan: seq<seq<Action>>)
      returns (r: Reply)
      requires Valid() && t !in used
      modifies this
      ensures Valid() && Grown(old(history), old(states)) && Ended(t, Op.Fail(actor, job, version), r)
      ensures r.Done? ==> r.job.status == Failed && r.job.assignee == Some(actor)
      ensures r.Done? ==> r.job == Before().db.jobs[job].(status := Failed, version := r.job.version)
      ensures r.Done? ==> tables.assignments == Closed(Before().db.assignments, job, OfferRevoked)
      ensures r.Done? ==> ActiveOf(tables.assignments, job) == {}
      ensures r.Refused? ==>
                r.error in {NotFound, Forbidden, LockTimeout} || r.error.VersionConflict? || r.error.InvalidTransition?
      ensures r.Refused? ==> Explained(|old(history)|, t, Op.Fail(actor, job, version), r.error)
      ensures Undisturbed(plan) ==> Before().db == old(tables)
      ensures Undisturbed(plan) && Sure(old(View()), Op.Fail(actor, job, version)) ==>
                r.Done? && r.job.version == old(tables).jobs[job].version + 1
    {
      r := Transition(t, Op.Fail(actor, job, version), Failed, None, None, true, Some(OfferRevoked), plan);
      Answered(old(history), old(states), t, Op.Fail(actor, job, version), r, Undisturbed(plan));
      if r.Done? {
        AssignmentsFit(job);
      }
    }

    /** Reads the job before its transaction starts, then claims it by version alone. */
    method ExecutePatch(t: TxId, op: Op, plan: seq<seq<Action>>) returns (r: Reply)
      requires Valid() && t !in used && op.Patch?
      modifies this
      ensures Valid() && Started(old(history), old(states), t, op) && Ended(t, op, r)
      ensures Undisturbed(plan) ==> OnlyMine(|old(history)|, t)
    {
      var found := OpenJob(t, op, Gap(plan, 0));
      if found.None? {
        return Reply.Refused(NotFound);
      }
      var seen := found.value;
      if Terminal(seen.status) {
        Refuse(t, InvalidTransition(seen.status));
        return Reply.Refused(InvalidTransition(seen.status));
      }
      var lost := ClaimInTurn(t, JobWhere(op.version, None), JobUpdate(None, seen.version + 1, None, None, op.data),
                              Gap(plan, 1));
      if lost.Some? {
        return Reply.Refused(lost.value);
      }
      r := Finish(t, Some(seen.status), seen.status, Gap(plan, 2), Gap(plan, 3));
    }

    /** The given fields are changed, whatever else happens to the job. */
    method PatchJob(t: TxId, actor: UserId, job: JobId, version: Option<int>, data: Details, plan: seq<seq<Action>>)
      returns (r: Reply)
      requires Valid() && t !in used
      modifies this
      ensures Valid() && Grown(old(history), old(states)) && Ended(t, Op.Patch(actor, job, version, data), r)
      ensures r.Done? ==>
                r.job == Before().db.jobs[job].(details := Before().db.jobs[job].details + data, version := r.job.version)
      ensures r.Done? ==> tables.assignments == Before().db.assignments
      ensures r.Refused? ==>
                r.error in {NotFound, LockTimeout} || r.error.VersionConflict? || r.error.InvalidTransition?
      ensures r.Refused? ==> Explained(|old(history)|, t, Op.Patch(actor, job, version, data), r.error)
      ensures Undisturbed(plan) ==> Before().db == old(tables)
      ensures Undisturbed(plan) && Sure(old(View()), Op.Patch(actor, job, version, data)) ==>
                r.Done? && r.job.version == old(tables).jobs[job].version + 1
    {
      r := ExecutePatch(t, Op.Patch(actor, job, version, data), plan);
      Answered(old(history), old(states), t, Op.Patch(actor, job, version, data), r, Undisturbed(plan));
    }

    // -------------------------------------------------------------- assignment service

    method ExecuteAssign(t: TxId, op: Op, plan: seq<seq<Action>>) returns (r: Reply)
      requires Valid() && t !in used && op.Assign?
      modifies this
      ensures Valid() && Started(old(history), old(states), t, op) && Ended(t, op, r)
      ensures Undisturbed(plan) ==> OnlyMine(|old(history)|, t)
    {
      var found, error := OpenOffer(t, op, plan);
      if found.None? {
        return Reply.Refused(error);
      }
      var seen := found.value;
      if seen.status != Pending {
        Refuse(t, VersionConflict(seen.version, seen.status));
        return Reply.Refused(VersionConflict(seen.version, seen.status));
      }
      r := ClaimAndOffer(t, JobWhere(op.version, Some(Pending)),
                         JobUpdate(Some(Assigned), seen.version + 1, Some(Some(op.agent)), None, map[]), plan);
    }

    method ClaimAndOffer(t: TxId, where: JobWhere, data: JobUpdate, plan: seq<seq<Action>>) returns (r: Reply)
      requires Valid() && ReadyToClaim(t) && active[t].op.Assign?
      requires where == WhereOf(active[t].op, active[t].phase.seen)
      requires data == UpdateOf(active[t].op, active[t].phase.seen)
      modifies this
      ensures Valid() && Grown(old(history), old(states)) && Ended(t, old(active[t].op), r)
      ensures Undisturbed(plan) ==> OnlyMine(|old(history)|, t)
    {
      var lost := ClaimInTurn(t, where, data, Gap(plan, 4));
      if lost.Some? {
        return Reply.Refused(lost.value);
      }
      Interleave(t, Gap(plan, 5));
      CreateAssignment(t);
      r := Finish(t, Some(Pending), Assigned, Gap(plan, 6), Gap(plan, 7));
    }

    method ExecuteReassign(t: TxId, op: Op, plan: seq<seq<Action>>) returns (r: Reply)
      requires Valid() && t !in used && op.Reassign?
      modifies this
      ensures Valid() && Started(old(history), old(states), t, op) && Ended(t, op, r)
      ensures Undisturbed(plan) ==> OnlyMine(|old(history)|, t)
    {
      var found, error := OpenOffer(t, op, plan);
      if found.None? {
        return Reply.Refused(error);
      }
      var seen := found.value;
      if seen.status == Pending {
        Refuse(t, InvalidTransition(seen.status));
        return Reply.Refused(InvalidTransition(seen.status));
      }
      r := ClaimAndMove(t, JobWhere(op.version, Some(Assigned)),
                        JobUpdate(Some(Assigned), seen.version + 1, Some(Some(op.agent)), None, map[]), plan);
    }

    method ClaimAndMove(t: TxId, where: JobWhere, data: JobUpdate, plan: seq<seq<Action>>) returns (r: Reply)
      requires Valid() && ReadyToClaim(t) && active[t].op.Reassign?
      requires where == WhereOf(active[t].op, active[t].phase.seen)
      requires data == UpdateOf(active[t].op, active[t].phase.seen)
      modifies this
      ensures Valid() && Grown(old(history), old(states)) && Ended(t, old(active[t].op), r)
      ensures Undisturbed(plan) ==> OnlyMine(|old(history)|, t)
    {
      var lost := ClaimInTurn(t, where, data, Gap(plan, 4));
      if lost.Some? {
        return Reply.Refused(lost.value);
      }
      MoveOffer(t, Gap(plan, 5), Gap(plan, 6));
      r := Finish(t, Some(Assigned), Assigned, Gap(plan, 7), Gap(plan, 8));
    }

    /** Accept and decline differ in the status, the assignee and the state they write. */
    method ExecuteAnswer(t: TxId, op: Op, to: Status, assignee: Option<Option<UserId>>, moveTo: OfferState,
                         plan: seq<seq<Action>>)
      returns (r: Reply)
      requires Valid() && t !in used && op.Responds() && moveTo == op.CloseTo()
      requires to == (if op.Accept? then Accepted else Pending) && assignee == if op.Accept? then None else Some(None)
      modifies this
      ensures Valid() && Started(old(history), old(states), t, op) && Ended(t, op, r)
      ensures Undisturbed(plan) ==> OnlyMine(|old(history)|, t)
    {
      var found, offer, missing := OpenAnswer(t, op, plan);
      if found.None? {
        return Reply.Refused(missing);
      }
      var seen := found.value;
      if seen.status != Assigned {
        Refuse(t, InvalidTransition(seen.status));
        return Reply.Refused(InvalidTransition(seen.status));
      }
      r := ClaimAndAnswer(t, JobWhere(op.version, Some(Assigned)), JobUpdate(Some(to), seen.version + 1, assignee, None, map[]),
                          offer, to, moveTo, plan);
    }

    method ClaimAndAnswer(t: TxId, where: JobWhere, data: JobUpdate, offer: AssignmentId, to: Status, moveTo: OfferState,
                          plan: seq<seq<Action>>)
      returns (r: Reply)
      requires Valid() && ReadyToClaim(t) && active[t].op.Responds() && active[t].phase.own == offer
      requires where == WhereOf(active[t].op, active[t].phase.seen)
      requires data == UpdateOf(active[t].op, active[t].phase.seen)
      requires moveTo == active[t].op.CloseTo() && to == if active[t].op.Accept? then Accepted else Pending
      modifies this
      ensures Valid() && Grown(old(history), old(states)) && Ended(t, old(active[t].op), r)
      ensures Undisturbed(plan) ==> OnlyMine(|old(history)|, t)
    {
      var lost := ClaimInTurn(t, where, data, Gap(plan, 2));
      if lost.Some? {
        return Reply.Refused(lost.value);
      }
      var moved := MoveOwnOffer(t, offer, moveTo, Gap(plan, 3));
      if !moved {
        return Reply.Refused(OfferGone);
      }
      r := Finish(t, Some(Assigned), to, Gap(plan, 4), Gap(plan, 5));
    }

    /** A pending job is offered to an agent. A job that is no longer pending is a version conflict, never a wrong move. */
    method AssignJob(t: TxId, actor: UserId, job: JobId, agent: UserId, version: Option<int>, plan: seq<seq<Action>>)
      returns (r: Reply)
      requires Valid() && t !in used
      modifies this
      ensures Valid() && Grown(old(history), old(states)) && Ended(t, Op.Assign(actor, job, version, agent), r)
      ensures r.Done? ==> r.job.status == Assigned && r.job.assignee == Some(agent)
      ensures r.Done? ==>
                r.job == Before().db.jobs[job].(status := Assigned, assignee := Some(agent), version := r.job.version)
      ensures r.Done? ==> tables.assignments == Before().db.assignments[t := Assignment(job, agent, Offered)]
      ensures r.Done? ==> DispatchSafety.OneActive(tables.assignments, job, agent, Offered)
      ensures r.Refused? ==>
                r.error in {NotFound, NotEligible, LockTimeout} || r.error.VersionConflict?
      ensures r.Refused? ==> Explained(|old(history)|, t, Op.Assign(actor, job, version, agent), r.error)
      ensures Undisturbed(plan) ==> Before().db == old(tables)
      ensures Undisturbed(plan) && Sure(old(View()), Op.Assign(actor, job, version, agent)) ==>
                r.Done? && r.job.version == old(tables).jobs[job].version + 1
    {
      r := ExecuteAssign(t, Op.Assign(actor, job, version, agent), plan);
      Answered(old(history), old(states), t, Op.Assign(actor, job, version, agent), r, Undisturbed(plan));
      if r.Done? {
        AssignmentsFit(job);
      }
    }

    /** The open offer is revoked and the job offered to another agent. */
    method ReassignJob(t: TxId, actor: UserId, job: JobId, agent: UserId, version: Option<int>, plan: seq<seq<Action>>)
      returns (r: Reply)
      requires Valid() && t !in used
      modifies this
      ensures Valid() && Grown(old(history), old(states)) && Ended(t, Op.Reassign(actor, job, version, agent), r)
      ensures r.Done? ==> r.job.status == Assigned && r.job.assignee == Some(agent)
      ensures r.Done? ==>
                r.job == Before().db.jobs[job].(status := Assigned, assignee := Some(agent), version := r.job.version)
      ensures r.Done? ==>
                tables.assignments == Closed(Before().db.assignments, job, OfferRevoked)[t := Assignment(job, agent, Offered)]
      ensures r.Done? ==> DispatchSafety.OneActive(tables.assignments, job, agent, Offered)
      ensures r.Refused? ==>
                r.error in {NotFound, NotEligible, InvalidTransition(Pending), LockTimeout} || r.error.VersionConflict?
      ensures r.Refused? ==> Explained(|old(history)|, t, Op.Reassign(actor, job, version, agent), r.error)
      ensures Undisturbed(plan) ==> Before().db == old(tables)
      ensures Undisturbed(plan) && Sure(old(View()), Op.Reassign(actor, job, version, agent)) ==>
                r.Done? && r.job.version == old(tables).jobs[job].version + 1
    {
      r := ExecuteReassign(t, Op.Reassign(actor, job, version, agent), plan);
      Answered(old(history), old(states), t, Op.Reassign(actor, job, version, agent), r, Undisturbed(plan));
      if r.Done? {
        AssignmentsFit(job);
      }
    }

    /** The assignee takes the open offer. */
    method AcceptJob(t: TxId, actor: UserId, job: JobId, version: Option<int>, plan: seq<seq<Action>>)
      returns (r: Reply)
      requires Valid() && t !in used
      modifies this
      ensures Valid() && Grown(old(history), old(states)) && Ended(t, Op.Accept(actor, job, version), r)
      ensures r.Done? ==> r.job.status == Accepted && r.job.assignee == Some(actor)
      ensures r.Done? ==> r.job == Before().db.jobs[job].(status := Accepted, version := r.job.version)
      ensures r.Done? ==> tables.assignments == Closed(Before().db.assignments, job, OfferAccepted)
      ensures r.Done? ==> DispatchSafety.OneActive(tables.assignments, job, actor, OfferAccepted)
      ensures r.Refused? ==>
                r.error in {NotFound, OfferGone, LockTimeout} || r.error.VersionConflict? || r.error.InvalidTransition?
      ensures r.Refused? ==> Explained(|old(history)|, t, Op.Accept(actor, job, version), r.error)
      ensures Undisturbed(plan) ==> Before().db == old(tables)
      ensures Undisturbed(plan) && Sure(old(View()), Op.Accept(actor, job, version)) ==>
                r.Done? && r.job.version == old(tables).jobs[job].version + 1
    {
      r := ExecuteAnswer(t, Op.Accept(actor, job, version), Accepted, None, OfferAccepted, plan);
      Answered(old(history), old(states), t, Op.Accept(actor, job, version), r, Undisturbed(plan));
      if r.Done? {
        AssignmentsFit(job);
      }
    }

    /** The assignee turns the open offer down. */
    method DeclineJob(t: TxId, actor: UserId, job: JobId, version: Option<int>, plan: seq<seq<Action>>)
      returns (r: Reply)
      requires Valid() && t !in used
      modifies this
      ensures Valid() && Grown(old(history), old(states)) && Ended(t, Op.Decline(actor, job, version), r)
      ensures r.Done? ==> r.job.status == Pending && r.job.assignee == None
      ensures r.Done? ==> r.job == Before().db.jobs[job].(status := Pending, assignee := None, version := r.job.version)
      ensures r.Done? ==> tables.assignments == Closed(Before().db.assignments, job, OfferDeclined)
      ensures r.Done? ==> ActiveOf(tables.assignments, job) == {}
      ensures r.Refused? ==>
                r.error in {NotFound, OfferGone, LockTimeout} || r.error.VersionConflict? || r.error.InvalidTransition?
      ensures r.Refused? ==> Explained(|old(history)|, t, Op.Decline(actor, job, version), r.error)
      ensures Undisturbed(plan) ==> Before().db == old(tables)
      ensures Undisturbed(plan) && Sure(old(View()), Op.Decline(actor, job, version)) ==>
                r.Done? && r.job.version == old(tables).jobs[job].version + 1
    {
      r := ExecuteAnswer(t, Op.Decline(actor, job, version), Pending, Some(None), OfferDeclined, plan);
      Answered(old(history), old(states), t, Op.Decline(actor, job, version), r, Undisturbed(plan));
      if r.Done? {
        AssignmentsFit(job);
      }
    }
  }
}
