/**
 * A call that meets nobody in its way: enabled in a reachable state, it reaches its
 * commit by its own statements. Used to build the runs that show where a property stops.
 */
module DispatchAlone {
  import opened Optional
  import opened Lifecycle
  import opened Eligibility
  import opened Dispatch
  import DispatchProgress
  import DispatchSafety

  // ---------------------------------------------------------------- what a caller can check before the call

  ghost predicate Free(s: State, lock: Lock) {
    forall u :: u in s.active ==> !Holds(u, s.active[u], lock)
  }

  /** An available agent of the organization whose active assignments leave room under the cap, their own or the default. */
  predicate MayBeOffered(db: Tables, agent: UserId) {
    && agent in db.members
    && db.members[agent].organization == db.organization
    && db.members[agent].role == "AGENT"
    && db.members[agent].isAvailable
    && var cap := db.members[agent].concurrentJobCap;
       |ActiveFor(db.assignments, agent)| < if cap.Some? then cap.value else db.defaultCap
  }

  /** The user's own offer for the job is still open. */
  predicate HasOpenOffer(assignments: map<AssignmentId, Assignment>, job: JobId, user: UserId) {
    exists a :: a in assignments && assignments[a] == Assignment(job, user, Offered)
  }

  /** The job's committed row is one the operation is for. */
  predicate Applies(op: Op, job: Job) {
    match op
    case Create(_, _, _) => false
    case Assign(_, _, _, _) => job.status == Pending
    case Reassign(_, _, _, _) => job.status == Assigned
    case Accept(_, _, _) => job.status == Assigned
    case Decline(_, _, _) => job.status == Assigned
    case Start(actor, _, _) => job.status == Accepted && job.assignee == Some(actor)
    case Complete(actor, _, _, _) => job.status == InProgress && job.assignee == Some(actor)
    case Fail(actor, _, _) => job.status == InProgress && job.assignee == Some(actor)
    case Cancel(_, _, _) => job.status in {Pending, Assigned, Accepted, InProgress}
    case Patch(_, _, _, _) => job.status in {Pending, Assigned, Accepted, InProgress}
  }

  /** On the committed rows the operation applies to the job, and nobody holds a row it will lock. */
  ghost predicate Enabled(s: State, op: Op) {
    && !op.Create? && op.job in s.db.jobs && Free(s, JobRow(op.job))
    && Applies(op, s.db.jobs[op.job])
    && (op.Responds() ==> HasOpenOffer(s.db.assignments, op.job, op.actor))
    && (op.Offers() ==> MayBeOffered(s.db, op.agent) && Free(s, MemberRow(op.agent)) && Free(s, RoleRow("AGENT")))
  }

  lemma EnabledMatches(s: State, op: Op)
    requires Enabled(s, op)
    ensures var job := s.db.jobs[op.job];
            && Objection(op, job).None? && !Terminal(job.status)
            && (WhereOf(op, job).status.Some? ==> WhereOf(op, job).status.value == job.status)
    ensures op.Responds() ==> OwnOffers(s.db.assignments, op.job, op.actor) != {}
    ensures op.Offers() ==> CheckCap(s.db, op) == Goes(CapChecked)
  {
    if op.Responds() {
      var a :| a in s.db.assignments && s.db.assignments[a] == Assignment(op.job, op.actor, Offered);
      assert a in OwnOffers(s.db.assignments, op.job, op.actor);
    }
  }

  // ---------------------------------------------------------------- a call's own statements in a row

  function Runs(t: TxId, n: nat): seq<Action> {
    if n == 0 then [] else [Run(t)] + Runs(t, n - 1)
  }

  lemma {:induction false} RunsOnly(t: TxId, n: nat)
    ensures |Runs(t, n)| == n && forall i :: 0 <= i < n ==> Runs(t, n)[i] == Run(t)
  {
    if n > 0 {
      RunsOnly(t, n - 1);
    }
  }

  lemma AfterOne(s: State, a: Action, rest: seq<Action>)
    ensures After(s, [a] + rest) == After(Step(s, a), rest)
  {
    AfterAppend(s, [a], rest);
    assert After(s, [a]) == Step(After(s, []), a);
  }

  lemma AfterRuns(s: State, t: TxId, n: nat)
    requires n > 0
    ensures After(s, Runs(t, n)) == After(Step(s, Run(t)), Runs(t, n - 1))
  {
    AfterOne(s, Run(t), Runs(t, n - 1));
  }

  /** The state with one call more. */
  function With(s: State, t: TxId, tx: Tx): State {
    s.(used := s.used + {t}, active := s.active[t := tx])
  }

  lemma Moves(s: State, t: TxId, op: Op, from: Phase, to: Phase)
    requires Advance(With(s, t, Tx(op, from)), t, Tx(op, from)) == Goes(to)
    ensures Step(With(s, t, Tx(op, from)), Run(t)) == With(s, t, Tx(op, to))
  {
    assert s.active[t := Tx(op, from)][t := Tx(op, to)] == s.active[t := Tx(op, to)];
  }

  lemma FreeForMe(s: State, t: TxId, tx: Tx, lock: Lock)
    requires Free(s, lock)
    ensures !HeldByOther(With(s, t, tx), t, lock)
  {
  }

  // ---------------------------------------------------------------- up to the claim

  /** How far an enabled call comes before it claims the job, and in how many statements. */
  function Opened(s: State, op: Op): Phase
    requires !op.Create? && op.job in s.db.jobs
  {
    var own := if op.Responds() then OwnOffers(s.db.assignments, op.job, op.actor) else {};
    if own != {} then OfferRead(s.db.jobs[op.job], Newest(own))
    else JobRead(s.db.jobs[op.job])
  }

  function Opening(op: Op): nat {
    if op.Offers() then 4 else if op.Responds() then 2 else 1
  }

  lemma OfferOpens(s: State, t: TxId, op: Op)
    requires Enabled(s, op) && op.Offers()
    ensures After(With(s, t, Tx(op, Called)), Runs(t, 4)) == With(s, t, Tx(op, Opened(s, op)))
  {
    EnabledMatches(s, op);
    FreeForMe(s, t, Tx(op, Called), MemberRow(op.agent));
    FreeForMe(s, t, Tx(op, MemberTaken), RoleRow(AGENT));
    Moves(s, t, op, Called, MemberTaken);
    Moves(s, t, op, MemberTaken, MemberLocked(AGENT));
    Moves(s, t, op, MemberLocked(AGENT), CapChecked);
    Moves(s, t, op, CapChecked, Opened(s, op));
    AfterRuns(With(s, t, Tx(op, Called)), t, 4);
    AfterRuns(With(s, t, Tx(op, MemberTaken)), t, 3);
    AfterRuns(With(s, t, Tx(op, MemberLocked(AGENT))), t, 2);
    AfterRuns(With(s, t, Tx(op, CapChecked)), t, 1);
  }

  lemma Opens(s: State, t: TxId, op: Op)
    requires Enabled(s, op)
    ensures After(With(s, t, Tx(op, Called)), Runs(t, Opening(op))) == With(s, t, Tx(op, Opened(s, op)))
  {
    var job := s.db.jobs[op.job];
    EnabledMatches(s, op);
    if op.Offers() {
      OfferOpens(s, t, op);
    } else {
      Moves(s, t, op, Called, JobRead(job));
      AfterRuns(With(s, t, Tx(op, Called)), t, Opening(op));
      if op.Responds() {
        Moves(s, t, op, JobRead(job), Opened(s, op));
        AfterRuns(With(s, t, Tx(op, JobRead(job))), t, 1);
      }
    }
  }

  // ---------------------------------------------------------------- from the claim on

  /** The call has read its job and may still claim it: the row is free and passes the `where`. */
  ghost predicate MayClaim(s: State, t: TxId) {
    && t in s.active && !s.active[t].op.Create?
    && var op, phase := s.active[t].op, s.active[t].phase;
    && (if op.Responds() then phase.OfferRead? && phase.own in OffersFor(s.db.assignments, op.job) else phase.JobRead?)
    && op.job in s.db.jobs && !HeldByOther(s, t, JobRow(op.job))
    && Objection(op, phase.seen).None? && Matches(WhereOf(op, phase.seen), s.db.jobs[op.job])
  }

  /** An answered offer is still open. */
  ghost predicate OfferOpen(s: State, t: TxId)
    requires t in s.active
  {
    var op, phase := s.active[t].op, s.active[t].phase;
    phase.Claimed? && op.Responds() ==> phase.offer.Some? && phase.offer.value in OffersFor(s.db.assignments, op.job)
  }

  lemma ClaimGoes(s: State, t: TxId) returns (phase: Phase)
    requires DispatchSafety.CallOk(s, t) && MayClaim(s, t)
    ensures Advance(s, t, s.active[t]) == Goes(phase) && phase.Claimed?
    ensures var op, seen := s.active[t].op, s.active[t].phase.seen;
            && phase.seen == seen && phase.row == ApplyUpdate(s.db.jobs[op.job], UpdateOf(op, seen))
            && OfferOpen(s.(active := s.active[t := Tx(op, phase)]), t)
  {
    DispatchSafety.CallPassesConstraints(s, t);
    phase := Advance(s, t, s.active[t]).phase;
  }

  lemma NeverHeldUp(s: State, t: TxId)
    requires DispatchSafety.Inv(s) && t in s.active && s.active[t].phase.HasRow()
    ensures !Advance(s, t, s.active[t]).Waits?
  {
    if DispatchProgress.Blocked(s, t) {
      ClaimedLocks(s, t);
      DispatchProgress.NeverWaits(s, t);
    }
  }

  lemma ClaimedLocks(s: State, t: TxId)
    requires DispatchProgress.Blocked(s, t) && s.active[t].phase.HasRow()
    ensures var lock := Advance(s, t, s.active[t]).lock; lock.AssignmentRow? || lock.OfferSlot?
  {
  }

  lemma ClaimedGoes(s: State, t: TxId) returns (phase: Phase)
    requires DispatchSafety.CallOk(s, t) && OfferOpen(s, t) && !Advance(s, t, s.active[t]).Waits?
    requires s.active[t].phase.HasRow() && !s.active[t].phase.Recorded? && !s.active[t].op.Create?
    ensures Advance(s, t, s.active[t]) == Goes(phase) && phase.HasRow() && !phase.Claimed?
    ensures phase.row == s.active[t].phase.row && phase.seen == s.active[t].phase.seen
    ensures DispatchProgress.Remaining(phase) < DispatchProgress.Remaining(s.active[t].phase)
  {
    DispatchSafety.CallPassesConstraints(s, t);
    var op, now := s.active[t].op, s.active[t].phase;
    assert now.Claimed? && op.Responds() ==> now.offer.value in {now.offer.value} * OffersFor(s.db.assignments, op.job);
    phase := Advance(s, t, s.active[t]).phase;
  }

  lemma GoesOn(s: State, t: TxId, phase: Phase)
    requires t in s.active && Advance(s, t, s.active[t]) == Goes(phase)
    ensures Step(s, Run(t)) == s.(active := s.active[t := Tx(s.active[t].op, phase)])
  {
  }

  lemma Overwritten(active: map<TxId, Tx>, t: TxId, first: Tx, second: Tx)
    ensures active[t := first][t := second] == active[t := second]
  {
  }

  lemma {:induction false} ClaimedRunsOn(s: State, t: TxId) returns (n: nat, ready: Phase)
    requires DispatchSafety.Inv(s) && t in s.active && OfferOpen(s, t)
    requires s.active[t].phase.HasRow() && !s.active[t].op.Create?
    ensures ready.Recorded? && ready.row == s.active[t].phase.row && ready.seen == s.active[t].phase.seen
    ensures After(s, Runs(t, n)) == s.(active := s.active[t := Tx(s.active[t].op, ready)])
    decreases DispatchProgress.Remaining(s.active[t].phase)
  {
    var tx := s.active[t];
    if tx.phase.Recorded? {
      n, ready := 0, tx.phase;
      assert s.active[t := Tx(tx.op, ready)] == s.active;
    } else {
      DispatchSafety.InvGivesCallOk(s, t);
      NeverHeldUp(s, t);
      var phase := ClaimedGoes(s, t);
      GoesOn(s, t, phase);
      DispatchSafety.AdvanceKeepsInv(s, t, phase);
      n, ready := ClaimedRunsOn(s.(active := s.active[t := Tx(tx.op, phase)]), t);
      AfterRuns(s, t, n + 1);
      Overwritten(s.active, t, Tx(tx.op, phase), Tx(tx.op, ready));
      n := n + 1;
    }
  }

  /** A call that may claim its job reaches its commit by its own statements, whoever else is running. */
  lemma RunsToRecorded(s: State, t: TxId) returns (n: nat, ready: Phase)
    requires DispatchSafety.Inv(s) && MayClaim(s, t)
    ensures After(s, Runs(t, n)) == s.(active := s.active[t := Tx(s.active[t].op, ready)])
    ensures ready.Recorded? && ready.seen == s.active[t].phase.seen
    ensures ready.row == ApplyUpdate(s.db.jobs[s.active[t].op.job], UpdateOf(s.active[t].op, s.active[t].phase.seen))
    ensures ready.changed == DispatchSafety.Changes(s.db.assignments, t, s.active[t].op)
    ensures ready.event == EventOf(s.active[t].op, ready.seen)
  {
    var op := s.active[t].op;
    DispatchSafety.InvGivesCallOk(s, t);
    var phase := ClaimGoes(s, t);
    GoesOn(s, t, phase);
    DispatchSafety.AdvanceKeepsInv(s, t, phase);
    n, ready := ClaimedRunsOn(s.(active := s.active[t := Tx(op, phase)]), t);
    AfterRuns(s, t, n + 1);
    Overwritten(s.active, t, Tx(op, phase), Tx(op, ready));
    n := n + 1;
    DispatchSafety.InvAfter(s, Runs(t, n));
    RecordedKnows(s.(active := s.active[t := Tx(op, ready)]), t);
  }

  lemma RecordedKnows(s: State, t: TxId)
    requires DispatchSafety.Inv(s) && t in s.active && s.active[t].phase.Recorded?
    ensures s.active[t].phase.changed == DispatchSafety.Changes(s.db.assignments, t, s.active[t].op)
    ensures s.active[t].phase.event == EventOf(s.active[t].op, s.active[t].phase.seen)
  {
    assert DispatchSafety.TxOk(s.db, t, s.active[t]);
  }

  lemma CommitStep(s: State, t: TxId)
    requires t in s.active && s.active[t].phase.Recorded?
    ensures After(s, [Run(t)]) == CommitTx(s, t)
  {
    assert After(s, [Run(t)]) == Step(After(s, []), Run(t));
    OnlyCommitsWrite(s, Run(t));
  }

  lemma OpenedKeepsInv(s: State, t: TxId, op: Op)
    requires DispatchSafety.Inv(s) && Enabled(s, op) && t !in s.used
    ensures DispatchSafety.Inv(With(s, t, Tx(op, Opened(s, op))))
  {
    DispatchSafety.BeginKeepsInv(s, t, op);
    Opens(s, t, op);
    DispatchSafety.InvAfter(With(s, t, Tx(op, Called)), Runs(t, Opening(op)));
  }

  ghost predicate Brings(s: State, actions: seq<Action>, last: State) {
    After(s, actions) == last
  }

  lemma AfterInTurn(s: State, a: seq<Action>, b: seq<Action>, c: seq<Action>)
    ensures After(s, a + (b + c)) == After(After(After(s, a), b), c)
  {
    AfterAppend(s, a, b + c);
    AfterAppend(After(s, a), b, c);
  }

  lemma RunsInTurn(t: TxId, k: nat, m: nat, n: nat)
    requires n == k + m + 1
    ensures Runs(t, n) == Runs(t, k) + (Runs(t, m) + [Run(t)])
  {
    RunsSplit(t, k, m + 1);
    RunsSplit(t, m, 1);
    assert Runs(t, 1) == [Run(t)] + Runs(t, 0) == [Run(t)];
  }

  /** What an enabled call has written when it is ready to commit. */
  ghost predicate Finishes(s: State, t: TxId, op: Op, ready: Phase)
    requires Enabled(s, op)
  {
    && ready.Recorded? && ready.seen == s.db.jobs[op.job]
    && ready.row == ApplyUpdate(s.db.jobs[op.job], UpdateOf(op, s.db.jobs[op.job]))
    && ready.changed == DispatchSafety.Changes(s.db.assignments, t, op)
    && ready.event == EventOf(op, s.db.jobs[op.job])
  }

  lemma EnabledFinishes(s: State, t: TxId, op: Op) returns (k: nat, m: nat, reading: Phase, ready: Phase)
    requires DispatchSafety.Inv(s) && Enabled(s, op) && t !in s.used
    requires op.version.Some? ==> op.version.value == s.db.jobs[op.job].version
    ensures Finishes(s, t, op, ready)
    ensures After(With(s, t, Tx(op, Called)), Runs(t, k)) == With(s, t, Tx(op, reading))
    ensures After(With(s, t, Tx(op, reading)), Runs(t, m)) == With(s, t, Tx(op, ready))
  {
    k, reading := Opening(op), Opened(s, op);
    Opens(s, t, op);
    OpenedKeepsInv(s, t, op);
    EnabledMayClaim(s, t, op);
    m, ready := RunsToRecorded(With(s, t, Tx(op, reading)), t);
    Overwritten(s.active, t, Tx(op, reading), Tx(op, ready));
  }

  lemma WholeCall(s: State, t: TxId, op: Op, reading: Tx, ready: Tx, k: nat, m: nat, n: nat)
    requires t !in s.used && ready.phase.Recorded? && n == k + m + 1
    requires After(With(s, t, Tx(op, Called)), Runs(t, k)) == With(s, t, reading)
    requires After(With(s, t, reading), Runs(t, m)) == With(s, t, ready)
    ensures Brings(s, [Begin(t, op)] + Runs(t, n), CommitTx(With(s, t, ready), t))
  {
    RunsInTurn(t, k, m, n);
    AfterOne(s, Begin(t, op), Runs(t, n));
    AfterInTurn(With(s, t, Tx(op, Called)), Runs(t, k), Runs(t, m), [Run(t)]);
    CommitStep(With(s, t, ready), t);
  }

  /** From Begin to commit: an enabled call that sends the current version, or none, is not refused. */
  lemma EnabledCallsCommit(s: State, t: TxId, op: Op) returns (n: nat, ready: Phase)
    requires DispatchSafety.Inv(s) && Enabled(s, op) && t !in s.used
    requires op.version.Some? ==> op.version.value == s.db.jobs[op.job].version
    ensures Finishes(s, t, op, ready)
    ensures Brings(s, [Begin(t, op)] + Runs(t, n), CommitTx(With(s, t, Tx(op, ready)), t))
  {
    var k, m, reading;
    k, m, reading, ready := EnabledFinishes(s, t, op);
    n := k + m + 1;
    WholeCall(s, t, op, Tx(op, reading), Tx(op, ready), k, m, n);
  }

  lemma EnabledMayClaim(s: State, t: TxId, op: Op)
    requires Enabled(s, op) && (op.version.Some? ==> op.version.value == s.db.jobs[op.job].version)
    ensures MayClaim(With(s, t, Tx(op, Opened(s, op))), t)
  {
    EnabledMatches(s, op);
    FreeForMe(s, t, Tx(op, Opened(s, op)), JobRow(op.job));
  }

  lemma {:induction false} RunsSplit(t: TxId, m: nat, n: nat)
    ensures Runs(t, m + n) == Runs(t, m) + Runs(t, n)
  {
    if m > 0 {
      RunsSplit(t, m - 1, n);
    }
  }

  // ---------------------------------------------------------------- a cap lowered below what is handed out

  lemma CreateFinishes(s: State, t: TxId, op: Op) returns (ready: Phase)
    requires op.Create? && s.db.hasCounter && Free(s, CounterRow)
    ensures After(With(s, t, Tx(op, Called)), Runs(t, 3)) == With(s, t, Tx(op, ready))
    ensures ready.Recorded? && ready.row == FreshJob(op, s.db.counter + 1) && ready.changed == map[]
  {
    var n: nat := s.db.counter + 1;
    var job := FreshJob(op, n);
    var numbered, claimed := Numbered(n), Claimed(job, None, job);
    ready := Recorded(job, job, map[], EventOf(op, job));
    FreeForMe(s, t, Tx(op, Called), CounterRow);
    Moves(s, t, op, Called, numbered);
    Moves(s, t, op, numbered, claimed);
    Moves(s, t, op, claimed, ready);
    AfterThree(s, t, Tx(op, Called), Tx(op, numbered), Tx(op, claimed), Tx(op, ready));
  }

  lemma AfterThree(s: State, t: TxId, a: Tx, b: Tx, c: Tx, d: Tx)
    requires Step(With(s, t, a), Run(t)) == With(s, t, b) && Step(With(s, t, b), Run(t)) == With(s, t, c)
    requires Step(With(s, t, c), Run(t)) == With(s, t, d)
    ensures After(With(s, t, a), Runs(t, 3)) == With(s, t, d)
  {
    AfterRuns(With(s, t, a), t, 3);
    AfterRuns(With(s, t, b), t, 2);
    AfterRuns(With(s, t, c), t, 1);
  }

  lemma FreshId(used: set<TxId>) returns (id: TxId)
    ensures forall u :: u in used ==> u < id
  {
    if used == {} {
      id := 0;
    } else {
      var u :| u in used;
      var below := FreshId(used - {u});
      assert forall w :: w in used ==> w == u || w in used - {u};
      id := if u < below then below else u + 1;
    }
  }

  /** A state in which nobody is at work and the agent may be offered another job. */
  ghost predicate Offerable(s: State, agent: UserId) {
    && DispatchSafety.Inv(s) && s.active == map[] && s.db.hasCounter && agent in s.db.members
    && Eligible(Some(s.db.members[agent]), s.db.organization, |ActiveFor(s.db.assignments, agent)|, s.db.defaultCap)
  }

  /** Nobody is at work, and the members and their rules are as before. */
  predicate SameTeam(s: State, after: State) {
    && after.active == map[] && after.db.members == s.db.members && after.db.hasCounter == s.db.hasCounter
    && after.db.organization == s.db.organization && after.db.defaultCap == s.db.defaultCap
  }

  lemma LeavesNobody(s: State, t: TxId, tx: Tx)
    requires s.active == map[] && tx.phase.Recorded?
    ensures SameTeam(s, CommitTx(With(s, t, tx), t)) && CommitTx(With(s, t, tx), t).used == s.used + {t}
  {
    assert s.active[t := tx] - {t} == map[];
  }

  lemma CallKeepsInv(s: State, actions: seq<Action>, after: State)
    requires DispatchSafety.Inv(s) && After(s, actions) == after
    ensures DispatchSafety.Inv(after)
  {
    DispatchSafety.InvAfter(s, actions);
  }

  lemma OneMoreJob(s: State, t: TxId) returns (actions: seq<Action>, after: State)
    requires s.active == map[] && s.db.hasCounter && t !in s.used
    ensures After(s, actions) == after && SameTeam(s, after) && after.used == s.used + {t}
    ensures t in after.db.jobs && after.db.jobs[t].status == Pending && after.db.jobs[t].version == 1
    ensures after.db.assignments == s.db.assignments
  {
    var create := Create(0, 2026, map[]);
    var made := CreateFinishes(s, t, create);
    WholeCall(s, t, create, Tx(create, Called), Tx(create, made), 0, 3, 4);
    LeavesNobody(s, t, Tx(create, made));
    assert s.db.assignments + map[] == s.db.assignments;
    actions, after := [Begin(t, create)] + Runs(t, 4), CommitTx(With(s, t, Tx(create, made)), t);
  }

  lemma AssignEnabled(s: State, agent: UserId, job: JobId)
    requires Offerable(s, agent) && job in s.db.jobs && s.db.jobs[job].status == Pending
    ensures Enabled(s, Assign(0, job, Some(1), agent))
  {
  }

  lemma AssignWrites(s: State, u: TxId, op: Op, ready: Phase)
    requires op.Assign? && Enabled(s, op) && Finishes(s, u, op, ready)
    ensures CommitTx(With(s, u, Tx(op, ready)), u).db.assignments == s.db.assignments[u := Assignment(op.job, op.agent, Offered)]
  {
    assert s.db.assignments + map[u := Assignment(op.job, op.agent, Offered)]
           == s.db.assignments[u := Assignment(op.job, op.agent, Offered)];
  }

  lemma OneMoreAssign(s: State, agent: UserId, job: JobId, u: TxId) returns (actions: seq<Action>, after: State)
    requires Offerable(s, agent) && u !in s.used
    requires job in s.db.jobs && s.db.jobs[job].status == Pending && s.db.jobs[job].version == 1
    ensures After(s, actions) == after && SameTeam(s, after)
    ensures after.db.assignments == s.db.assignments[u := Assignment(job, agent, Offered)]
  {
    var assign := Assign(0, job, Some(1), agent);
    AssignEnabled(s, agent, job);
    var n, ready := EnabledCallsCommit(s, u, assign);
    LeavesNobody(s, u, Tx(assign, ready));
    AssignWrites(s, u, assign, ready);
    actions, after := [Begin(u, assign)] + Runs(u, n), CommitTx(With(s, u, Tx(assign, ready)), u);
  }

  lemma OneMoreActive(before: map<AssignmentId, Assignment>, u: AssignmentId, job: JobId, agent: UserId)
    requires u !in before
    ensures |ActiveFor(before[u := Assignment(job, agent, Offered)], agent)| == |ActiveFor(before, agent)| + 1
  {
    assert ActiveFor(before[u := Assignment(job, agent, Offered)], agent) == ActiveFor(before, agent) + {u};
  }

  lemma UnusedIsNew(s: State, u: TxId)
    requires DispatchSafety.Inv(s) && u !in s.used
    ensures u !in s.db.assignments
  {
  }

  lemma StaysOfferable(s: State, agent: UserId, actions: seq<Action>, after: State)
    requires Offerable(s, agent) && After(s, actions) == after && SameTeam(s, after)
    requires after.db.assignments == s.db.assignments
    ensures Offerable(after, agent)
  {
    CallKeepsInv(s, actions, after);
  }

  lemma Joined(s: State, first: seq<Action>, middle: State, second: seq<Action>, last: State)
    requires After(s, first) == middle && After(middle, second) == last
    ensures After(s, first + second) == last
  {
    AfterAppend(s, first, second);
  }

  /** A create and an assign that meet nobody: the agent holds one more offer. */
  lemma JobThenOffer(s: State, agent: UserId)
    returns (first: seq<Action>, made: State, second: seq<Action>, after: State)
    requires Offerable(s, agent)
    ensures After(s, first) == made && After(made, second) == after && SameTeam(s, after)
    ensures |ActiveFor(after.db.assignments, agent)| == |ActiveFor(s.db.assignments, agent)| + 1
  {
    var t := FreshId(s.used);
    first, made := OneMoreJob(s, t);
    StaysOfferable(s, agent, first, made);
    var u := FreshId(made.used);
    second, after := OneMoreAssign(made, agent, t, u);
    UnusedIsNew(made, u);
    OneMoreActive(made.db.assignments, u, t, agent);
  }

  lemma OneMoreOffer(s: State, agent: UserId) returns (actions: seq<Action>, after: State)
    requires Offerable(s, agent)
    ensures After(s, actions) == after && SameTeam(s, after)
    ensures |ActiveFor(after.db.assignments, agent)| == |ActiveFor(s.db.assignments, agent)| + 1
  {
    var first, made, second;
    first, made, second, after := JobThenOffer(s, agent);
    Joined(s, first, made, second, after);
    actions := first + second;
  }

  /**
   * From empty tables: any agent who may hold two jobs is offered two, and then an edit that the member route
   * accepts, to a cap of one, leaves the agent over it.
   */
  lemma LoweringBreaksTheCap(start: State, agent: UserId) returns (actions: seq<Action>)
    requires Initial(start) && start.db.hasCounter && agent in start.db.members
    requires Eligible(Some(start.db.members[agent]), start.db.organization, 1, start.db.defaultCap)
    ensures actions != [] && actions[|actions| - 1] == PutMember(agent, start.db.members[agent].(concurrentJobCap := Some(1)))
    ensures DispatchSafety.CapOk(After(start, actions[..|actions| - 1]).db, agent)
    ensures !DispatchSafety.CapOk(After(start, actions).db, agent)
  {
    DispatchSafety.RunsKeepInv(start, []);
    assert ActiveFor(start.db.assignments, agent) == {};
    var first, one := OneMoreOffer(start, agent);
    CallKeepsInv(start, first, one);
    var second, two := OneMoreOffer(one, agent);
    CallKeepsInv(one, second, two);
    Joined(start, first, one, second, two);
    UndercutsAlone(two, agent);
    var lowered := PutMember(agent, start.db.members[agent].(concurrentJobCap := Some(1)));
    actions := first + second + [lowered];
    assert actions[..|actions| - 1] == first + second;
  }

  lemma UndercutsAlone(s: State, agent: UserId)
    requires DispatchSafety.Inv(s) && s.active == map[] && agent in s.db.members
    requires |ActiveFor(s.db.assignments, agent)| == 2 <= EffectiveCapFor(Some(s.db.members[agent]), s.db.defaultCap)
    ensures DispatchSafety.CapOk(s.db, agent)
    ensures !DispatchSafety.CapOk(Step(s, PutMember(agent, s.db.members[agent].(concurrentJobCap := Some(1)))).db, agent)
  {
    var edit := PutMember(agent, s.db.members[agent].(concurrentJobCap := Some(1)));
    assert MayPut(s, agent, edit.member);
    DispatchSafety.StepKeepsCap(s, edit, agent);
  }
}
