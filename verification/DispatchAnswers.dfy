/**
 * What a call is told: when it is sure to succeed, what it has then written, and why it
 * may be refused. Everything is said of committed rows and of the operation itself.
 */
module DispatchAnswers {
  import opened Optional
  import opened Lifecycle
  import opened Eligibility
  import opened Dispatch
  import opened DispatchAlone
  import DispatchProgress
  import DispatchSafety

  // ---------------------------------------------------------------- what a successful call has written

  /** The assignment rows once the job's active ones have been closed to a state; all others are as they were. */
  function Closed(before: map<AssignmentId, Assignment>, job: JobId, to: OfferState): map<AssignmentId, Assignment> {
    map a | a in before ::
      if before[a].job == job && (before[a].state == Offered || before[a].state == OfferAccepted)
      then Assignment(before[a].job, before[a].agent, to) else before[a]
  }

  /** What each operation does to the assignment rows. */
  function AssignmentsAfter(before: map<AssignmentId, Assignment>, t: TxId, op: Op): map<AssignmentId, Assignment> {
    match op
    case Create(_, _, _) => before
    case Assign(_, job, _, agent) => before[t := Assignment(job, agent, Offered)]
    case Reassign(_, job, _, agent) => Closed(before, job, OfferRevoked)[t := Assignment(job, agent, Offered)]
    case Accept(_, job, _) => Closed(before, job, OfferAccepted)
    case Decline(_, job, _) => Closed(before, job, OfferDeclined)
    case Start(_, _, _) => before
    case Complete(_, job, _, _) => Closed(before, job, OfferCompleted)
    case Cancel(_, job, _) => Closed(before, job, OfferRevoked)
    case Fail(_, job, _) => Closed(before, job, OfferRevoked)
    case Patch(_, _, _, _) => before
  }

  /** What each operation does to its job's row; the version is told apart. */
  function RowAfter(was: Job, op: Op, version: int): Job
    requires !op.Create?
  {
    match op
    case Assign(_, _, _, agent) => was.(status := Assigned, assignee := Some(agent), version := version)
    case Reassign(_, _, _, agent) => was.(status := Assigned, assignee := Some(agent), version := version)
    case Accept(_, _, _) => was.(status := Accepted, version := version)
    case Decline(_, _, _) => was.(status := Pending, assignee := None, version := version)
    case Start(_, _, _) => was.(status := InProgress, version := version)
    case Complete(_, _, _, now) => was.(status := Completed, completedAt := Some(now), version := version)
    case Cancel(_, _, _) => was.(status := Cancelled, assignee := None, version := version)
    case Fail(_, _, _) => was.(status := Failed, version := version)
    case Patch(_, _, _, data) => was.(details := was.details + data, version := version)
  }

  /** A finished call's assignment writes, merged into the committed rows, are what its operation does to them. */
  lemma MergedAssignments(before: map<AssignmentId, Assignment>, t: TxId, op: Op)
    requires t !in before
    ensures before + DispatchSafety.Changes(before, t, op) == AssignmentsAfter(before, t, op)
  {
  }

  lemma MergedRow(was: Job, op: Op, seen: Job)
    requires !op.Create?
    ensures ApplyUpdate(was, UpdateOf(op, seen)) == RowAfter(was, op, seen.version + 1)
  {
    assert was.details + map[] == was.details;
  }

  /** The tables a commit leaves, told from those it found. */
  ghost predicate Wrote(before: Tables, t: TxId, op: Op, row: Job, after: Tables) {
    && (if op.Create?
        then row == Job(op.year, before.counter + 1, Pending, 1, None, None, op.data) && after.counter == row.number
        else && op.job in before.jobs && row == RowAfter(before.jobs[op.job], op, row.version)
             && after.counter == before.counter)
    && after.jobs == before.jobs[JobOf(t, op) := row]
    && after.assignments == AssignmentsAfter(before.assignments, t, op)
    && after.members == before.members && after.organization == before.organization
    && after.defaultCap == before.defaultCap && after.hasCounter == before.hasCounter
  }

  lemma CommitWrites(db: Tables, t: TxId, tx: Tx)
    requires DispatchSafety.TxOk(db, t, tx) && tx.phase.Recorded? && t !in db.assignments
    ensures Wrote(db, t, tx.op, tx.phase.row, Merge(db, t, tx.op, tx.phase))
  {
    MergedAssignments(db.assignments, t, tx.op);
    if !tx.op.Create? {
      MergedRow(db.jobs[tx.op.job], tx.op, tx.phase.seen);
    }
  }

  /** The committed rows an operation commits on: its job is one it is for, at the version sent, and the rules hold. */
  predicate Fits(db: Tables, op: Op) {
    op.Create? || (
      && op.job in db.jobs
      && (op.Patch? || Applies(op, db.jobs[op.job]))
      && (op.version.Some? ==> db.jobs[op.job].version == op.version.value)
      && (op.Accept? || op.Decline? ==>
            HasOpenOffer(db.assignments, op.job, op.actor) && db.jobs[op.job].assignee == Some(op.actor))
      && (op.Assign? || op.Reassign? ==> MayBeOffered(db, op.agent)))
  }

  lemma CommitFits(db: Tables, t: TxId, tx: Tx)
    requires DispatchSafety.TxOk(db, t, tx) && tx.phase.Recorded?
    requires !tx.op.Create? && tx.op.job in db.jobs ==> DispatchSafety.JobOk(db.assignments, tx.op.job, db.jobs[tx.op.job])
    ensures Fits(db, tx.op)
  {
    if !tx.op.Create? {
      ClaimedFits(tx.op, tx.phase.seen, db.jobs[tx.op.job]);
    }
    if tx.op.Responds() {
      var a :| a in db.assignments && db.assignments[a] == Assignment(tx.op.job, tx.op.actor, Offered);
    }
  }

  lemma ClaimedFits(op: Op, seen: Job, now: Job)
    requires !op.Create? && Objection(op, seen).None? && Matches(WhereOf(op, seen), now)
    requires DispatchSafety.Follows(seen, now)
    ensures op.Patch? || Applies(op, now)
    ensures op.version.Some? ==> now.version == op.version.value
  {
  }

  /** The job row an operation other than a patch is for, in the given status. */
  ghost predicate Takes(op: Op, job: Job, from: Status, to: Status) {
    !op.Create? && !op.Patch? && job.status == from && Applies(op, job) && RowAfter(job, op, job.version + 1).status == to
  }

  /** The transition table holds exactly the moves that some operation makes. */
  lemma TheTableIsTheOperations(from: Status, to: Status)
    ensures CanTransition(from, to) <==> exists op, job :: Takes(op, job, from, to)
  {
    var job := Job(2026, 1, from, 1, Some(0), None, map[]);
    if CanTransition(from, to) {
      var op := match to
        case Pending => Decline(0, 0, None)
        case Assigned => if from == Pending then Assign(0, 0, None, 0) else Reassign(0, 0, None, 0)
        case Accepted => Accept(0, 0, None)
        case InProgress => Start(0, 0, None)
        case Completed => Complete(0, 0, None, 0)
        case Cancelled => Cancel(0, 0, None)
        case Failed => Fail(0, 0, None);
      assert Takes(op, job, from, to);
    }
  }

  // ---------------------------------------------------------------- a call that is sure to succeed

  /**
   * The operation applies to the committed rows, the rows it will lock are free, and the version sent is absent
   * or the committed one.
   */
  ghost predicate Sure(s: State, op: Op) {
    if op.Create? then s.db.hasCounter && Free(s, CounterRow)
    else Enabled(s, op) && (op.version.Some? ==> op.version.value == s.db.jobs[op.job].version)
  }

  /** A call that has just begun comes, in n statements of its own, to be ready for its commit. */
  ghost predicate GetsReady(s: State, t: TxId, op: Op, n: nat, ready: Phase) {
    ready.Recorded? && After(With(s, t, Tx(op, Called)), Runs(t, n)) == With(s, t, Tx(op, ready))
  }

  lemma SureGetsReady(s: State, t: TxId, op: Op) returns (n: nat, ready: Phase)
    requires DispatchSafety.Inv(s) && Sure(s, op) && t !in s.used
    ensures GetsReady(s, t, op, n, ready)
    ensures op.Create? ==> ready.row == FreshJob(op, s.db.counter + 1)
    ensures !op.Create? ==> ready.row == RowAfter(s.db.jobs[op.job], op, s.db.jobs[op.job].version + 1)
  {
    if op.Create? {
      n := 3;
      ready := CreateFinishes(s, t, op);
    } else {
      n, ready := EnabledGetsReady(s, t, op);
      MergedRow(s.db.jobs[op.job], op, s.db.jobs[op.job]);
    }
  }

  lemma EnabledGetsReady(s: State, t: TxId, op: Op) returns (n: nat, ready: Phase)
    requires DispatchSafety.Inv(s) && Enabled(s, op) && t !in s.used
    requires op.version.Some? ==> op.version.value == s.db.jobs[op.job].version
    ensures GetsReady(s, t, op, n, ready)
    ensures ready.row == ApplyUpdate(s.db.jobs[op.job], UpdateOf(op, s.db.jobs[op.job]))
  {
    var k, m, reading;
    k, m, reading, ready := EnabledFinishes(s, t, op);
    n := k + m;
    RunsOn(With(s, t, Tx(op, Called)), t, k, m, n);
  }

  lemma FirstRun(x: State, t: TxId, n: nat, rest: nat, next: State)
    requires n == rest + 1 && Step(x, Run(t)) == next
    ensures After(x, Runs(t, n)) == After(next, Runs(t, rest))
  {
    AfterRuns(x, t, n);
  }

  lemma {:induction false} GoneStaysGone(x: State, t: TxId, n: nat)
    requires t !in x.active
    ensures After(x, Runs(t, n)) == x
  {
    if n > 0 {
      var rest: nat := n - 1;
      FirstRun(x, t, n, rest, x);
      GoneStaysGone(x, t, rest);
    }
  }

  lemma {:induction false} WaitingStays(x: State, t: TxId, n: nat)
    requires t in x.active && Advance(x, t, x.active[t]).Waits?
    ensures After(x, Runs(t, n)) == x
  {
    if n > 0 {
      var rest: nat := n - 1;
      FirstRun(x, t, n, rest, x);
      WaitingStays(x, t, rest);
    }
  }

  lemma RunsOn(x: State, t: TxId, k: nat, m: nat, n: nat)
    requires n == k + m
    ensures After(x, Runs(t, n)) == After(After(x, Runs(t, k)), Runs(t, m))
  {
    RunsJoin(t, k, m, n);
    AfterJoined(x, Runs(t, k), Runs(t, m), Runs(t, n));
  }

  lemma RunsJoin(t: TxId, k: nat, m: nat, n: nat)
    requires n == k + m
    ensures Runs(t, n) == Runs(t, k) + Runs(t, m)
  {
    RunsSplit(t, k, m);
  }

  lemma AfterJoined(x: State, first: seq<Action>, more: seq<Action>, all: seq<Action>)
    requires all == first + more
    ensures After(x, all) == After(After(x, first), more)
  {
    AfterAppend(x, first, more);
  }

  /** After its commit nothing is left of the call. */
  lemma NothingPastTheCommit(s: State, t: TxId, op: Op, n: nat, ready: Phase, k: nat)
    requires GetsReady(s, t, op, n, ready) && k > n
    ensures t !in After(With(s, t, Tx(op, Called)), Runs(t, k)).active
  {
    var rest := k - n;
    RunsOn(With(s, t, Tx(op, Called)), t, n, rest, k);
    CommittedIsGone(With(s, t, Tx(op, ready)), t, rest);
  }

  lemma CommittedIsGone(last: State, t: TxId, n: nat)
    requires t in last.active && last.active[t].phase.Recorded? && n > 0
    ensures t !in After(last, Runs(t, n)).active
  {
    var rest: nat := n - 1;
    OnlyCommitsWrite(last, Run(t));
    FirstRun(last, t, n, rest, CommitTx(last, t));
    GoneStaysGone(CommitTx(last, t), t, rest);
  }

  /**
   * On the way of a call that gets ready there is no refusal and no wait, and only at its end is it ready: with
   * what it then has.
   */
  lemma NoStopOnTheWay(s: State, t: TxId, op: Op, n: nat, ready: Phase, k: nat)
    requires GetsReady(s, t, op, n, ready)
    requires t in After(With(s, t, Tx(op, Called)), Runs(t, k)).active
    ensures var at := After(With(s, t, Tx(op, Called)), Runs(t, k));
            && !Advance(at, t, at.active[t]).Waits? && !Advance(at, t, at.active[t]).Refused?
            && (at.active[t].phase.Recorded? ==> at == With(s, t, Tx(op, ready)))
  {
    var begun := With(s, t, Tx(op, Called));
    var at := After(begun, Runs(t, k));
    if k > n {
      NothingPastTheCommit(s, t, op, n, ready, k);
    } else if k < n {
      var rest := n - k;
      RunsOn(begun, t, k, rest, n);
      StopsAreFinal(at, t, rest);
    }
  }

  lemma StopsAreFinal(at: State, t: TxId, rest: nat)
    requires t in at.active && rest > 0
    ensures Advance(at, t, at.active[t]).Waits? ==> After(at, Runs(t, rest)) == at
    ensures Advance(at, t, at.active[t]).Refused? || at.active[t].phase.Recorded? ==> t !in After(at, Runs(t, rest)).active
  {
    var tx := at.active[t];
    if Advance(at, t, tx).Waits? {
      WaitingStays(at, t, rest);
    } else if tx.phase.Recorded? {
      CommittedIsGone(at, t, rest);
    } else if Advance(at, t, tx).Refused? {
      var fewer: nat := rest - 1;
      FirstRun(at, t, rest, fewer, at.(active := at.active - {t}));
      GoneStaysGone(at.(active := at.active - {t}), t, fewer);
    }
  }

  // ---------------------------------------------------------------- a call on its own

  predicate Mine(a: Action, t: TxId) {
    !a.PutMember? && a.tx == t
  }

  lemma OthersLeaveMyCallAlone(s: State, a: Action, t: TxId)
    requires t in s.active && s.active.Keys <= s.used && !Mine(a, t)
    ensures t in Step(s, a).active && Step(s, a).active[t] == s.active[t]
  {
  }

  lemma UsedStays(s: State, a: Action)
    ensures s.used <= Step(s, a).used
  {
  }

  lemma {:induction false} UsedStaysOn(s: State, actions: seq<Action>)
    ensures s.used <= After(s, actions).used
  {
    if actions != [] {
      UsedStaysOn(s, actions[..|actions| - 1]);
      UsedStays(After(s, actions[..|actions| - 1]), actions[|actions| - 1]);
    }
  }

  /** A call's own action that leaves it running was a statement of its, or did nothing. */
  lemma OwnStep(s: State, t: TxId, a: Action)
    requires Mine(a, t) && t in s.used && t in Step(s, a).active
    ensures t in s.active && (a == Run(t) || Step(s, a) == s) && Step(s, a).db == s.db
  {
  }

  lemma OneMoreRun(x: State, t: TxId, k: nat, n: nat)
    requires n == k + 1
    ensures After(x, Runs(t, n)) == Step(After(x, Runs(t, k)), Run(t))
  {
    RunsOn(x, t, k, 1, n);
    FirstRun(After(x, Runs(t, k)), t, 1, 0, Step(After(x, Runs(t, k)), Run(t)));
  }

  /** While nobody else acts, a call that is still running has made some of its statements in a row and changed no table. */
  lemma {:induction false} OwnActionsAreRuns(s: State, t: TxId, op: Op, actions: seq<Action>) returns (k: nat)
    requires t !in s.used && actions != [] && actions[0] == Begin(t, op)
    requires forall i :: 0 <= i < |actions| ==> Mine(actions[i], t)
    requires t in After(s, actions).active
    ensures After(s, actions) == After(With(s, t, Tx(op, Called)), Runs(t, k)) && After(s, actions).db == s.db
    decreases |actions|
  {
    var n := |actions| - 1;
    if n == 0 {
      k := 0;
      assert After(s, actions[..0]) == s;
    } else {
      var before := After(s, actions[..n]);
      BegunIsUsed(s, t, op, actions[..n]);
      OwnStep(before, t, actions[n]);
      k := OwnActionsAreRuns(s, t, op, actions[..n]);
      if actions[n] == Run(t) {
        var more := k + 1;
        OneMoreRun(With(s, t, Tx(op, Called)), t, k, more);
        k := more;
      }
    }
  }

  lemma BegunIsUsed(s: State, t: TxId, op: Op, actions: seq<Action>)
    requires actions != [] && actions[0] == Begin(t, op)
    ensures t in After(s, actions).used
  {
    AfterAppend(s, [actions[0]], actions[1..]);
    assert actions == [actions[0]] + actions[1..];
    assert After(s, [actions[0]]) == Step(After(s, []), Begin(t, op));
    UsedStaysOn(After(s, [actions[0]]), actions[1..]);
  }

  /** A job row. */
  ghost predicate CommittedAs(db: Tables, job: JobId, row: Job) {
    job in db.jobs && db.jobs[job] == row
  }

  /** The row a call has read was the committed one at some point since the call began. */
  lemma {:induction false} SeenWasCommitted(s: State, actions: seq<Action>, t: TxId) returns (k: nat)
    requires s.active.Keys <= s.used && t !in s.active && t in After(s, actions).active
    requires !After(s, actions).active[t].op.Create? && After(s, actions).active[t].phase.HasSeen()
    ensures k <= |actions|
    ensures CommittedAs(After(s, actions[..k]).db, After(s, actions).active[t].op.job, After(s, actions).active[t].phase.seen)
    decreases |actions|
  {
    var n := |actions| - 1;
    var before := After(s, actions[..n]);
    if t in before.active && before.active[t].phase.HasSeen() {
      ActiveIsUsed(s, actions[..n]);
      SeenStays(before, actions[n], t);
      k := SeenWasCommitted(s, actions[..n], t);
      assert actions[..n][..k] == actions[..k];
    } else {
      k := n;
      SeenIsRead(before, actions[n], t);
    }
  }

  lemma {:induction false} ActiveIsUsed(s: State, actions: seq<Action>)
    requires s.active.Keys <= s.used
    ensures After(s, actions).active.Keys <= After(s, actions).used
  {
    if actions != [] {
      ActiveIsUsed(s, actions[..|actions| - 1]);
      ActiveStaysUsed(After(s, actions[..|actions| - 1]), actions[|actions| - 1]);
    }
  }

  lemma ActiveStaysUsed(s: State, a: Action)
    requires s.active.Keys <= s.used
    ensures Step(s, a).active.Keys <= Step(s, a).used
  {
  }

  lemma SeenStays(s: State, a: Action, t: TxId)
    requires s.active.Keys <= s.used && t in s.active && s.active[t].phase.HasSeen() && t in Step(s, a).active
    ensures Step(s, a).active[t].op == s.active[t].op
    ensures Step(s, a).active[t].phase.HasSeen() && Step(s, a).active[t].phase.seen == s.active[t].phase.seen
  {
    if !Mine(a, t) {
      OthersLeaveMyCallAlone(s, a, t);
    }
  }

  lemma SeenIsRead(s: State, a: Action, t: TxId)
    requires t in s.active ==> !s.active[t].phase.HasSeen()
    requires t in Step(s, a).active && Step(s, a).active[t].phase.HasSeen() && !Step(s, a).active[t].op.Create?
    ensures CommittedAs(s.db, Step(s, a).active[t].op.job, Step(s, a).active[t].phase.seen)
  {
  }

  // ---------------------------------------------------------------- why a call is refused

  /** The statuses of the row read that rule the operation's move out. */
  predicate WrongStatus(op: Op, status: Status) {
    match op
    case Create(_, _, _) => false
    case Assign(_, _, _, _) => false
    case Reassign(_, _, _, _) => status == Pending
    case Accept(_, _, _) => status != Assigned
    case Decline(_, _, _) => status != Assigned
    case Start(_, _, _) => status != Accepted
    case Complete(_, _, _, _) => status != InProgress
    case Fail(_, _, _) => status != InProgress
    case Cancel(_, _, _) => status in {Completed, Cancelled, Failed}
    case Patch(_, _, _, _) => status in {Completed, Cancelled, Failed}
  }

  /** The operation needs the job to be the caller's own, and the row read says it is somebody else's or nobody's. */
  predicate NotTheirs(op: Op, seen: Job) {
    (op.Start? || op.Complete? || op.Fail?) && seen.assignee != Some(op.actor)
  }

  /** Between the read and the claim the committed row has left the status the operation asks it to be in. */
  predicate MovedOn(op: Op, seen: Status, now: Status) {
    match op
    case Assign(_, _, _, _) => now != Pending
    case Reassign(_, _, _, _) => now != Assigned
    case Accept(_, _, _) => now != Assigned
    case Decline(_, _, _) => now != Assigned
    case Create(_, _, _) => false
    case Patch(_, _, _, _) => false
    case _ => now != seen
  }

  /** Somebody's offer for the job is open. */
  predicate AnyOpenOffer(assignments: map<AssignmentId, Assignment>, job: JobId) {
    exists a :: a in assignments && assignments[a].job == job && assignments[a].state == Offered
  }

  predicate Answering(op: Op) {
    op.Accept? || op.Decline?
  }

  predicate Offering(op: Op) {
    op.Assign? || op.Reassign?
  }

  /**
   * Why a call is refused with an error, told from the committed rows it met at its last statement and from the
   * row it had read. An earlier test comes first: an error of a later one is only given if the earlier passed.
   */
  ghost predicate Grounds(s: State, t: TxId, tx: Tx, error: Error) {
    var db, op, phase := s.db, tx.op, tx.phase;
    match error
    case NotFound => !op.Create? && op.job !in db.jobs
    case NotEligible => Offering(op) && !MayBeOffered(db, op.agent)
    case CounterMissing => op.Create? && !db.hasCounter
    case InvalidTransition(current) =>
      && phase.HasSeen() && current == phase.seen.status
      && if Answering(op) && phase.JobRead? then !AnyOpenOffer(db.assignments, op.job) else WrongStatus(op, current)
    case Forbidden => phase.HasSeen() && NotTheirs(op, phase.seen) && !WrongStatus(op, phase.seen.status)
    case VersionConflict(version, status) =>
      && phase.HasSeen() && !op.Create?
      && if op.Assign? && phase.seen.status != Pending then version == phase.seen.version && status == phase.seen.status
         else if Answering(op) && phase.JobRead? then
           && version == phase.seen.version && status == phase.seen.status
           && AnyOpenOffer(db.assignments, op.job) && !HasOpenOffer(db.assignments, op.job, op.actor)
         else
           && op.job in db.jobs && version == db.jobs[op.job].version && status == db.jobs[op.job].status
           && !WrongStatus(op, phase.seen.status) && !NotTheirs(op, phase.seen)
           && ((op.version.Some? && op.version.value != version) || MovedOn(op, phase.seen.status, status))
    case OfferGone =>
      && Answering(op) && phase.Claimed? && phase.offer.Some? && phase.offer.value in db.assignments
      && var offer := db.assignments[phase.offer.value];
         offer.job == op.job && offer.agent == op.actor && offer.state != Offered
    case LockTimeout =>
      || (op.Create? && HeldByOther(s, t, CounterRow))
      || (!op.Create? && HeldByOther(s, t, JobRow(op.job)))
      || (Offering(op) && HeldByOther(s, t, MemberRow(op.agent)))
      || (Offering(op) && op.agent in db.members && HeldByOther(s, t, RoleRow(db.members[op.agent].role)))
    case AlreadyAssigned => false
    case CheckViolation => false
  }

  /** The grounds of a refusal; whatever comes after the eligibility check finds the agent eligible still. */
  ghost predicate Justified(s: State, t: TxId, tx: Tx, error: Error) {
    && Grounds(s, t, tx, error)
    && (Offering(tx.op) && !error.NotEligible? && !error.LockTimeout? ==> MayBeOffered(s.db, tx.op.agent))
  }

  /** The errors each operation can give. */
  predicate MayBeTold(op: Op, error: Error) {
    match op
    case Create(_, _, _) => error in {CounterMissing, LockTimeout}
    case Assign(_, _, _, _) => error in {NotFound, NotEligible, LockTimeout} || error.VersionConflict?
    case Reassign(_, _, _, _) =>
      error in {NotFound, NotEligible, InvalidTransition(Pending), LockTimeout} || error.VersionConflict?
    case Accept(_, _, _) => error in {NotFound, OfferGone, LockTimeout} || error.VersionConflict? || error.InvalidTransition?
    case Decline(_, _, _) => error in {NotFound, OfferGone, LockTimeout} || error.VersionConflict? || error.InvalidTransition?
    case Cancel(_, _, _) => error in {NotFound, LockTimeout} || error.VersionConflict? || error.InvalidTransition?
    case Patch(_, _, _, _) => error in {NotFound, LockTimeout} || error.VersionConflict? || error.InvalidTransition?
    case _ => error in {NotFound, Forbidden, LockTimeout} || error.VersionConflict? || error.InvalidTransition?
  }

  lemma GroundsAreTold(s: State, t: TxId, tx: Tx, error: Error)
    requires Grounds(s, t, tx, error) && DispatchSafety.PhaseFits(tx.op, tx.phase)
    ensures MayBeTold(tx.op, error)
  {
  }

  lemma OpenOffers(assignments: map<AssignmentId, Assignment>, job: JobId, user: UserId)
    ensures AnyOpenOffer(assignments, job) <==> OffersFor(assignments, job) != {}
    ensures HasOpenOffer(assignments, job, user) <==> OwnOffers(assignments, job, user) != {}
  {
    if AnyOpenOffer(assignments, job) {
      var a :| a in assignments && assignments[a].job == job && assignments[a].state == Offered;
      assert a in OffersFor(assignments, job);
    }
    if HasOpenOffer(assignments, job, user) {
      var a :| a in assignments && assignments[a] == Assignment(job, user, Offered);
      assert a in OwnOffers(assignments, job, user);
    }
    if OwnOffers(assignments, job, user) != {} {
      var a :| a in OwnOffers(assignments, job, user);
      assert assignments[a] == Assignment(job, user, Offered);
    }
  }

  lemma ObjectionHasGrounds(s: State, t: TxId, tx: Tx)
    requires !tx.op.Create? && tx.phase.HasSeen() && Objection(tx.op, tx.phase.seen).Some?
    requires tx.op.Responds() ==> !tx.phase.JobRead?
    ensures Grounds(s, t, tx, Objection(tx.op, tx.phase.seen).value)
  {
  }

  lemma NoObjection(op: Op, seen: Job)
    requires !op.Create? && Objection(op, seen).None?
    ensures !WrongStatus(op, seen.status) && !NotTheirs(op, seen) && (op.Assign? ==> seen.status == Pending)
  {
  }

  lemma MissHasGrounds(s: State, t: TxId, tx: Tx)
    requires !tx.op.Create? && tx.phase.HasSeen() && Objection(tx.op, tx.phase.seen).None? && tx.op.job in s.db.jobs
    requires tx.op.Responds() ==> !tx.phase.JobRead?
    requires !Matches(WhereOf(tx.op, tx.phase.seen), s.db.jobs[tx.op.job])
    ensures Grounds(s, t, tx, VersionConflict(s.db.jobs[tx.op.job].version, s.db.jobs[tx.op.job].status))
  {
    NoObjection(tx.op, tx.phase.seen);
  }

  lemma ClaimHasGrounds(s: State, t: TxId, error: Error)
    requires DispatchSafety.CallOk(s, t) && !s.active[t].op.Create?
    requires if s.active[t].op.Responds() then s.active[t].phase.OfferRead? else s.active[t].phase.JobRead?
    requires Advance(s, t, s.active[t]) == Refused(error)
    ensures Grounds(s, t, s.active[t], error)
  {
    var op, seen := s.active[t].op, s.active[t].phase.seen;
    DispatchSafety.CallPassesConstraints(s, t);
    if Objection(op, seen).Some? {
      ObjectionHasGrounds(s, t, s.active[t]);
    } else if op.job in s.db.jobs && !Matches(WhereOf(op, seen), s.db.jobs[op.job]) {
      MissHasGrounds(s, t, s.active[t]);
    }
  }

  /** In a reachable state, a statement that is refused is refused for a reason the committed rows show. */
  lemma RefusalsAreJustified(s: State, t: TxId, error: Error)
    requires DispatchSafety.Inv(s) && t in s.active && Advance(s, t, s.active[t]) == Refused(error)
    ensures Justified(s, t, s.active[t], error)
  {
    DispatchSafety.InvGivesCallOk(s, t);
    RefusalsHaveGrounds(s, t, error);
    RulesStillPass(s, t, error);
  }

  lemma RulesStillPass(s: State, t: TxId, error: Error)
    requires DispatchSafety.CallOk(s, t) && Advance(s, t, s.active[t]) == Refused(error)
    ensures Offering(s.active[t].op) && !error.NotEligible? ==> MayBeOffered(s.db, s.active[t].op.agent)
  {
    var op, phase := s.active[t].op, s.active[t].phase;
    assert op.Offers() && !error.NotEligible? ==> phase.CapChecked? || phase.HasSeen();
  }

  lemma RefusalsHaveGrounds(s: State, t: TxId, error: Error)
    requires DispatchSafety.CallOk(s, t) && Advance(s, t, s.active[t]) == Refused(error)
    ensures Grounds(s, t, s.active[t], error)
  {
    var op, phase := s.active[t].op, s.active[t].phase;
    if (phase.JobRead? && !op.Responds()) || phase.OfferRead? {
      ClaimHasGrounds(s, t, error);
    } else if phase.JobRead? {
      NoOfferHasGrounds(s, t, error);
    } else if phase.Claimed? {
      DispatchSafety.CallPassesConstraints(s, t);
      LostOfferHasGrounds(s, t, error);
    } else {
      DispatchSafety.CallPassesConstraints(s, t);
      EarlyRefusalHasGrounds(s, t, error);
    }
  }

  lemma NoOfferHasGrounds(s: State, t: TxId, error: Error)
    requires t in s.active && s.active[t].phase.JobRead? && s.active[t].op.Responds()
    requires Advance(s, t, s.active[t]) == Refused(error)
    ensures Grounds(s, t, s.active[t], error)
  {
    OpenOffers(s.db.assignments, s.active[t].op.job, s.active[t].op.actor);
  }

  lemma LostOfferHasGrounds(s: State, t: TxId, error: Error)
    requires DispatchSafety.CallOk(s, t) && s.active[t].phase.Claimed?
    requires Advance(s, t, s.active[t]) == Refused(error) && error !in {AlreadyAssigned, CheckViolation}
    ensures Grounds(s, t, s.active[t], error)
  {
    var op, phase := s.active[t].op, s.active[t].phase;
    assert op.Responds() && error == OfferGone;
    OnlyOne(phase.offer.value, OffersFor(s.db.assignments, op.job));
  }

  lemma OnlyOne(a: AssignmentId, ids: set<AssignmentId>)
    ensures {a} * ids == {} <==> a !in ids
  {
    assert a in {a} * ids <==> a in ids;
  }

  lemma EarlyRefusalHasGrounds(s: State, t: TxId, error: Error)
    requires DispatchSafety.CallOk(s, t)
    requires !s.active[t].phase.JobRead? && !s.active[t].phase.OfferRead? && !s.active[t].phase.Claimed?
    requires Advance(s, t, s.active[t]) == Refused(error) && error !in {AlreadyAssigned, CheckViolation}
    ensures Grounds(s, t, s.active[t], error)
  {
  }

  /** Only what others hold keeps a call waiting until it gives up. */
  lemma TimeoutsAreJustified(s: State, t: TxId)
    requires DispatchSafety.Inv(s) && DispatchProgress.Blocked(s, t)
    ensures Justified(s, t, s.active[t], LockTimeout)
  {
    OnlyRowsAreAwaited(s, t);
    AwaitedIsHeld(s, t);
  }

  lemma OnlyRowsAreAwaited(s: State, t: TxId)
    requires DispatchSafety.Inv(s) && DispatchProgress.Blocked(s, t)
    ensures !Advance(s, t, s.active[t]).lock.AssignmentRow? && !Advance(s, t, s.active[t]).lock.OfferSlot?
  {
    DispatchProgress.NeverWaits(s, t);
  }

  lemma AwaitedIsHeld(s: State, t: TxId)
    requires DispatchProgress.Blocked(s, t)
    requires !Advance(s, t, s.active[t]).lock.AssignmentRow? && !Advance(s, t, s.active[t]).lock.OfferSlot?
    ensures Grounds(s, t, s.active[t], LockTimeout)
  {
  }
}
