/**
 * Optimistic versions and the timeline. These need one thing of the callers: a call
 * sends a version that was already committed when the call started. Under it every
 * write raises the version by one, the events tell the job's history, and one call at
 * most commits under each expected version. For any enabled call that sends another
 * version, or none, honest calls around it can break each of the three.
 */
module DispatchVersions {
  import opened Optional
  import opened Lifecycle
  import opened Dispatch
  import opened DispatchAlone
  import DispatchSafety

  // ---------------------------------------------------------------- the hypothesis

  /** Versions start at one and are raised by one, so the committed ones are those up to the current. */
  predicate HonestCall(db: Tables, op: Op) {
    op.Create? || (op.job in db.jobs && op.version.Some? && op.version.value <= db.jobs[op.job].version)
  }

  ghost predicate Honest(start: State, actions: seq<Action>) {
    forall i {:trigger actions[i]} :: 0 <= i < |actions| && actions[i].Begin? ==>
      HonestCall(After(start, actions[..i]).db, actions[i].op)
  }

  // ---------------------------------------------------------------- the invariant

  predicate LegalEvent(event: Event) {
    event.from.Some? &&
    (CanTransition(event.from.value, event.to) || (event.from.value == event.to && !Terminal(event.to)))
  }

  /** The events tell the whole history of the job, one per version. */
  predicate TimelineOk(events: seq<Event>, job: Job) {
    && |events| > 0 && |events| == job.version
    && events[0].from == None && events[0].to == Pending
    && (forall i :: 0 < i < |events| ==> LegalEvent(events[i]))
    && (forall i :: 0 < i < |events| ==> events[i].from == Some(events[i - 1].to))
    && events[|events| - 1].to == job.status
  }

  /** An honest call never reads less than it was sent, and equal versions mean equal rows. */
  ghost predicate CallOk(db: Tables, tx: Tx) {
    !tx.op.Create? ==>
      && HonestCall(db, tx.op)
      && (tx.phase.HasSeen() ==>
            && tx.op.version.value <= tx.phase.seen.version <= db.jobs[tx.op.job].version
            && (tx.phase.seen.version == db.jobs[tx.op.job].version ==> tx.phase.seen == db.jobs[tx.op.job]))
  }

  ghost predicate LogOk(log: seq<CommitRecord>, jobs: map<JobId, Job>) {
    && (forall i :: 0 <= i < |log| && !log[i].op.Create? ==>
          log[i].job in jobs && log[i].op.version.Some? && log[i].op.version.value < jobs[log[i].job].version)
    && (forall i, k :: 0 <= i < k < |log| && !log[i].op.Create? && !log[k].op.Create? && log[i].job == log[k].job ==>
          log[i].op.version.value < log[k].op.version.value)
  }

  ghost predicate Inv(s: State) {
    && (forall j :: j in s.db.jobs ==> TimelineOk(EventsOf(s.db, j), s.db.jobs[j]))
    && s.db.events.Keys == s.db.jobs.Keys
    && (forall t :: t in s.active ==> CallOk(s.db, s.active[t]))
    && LogOk(s.log, s.db.jobs)
  }

  // ---------------------------------------------------------------- one step

  /** At its claim an honest call has read the very row it updates, so it writes the next version. */
  lemma HonestClaim(db: Tables, t: TxId, tx: Tx)
    requires DispatchSafety.TxOk(db, t, tx) && CallOk(db, tx) && tx.phase.Recorded? && !tx.op.Create?
    ensures tx.op.version.value == db.jobs[tx.op.job].version
    ensures tx.phase.seen == db.jobs[tx.op.job]
    ensures tx.phase.row.version == db.jobs[tx.op.job].version + 1
    ensures LegalEvent(tx.phase.event)
    ensures tx.phase.event.from == Some(db.jobs[tx.op.job].status) && tx.phase.event.to == tx.phase.row.status
  {
  }

  lemma CommitTimeline(db: Tables, t: TxId, tx: Tx, j: JobId)
    requires DispatchSafety.TxOk(db, t, tx) && CallOk(db, tx) && tx.phase.Recorded? && t !in db.jobs
    requires db.events.Keys == db.jobs.Keys
    requires j in db.jobs ==> TimelineOk(EventsOf(db, j), db.jobs[j])
    requires j in db.jobs || j == JobOf(t, tx.op)
    ensures var after := Merge(db, t, tx.op, tx.phase);
            TimelineOk(EventsOf(after, j), after.jobs[j])
  {
    if !tx.op.Create? {
      HonestClaim(db, t, tx);
      if j == tx.op.job {
        TimelineGrows(EventsOf(db, j), db.jobs[j], tx.phase.event, tx.phase.row);
      }
    }
  }

  lemma TimelineGrows(events: seq<Event>, now: Job, event: Event, row: Job)
    requires TimelineOk(events, now) && LegalEvent(event) && event.from == Some(now.status) && event.to == row.status
    requires row.version == now.version + 1
    ensures TimelineOk(events + [event], row)
  {
    var all := events + [event];
    forall i | 0 < i < |all|
      ensures LegalEvent(all[i]) && all[i].from == Some(all[i - 1].to)
    {
      assert i < |events| ==> all[i] == events[i] && all[i - 1] == events[i - 1];
    }
  }

  lemma CommitOtherCall(db: Tables, t: TxId, mine: Tx, other: Tx)
    requires CallOk(db, other) && mine.phase.Recorded?
    requires if mine.op.Create? then t !in db.jobs
             else mine.op.job in db.jobs && mine.phase.row.version > db.jobs[mine.op.job].version
    ensures CallOk(Merge(db, t, mine.op, mine.phase), other)
  {
  }

  lemma CommitTimelines(db: Tables, t: TxId, tx: Tx)
    requires DispatchSafety.TxOk(db, t, tx) && CallOk(db, tx) && tx.phase.Recorded? && t !in db.jobs
    requires db.events.Keys == db.jobs.Keys && forall j :: j in db.jobs ==> TimelineOk(EventsOf(db, j), db.jobs[j])
    ensures var after := Merge(db, t, tx.op, tx.phase);
            after.events.Keys == after.jobs.Keys
            && forall j :: j in after.jobs ==> TimelineOk(EventsOf(after, j), after.jobs[j])
  {
    forall j | j in Merge(db, t, tx.op, tx.phase).jobs
      ensures var after := Merge(db, t, tx.op, tx.phase); TimelineOk(EventsOf(after, j), after.jobs[j])
    {
      CommitTimeline(db, t, tx, j);
    }
  }

  /** A commit that writes its job's next version under its expected one, or a new job. */
  predicate Raises(db: Tables, t: TxId, tx: Tx)
    requires tx.phase.Recorded?
  {
    if tx.op.Create? then t !in db.jobs
    else && tx.op.job in db.jobs && tx.op.version == Some(db.jobs[tx.op.job].version)
         && tx.phase.row.version > db.jobs[tx.op.job].version
  }

  lemma CommitCallsAndLog(s: State, t: TxId)
    requires t in s.active && s.active[t].phase.Recorded? && Raises(s.db, t, s.active[t])
    requires (forall u :: u in s.active ==> CallOk(s.db, s.active[u])) && LogOk(s.log, s.db.jobs)
    ensures var after := CommitTx(s, t);
            (forall u :: u in after.active ==> CallOk(after.db, after.active[u])) && LogOk(after.log, after.db.jobs)
  {
    var tx, after := s.active[t], CommitTx(s, t);
    forall u | u in after.active
      ensures CallOk(after.db, after.active[u])
    {
      CommitOtherCall(s.db, t, tx, s.active[u]);
    }
    CommitLog(s.log, s.db.jobs, CommitRecord(t, tx.op, JobOf(t, tx.op)), tx.phase.row);
  }

  lemma CommitKeepsInv(s: State, t: TxId)
    requires Inv(s) && t in s.active && s.active[t].phase.Recorded?
    requires DispatchSafety.TxOk(s.db, t, s.active[t]) && t !in s.db.jobs
    ensures Inv(CommitTx(s, t))
  {
    assert CallOk(s.db, s.active[t]);
    CommitTimelines(s.db, t, s.active[t]);
    assert Raises(s.db, t, s.active[t]) by {
      if !s.active[t].op.Create? {
        HonestClaim(s.db, t, s.active[t]);
      }
    }
    CommitCallsAndLog(s, t);
  }

  lemma CommitLog(log: seq<CommitRecord>, jobs: map<JobId, Job>, record: CommitRecord, row: Job)
    requires LogOk(log, jobs)
    requires !record.op.Create? ==> record.job in jobs && record.op.version == Some(jobs[record.job].version)
    requires record.job in jobs ==> row.version > jobs[record.job].version
    ensures LogOk(log + [record], jobs[record.job := row])
  {
  }

  lemma AdvanceKeepsCall(s: State, t: TxId, phase: Phase)
    requires t in s.active && CallOk(s.db, s.active[t]) && Advance(s, t, s.active[t]) == Goes(phase)
    requires DispatchSafety.TxOk(s.db, t, s.active[t])
    ensures CallOk(s.db, Tx(s.active[t].op, phase))
  {
  }

  lemma RunKeepsCalls(s: State, t: TxId)
    requires !Committing(s, Run(t))
    requires t in s.active ==> DispatchSafety.TxOk(s.db, t, s.active[t])
    requires forall u :: u in s.active ==> CallOk(s.db, s.active[u])
    ensures forall u :: u in Step(s, Run(t)).active ==> CallOk(s.db, Step(s, Run(t)).active[u])
  {
    if t in s.active {
      var verdict := Advance(s, t, s.active[t]);
      if verdict.Goes? {
        AdvanceKeepsCall(s, t, verdict.phase);
      }
    }
  }

  lemma OtherStepKeepsCalls(s: State, a: Action)
    requires !a.Run? && (a.Begin? ==> HonestCall(s.db, a.op))
    requires forall u :: u in s.active ==> CallOk(s.db, s.active[u])
    ensures forall u :: u in Step(s, a).active ==> CallOk(s.db, Step(s, a).active[u])
  {
  }

  lemma StepKeepsInv(s: State, a: Action)
    requires Inv(s) && DispatchSafety.Inv(s)
    requires a.Begin? ==> HonestCall(s.db, a.op)
    ensures Inv(Step(s, a))
  {
    OnlyCommitsWrite(s, a);
    if a.Run? && a.tx in s.active {
      assert DispatchSafety.TxOk(s.db, a.tx, s.active[a.tx]);
    }
    if Committing(s, a) {
      CommitKeepsInv(s, a.tx);
    } else {
      if a.Run? {
        RunKeepsCalls(s, a.tx);
      } else {
        OtherStepKeepsCalls(s, a);
      }
      SameRowsKeepInv(s, Step(s, a));
    }
  }

  lemma SameRowsKeepInv(s: State, after: State)
    requires Inv(s) && after.log == s.log && after.db.jobs == s.db.jobs && after.db.events == s.db.events
    requires forall t :: t in after.active ==> CallOk(s.db, after.active[t])
    ensures Inv(after)
  {
  }

  lemma {:induction false} HonestRunsKeepInv(start: State, actions: seq<Action>)
    requires Initial(start) && Honest(start, actions)
    ensures Inv(After(start, actions)) && DispatchSafety.Inv(After(start, actions))
  {
    DispatchSafety.RunsKeepInv(start, actions);
    if actions != [] {
      var n := |actions| - 1;
      assert forall i :: 0 <= i < n ==> actions[..n][..i] == actions[..i];
      HonestRunsKeepInv(start, actions[..n]);
      StepKeepsInv(After(start, actions[..n]), actions[n]);
    }
  }

  // ---------------------------------------------------------------- theorems

  /**
   * Honest callers: the events of every job start with its creation, each continues the one before,
   * each is a legal move or a self-loop on a live status, the last names the current status, and there
   * are exactly as many as the version says.
   */
  lemma TimelinesAreComplete(start: State, actions: seq<Action>)
    requires Initial(start) && Honest(start, actions)
    ensures var db := After(start, actions).db;
            forall j :: j in db.jobs ==> TimelineOk(EventsOf(db, j), db.jobs[j])
  {
    HonestRunsKeepInv(start, actions);
  }

  /** Honest callers: every action leaves every existing job alone or raises its version by exactly one. */
  lemma EveryWriteRaisesTheVersionByOne(start: State, actions: seq<Action>, a: Action, job: JobId)
    requires Initial(start) && Honest(start, actions) && job in After(start, actions).db.jobs
    ensures var before, after := After(start, actions).db.jobs, Step(After(start, actions), a).db.jobs;
            job in after && (after[job] == before[job] || after[job].version == before[job].version + 1)
  {
    HonestRunsKeepInv(start, actions);
    var s := After(start, actions);
    OnlyCommitsWrite(s, a);
    if Committing(s, a) && !s.active[a.tx].op.Create? {
      assert DispatchSafety.TxOk(s.db, a.tx, s.active[a.tx]);
      HonestClaim(s.db, a.tx, s.active[a.tx]);
    }
  }

  /** No two commits on one job carry the same expected version. */
  ghost predicate OnePerVersion(log: seq<CommitRecord>) {
    forall i, k :: 0 <= i < k < |log| && !log[i].op.Create? && !log[k].op.Create? && log[i].job == log[k].job ==>
      log[i].op.version != log[k].op.version
  }

  /** Honest callers: of all calls that carry the same expected version of a job, at most one ever commits. */
  lemma OneCommitPerExpectedVersion(start: State, actions: seq<Action>)
    requires Initial(start) && Honest(start, actions)
    ensures OnePerVersion(After(start, actions).log)
  {
    HonestRunsKeepInv(start, actions);
  }

  // ---------------------------------------------------------------- honest runs, put together

  lemma HonestAppendAt(s: State, first: seq<Action>, more: seq<Action>, i: nat)
    requires Honest(s, first) && Honest(After(s, first), more)
    requires i < |first + more| && (first + more)[i].Begin?
    ensures HonestCall(After(s, (first + more)[..i]).db, (first + more)[i].op)
  {
    var all := first + more;
    if i < |first| {
      assert all[..i] == first[..i] && all[i] == first[i];
    } else {
      assert all[..i] == first + more[..i - |first|] && all[i] == more[i - |first|];
      AfterAppend(s, first, more[..i - |first|]);
    }
  }

  /** One honest stretch after another is honest, and leads where the second leads. */
  lemma HonestThen(s: State, first: seq<Action>, more: seq<Action>)
    requires Honest(s, first) && Honest(After(s, first), more)
    ensures Honest(s, first + more) && After(s, first + more) == After(After(s, first), more)
  {
    var all := first + more;
    forall i {:trigger all[i]} | 0 <= i < |all| && all[i].Begin?
      ensures HonestCall(After(s, all[..i]).db, all[i].op)
    {
      HonestAppendAt(s, first, more, i);
    }
    AfterAppend(s, first, more);
  }

  lemma RunsAreHonest(s: State, t: TxId, n: nat)
    ensures Honest(s, Runs(t, n))
  {
    RunsOnly(t, n);
  }

  lemma BeginIsHonest(s: State, t: TxId, op: Op)
    requires HonestCall(s.db, op)
    ensures Honest(s, [Begin(t, op)])
  {
    assert [Begin(t, op)][..0] == [];
  }

  lemma CallIsHonest(s: State, t: TxId, op: Op, n: nat)
    requires HonestCall(s.db, op)
    ensures Honest(s, [Begin(t, op)] + Runs(t, n))
  {
    BeginIsHonest(s, t, op);
    RunsAreHonest(After(s, [Begin(t, op)]), t, n);
    HonestThen(s, [Begin(t, op)], Runs(t, n));
  }

  // ---------------------------------------------------------------- raising a version

  /** A reachable state with a live job whose row nobody holds. */
  ghost predicate Quiet(s: State, job: JobId) {
    DispatchSafety.Inv(s) && job in s.db.jobs && !Terminal(s.db.jobs[job].status) && Free(s, JobRow(job))
  }

  predicate Carries(record: CommitRecord, job: JobId, version: int) {
    !record.op.Create? && record.job == job && record.op.version == Some(version)
  }

  /** The state after n commits that raised the job's version and touched nothing else but its events. */
  ghost predicate Grown(s: State, after: State, job: JobId, n: nat)
    requires job in s.db.jobs
  {
    && after.active == s.active && s.used <= after.used
    && after.db == s.db.(jobs := s.db.jobs[job := s.db.jobs[job].(version := s.db.jobs[job].version + n)],
                         events := after.db.events)
    && |EventsOf(after.db, job)| == |EventsOf(s.db, job)| + n
    && s.log <= after.log && |after.log| == |s.log| + n
    && (n > 0 ==> Carries(after.log[|s.log|], job, s.db.jobs[job].version))
  }

  function Touch(s: State, job: JobId): Op
    requires job in s.db.jobs
  {
    Patch(0, job, Some(s.db.jobs[job].version), map[])
  }

  lemma CommitGrows(s: State, u: TxId, job: JobId, ready: Phase)
    requires job in s.db.jobs && u !in s.used && s.active.Keys <= s.used
    requires Enabled(s, Touch(s, job)) && Finishes(s, u, Touch(s, job), ready)
    ensures Grown(s, CommitTx(With(s, u, Tx(Touch(s, job), ready)), u), job, 1)
  {
    var now := s.db.jobs[job];
    assert now.details + map[] == now.details;
    assert s.active[u := Tx(Touch(s, job), ready)] - {u} == s.active;
    assert s.db.assignments + map[] == s.db.assignments;
  }

  /** An honest patch that meets nobody raises the version by one and leaves everybody else alone. */
  lemma RaiseOnce(s: State, job: JobId) returns (actions: seq<Action>)
    requires Quiet(s, job)
    ensures Honest(s, actions) && Grown(s, After(s, actions), job, 1) && Quiet(After(s, actions), job)
  {
    var u := FreshId(s.used);
    var n, ready := EnabledCallsCommit(s, u, Touch(s, job));
    actions := [Begin(u, Touch(s, job))] + Runs(u, n);
    CallIsHonest(s, u, Touch(s, job), n);
    CommitGrows(s, u, job, ready);
    DispatchSafety.InvAfter(s, actions);
  }

  lemma GrownChains(s: State, middle: State, after: State, job: JobId, n: nat)
    requires job in s.db.jobs && job in middle.db.jobs && n > 0
    requires Grown(s, middle, job, 1) && Grown(middle, after, job, n - 1)
    ensures Grown(s, after, job, n)
  {
    assert after.log[|s.log|] == middle.log[|s.log|];
  }

  lemma NothingGrown(s: State, job: JobId)
    requires job in s.db.jobs
    ensures Grown(s, s, job, 0)
  {
    assert s.db.jobs[job := s.db.jobs[job]] == s.db.jobs;
  }

  /** Honest calls alone can bring a quiet job to any later version. */
  lemma {:induction false} ReachVersion(s: State, job: JobId, n: nat) returns (actions: seq<Action>)
    requires Quiet(s, job)
    ensures Honest(s, actions) && Grown(s, After(s, actions), job, n) && Quiet(After(s, actions), job)
    decreases n
  {
    if n == 0 {
      actions := [];
      NothingGrown(s, job);
    } else {
      var first := RaiseOnce(s, job);
      var middle := After(s, first);
      var rest := ReachVersion(middle, job, n - 1);
      HonestThen(s, first, rest);
      GrownChains(s, middle, After(middle, rest), job, n);
      actions := first + rest;
    }
  }

  // ---------------------------------------------------------------- a version that is not committed

  /** Whenever the call is ready to commit, its commit is the next version of its job. */
  ghost predicate WritesNextVersion(s: State, t: TxId) {
    t in s.active && s.active[t].phase.Recorded? && JobOf(t, s.active[t].op) in s.db.jobs ==>
      s.active[t].phase.row.version == s.db.jobs[JobOf(t, s.active[t].op)].version + 1
  }

  /** Where others bring the job before the call claims it: to the version it sent, or past one more if it sent none. */
  function Reached(op: Op, version: int): int
    requires !op.Create?
  {
    if op.version.Some? then op.version.value else version + 2
  }

  /** A patch that has read the job one version later. */
  function Racer(job: JobId, now: Job): Tx {
    var raised := now.(version := now.version + 1);
    Tx(Patch(0, job, Some(raised.version), map[]), JobRead(raised))
  }

  /**
   * The call has read its job; since then others have raised the version to the one it sent, and another patch
   * has read the job one version later. Commit number `i`, already there or next, is under that later version.
   */
  ghost predicate Overtaken(s: State, t: TxId, op: Op, u: TxId, i: nat, after: State)
    requires Enabled(s, op)
  {
    var seen := s.db.jobs[op.job];
    var reached := Reached(op, seen.version);
    && u != t && reached > seen.version
    && Free(s, JobRow(op.job))
    && after.active == s.active[t := Tx(op, Opened(s, op))][u := Racer(op.job, s.db.jobs[op.job])]
    && after.db == s.db.(jobs := s.db.jobs[op.job := seen.(version := reached)], events := after.db.events)
    && |EventsOf(after.db, op.job)| == |EventsOf(s.db, op.job)| + (reached - seen.version)
    && i <= |after.log|
    && (if i < |after.log| then Carries(after.log[i], op.job, seen.version + 1) else reached == seen.version + 1)
  }

  lemma OpenedIsQuiet(s: State, t: TxId, op: Op)
    requires DispatchSafety.Inv(s) && Enabled(s, op) && t !in s.used
    ensures Quiet(With(s, t, Tx(op, Opened(s, op))), op.job)
  {
    OpenedKeepsInv(s, t, op);
    EnabledMatches(s, op);
  }

  /** A patch begins, reads its job, and waits. */
  lemma RacerReads(s: State, u: TxId, job: JobId)
    requires Quiet(s, job) && u !in s.used
    ensures var after := With(s, u, Tx(Touch(s, job), JobRead(s.db.jobs[job])));
            && Honest(s, [Begin(u, Touch(s, job))] + Runs(u, 1))
            && After(s, [Begin(u, Touch(s, job))] + Runs(u, 1)) == after && Quiet(after, job)
  {
    var op := Touch(s, job);
    CallIsHonest(s, u, op, 1);
    AfterOne(s, Begin(u, op), Runs(u, 1));
    Opens(s, u, op);
    OpenedIsQuiet(s, u, op);
  }

  lemma RaiseAndRace(s: State, job: JobId) returns (actions: seq<Action>, u: TxId, raised: State)
    requires Quiet(s, job)
    ensures Grown(s, raised, job, 1) && u !in raised.used
    ensures var racing := With(raised, u, Racer(job, s.db.jobs[job]));
            Honest(s, actions) && After(s, actions) == racing && Quiet(racing, job)
  {
    var first := RaiseOnce(s, job);
    raised := After(s, first);
    u := FreshId(raised.used);
    RacerReads(raised, u, job);
    var enter := [Begin(u, Touch(raised, job))] + Runs(u, 1);
    HonestThen(s, first, enter);
    actions := first + enter;
  }

  lemma GrowthOvertakes(s: State, t: TxId, op: Op, u: TxId, raised: State, after: State)
    requires Enabled(s, op) && t !in s.used && !HonestCall(s.db, op) && u !in raised.used
    requires Grown(With(s, t, Tx(op, Opened(s, op))), raised, op.job, 1)
    requires var racing := With(raised, u, Racer(op.job, s.db.jobs[op.job]));
             Grown(racing, after, op.job, Reached(op, s.db.jobs[op.job].version) - s.db.jobs[op.job].version - 1)
    ensures Overtaken(s, t, op, u, |raised.log|, after)
  {
    var seen := s.db.jobs[op.job];
    assert s.db.jobs[op.job := seen.(version := seen.version + 1)]
           [op.job := seen.(version := Reached(op, seen.version))] == after.db.jobs;
  }

  lemma BeOvertaken(s: State, t: TxId, op: Op) returns (between: seq<Action>, u: TxId, i: nat, after: State)
    requires DispatchSafety.Inv(s) && Enabled(s, op) && t !in s.used && !HonestCall(s.db, op)
    ensures var reading := With(s, t, Tx(op, Opened(s, op)));
            Honest(reading, between) && After(reading, between) == after
    ensures Overtaken(s, t, op, u, i, after) && DispatchSafety.Inv(after)
  {
    var reading := With(s, t, Tx(op, Opened(s, op)));
    OpenedIsQuiet(s, t, op);
    var first, raised;
    first, u, raised := RaiseAndRace(reading, op.job);
    var racing := With(raised, u, Racer(op.job, s.db.jobs[op.job]));
    var rest := ReachVersion(racing, op.job, Reached(op, s.db.jobs[op.job].version) - s.db.jobs[op.job].version - 1);
    HonestThen(reading, first, rest);
    between, i, after := first + rest, |raised.log|, After(racing, rest);
    GrowthOvertakes(s, t, op, u, raised, after);
  }

  // ---------------------------------------------------------------- what the late claim then does

  lemma OvertakenMayClaim(s: State, t: TxId, op: Op, u: TxId, i: nat, after: State)
    requires Enabled(s, op) && Overtaken(s, t, op, u, i, after)
    ensures MayClaim(after, t)
    ensures after.active[t].op == op && after.active[t].phase.seen == s.db.jobs[op.job]
  {
    EnabledMatches(s, op);
  }

  /** Ready to commit, it is about to write a version that is not the next. */
  lemma LateClaim(s: State, t: TxId, op: Op, u: TxId, i: nat, after: State) returns (n: nat, ready: Phase)
    requires DispatchSafety.Inv(after) && Enabled(s, op) && Overtaken(s, t, op, u, i, after)
    ensures After(after, Runs(t, n)) == Recorded(after, t, op, ready) && ready.Recorded?
    ensures ready.row.version == s.db.jobs[op.job].version + 1
    ensures !WritesNextVersion(Recorded(after, t, op, ready), t)
  {
    OvertakenMayClaim(s, t, op, u, i, after);
    n, ready := RunsToRecorded(after, t);
  }

  /** The state in which the late call is ready to commit. */
  function Recorded(after: State, t: TxId, op: Op, ready: Phase): State {
    after.(active := after.active[t := Tx(op, ready)])
  }

  /** The job's timeline is as it should be. */
  ghost predicate TimelineKept(db: Tables, job: JobId) {
    job in db.jobs ==> TimelineOk(EventsOf(db, job), db.jobs[job])
  }

  /** Once it commits, the version is behind the events. */
  lemma LateCommit(s: State, t: TxId, op: Op, u: TxId, i: nat, after: State, ready: Phase)
    requires Enabled(s, op) && Overtaken(s, t, op, u, i, after) && |EventsOf(s.db, op.job)| == s.db.jobs[op.job].version
    requires ready.Recorded? && ready.row.version == s.db.jobs[op.job].version + 1
    ensures !TimelineKept(CommitTx(Recorded(after, t, op, ready), t).db, op.job)
  {
    var last := CommitTx(Recorded(after, t, op, ready), t);
    assert |EventsOf(last.db, op.job)| == |EventsOf(after.db, op.job)| + 1;
  }

  lemma RacerFindsRowFree(s: State, t: TxId, op: Op, u: TxId, i: nat, after: State, last: State)
    requires Enabled(s, op) && Overtaken(s, t, op, u, i, after)
    requires last.active == after.active - {t}
    ensures u in last.active && last.active[u] == Racer(op.job, s.db.jobs[op.job])
    ensures !HeldByOther(last, u, JobRow(op.job))
  {
    forall w | w in last.active && w != u
      ensures !Holds(w, last.active[w], JobRow(op.job))
    {
      assert w in s.active && last.active[w] == s.active[w];
    }
  }

  lemma RacerMayClaim(s: State, u: TxId, job: JobId, now: Job)
    requires u in s.active && s.active[u] == Racer(job, now) && !HeldByOther(s, u, JobRow(job))
    requires job in s.db.jobs && s.db.jobs[job].version == now.version + 1 && !Terminal(now.status)
    ensures MayClaim(s, u)
  {
  }

  lemma RecordedDropped(after: State, t: TxId, op: Op, ready: Phase)
    ensures Recorded(after, t, op, ready).active - {t} == after.active - {t}
  {
  }

  lemma RacerCommits(s: State, u: TxId, job: JobId, now: Job) returns (m: nat, last: State)
    requires DispatchSafety.Inv(s) && MayClaim(s, u) && s.active[u] == Racer(job, now)
    ensures After(s, Runs(u, m) + [Run(u)]) == last
    ensures last.log == s.log + [CommitRecord(u, Racer(job, now).op, job)]
  {
    var ready;
    m, ready := RunsToRecorded(s, u);
    var recorded := s.(active := s.active[u := Tx(s.active[u].op, ready)]);
    AfterAppend(s, Runs(u, m), [Run(u)]);
    CommitStep(recorded, u);
    last := CommitTx(recorded, u);
  }

  lemma SameVersionTwice(before: seq<CommitRecord>, i: nat, t: TxId, op: Op, u: TxId, other: Op, job: JobId, version: int)
    requires i <= |before| && !op.Create? && op.job == job
    requires if i < |before| then Carries(before[i], job, version) else op.version == Some(version)
    requires Carries(CommitRecord(u, other, job), job, version)
    ensures !OnePerVersion(before + [CommitRecord(t, op, job)] + [CommitRecord(u, other, job)])
  {
    var log := before + [CommitRecord(t, op, job)] + [CommitRecord(u, other, job)];
    assert Carries(log[i], job, version) && Carries(log[|before| + 1], job, version);
  }

  /** The run up to the point where the late call is ready to commit. */
  lemma LateRun(s: State, t: TxId, op: Op)
    returns (actions: seq<Action>, u: TxId, i: nat, after: State, ready: Phase)
    requires DispatchSafety.Inv(s) && Enabled(s, op) && t !in s.used && !HonestCall(s.db, op)
    ensures Overtaken(s, t, op, u, i, after) && ready.Recorded?
    ensures ready.row.version == s.db.jobs[op.job].version + 1
    ensures var recorded := Recorded(after, t, op, ready);
            && Honest(With(s, t, Tx(op, Called)), actions)
            && After(With(s, t, Tx(op, Called)), actions) == recorded
            && !WritesNextVersion(recorded, t) && DispatchSafety.Inv(recorded)
  {
    var begun, reading := With(s, t, Tx(op, Called)), With(s, t, Tx(op, Opened(s, op)));
    Opens(s, t, op);
    RunsAreHonest(begun, t, Opening(op));
    var between, n;
    between, u, i, after := BeOvertaken(s, t, op);
    n, ready := LateClaim(s, t, op, u, i, after);
    RunsAreHonest(after, t, n);
    HonestThen(reading, between, Runs(t, n));
    HonestThen(begun, Runs(t, Opening(op)), between + Runs(t, n));
    actions := Runs(t, Opening(op)) + (between + Runs(t, n));
    DispatchSafety.InvAfter(after, Runs(t, n));
  }

  /** On from there: the waiting patch's commit. */
  lemma LateDouble(s: State, t: TxId, op: Op, u: TxId, i: nat, after: State, last: State) returns (more: seq<Action>)
    requires DispatchSafety.Inv(last) && MayClaim(last, u) && Enabled(s, op) && Overtaken(s, t, op, u, i, after)
    requires last.active[u] == Racer(op.job, s.db.jobs[op.job]) && last.log == after.log + [CommitRecord(t, op, op.job)]
    ensures Honest(last, more) && !OnePerVersion(After(last, more).log)
  {
    var now := s.db.jobs[op.job];
    var m, end := RacerCommits(last, u, op.job, now);
    RunsAreHonest(last, u, m);
    HonestThen(last, Runs(u, m), [Run(u)]);
    more := Runs(u, m) + [Run(u)];
    SameVersionTwice(after.log, i, t, op, u, Racer(op.job, now).op, op.job, now.version + 1);
  }

  lemma LateEnd(s: State, t: TxId, op: Op, u: TxId, i: nat, after: State, ready: Phase) returns (more: seq<Action>)
    requires DispatchSafety.Inv(Recorded(after, t, op, ready))
    requires Enabled(s, op) && Overtaken(s, t, op, u, i, after)
    requires ready.Recorded? && ready.row.version == s.db.jobs[op.job].version + 1
    ensures var last := CommitTx(Recorded(after, t, op, ready), t);
            Honest(last, more) && !OnePerVersion(After(last, more).log)
  {
    var last := CommitTx(Recorded(after, t, op, ready), t);
    DispatchSafety.CommitKeepsInv(Recorded(after, t, op, ready), t);
    EnabledMatches(s, op);
    RecordedDropped(after, t, op, ready);
    RacerFindsRowFree(s, t, op, u, i, after, last);
    RacerMayClaim(last, u, op.job, s.db.jobs[op.job]);
    more := LateDouble(s, t, op, u, i, after, last);
  }

  /**
   * Any enabled call that sends a version not yet committed, or none: honest calls around it make it write a
   * version that is not the next, break the job's timeline, and commit twice under one expected version.
   */
  lemma UncommittedVersionBreaks(s: State, t: TxId, op: Op)
    returns (ready: seq<Action>, committed: seq<Action>, doubled: seq<Action>)
    requires DispatchSafety.Inv(s) && Enabled(s, op) && t !in s.used && !HonestCall(s.db, op)
    requires |EventsOf(s.db, op.job)| == s.db.jobs[op.job].version
    ensures var begun := With(s, t, Tx(op, Called));
            && Honest(begun, ready) && !WritesNextVersion(After(begun, ready), t)
            && Honest(begun, committed) && !TimelineKept(After(begun, committed).db, op.job)
            && Honest(begun, doubled) && !OnePerVersion(After(begun, doubled).log)
  {
    var begun := With(s, t, Tx(op, Called));
    var u, i, after, phase;
    ready, u, i, after, phase := LateRun(s, t, op);
    var last := CommitTx(Recorded(after, t, op, phase), t);
    LateCommit(s, t, op, u, i, after, phase);
    var more := LateEnd(s, t, op, u, i, after, phase);
    OnToTheEnd(begun, ready, Recorded(after, t, op, phase), t, last, more);
    committed, doubled := ready + [Run(t)], ready + [Run(t)] + more;
  }

  lemma OnToTheEnd(begun: State, ready: seq<Action>, recorded: State, t: TxId, last: State, more: seq<Action>)
    requires Honest(begun, ready) && After(begun, ready) == recorded
    requires t in recorded.active && recorded.active[t].phase.Recorded? && last == CommitTx(recorded, t)
    requires Honest(last, more)
    ensures Honest(begun, ready + [Run(t)]) && After(begun, ready + [Run(t)]) == last
    ensures Honest(begun, ready + [Run(t)] + more) && After(begun, ready + [Run(t)] + more) == After(last, more)
  {
    CommitStep(recorded, t);
    HonestThen(begun, ready, [Run(t)]);
    HonestThen(begun, ready + [Run(t)], more);
  }

  // ---------------------------------------------------------------- the exact condition

  lemma HonestFrom(start: State, actions: seq<Action>, t: TxId, op: Op, more: seq<Action>)
    requires Honest(start, actions) && HonestCall(After(start, actions).db, op) && t !in After(start, actions).used
    requires Honest(With(After(start, actions), t, Tx(op, Called)), more)
    ensures var all := actions + ([Begin(t, op)] + more);
            Honest(start, all) && After(start, all) == After(With(After(start, actions), t, Tx(op, Called)), more)
  {
    var s := After(start, actions);
    AfterOne(s, Begin(t, op), []);
    assert [Begin(t, op)] + [] == [Begin(t, op)];
    BeginIsHonest(s, t, op);
    HonestThen(s, [Begin(t, op)], more);
    HonestThen(start, actions, [Begin(t, op)] + more);
  }

  lemma ReadyWrites(s: State, t: TxId)
    requires Inv(s) && DispatchSafety.Inv(s)
    ensures WritesNextVersion(s, t)
  {
    if t in s.active && s.active[t].phase.Recorded? && !s.active[t].op.Create? {
      assert DispatchSafety.TxOk(s.db, t, s.active[t]) && CallOk(s.db, s.active[t]);
      HonestClaim(s.db, t, s.active[t]);
    }
  }

  lemma CommittedVersionHolds(start: State, actions: seq<Action>, t: TxId, op: Op, more: seq<Action>)
    requires Initial(start) && Honest(start, actions) && t !in After(start, actions).used
    requires HonestCall(After(start, actions).db, op) && Honest(With(After(start, actions), t, Tx(op, Called)), more)
    ensures var after := After(With(After(start, actions), t, Tx(op, Called)), more);
            WritesNextVersion(after, t) && (op.Create? || TimelineKept(after.db, op.job)) && OnePerVersion(after.log)
  {
    HonestFrom(start, actions, t, op, more);
    HonestRunsKeepInv(start, actions + ([Begin(t, op)] + more));
    ReadyWrites(After(start, actions + ([Begin(t, op)] + more)), t);
  }

  /**
   * The exact condition, for every operation on an existing job and checkable before the call: an enabled call
   * is sure to write the next version, to keep the job's timeline, and to leave one commit per expected
   * version, however honest others interleave, if and only if it sends a version that is already committed.
   */
  lemma CommittedVersionIsTheCondition(start: State, actions: seq<Action>, t: TxId, op: Op)
    requires Initial(start) && Honest(start, actions)
    requires Enabled(After(start, actions), op) && t !in After(start, actions).used
    ensures var s := After(start, actions);
            var begun := With(s, t, Tx(op, Called));
            && (HonestCall(s.db, op) <==> forall more :: Honest(begun, more) ==> WritesNextVersion(After(begun, more), t))
            && (HonestCall(s.db, op) <==>
                forall more :: Honest(begun, more) ==> TimelineKept(After(begun, more).db, op.job))
            && (HonestCall(s.db, op) <==> forall more :: Honest(begun, more) ==> OnePerVersion(After(begun, more).log))
  {
    var s := After(start, actions);
    var begun := With(s, t, Tx(op, Called));
    if HonestCall(s.db, op) {
      forall more | Honest(begun, more)
        ensures WritesNextVersion(After(begun, more), t)
        ensures TimelineKept(After(begun, more).db, op.job) && OnePerVersion(After(begun, more).log)
      {
        CommittedVersionHolds(start, actions, t, op, more);
      }
    } else {
      HonestRunsKeepInv(start, actions);
      var ready, committed, doubled := UncommittedVersionBreaks(s, t, op);
    }
  }
}
