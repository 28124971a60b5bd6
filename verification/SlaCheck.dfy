/**
 * The SLA escalation handler under at-least-once delivery. Deliveries are handled one
 * at a time; each may crash or throw at any point between its effects and is then
 * delivered again. Between the handler's read of the job and its transaction, and
 * between deliveries, the services may change the job's status and version, but
 * nobody else writes `slaState` or escalations.
 */
module SlaCheck {
  import opened Optional
  import opened Lifecycle

  type JobId = nat

  datatype Threshold = Warning | Breach
  datatype SlaState = Ok | Warned | Breached

  datatype SlaJob = SlaJob(status: Status, version: int, sla: SlaState)
  datatype Escalation = Escalation(job: JobId, threshold: Threshold)

  /** The side effects of a delivery; a publish names the escalation row it found. */
  datatype Effect =
    | Publish(job: JobId, threshold: Threshold, escalation: Option<nat>)
    | Enqueue(job: JobId, version: int)

  datatype AckKind = LegacyNoop | MissingNoop | TerminalNoop | Escalated | Complete
  datatype Ack = Ack(job: JobId, threshold: Option<Threshold>, kind: AckKind)

  datatype Store = Store(jobs: map<JobId, SlaJob>, rows: seq<Escalation>, effects: seq<Effect>, acks: seq<Ack>)

  /** Timers of the version before thresholds carry none; anything else that is not a check is malformed. */
  datatype Payload = Legacy(job: JobId) | Check(job: JobId, threshold: Threshold) | Malformed

  /** Where a delivery dies: `Nowhere` is the clean run. A throw of the named step counts as a death before it. */
  datatype Death = Nowhere | BeforeCommit | BeforePublish | BeforeEnqueue | BeforeAck

  /** The services at work on a job. */
  datatype Change = Change(job: JobId, status: Status, version: int)

  datatype Event =
    | Service(change: Change)
    | Deliver(payload: Payload, meanwhile: seq<Change>, death: Death, lookupFails: bool)

  // ---------------------------------------------------------------- specification

  function ApplyChange(jobs: map<JobId, SlaJob>, c: Change): map<JobId, SlaJob> {
    if c.job in jobs then jobs[c.job := jobs[c.job].(status := c.status, version := c.version)]
    else jobs[c.job := SlaJob(c.status, c.version, Ok)]
  }

  function ApplyChanges(jobs: map<JobId, SlaJob>, cs: seq<Change>): map<JobId, SlaJob>
    decreases |cs|
  {
    if cs == [] then jobs else ApplyChanges(ApplyChange(jobs, cs[0]), cs[1..])
  }

  function NextSlaState(threshold: Threshold, now: SlaState): SlaState {
    if threshold == Breach then Breached else if now == Breached then Breached else Warned
  }

  predicate Recorded(rows: seq<Escalation>, job: JobId, threshold: Threshold) {
    Escalation(job, threshold) in rows
  }

  /** The identity of the row found for an escalation. */
  function RowOf(rows: seq<Escalation>, e: Escalation): (row: nat)
    requires e in rows
    ensures row < |rows| && rows[row] == e
  {
    if rows[|rows| - 1] == e then |rows| - 1 else RowOf(rows[..|rows| - 1], e)
  }

  /** What the transaction writes: nothing if the unique index aborts it. */
  function Transact(s: Store, seen: SlaJob, job: JobId, threshold: Threshold): Store
    requires job in s.jobs
  {
    if Recorded(s.rows, job, threshold) then s
    else s.(jobs := s.jobs[job := s.jobs[job].(sla := NextSlaState(threshold, seen.sla))],
            rows := s.rows + [Escalation(job, threshold)])
  }

  /** Fan-out and acknowledgement after the transaction; only a breach fans out. */
  function Conclude(s: Store, seen: SlaJob, job: JobId, threshold: Threshold, kind: AckKind, row: Option<nat>, death: Death)
    : Store
  {
    var ack := Ack(job, Some(threshold), kind);
    if threshold == Warning then (if death == Nowhere then s.(acks := s.acks + [ack]) else s)
    else if death == BeforePublish then s
    else
      var published := s.(effects := s.effects + [Publish(job, threshold, row)]);
      if death == BeforeEnqueue then published
      else
        var enqueued := published.(effects := published.effects + [Enqueue(job, seen.version)]);
        if death == BeforeAck then enqueued else enqueued.(acks := enqueued.acks + [ack])
  }

  function HandleCheck(s: Store, job: JobId, threshold: Threshold, meanwhile: seq<Change>, death: Death, lookupFails: bool)
    : Store
  {
    if job !in s.jobs then s.(acks := s.acks + [Ack(job, Some(threshold), MissingNoop)])
    else if Terminal(s.jobs[job].status) then s.(acks := s.acks + [Ack(job, Some(threshold), TerminalNoop)])
    else
      var seen := s.jobs[job];
      var moved := s.(jobs := ApplyChanges(s.jobs, meanwhile));
      if death == BeforeCommit || job !in moved.jobs then moved
      else
        var known := Recorded(moved.rows, job, threshold);
        var written := Transact(moved, seen, job, threshold);
        var row := if known && lookupFails then None
                   else if Recorded(written.rows, job, threshold) then Some(RowOf(written.rows, Escalation(job, threshold)))
                   else None;
        Conclude(written, seen, job, threshold, if known then Complete else Escalated, row, death)
  }

  function Handle(s: Store, e: Event): Store {
    match e
    case Service(c) => s.(jobs := ApplyChange(s.jobs, c))
    case Deliver(Legacy(job), _, _, _) => s.(acks := s.acks + [Ack(job, None, LegacyNoop)])
    case Deliver(Malformed, _, _, _) => s
    case Deliver(Check(job, threshold), meanwhile, death, lookupFails) =>
      HandleCheck(s, job, threshold, meanwhile, death, lookupFails)
  }

  function After(start: Store, events: seq<Event>): Store {
    if events == [] then start
    else Handle(After(start, events[..|events| - 1]), events[|events| - 1])
  }

  predicate Initial(s: Store) {
    s.rows == [] && s.effects == [] && s.acks == [] && forall j :: j in s.jobs ==> s.jobs[j].sla == Ok
  }

  // ---------------------------------------------------------------- invariants

  /** The SLA state a set of escalations stands for. */
  function StateOf(rows: seq<Escalation>, job: JobId): SlaState {
    if Recorded(rows, job, Breach) then Breached else if Recorded(rows, job, Warning) then Warned else Ok
  }

  ghost predicate JobsOk(jobs: map<JobId, SlaJob>, rows: seq<Escalation>) {
    && (forall j :: j in jobs ==> jobs[j].sla == StateOf(rows, j))
    && (forall i :: 0 <= i < |rows| ==> rows[i].job in jobs)
  }

  ghost predicate EffectOk(rows: seq<Escalation>, e: Effect) {
    && Recorded(rows, e.job, Breach)
    && (e.Publish? ==> e.threshold == Breach)
    && (e.Publish? && e.escalation.Some? ==>
          e.escalation.value < |rows| && rows[e.escalation.value] == Escalation(e.job, Breach))
  }

  ghost predicate Inv(s: Store) {
    && JobsOk(s.jobs, s.rows)
    && (forall i, k :: 0 <= i < k < |s.rows| ==> s.rows[i] != s.rows[k])
    && (forall i :: 0 <= i < |s.effects| ==> EffectOk(s.rows, s.effects[i]))
    && (forall i :: 0 <= i < |s.acks| ==> AckOk(s, s.acks[i]))
  }

  ghost predicate AckOk(s: Store, ack: Ack) {
    ack.kind in {Escalated, Complete} ==>
      && ack.threshold.Some? && Recorded(s.rows, ack.job, ack.threshold.value)
      && (ack.threshold == Some(Breach) ==> FannedOut(s.effects, ack.job))
  }

  ghost predicate FannedOut(effects: seq<Effect>, job: JobId) {
    && (exists i :: 0 <= i < |effects| && effects[i].Publish? && effects[i].job == job)
    && (exists i :: 0 <= i < |effects| && effects[i].Enqueue? && effects[i].job == job)
  }

  // ---------------------------------------------------------------- one event

  lemma ChangeKeepsJobs(jobs: map<JobId, SlaJob>, c: Change, rows: seq<Escalation>)
    requires JobsOk(jobs, rows)
    ensures JobsOk(ApplyChange(jobs, c), rows) && jobs.Keys <= ApplyChange(jobs, c).Keys
    ensures forall j :: j in jobs ==> ApplyChange(jobs, c)[j].sla == jobs[j].sla
  {
    if c.job !in jobs {
      assert forall i :: 0 <= i < |rows| ==> rows[i].job != c.job;
    }
  }

  lemma {:induction false} ChangesKeepJobs(jobs: map<JobId, SlaJob>, cs: seq<Change>, rows: seq<Escalation>)
    requires JobsOk(jobs, rows)
    ensures JobsOk(ApplyChanges(jobs, cs), rows) && jobs.Keys <= ApplyChanges(jobs, cs).Keys
    ensures forall j :: j in jobs ==> ApplyChanges(jobs, cs)[j].sla == jobs[j].sla
    decreases |cs|
  {
    if cs != [] {
      ChangeKeepsJobs(jobs, cs[0], rows);
      ChangesKeepJobs(ApplyChange(jobs, cs[0]), cs[1..], rows);
    }
  }

  /** Rows, effects and acknowledgements are only added to. */
  ghost predicate Grows(before: Store, after: Store) {
    before.rows <= after.rows && before.effects <= after.effects && before.acks <= after.acks
    && before.jobs.Keys <= after.jobs.Keys
  }

  lemma GrowthKeeps(before: Store, after: Store)
    requires Grows(before, after) && Inv(before)
    ensures forall i :: 0 <= i < |before.effects| ==> EffectOk(after.rows, after.effects[i])
    ensures forall i :: 0 <= i < |before.acks| ==> AckOk(after, after.acks[i])
  {
    forall i | 0 <= i < |before.effects|
      ensures EffectOk(after.rows, after.effects[i])
    {
      assert EffectOk(before.rows, before.effects[i]);
      RowsStay(before.rows, after.rows, before.effects[i].job, Breach);
    }
    forall i | 0 <= i < |before.acks|
      ensures AckOk(after, after.acks[i])
    {
      var ack := before.acks[i];
      assert AckOk(before, ack) && after.acks[i] == ack;
      if ack.kind in {Escalated, Complete} {
        RowsStay(before.rows, after.rows, ack.job, ack.threshold.value);
        if ack.threshold == Some(Breach) {
          FanOutStays(before.effects, after.effects, ack.job);
        }
      }
    }
  }

  lemma RowsStay(rows: seq<Escalation>, more: seq<Escalation>, job: JobId, threshold: Threshold)
    requires rows <= more && Recorded(rows, job, threshold)
    ensures Recorded(more, job, threshold)
  {
    var i :| 0 <= i < |rows| && rows[i] == Escalation(job, threshold);
    assert more[i] == rows[i];
  }

  lemma FanOutStays(effects: seq<Effect>, more: seq<Effect>, job: JobId)
    requires effects <= more && FannedOut(effects, job)
    ensures FannedOut(more, job)
  {
    var i :| 0 <= i < |effects| && effects[i].Publish? && effects[i].job == job;
    var k :| 0 <= k < |effects| && effects[k].Enqueue? && effects[k].job == job;
    assert more[i] == effects[i] && more[k] == effects[k];
  }

  lemma FanOutAdded(effects: seq<Effect>, job: JobId, row: Option<nat>, version: int)
    ensures FannedOut(effects + [Publish(job, Breach, row)] + [Enqueue(job, version)], job)
  {
    var all := effects + [Publish(job, Breach, row)] + [Enqueue(job, version)];
    assert all[|effects|].Publish? && all[|effects| + 1].Enqueue?;
  }

  /** The transaction: state and escalation move together, or a known escalation leaves both alone. */
  lemma TransactKeepsInv(s: Store, seen: SlaJob, job: JobId, threshold: Threshold)
    requires Inv(s) && job in s.jobs && seen.sla == s.jobs[job].sla
    ensures Inv(Transact(s, seen, job, threshold)) && Grows(s, Transact(s, seen, job, threshold))
    ensures Recorded(Transact(s, seen, job, threshold).rows, job, threshold)
  {
    var after := Transact(s, seen, job, threshold);
    if !Recorded(s.rows, job, threshold) {
      var e := Escalation(job, threshold);
      assert after.rows[|s.rows|] == e;
      forall j, t
        ensures Recorded(after.rows, j, t) <==> Recorded(s.rows, j, t) || Escalation(j, t) == e
      {
        if Recorded(s.rows, j, t) { RowsStay(s.rows, after.rows, j, t); }
      }
      GrowthKeeps(s, after);
    }
  }

  lemma ConcludeKeepsInv(s: Store, seen: SlaJob, job: JobId, threshold: Threshold, kind: AckKind, row: Option<nat>, death: Death)
    requires Inv(s) && Recorded(s.rows, job, threshold) && kind in {Escalated, Complete}
    requires row.Some? ==> row.value < |s.rows| && s.rows[row.value] == Escalation(job, threshold)
    ensures Inv(Conclude(s, seen, job, threshold, kind, row, death))
    ensures Grows(s, Conclude(s, seen, job, threshold, kind, row, death))
  {
    var after := Conclude(s, seen, job, threshold, kind, row, death);
    GrowthKeeps(s, after);
    FanOutAdded(s.effects, job, row, seen.version);
    forall i | 0 <= i < |after.effects|
      ensures EffectOk(after.rows, after.effects[i])
    {
      assert i >= |s.effects| ==> after.effects[i].job == job;
    }
    forall i | 0 <= i < |after.acks|
      ensures AckOk(after, after.acks[i])
    {
      assert i >= |s.acks| ==> after.acks[i] == Ack(job, Some(threshold), kind);
      assert i >= |s.acks| && threshold == Breach ==> FannedOut(after.effects, job);
    }
  }

  lemma NoopKeepsInv(s: Store, ack: Ack)
    requires Inv(s) && ack.kind !in {Escalated, Complete}
    ensures Inv(s.(acks := s.acks + [ack]))
  {
    var after := s.(acks := s.acks + [ack]);
    GrowthKeeps(s, after);
    assert forall i :: 0 <= i < |after.acks| ==> i < |s.acks| || after.acks[i] == ack;
  }

  lemma HandleKeepsInv(s: Store, e: Event)
    requires Inv(s)
    ensures Inv(Handle(s, e)) && Grows(s, Handle(s, e))
  {
    match e
    case Service(c) => ChangeKeepsJobs(s.jobs, c, s.rows); GrowthKeeps(s, Handle(s, e));
    case Deliver(Legacy(job), _, _, _) => NoopKeepsInv(s, Ack(job, None, LegacyNoop));
    case Deliver(Malformed, _, _, _) =>
    case Deliver(Check(job, threshold), meanwhile, death, lookupFails) =>
      CheckKeepsInv(s, job, threshold, meanwhile, death, lookupFails);
  }

  lemma CheckKeepsInv(s: Store, job: JobId, threshold: Threshold, meanwhile: seq<Change>, death: Death, lookupFails: bool)
    requires Inv(s)
    ensures Inv(HandleCheck(s, job, threshold, meanwhile, death, lookupFails))
    ensures Grows(s, HandleCheck(s, job, threshold, meanwhile, death, lookupFails))
  {
    if job !in s.jobs {
      NoopKeepsInv(s, Ack(job, Some(threshold), MissingNoop));
    } else if Terminal(s.jobs[job].status) {
      NoopKeepsInv(s, Ack(job, Some(threshold), TerminalNoop));
    } else {
      var seen, moved := s.jobs[job], s.(jobs := ApplyChanges(s.jobs, meanwhile));
      ChangesKeepJobs(s.jobs, meanwhile, s.rows);
      GrowthKeeps(s, moved);
      if death != BeforeCommit {
        TransactKeepsInv(moved, seen, job, threshold);
        var known, written := Recorded(moved.rows, job, threshold), Transact(moved, seen, job, threshold);
        var row := if known && lookupFails then None else Some(RowOf(written.rows, Escalation(job, threshold)));
        ConcludeKeepsInv(written, seen, job, threshold, if known then Complete else Escalated, row, death);
      }
    }
  }

  lemma {:induction false} RunsKeepInv(start: Store, events: seq<Event>)
    requires Initial(start)
    ensures Inv(After(start, events))
  {
    if events != [] {
      RunsKeepInv(start, events[..|events| - 1]);
      HandleKeepsInv(After(start, events[..|events| - 1]), events[|events| - 1]);
    }
  }

  // ---------------------------------------------------------------- theorems

  /** The SLA state of every job is a function of its escalations: a BREACH row, only a WARNING row, or none. */
  lemma StateFollowsEscalations(start: Store, events: seq<Event>, job: JobId)
    requires Initial(start) && job in After(start, events).jobs
    ensures var s := After(start, events);
            s.jobs[job].sla == if Escalation(job, Breach) in s.rows then Breached
                               else if Escalation(job, Warning) in s.rows then Warned else Ok
  {
    RunsKeepInv(start, events);
  }

  /** At most one escalation per job and threshold, over any schedule of deaths and redeliveries. */
  lemma OneEscalationEach(start: Store, events: seq<Event>, i: nat, k: nat)
    requires Initial(start) && i < |After(start, events).rows| && k < |After(start, events).rows|
    requires After(start, events).rows[i] == After(start, events).rows[k]
    ensures i == k
  {
    RunsKeepInv(start, events);
  }

  /**
   * A fan-out is a breach's, never a warning's, and never precedes the durable row: at every point of every
   * run each effect so far has its row. An effect that names a row names that one.
   */
  lemma FanOutHasItsRow(start: Store, events: seq<Event>, i: nat)
    requires Initial(start) && i < |After(start, events).effects|
    ensures var s := After(start, events);
            && Recorded(s.rows, s.effects[i].job, Breach)
            && (s.effects[i].Publish? ==> s.effects[i].threshold == Breach)
            && (s.effects[i].Publish? && s.effects[i].escalation.Some? ==>
                  s.effects[i].escalation.value < |s.rows|
                  && s.rows[s.effects[i].escalation.value] == Escalation(s.effects[i].job, Breach))
  {
    RunsKeepInv(start, events);
    assert EffectOk(After(start, events).rows, After(start, events).effects[i]);
  }

  /** A delivery acknowledged as escalated or complete has its row, and a breach has been published and enqueued. */
  lemma AcknowledgedMeansDone(start: Store, events: seq<Event>, i: nat)
    requires Initial(start) && i < |After(start, events).acks|
    requires After(start, events).acks[i].kind in {Escalated, Complete}
    ensures var s := After(start, events);
            && s.acks[i].threshold.Some? && Recorded(s.rows, s.acks[i].job, s.acks[i].threshold.value)
            && (s.acks[i].threshold == Some(Breach) ==> FannedOut(s.effects, s.acks[i].job))
  {
    RunsKeepInv(start, events);
    assert AckOk(After(start, events), After(start, events).acks[i]);
  }

  /**
   * A delivery that does not die is acknowledged exactly once, and fans out exactly when it is a live job's
   * breach: then it publishes and enqueues once each, in this order, the enqueue with the version it read.
   */
  lemma CleanDeliveryIsAcknowledged(s: Store, job: JobId, threshold: Threshold, meanwhile: seq<Change>, lookupFails: bool)
    returns (kind: AckKind, row: Option<nat>)
    requires JobsOk(s.jobs, s.rows)
    ensures
      var after := Handle(s, Deliver(Check(job, threshold), meanwhile, Nowhere, lookupFails));
      var live := job in s.jobs && !Terminal(s.jobs[job].status);
      && after.acks == s.acks + [Ack(job, Some(threshold), kind)]
      && (kind in {Escalated, Complete} <==> live)
      && (kind == MissingNoop <==> job !in s.jobs)
      && (kind == TerminalNoop <==> job in s.jobs && Terminal(s.jobs[job].status))
      && (kind == Escalated <==> live && Escalation(job, threshold) !in s.rows)
      && (live ==> (row.None? <==> Escalation(job, threshold) in s.rows && lookupFails))
      && (live && row.Some? ==> row.value < |after.rows| && after.rows[row.value] == Escalation(job, threshold))
      && after.effects ==
         if live && threshold == Breach
         then s.effects + [Publish(job, Breach, row)] + [Enqueue(job, s.jobs[job].version)] else s.effects
  {
    row := None;
    if job !in s.jobs {
      kind := MissingNoop;
    } else if Terminal(s.jobs[job].status) {
      kind := TerminalNoop;
    } else {
      ChangesKeepJobs(s.jobs, meanwhile, s.rows);
      var moved := s.(jobs := ApplyChanges(s.jobs, meanwhile));
      var known, written := Recorded(moved.rows, job, threshold), Transact(moved, s.jobs[job], job, threshold);
      assert known || written.rows[|moved.rows|] == Escalation(job, threshold);
      kind := if known then Complete else Escalated;
      row := if known && lookupFails then None else Some(RowOf(written.rows, Escalation(job, threshold)));
    }
  }

  /**
   * What is not a live job's check: an old timer, one for a job that is gone, and one for a finished job each
   * leave exactly one acknowledgement that says so and touch nothing else; a malformed one leaves nothing at all.
   */
  lemma NoopsOnlyAcknowledge(s: Store, payload: Payload, meanwhile: seq<Change>, death: Death, lookupFails: bool)
    ensures
      var after := Handle(s, Deliver(payload, meanwhile, death, lookupFails));
      && (payload.Legacy? ==> after == Store(s.jobs, s.rows, s.effects, s.acks + [Ack(payload.job, None, LegacyNoop)]))
      && (payload.Malformed? ==> after == s)
      && (payload.Check? && payload.job !in s.jobs ==>
            after == Store(s.jobs, s.rows, s.effects, s.acks + [Ack(payload.job, Some(payload.threshold), MissingNoop)]))
      && (payload.Check? && payload.job in s.jobs && s.jobs[payload.job].status in {Completed, Cancelled, Failed} ==>
            after == Store(s.jobs, s.rows, s.effects, s.acks + [Ack(payload.job, Some(payload.threshold), TerminalNoop)]))
  {
  }

  /**
   * A live job's delivery that dies leaves what came before its death and no acknowledgement: the row once it
   * has committed, and of a breach the publish, then the enqueue.
   */
  lemma DyingDeliveryLeavesItsTrail(s: Store, job: JobId, threshold: Threshold, meanwhile: seq<Change>, death: Death,
                                    lookupFails: bool)
    returns (row: Option<nat>)
    requires JobsOk(s.jobs, s.rows) && death != Nowhere
    requires job in s.jobs && s.jobs[job].status !in {Completed, Cancelled, Failed}
    ensures
      var after := Handle(s, Deliver(Check(job, threshold), meanwhile, death, lookupFails));
      && after.acks == s.acks
      && after.rows == (if death == BeforeCommit || Escalation(job, threshold) in s.rows then s.rows
                        else s.rows + [Escalation(job, threshold)])
      && after.effects ==
         s.effects + (if threshold == Breach && death in {BeforeEnqueue, BeforeAck} then [Publish(job, Breach, row)] else [])
                   + (if threshold == Breach && death == BeforeAck then [Enqueue(job, s.jobs[job].version)] else [])
  {
    ChangesKeepJobs(s.jobs, meanwhile, s.rows);
    var moved := s.(jobs := ApplyChanges(s.jobs, meanwhile));
    var known, written := Recorded(moved.rows, job, threshold), Transact(moved, s.jobs[job], job, threshold);
    row := None;
    if death != BeforeCommit {
      assert known || written.rows[|moved.rows|] == Escalation(job, threshold);
      row := if known && lookupFails then None else Some(RowOf(written.rows, Escalation(job, threshold)));
    }
  }

  // ---------------------------------------------------------------- order and duplicates do not matter

  /** A delivery of this threshold that reaches its commit. */
  predicate Hits(e: Event, job: JobId, threshold: Threshold) {
    e.Deliver? && e.payload == Check(job, threshold) && e.death != BeforeCommit
  }

  predicate HitBy(events: seq<Event>, job: JobId, threshold: Threshold) {
    exists i :: 0 <= i < |events| && Hits(events[i], job, threshold)
  }

  predicate DeliversTo(e: Event, job: JobId) {
    e.Deliver? && e.payload.Check? && e.payload.job == job
  }

  /** The job is there and live whenever a delivery reads it. */
  ghost predicate AlwaysLive(start: Store, events: seq<Event>, job: JobId) {
    forall i {:trigger events[i]} :: 0 <= i < |events| && DeliversTo(events[i], job) ==>
      job in After(start, events[..i]).jobs && !Terminal(After(start, events[..i]).jobs[job].status)
  }

  /** The only way a row comes about: a live job's delivery that reaches its commit and finds no row. */
  lemma RowsAfter(s: Store, e: Event)
    requires JobsOk(s.jobs, s.rows)
    ensures Handle(s, e).rows ==
            if e.Deliver? && e.payload.Check? && e.payload.job in s.jobs && !Terminal(s.jobs[e.payload.job].status)
               && e.death != BeforeCommit && !Recorded(s.rows, e.payload.job, e.payload.threshold)
            then s.rows + [Escalation(e.payload.job, e.payload.threshold)] else s.rows
  {
    if e.Deliver? && e.payload.Check? && e.payload.job in s.jobs {
      ChangesKeepJobs(s.jobs, e.meanwhile, s.rows);
    }
  }

  lemma HandleRecords(s: Store, e: Event, job: JobId, threshold: Threshold)
    requires JobsOk(s.jobs, s.rows)
    requires DeliversTo(e, job) ==> job in s.jobs && !Terminal(s.jobs[job].status)
    ensures Recorded(Handle(s, e).rows, job, threshold) <==> Recorded(s.rows, job, threshold) || Hits(e, job, threshold)
  {
    RowsAfter(s, e);
    var row := Escalation(job, threshold);
    if Handle(s, e).rows != s.rows {
      var added := Escalation(e.payload.job, e.payload.threshold);
      assert row in s.rows + [added] <==> row in s.rows || row == added;
    }
  }

  lemma HitBySplits(events: seq<Event>, job: JobId, threshold: Threshold)
    requires events != []
    ensures HitBy(events, job, threshold) <==>
            HitBy(events[..|events| - 1], job, threshold) || Hits(events[|events| - 1], job, threshold)
  {
    var before := events[..|events| - 1];
    if HitBy(before, job, threshold) {
      var i :| 0 <= i < |before| && Hits(before[i], job, threshold);
      assert Hits(events[i], job, threshold);
    }
    if HitBy(events, job, threshold) {
      var i :| 0 <= i < |events| && Hits(events[i], job, threshold);
      assert i < |before| ==> Hits(before[i], job, threshold);
    }
  }

  lemma LiveBefore(start: Store, events: seq<Event>, job: JobId)
    requires AlwaysLive(start, events, job) && events != []
    ensures AlwaysLive(start, events[..|events| - 1], job)
    ensures DeliversTo(events[|events| - 1], job) ==>
              && job in After(start, events[..|events| - 1]).jobs
              && !Terminal(After(start, events[..|events| - 1]).jobs[job].status)
  {
    var before := events[..|events| - 1];
    assert forall i :: 0 <= i < |before| ==> before[..i] == events[..i] && before[i] == events[i];
  }

  lemma {:induction false} RecordedIffHit(start: Store, events: seq<Event>, job: JobId, threshold: Threshold)
    requires Initial(start) && AlwaysLive(start, events, job)
    ensures Recorded(After(start, events).rows, job, threshold) <==> HitBy(events, job, threshold)
  {
    if events != [] {
      var before := events[..|events| - 1];
      LiveBefore(start, events, job);
      RecordedIffHit(start, before, job, threshold);
      RunsKeepInv(start, before);
      HandleRecords(After(start, before), events[|events| - 1], job, threshold);
      HitBySplits(events, job, threshold);
    }
  }

  /**
   * Any two schedules that hit a live job with the same set of thresholds, in any order, with any duplicates,
   * deaths and other traffic, end with the same escalations and the same SLA state.
   */
  lemma OrderAndDuplicatesDoNotMatter(start: Store, one: seq<Event>, two: seq<Event>, job: JobId)
    requires Initial(start) && AlwaysLive(start, one, job) && AlwaysLive(start, two, job)
    requires job in After(start, one).jobs && job in After(start, two).jobs
    requires forall t :: HitBy(one, job, t) <==> HitBy(two, job, t)
    ensures After(start, one).jobs[job].sla == After(start, two).jobs[job].sla
    ensures forall t :: Recorded(After(start, one).rows, job, t) <==> Recorded(After(start, two).rows, job, t)
  {
    forall t
      ensures Recorded(After(start, one).rows, job, t) <==> Recorded(After(start, two).rows, job, t)
    {
      RecordedIffHit(start, one, job, t);
      RecordedIffHit(start, two, job, t);
    }
    StateIsOfTheRows(start, one, job);
    StateIsOfTheRows(start, two, job);
  }

  lemma StateIsOfTheRows(start: Store, events: seq<Event>, job: JobId)
    requires Initial(start) && job in After(start, events).jobs
    ensures After(start, events).jobs[job].sla == StateOf(After(start, events).rows, job)
  {
    RunsKeepInv(start, events);
  }

  // ---------------------------------------------------------------- the handler

  /** The worker's view of the database and of the queue it acknowledges to. */
  class Worker {
    var jobs: map<JobId, SlaJob>
    var rows: seq<Escalation>
    var effects: seq<Effect>
    var acks: seq<Ack>

    function View(): Store
      reads this
    {
      Store(jobs, rows, effects, acks)
    }

    constructor (jobs: map<JobId, SlaJob>)
      ensures View() == Store(jobs, [], [], [])
    {
      this.jobs, rows, effects, acks := jobs, [], [], [];
    }

    /** The services change jobs while the handler is between two statements. */
    method Meanwhile(changes: seq<Change>)
      modifies this
      ensures View() == old(View()).(jobs := ApplyChanges(old(jobs), changes))
    {
      ghost var jobs0 := jobs;
      for i := 0 to |changes|
        invariant rows == old(rows) && effects == old(effects) && acks == old(acks)
        invariant ApplyChanges(jobs, changes[i..]) == ApplyChanges(jobs0, changes)
      {
        assert changes[i..][0] == changes[i] && changes[i..][1..] == changes[i + 1..];
        jobs := ApplyChange(jobs, changes[i]);
      }
    }

    /** One transaction: the state update and the escalation, both undone by a duplicate. */
    method Escalate(job: JobId, threshold: Threshold, next: SlaState) returns (created: bool)
      requires job in jobs
      modifies this
      ensures created <==> !Recorded(old(rows), job, threshold)
      ensures effects == old(effects) && acks == old(acks)
      ensures created ==> rows == old(rows) + [Escalation(job, threshold)]
                          && jobs == old(jobs)[job := old(jobs)[job].(sla := next)]
      ensures !created ==> rows == old(rows) && jobs == old(jobs)
    {
      var savedJobs := jobs;
      jobs := jobs[job := jobs[job].(sla := next)];
      if Recorded(rows, job, threshold) {
        jobs := savedJobs;
        return false;
      }
      rows := rows + [Escalation(job, threshold)];
      created := true;
    }

    /** Publishes and enqueues; a death in between leaves what was done. */
    method PublishBreachSideEffects(job: JobId, version: int, row: Option<nat>, death: Death) returns (survived: bool)
      modifies this
      ensures jobs == old(jobs) && rows == old(rows) && acks == old(acks)
      ensures survived <==> death !in {BeforePublish, BeforeEnqueue}
      ensures effects == old(effects) + (if death == BeforePublish then [] else [Publish(job, Breach, row)])
                                      + (if survived then [Enqueue(job, version)] else [])
    {
      if death == BeforePublish {
        return false;
      }
      effects := effects + [Publish(job, Breach, row)];
      if death == BeforeEnqueue {
        return false;
      }
      effects := effects + [Enqueue(job, version)];
      survived := true;
    }

    /** The part that runs once the job is found: the terminal no-op, or escalation and fan-out. */
    method OnJobFound(job: JobId, threshold: Threshold, meanwhile: seq<Change>, death: Death, lookupFails: bool)
      requires job in jobs
      modifies this
      ensures View() == HandleCheck(old(View()), job, threshold, meanwhile, death, lookupFails)
    {
      var seen := jobs[job];
      if Terminal(seen.status) {
        acks := acks + [Ack(job, Some(threshold), TerminalNoop)];
        return;
      }
      var nextSlaState :=
        if threshold == Breach then Breached else if seen.sla == Breached then Breached else Warned;
      Meanwhile(meanwhile);
      if death == BeforeCommit || job !in jobs {
        return;
      }
      var created := Escalate(job, threshold, nextSlaState);
      if threshold == Breach {
        var row := if !created && lookupFails then None else Some(RowOf(rows, Escalation(job, threshold)));
        var survived := PublishBreachSideEffects(job, seen.version, row, death);
        if !survived {
          return;
        }
      }
      if death == Nowhere {
        acks := acks + [Ack(job, Some(threshold), if created then Escalated else Complete)];
      }
    }

    method HandleSlaCheck(payload: Payload, meanwhile: seq<Change>, death: Death, lookupFails: bool)
      modifies this
      ensures View() == Handle(old(View()), Deliver(payload, meanwhile, death, lookupFails))
    {
      if payload.Legacy? {
        acks := acks + [Ack(payload.job, None, LegacyNoop)];
        return;
      }
      if payload.Malformed? {
        return;
      }
      if payload.job !in jobs {
        acks := acks + [Ack(payload.job, Some(payload.threshold), MissingNoop)];
        return;
      }
      OnJobFound(payload.job, payload.threshold, meanwhile, death, lookupFails);
    }
  }
}
