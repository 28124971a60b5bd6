/**
 * SLA timers: the deterministic queue identities, the DG-4 delays, and the post-commit
 * hook that arms a job's clock on assignment and disarms it on any other transition.
 *
 * The queue is a map from timer identity to one stored entry. Between hooks the queue
 * may move entries between its states in any way. Times are milliseconds.
 */
module SlaTimers {
  import opened Optional
  import opened Lifecycle

  type JobId = nat

  datatype Threshold = Warning | Breach

  datatype TimerId = TimerId(job: JobId, threshold: Threshold)

  datatype EntryState = Delayed | Waiting | Active | Completed | Failed

  datatype Policy = Policy(id: nat, createdAt: int, warningMinutesBefore: nat, breachMinutesAfter: nat)

  /** The promise frozen at assignment, with the request that made it. */
  datatype Payload = Payload(
    job: JobId, threshold: Threshold, request: nat, policy: nat,
    warningMinutesBefore: nat, breachMinutesAfter: nat, dueAt: int)

  datatype Entry = Entry(state: EntryState, payload: Payload, runnableAt: int)

  const SLA_THRESHOLDS: seq<Threshold> := [Warning, Breach]
  const MINUTE_MS := 60_000

  predicate StillPending(state: EntryState) {
    state.Delayed? || state.Waiting?
  }

  // ---------------------------------------------------------------- DG-4

  /** When the promise says a threshold fires. */
  function FireAt(p: Payload): int {
    if p.threshold == Warning then p.dueAt - p.warningMinutesBefore * MINUTE_MS
    else p.dueAt + p.breachMinutesAfter * MINUTE_MS
  }

  /** The wait ends at the promised minutes before or after the due time; a time already past is not waited for. */
  function SlaDelayMs(p: Payload, now: int): (delay: nat)
    ensures p.threshold == Warning && delay > 0 ==> now + delay == p.dueAt - p.warningMinutesBefore * 60_000
    ensures p.threshold == Warning && delay == 0 ==> p.dueAt - p.warningMinutesBefore * 60_000 <= now
    ensures p.threshold == Breach && delay > 0 ==> now + delay == p.dueAt + p.breachMinutesAfter * 60_000
    ensures p.threshold == Breach && delay == 0 ==> p.dueAt + p.breachMinutesAfter * 60_000 <= now
  {
    if FireAt(p) > now then FireAt(p) - now else 0
  }

  // ---------------------------------------------------------------- specification of the hook

  /** Earlier created wins, the identity breaks ties. */
  predicate Precedes(p: Policy, q: Policy) {
    p.createdAt < q.createdAt || (p.createdAt == q.createdAt && p.id <= q.id)
  }

  /** The organization's promise source among the policies on file. */
  function EarliestPolicy(policies: seq<Policy>): (first: Option<Policy>)
    ensures first.None? <==> policies == []
    ensures first.Some? ==> first.value in policies
    ensures first.Some? ==>
              forall p :: p in policies ==>
                && first.value.createdAt <= p.createdAt
                && (first.value.createdAt == p.createdAt ==> first.value.id <= p.id)
  {
    if policies == [] then None
    else
      var rest := EarliestPolicy(policies[1..]);
      assert policies == [policies[0]] + policies[1..];
      if rest.None? || Precedes(policies[0], rest.value) then Some(policies[0]) else rest
  }

  /** What the hook reads: the job it was called for, the policies on file, and two clock readings. */
  datatype Hook = Hook(job: JobId, status: Status, dueAt: int, request: nat, policies: seq<Policy>, now: int, later: int)

  predicate ClockRuns(h: Hook) {
    h.now <= h.later
  }

  function Promise(h: Hook, threshold: Threshold): Payload
    requires h.policies != []
  {
    var p := EarliestPolicy(h.policies).value;
    Payload(h.job, threshold, h.request, p.id, p.warningMinutesBefore, p.breachMinutesAfter, h.dueAt)
  }

  /** The entry a fresh promise is stored as: the delay is computed first, the queue adds it a little later. */
  function FreshEntry(h: Hook, threshold: Threshold): Entry
    requires h.policies != []
  {
    var delay := SlaDelayMs(Promise(h, threshold), h.now);
    Entry(if delay > 0 then Delayed else Waiting, Promise(h, threshold), h.later + delay)
  }

  /** Removal fails on an entry a worker is processing. */
  function Dropped(entries: map<TimerId, Entry>, id: TimerId): map<TimerId, Entry> {
    if Processing(entries, id) then entries else entries - {id}
  }

  function DroppedPair(entries: map<TimerId, Entry>, job: JobId): map<TimerId, Entry> {
    Dropped(Dropped(entries, TimerId(job, Warning)), TimerId(job, Breach))
  }

  /** Collapses onto work under way, otherwise arms fresh under the same identity. */
  function Armed(entries: map<TimerId, Entry>, id: TimerId, entry: Entry): map<TimerId, Entry> {
    if id in entries && (StillPending(entries[id].state) || Processing(entries, id)) then entries
    else entries[id := entry]
  }

  function AfterHook(entries: map<TimerId, Entry>, h: Hook): map<TimerId, Entry> {
    if h.status != Assigned then DroppedPair(entries, h.job)
    else if h.policies == [] then entries
    else
      var dropped := DroppedPair(entries, h.job);
      Armed(Armed(dropped, TimerId(h.job, Warning), FreshEntry(h, Warning)), TimerId(h.job, Breach), FreshEntry(h, Breach))
  }

  // ---------------------------------------------------------------- the last hook decides

  datatype World = World(entries: map<TimerId, Entry>, policies: seq<Policy>)

  datatype Event =
    | Commit(hook: Hook)
    | QueueMoves(id: TimerId, state: EntryState)
    | QueueForgets(id: TimerId)
    | PolicyEdit(policies: seq<Policy>)

  function Apply(w: World, e: Event): World {
    match e
    case Commit(h) => w.(entries := AfterHook(w.entries, h.(policies := w.policies)))
    case QueueMoves(id, state) =>
      if id in w.entries then w.(entries := w.entries[id := w.entries[id].(state := state)]) else w
    case QueueForgets(id) => w.(entries := w.entries - {id})
    case PolicyEdit(policies) => w.(policies := policies)
  }

  function After(start: World, events: seq<Event>): World {
    if events == [] then start else Apply(After(start, events[..|events| - 1]), events[|events| - 1])
  }

  predicate Processing(entries: map<TimerId, Entry>, id: TimerId) {
    id in entries && entries[id].state == Active
  }

  ghost predicate NoneActive(entries: map<TimerId, Entry>, job: JobId) {
    forall t: Threshold :: !Processing(entries, TimerId(job, t))
  }

  /** When a threshold of the policy is due: so many minutes before the job's due time, or after it. */
  function DueTime(policy: Policy, dueAt: int, t: Threshold): (due: int)
    ensures t == Warning ==> due == dueAt - policy.warningMinutesBefore * 60_000
    ensures t == Breach ==> due == dueAt + policy.breachMinutesAfter * 60_000
  {
    match t
    case Warning => dueAt - policy.warningMinutesBefore * MINUTE_MS
    case Breach => dueAt + policy.breachMinutesAfter * MINUTE_MS
  }

  /**
   * One timer pending, frozen to the earliest policy's promise: runnable at its due time when that is ahead,
   * moved by no more than the queue's clock has run on since the hook read its own, and at once otherwise.
   */
  predicate TimerArmed(entries: map<TimerId, Entry>, h: Hook, t: Threshold)
    requires h.policies != []
  {
    var id, policy := TimerId(h.job, t), EarliestPolicy(h.policies).value;
    var due := DueTime(policy, h.dueAt, t);
    && id in entries
    && entries[id].payload ==
       Payload(h.job, t, h.request, policy.id, policy.warningMinutesBefore, policy.breachMinutesAfter, h.dueAt)
    && entries[id].state == (if h.now < due then Delayed else Waiting)
    && entries[id].runnableAt == (if h.now < due then due + (h.later - h.now) else h.later)
  }

  ghost predicate ArmedBy(entries: map<TimerId, Entry>, h: Hook)
    requires h.policies != []
  {
    forall t: Threshold :: TimerArmed(entries, h, t)
  }

  ghost predicate Disarmed(entries: map<TimerId, Entry>, job: JobId) {
    forall t: Threshold :: TimerId(job, t) !in entries
  }

  predicate OthersAlike(before: map<TimerId, Entry>, after: map<TimerId, Entry>, job: JobId) {
    && (forall id :: id in before && id.job != job ==> id in after && after[id] == before[id])
    && (forall id :: id in after && id.job != job ==> id in before)
  }

  lemma DroppedPairGone(entries: map<TimerId, Entry>, job: JobId, t: Threshold)
    ensures var id := TimerId(job, t);
            id in DroppedPair(entries, job) <==> Processing(entries, id)
    ensures var id := TimerId(job, t);
            id in DroppedPair(entries, job) ==> DroppedPair(entries, job)[id] == entries[id]
    ensures OthersAlike(entries, DroppedPair(entries, job), job)
  {
  }

  lemma DroppedPairIs(entries: map<TimerId, Entry>, job: JobId)
    ensures forall id :: id in DroppedPair(entries, job) <==> id in entries && (id.job == job ==> entries[id].state == Active)
    ensures forall id :: id in DroppedPair(entries, job) ==> DroppedPair(entries, job)[id] == entries[id]
  {
    forall id: TimerId
      ensures id.job == job ==> id == TimerId(job, Warning) || id == TimerId(job, Breach)
    {
      match id.threshold
      case Warning =>
      case Breach =>
    }
  }

  lemma TimerArmedIffIdle(entries: map<TimerId, Entry>, h: Hook, t: Threshold)
    requires h.status == Assigned && h.policies != [] && ClockRuns(h)
    ensures TimerArmed(AfterHook(entries, h), h, t) <==> !Processing(entries, TimerId(h.job, t))
    ensures OthersAlike(entries, AfterHook(entries, h), h.job)
  {
    var dropped := DroppedPair(entries, h.job);
    DroppedPairGone(entries, h.job, t);
    var id := TimerId(h.job, t);
    assert id !in dropped ==> AfterHook(entries, h)[id] == FreshEntry(h, t);
    assert id in dropped ==> AfterHook(entries, h)[id] == entries[id];
  }

  /**
   * Whatever entries a job has before its last hook: ASSIGNED with a policy leaves exactly the fresh pair if
   * and only if no evaluation of the job was being processed at that moment; other jobs' timers are untouched.
   */
  lemma AssignedArms(entries: map<TimerId, Entry>, h: Hook)
    requires h.status == Assigned && h.policies != [] && ClockRuns(h)
    ensures ArmedBy(AfterHook(entries, h), h) <==> NoneActive(entries, h.job)
    ensures OthersAlike(entries, AfterHook(entries, h), h.job)
  {
    forall t: Threshold
      ensures TimerArmed(AfterHook(entries, h), h, t) <==> !Processing(entries, TimerId(h.job, t))
    {
      TimerArmedIffIdle(entries, h, t);
    }
    TimerArmedIffIdle(entries, h, Warning);
  }

  /** Any other status leaves none of the job's timers, if and only if none was being processed. */
  lemma OtherStatusDisarms(entries: map<TimerId, Entry>, h: Hook)
    requires h.status != Assigned
    ensures Disarmed(AfterHook(entries, h), h.job) <==> NoneActive(entries, h.job)
    ensures OthersAlike(entries, AfterHook(entries, h), h.job)
  {
    forall t: Threshold
      ensures TimerId(h.job, t) in AfterHook(entries, h) <==> Processing(entries, TimerId(h.job, t))
    {
      DroppedPairGone(entries, h.job, t);
    }
    DroppedPairGone(entries, h.job, Warning);
  }

  lemma {:induction false} EditsChangeNothing(start: World, events: seq<Event>, edits: seq<Event>)
    requires forall i :: 0 <= i < |edits| ==> edits[i].PolicyEdit?
    ensures After(start, events + edits).entries == After(start, events).entries
  {
    if edits == [] {
      assert events + edits == events;
    } else {
      var n := |edits| - 1;
      assert (events + edits)[..|events| + n] == events + edits[..n];
      EditsChangeNothing(start, events, edits[..n]);
    }
  }

  /**
   * After any history of hooks, queue moves and policy edits, the last hook of a job decides, and policy edits
   * that follow change nothing: with no evaluation active, ASSIGNED with a policy leaves exactly one pending
   * WARNING and one pending BREACH frozen to the policy on file at that hook; ASSIGNED without one leaves the
   * queue as the history left it, a stale pair included; and any other status leaves none.
   */
  lemma LastHookDecides(start: World, events: seq<Event>, hook: Hook, edits: seq<Event>)
    requires NoneActive(After(start, events).entries, hook.job) && ClockRuns(hook)
    requires forall i :: 0 <= i < |edits| ==> edits[i].PolicyEdit?
    ensures
      var before := After(start, events);
      var after := After(start, events + [Commit(hook)] + edits);
      && (hook.status == Assigned && before.policies == [] ==> after.entries == before.entries)
      && (hook.status == Assigned && before.policies != [] ==> ArmedBy(after.entries, hook.(policies := before.policies)))
      && (hook.status != Assigned ==> Disarmed(after.entries, hook.job))
      && OthersAlike(before.entries, after.entries, hook.job)
  {
    EditsChangeNothing(start, events + [Commit(hook)], edits);
    assert (events + [Commit(hook)])[..|events|] == events;
    var before := After(start, events);
    var h := hook.(policies := before.policies);
    if hook.status == Assigned && before.policies != [] {
      AssignedArms(before.entries, h);
    } else if hook.status != Assigned {
      OtherStatusDisarms(before.entries, h);
    }
  }

  /** Not before the due time or the queue's clock, and beyond both by the lag between the two clock readings at most. */
  predicate InTime(runnableAt: int, due: int, h: Hook) {
    var soonest := if due > h.later then due else h.later;
    soonest <= runnableAt <= soonest + (h.later - h.now)
  }

  /**
   * After any history, an assignment with a policy on file and no evaluation active leaves two timers that keep
   * the promise. The WARNING is runnable exactly its minutes before the due time and never after it, the BREACH
   * exactly its minutes after and never before it; no minutes mean the due time itself, and a time already past
   * is runnable at once. Neither is ever early, and neither is later than the clock ran on between hook and queue.
   */
  lemma TimersKeepThePromise(start: World, events: seq<Event>, hook: Hook, edits: seq<Event>)
    requires NoneActive(After(start, events).entries, hook.job) && ClockRuns(hook)
    requires hook.status == Assigned && After(start, events).policies != []
    requires forall i :: 0 <= i < |edits| ==> edits[i].PolicyEdit?
    ensures
      var policy := EarliestPolicy(After(start, events).policies).value;
      var after := After(start, events + [Commit(hook)] + edits).entries;
      var warnAt := hook.dueAt - policy.warningMinutesBefore * 60_000;
      var breachAt := hook.dueAt + policy.breachMinutesAfter * 60_000;
      && TimerId(hook.job, Warning) in after && TimerId(hook.job, Breach) in after
      && var warning, breach := after[TimerId(hook.job, Warning)], after[TimerId(hook.job, Breach)];
      && warning.payload.threshold == Warning && breach.payload.threshold == Breach
      && (hook.later == hook.now < warnAt ==> warning.runnableAt == warnAt && warning.runnableAt <= hook.dueAt)
      && (hook.later == hook.now < breachAt ==> breach.runnableAt == breachAt)
      && breach.runnableAt >= hook.dueAt
      && (warnAt <= hook.now ==> warning.runnableAt == hook.later && warning.state == Waiting)
      && (breachAt <= hook.now ==> breach.runnableAt == hook.later && breach.state == Waiting)
      && InTime(warning.runnableAt, warnAt, hook) && InTime(breach.runnableAt, breachAt, hook)
  {
    LastHookDecides(start, events, hook, edits);
    var h := hook.(policies := After(start, events).policies);
    var after := After(start, events + [Commit(hook)] + edits).entries;
    assert TimerArmed(after, h, Warning) && TimerArmed(after, h, Breach);
  }

  // ---------------------------------------------------------------- the queue and its adapter

  class SlaQueue {
    var entries: map<TimerId, Entry>

    constructor ()
      ensures entries == map[]
    {
      entries := map[];
    }

    /** Disarms one evaluation; a missing or locked one reports false. */
    method RemovePendingSlaEvaluation(job: JobId, threshold: Threshold) returns (removed: bool)
      modifies this
      ensures entries == Dropped(old(entries), TimerId(job, threshold))
      ensures removed <==>
                TimerId(job, threshold) in old(entries) && old(entries)[TimerId(job, threshold)].state != Active
      ensures entries == if removed then old(entries) - {TimerId(job, threshold)} else old(entries)
    {
      var id := TimerId(job, threshold);
      removed := id in entries && entries[id].state != Active;
      if removed {
        entries := entries - {id};
      }
    }

    method RemovePendingSlaEvaluations(job: JobId) returns (removed: seq<bool>)
      modifies this
      ensures entries == DroppedPair(old(entries), job)
      ensures forall id :: id in entries <==> id in old(entries) && (id.job == job ==> old(entries)[id].state == Active)
      ensures forall id :: id in entries ==> entries[id] == old(entries)[id]
      ensures |removed| == |SLA_THRESHOLDS|
      ensures forall i :: 0 <= i < |removed| ==>
                (removed[i] <==> TimerId(job, SLA_THRESHOLDS[i]) in old(entries)
                                 && TimerId(job, SLA_THRESHOLDS[i]) !in entries)
    {
      removed := [];
      for i := 0 to |SLA_THRESHOLDS|
        invariant |removed| == i
        invariant forall k :: 0 <= k < i ==>
                    (removed[k] <==> TimerId(job, SLA_THRESHOLDS[k]) in old(entries)
                                     && TimerId(job, SLA_THRESHOLDS[k]) !in entries)
        invariant entries == if i == 0 then old(entries)
                             else if i == 1 then Dropped(old(entries), TimerId(job, Warning))
                             else DroppedPair(old(entries), job)
      {
        var one := RemovePendingSlaEvaluation(job, SLA_THRESHOLDS[i]);
        removed := removed + [one];
      }
      DroppedPairIs(old(entries), job);
    }

    /** Arms one evaluation unless one is under way; a settled entry of the same identity is dropped first. */
    method ScheduleSlaCheck(payload: Payload, delay: nat, now: int) returns (stored: Entry)
      modifies this
      ensures entries == Armed(old(entries), TimerId(payload.job, payload.threshold),
                               Entry(if delay > 0 then Delayed else Waiting, payload, now + delay))
      ensures TimerId(payload.job, payload.threshold) in entries
              && stored == entries[TimerId(payload.job, payload.threshold)]
      ensures TimerId(payload.job, payload.threshold) in old(entries)
              && old(entries)[TimerId(payload.job, payload.threshold)].state in {Delayed, Waiting, Active} ==>
                entries == old(entries)
      ensures !(TimerId(payload.job, payload.threshold) in old(entries)
                && old(entries)[TimerId(payload.job, payload.threshold)].state in {Delayed, Waiting, Active}) ==>
                entries == old(entries)[TimerId(payload.job, payload.threshold) :=
                                        Entry(if delay > 0 then Delayed else Waiting, payload, now + delay)]
    {
      var id := TimerId(payload.job, payload.threshold);
      if id in entries {
        var existing := entries[id];
        if existing.state in {Delayed, Waiting, Active} {
          return existing;
        }
        entries := entries - {id};
      }
      stored := Entry(if delay > 0 then Delayed else Waiting, payload, now + delay);
      entries := entries[id := stored];
    }

    /** Drops the stale pair, then arms the fresh one; without a policy nothing is touched. */
    method ScheduleSlaAfterAssign(h: Hook)
      requires h.status == Assigned
      modifies this
      ensures entries == AfterHook(old(entries), h)
    {
      if h.policies == [] {
        return;
      }
      var _ := RemovePendingSlaEvaluations(h.job);
      for i := 0 to |SLA_THRESHOLDS|
        invariant entries ==
                  var dropped := DroppedPair(old(entries), h.job);
                  if i == 0 then dropped
                  else
                    var one := Armed(dropped, TimerId(h.job, Warning), FreshEntry(h, Warning));
                    if i == 1 then one else Armed(one, TimerId(h.job, Breach), FreshEntry(h, Breach))
      {
        var promise := Promise(h, SLA_THRESHOLDS[i]);
        var _ := ScheduleSlaCheck(promise, SlaDelayMs(promise, h.now), h.later);
      }
    }

    /** The SLA part of the post-commit hook. */
    method AfterJobCommit(h: Hook)
      modifies this
      ensures entries == AfterHook(old(entries), h)
    {
      if h.status == Assigned {
        ScheduleSlaAfterAssign(h);
      } else {
        var _ := RemovePendingSlaEvaluations(h.job);
      }
    }
  }
}
