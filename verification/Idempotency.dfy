/**
 * The idempotency wrapper: three short transactions that reserve a key, execute the
 * work, and store the replayable response, with any number of callers interleaved and
 * crashes allowed between any two steps.
 *
 * One action is one atomic effect: an insert attempt (a duplicate waits for the
 * holder, so it counts when it is decided), a lookup, the take-over of an expired row,
 * the execution's commit, the completion, the drop. Fingerprints are the canonical
 * texts themselves: the digest over them is taken to be injective. Row identities are
 * the identities of the calls that inserted the rows.
 */
module Idempotency {
  import opened Collections
  import opened Optional
  import opened StableJson

  type CallId = nat
  type Body = string

  const DEFAULT_TTL_MS := 24 * 60 * 60 * 1000

  /** The unique index of the key table. */
  datatype Slot = Slot(organization: nat, operation: string, key: string)

  datatype Request = Request(slot: Slot, source: Json, responseStatus: nat)
  {
    function Fingerprint(): string { StableStringify(source) }
  }

  datatype Response = Response(status: nat, body: Body)

  /** A row is IN_PROGRESS without a response and COMPLETED with one. */
  datatype Record = Record(id: CallId, fingerprint: string, response: Option<Response>, expiresAt: int)

  datatype Outcome =
    | Fresh(body: Body)
    | Replayed(body: Body)
    | KeyReuse
    | InProgress
    | Thrown
    | Crashed

  datatype Phase =
    | Asking
    | Conflicted
    | Missing
    | Expired(existing: CallId)
    | Reserved
    | Executed
    | ExecutionFailed
    | Finished(outcome: Outcome)

  /** `executed` and `tookOver` remember what the call has done. */
  datatype Call = Call(request: Request, phase: Phase, executed: Option<Body>, tookOver: bool)

  datatype State = State(keys: map<Slot, Record>, calls: map<CallId, Call>, now: int)

  datatype Action =
    | Begin(call: CallId, request: Request)
    | Next(call: CallId)
    | Execute(call: CallId, body: Body)
    | FailToExecute(call: CallId)
    | FailToDrop(call: CallId)
    | Crash(call: CallId)
    | Tick(time: int)

  // ---------------------------------------------------------------- table operations

  function NewRecord(s: State, c: CallId, request: Request): Record {
    Record(c, request.Fingerprint(), None, s.now + DEFAULT_TTL_MS)
  }

  /** An update of the row with this identity, wherever it is. */
  function CompleteById(keys: map<Slot, Record>, id: CallId, response: Response): map<Slot, Record> {
    map k | k in keys :: if keys[k].id == id then keys[k].(response := Some(response)) else keys[k]
  }

  function DropById(keys: map<Slot, Record>, id: CallId): map<Slot, Record> {
    map k | k in keys && keys[k].id != id :: keys[k]
  }

  predicate HasId(keys: map<Slot, Record>, id: CallId) {
    exists k :: k in keys && keys[k].id == id
  }

  function Enter(s: State, c: CallId, phase: Phase): State
    requires c in s.calls
  {
    s.(calls := s.calls[c := s.calls[c].(phase := phase)])
  }

  function InsertKey(s: State, c: CallId, otherwise: Phase): State
    requires c in s.calls
  {
    var request := s.calls[c].request;
    if request.slot in s.keys then Enter(s, c, otherwise)
    else Enter(s, c, Reserved).(keys := s.keys[request.slot := NewRecord(s, c, request)])
  }

  /** What a caller whose insert met a duplicate makes of the row it finds. */
  function Judge(s: State, request: Request): Phase {
    if request.slot !in s.keys then Missing
    else
      var existing := s.keys[request.slot];
      if existing.expiresAt < s.now then Expired(existing.id)
      else if existing.response.None? then Finished(InProgress)
      else if existing.fingerprint == request.Fingerprint() then Finished(Replayed(existing.response.value.body))
      else Finished(KeyReuse)
  }

  function TakeOver(s: State, c: CallId, existing: CallId): State
    requires c in s.calls
  {
    var request := s.calls[c].request;
    if request.slot in s.keys && s.keys[request.slot].id == existing then
      var call := s.calls[c].(phase := Reserved, tookOver := true);
      s.(keys := s.keys[request.slot := NewRecord(s, c, request)], calls := s.calls[c := call])
    else Enter(s, c, Finished(Thrown))
  }

  function StoreResponse(s: State, c: CallId): State
    requires c in s.calls && s.calls[c].executed.Some?
  {
    var body := s.calls[c].executed.value;
    if HasId(s.keys, c) then
      Enter(s, c, Finished(Fresh(body)))
        .(keys := CompleteById(s.keys, c, Response(s.calls[c].request.responseStatus, body)))
    else Enter(s, c, Finished(Thrown))
  }

  function NextStep(s: State, c: CallId): State
    requires c in s.calls
  {
    match s.calls[c].phase
    case Asking => InsertKey(s, c, Conflicted)
    case Conflicted => Enter(s, c, Judge(s, s.calls[c].request))
    case Missing => InsertKey(s, c, Finished(Thrown))
    case Expired(existing) => TakeOver(s, c, existing)
    case Executed => if s.calls[c].executed.Some? then StoreResponse(s, c) else s
    case ExecutionFailed => Enter(s, c, Finished(Thrown)).(keys := DropById(s.keys, c))
    case Reserved => s
    case Finished(_) => s
  }

  /** One action; one that is not possible in the state changes nothing. */
  function Step(s: State, a: Action): State {
    match a
    case Begin(c, request) =>
      if c in s.calls then s else s.(calls := s.calls[c := Call(request, Asking, None, false)])
    case Next(c) => if c in s.calls then NextStep(s, c) else s
    case Execute(c, body) =>
      if c in s.calls && s.calls[c].phase.Reserved?
      then s.(calls := s.calls[c := s.calls[c].(phase := Executed, executed := Some(body))]) else s
    case FailToExecute(c) => if c in s.calls && s.calls[c].phase.Reserved? then Enter(s, c, ExecutionFailed) else s
    case FailToDrop(c) => if c in s.calls && s.calls[c].phase.ExecutionFailed? then Enter(s, c, Finished(Thrown)) else s
    case Crash(c) => if c in s.calls && !s.calls[c].phase.Finished? then Enter(s, c, Finished(Crashed)) else s
    case Tick(time) => if time >= s.now then s.(now := time) else s
  }

  function After(start: State, actions: seq<Action>): State {
    if actions == [] then start
    else Step(After(start, actions[..|actions| - 1]), actions[|actions| - 1])
  }

  predicate Initial(s: State) {
    s.keys == map[] && s.calls == map[]
  }

  // ---------------------------------------------------------------- who executed, who still may

  function Executions(s: State, slot: Slot): set<CallId> {
    set c | c in s.calls && s.calls[c].request.slot == slot && s.calls[c].executed.Some?
  }

  function TakeOvers(s: State, slot: Slot): set<CallId> {
    set c | c in s.calls && s.calls[c].request.slot == slot && s.calls[c].tookOver
  }

  /** Calls that have executed, or hold a reservation they have not given back. */
  function Spent(s: State, slot: Slot): set<CallId> {
    set c | c in s.calls && s.calls[c].request.slot == slot &&
            (s.calls[c].executed.Some? || s.calls[c].phase.Reserved? || s.calls[c].phase.ExecutionFailed?)
  }

  // ---------------------------------------------------------------- the invariant

  /** The budget of a slot: a free slot admits one reservation, and a take-over pays for one more. */
  ghost predicate BudgetOk(s: State, slot: Slot) {
    |Spent(s, slot)| + (if slot in s.keys then 0 else 1) <= 1 + |TakeOvers(s, slot)|
  }

  ghost predicate RecordOk(s: State, slot: Slot, record: Record) {
    && record.id in s.calls
    && s.calls[record.id].request.slot == slot
    && record.fingerprint == s.calls[record.id].request.Fingerprint()
    && (record.response.Some? ==>
          && s.calls[record.id].executed == Some(record.response.value.body)
          && record.response.value.status == s.calls[record.id].request.responseStatus)
  }

  /** The execution a replay was taken from. */
  ghost predicate ReplayOf(s: State, request: Request, body: Body, source: CallId) {
    && source in s.calls && source in Executions(s, request.slot)
    && s.calls[source].executed == Some(body)
    && s.calls[source].request.Fingerprint() == request.Fingerprint()
  }

  ghost predicate CallOk(s: State, call: Call) {
    && (call.phase.Executed? ==> call.executed.Some?)
    && (call.tookOver ==> call.phase.Reserved? || call.phase.Executed? || call.phase.ExecutionFailed? || call.phase.Finished?)
    && (call.phase.Finished? && call.phase.outcome.Fresh? ==> call.executed == Some(call.phase.outcome.body))
    && (call.executed.Some? ==> call.phase.Executed? || call.phase.Finished?)
    && (call.phase.Finished? && call.phase.outcome.Replayed? ==>
          exists source :: ReplayOf(s, call.request, call.phase.outcome.body, source))
  }

  ghost predicate Inv(s: State) {
    && (forall slot :: BudgetOk(s, slot))
    && (forall slot :: slot in s.keys ==> RecordOk(s, slot, s.keys[slot]))
    && (forall c :: c in s.calls ==> CallOk(s, s.calls[c]))
  }

  // ---------------------------------------------------------------- one step

  /** A call moves on: same request, and what it has executed stays executed. */
  predicate MovesOn(before: Call, after: Call) {
    after.request == before.request && (before.executed.Some? ==> after.executed == before.executed)
  }

  /** Rows and replays that rest on other calls are untouched when one call moves on. */
  lemma MoveKeeps(s: State, c: CallId, call: Call)
    requires Inv(s) && c in s.calls && MovesOn(s.calls[c], call)
    ensures var after := s.(calls := s.calls[c := call]);
            && (forall slot :: slot in s.keys ==> RecordOk(after, slot, s.keys[slot]))
            && (forall d :: d in s.calls && d != c ==> CallOk(after, s.calls[d]))
  {
    var after := s.(calls := s.calls[c := call]);
    forall slot | slot in s.keys
      ensures RecordOk(after, slot, s.keys[slot])
    {
      assert RecordOk(s, slot, s.keys[slot]);
    }
    forall d | d in s.calls && d != c
      ensures CallOk(after, s.calls[d])
    {
      ReplaysStay(s, c, call, s.calls[d]);
    }
  }

  lemma ReplaysStay(s: State, c: CallId, call: Call, other: Call)
    requires c in s.calls && MovesOn(s.calls[c], call) && CallOk(s, other)
    ensures CallOk(s.(calls := s.calls[c := call]), other)
  {
    var after := s.(calls := s.calls[c := call]);
    if other.phase.Finished? && other.phase.outcome.Replayed? {
      var source :| ReplayOf(s, other.request, other.phase.outcome.body, source);
      assert ReplayOf(after, other.request, other.phase.outcome.body, source);
    }
  }

  /** Moves that neither reserve nor execute leave every budget in place. */
  lemma QuietMove(s: State, c: CallId, call: Call)
    requires Inv(s) && c in s.calls && MovesOn(s.calls[c], call)
    requires call.tookOver == s.calls[c].tookOver && CallOk(s, call)
    requires c in Spent(s.(calls := s.calls[c := call]), call.request.slot) ==> c in Spent(s, call.request.slot)
    ensures Inv(s.(calls := s.calls[c := call]))
  {
    var after := s.(calls := s.calls[c := call]);
    MoveKeeps(s, c, call);
    ReplaysStay(s, c, call, call);
    forall slot
      ensures BudgetOk(after, slot)
    {
      assert BudgetOk(s, slot);
      assert TakeOvers(after, slot) == TakeOvers(s, slot);
      SubsetSize(Spent(after, slot), Spent(s, slot));
    }
  }

  /** Rows and replays do not depend on the key table itself. */
  lemma SameKeysElsewhere(s: State, after: State, c: CallId, call: Call)
    requires Inv(s) && c in s.calls && MovesOn(s.calls[c], call) && after.calls == s.calls[c := call]
    ensures forall slot :: slot in s.keys ==> RecordOk(after, slot, s.keys[slot])
    ensures forall d :: d in s.calls && d != c ==> CallOk(after, s.calls[d])
  {
    MoveKeeps(s, c, call);
    var moved := s.(calls := s.calls[c := call]);
    forall slot | slot in s.keys
      ensures RecordOk(after, slot, s.keys[slot])
    {
      assert RecordOk(moved, slot, s.keys[slot]);
    }
    forall d | d in s.calls && d != c
      ensures CallOk(after, s.calls[d])
    {
      var other := s.calls[d];
      assert CallOk(moved, other);
      if other.phase.Finished? && other.phase.outcome.Replayed? {
        var source :| ReplayOf(moved, other.request, other.phase.outcome.body, source);
        assert ReplayOf(after, other.request, other.phase.outcome.body, source);
      }
    }
  }

  /** How the two sets of a slot change when one call moves on. */
  lemma SetsAfterMove(s: State, c: CallId, call: Call, slot: Slot)
    requires c in s.calls && call.request == s.calls[c].request
    ensures var after := s.(calls := s.calls[c := call]);
            && Spent(after, slot) <= Spent(s, slot) + (if slot == call.request.slot then {c} else {})
            && (call.tookOver == s.calls[c].tookOver ==> TakeOvers(after, slot) == TakeOvers(s, slot))
            && (call.tookOver && !s.calls[c].tookOver && slot == call.request.slot ==>
                  c !in TakeOvers(s, slot) && TakeOvers(after, slot) == TakeOvers(s, slot) + {c})
            && (slot != call.request.slot ==> TakeOvers(after, slot) == TakeOvers(s, slot))
  {
  }

  /** A reservation: on a free slot, or by taking over the slot's row. */
  lemma ReserveKeepsInv(s: State, c: CallId, call: Call)
    requires Inv(s) && c in s.calls && MovesOn(s.calls[c], call) && call.phase.Reserved? && CallOk(s, call)
    requires !s.calls[c].tookOver && (call.tookOver <==> call.request.slot in s.keys)
    ensures var slot := call.request.slot;
            Inv(s.(keys := s.keys[slot := NewRecord(s, c, call.request)], calls := s.calls[c := call]))
  {
    var mine := call.request.slot;
    var after := s.(keys := s.keys[mine := NewRecord(s, c, call.request)], calls := s.calls[c := call]);
    SameKeysElsewhere(s, after, c, call);
    forall slot
      ensures BudgetOk(after, slot)
    {
      assert BudgetOk(s, slot);
      SetsAfterMove(s, c, call, slot);
      var moved := s.(calls := s.calls[c := call]);
      assert Spent(after, slot) == Spent(moved, slot) && TakeOvers(after, slot) == TakeOvers(moved, slot);
      SubsetSize(Spent(after, slot), Spent(s, slot) + (if slot == mine then {c} else {}));
    }
  }

  lemma InsertKeepsInv(s: State, c: CallId, otherwise: Phase)
    requires Inv(s) && c in s.calls && (s.calls[c].phase.Asking? || s.calls[c].phase.Missing?)
    requires otherwise in {Conflicted, Finished(Thrown)}
    ensures Inv(InsertKey(s, c, otherwise))
  {
    assert CallOk(s, s.calls[c]);
    if s.calls[c].request.slot in s.keys {
      QuietMove(s, c, s.calls[c].(phase := otherwise));
    } else {
      ReserveKeepsInv(s, c, s.calls[c].(phase := Reserved));
    }
  }

  lemma JudgeKeepsInv(s: State, c: CallId)
    requires Inv(s) && c in s.calls && s.calls[c].phase.Conflicted?
    ensures Inv(Enter(s, c, Judge(s, s.calls[c].request)))
  {
    var request, phase := s.calls[c].request, Judge(s, s.calls[c].request);
    if phase.Finished? && phase.outcome.Replayed? {
      var record := s.keys[request.slot];
      assert RecordOk(s, request.slot, record);
      assert ReplayOf(s, request, phase.outcome.body, record.id);
    }
    QuietMove(s, c, s.calls[c].(phase := phase));
  }

  lemma TakeOverKeepsInv(s: State, c: CallId, existing: CallId)
    requires Inv(s) && c in s.calls && s.calls[c].phase == Expired(existing)
    ensures Inv(TakeOver(s, c, existing))
  {
    var slot := s.calls[c].request.slot;
    assert CallOk(s, s.calls[c]);
    if slot in s.keys && s.keys[slot].id == existing {
      ReserveKeepsInv(s, c, s.calls[c].(phase := Reserved, tookOver := true));
    } else {
      QuietMove(s, c, s.calls[c].(phase := Finished(Thrown)));
    }
  }

  lemma StoreKeepsInv(s: State, c: CallId)
    requires Inv(s) && c in s.calls && s.calls[c].phase.Executed? && s.calls[c].executed.Some?
    ensures Inv(StoreResponse(s, c))
  {
    var body := s.calls[c].executed.value;
    var call := s.calls[c].(phase := Finished(if HasId(s.keys, c) then Fresh(body) else Thrown));
    QuietMove(s, c, call);
    if HasId(s.keys, c) {
      var moved, after := s.(calls := s.calls[c := call]), StoreResponse(s, c);
      SameKeysElsewhere(moved, after, c, call);
      ReplaysStay(moved, c, call, call);
      forall slot
        ensures BudgetOk(after, slot)
      {
        assert BudgetOk(moved, slot);
        assert TakeOvers(after, slot) == TakeOvers(moved, slot) && Spent(after, slot) == Spent(moved, slot);
      }
    }
  }

  lemma DropBudget(s: State, c: CallId, slot: Slot)
    requires c in s.calls && s.calls[c].phase.ExecutionFailed? && s.calls[c].executed.None? && BudgetOk(s, slot)
    requires slot in s.keys ==> RecordOk(s, slot, s.keys[slot])
    ensures BudgetOk(Enter(s, c, Finished(Thrown)).(keys := DropById(s.keys, c)), slot)
  {
    var after := Enter(s, c, Finished(Thrown)).(keys := DropById(s.keys, c));
    assert TakeOvers(after, slot) == TakeOvers(s, slot);
    assert Spent(after, slot) == Spent(s, slot) - (if slot == s.calls[c].request.slot then {c} else {});
  }

  lemma DropKeepsInv(s: State, c: CallId)
    requires Inv(s) && c in s.calls && s.calls[c].phase.ExecutionFailed?
    ensures Inv(Enter(s, c, Finished(Thrown)).(keys := DropById(s.keys, c)))
  {
    var call := s.calls[c].(phase := Finished(Thrown));
    var after := Enter(s, c, Finished(Thrown)).(keys := DropById(s.keys, c));
    SameKeysElsewhere(s, after, c, call);
    assert CallOk(s, s.calls[c]);
    forall slot
      ensures BudgetOk(after, slot)
    {
      DropBudget(s, c, slot);
    }
  }

  lemma BeginKeepsInv(s: State, c: CallId, request: Request)
    requires Inv(s) && c !in s.calls
    ensures Inv(Step(s, Begin(c, request)))
  {
    var after := Step(s, Begin(c, request));
    forall slot
      ensures BudgetOk(after, slot)
    {
      assert BudgetOk(s, slot);
      assert TakeOvers(after, slot) == TakeOvers(s, slot) && Spent(after, slot) == Spent(s, slot);
    }
    forall slot | slot in after.keys
      ensures RecordOk(after, slot, after.keys[slot])
    {
      assert RecordOk(s, slot, s.keys[slot]);
    }
    forall d | d in s.calls
      ensures CallOk(after, s.calls[d])
    {
      var other := s.calls[d];
      if other.phase.Finished? && other.phase.outcome.Replayed? {
        var source :| ReplayOf(s, other.request, other.phase.outcome.body, source);
        assert ReplayOf(after, other.request, other.phase.outcome.body, source);
      }
    }
  }

  lemma TickKeepsInv(s: State, time: int)
    requires Inv(s)
    ensures Inv(s.(now := time))
  {
    var after := s.(now := time);
    forall slot
      ensures BudgetOk(after, slot)
    {
      assert BudgetOk(s, slot);
      assert TakeOvers(after, slot) == TakeOvers(s, slot) && Spent(after, slot) == Spent(s, slot);
    }
    forall slot | slot in after.keys
      ensures RecordOk(after, slot, after.keys[slot])
    {
      assert RecordOk(s, slot, s.keys[slot]);
    }
    forall d | d in s.calls
      ensures CallOk(after, s.calls[d])
    {
      var other := s.calls[d];
      if other.phase.Finished? && other.phase.outcome.Replayed? {
        var source :| ReplayOf(s, other.request, other.phase.outcome.body, source);
        assert ReplayOf(after, other.request, other.phase.outcome.body, source);
      }
    }
  }

  lemma NextKeepsInv(s: State, c: CallId)
    requires Inv(s) && c in s.calls
    ensures Inv(NextStep(s, c))
  {
    match s.calls[c].phase
    case Asking => InsertKeepsInv(s, c, Conflicted);
    case Conflicted => JudgeKeepsInv(s, c);
    case Missing => InsertKeepsInv(s, c, Finished(Thrown));
    case Expired(existing) => TakeOverKeepsInv(s, c, existing);
    case Executed => if s.calls[c].executed.Some? { StoreKeepsInv(s, c); }
    case ExecutionFailed => DropKeepsInv(s, c);
    case _ =>
  }

  lemma StepKeepsInv(s: State, a: Action)
    requires Inv(s)
    ensures Inv(Step(s, a))
  {
    match a
    case Begin(c, request) => if c !in s.calls { BeginKeepsInv(s, c, request); }
    case Next(c) => if c in s.calls { NextKeepsInv(s, c); }
    case Execute(c, body) =>
      if c in s.calls && s.calls[c].phase.Reserved? {
        assert CallOk(s, s.calls[c]);
        QuietMove(s, c, s.calls[c].(phase := Executed, executed := Some(body)));
      }
    case FailToExecute(c) =>
      if c in s.calls && s.calls[c].phase.Reserved? { QuietMove(s, c, s.calls[c].(phase := ExecutionFailed)); }
    case FailToDrop(c) =>
      if c in s.calls && s.calls[c].phase.ExecutionFailed? { QuietMove(s, c, s.calls[c].(phase := Finished(Thrown))); }
    case Crash(c) =>
      if c in s.calls && !s.calls[c].phase.Finished? { QuietMove(s, c, s.calls[c].(phase := Finished(Crashed))); }
    case Tick(time) => TickKeepsInv(s, time);
  }

  lemma {:induction false} RunsKeepInv(start: State, actions: seq<Action>)
    requires Initial(start)
    ensures Inv(After(start, actions))
  {
    if actions != [] {
      RunsKeepInv(start, actions[..|actions| - 1]);
      StepKeepsInv(After(start, actions[..|actions| - 1]), actions[|actions| - 1]);
    }
  }

  // ---------------------------------------------------------------- theorems

  /**
   * For any number of callers, interleavings and crashes: a key is executed at most once, plus once for
   * each time an expired row was taken over.
   */
  lemma ExecutionsAreBudgeted(start: State, actions: seq<Action>, slot: Slot)
    requires Initial(start)
    ensures |Executions(After(start, actions), slot)| <= 1 + |TakeOvers(After(start, actions), slot)|
  {
    RunsKeepInv(start, actions);
    var s := After(start, actions);
    assert BudgetOk(s, slot);
    SubsetSize(Executions(s, slot), Spent(s, slot));
  }

  /** While no lookup finds the row expired, all executions of a key are one and the same. */
  lemma AtMostOneExecution(start: State, actions: seq<Action>, slot: Slot, c: CallId, d: CallId)
    requires Initial(start) && TakeOvers(After(start, actions), slot) == {}
    requires c in Executions(After(start, actions), slot) && d in Executions(After(start, actions), slot)
    ensures c == d
  {
    ExecutionsAreBudgeted(start, actions, slot);
    if c != d {
      SubsetSize({c, d}, Executions(After(start, actions), slot));
    }
  }

  /**
   * A replay returns exactly the body of a committed execution of the same key, to a caller whose request
   * is equal to that execution's up to key order; without take-overs it is the only execution there is.
   */
  lemma ReplaysAreFaithful(start: State, actions: seq<Action>, c: CallId) returns (source: CallId)
    requires Initial(start) && c in After(start, actions).calls
    requires After(start, actions).calls[c].phase.Finished? && After(start, actions).calls[c].phase.outcome.Replayed?
    requires forall d :: d in After(start, actions).calls ==> WellFormed(After(start, actions).calls[d].request.source)
    ensures var s := After(start, actions);
            && source in Executions(s, s.calls[c].request.slot)
            && s.calls[source].executed == Some(s.calls[c].phase.outcome.body)
            && Same(s.calls[source].request.source, s.calls[c].request.source)
            && (TakeOvers(s, s.calls[c].request.slot) == {} ==>
                  forall d :: d in Executions(s, s.calls[c].request.slot) ==> d == source)
  {
    RunsKeepInv(start, actions);
    var s := After(start, actions);
    assert CallOk(s, s.calls[c]);
    source :| ReplayOf(s, s.calls[c].request, s.calls[c].phase.outcome.body, source);
    TextIsCanonical(s.calls[source].request.source, s.calls[c].request.source);
    if TakeOvers(s, s.calls[c].request.slot) == {} {
      forall d | d in Executions(s, s.calls[c].request.slot)
        ensures d == source
      {
        AtMostOneExecution(start, actions, s.calls[c].request.slot, d, source);
      }
    }
  }

  /** Completing and dropping touch the caller's own reservation only: every row that differs carries its identity. */
  lemma OnlyOwnReservation(start: State, actions: seq<Action>, c: CallId, slot: Slot)
    requires Initial(start) && c in After(start, actions).calls
    requires After(start, actions).calls[c].phase in {Executed, ExecutionFailed}
    requires slot in After(start, actions).keys
    ensures var before, after := After(start, actions).keys, Step(After(start, actions), Next(c)).keys;
            && (slot !in after || after[slot] != before[slot] ==> before[slot].id == c)
            && (before[slot].id == c ==> slot == After(start, actions).calls[c].request.slot)
  {
    RunsKeepInv(start, actions);
    assert RecordOk(After(start, actions), slot, After(start, actions).keys[slot]);
  }

  /**
   * Only a call's own next step touches the table. In particular a crash leaves the row it meets: the reservation
   * stays, and with it the in-progress answer, until it expires.
   */
  lemma OnlyNextTouchesRows(s: State, a: Action)
    requires !a.Next?
    ensures Step(s, a).keys == s.keys
    ensures a.Crash? && a.call in s.calls && !s.calls[a.call].phase.Finished? ==>
              Step(s, a).calls == s.calls[a.call := s.calls[a.call].(phase := Finished(Crashed))]
  {
  }

  // ---------------------------------------------------------------- the wrapper itself

  function CallOf(a: Action): Option<CallId> {
    match a
    case Begin(c, _) => Some(c)
    case Next(c) => Some(c)
    case Execute(c, _) => Some(c)
    case FailToExecute(c) => Some(c)
    case FailToDrop(c) => Some(c)
    case Crash(c) => Some(c)
    case Tick(_) => None
  }

  lemma OthersLeaveMyCallAlone(s: State, a: Action, c: CallId)
    requires c in s.calls && CallOf(a) != Some(c)
    ensures c in Step(s, a).calls && Step(s, a).calls[c] == s.calls[c]
  {
    match a
    case Next(d) => if d in s.calls { assert NextStep(s, d).calls.Keys == s.calls.Keys; }
    case _ =>
  }

  /**
   * What a caller who meets nobody is told about its key: nothing, so that it goes on, when the slot is free or
   * its row has expired; that the work is in progress while there is no response; the stored response when the
   * request is the same; and otherwise that the key is used up.
   */
  function ToldAt(s: State, request: Request): Option<Outcome> {
    if request.slot !in s.keys || s.keys[request.slot].expiresAt < s.now then None
    else if s.keys[request.slot].response.None? then Some(InProgress)
    else if s.keys[request.slot].fingerprint == StableStringify(request.source)
    then Some(Replayed(s.keys[request.slot].response.value.body))
    else Some(KeyReuse)
  }

  /** Nobody else runs a step between this caller's own. */
  ghost predicate Undisturbed(plan: seq<seq<Action>>) {
    forall k :: 0 <= k < |plan| ==> plan[k] == []
  }

  /** Only a call's own steps insert a row of its identity. */
  lemma OthersInsertTheirOwn(s: State, a: Action, c: CallId)
    requires CallOf(a) != Some(c) && !HasId(s.keys, c)
    ensures !HasId(Step(s, a).keys, c)
  {
  }

  /** The key table with the calls at work on it. */
  class KeyTable {
    var keys: map<Slot, Record>
    var calls: map<CallId, Call>
    var now: int

    function View(): State
      reads this
    {
      State(keys, calls, now)
    }

    ghost predicate Valid()
      reads this
    {
      Inv(View())
    }

    /** Where call `c` stands. */
    ghost predicate At(c: CallId, request: Request, phase: Phase, executed: Option<Body>)
      reads this
    {
      c in calls && calls[c].request == request && calls[c].phase == phase && calls[c].executed == executed
    }

    /** The row a reservation inserts: in progress, without a response, and good for a day. */
    ghost function Reservation(c: CallId, request: Request): (row: Record)
      reads this
      ensures row == Record(c, StableStringify(request.source), None, now + 86_400_000)
    {
      NewRecord(View(), c, request)
    }

    constructor (now: int)
      ensures Valid() && keys == map[] && calls == map[] && this.now == now
    {
      keys, calls, this.now := map[], map[], now;
      new;
      RunsKeepInv(View(), []);
    }

    /** The request's slot holds the caller's own row, with this response. */
    ghost predicate Holds(c: CallId, request: Request, response: Option<Response>)
      reads this
    {
      && request.slot in keys && keys[request.slot].id == c && keys[request.slot].response == response
      && keys[request.slot].fingerprint == StableStringify(request.source)
    }

    method Perform(a: Action)
      requires Valid()
      modifies this
      ensures Valid() && View() == Step(old(View()), a)
    {
      StepKeepsInv(View(), a);
      var s := Step(View(), a);
      keys, calls, now := s.keys, s.calls, s.now;
    }

    /** Other callers run some steps, or time passes. */
    method Interleave(c: CallId, others: seq<Action>)
      requires Valid() && c in calls
      modifies this
      ensures Valid() && c in calls && calls[c] == old(calls[c])
      ensures !HasId(old(keys), c) ==> !HasId(keys, c)
      ensures others == [] ==> View() == old(View())
    {
      for i := 0 to |others|
        invariant Valid() && c in calls && calls[c] == old(calls[c])
        invariant !HasId(old(keys), c) ==> !HasId(keys, c)
        invariant i == 0 ==> View() == old(View())
      {
        if CallOf(others[i]) != Some(c) {
          OthersLeaveMyCallAlone(View(), others[i], c);
          if !HasId(keys, c) {
            OthersInsertTheirOwn(View(), others[i], c);
          }
          Perform(others[i]);
        }
      }
    }

    /** Inserts the row unless the unique index objects. */
    method Attempt(c: CallId, otherwise: Phase) returns (inserted: bool)
      requires Valid() && c in calls && otherwise == (if calls[c].phase.Asking? then Conflicted else Finished(Thrown))
      requires calls[c].phase.Asking? || calls[c].phase.Missing?
      modifies this
      ensures Valid() && View() == Step(old(View()), Next(c))
      ensures inserted <==> old(calls[c].request.slot) !in old(keys)
      ensures keys == if inserted then old(keys)[old(calls[c].request.slot) := Reservation(c, old(calls[c].request))]
                      else old(keys)
      ensures now == old(now)
      ensures At(c, old(calls[c].request), if inserted then Reserved else otherwise, old(calls[c].executed))
    {
      NextKeepsInv(View(), c);
      var request := calls[c].request;
      inserted := request.slot !in keys;
      if inserted {
        keys := keys[request.slot := NewRecord(View(), c, request)];
      }
      calls := calls[c := calls[c].(phase := if inserted then Reserved else otherwise)];
    }

    /** Looks the conflicting row up and decides what it means for this caller. */
    method FindExisting(c: CallId) returns (verdict: Phase)
      requires Valid() && c in calls && calls[c].phase.Conflicted?
      modifies this
      ensures Valid() && View() == Step(old(View()), Next(c))
      ensures keys == old(keys) && now == old(now)
      ensures verdict ==
              var request := old(calls[c].request);
              if request.slot !in keys then Missing
              else
                var existing := keys[request.slot];
                if existing.expiresAt < now then Expired(existing.id)
                else if existing.response.None? then Finished(InProgress)
                else if existing.fingerprint != StableStringify(request.source) then Finished(KeyReuse)
                else Finished(Replayed(existing.response.value.body))
      ensures At(c, old(calls[c].request), verdict, old(calls[c].executed))
    {
      NextKeepsInv(View(), c);
      var request := calls[c].request;
      if request.slot !in keys {
        verdict := Missing;
      } else {
        var existing := keys[request.slot];
        if existing.expiresAt < now {
          verdict := Expired(existing.id);
        } else if existing.response.Some? {
          verdict := Finished(if existing.fingerprint == request.Fingerprint()
                              then Replayed(existing.response.value.body) else KeyReuse);
        } else {
          verdict := Finished(InProgress);
        }
      }
      calls := calls[c := calls[c].(phase := verdict)];
    }

    /** Deletes the expired row and inserts a new one; a row that has gone meanwhile makes the delete throw. */
    method Replace(c: CallId, existing: CallId) returns (replaced: bool)
      requires Valid() && c in calls && calls[c].phase == Expired(existing)
      modifies this
      ensures Valid() && View() == Step(old(View()), Next(c))
      ensures replaced <==>
                old(calls[c].request.slot) in old(keys) && old(keys)[old(calls[c].request.slot)].id == existing
      ensures keys == if replaced then old(keys)[old(calls[c].request.slot) := Reservation(c, old(calls[c].request))]
                      else old(keys)
      ensures now == old(now)
      ensures At(c, old(calls[c].request), if replaced then Reserved else Finished(Thrown), old(calls[c].executed))
    {
      NextKeepsInv(View(), c);
      var request := calls[c].request;
      replaced := request.slot in keys && keys[request.slot].id == existing;
      if replaced {
        keys := keys[request.slot := NewRecord(View(), c, request)];
        calls := calls[c := calls[c].(phase := Reserved, tookOver := true)];
      } else {
        calls := calls[c := calls[c].(phase := Finished(Thrown))];
      }
    }

    /** Reserves the key; `None` lets the caller proceed. */
    method ReserveKey(c: CallId, plan: seq<seq<Action>>) returns (stop: Option<Outcome>)
      requires Valid() && c in calls && calls[c].phase.Asking?
      modifies this
      ensures Valid()
      ensures At(c, old(calls[c].request), if stop.None? then Reserved else Finished(stop.value), old(calls[c].executed))
      ensures stop.Some? ==> stop.value.Replayed? || stop.value in {KeyReuse, InProgress, Thrown}
      ensures stop.None? ==> Holds(c, old(calls[c].request), None)
      ensures stop.Some? && !HasId(old(keys), c) ==> !HasId(keys, c)
      ensures Undisturbed(plan) ==> now == old(now) && stop == ToldAt(old(View()), old(calls[c].request))
      ensures Undisturbed(plan) ==>
                keys == if stop.None? then old(keys)[old(calls[c].request.slot) := Reservation(c, old(calls[c].request))]
                        else old(keys)
    {
      var inserted := Attempt(c, Conflicted);
      if inserted {
        return None;
      }
      Interleave(c, Gap(plan, 1));
      var verdict := FindExisting(c);
      if verdict.Finished? {
        return Some(verdict.outcome);
      }
      Interleave(c, Gap(plan, 2));
      if verdict.Missing? {
        inserted := Attempt(c, Finished(Thrown));
      } else {
        inserted := Replace(c, verdict.existing);
      }
      stop := if inserted then None else Some(Thrown);
    }

    /** Stores the response on the caller's own row; a row that is gone makes the update throw. */
    method CompleteKey(c: CallId, responseStatus: nat, body: Body) returns (stored: bool)
      requires Valid() && c in calls && calls[c].phase.Executed? && calls[c].executed == Some(body)
      requires responseStatus == calls[c].request.responseStatus
      modifies this
      ensures Valid() && View() == Step(old(View()), Next(c))
      ensures stored <==> HasId(old(keys), c)
      ensures keys.Keys == old(keys).Keys && now == old(now)
      ensures forall slot :: slot in keys ==>
                keys[slot] == if old(keys)[slot].id == c
                              then old(keys)[slot].(response := Some(Response(responseStatus, body)))
                              else old(keys)[slot]
      ensures At(c, old(calls[c].request), Finished(if stored then Fresh(body) else Thrown), Some(body))
    {
      NextKeepsInv(View(), c);
      stored := HasId(keys, c);
      if stored {
        keys := CompleteById(keys, c, Response(responseStatus, body));
      }
      calls := calls[c := calls[c].(phase := Finished(if stored then Fresh(body) else Thrown))];
    }

    /** Gives the caller's own reservation back. */
    method DropKey(c: CallId)
      requires Valid() && c in calls && calls[c].phase.ExecutionFailed?
      modifies this
      ensures Valid() && View() == Step(old(View()), Next(c)) && now == old(now)
      ensures !HasId(keys, c)
      ensures forall slot :: slot in keys <==> slot in old(keys) && old(keys)[slot].id != c
      ensures forall slot :: slot in keys ==> keys[slot] == old(keys)[slot]
      ensures At(c, old(calls[c].request), Finished(Thrown), old(calls[c].executed))
    {
      NextKeepsInv(View(), c);
      keys := DropById(keys, c);
      calls := calls[c := calls[c].(phase := Finished(Thrown))];
    }

    /** A failed execution: the key is given back, unless that fails too, which is ignored. */
    method GiveUp(c: CallId, dropFails: bool, others: seq<Action>)
      requires Valid() && c in calls && calls[c].phase.Reserved?
      modifies this
      ensures Valid() && At(c, old(calls[c].request), Finished(Thrown), old(calls[c].executed))
      ensures !dropFails ==> !HasId(keys, c)
      ensures others == [] ==> now == old(now)
      ensures others == [] && !dropFails ==>
                && (forall slot :: slot in keys <==> slot in old(keys) && old(keys)[slot].id != c)
                && (forall slot :: slot in keys ==> keys[slot] == old(keys)[slot])
    {
      Perform(FailToExecute(c));
      Interleave(c, others);
      if dropFails {
        Perform(FailToDrop(c));
      } else {
        DropKey(c);
      }
    }

    /** A new call asks for its key. */
    method AskForKey(c: CallId, request: Request, plan: seq<seq<Action>>) returns (stop: Option<Outcome>)
      requires Valid() && c !in calls
      modifies this
      ensures Valid() && At(c, request, if stop.None? then Reserved else Finished(stop.value), None)
      ensures stop.None? ==> Holds(c, request, None)
      ensures stop.Some? ==> !HasId(keys, c) && (stop.value.Replayed? || stop.value in {KeyReuse, InProgress, Thrown})
      ensures stop.Some? && stop.value.Replayed? ==> exists source :: ReplayOf(View(), request, stop.value.body, source)
      ensures Undisturbed(plan) ==> stop == ToldAt(old(View()), request)
      ensures Undisturbed(plan) ==>
                keys == if stop.None? then old(keys)[request.slot := Reservation(c, request)] else old(keys)
    {
      NothingOfMine(c);
      Perform(Begin(c, request));
      Interleave(c, Gap(plan, 0));
      stop := ReserveKey(c, plan);
      if stop.Some? {
        assert CallOk(View(), calls[c]);
      }
    }

    /** The holder of a reservation executes, and then completes it or gives it back. */
    method ExecuteReserved(c: CallId, request: Request, work: Option<Body>, dropFails: bool, plan: seq<seq<Action>>)
      returns (outcome: Outcome)
      requires Valid() && At(c, request, Reserved, None)
      modifies this
      ensures Valid() && c in calls && At(c, request, Finished(outcome), calls[c].executed)
      ensures outcome == Thrown || (outcome.Fresh? && work == Some(outcome.body) && calls[c].executed == work)
      ensures work.None? ==> calls[c].executed.None?
      ensures outcome.Fresh? ==> Holds(c, request, Some(Response(request.responseStatus, outcome.body)))
      ensures work.None? && !dropFails ==> !HasId(keys, c)
      ensures Undisturbed(plan) && old(Holds(c, request, None)) && work.Some? ==> outcome == Fresh(work.value)
      ensures Undisturbed(plan) && work.None? && !dropFails ==>
                && (forall slot :: slot in keys <==> slot in old(keys) && old(keys)[slot].id != c)
                && (forall slot :: slot in keys ==> keys[slot] == old(keys)[slot])
    {
      Interleave(c, Gap(plan, 3));
      if work.None? {
        GiveUp(c, dropFails, Gap(plan, 4));
        return Thrown;
      }
      Perform(Execute(c, work.value));
      Interleave(c, Gap(plan, 4));
      var stored := CompleteKey(c, request.responseStatus, work.value);
      outcome := if stored then Fresh(work.value) else Thrown;
      if stored {
        StoredWhereReserved(c, request);
      }
    }

    lemma StoredWhereReserved(c: CallId, request: Request)
      requires Valid() && HasId(keys, c) && c in calls && calls[c].request == request
      ensures request.slot in keys && keys[request.slot].id == c
      ensures keys[request.slot].fingerprint == StableStringify(request.source)
    {
      var slot :| slot in keys && keys[slot].id == c;
      assert RecordOk(View(), slot, keys[slot]);
    }

    /**
     * Reserve, execute, then complete or drop. `work` is what the execution would commit, or nothing if it
     * throws. The reply tells whether this call has executed, and a replay has its source.
     */
    method RunIdempotent(c: CallId, request: Request, work: Option<Body>, dropFails: bool, plan: seq<seq<Action>>)
      returns (outcome: Outcome)
      requires Valid() && c !in calls
      modifies this
      ensures Valid() && c in calls && At(c, request, Finished(outcome), calls[c].executed)
      ensures outcome.Fresh? ==> work == Some(outcome.body) && calls[c].executed == work
      ensures outcome.Replayed? ==> exists source :: ReplayOf(View(), request, outcome.body, source)
      ensures outcome.Replayed? || outcome in {KeyReuse, InProgress} || work.None? ==> calls[c].executed.None?
      ensures outcome.Fresh? ==> Holds(c, request, Some(Response(request.responseStatus, outcome.body)))
      ensures outcome.Replayed? || outcome in {KeyReuse, InProgress} ==> !HasId(keys, c)
      ensures work.None? && !dropFails ==> !HasId(keys, c)
      ensures Undisturbed(plan) && ToldAt(old(View()), request).Some? ==>
                outcome == ToldAt(old(View()), request).value && keys == old(keys)
      ensures Undisturbed(plan) && ToldAt(old(View()), request).None? ==>
                outcome == if work.Some? then Fresh(work.value) else Thrown
      ensures Undisturbed(plan) && ToldAt(old(View()), request).None? && work.None? && !dropFails ==>
                keys == old(keys) - {request.slot}
    {
      var stop := AskForKey(c, request, plan);
      if stop.Some? {
        return stop.value;
      }
      outcome := ExecuteReserved(c, request, work, dropFails, plan);
    }

    lemma NothingOfMine(c: CallId)
      requires Valid() && c !in calls
      ensures !HasId(keys, c)
    {
      forall slot | slot in keys
        ensures keys[slot].id != c
      {
        assert RecordOk(View(), slot, keys[slot]);
      }
    }
  }
}
