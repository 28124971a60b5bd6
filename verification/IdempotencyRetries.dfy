/**
 * What the key table promises a retry, and how far the budget of executions can be used
 * up: a completed row stays as it is until it expires, so a retry that looks it up in
 * time replays, whoever else is at work; and every number of take-overs is reached.
 */
module IdempotencyRetries {
  import opened Collections
  import opened Optional
  import opened StableJson
  import opened Idempotency

  // ---------------------------------------------------------------- a completed row stays

  /** The call has had its reservation, or is over; it never reserves again. */
  predicate PastReserving(phase: Phase) {
    phase.Reserved? || phase.Executed? || phase.ExecutionFailed? || phase.Finished?
  }

  /** A row's owner is past reserving, and finished once the response is stored. */
  predicate OwnerSettled(s: State, record: Record) {
    && record.id in s.calls && PastReserving(s.calls[record.id].phase)
    && (record.response.Some? ==> s.calls[record.id].phase.Finished?)
  }

  /** A call about to take a row over saw it expired. */
  predicate SawExpired(s: State, call: Call) {
    call.phase.Expired? ==>
      && call.phase.existing in s.calls && PastReserving(s.calls[call.phase.existing].phase)
      && (call.request.slot in s.keys && s.keys[call.request.slot].id == call.phase.existing ==>
            s.keys[call.request.slot].expiresAt < s.now)
  }

  ghost predicate Settled(s: State) {
    && (forall slot :: slot in s.keys ==> OwnerSettled(s, s.keys[slot]))
    && (forall c :: c in s.calls ==> SawExpired(s, s.calls[c]))
  }

  lemma StepKeepsOwner(s: State, a: Action, slot: Slot)
    requires Settled(s) && slot in Step(s, a).keys
    ensures OwnerSettled(Step(s, a), Step(s, a).keys[slot])
  {
    assert slot in s.keys ==> OwnerSettled(s, s.keys[slot]);
  }

  lemma StaysPastReserving(s: State, a: Action, c: CallId)
    requires c in s.calls && PastReserving(s.calls[c].phase)
    ensures c in Step(s, a).calls && PastReserving(Step(s, a).calls[c].phase)
  {
  }

  lemma RowWasThere(s: State, a: Action, slot: Slot, id: CallId)
    requires id in s.calls && PastReserving(s.calls[id].phase)
    requires slot in Step(s, a).keys && Step(s, a).keys[slot].id == id
    ensures slot in s.keys && s.keys[slot].id == id && s.keys[slot].expiresAt == Step(s, a).keys[slot].expiresAt
  {
  }

  lemma StepKeepsSaw(s: State, a: Action, c: CallId)
    requires Settled(s) && c in Step(s, a).calls
    ensures SawExpired(Step(s, a), Step(s, a).calls[c])
  {
    var after := Step(s, a);
    if after.calls[c].phase.Expired? {
      var id, slot := after.calls[c].phase.existing, after.calls[c].request.slot;
      SawItsOwner(s, a, c);
      StaysPastReserving(s, a, id);
      if slot in after.keys && after.keys[slot].id == id {
        RowWasThere(s, a, slot, id);
      }
    }
  }

  lemma SawItsOwner(s: State, a: Action, c: CallId)
    requires Settled(s) && c in Step(s, a).calls && Step(s, a).calls[c].phase.Expired?
    ensures c in s.calls && s.calls[c].request == Step(s, a).calls[c].request && s.now <= Step(s, a).now
    ensures var id, slot := Step(s, a).calls[c].phase.existing, s.calls[c].request.slot;
            && id in s.calls && PastReserving(s.calls[id].phase)
            && (slot in s.keys && s.keys[slot].id == id ==> s.keys[slot].expiresAt < s.now)
  {
    assert c in s.calls ==> SawExpired(s, s.calls[c]);
    if c in s.calls && s.calls[c].request.slot in s.keys {
      assert OwnerSettled(s, s.keys[s.calls[c].request.slot]);
    }
  }

  lemma {:induction false} RunsSettle(start: State, actions: seq<Action>)
    requires Initial(start)
    ensures Settled(After(start, actions))
  {
    if actions != [] {
      var s, a := After(start, actions[..|actions| - 1]), actions[|actions| - 1];
      RunsSettle(start, actions[..|actions| - 1]);
      forall slot | slot in Step(s, a).keys
        ensures OwnerSettled(Step(s, a), Step(s, a).keys[slot])
      {
        StepKeepsOwner(s, a, slot);
      }
      forall c | c in Step(s, a).calls
        ensures SawExpired(Step(s, a), Step(s, a).calls[c])
      {
        StepKeepsSaw(s, a, c);
      }
    }
  }

  predicate Completed(s: State, slot: Slot) {
    slot in s.keys && s.keys[slot].response.Some?
  }

  /** The slot's row belongs to a call that is over, with or without a response. */
  predicate LeftBehind(s: State, slot: Slot) {
    slot in s.keys && s.keys[slot].id in s.calls && s.calls[s.keys[slot].id].phase.Finished?
  }

  lemma CompletedIsLeftBehind(s: State, slot: Slot)
    requires Settled(s) && Completed(s, slot)
    ensures LeftBehind(s, slot)
  {
    assert OwnerSettled(s, s.keys[slot]);
  }

  lemma StepKeepsRow(s: State, a: Action, slot: Slot)
    requires Settled(s) && LeftBehind(s, slot) && s.now <= s.keys[slot].expiresAt
    ensures LeftBehind(Step(s, a), slot) && Step(s, a).keys[slot] == s.keys[slot] && s.now <= Step(s, a).now
  {
    FinishedStep(s, a, s.keys[slot].id);
    if a.Next? && a.call in s.calls {
      assert SawExpired(s, s.calls[a.call]);
    }
  }

  lemma OneStepOn(s: State, a: Action, d: CallId)
    ensures s.now <= Step(s, a).now
    ensures d in s.calls ==> d in Step(s, a).calls && Step(s, a).calls[d].request == s.calls[d].request
    ensures d !in s.calls && d in Step(s, a).calls ==>
              Step(s, a).calls[d] == Call(Step(s, a).calls[d].request, Asking, None, false)
  {
  }

  /** A completed row is the same row for as long as it has not expired, whatever any calls do. */
  lemma CompletedRowStays(start: State, actions: seq<Action>, more: seq<Action>, slot: Slot)
    requires Initial(start) && Completed(After(start, actions), slot)
    requires After(start, actions + more).now <= After(start, actions).keys[slot].expiresAt
    ensures var after := After(start, actions + more);
            slot in after.keys && after.keys[slot] == After(start, actions).keys[slot]
  {
    RunsSettle(start, actions);
    CompletedIsLeftBehind(After(start, actions), slot);
    RowLeftBehindStays(start, actions, more, slot);
  }

  /** So is the row of a call that crashed or lost its drop. */
  lemma {:induction false} RowLeftBehindStays(start: State, actions: seq<Action>, more: seq<Action>, slot: Slot)
    requires Initial(start) && LeftBehind(After(start, actions), slot)
    requires After(start, actions + more).now <= After(start, actions).keys[slot].expiresAt
    ensures LeftBehind(After(start, actions + more), slot)
    ensures After(start, actions + more).keys[slot] == After(start, actions).keys[slot]
    decreases |more|
  {
    if more == [] {
      assert actions + more == actions;
    } else {
      var n := |more| - 1;
      AfterLast(start, actions, more);
      var before := After(start, actions + more[..n]);
      OneStepOn(before, more[n], 0);
      RowLeftBehindStays(start, actions, more[..n], slot);
      RunsSettle(start, actions + more[..n]);
      StepKeepsRow(before, more[n], slot);
    }
  }

  lemma AfterLast(start: State, actions: seq<Action>, more: seq<Action>)
    requires more != []
    ensures After(start, actions + more) == Step(After(start, actions + more[..|more| - 1]), more[|more| - 1])
  {
    var n := |more| - 1;
    AfterOneMore(start, actions + more[..n], more[n]);
    assert actions + more == (actions + more[..n]) + [more[n]];
  }

  // ---------------------------------------------------------------- a retry

  /** Where a retry can be while the row it retries has not expired: it never reserves and never executes. */
  predicate OnItsWay(call: Call, body: Body) {
    && call.executed.None? && !call.tookOver
    && (call.phase.Asking? || call.phase.Conflicted? || call.phase == Finished(Replayed(body)) || call.phase == Finished(Crashed))
  }

  /** The row holds the response of an equal request. */
  ghost predicate Answers(s: State, request: Request) {
    && Completed(s, request.slot) && s.keys[request.slot].id in s.calls
    && WellFormed(request.source) && WellFormed(s.calls[s.keys[request.slot].id].request.source)
    && Same(s.calls[s.keys[request.slot].id].request.source, request.source)
  }

  lemma AnswersFingerprint(start: State, actions: seq<Action>, request: Request)
    requires Initial(start) && Answers(After(start, actions), request)
    ensures After(start, actions).keys[request.slot].fingerprint == request.Fingerprint()
  {
    RunsKeepInv(start, actions);
    var s := After(start, actions);
    assert RecordOk(s, request.slot, s.keys[request.slot]);
    TextIsCanonical(s.calls[s.keys[request.slot].id].request.source, request.source);
  }

  lemma StepOnItsWay(s: State, a: Action, d: CallId, record: Record)
    requires d in s.calls && record.response.Some? && OnItsWay(s.calls[d], record.response.value.body)
    requires s.calls[d].request.slot in s.keys && s.keys[s.calls[d].request.slot] == record
    requires s.now <= record.expiresAt && record.fingerprint == s.calls[d].request.Fingerprint()
    ensures d in Step(s, a).calls && Step(s, a).calls[d].request == s.calls[d].request
    ensures OnItsWay(Step(s, a).calls[d], record.response.value.body)
  {
  }

  /** However the others interleave, until the row expires a retry is on its way to the stored response. */
  lemma {:induction false} RetryIsOnItsWay(start: State, actions: seq<Action>, more: seq<Action>, request: Request, d: CallId)
    requires Initial(start) && Answers(After(start, actions), request) && d !in After(start, actions).calls
    requires var after := After(start, actions + more);
             d in after.calls && after.calls[d].request == request
             && after.now <= After(start, actions).keys[request.slot].expiresAt
    ensures OnItsWay(After(start, actions + more).calls[d], After(start, actions).keys[request.slot].response.value.body)
    decreases |more|
  {
    assert actions + [] == actions;
    if more != [] {
      var n := |more| - 1;
      var before := After(start, actions + more[..n]);
      AfterLast(start, actions, more);
      OneStepOn(before, more[n], d);
      if d in before.calls {
        RetryIsOnItsWay(start, actions, more[..n], request, d);
        CompletedRowStays(start, actions, more[..n], request.slot);
        AnswersFingerprint(start, actions, request);
        StepOnItsWay(before, more[n], d, After(start, actions).keys[request.slot]);
      }
    }
  }

  lemma {:induction false} FinishedStays(s: State, actions: seq<Action>, d: CallId)
    requires d in s.calls && s.calls[d].phase.Finished?
    ensures d in After(s, actions).calls && After(s, actions).calls[d] == s.calls[d]
  {
    if actions != [] {
      FinishedStays(s, actions[..|actions| - 1], d);
      FinishedStep(After(s, actions[..|actions| - 1]), actions[|actions| - 1], d);
    }
  }

  lemma FinishedStep(s: State, a: Action, d: CallId)
    requires d in s.calls && s.calls[d].phase.Finished?
    ensures d in Step(s, a).calls && Step(s, a).calls[d] == s.calls[d]
  {
  }

  /**
   * A retry with an equal request, whatever other calls do before and between its steps: if the row has not
   * expired when the retry looks it up, the lookup replays the stored response and touches no row. From then
   * on the retry is over, whatever follows, and it has executed nothing.
   */
  lemma RetryReplays(start: State, actions: seq<Action>, between: seq<Action>, rest: seq<Action>, request: Request, d: CallId)
    requires Initial(start) && Answers(After(start, actions), request) && d !in After(start, actions).calls
    requires var now := After(start, actions + between);
             d in now.calls && now.calls[d].request == request && now.calls[d].phase.Conflicted?
             && now.now <= After(start, actions).keys[request.slot].expiresAt
    ensures var now := After(start, actions + between);
            var body := After(start, actions).keys[request.slot].response.value.body;
            var looked := Step(now, Next(d));
            && looked.keys == now.keys
            && d in After(looked, rest).calls
            && After(looked, rest).calls[d] == Call(request, Finished(Replayed(body)), None, false)
  {
    var now := After(start, actions + between);
    CompletedRowStays(start, actions, between, request.slot);
    AnswersFingerprint(start, actions, request);
    RetryIsOnItsWay(start, actions, between, request, d);
    FinishedStays(Step(now, Next(d)), rest, d);
  }

  /** The same key with another request, looked up before the row expires, is refused as reuse and touches no row. */
  lemma OtherRequestIsReuse(start: State, actions: seq<Action>, between: seq<Action>, request: Request, d: CallId)
    requires Initial(start) && Completed(After(start, actions), request.slot)
    requires After(start, actions).keys[request.slot].id in After(start, actions).calls
    requires var first := After(start, actions).calls[After(start, actions).keys[request.slot].id].request.source;
             WellFormed(request.source) && WellFormed(first) && !Same(first, request.source)
    requires var now := After(start, actions + between);
             d in now.calls && now.calls[d].request == request && now.calls[d].phase.Conflicted?
             && now.now <= After(start, actions).keys[request.slot].expiresAt
    ensures var now := After(start, actions + between);
            var looked := Step(now, Next(d));
            looked.keys == now.keys && d in looked.calls && looked.calls[d].phase == Finished(KeyReuse)
  {
    RunsKeepInv(start, actions);
    var row := After(start, actions).keys[request.slot];
    assert RecordOk(After(start, actions), request.slot, row);
    TextIsCanonical(After(start, actions).calls[row.id].request.source, request.source);
    CompletedRowStays(start, actions, between, request.slot);
  }

  /**
   * A crash after the reservation keeps the key: until the row expires every lookup of it, by an equal request or
   * another, is told that the work is in progress, and once it has expired a lookup may take it over.
   */
  lemma CrashKeepsTheKey(start: State, actions: seq<Action>, between: seq<Action>, c: CallId, d: CallId)
    requires Initial(start) && c in After(start, actions).calls
    requires var s := After(start, actions);
             var slot := s.calls[c].request.slot;
             && s.calls[c].phase == Finished(Crashed)
             && slot in s.keys && s.keys[slot].id == c && s.keys[slot].response.None?
    requires d in After(start, actions + between).calls && After(start, actions + between).calls[d].phase.Conflicted?
    requires After(start, actions + between).calls[d].request.slot == After(start, actions).calls[c].request.slot
    ensures
      var s, now := After(start, actions), After(start, actions + between);
      var slot := s.calls[c].request.slot;
      var looked := Step(now, Next(d));
      && looked.keys == now.keys && d in looked.calls
      && (now.now <= s.keys[slot].expiresAt ==> looked.calls[d].phase == Finished(InProgress))
      && (now.now > s.keys[slot].expiresAt && slot in now.keys && now.keys[slot] == s.keys[slot] ==>
            looked.calls[d].phase == Expired(c))
  {
    var slot := After(start, actions).calls[c].request.slot;
    if After(start, actions + between).now <= After(start, actions).keys[slot].expiresAt {
      RowLeftBehindStays(start, actions, between, slot);
    }
  }

  // ---------------------------------------------------------------- a failed execution gives its key back

  /** A call that finds its slot free reserves it, executes, and stores the response there. */
  lemma FreeKeyIsExecuted(s: State, d: CallId, request: Request, body: Body)
    requires d !in s.calls && request.slot !in s.keys
    ensures
      var reserved := Step(Step(s, Begin(d, request)), Next(d));
      var done := Step(Step(reserved, Execute(d, body)), Next(d));
      && d in reserved.calls && reserved.calls[d] == Call(request, Reserved, None, false)
      && reserved.keys == s.keys[request.slot := Record(d, StableStringify(request.source), None, s.now + 86_400_000)]
      && d in done.calls && done.calls[d] == Call(request, Finished(Fresh(body)), Some(body), false)
      && request.slot in done.keys
      && done.keys[request.slot].id == d
      && done.keys[request.slot].response == Some(Response(request.responseStatus, body))
  {
    var asking, reserved := Call(request, Asking, None, false), Call(request, Reserved, None, false);
    var began := With(s, d, asking);
    Overwritten(s, d, asking, reserved);
    assert Step(began, Next(d)) == With(s, d, reserved)
           .(keys := s.keys[request.slot := NewRecord(s, d, request)]);
    ReservedIsExecuted(Step(began, Next(d)), d, request, body);
  }

  lemma ReservedIsExecuted(s: State, d: CallId, request: Request, body: Body)
    requires d in s.calls && s.calls[d] == Call(request, Reserved, None, false)
    requires request.slot in s.keys && s.keys[request.slot].id == d
    ensures
      var done := Step(Step(s, Execute(d, body)), Next(d));
      && d in done.calls && done.calls[d] == Call(request, Finished(Fresh(body)), Some(body), false)
      && request.slot in done.keys
      && done.keys[request.slot].id == d
      && done.keys[request.slot].response == Some(Response(request.responseStatus, body))
  {
    var executed := Step(s, Execute(d, body));
    assert HasId(executed.keys, d);
    assert Step(executed, Next(d)) == StoreResponse(executed, d);
  }

  /** In every run: a failed call's drop frees its own slot if the row there is still its own, and changes no other. */
  lemma FailedCallsFreeTheirKey(start: State, actions: seq<Action>, c: CallId)
    requires Initial(start)
    requires c in After(start, actions).calls && After(start, actions).calls[c].phase.ExecutionFailed?
    ensures
      var failed, dropped := After(start, actions), After(start, actions + [Next(c)]);
      var own := failed.calls[c].request.slot;
      && !HasId(dropped.keys, c)
      && (forall slot :: slot in failed.keys && slot != own ==> slot in dropped.keys && dropped.keys[slot] == failed.keys[slot])
      && (forall slot :: slot in dropped.keys ==> slot in failed.keys)
      && (own in failed.keys && failed.keys[own].id == c ==> own !in dropped.keys)
  {
    AfterOneMore(start, actions, Next(c));
    RunsKeepInv(start, actions);
    var failed := After(start, actions);
    forall slot | slot in failed.keys && slot != failed.calls[c].request.slot
      ensures failed.keys[slot].id != c
    {
      assert RecordOk(failed, slot, failed.keys[slot]);
    }
  }

  /**
   * In every run: a call whose execution fails and whose drop goes through leaves its key behind for the next one.
   * However others go on, as long as nobody has taken the slot meanwhile, the next call of the slot reserves it,
   * may execute, and stores its response.
   */
  lemma FailedCallsCanBeRetried(start: State, actions: seq<Action>, c: CallId, more: seq<Action>, d: CallId,
                                request: Request, body: Body)
    requires Initial(start)
    requires c in After(start, actions).calls && After(start, actions).calls[c].phase.ExecutionFailed?
    requires request.slot == After(start, actions).calls[c].request.slot
    requires d !in After(start, actions + [Next(c)] + more).calls
    ensures !HasId(After(start, actions + [Next(c)]).keys, c)
    ensures var failed := After(start, actions);
            request.slot in failed.keys && failed.keys[request.slot].id == c ==>
              request.slot !in After(start, actions + [Next(c)]).keys
    ensures
      var now := After(start, actions + [Next(c)] + more);
      var done := After(start, actions + [Next(c)] + more + [Begin(d, request), Next(d), Execute(d, body), Next(d)]);
      request.slot !in now.keys ==>
        && d in done.calls && done.calls[d].phase == Finished(Fresh(body)) && done.calls[d].executed == Some(body)
        && Completed(done, request.slot) && done.keys[request.slot].id == d
  {
    FailedCallsFreeTheirKey(start, actions, c);
    var run := actions + [Next(c)] + more;
    var now := After(start, run);
    if request.slot !in now.keys {
      FreeKeyIsExecuted(now, d, request, body);
      var began := Step(now, Begin(d, request));
      var reserved := Step(began, Next(d));
      var executed := Step(reserved, Execute(d, body));
      FourMore(start, run, now, Begin(d, request), began, Next(d), reserved, Execute(d, body), executed,
               Next(d), Step(executed, Next(d)));
    }
  }

  /** One action leads from a state to the next. */
  ghost predicate Leads(s: State, a: Action, next: State) {
    Step(s, a) == next
  }

  lemma OneMore(start: State, run: seq<Action>, s: State, a: Action, next: State, all: seq<Action>)
    requires After(start, run) == s && Leads(s, a, next) && all == run + [a]
    ensures After(start, all) == next
  {
    AfterOneMore(start, run, a);
  }

  lemma FourMore(start: State, run: seq<Action>, s0: State, a: Action, s1: State, b: Action, s2: State, c: Action,
                 s3: State, d: Action, s4: State)
    requires After(start, run) == s0 && Leads(s0, a, s1) && Leads(s1, b, s2) && Leads(s2, c, s3) && Leads(s3, d, s4)
    ensures After(start, run + [a, b, c, d]) == s4
  {
    OneMore(start, run, s0, a, s1, run + [a]);
    OneMore(start, run + [a], s1, b, s2, run + [a, b]);
    OneMore(start, run + [a, b], s2, c, s3, run + [a, b, c]);
    OneMore(start, run + [a, b, c], s3, d, s4, run + [a, b, c, d]);
  }

  /** In every run: an executed call that still finds its row reports its own body and stores it there for the retries. */
  lemma FreshIsStored(start: State, actions: seq<Action>, c: CallId)
    requires Initial(start) && c in After(start, actions).calls && After(start, actions).calls[c].phase.Executed?
    ensures
      var s, after := After(start, actions), Step(After(start, actions), Next(c));
      var slot := s.calls[c].request.slot;
      && s.calls[c].executed.Some? && c in after.calls
      && var body := s.calls[c].executed.value;
      if slot in s.keys && s.keys[slot].id == c
      then && after.calls[c].phase == Finished(Fresh(body))
           && after.keys == s.keys[slot := s.keys[slot].(response := Some(Response(s.calls[c].request.responseStatus, body)))]
      else after.calls[c].phase == Finished(Thrown) && after.keys == s.keys
  {
    RunsKeepInv(start, actions);
    var s := After(start, actions);
    assert CallOk(s, s.calls[c]);
    forall slot | slot in s.keys
      ensures s.keys[slot].id == c ==> slot == s.calls[c].request.slot
    {
      assert RecordOk(s, slot, s.keys[slot]);
    }
  }

  // ---------------------------------------------------------------- the budget is tight

  /** After n take-overs: calls 0..n have all executed the same request, and the last row has expired. */
  ghost predicate Rounds(s: State, request: Request, n: nat) {
    && (forall c :: c in s.calls <==> 0 <= c <= n)
    && (forall c :: c in s.calls ==>
          s.calls[c].request == request && s.calls[c].executed.Some? && (s.calls[c].tookOver <==> c > 0))
    && request.slot in s.keys && s.keys[request.slot].id == n && s.keys[request.slot].expiresAt < s.now
  }

  lemma AfterOneMore(start: State, actions: seq<Action>, a: Action)
    ensures After(start, actions + [a]) == Step(After(start, actions), a)
  {
    assert (actions + [a])[..|actions|] == actions;
  }

  /** The state with one call in the given condition. */
  function With(s: State, c: CallId, call: Call): State {
    s.(calls := s.calls[c := call])
  }

  lemma Overwritten(s: State, c: CallId, first: Call, second: Call)
    ensures With(With(s, c, first), c, second) == With(s, c, second)
  {
    assert s.calls[c := first][c := second] == s.calls[c := second];
  }

  /** A new call's insert meets the row, and the lookup finds it expired. */
  lemma LooksUp(s: State, request: Request, n: nat)
    requires Rounds(s, request, n)
    ensures var c := n + 1;
            var asking, conflicted := Call(request, Asking, None, false), Call(request, Conflicted, None, false);
            && Step(s, Begin(c, request)) == With(s, c, asking)
            && Step(With(s, c, asking), Next(c)) == With(s, c, conflicted)
            && Step(With(s, c, conflicted), Next(c)) == With(s, c, Call(request, Expired(n), None, false))
  {
    var c := n + 1;
    var asking, conflicted := Call(request, Asking, None, false), Call(request, Conflicted, None, false);
    Overwritten(s, c, asking, conflicted);
    Overwritten(s, c, conflicted, Call(request, Expired(n), None, false));
  }

  lemma Takes(s: State, request: Request, n: nat)
    requires Rounds(s, request, n)
    ensures var c := n + 1;
            Step(With(s, c, Call(request, Expired(n), None, false)), Next(c)) ==
            With(s, c, Call(request, Reserved, None, true)).(keys := s.keys[request.slot := NewRecord(s, c, request)])
  {
    Overwritten(s, n + 1, Call(request, Expired(n), None, false), Call(request, Reserved, None, true));
  }

  /** A call begins, finds the expired row, and takes it over. */
  lemma Reenter(s: State, request: Request, n: nat) returns (actions: seq<Action>)
    requires Rounds(s, request, n)
    ensures var c := n + 1;
            After(s, actions) ==
            With(s, c, Call(request, Reserved, None, true)).(keys := s.keys[request.slot := NewRecord(s, c, request)])
  {
    var c := n + 1;
    LooksUp(s, request, n);
    Takes(s, request, n);
    var a1 := [] + [Begin(c, request)];
    AfterOneMore(s, [], Begin(c, request));
    var a2 := a1 + [Next(c)];
    AfterOneMore(s, a1, Next(c));
    var a3 := a2 + [Next(c)];
    AfterOneMore(s, a2, Next(c));
    actions := a3 + [Next(c)];
    AfterOneMore(s, a3, Next(c));
  }

  /** The holder of the row executes, and the row is left to expire. */
  lemma ExecuteAndSleep(s: State, c: CallId, body: Body) returns (actions: seq<Action>)
    requires c in s.calls && s.calls[c].phase.Reserved?
    ensures After(s, actions) ==
            s.(calls := s.calls[c := s.calls[c].(phase := Executed, executed := Some(body))], now := s.now + DEFAULT_TTL_MS + 1)
  {
    var a1 := [] + [Execute(c, body)];
    AfterOneMore(s, [], Execute(c, body));
    actions := a1 + [Tick(s.now + DEFAULT_TTL_MS + 1)];
    AfterOneMore(s, a1, Tick(s.now + DEFAULT_TTL_MS + 1));
  }

  lemma {:induction false} Join(s: State, first: seq<Action>, more: seq<Action>)
    ensures After(s, first + more) == After(After(s, first), more)
  {
    if more == [] {
      assert first + more == first;
    } else {
      var n := |more| - 1;
      Join(s, first, more[..n]);
      assert (first + more)[..|first| + n] == first + more[..n];
    }
  }

  lemma Reserves(s: State, request: Request)
    requires Initial(s)
    ensures var asking := Call(request, Asking, None, false);
            && Step(s, Begin(0, request)) == With(s, 0, asking)
            && Step(With(s, 0, asking), Next(0)) ==
               With(s, 0, Call(request, Reserved, None, false)).(keys := s.keys[request.slot := NewRecord(s, 0, request)])
  {
    Overwritten(s, 0, Call(request, Asking, None, false), Call(request, Reserved, None, false));
  }

  lemma FirstRound(start: State, request: Request, body: Body) returns (actions: seq<Action>)
    requires Initial(start)
    ensures Rounds(After(start, actions), request, 0)
  {
    Reserves(start, request);
    var a1 := [] + [Begin(0, request)];
    AfterOneMore(start, [], Begin(0, request));
    var a2 := a1 + [Next(0)];
    AfterOneMore(start, a1, Next(0));
    var reserved := With(start, 0, Call(request, Reserved, None, false))
                      .(keys := start.keys[request.slot := NewRecord(start, 0, request)]);
    var more := ExecuteAndSleep(reserved, 0, body);
    Join(start, a2, more);
    actions := a2 + more;
  }

  lemma NextRound(s: State, request: Request, body: Body, n: nat) returns (actions: seq<Action>)
    requires Rounds(s, request, n)
    ensures Rounds(After(s, actions), request, n + 1)
  {
    var first := Reenter(s, request, n);
    var more := ExecuteAndSleep(After(s, first), n + 1, body);
    Join(s, first, more);
    actions := first + more;
  }

  lemma {:induction false} ReachRound(start: State, request: Request, body: Body, n: nat) returns (actions: seq<Action>)
    requires Initial(start)
    ensures Rounds(After(start, actions), request, n)
  {
    if n == 0 {
      actions := FirstRound(start, request, body);
    } else {
      var first := ReachRound(start, request, body, n - 1);
      var more := NextRound(After(start, first), request, body, n - 1);
      Join(start, first, more);
      actions := first + more;
    }
  }

  lemma {:induction false} CountUpTo(n: nat, ids: set<CallId>)
    requires forall c :: c in ids <==> 0 <= c < n
    ensures |ids| == n
  {
    if n > 0 {
      CountUpTo(n - 1, ids - {n - 1});
    } else {
      assert ids == {};
    }
  }

  /** The budget is tight for every n: some run has n take-overs of expired rows and n + 1 executions of one request. */
  lemma TakeOversAreSpent(start: State, request: Request, body: Body, n: nat) returns (actions: seq<Action>)
    requires Initial(start)
    ensures |TakeOvers(After(start, actions), request.slot)| == n
    ensures |Executions(After(start, actions), request.slot)| == n + 1
  {
    actions := ReachRound(start, request, body, n);
    var s := After(start, actions);
    CountUpTo(n + 1, Executions(s, request.slot));
    assert TakeOvers(s, request.slot) == Executions(s, request.slot) - {0};
  }
}
