/**
 * Latest positions: the hot cache with its no-backwards rule beside the durable pings.
 * One agent's pings are handled one at a time. Durable rows are kept in creation order,
 * so a later row is a later-created one. Times are milliseconds.
 */
module PositionCache {
  import opened Collections
  import opened Optional

  datatype Key = Key(organization: nat, agent: nat)

  /** A reported position; the timestamp is absent when it does not parse. */
  datatype Ping = Ping(latitude: real, longitude: real, accuracy: real, recordedAt: Option<int>, jobId: Option<nat>)

  /** A cached value: a position with its owner, or bytes that do not parse to one. */
  datatype Entry = Position(owner: Key, ping: Ping) | Unreadable

  datatype WriteResult = Stored(position: Entry) | Kept(position: Entry) | Degraded

  // ---------------------------------------------------------------- the rule

  /** An arrival no newer than the cached timestamp never overwrites it. */
  predicate Overwrites(existing: Ping, incoming: Ping) {
    existing.recordedAt.None? ||
    (incoming.recordedAt.Some? && incoming.recordedAt.value > existing.recordedAt.value)
  }

  function Written(existing: Option<Ping>, incoming: Ping): Ping {
    if existing.Some? && !Overwrites(existing.value, incoming) then existing.value else incoming
  }

  function TimeOf(p: Option<Ping>): Option<int> {
    if p.None? then None else p.value.recordedAt
  }

  predicate AtMost(a: Option<int>, b: Option<int>) {
    a.None? || (b.Some? && a.value <= b.value)
  }

  // ---------------------------------------------------------------- one agent's history

  /** What is held for one agent: the cached position, if any, and the durable rows. */
  datatype Track = Track(cached: Option<Ping>, rows: seq<Ping>)

  /** A ping arrives, with the cache reachable or not; or the cached value expires or is lost. */
  datatype Event = Received(ping: Ping, reachable: bool) | Lost

  /** The row is committed before the cache is written; a timestamp that does not parse is refused. */
  function Apply(t: Track, e: Event): Track {
    match e
    case Received(ping, reachable) =>
      if ping.recordedAt.None? then t
      else Track(if reachable then Some(Written(t.cached, ping)) else t.cached, t.rows + [ping])
    case Lost => t.(cached := None)
  }

  function After(events: seq<Event>): Track {
    if events == [] then Track(None, []) else Apply(After(events[..|events| - 1]), events[|events| - 1])
  }

  /** The pings offered to the cache since it was last empty, in arrival order. */
  function Offered(events: seq<Event>): seq<Ping> {
    if events == [] then []
    else
      var before := Offered(events[..|events| - 1]);
      var e := events[|events| - 1];
      if e.Lost? then []
      else if e.reachable && e.ping.recordedAt.Some? then before + [e.ping]
      else before
  }

  predicate Timed(pings: seq<Ping>) {
    forall i :: 0 <= i < |pings| ==> pings[i].recordedAt.Some?
  }

  predicate DistinctTimes(pings: seq<Ping>) {
    forall i, j :: 0 <= i < j < |pings| ==> pings[i].recordedAt != pings[j].recordedAt
  }

  /** Position i holds the newest timestamp, and no earlier one does. */
  predicate FirstNewest(pings: seq<Ping>, i: nat)
    requires i < |pings| && Timed(pings)
  {
    forall j :: 0 <= j < |pings| ==>
      pings[j].recordedAt.value < pings[i].recordedAt.value ||
      (pings[j].recordedAt == pings[i].recordedAt && i <= j)
  }

  /** Position i holds the newest timestamp, and no later-created one does. */
  predicate LastNewest(pings: seq<Ping>, i: nat)
    requires i < |pings| && Timed(pings)
  {
    forall j :: 0 <= j < |pings| ==>
      pings[j].recordedAt.value < pings[i].recordedAt.value ||
      (pings[j].recordedAt == pings[i].recordedAt && j <= i)
  }

  /** The cached ping: the first that carries the newest timestamp. */
  ghost predicate HeldAt(pings: seq<Ping>, p: Ping)
    requires Timed(pings)
  {
    exists i :: 0 <= i < |pings| && pings[i] == p && FirstNewest(pings, i)
  }

  /** The fallback row: the last that carries the newest timestamp. */
  ghost predicate PickedAt(pings: seq<Ping>, p: Ping)
    requires Timed(pings)
  {
    exists i :: 0 <= i < |pings| && pings[i] == p && LastNewest(pings, i)
  }

  /** The durable fallback: newest timestamp first, then newest row. */
  function Fallback(rows: seq<Ping>): (pick: Option<Ping>)
    requires Timed(rows)
    ensures pick.None? <==> rows == []
    ensures pick.Some? ==> PickedAt(rows, pick.value)
  {
    if rows == [] then None
    else
      var n := |rows| - 1;
      var earlier := Fallback(rows[..n]);
      if earlier.Some? && rows[n].recordedAt.value < earlier.value.recordedAt.value then
        ghost var i :| 0 <= i < n && rows[..n][i] == earlier.value && LastNewest(rows[..n], i);
        assert forall j :: 0 <= j < n ==> rows[..n][j] == rows[j];
        assert LastNewest(rows, i);
        earlier
      else
        assert forall j :: 0 <= j < n ==> rows[..n][j] == rows[j];
        assert LastNewest(rows, n);
        Some(rows[n])
  }

  /** What a dispatcher is shown: the cached position, or the durable fallback on a miss. */
  function Shown(t: Track): Option<Ping>
    requires Timed(t.rows)
  {
    if t.cached.Some? then t.cached else Fallback(t.rows)
  }

  // ---------------------------------------------------------------- what holds of every history

  /** The cached timestamp never goes backwards, whatever arrives; only a loss takes it away. */
  lemma NeverBackwards(existing: Option<Ping>, incoming: Ping)
    ensures AtMost(TimeOf(existing), Written(existing, incoming).recordedAt)
    ensures AtMost(incoming.recordedAt, Written(existing, incoming).recordedAt)
    ensures Written(Some(Written(existing, incoming)), incoming) == Written(existing, incoming)
  {
  }

  lemma {:induction false} NeverBackwardsOverRuns(events: seq<Event>, k: nat)
    requires k <= |events|
    requires forall i :: k <= i < |events| ==> events[i].Received?
    ensures AtMost(TimeOf(After(events[..k]).cached), TimeOf(After(events).cached))
    ensures After(events[..k]).cached.Some? ==> After(events).cached.Some?
  {
    if k == |events| {
      assert events[..k] == events;
    } else {
      var n := |events| - 1;
      assert events[..n][..k] == events[..k];
      NeverBackwardsOverRuns(events[..n], k);
    }
  }

  /** The cache holds the first arrival with the newest timestamp among those offered since it was last empty. */
  lemma {:induction false} CacheHoldsFirstNewest(events: seq<Event>)
    ensures Timed(Offered(events)) && Timed(After(events).rows)
    ensures After(events).cached.None? <==> Offered(events) == []
    ensures After(events).cached.Some? ==> HeldAt(Offered(events), After(events).cached.value)
  {
    if events != [] {
      var n := |events| - 1;
      CacheHoldsFirstNewest(events[..n]);
      var before, offered := Offered(events[..n]), Offered(events);
      var held := After(events[..n]).cached;
      if offered != before && offered != [] {
        if held.Some? && After(events).cached == held {
          var i :| 0 <= i < |before| && before[i] == held.value && FirstNewest(before, i);
          assert FirstNewest(offered, i);
        } else {
          assert FirstNewest(offered, |before|);
        }
      }
    }
  }

  /** Everything offered to the cache is already a durable row. */
  lemma {:induction false} OfferedAreRows(events: seq<Event>)
    ensures forall p :: p in Offered(events) ==> p in After(events).rows
  {
    if events != [] {
      OfferedAreRows(events[..|events| - 1]);
    }
  }

  predicate Undisturbed(events: seq<Event>) {
    forall i :: 0 <= i < |events| ==> events[i].Received? && events[i].reachable
  }

  lemma {:induction false} UndisturbedOffersEveryRow(events: seq<Event>)
    requires Undisturbed(events)
    ensures Offered(events) == After(events).rows
  {
    if events != [] {
      UndisturbedOffersEveryRow(events[..|events| - 1]);
    }
  }

  lemma SameTimeSamePing(pings: seq<Ping>, p: Ping, q: Ping)
    requires DistinctTimes(pings) && p in pings && q in pings && p.recordedAt == q.recordedAt
    ensures p == q
  {
    var i :| 0 <= i < |pings| && pings[i] == p;
    var j :| 0 <= j < |pings| && pings[j] == q;
    assert i == j;
  }

  lemma HeldIsNewest(pings: seq<Ping>, held: Ping, p: Ping)
    requires Timed(pings) && HeldAt(pings, held) && p in pings
    ensures held in pings && p.recordedAt.value <= held.recordedAt.value
  {
  }

  lemma PickedIsNewest(pings: seq<Ping>, picked: Ping, p: Ping)
    requires Timed(pings) && PickedAt(pings, picked) && p in pings
    ensures picked in pings && p.recordedAt.value <= picked.recordedAt.value
  {
  }

  lemma HeldIsPickedIff(offered: seq<Ping>, rows: seq<Ping>, held: Ping, picked: Ping)
    requires Timed(offered) && Timed(rows) && DistinctTimes(rows)
    requires forall p :: p in offered ==> p in rows
    requires HeldAt(offered, held) && PickedAt(rows, picked)
    ensures held == picked <==> picked in offered
  {
    HeldIsNewest(offered, held, held);
    PickedIsNewest(rows, picked, held);
    if picked in offered {
      HeldIsNewest(offered, held, picked);
      SameTimeSamePing(rows, held, picked);
    }
  }

  /**
   * With distinct timestamps, a dispatcher is shown the durable newest position if and only if the cache is
   * empty or the newest position was offered to it since it was last empty: expiry and lost writes included.
   */
  lemma ShownIsNewestIff(events: seq<Event>)
    requires DistinctTimes(After(events).rows)
    ensures Timed(After(events).rows)
    ensures
      var t := After(events);
      Shown(t) == Fallback(t.rows) <==>
      Offered(events) == [] || (t.rows != [] && Fallback(t.rows).value in Offered(events))
  {
    CacheHoldsFirstNewest(events);
    OfferedAreRows(events);
    var t := After(events);
    if Offered(events) != [] {
      assert Offered(events)[0] in t.rows;
      HeldIsPickedIff(Offered(events), t.rows, t.cached.value, Fallback(t.rows).value);
    }
  }

  /** With distinct timestamps and no loss, every arrival order leaves cached what the durable fallback picks. */
  lemma EveryOrderAgrees(events: seq<Event>, reordered: seq<Event>)
    requires Undisturbed(events) && Undisturbed(reordered)
    requires DistinctTimes(After(events).rows)
    requires forall p :: p in After(events).rows <==> p in After(reordered).rows
    ensures Timed(After(events).rows) && After(events).cached == Fallback(After(events).rows)
    ensures After(reordered).cached == After(events).cached
  {
    CacheHoldsFirstNewest(events);
    CacheHoldsFirstNewest(reordered);
    UndisturbedOffersEveryRow(events);
    UndisturbedOffersEveryRow(reordered);
    var rows, others := After(events).rows, After(reordered).rows;
    HeadIsIn(rows);
    HeadIsIn(others);
    if rows != [] {
      var picked := Fallback(rows).value;
      PickedIsNewest(rows, picked, rows[0]);
      HeldIsPickedIff(rows, rows, After(events).cached.value, picked);
      HeldIsPickedIff(others, rows, After(reordered).cached.value, picked);
    }
  }

  /**
   * Repeated timestamps: with no loss, the cache agrees with the durable fallback if and only if the first and
   * the last row carrying the newest timestamp report the same. The cache keeps the first, the fallback the last.
   */
  lemma TiesDecideAgreement(events: seq<Event>, first: nat, last: nat)
    requires Undisturbed(events)
    requires first < |After(events).rows| && last < |After(events).rows|
    requires Timed(After(events).rows)
    requires FirstNewest(After(events).rows, first) && LastNewest(After(events).rows, last)
    ensures After(events).cached == Fallback(After(events).rows) <==>
            After(events).rows[first] == After(events).rows[last]
  {
    CacheHoldsFirstNewest(events);
    UndisturbedOffersEveryRow(events);
    var rows := After(events).rows;
    HeldIsAt(rows, After(events).cached.value, first);
    PickedIsAt(rows, Fallback(rows).value, last);
  }

  lemma HeldIsAt(pings: seq<Ping>, held: Ping, first: nat)
    requires Timed(pings) && HeldAt(pings, held) && first < |pings| && FirstNewest(pings, first)
    ensures held == pings[first]
  {
  }

  lemma PickedIsAt(pings: seq<Ping>, picked: Ping, last: nat)
    requires Timed(pings) && PickedAt(pings, picked) && last < |pings| && LastNewest(pings, last)
    ensures picked == pings[last]
  {
  }

  /** Any two pings with one timestamp and different data, in either order: the cache keeps the first, the fallback the last. */
  lemma TiesDisagree(p: Ping, q: Ping)
    requires p.recordedAt.Some? && p.recordedAt == q.recordedAt && p != q
    ensures var t := After([Received(p, true), Received(q, true)]);
            && Timed(t.rows) && t.cached == Some(p) && Fallback(t.rows) == Some(q) && Shown(t) != Fallback(t.rows)
  {
    var events := [Received(p, true), Received(q, true)];
    OneAfter([], Received(p, true));
    OneAfter([Received(p, true)], Received(q, true));
    assert [] + [Received(p, true)] == [Received(p, true)] && [Received(p, true)] + [Received(q, true)] == events;
    assert After(events) == Track(Some(p), [] + [p] + [q]);
    NewestOfTwo(p, q);
  }

  lemma OneAfter(events: seq<Event>, e: Event)
    ensures After(events + [e]) == Apply(After(events), e)
  {
    assert (events + [e])[..|events|] == events;
  }

  lemma NewestOfTwo(p: Ping, q: Ping)
    requires p.recordedAt.Some? && q.recordedAt.Some?
    ensures Timed([] + [p] + [q])
    ensures Fallback([] + [p] + [q]) == Some(if q.recordedAt.value < p.recordedAt.value then p else q)
  {
    var rows := [] + [p] + [q];
    assert rows[..1] == [p] && [p][..0] == [];
    assert Fallback([p]) == Some(p);
  }

  /** The newest ping is cached and lost, or never reached the cache, and an older one arrives: the older one is shown. */
  lemma OlderIsShown(newer: Ping, older: Ping, reached: bool)
    requires newer.recordedAt.Some? && older.recordedAt.Some? && older.recordedAt.value < newer.recordedAt.value
    ensures var t := After([Received(newer, reached), Lost, Received(older, true)]);
            Timed(t.rows) && Shown(t) == Some(older) && Fallback(t.rows) == Some(newer)
  {
    var first, lost := [Received(newer, reached)], [Received(newer, reached), Lost];
    OneAfter([], Received(newer, reached));
    OneAfter(first, Lost);
    OneAfter(lost, Received(older, true));
    assert [] + first == first && first + [Lost] == lost;
    assert lost + [Received(older, true)] == [Received(newer, reached), Lost, Received(older, true)];
    assert After(lost + [Received(older, true)]) == Track(Some(older), [] + [newer] + [older]);
    NewestOfTwo(newer, older);
  }

  // ---------------------------------------------------------------- the cache and the pings table

  class PositionStore {
    var cache: map<Key, Entry>
    var rows: map<Key, seq<Ping>>

    /** Every durable row has a timestamp, and every readable cached value belongs to its key. */
    ghost predicate Valid()
      reads this
    {
      && (forall k :: k in rows ==> Timed(rows[k]))
      && (forall k :: k in cache && cache[k].Position? ==> cache[k].owner == k)
    }

    function CachedFor(k: Key): Option<Ping>
      reads this
    {
      if k in cache && cache[k].Position? then Some(cache[k].ping) else None
    }

    function RowsFor(k: Key): seq<Ping>
      reads this
    {
      if k in rows then rows[k] else []
    }

    function TrackOf(k: Key): Track
      reads this
    {
      Track(CachedFor(k), RowsFor(k))
    }

    constructor ()
      ensures Valid()
      ensures forall k :: TrackOf(k) == After([])
    {
      cache, rows := map[], map[];
    }

    method WritePosition(key: Key, input: Ping, reachable: bool) returns (result: WriteResult)
      requires Valid()
      modifies this`cache
      ensures Valid()
      ensures CachedFor(key) == if reachable then Some(Written(old(CachedFor(key)), input)) else old(CachedFor(key))
      ensures forall k :: k != key ==> CachedFor(k) == old(CachedFor(k))
      ensures result.Degraded? <==> !reachable
      ensures result.Stored? ==> result.position == Position(key, input)
      ensures result.Kept? ==> CachedFor(key) == old(CachedFor(key)) && result.position == Position(key, CachedFor(key).value)
      ensures reachable ==> (result.Kept? <==> old(CachedFor(key)).Some? && !Overwrites(old(CachedFor(key)).value, input))
    {
      if !reachable {
        return Degraded;
      }
      if key in cache && cache[key].Position? && cache[key].owner.organization == key.organization {
        var existing := cache[key].ping.recordedAt;
        var incoming := input.recordedAt;
        if existing.Some? && (incoming.None? || incoming.value <= existing.value) {
          return Kept(cache[key]);
        }
      }
      var position := Position(key, input);
      cache := cache[key := position];
      return Stored(position);
    }

    method ReadPosition(key: Key, reachable: bool) returns (hit: Option<Ping>)
      requires Valid()
      ensures hit == if reachable then CachedFor(key) else None
    {
      if !reachable || key !in cache {
        return None;
      }
      var entry := cache[key];
      if entry.Unreadable? || entry.owner.organization != key.organization || entry.owner.agent != key.agent {
        return None;
      }
      hit := Some(entry.ping);
    }

    /** The ping route: the row first, then the cache; the outcome of the cache write never fails the request. */
    method CreatePing(key: Key, ping: Ping, reachable: bool) returns (accepted: bool)
      requires Valid()
      modifies this
      ensures Valid()
      ensures accepted <==> ping.recordedAt.Some?
      ensures TrackOf(key) == Apply(old(TrackOf(key)), Received(ping, reachable))
      ensures forall k :: k != key ==> TrackOf(k) == old(TrackOf(k))
    {
      if ping.recordedAt.None? {
        return false;
      }
      rows := rows[key := RowsFor(key) + [ping]];
      var _ := WritePosition(key, ping, reachable);
      return true;
    }

    /** Expiry, or the loss of the cached bytes. */
    method Lose(key: Key, garbled: bool)
      requires Valid()
      modifies this`cache
      ensures Valid()
      ensures TrackOf(key) == Apply(old(TrackOf(key)), Lost)
      ensures forall k :: k != key ==> TrackOf(k) == old(TrackOf(k))
    {
      if garbled {
        cache := cache[key := Unreadable];
      } else {
        cache := cache - {key};
      }
    }

    method ResolveLatestPosition(key: Key, reachable: bool) returns (shown: Option<Ping>)
      requires Valid()
      ensures Timed(RowsFor(key))
      ensures shown == if reachable then Shown(TrackOf(key)) else Fallback(RowsFor(key))
    {
      var cached := ReadPosition(key, reachable);
      if cached.Some? {
        return cached;
      }
      shown := Fallback(RowsFor(key));
    }
  }
}
