/**
 * Agent suggestions for a job: filter by the assignment rules, score, and rank agents
 * with a known position before the others. Distances and scores are reals; user
 * identities have a strict total order.
 */
module Suggestions {
  import opened Collections
  import opened Optional
  import opened Eligibility
  import Dispatch

  type JobId = Dispatch.JobId

  datatype Location = Location(latitude: real, longitude: real)

  /** A coordinate that is missing or not a finite number is absent. */
  datatype Reported = Reported(latitude: Option<real>, longitude: Option<real>)

  type Distance = (Location, Location) -> real

  datatype Candidate = Candidate(userId: UserId, activeJobs: nat, location: Location)

  datatype Suggestion = Suggestion(userId: UserId, activeJobs: nat, distanceKm: Option<real>, finalScore: Option<real>) {
    predicate PositionKnown() { finalScore.Some? }

    function Weight(): real {
      if finalScore.Some? then finalScore.value else activeJobs as real
    }
  }

  datatype Weights = Weights(distance: real, load: real)

  const DEFAULT_WEIGHTS := Weights(1.0, 10.0)

  // ---------------------------------------------------------------- ordering

  /** The comparator within one tier: the weight, then the user identity. */
  predicate Before(a: Suggestion, b: Suggestion) {
    a.Weight() < b.Weight() || (a.Weight() == b.Weight() && a.userId < b.userId)
  }

  predicate InOrder(s: seq<Suggestion>) {
    forall i, j :: 0 <= i < j < |s| ==> !Before(s[j], s[i])
  }

  /** The order of the whole list: known positions first. */
  predicate Precedes(a: Suggestion, b: Suggestion) {
    if a.PositionKnown() != b.PositionKnown() then a.PositionKnown() else Before(a, b)
  }

  predicate Ranked(s: seq<Suggestion>) {
    forall i, j :: 0 <= i < j < |s| ==> Precedes(s[i], s[j])
  }

  predicate DistinctUsers(s: seq<Suggestion>) {
    forall i, j :: 0 <= i < j < |s| ==> s[i].userId != s[j].userId
  }

  function Inserted(s: seq<Suggestion>, item: Suggestion, k: nat): seq<Suggestion>
    requires k <= |s|
  {
    s[..k] + [item] + s[k..]
  }

  lemma InsertedInOrder(s: seq<Suggestion>, item: Suggestion, k: nat)
    requires k <= |s| && InOrder(s)
    requires k > 0 ==> !Before(item, s[k - 1])
    requires k < |s| ==> Before(item, s[k])
    ensures InOrder(Inserted(s, item, k))
  {
    var after := Inserted(s, item, k);
    forall i, j | 0 <= i < j < |after|
      ensures !Before(after[j], after[i])
    {
      var before := if i < k then s[i] else item;
      assert i <= k ==> after[i] == before;
      assert i < k - 1 ==> !Before(s[k - 1], s[i]);
      assert k < |s| && j > k + 1 ==> !Before(s[j - 1], s[k]);
      assert j > k ==> j == k + 1 || after[j] == s[j - 1];
    }
  }

  lemma InsertedElements(s: seq<Suggestion>, item: Suggestion, k: nat)
    requires k <= |s|
    ensures multiset(Inserted(s, item, k)) == multiset(s) + multiset{item}
  {
    assert s == s[..k] + s[k..];
  }

  lemma InsertedDistinct(s: seq<Suggestion>, item: Suggestion, k: nat)
    requires k <= |s| && DistinctUsers(s)
    requires forall e :: e in s ==> e.userId != item.userId
    ensures DistinctUsers(Inserted(s, item, k))
  {
    var after := Inserted(s, item, k);
    forall i | 0 <= i < |after|
      ensures after[i] == if i < k then s[i] else if i == k then item else s[i - 1]
    {
    }
  }

  /** Puts one entry behind every entry it does not precede. */
  method InsertSuggestion(sorted: seq<Suggestion>, item: Suggestion) returns (after: seq<Suggestion>)
    requires InOrder(sorted)
    ensures InOrder(after) && multiset(after) == multiset(sorted) + multiset{item}
    ensures DistinctUsers(sorted) && (forall e :: e in sorted ==> e.userId != item.userId) ==> DistinctUsers(after)
  {
    var k := |sorted|;
    while k > 0 && Before(item, sorted[k - 1])
      invariant 0 <= k <= |sorted|
      invariant k < |sorted| ==> Before(item, sorted[k])
    {
      k := k - 1;
    }
    InsertedInOrder(sorted, item, k);
    InsertedElements(sorted, item, k);
    if DistinctUsers(sorted) && (forall e :: e in sorted ==> e.userId != item.userId) {
      InsertedDistinct(sorted, item, k);
    }
    after := Inserted(sorted, item, k);
  }

  method SortSuggestions(items: seq<Suggestion>) returns (sorted: seq<Suggestion>)
    ensures InOrder(sorted) && multiset(sorted) == multiset(items)
    ensures DistinctUsers(items) ==> DistinctUsers(sorted)
  {
    sorted := [];
    for n := 0 to |items|
      invariant InOrder(sorted) && multiset(sorted) == multiset(items[..n])
      invariant DistinctUsers(items) ==> DistinctUsers(sorted)
    {
      SameElements(sorted, items[..n]);
      assert items[..n + 1] == items[..n] + [items[n]];
      sorted := InsertSuggestion(sorted, items[n]);
    }
    assert items[..|items|] == items;
  }

  lemma SameElements(a: seq<Suggestion>, b: seq<Suggestion>)
    requires multiset(a) == multiset(b)
    ensures forall e :: e in a <==> e in b
  {
    assert forall e :: e in a <==> e in multiset(a);
    assert forall e :: e in b <==> e in multiset(b);
  }

  // ---------------------------------------------------------------- scoring

  /** Nearer and less busy is better: the score grows with the distance and with every active job. */
  function ScoreAgent(c: Candidate, jobLocation: Location, km: Distance, weights: Weights): (s: Suggestion)
    ensures s.PositionKnown() && s.userId == c.userId && s.activeJobs == c.activeJobs
  {
    var distance := km(c.location, jobLocation);
    Suggestion(c.userId, c.activeJobs, Some(distance),
               Some(distance * weights.distance + c.activeJobs as real * weights.load))
  }

  function Scores(candidates: seq<Candidate>, jobLocation: Location, km: Distance, weights: Weights): (scores: seq<Suggestion>)
    ensures |scores| == |candidates|
    ensures forall i :: 0 <= i < |candidates| ==> scores[i] == ScoreAgent(candidates[i], jobLocation, km, weights)
  {
    seq(|candidates|, i requires 0 <= i < |candidates| => ScoreAgent(candidates[i], jobLocation, km, weights))
  }

  method RankAgents(candidates: seq<Candidate>, jobLocation: Location, km: Distance, weights: Weights)
    returns (scored: seq<Suggestion>)
    ensures InOrder(scored)
    ensures multiset(scored) == multiset(Scores(candidates, jobLocation, km, weights))
    ensures DistinctUsers(Scores(candidates, jobLocation, km, weights)) ==> DistinctUsers(scored)
  {
    scored := SortSuggestions(Scores(candidates, jobLocation, km, weights));
  }

  // ---------------------------------------------------------------- who belongs on the list

  function MemberOf(db: Dispatch.Tables, user: UserId): Option<Membership> {
    if user in db.members then Some(db.members[user]) else None
  }

  function ActiveJobs(db: Dispatch.Tables, user: UserId): nat {
    |Dispatch.ActiveFor(db.assignments, user)|
  }

  predicate Suggestible(db: Dispatch.Tables, user: UserId) {
    Eligible(MemberOf(db, user), db.organization, ActiveJobs(db, user), db.defaultCap)
  }

  function ValidPosition(value: Option<Reported>): Option<Location> {
    if value.Some? && value.value.latitude.Some? && value.value.longitude.Some?
    then Some(Location(value.value.latitude.value, value.value.longitude.value))
    else None
  }

  function PositionOf(positions: map<UserId, Reported>, user: UserId): Option<Location> {
    ValidPosition(if user in positions then Some(positions[user]) else None)
  }

  function Entry(db: Dispatch.Tables, positions: map<UserId, Reported>, jobLocation: Location, km: Distance, user: UserId): Suggestion {
    var position := PositionOf(positions, user);
    if position.Some? then ScoreAgent(Candidate(user, ActiveJobs(db, user), position.value), jobLocation, km, DEFAULT_WEIGHTS)
    else Suggestion(user, ActiveJobs(db, user), None, None)
  }

  predicate Lists(list: seq<Suggestion>, user: UserId) {
    exists i :: 0 <= i < |list| && list[i].userId == user
  }

  /** The list holds exactly the suggestible members' entries, in the ranking order. */
  ghost predicate IsRanking(list: seq<Suggestion>, db: Dispatch.Tables, positions: map<UserId, Reported>,
                            jobLocation: Location, km: Distance) {
    && (forall e :: e in list ==> Suggestible(db, e.userId) && e == Entry(db, positions, jobLocation, km, e.userId))
    && (forall user :: Suggestible(db, user) ==> Lists(list, user))
    && Ranked(list)
  }

  /** An agent is listed if and only if an assignment's eligibility check would pass right now. */
  lemma ListedIffAssignable(list: seq<Suggestion>, db: Dispatch.Tables, positions: map<UserId, Reported>,
                            jobLocation: Location, km: Distance, op: Dispatch.Op)
    requires IsRanking(list, db, positions, jobLocation, km)
    requires op.Offers()
    ensures Lists(list, op.agent) <==> Dispatch.CheckCap(db, op) == Dispatch.Goes(Dispatch.CapChecked)
  {
    assert Suggestible(db, op.agent) <==> Dispatch.CheckCap(db, op) == Dispatch.Goes(Dispatch.CapChecked);
  }

  /** Nobody is listed twice, and known positions come first. */
  lemma RankedDistinct(list: seq<Suggestion>, db: Dispatch.Tables, positions: map<UserId, Reported>,
                       jobLocation: Location, km: Distance)
    requires IsRanking(list, db, positions, jobLocation, km)
    ensures DistinctUsers(list)
    ensures forall i, j :: 0 <= i < j < |list| && list[j].PositionKnown() ==> list[i].PositionKnown()
  {
    forall i, j | 0 <= i < j < |list|
      ensures list[i].userId != list[j].userId
      ensures list[j].PositionKnown() ==> list[i].PositionKnown()
    {
      assert list[i] in list && list[j] in list;
      assert Precedes(list[i], list[j]);
    }
  }

  /** What an entry says of its agent: one point a kilometre and ten a job where the position is known, no score where not. */
  predicate Reads(e: Suggestion, db: Dispatch.Tables, positions: map<UserId, Reported>, jobLocation: Location, km: Distance) {
    && e.activeJobs == |Dispatch.ActiveFor(db.assignments, e.userId)|
    && if e.userId in positions && positions[e.userId].latitude.Some? && positions[e.userId].longitude.Some?
       then
         var at := Location(positions[e.userId].latitude.value, positions[e.userId].longitude.value);
         e.distanceKm == Some(km(at, jobLocation)) && e.finalScore == Some(km(at, jobLocation) + 10.0 * e.activeJobs as real)
       else e.distanceKm == None && e.finalScore == None
  }

  /** Scored entries come first, the lower score before the higher; then the others by load; the identity breaks ties. */
  predicate ReadsBefore(a: Suggestion, b: Suggestion) {
    if a.finalScore.Some? && b.finalScore.Some?
    then a.finalScore.value < b.finalScore.value || (a.finalScore.value == b.finalScore.value && a.userId < b.userId)
    else if a.finalScore.None? && b.finalScore.None?
    then a.activeJobs < b.activeJobs || (a.activeJobs == b.activeJobs && a.userId < b.userId)
    else a.finalScore.Some?
  }

  /** The ranking in plain terms. */
  lemma RankingReads(list: seq<Suggestion>, db: Dispatch.Tables, positions: map<UserId, Reported>,
                     jobLocation: Location, km: Distance)
    requires IsRanking(list, db, positions, jobLocation, km)
    ensures forall i :: 0 <= i < |list| ==> Reads(list[i], db, positions, jobLocation, km)
    ensures forall i, j :: 0 <= i < j < |list| ==> ReadsBefore(list[i], list[j])
  {
    forall i | 0 <= i < |list|
      ensures Reads(list[i], db, positions, jobLocation, km)
    {
      assert list[i] in list;
    }
    forall i, j | 0 <= i < j < |list|
      ensures ReadsBefore(list[i], list[j])
    {
      assert Precedes(list[i], list[j]);
    }
  }

  lemma {:induction false} OneRankedArrangement(a: seq<Suggestion>, b: seq<Suggestion>)
    requires Ranked(a) && Ranked(b)
    requires forall e :: e in a <==> e in b
    ensures a == b
  {
    HeadIsIn(a);
    HeadIsIn(b);
    if a != [] {
      var j :| 0 <= j < |b| && b[j] == a[0];
      var i :| 0 <= i < |a| && a[i] == b[0];
      HeadIsFirst(b, j);
      HeadIsFirst(a, i);
      assert a[0] == b[0];
      forall e
        ensures e in a[1..] <==> e in b[1..]
      {
        assert e in a <==> e == a[0] || e in a[1..];
        assert e in b <==> e == b[0] || e in b[1..];
        HeadIsNotInTail(a);
        HeadIsNotInTail(b);
      }
      OneRankedArrangement(a[1..], b[1..]);
    }
  }

  lemma HeadIsFirst(s: seq<Suggestion>, k: nat)
    requires Ranked(s) && k < |s|
    ensures k == 0 || Precedes(s[0], s[k])
  {
  }

  lemma HeadIsNotInTail(s: seq<Suggestion>)
    requires s != [] && Ranked(s)
    ensures s[0] !in s[1..]
  {
    forall k | 1 <= k < |s|
      ensures s[k] != s[0]
    {
      assert Precedes(s[0], s[k]);
    }
  }

  /** There is one ranking, so every order in which memberships arrive gives the same list. */
  lemma RankingIsUnique(a: seq<Suggestion>, b: seq<Suggestion>, db: Dispatch.Tables, positions: map<UserId, Reported>,
                        jobLocation: Location, km: Distance)
    requires IsRanking(a, db, positions, jobLocation, km)
    requires IsRanking(b, db, positions, jobLocation, km)
    ensures a == b
  {
    forall e
      ensures e in a <==> e in b
    {
      if e in a {
        assert Lists(b, e.userId);
      }
      if e in b {
        assert Lists(a, e.userId);
      }
    }
    OneRankedArrangement(a, b);
  }

  // ---------------------------------------------------------------- the operation

  datatype Row = Row(userId: UserId, membership: Membership)

  /** The membership rows of the organization, each once, in any order. */
  ghost predicate Arrival(memberships: seq<Row>, db: Dispatch.Tables) {
    && (forall i :: 0 <= i < |memberships| ==>
          memberships[i].userId in db.members && memberships[i].membership == db.members[memberships[i].userId])
    && (forall i, j :: 0 <= i < j < |memberships| ==> memberships[i].userId != memberships[j].userId)
    && (forall user :: user in db.members && db.members[user].organization == db.organization ==> Arrives(memberships, user))
  }

  predicate Arrives(memberships: seq<Row>, user: UserId) {
    exists i :: 0 <= i < |memberships| && memberships[i].userId == user
  }

  /** Active assignments grouped by agent; an agent without any is absent. */
  function GroupByAgent(db: Dispatch.Tables): (counts: map<UserId, nat>)
    ensures forall user :: (if user in counts then counts[user] else 0) == ActiveJobs(db, user)
  {
    var agents := set a | a in db.assignments && Dispatch.IsActive(db.assignments[a].state) :: db.assignments[a].agent;
    assert forall user :: user !in agents ==> Dispatch.ActiveFor(db.assignments, user) == {};
    map user | user in agents :: ActiveJobs(db, user)
  }

  /** The two piles hold, between them, one entry for each suggestible member among the first n rows. */
  ghost predicate Gathered(known: seq<Candidate>, unknown: seq<Suggestion>, memberships: seq<Row>, n: nat,
                           db: Dispatch.Tables, positions: map<UserId, Reported>)
    requires n <= |memberships|
  {
    && (forall i :: 0 <= i < |known| ==>
          && Suggestible(db, known[i].userId) && Arrives(memberships[..n], known[i].userId)
          && PositionOf(positions, known[i].userId) == Some(known[i].location)
          && known[i].activeJobs == ActiveJobs(db, known[i].userId))
    && (forall i :: 0 <= i < |unknown| ==>
          && Suggestible(db, unknown[i].userId) && Arrives(memberships[..n], unknown[i].userId)
          && PositionOf(positions, unknown[i].userId) == None
          && unknown[i] == Suggestion(unknown[i].userId, ActiveJobs(db, unknown[i].userId), None, None))
    && (forall i, j :: 0 <= i < j < |known| ==> known[i].userId != known[j].userId)
    && DistinctUsers(unknown)
    && (forall i :: 0 <= i < n && Suggestible(db, memberships[i].userId) ==>
          if PositionOf(positions, memberships[i].userId).Some? then InKnown(known, memberships[i].userId)
          else Lists(unknown, memberships[i].userId))
  }

  predicate InKnown(known: seq<Candidate>, user: UserId) {
    exists i :: 0 <= i < |known| && known[i].userId == user
  }

  lemma GatheredNext(known: seq<Candidate>, unknown: seq<Suggestion>, moreKnown: seq<Candidate>, moreUnknown: seq<Suggestion>,
                     memberships: seq<Row>, n: nat, db: Dispatch.Tables, positions: map<UserId, Reported>)
    requires Arrival(memberships, db) && n < |memberships|
    requires Gathered(known, unknown, memberships, n, db, positions)
    requires
      && var user := memberships[n].userId;
      && var position := PositionOf(positions, user);
      && var in1 := Suggestible(db, user) && position.Some?;
      && var in2 := Suggestible(db, user) && position.None?;
      && moreKnown == known + (if in1 then [Candidate(user, ActiveJobs(db, user), position.value)] else [])
      && moreUnknown == unknown + (if in2 then [Suggestion(user, ActiveJobs(db, user), None, None)] else [])
    ensures Gathered(moreKnown, moreUnknown, memberships, n + 1, db, positions)
  {
    var user := memberships[n].userId;
    assert memberships[..n + 1] == memberships[..n] + [memberships[n]];
    forall u | Arrives(memberships[..n], u)
      ensures Arrives(memberships[..n + 1], u) && u != user
    {
      var i :| 0 <= i < n && memberships[..n][i].userId == u;
      assert memberships[..n + 1][i].userId == u && memberships[i].userId == u;
    }
    assert memberships[..n + 1][n].userId == user;
    forall u | InKnown(known, u)
      ensures InKnown(moreKnown, u)
    {
      var i :| 0 <= i < |known| && known[i].userId == u;
      assert moreKnown[i].userId == u;
    }
    forall u | Lists(unknown, u)
      ensures Lists(moreUnknown, u)
    {
      var i :| 0 <= i < |unknown| && unknown[i].userId == u;
      assert moreUnknown[i].userId == u;
    }
    assert |moreKnown| > |known| ==> moreKnown[|known|].userId == user;
    assert |moreUnknown| > |unknown| ==> moreUnknown[|unknown|].userId == user;
  }

  lemma SuggestibleIsListed(known: seq<Candidate>, unknown: seq<Suggestion>, rankedKnown: seq<Suggestion>, rankedUnknown: seq<Suggestion>,
                            memberships: seq<Row>, db: Dispatch.Tables, positions: map<UserId, Reported>,
                            scores: seq<Suggestion>, user: UserId)
    requires Arrival(memberships, db) && Gathered(known, unknown, memberships, |memberships|, db, positions)
    requires |scores| == |known| && forall i :: 0 <= i < |known| ==> scores[i].userId == known[i].userId
    requires (forall e :: e in scores ==> e in rankedKnown) && (forall e :: e in unknown ==> e in rankedUnknown)
    requires Suggestible(db, user)
    ensures Lists(rankedKnown + rankedUnknown, user)
  {
    var list := rankedKnown + rankedUnknown;
    var m :| 0 <= m < |memberships| && memberships[m].userId == user;
    if PositionOf(positions, user).Some? {
      var i :| 0 <= i < |known| && known[i].userId == user;
      assert scores[i] in rankedKnown;
      var k :| 0 <= k < |rankedKnown| && rankedKnown[k] == scores[i];
      assert list[k].userId == user;
    } else {
      var i :| 0 <= i < |unknown| && unknown[i].userId == user;
      assert unknown[i] in rankedUnknown;
      var k :| 0 <= k < |rankedUnknown| && rankedUnknown[k] == unknown[i];
      assert list[|rankedKnown| + k].userId == user;
    }
  }

  lemma GatheredIsRanking(known: seq<Candidate>, unknown: seq<Suggestion>, rankedKnown: seq<Suggestion>, rankedUnknown: seq<Suggestion>,
                          memberships: seq<Row>, db: Dispatch.Tables, positions: map<UserId, Reported>, jobLocation: Location, km: Distance)
    requires Arrival(memberships, db)
    requires Gathered(known, unknown, memberships, |memberships|, db, positions)
    requires InOrder(rankedKnown) && DistinctUsers(rankedKnown)
    requires multiset(rankedKnown) == multiset(Scores(known, jobLocation, km, DEFAULT_WEIGHTS))
    requires InOrder(rankedUnknown) && DistinctUsers(rankedUnknown) && multiset(rankedUnknown) == multiset(unknown)
    ensures IsRanking(rankedKnown + rankedUnknown, db, positions, jobLocation, km)
  {
    var list := rankedKnown + rankedUnknown;
    var scores := Scores(known, jobLocation, km, DEFAULT_WEIGHTS);
    SameElements(rankedKnown, scores);
    SameElements(rankedUnknown, unknown);
    forall user | Suggestible(db, user)
      ensures Lists(list, user)
    {
      SuggestibleIsListed(known, unknown, rankedKnown, rankedUnknown, memberships, db, positions, scores, user);
    }
    assert forall e :: e in rankedKnown ==> e in scores && e.PositionKnown();
    assert forall e :: e in rankedUnknown ==> e in unknown && !e.PositionKnown();
    assert Ranked(list);
  }

  /** A missing job is an error; otherwise the one ranking of the current rows. */
  method SuggestAgents(db: Dispatch.Tables, memberships: seq<Row>, jobId: JobId, positions: map<UserId, Reported>,
                       locate: Dispatch.Job -> Location, km: Distance)
    returns (list: Option<seq<Suggestion>>)
    requires Arrival(memberships, db)
    ensures list.None? <==> jobId !in db.jobs
    ensures list.Some? ==> IsRanking(list.value, db, positions, locate(db.jobs[jobId]), km)
    ensures list.Some? ==>
              forall op: Dispatch.Op :: op.Offers() ==>
                (Lists(list.value, op.agent) <==> Dispatch.CheckCap(db, op) == Dispatch.Goes(Dispatch.CapChecked))
    ensures list.Some? ==> DistinctUsers(list.value)
  {
    if jobId !in db.jobs {
      return None;
    }
    var activeByAgent := GroupByAgent(db);
    var jobLocation := locate(db.jobs[jobId]);
    var known: seq<Candidate> := [];
    var unknown: seq<Suggestion> := [];
    for i := 0 to |memberships|
      invariant Gathered(known, unknown, memberships, i, db, positions)
    {
      var user := memberships[i].userId;
      var activeJobs := if user in activeByAgent then activeByAgent[user] else 0;
      var eligible, _, _ := CheckAgentEligibility(Some(memberships[i].membership), db.organization, activeJobs, db.defaultCap);
      ghost var known0, unknown0 := known, unknown;
      if eligible {
        var position := PositionOf(positions, user);
        if position.Some? {
          known := known + [Candidate(user, activeJobs, position.value)];
        } else {
          unknown := unknown + [Suggestion(user, activeJobs, None, None)];
        }
      }
      GatheredNext(known0, unknown0, known, unknown, memberships, i, db, positions);
    }
    var rankedKnown := RankAgents(known, jobLocation, km, DEFAULT_WEIGHTS);
    var rankedUnknown := SortSuggestions(unknown);
    GatheredIsRanking(known, unknown, rankedKnown, rankedUnknown, memberships, db, positions, jobLocation, km);
    list := Some(rankedKnown + rankedUnknown);
    forall op: Dispatch.Op | op.Offers()
      ensures Lists(list.value, op.agent) <==> Dispatch.CheckCap(db, op) == Dispatch.Goes(Dispatch.CapChecked)
    {
      ListedIffAssignable(list.value, db, positions, jobLocation, km, op);
    }
    RankedDistinct(list.value, db, positions, jobLocation, km);
  }
}
