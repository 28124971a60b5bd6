/**
 * The reconciliation sweep: finds jobs whose latest version has no entry in the scanned
 * queue, and enqueues one event for each, reading the jobs table page by page.
 */
module Reconcile {
  import opened Optional

  type JobId = nat

  datatype JobRow = JobRow(id: JobId, organization: nat, version: nat)

  /** A stored queue entry as the scan returns it; either field may be missing or malformed. */
  datatype Scanned = Scanned(jobId: Option<JobId>, jobVersion: Option<int>, organization: Option<nat>)

  datatype Report = Report(checked: nat, requeued: nat, requeuedJobIds: seq<JobId>)

  datatype Outcome = Swept(report: Report) | InvalidLimit

  // ---------------------------------------------------------------- specification

  /** The jobs table in the order of its primary key. */
  ghost predicate InKeyOrder(jobs: seq<JobRow>) {
    forall i, j :: 0 <= i < j < |jobs| ==> jobs[i].id < jobs[j].id
  }

  predicate Usable(e: Scanned) {
    e.jobId.Some? && e.jobVersion.Some?
  }

  /** The scan shows an entry for this version of the job or a later one. */
  ghost predicate Covered(row: JobRow, scanned: seq<Scanned>) {
    exists e :: e in scanned && Usable(e) && e.jobId.value == row.id && e.jobVersion.value >= row.version
  }

  ghost function Missing(jobs: seq<JobRow>, scanned: seq<Scanned>): seq<JobRow> {
    if jobs == [] then []
    else
      var n := |jobs| - 1;
      Missing(jobs[..n], scanned) + if Covered(jobs[n], scanned) then [] else [jobs[n]]
  }

  /** The event a sweep stores for a job. */
  function EventFor(row: JobRow): Scanned {
    Scanned(Some(row.id), Some(row.version), Some(row.organization))
  }

  /** One event a row, in order, each naming its row's job, version and organization. */
  function Events(rows: seq<JobRow>): (events: seq<Scanned>)
    ensures |events| == |rows|
    ensures forall i :: 0 <= i < |rows| ==>
              events[i].jobId == Some(rows[i].id) && events[i].jobVersion == Some(rows[i].version)
              && events[i].organization == Some(rows[i].organization)
  {
    seq(|rows|, i requires 0 <= i < |rows| => EventFor(rows[i]))
  }

  function Ids(rows: seq<JobRow>): (ids: seq<JobId>)
    ensures |ids| == |rows|
    ensures forall i :: 0 <= i < |rows| ==> ids[i] == rows[i].id
  {
    seq(|rows|, i requires 0 <= i < |rows| => rows[i].id)
  }

  // ---------------------------------------------------------------- what the specification means

  /** A job is in the list exactly when the table holds it and the scan does not cover its version. */
  lemma {:induction false} MissingIsUncovered(jobs: seq<JobRow>, scanned: seq<Scanned>, row: JobRow)
    ensures row in Missing(jobs, scanned) <==> row in jobs && !Covered(row, scanned)
  {
    if jobs != [] {
      var n := |jobs| - 1;
      assert jobs == jobs[..n] + [jobs[n]];
      MissingIsUncovered(jobs[..n], scanned, row);
    }
  }

  /** The list keeps the key order of the table, so no job is in it twice. */
  lemma {:induction false} MissingKeepsOrder(jobs: seq<JobRow>, scanned: seq<Scanned>)
    requires InKeyOrder(jobs)
    ensures InKeyOrder(Missing(jobs, scanned))
  {
    if jobs != [] {
      var n := |jobs| - 1;
      MissingKeepsOrder(jobs[..n], scanned);
      var before := Missing(jobs[..n], scanned);
      forall i | 0 <= i < |before|
        ensures before[i].id < jobs[n].id
      {
        MissingIsUncovered(jobs[..n], scanned, before[i]);
      }
    }
  }

  lemma {:induction false} NothingMissing(jobs: seq<JobRow>, scanned: seq<Scanned>)
    ensures Missing(jobs, scanned) == [] <==> forall row :: row in jobs ==> Covered(row, scanned)
  {
    forall row ensures row in Missing(jobs, scanned) <==> row in jobs && !Covered(row, scanned) {
      MissingIsUncovered(jobs, scanned, row);
    }
    if Missing(jobs, scanned) != [] {
      assert Missing(jobs, scanned)[0] in Missing(jobs, scanned);
    }
  }

  /** A following sweep over the unchanged table, scanning every earlier and every new entry, enqueues nothing. */
  lemma NextSweepIsQuiet(jobs: seq<JobRow>, scanned: seq<Scanned>, next: seq<Scanned>)
    requires forall e :: e in scanned || e in Events(Missing(jobs, scanned)) ==> e in next
    ensures Missing(jobs, next) == []
  {
    forall row | row in jobs
      ensures Covered(row, next)
    {
      MissingIsUncovered(jobs, scanned, row);
      if !Covered(row, scanned) {
        var missing := Missing(jobs, scanned);
        var i :| 0 <= i < |missing| && missing[i] == row;
        assert Events(missing)[i] == EventFor(row);
        assert EventFor(row) in next && Usable(EventFor(row));
      } else {
        var e :| e in scanned && Usable(e) && e.jobId.value == row.id && e.jobVersion.value >= row.version;
        assert e in next;
      }
    }
    NothingMissing(jobs, next);
  }

  /** When the table moves on, the following sweep enqueues only jobs whose version changed or that are new. */
  lemma OnlyChangedJobsReturn(jobs: seq<JobRow>, later: seq<JobRow>, scanned: seq<Scanned>, next: seq<Scanned>, row: JobRow)
    requires forall e :: e in scanned || e in Events(Missing(jobs, scanned)) ==> e in next
    requires row in Missing(later, next)
    ensures row in later && row !in jobs
  {
    MissingIsUncovered(later, next, row);
    NextSweepIsQuiet(jobs, scanned, next);
    NothingMissing(jobs, next);
  }

  // ---------------------------------------------------------------- the version map

  /** The map holds, for every job the entries mention, the highest version they mention, never below -1. */
  ghost predicate Tallies(versions: map<JobId, int>, scanned: seq<Scanned>) {
    && (forall e :: e in scanned && Usable(e) ==>
          e.jobId.value in versions && versions[e.jobId.value] >= e.jobVersion.value)
    && (forall id :: id in versions ==> versions[id] == -1 || AtVersion(scanned, id, versions[id]))
  }

  ghost predicate AtVersion(scanned: seq<Scanned>, id: JobId, version: int) {
    exists e :: e in scanned && Usable(e) && e.jobId.value == id && e.jobVersion.value == version
  }

  function Lookup(versions: map<JobId, int>, id: JobId): int {
    if id in versions then versions[id] else -1
  }

  lemma TallyDecides(versions: map<JobId, int>, scanned: seq<Scanned>, row: JobRow)
    requires Tallies(versions, scanned)
    ensures Lookup(versions, row.id) < row.version <==> !Covered(row, scanned)
  {
    if row.id in versions && versions[row.id] != -1 {
      assert AtVersion(scanned, row.id, versions[row.id]);
    }
  }

  method QueuedVersions(scanned: seq<Scanned>) returns (versions: map<JobId, int>)
    ensures Tallies(versions, scanned)
  {
    versions := map[];
    for i := 0 to |scanned|
      invariant Tallies(versions, scanned[..i])
    {
      var entry := scanned[i];
      assert scanned[..i + 1] == scanned[..i] + [entry];
      ghost var before := versions;
      if Usable(entry) {
        var known := Lookup(versions, entry.jobId.value);
        var version := entry.jobVersion.value;
        versions := versions[entry.jobId.value := if known >= version then known else version];
      }
      forall id | id in versions && versions[id] != -1
        ensures AtVersion(scanned[..i + 1], id, versions[id])
      {
        assert id in before && before[id] == versions[id] ==> AtVersion(scanned[..i], id, versions[id]);
        assert entry in scanned[..i + 1];
      }
    }
    assert scanned[..|scanned|] == scanned;
  }

  // ---------------------------------------------------------------- paging

  /** The rows after the cursor row; none when the table does not hold it. */
  function RowsAfter(jobs: seq<JobRow>, cursor: JobId): seq<JobRow> {
    if jobs == [] then []
    else if jobs[0].id == cursor then jobs[1..]
    else RowsAfter(jobs[1..], cursor)
  }

  function Page(jobs: seq<JobRow>, cursor: Option<JobId>, limit: nat): seq<JobRow> {
    var rest := if cursor.None? then jobs else RowsAfter(jobs, cursor.value);
    if |rest| <= limit then rest else rest[..limit]
  }

  lemma {:induction false} CursorResumes(jobs: seq<JobRow>, k: nat)
    requires InKeyOrder(jobs) && 0 < k <= |jobs|
    ensures RowsAfter(jobs, jobs[k - 1].id) == jobs[k..]
  {
    if k > 1 {
      CursorResumes(jobs[1..], k - 1);
    }
  }

  // ---------------------------------------------------------------- the sweep

  /** The version map still tells, for each of these rows, whether the scan covers it. */
  ghost predicate Decides(versions: map<JobId, int>, rows: seq<JobRow>, scanned: seq<Scanned>) {
    forall row :: row in rows ==> (Lookup(versions, row.id) < row.version <==> !Covered(row, scanned))
  }

  lemma {:induction false} MissingOfConcat(a: seq<JobRow>, b: seq<JobRow>, scanned: seq<Scanned>)
    ensures Missing(a + b, scanned) == Missing(a, scanned) + Missing(b, scanned)
  {
    if b == [] {
      assert a + b == a;
    } else {
      var n := |b| - 1;
      assert (a + b)[..|a| + n] == a + b[..n];
      MissingOfConcat(a, b[..n], scanned);
    }
  }

  method BehindRows(page: seq<JobRow>, versions: map<JobId, int>, ghost scanned: seq<Scanned>)
    returns (missing: seq<JobRow>)
    requires Decides(versions, page, scanned)
    ensures missing == Missing(page, scanned)
  {
    missing := [];
    for i := 0 to |page|
      invariant missing == Missing(page[..i], scanned)
    {
      assert page[..i + 1][..i] == page[..i];
      if Lookup(versions, page[i].id) < page[i].version {
        missing := missing + [page[i]];
      }
    }
    assert page[..|page|] == page;
  }

  lemma TallyDecidesAll(versions: map<JobId, int>, scanned: seq<Scanned>, rows: seq<JobRow>)
    requires Tallies(versions, scanned)
    ensures Decides(versions, rows, scanned)
  {
    forall row | row in rows
      ensures Lookup(versions, row.id) < row.version <==> !Covered(row, scanned)
    {
      TallyDecides(versions, scanned, row);
    }
  }

  /** The next page of the table: what follows the rows visited so far. */
  method FindMany(jobs: seq<JobRow>, cursor: Option<JobId>, limit: nat, ghost visited: seq<JobRow>, ghost rest: seq<JobRow>)
    returns (page: seq<JobRow>)
    requires InKeyOrder(jobs) && jobs == visited + rest && cursor == LastId(visited) && limit >= 1
    ensures page <= rest && |page| == if |rest| <= limit then |rest| else limit
  {
    page := Page(jobs, cursor, limit);
    PageResumes(visited, rest, limit);
  }

  class JobEventQueue {
    var entries: seq<Scanned>

    constructor ()
      ensures entries == []
    {
      entries := [];
    }

    method EnqueueJobEvent(row: JobRow)
      modifies this
      ensures entries == old(entries) + [Scanned(Some(row.id), Some(row.version), Some(row.organization))]
    {
      entries := entries + [EventFor(row)];
    }

    /** Enqueues the missing rows of one page, noting each in the version map and in the report. */
    method RequeueAll(missing: seq<JobRow>, versions: map<JobId, int>, requeued: seq<JobId>)
      returns (newVersions: map<JobId, int>, newRequeued: seq<JobId>)
      modifies this
      ensures entries == old(entries) + Events(missing)
      ensures newRequeued == requeued + Ids(missing)
      ensures forall id :: id !in Ids(missing) ==> Lookup(newVersions, id) == Lookup(versions, id)
    {
      newVersions, newRequeued := versions, requeued;
      for i := 0 to |missing|
        invariant entries == old(entries) + Events(missing)[..i]
        invariant newRequeued == requeued + Ids(missing)[..i]
        invariant forall id :: id !in Ids(missing) ==> Lookup(newVersions, id) == Lookup(versions, id)
      {
        EnqueueJobEvent(missing[i]);
        newVersions := newVersions[missing[i].id := missing[i].version];
        newRequeued := newRequeued + [missing[i].id];
        assert missing[i].id == Ids(missing)[i];
      }
    }

    /** The work on one page: enqueues its uncovered rows, and leaves the map right for every later row. */
    method SweepPage(page: seq<JobRow>, versions: map<JobId, int>, requeued: seq<JobId>,
                     ghost visited: seq<JobRow>, ghost remaining: seq<JobRow>, ghost scanned: seq<Scanned>)
      returns (newVersions: map<JobId, int>, newRequeued: seq<JobId>)
      requires InKeyOrder(visited + (page + remaining)) && Decides(versions, page + remaining, scanned)
      modifies this
      ensures entries == old(entries) + Events(Missing(page, scanned))
      ensures newRequeued == requeued + Ids(Missing(page, scanned))
      ensures Decides(newVersions, remaining, scanned)
    {
      DecidesSplits(versions, page, remaining, scanned);
      var missing := BehindRows(page, versions, scanned);
      newVersions, newRequeued := RequeueAll(missing, versions, requeued);
      LaterRowsUntouched(visited, page, remaining, versions, newVersions, scanned);
    }

    /**
     * One sweep. The outcome and the new queue are functions of the table and the scan alone, so every batch
     * size gives the same: each job is visited once, and exactly the uncovered ones are enqueued.
     */
    method ReconcileJobEvents(jobs: seq<JobRow>, scanned: seq<Scanned>, limit: int) returns (outcome: Outcome)
      requires InKeyOrder(jobs)
      modifies this
      ensures limit < 1 ==> outcome == InvalidLimit && entries == old(entries)
      ensures limit >= 1 ==>
                && var missing := Missing(jobs, scanned);
                && outcome == Swept(Report(|jobs|, |missing|, Ids(missing)))
                && entries == old(entries) + Events(missing)
    {
      if limit < 1 {
        outcome := InvalidLimit;
        return;
      }
      var queuedVersions := QueuedVersions(scanned);
      var checked := 0;
      var cursor: Option<JobId> := None;
      var requeuedJobIds: seq<JobId> := [];
      TallyDecidesAll(queuedVersions, scanned, jobs);
      ghost var visited, rest: seq<JobRow> := [], jobs;
      while true
        invariant jobs == visited + rest
        invariant checked == |visited|
        invariant cursor == LastId(visited)
        invariant Decides(queuedVersions, rest, scanned)
        invariant requeuedJobIds == Ids(Missing(visited, scanned))
        invariant entries == old(entries) + Events(Missing(visited, scanned))
        decreases |rest|
      {
        var page := FindMany(jobs, cursor, limit, visited, rest);
        if |page| == 0 {
          break;
        }
        checked := checked + |page|;
        ghost var remaining := rest[|page|..];
        PageJoins(jobs, visited, page, rest, remaining);
        PageAdds(visited, page, scanned, old(entries));
        queuedVersions, requeuedJobIds := SweepPage(page, queuedVersions, requeuedJobIds, visited, remaining, scanned);
        visited, rest := visited + page, remaining;
        cursor := Some(page[|page| - 1].id);
        if |page| < limit {
          break;
        }
      }
      AllVisited(jobs, visited, rest);
      outcome := Swept(Report(checked, |requeuedJobIds|, requeuedJobIds));
    }
  }

  lemma AllVisited(jobs: seq<JobRow>, visited: seq<JobRow>, rest: seq<JobRow>)
    requires jobs == visited + rest && |rest| == 0
    ensures visited == jobs
  {
  }

  lemma PageJoins(jobs: seq<JobRow>, visited: seq<JobRow>, page: seq<JobRow>, rest: seq<JobRow>, remaining: seq<JobRow>)
    requires jobs == visited + rest && page <= rest && remaining == rest[|page|..]
    ensures rest == page + remaining
    ensures jobs == visited + (page + remaining) && jobs == (visited + page) + remaining
  {
  }

  lemma PageAdds(visited: seq<JobRow>, page: seq<JobRow>, scanned: seq<Scanned>, start: seq<Scanned>)
    ensures Ids(Missing(visited + page, scanned)) == Ids(Missing(visited, scanned)) + Ids(Missing(page, scanned))
    ensures start + Events(Missing(visited + page, scanned)) ==
            (start + Events(Missing(visited, scanned))) + Events(Missing(page, scanned))
  {
    MissingOfConcat(visited, page, scanned);
    ConcatMaps(start, Missing(visited, scanned), Missing(page, scanned));
  }

  lemma ConcatMaps(start: seq<Scanned>, a: seq<JobRow>, b: seq<JobRow>)
    ensures Ids(a + b) == Ids(a) + Ids(b)
    ensures start + Events(a + b) == (start + Events(a)) + Events(b)
  {
    assert Events(a + b) == Events(a) + Events(b);
  }

  function LastId(rows: seq<JobRow>): Option<JobId> {
    if rows == [] then None else Some(rows[|rows| - 1].id)
  }

  /** A page continues exactly where the visited rows end. */
  lemma PageResumes(visited: seq<JobRow>, rest: seq<JobRow>, limit: nat)
    requires InKeyOrder(visited + rest) && limit >= 1
    ensures var page := Page(visited + rest, LastId(visited), limit);
            && page <= rest
            && |page| == if |rest| <= limit then |rest| else limit
  {
    var jobs := visited + rest;
    if visited == [] {
      assert jobs == rest;
    } else {
      CursorResumes(jobs, |visited|);
      assert jobs[|visited|..] == rest;
    }
  }

  lemma DecidesSplits(versions: map<JobId, int>, page: seq<JobRow>, remaining: seq<JobRow>, scanned: seq<Scanned>)
    requires Decides(versions, page + remaining, scanned)
    ensures Decides(versions, page, scanned) && Decides(versions, remaining, scanned)
  {
    forall row ensures row in page || row in remaining <==> row in page + remaining {
    }
  }

  /** What a page enqueues changes no later row's entry in the version map. */
  lemma LaterRowsUntouched(visited: seq<JobRow>, page: seq<JobRow>, remaining: seq<JobRow>,
                           before: map<JobId, int>, after: map<JobId, int>, scanned: seq<Scanned>)
    requires InKeyOrder(visited + (page + remaining)) && Decides(before, remaining, scanned)
    requires forall id :: id !in Ids(Missing(page, scanned)) ==> Lookup(after, id) == Lookup(before, id)
    ensures Decides(after, remaining, scanned)
  {
    var missing := Missing(page, scanned);
    forall j, i | 0 <= j < |remaining| && 0 <= i < |missing|
      ensures remaining[j].id != missing[i].id
    {
      MissingIsUncovered(page, scanned, missing[i]);
      var k :| 0 <= k < |page| && page[k] == missing[i];
      var jobs := visited + (page + remaining);
      assert jobs[|visited| + k].id < jobs[|visited| + |page| + j].id;
    }
  }
}
