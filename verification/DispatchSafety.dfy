/**
 * What every interleaving of the ten operations keeps, whatever versions callers
 * send: one live offer per active job, the row CHECKs, the agents' caps, exclusive
 * locks, gapless job numbers, and the ownership of work in progress.
 */
module DispatchSafety {
  import opened Collections
  import opened Optional
  import opened Lifecycle
  import opened Eligibility
  import opened Dispatch

  // ---------------------------------------------------------------- the invariant

  /** Exactly one assignment of the job is active: this agent's, in this state. */
  ghost predicate OneActive(assignments: map<AssignmentId, Assignment>, job: JobId, agent: UserId, state: OfferState) {
    exists a :: a in assignments && ActiveOf(assignments, job) == {a} && assignments[a] == Assignment(job, agent, state)
  }

  /** What a job row promises about its assignments, on top of the row CHECKs. */
  ghost predicate JobOk(assignments: map<AssignmentId, Assignment>, id: JobId, job: Job) {
    && RowChecks(job)
    && match job.status
       case Assigned => OneActive(assignments, id, job.assignee.value, Offered)
       case Accepted => OneActive(assignments, id, job.assignee.value, OfferAccepted)
       case InProgress => OneActive(assignments, id, job.assignee.value, OfferAccepted)
       case _ => ActiveOf(assignments, id) == {}
  }

  /** The agent's active assignments do not outnumber the effective cap. */
  ghost predicate CapOk(db: Tables, agent: UserId) {
    var active := ActiveFor(db.assignments, agent);
    active != {} ==>
      agent in db.members && |active| <= EffectiveCapFor(Some(db.members[agent]), db.defaultCap)
  }

  /** Committed rows come from calls that have ended. */
  ghost predicate IdsOk(db: Tables, log: seq<CommitRecord>, running: set<TxId>, used: set<TxId>) {
    && running <= used
    && (forall i :: 0 <= i < |log| ==> log[i].tx in used && log[i].tx !in running)
    && (forall j :: j in db.jobs ==> j in used && j !in running)
    && (forall a :: a in db.assignments ==> a in used && a !in running)
  }

  predicate HasNumber(jobs: map<JobId, Job>, n: nat) {
    exists j :: j in jobs && jobs[j].number == n
  }

  ghost predicate NumbersOk(jobs: map<JobId, Job>, counter: nat) {
    && (forall j :: j in jobs ==> 1 <= jobs[j].number <= counter)
    && (forall j, k :: j in jobs && k in jobs && j != k ==> jobs[j].number != jobs[k].number)
    && (forall n :: 1 <= n <= counter ==> HasNumber(jobs, n))
  }

  ghost predicate CommittedOk(db: Tables) {
    && NumbersOk(db.jobs, db.counter)
    && (forall a :: a in db.assignments ==> db.assignments[a].job in db.jobs && db.assignments[a].agent in db.members)
    && (forall j :: j in db.jobs ==> JobOk(db.assignments, j, db.jobs[j]))
  }

  predicate RowLock(lock: Lock) {
    lock.MemberRow? || lock.RoleRow? || lock.CounterRow? || lock.JobRow?
  }

  ghost predicate Exclusive(active: map<TxId, Tx>) {
    forall t, u, lock {:trigger Holds(t, active[t], lock), Holds(u, active[u], lock)} ::
      t in active && u in active && t != u && RowLock(lock) && Holds(t, active[t], lock)
      ==> !Holds(u, active[u], lock)
  }

  /** A job read earlier against the row committed now: work past the offering stage keeps its owner or moves on. */
  ghost predicate Follows(seen: Job, now: Job) {
    && seen.version >= 1
    && Rank(seen.status) <= Rank(now.status)
    && (0 < Rank(seen.status) == Rank(now.status) ==> seen.status == now.status && seen.assignee == now.assignee)
  }

  ghost predicate ClaimOk(op: Op, seen: Job, now: Job, row: Job)
    requires !op.Create?
  {
    && Objection(op, seen).None?
    && Matches(WhereOf(op, seen), now)
    && row == ApplyUpdate(now, UpdateOf(op, seen))
    && RowChecks(row)
  }

  /** The assignment writes of a finished call. */
  function Changes(assignments: map<AssignmentId, Assignment>, t: TxId, op: Op): map<AssignmentId, Assignment> {
    var closed :=
      if op.Closes() then Moved(assignments, ActiveOf(assignments, op.job), op.CloseTo()) else map[];
    if op.Offers() then closed[t := Assignment(op.job, op.agent, Offered)] else closed
  }

  ghost predicate PhaseFits(op: Op, phase: Phase) {
    && (phase.MemberTaken? || phase.MemberLocked? || phase.CapChecked? || phase.OfferMade? ==> op.Offers())
    && (phase.Numbered? ==> op.Create?)
    && (phase.JobRead? ==> !op.Create?)
    && (phase.OfferRead? ==> op.Responds())
    && (phase.OffersClosed? ==> op.Closes())
    && (phase.Claimed? ==> (phase.offer.Some? <==> op.Responds()))
  }

  /** An offer a responder has read stays its own offer for this job. */
  ghost predicate OwnsOffer(db: Tables, op: Op, offer: AssignmentId)
    requires op.Responds()
  {
    offer in db.assignments && db.assignments[offer].job == op.job && db.assignments[offer].agent == op.actor
  }

  /** What a call knows about the job it works on. */
  ghost predicate JobPart(db: Tables, op: Op, phase: Phase)
    requires !op.Create? && PhaseFits(op, phase)
  {
    && (phase.HasSeen() ==> op.job in db.jobs && Follows(phase.seen, db.jobs[op.job]))
    && (phase.HasRow() ==> ClaimOk(op, phase.seen, db.jobs[op.job], phase.row))
    && (phase.OfferRead? ==> OwnsOffer(db, op, phase.own))
    && (phase.Claimed? && op.Responds() ==> OwnsOffer(db, op, phase.offer.value))
    && (phase.HasChanges() && op.Responds() ==> db.jobs[op.job].assignee == Some(op.actor))
    && (phase.OffersClosed? ==>
          phase.changed == Moved(db.assignments, ActiveOf(db.assignments, op.job), op.CloseTo()))
  }

  /** What a create knows about the number it took. */
  ghost predicate NumberPart(db: Tables, op: Op, phase: Phase)
    requires op.Create?
  {
    && (phase.Numbered? ==> phase.number == db.counter + 1)
    && (phase.HasRow() ==> phase.seen == phase.row == FreshJob(op, db.counter + 1))
  }

  /** What an offering call knows about the agent whose membership row it holds. */
  ghost predicate MemberPart(db: Tables, op: Op, phase: Phase)
    requires op.Offers()
  {
    && (phase.MemberLocked? ==> op.agent in db.members && db.members[op.agent].role == phase.role)
    && (phase.CapChecked? || phase.HasSeen() ==>
          && op.agent in db.members
          && Eligible(Some(db.members[op.agent]), db.organization, |ActiveFor(db.assignments, op.agent)|, db.defaultCap))
  }

  ghost predicate TxOk(db: Tables, t: TxId, tx: Tx) {
    var op, phase := tx.op, tx.phase;
    && PhaseFits(op, phase)
    && (op.Create? ==> NumberPart(db, op, phase))
    && (!op.Create? ==> JobPart(db, op, phase))
    && (op.Offers() ==> MemberPart(db, op, phase))
    && (phase.OfferMade? || phase.Recorded? ==> phase.changed == Changes(db.assignments, t, op))
    && (phase.Recorded? ==> phase.event == EventOf(op, phase.seen))
  }

  ghost predicate Inv(s: State) {
    && CommittedOk(s.db)
    && IdsOk(s.db, s.log, s.active.Keys, s.used)
    && Exclusive(s.active)
    && (forall t :: t in s.active ==> TxOk(s.db, t, s.active[t]))
  }

  // ---------------------------------------------------------------- one statement keeps the call in order

  /** The part of the invariant one call's own statements rest on. */
  ghost predicate CallOk(s: State, t: TxId) {
    && t in s.active
    && t !in s.db.assignments
    && TxOk(s.db, t, s.active[t])
    && var op := s.active[t].op;
       !op.Create? && op.job in s.db.jobs ==> JobOk(s.db.assignments, op.job, s.db.jobs[op.job])
  }

  /** A responder's moved offer is the job's only active assignment, so it is the assignee's. */
  lemma CloseKeepsTxOk(s: State, t: TxId, phase: Phase)
    requires CallOk(s, t) && s.active[t].phase.Claimed? && s.active[t].op.Closes()
    requires CloseOffers(s, t, s.active[t].op, s.active[t].phase.seen, s.active[t].phase.offer, s.active[t].phase.row)
             == Goes(phase)
    ensures TxOk(s.db, t, Tx(s.active[t].op, phase))
  {
    var op, offer := s.active[t].op, s.active[t].phase.offer;
    if op.Responds() {
      var target := {offer.value} * OffersFor(s.db.assignments, op.job);
      assert offer.value in target;
      assert offer.value in ActiveOf(s.db.assignments, op.job);
      assert target == ActiveOf(s.db.assignments, op.job);
    }
  }

  lemma InsertKeepsTxOk(s: State, t: TxId, phase: Phase)
    requires CallOk(s, t) && s.active[t].op.Offers()
    requires (s.active[t].phase.Claimed? && s.active[t].op.Assign?) || s.active[t].phase.OffersClosed?
    requires Advance(s, t, s.active[t]) == Goes(phase)
    ensures TxOk(s.db, t, Tx(s.active[t].op, phase))
  {
  }

  lemma AdvanceKeepsTxOk(s: State, t: TxId, phase: Phase)
    requires CallOk(s, t) && Advance(s, t, s.active[t]) == Goes(phase)
    ensures TxOk(s.db, t, Tx(s.active[t].op, phase))
  {
    var tx := s.active[t];
    if tx.phase.Claimed? && tx.op.Closes() {
      CloseKeepsTxOk(s, t, phase);
    } else if (tx.phase.Claimed? || tx.phase.OffersClosed?) && tx.op.Offers() {
      InsertKeepsTxOk(s, t, phase);
    }
  }

  lemma AdvanceKeepsExclusive(s: State, t: TxId, phase: Phase)
    requires CallOk(s, t) && Exclusive(s.active) && Advance(s, t, s.active[t]) == Goes(phase)
    ensures Exclusive(s.active[t := Tx(s.active[t].op, phase)])
  {
    var now := Tx(s.active[t].op, phase);
    forall lock | RowLock(lock) && Holds(t, now, lock)
      ensures forall u :: u in s.active && u != t ==> !Holds(u, s.active[u], lock)
    {
      if !Holds(t, s.active[t], lock) {
        assert !HeldByOther(s, t, lock);
      }
    }
  }

  // ---------------------------------------------------------------- what a commit does to the tables

  /** The writes of a call touch the assignments of its own job only. */
  lemma ChangesElsewhere(before: map<AssignmentId, Assignment>, t: TxId, op: Op, job: JobId)
    requires t !in before && (op.Create? || job != op.job)
    ensures var after := before + Changes(before, t, op);
            ActiveOf(after, job) == ActiveOf(before, job)
            && forall a :: a in ActiveOf(after, job) ==> after[a] == before[a]
  {
  }

  /** The job's own active set afterwards: an accept keeps it, other closings empty it, an offer adds one. */
  lemma ChangesHere(before: map<AssignmentId, Assignment>, t: TxId, op: Op)
    requires t !in before && !op.Create?
    ensures var after := before + Changes(before, t, op);
            ActiveOf(after, op.job) ==
            (if op.Closes() && !op.Accept? then {} else ActiveOf(before, op.job)) + (if op.Offers() then {t} else {})
  {
  }

  /** The offered agent gains at most the new offer; everyone else's active set can only shrink. */
  lemma ChangesFor(before: map<AssignmentId, Assignment>, t: TxId, op: Op, agent: UserId)
    requires t !in before
    ensures ActiveFor(before + Changes(before, t, op), agent) <=
            ActiveFor(before, agent) + (if op.Offers() && op.agent == agent then {t} else {})
  {
  }

  lemma ClaimedRowOk(before: map<AssignmentId, Assignment>, t: TxId, op: Op, seen: Job, now: Job, row: Job)
    requires t !in before && !op.Create? && JobOk(before, op.job, now) && ClaimOk(op, seen, now, row)
    requires Follows(seen, now)
    ensures JobOk(before + Changes(before, t, op), op.job, row)
  {
    var after := before + Changes(before, t, op);
    ChangesHere(before, t, op);
    if op.Offers() {
      assert ActiveOf(after, op.job) == {t};
    } else if op.Accept? || op.Start? || op.Patch? {
      if now.status in {Assigned, Accepted, InProgress} {
        var a :| a in before && ActiveOf(before, op.job) == {a};
        assert a in ActiveOf(before, op.job);
        assert ActiveOf(after, op.job) == {a};
        assert after[a] == if op.Accept? then before[a].(state := OfferAccepted) else before[a];
      }
    }
  }

  /** A call about to commit, with the part of the invariant its merge rests on. */
  ghost predicate Merging(db: Tables, t: TxId, tx: Tx) {
    tx.phase.Recorded? && t !in db.jobs && t !in db.assignments && CommittedOk(db) && TxOk(db, t, tx)
  }

  lemma MergeJobs(db: Tables, t: TxId, tx: Tx, j: JobId)
    requires Merging(db, t, tx) && (j in db.jobs || j == JobOf(t, tx.op))
    ensures JobOk(Merge(db, t, tx.op, tx.phase).assignments, j, Merge(db, t, tx.op, tx.phase).jobs[j])
  {
    if j != JobOf(t, tx.op) {
      ChangesElsewhere(db.assignments, t, tx.op, j);
      assert JobOk(db.assignments, j, db.jobs[j]);
    } else if tx.op.Create? {
      assert ActiveOf(Merge(db, t, tx.op, tx.phase).assignments, j) == {};
    } else {
      ClaimedRowOk(db.assignments, t, tx.op, tx.phase.seen, db.jobs[j], tx.phase.row);
    }
  }

  lemma MergeCap(db: Tables, t: TxId, tx: Tx, agent: UserId)
    requires Merging(db, t, tx) && CapOk(db, agent)
    ensures CapOk(Merge(db, t, tx.op, tx.phase), agent)
  {
    ChangesFor(db.assignments, t, tx.op, agent);
    var before := ActiveFor(db.assignments, agent);
    var after := ActiveFor(Merge(db, t, tx.op, tx.phase).assignments, agent);
    SubsetSize(after, if tx.op.Offers() && tx.op.agent == agent then before + {t} else before);
  }

  lemma MergeNumbers(db: Tables, t: TxId, tx: Tx)
    requires Merging(db, t, tx)
    ensures NumbersOk(Merge(db, t, tx.op, tx.phase).jobs, Merge(db, t, tx.op, tx.phase).counter)
  {
    var after := Merge(db, t, tx.op, tx.phase);
    forall n | 1 <= n <= after.counter
      ensures HasNumber(after.jobs, n)
    {
      if n <= db.counter {
        assert HasNumber(db.jobs, n);
        var j :| j in db.jobs && db.jobs[j].number == n;
        assert j in after.jobs && after.jobs[j].number == n;
      } else {
        assert after.jobs[t].number == n;
      }
    }
  }

  // ---------------------------------------------------------------- what a commit leaves to the other calls

  /** A commit moves its job along the table, so what was read earlier still trails the committed row. */
  lemma MergeFollows(db: Tables, t: TxId, tx: Tx, job: JobId, seen: Job)
    requires Merging(db, t, tx) && job in db.jobs && Follows(seen, db.jobs[job])
    ensures Follows(seen, Merge(db, t, tx.op, tx.phase).jobs[job])
  {
    if job == JobOf(t, tx.op) {
      assert JobOk(db.assignments, job, db.jobs[job]);
      ClaimFollows(seen, db.jobs[job], tx.op, tx.phase.seen, tx.phase.row);
    }
  }

  lemma ClaimFollows(seen: Job, now: Job, op: Op, read: Job, row: Job)
    requires !op.Create? && ClaimOk(op, read, now, row) && Follows(read, now) && Follows(seen, now) && RowChecks(now)
    ensures Follows(seen, row)
  {
  }

  lemma MovedAlike(before: map<AssignmentId, Assignment>, after: map<AssignmentId, Assignment>,
                   ids: set<AssignmentId>, to: OfferState)
    requires forall a :: a in ids ==> a in before && a in after && before[a] == after[a]
    ensures Moved(before, ids, to) == Moved(after, ids, to)
  {
  }

  lemma MergeOtherWrites(db: Tables, t: TxId, mine: Tx, u: TxId, op: Op)
    requires t !in db.assignments && mine.phase.Recorded? && mine.phase.changed == Changes(db.assignments, t, mine.op)
    requires !op.Create? && op.job != JobOf(t, mine.op)
    ensures var after := Merge(db, t, mine.op, mine.phase).assignments;
            && Changes(after, u, op) == Changes(db.assignments, u, op)
            && (op.Closes() ==> Moved(after, ActiveOf(after, op.job), op.CloseTo()) ==
                                Moved(db.assignments, ActiveOf(db.assignments, op.job), op.CloseTo()))
  {
    var before := db.assignments;
    var after := before + Changes(before, t, mine.op);
    ChangesElsewhere(before, t, mine.op, op.job);
    if op.Closes() {
      MovedAlike(before, after, ActiveOf(before, op.job), op.CloseTo());
    }
  }

  /** A call that has claimed its job finds the row and its assignments as they were. */
  lemma MergeOtherRow(db: Tables, t: TxId, mine: Tx, u: TxId, other: Tx)
    requires Merging(db, t, mine) && TxOk(db, u, other) && !other.op.Create?
    requires other.phase.HasRow() && other.op.job != JobOf(t, mine.op)
    ensures JobPart(Merge(db, t, mine.op, mine.phase), other.op, other.phase)
  {
    assert Merge(db, t, mine.op, mine.phase).jobs[other.op.job] == db.jobs[other.op.job];
    if other.op.Closes() {
      MergeOtherWrites(db, t, mine, u, other.op);
    }
  }

  lemma MergeOtherJob(db: Tables, t: TxId, mine: Tx, u: TxId, other: Tx)
    requires Merging(db, t, mine) && TxOk(db, u, other) && !other.op.Create?
    requires other.phase.HasRow() ==> other.op.job != JobOf(t, mine.op)
    ensures JobPart(Merge(db, t, mine.op, mine.phase), other.op, other.phase)
  {
    if other.phase.HasRow() {
      MergeOtherRow(db, t, mine, u, other);
    } else if other.phase.HasSeen() {
      MergeFollows(db, t, mine, other.op.job, other.phase.seen);
    }
  }

  lemma MergeOtherMember(db: Tables, t: TxId, mine: Tx, u: TxId, other: Tx)
    requires Merging(db, t, mine) && TxOk(db, u, other) && other.op.Offers()
    requires mine.op.Offers() && !other.phase.Called? ==> other.op.agent != mine.op.agent
    ensures MemberPart(Merge(db, t, mine.op, mine.phase), other.op, other.phase)
  {
    if other.phase.CapChecked? || other.phase.HasSeen() {
      ChangesFor(db.assignments, t, mine.op, other.op.agent);
      SubsetSize(ActiveFor(Merge(db, t, mine.op, mine.phase).assignments, other.op.agent),
                 ActiveFor(db.assignments, other.op.agent));
    }
  }

  /** Two running calls never hold the same row. */
  predicate Apart(t: TxId, mine: Tx, u: TxId, other: Tx) {
    && (mine.op.Create? && other.op.Create? ==> other.phase.Called?)
    && (other.phase.HasRow() ==> JobOf(u, other.op) != JobOf(t, mine.op))
    && (mine.op.Offers() && other.op.Offers() && !other.phase.Called? ==> other.op.agent != mine.op.agent)
  }

  lemma LocksKeepApart(s: State, t: TxId, u: TxId)
    requires Exclusive(s.active) && IdsOk(s.db, s.log, s.active.Keys, s.used)
    requires t in s.active && u in s.active && t != u && s.active[t].phase.Recorded?
    requires TxOk(s.db, t, s.active[t]) && TxOk(s.db, u, s.active[u])
    ensures Apart(t, s.active[t], u, s.active[u])
  {
    var mine, other := s.active[t], s.active[u];
    assert mine.op.Create? ==> Holds(t, mine, CounterRow);
    assert !mine.op.Create? ==> Holds(t, mine, JobRow(mine.op.job));
    assert mine.op.Offers() ==> Holds(t, mine, MemberRow(mine.op.agent));
    assert other.op.Create? && !other.phase.Called? ==> Holds(u, other, CounterRow);
    assert !other.op.Create? && other.phase.HasRow() ==> Holds(u, other, JobRow(other.op.job));
    assert other.op.Offers() && !other.phase.Called? ==> Holds(u, other, MemberRow(other.op.agent));
  }

  lemma MergeOtherNumber(db: Tables, t: TxId, mine: Tx, u: TxId, other: Tx)
    requires mine.phase.Recorded? && TxOk(db, u, other) && Apart(t, mine, u, other) && other.op.Create?
    ensures TxOk(Merge(db, t, mine.op, mine.phase), u, other)
  {
    var after := Merge(db, t, mine.op, mine.phase);
    assert mine.op.Create? ==> other.phase.Called?;
    assert !mine.op.Create? ==> after.counter == db.counter;
    assert Changes(after.assignments, u, other.op) == map[] == Changes(db.assignments, u, other.op);
  }

  /** The calls still running keep their promises: the rows these rest on are locked against the commit. */
  lemma MergeOther(db: Tables, t: TxId, mine: Tx, u: TxId, other: Tx)
    requires Merging(db, t, mine) && TxOk(db, u, other) && Apart(t, mine, u, other)
    ensures TxOk(Merge(db, t, mine.op, mine.phase), u, other)
  {
    if other.op.Create? {
      MergeOtherNumber(db, t, mine, u, other);
    } else {
      var after := Merge(db, t, mine.op, mine.phase);
      assert JobPart(after, other.op, other.phase) by { MergeOtherJob(db, t, mine, u, other); }
      assert other.phase.HasRow() ==> Changes(after.assignments, u, other.op) == Changes(db.assignments, u, other.op) by {
        if other.phase.HasRow() { MergeOtherWrites(db, t, mine, u, other.op); }
      }
      assert other.op.Offers() ==> MemberPart(after, other.op, other.phase) by {
        if other.op.Offers() { MergeOtherMember(db, t, mine, u, other); }
      }
    }
  }

  // ---------------------------------------------------------------- every run

  lemma AdvanceKeepsInv(s: State, t: TxId, phase: Phase)
    requires Inv(s) && t in s.active && Advance(s, t, s.active[t]) == Goes(phase)
    ensures Inv(s.(active := s.active[t := Tx(s.active[t].op, phase)]))
  {
    InvGivesCallOk(s, t);
    AdvanceKeepsTxOk(s, t, phase);
    AdvanceKeepsExclusive(s, t, phase);
    assert s.active[t := Tx(s.active[t].op, phase)].Keys == s.active.Keys;
  }

  lemma InvGivesCallOk(s: State, t: TxId)
    requires Inv(s) && t in s.active
    ensures CallOk(s, t)
  {
  }

  lemma BeginKeepsInv(s: State, t: TxId, op: Op)
    requires Inv(s) && t !in s.used
    ensures Inv(Step(s, Begin(t, op)))
  {
  }

  lemma DropKeepsInv(s: State, t: TxId)
    requires Inv(s)
    ensures Inv(s.(active := s.active - {t}))
  {
  }

  lemma CommitKeepsTables(db: Tables, t: TxId, tx: Tx)
    requires Merging(db, t, tx)
    ensures CommittedOk(Merge(db, t, tx.op, tx.phase))
  {
    var after := Merge(db, t, tx.op, tx.phase);
    MergeNumbers(db, t, tx);
    forall j | j in after.jobs
      ensures JobOk(after.assignments, j, after.jobs[j])
    {
      MergeJobs(db, t, tx, j);
    }
  }

  lemma CommitKeepsCall(s: State, t: TxId, u: TxId)
    requires Inv(s) && t in s.active && s.active[t].phase.Recorded? && u in s.active && u != t
    ensures TxOk(CommitTx(s, t).db, u, s.active[u])
  {
    assert TxOk(s.db, t, s.active[t]) && TxOk(s.db, u, s.active[u]);
    LocksKeepApart(s, t, u);
    MergeOther(s.db, t, s.active[t], u, s.active[u]);
  }

  lemma CommitKeepsInv(s: State, t: TxId)
    requires Inv(s) && t in s.active && s.active[t].phase.Recorded?
    ensures Inv(CommitTx(s, t))
  {
    var after := CommitTx(s, t);
    assert TxOk(s.db, t, s.active[t]);
    CommitKeepsTables(s.db, t, s.active[t]);
    forall u | u in after.active
      ensures TxOk(after.db, u, after.active[u])
    {
      CommitKeepsCall(s, t, u);
    }
    assert IdsOk(after.db, after.log, after.active.Keys, after.used);
  }

  lemma PutMemberKeepsInv(s: State, user: UserId, member: Membership)
    requires Inv(s) && MayPut(s, user, member)
    ensures Inv(Step(s, PutMember(user, member)))
  {
    var after := Step(s, PutMember(user, member)).db;
    forall t | t in s.active
      ensures TxOk(after, t, s.active[t])
    {
      assert TxOk(s.db, t, s.active[t]);
      assert !Holds(t, s.active[t], MemberRow(user));
    }
  }

  lemma RunKeepsInv(s: State, t: TxId)
    requires Inv(s) && t in s.active
    ensures Inv(Step(s, Run(t)))
  {
    var after := Step(s, Run(t));
    match Advance(s, t, s.active[t])
    case Waits(_) => assert after == s;
    case Refused(_) =>
      assert after == s.(active := s.active - {t});
      DropKeepsInv(s, t);
    case Goes(phase) =>
      assert after == s.(active := s.active[t := Tx(s.active[t].op, phase)]);
      AdvanceKeepsInv(s, t, phase);
    case Commits =>
      OnlyCommitsWrite(s, Run(t));
      CommitKeepsInv(s, t);
  }

  lemma StepKeepsInv(s: State, a: Action)
    requires Inv(s)
    ensures Inv(Step(s, a))
  {
    match a
    case Begin(t, op) => if t !in s.used { BeginKeepsInv(s, t, op); }
    case Abort(t) => DropKeepsInv(s, t);
    case PutMember(user, member) => if MayPut(s, user, member) { PutMemberKeepsInv(s, user, member); }
    case Run(t) => if t in s.active { RunKeepsInv(s, t); }
  }

  lemma {:induction false} InvAfter(s: State, actions: seq<Action>)
    requires Inv(s)
    ensures Inv(After(s, actions))
  {
    if actions != [] {
      InvAfter(s, actions[..|actions| - 1]);
      StepKeepsInv(After(s, actions[..|actions| - 1]), actions[|actions| - 1]);
    }
  }

  lemma RunsKeepInv(start: State, actions: seq<Action>)
    requires Initial(start)
    ensures Inv(After(start, actions))
  {
    InvAfter(start, actions);
  }

  // ---------------------------------------------------------------- theorems

  /**
   * In every interleaving, whatever versions callers send: an ASSIGNED job has exactly one active
   * assignment, OFFERED to its assignee; ACCEPTED and IN_PROGRESS jobs have exactly one, ACCEPTED,
   * the assignee's; all other jobs have none. The row CHECKs hold too.
   */
  lemma JobsAndAssignmentsAgree(start: State, actions: seq<Action>)
    requires Initial(start)
    ensures var db := After(start, actions).db;
            forall j :: j in db.jobs ==>
              && (db.jobs[j].assignee.None? <==> db.jobs[j].status in {Pending, Cancelled})
              && (db.jobs[j].completedAt.Some? <==> db.jobs[j].status == Completed)
              && db.jobs[j].version >= 1
              && (db.jobs[j].status == Assigned ==>
                    OneActive(db.assignments, j, db.jobs[j].assignee.value, Offered))
              && (db.jobs[j].status in {Accepted, InProgress} ==>
                    OneActive(db.assignments, j, db.jobs[j].assignee.value, OfferAccepted))
              && (db.jobs[j].status in {Pending, Completed, Cancelled, Failed} ==>
                    ActiveOf(db.assignments, j) == {})
  {
    RunsKeepInv(start, actions);
    var db := After(start, actions).db;
    forall j | j in db.jobs
      ensures JobOk(db.assignments, j, db.jobs[j])
    {
    }
  }

  /** An assign or reassign that has taken the membership row; once past the check it has taken the AGENT role row too. */
  predicate HasMember(tx: Tx) {
    (tx.op.Assign? || tx.op.Reassign?) && !tx.phase.Called?
  }

  predicate PastTheCheck(tx: Tx) {
    HasMember(tx) && !tx.phase.MemberTaken? && !tx.phase.MemberLocked?
  }

  /**
   * What the row locks exclude, in every reachable state: two running calls that have both taken a membership row
   * offer to different agents, and two cannot both be past the eligibility check, since they share the role's row;
   * two creates cannot both hold a number; and no two calls have claimed one job.
   */
  lemma LocksExclude(start: State, actions: seq<Action>, t: TxId, u: TxId)
    requires Initial(start) && t != u
    requires t in After(start, actions).active && u in After(start, actions).active
    ensures
      var mine, other := After(start, actions).active[t], After(start, actions).active[u];
      && (HasMember(mine) && HasMember(other) ==> mine.op.agent != other.op.agent)
      && !(PastTheCheck(mine) && PastTheCheck(other))
      && (mine.op.Create? && other.op.Create? ==> mine.phase.Called? || other.phase.Called?)
      && (!mine.op.Create? && !other.op.Create? && mine.phase.HasRow() && other.phase.HasRow() ==>
            mine.op.job != other.op.job)
  {
    RunsKeepInv(start, actions);
    HoldersDiffer(After(start, actions).active, t, u);
  }

  lemma HoldersDiffer(active: map<TxId, Tx>, t: TxId, u: TxId)
    requires Exclusive(active) && t != u && t in active && u in active
    ensures HasMember(active[t]) && HasMember(active[u]) ==> active[t].op.agent != active[u].op.agent
    ensures !(PastTheCheck(active[t]) && PastTheCheck(active[u]))
    ensures active[t].op.Create? && active[u].op.Create? ==> active[t].phase.Called? || active[u].phase.Called?
    ensures !active[t].op.Create? && !active[u].op.Create? && active[t].phase.HasRow() && active[u].phase.HasRow() ==>
              active[t].op.job != active[u].op.job
  {
    var mine, other := active[t], active[u];
    if HasMember(mine) && HasMember(other) {
      assert Holds(t, mine, MemberRow(mine.op.agent)) && Holds(u, other, MemberRow(other.op.agent));
    }
    if PastTheCheck(mine) && PastTheCheck(other) {
      assert Holds(t, mine, RoleRow(AGENT)) && Holds(u, other, RoleRow(AGENT));
    }
    assert mine.op.Create? && !mine.phase.Called? ==> Holds(t, mine, CounterRow);
    assert other.op.Create? && !other.phase.Called? ==> Holds(u, other, CounterRow);
    assert !mine.op.Create? && mine.phase.HasRow() ==> Holds(t, mine, JobRow(mine.op.job));
    assert !other.op.Create? && other.phase.HasRow() ==> Holds(u, other, JobRow(other.op.job));
  }

  /**
   * A membership edit takes effect exactly when no running assign or reassign has taken that member's row and, for
   * a new member or a new role, none past the locking read holds the new role's row; and it changes that row alone.
   */
  lemma EditsWaitForOffers(s: State, user: UserId, member: Membership)
    ensures
      var after := Step(s, PutMember(user, member));
      var newRole := user !in s.db.members || s.db.members[user].role != member.role;
      if (forall t :: t in s.active && HasMember(s.active[t]) ==> s.active[t].op.agent != user)
         && (newRole ==> forall t :: t in s.active ==> !HasRole(s.active[t], member.role))
      then after == s.(db := s.db.(members := s.db.members[user := member]))
      else after == s
  {
    assert forall t :: t in s.active ==>
      (Holds(t, s.active[t], MemberRow(user)) <==> HasMember(s.active[t]) && s.active[t].op.agent == user);
    assert forall t :: t in s.active ==> (Holds(t, s.active[t], RoleRow(member.role)) <==> HasRole(s.active[t], member.role));
  }

  /** A call past the locking read holds the role it read there, which past the check is AGENT. */
  predicate HasRole(tx: Tx, role: string) {
    HasMember(tx) && !tx.phase.MemberTaken? && role == if tx.phase.MemberLocked? then tx.phase.role else "AGENT"
  }

  /** In every reachable state a job has one open offer at most, so an agent's newest open offer is the only one. */
  lemma OpenOfferIsUnique(start: State, actions: seq<Action>, job: JobId, a: AssignmentId, b: AssignmentId)
    requires Initial(start)
    requires var db := After(start, actions).db; a in OffersFor(db.assignments, job) && b in OffersFor(db.assignments, job)
    ensures a == b
  {
    RunsKeepInv(start, actions);
    var db := After(start, actions).db;
    assert JobOk(db.assignments, job, db.jobs[job]);
    assert a in ActiveOf(db.assignments, job) && b in ActiveOf(db.assignments, job);
  }

  lemma ClaimPassesChecks(assignments: map<AssignmentId, Assignment>, op: Op, seen: Job, now: Job)
    requires !op.Create? && JobOk(assignments, op.job, now) && Follows(seen, now)
    requires Objection(op, seen).None? && Matches(WhereOf(op, seen), now)
    ensures RowChecks(ApplyUpdate(now, UpdateOf(op, seen)))
  {
  }

  lemma InsertFindsSlotFree(s: State, t: TxId, changed: map<AssignmentId, Assignment>)
    requires CallOk(s, t) && s.active[t].op.Offers()
    requires if s.active[t].op.Assign? then s.active[t].phase.Claimed? && changed == map[]
             else s.active[t].phase.OffersClosed? && changed == s.active[t].phase.changed
    ensures ActiveOf(s.db.assignments + changed, s.active[t].op.job) == {}
  {
    if s.active[t].op.Assign? {
      assert s.db.assignments + changed == s.db.assignments;
    }
  }

  lemma CallPassesConstraints(s: State, t: TxId)
    requires CallOk(s, t)
    ensures Advance(s, t, s.active[t]) !in {Refused(AlreadyAssigned), Refused(CheckViolation)}
  {
    var op, phase := s.active[t].op, s.active[t].phase;
    if phase.Claimed? && op.Assign? {
      InsertFindsSlotFree(s, t, map[]);
    } else if phase.OffersClosed? && op.Offers() {
      InsertFindsSlotFree(s, t, phase.changed);
    } else if (phase.JobRead? && !op.Responds()) || phase.OfferRead? {
      if Objection(op, phase.seen).None? && Matches(WhereOf(op, phase.seen), s.db.jobs[op.job]) {
        ClaimPassesChecks(s.db.assignments, op, phase.seen, s.db.jobs[op.job]);
      }
    }
  }

  /** No statement of any call is ever refused by the one-active index or by a row CHECK. */
  lemma ConstraintsNeverFire(start: State, actions: seq<Action>, t: TxId)
    requires Initial(start) && t in After(start, actions).active
    ensures var s := After(start, actions);
            Advance(s, t, s.active[t]) !in {Refused(AlreadyAssigned), Refused(CheckViolation)}
  {
    RunsKeepInv(start, actions);
    CallPassesConstraints(After(start, actions), t);
  }

  /** A membership edit that takes effect and leaves the agent a cap below what is already handed out. */
  predicate Undercuts(s: State, a: Action, agent: UserId) {
    && a.PutMember? && a.user == agent && MayPut(s, agent, a.member)
    && ActiveFor(s.db.assignments, agent) != {}
    && |ActiveFor(s.db.assignments, agent)| > EffectiveCapFor(Some(a.member), s.db.defaultCap)
  }

  /** From a state within the cap, nothing but an undercutting edit ever leads out of it. */
  lemma StepKeepsCap(s: State, a: Action, agent: UserId)
    requires Inv(s) && CapOk(s.db, agent)
    ensures CapOk(Step(s, a).db, agent) <==> !Undercuts(s, a, agent)
  {
    OnlyCommitsWrite(s, a);
    if Committing(s, a) {
      assert TxOk(s.db, a.tx, s.active[a.tx]);
      MergeCap(s.db, a.tx, s.active[a.tx], agent);
    }
  }

  /** The agent is within the cap after the first k actions. */
  ghost predicate CapAfter(start: State, actions: seq<Action>, k: nat, agent: UserId)
    requires k <= |actions|
  {
    CapOk(After(start, actions[..k]).db, agent)
  }

  ghost predicate UndercutBy(start: State, actions: seq<Action>, k: nat, agent: UserId)
    requires k < |actions|
  {
    Undercuts(After(start, actions[..k]), actions[k], agent)
  }

  lemma CapOneOn(start: State, actions: seq<Action>, k: nat, n: nat, agent: UserId)
    requires Initial(start) && n == k + 1 <= |actions| && CapAfter(start, actions, k, agent)
    ensures CapAfter(start, actions, n, agent) <==> !UndercutBy(start, actions, k, agent)
  {
    var before := After(start, actions[..k]);
    assert Inv(before) by { RunsKeepInv(start, actions[..k]); }
    StepKeepsCap(before, actions[k], agent);
    OneActionOn(start, actions, k, n);
  }

  lemma OneActionOn(start: State, actions: seq<Action>, k: nat, n: nat)
    requires n == k + 1 <= |actions|
    ensures After(start, actions[..n]) == Step(After(start, actions[..k]), actions[k])
  {
    assert actions[..n][..k] == actions[..k];
  }

  lemma {:induction false} CapUpTo(start: State, actions: seq<Action>, k: nat, agent: UserId)
    requires Initial(start) && k <= |actions|
    requires forall i :: 0 <= i < |actions| ==> !UndercutBy(start, actions, i, agent)
    ensures CapAfter(start, actions, k, agent)
  {
    if k > 0 {
      var before: nat := k - 1;
      CapUpTo(start, actions, before, agent);
      CapOneOn(start, actions, before, k, agent);
    }
  }

  /**
   * In every interleaving, whatever membership edits it contains: an agent's OFFERED and ACCEPTED assignments
   * never outnumber the effective cap at any point if and only if no edit undercuts what the agent already has.
   */
  lemma CapsHold(start: State, actions: seq<Action>, agent: UserId)
    requires Initial(start)
    ensures (forall k :: 0 <= k <= |actions| ==> CapAfter(start, actions, k, agent))
            <==> (forall k :: 0 <= k < |actions| ==> !UndercutBy(start, actions, k, agent))
  {
    if forall k :: 0 <= k < |actions| ==> !UndercutBy(start, actions, k, agent) {
      forall k | 0 <= k <= |actions|
        ensures CapAfter(start, actions, k, agent)
      {
        CapUpTo(start, actions, k, agent);
      }
    } else {
      var k :| 0 <= k < |actions| && UndercutBy(start, actions, k, agent);
      if CapAfter(start, actions, k, agent) {
        var n := k + 1;
        CapOneOn(start, actions, k, n, agent);
      }
    }
  }

  /** Whatever membership edits a run contains, whoever is about to commit an offer offers to a member eligible right then. */
  lemma OffersAreEligibleAtCommit(start: State, actions: seq<Action>, t: TxId)
    requires Initial(start) && t in After(start, actions).active
    requires After(start, actions).active[t].phase.Recorded? && After(start, actions).active[t].op.Offers()
    ensures var s := After(start, actions);
            var agent := s.active[t].op.agent;
            agent in s.db.members && Eligible(Some(s.db.members[agent]), s.db.organization,
                                              |ActiveFor(s.db.assignments, agent)|, s.db.defaultCap)
  {
    RunsKeepInv(start, actions);
    var s := After(start, actions);
    assert TxOk(s.db, t, s.active[t]);
  }

  // ---------------------------------------------------------------- the timeline names who did what

  /** The commits on one job, in order. */
  function CommitsOn(log: seq<CommitRecord>, job: JobId): seq<CommitRecord> {
    if log == [] then []
    else
      var n := |log| - 1;
      CommitsOn(log[..n], job) + if log[n].job == job then [log[n]] else []
  }

  /** An event that tells of this operation by its actor and by the move it stands for. */
  predicate Tells(event: Event, op: Op) {
    && event.actor == op.actor
    && match op
       case Create(_, _, _) => event.from == None && event.to == Pending
       case Assign(_, _, _, _) => event.from == Some(Pending) && event.to == Assigned
       case Accept(_, _, _) => event.from == Some(Assigned) && event.to == Accepted
       case Decline(_, _, _) => event.from == Some(Assigned) && event.to == Pending
       case Reassign(_, _, _, _) => event.from == Some(Assigned) && event.to == Assigned
       case Patch(_, _, _, _) => event.from == Some(event.to)
       case _ => event.from.Some? && event.to == op.To()
  }

  ghost predicate TimelineTells(events: seq<Event>, commits: seq<CommitRecord>) {
    |events| == |commits| && forall k :: 0 <= k < |events| ==> Tells(events[k], commits[k].op)
  }

  lemma CommitTells(s: State, t: TxId, job: JobId)
    requires t in s.active && s.active[t].phase.Recorded?
    requires s.active[t].phase.event == EventOf(s.active[t].op, s.active[t].phase.seen)
    requires TimelineTells(EventsOf(s.db, job), CommitsOn(s.log, job))
    ensures TimelineTells(EventsOf(CommitTx(s, t).db, job), CommitsOn(CommitTx(s, t).log, job))
  {
    var tx := s.active[t];
    var record := CommitRecord(t, tx.op, JobOf(t, tx.op));
    assert (s.log + [record])[..|s.log|] == s.log;
    if record.job == job {
      TellsAppend(EventsOf(s.db, job), CommitsOn(s.log, job), tx.phase.event, record);
    }
  }

  lemma TellsAppend(events: seq<Event>, commits: seq<CommitRecord>, event: Event, record: CommitRecord)
    requires TimelineTells(events, commits) && Tells(event, record.op)
    ensures TimelineTells(events + [event], commits + [record])
  {
  }

  /** Every commit on a job leaves exactly one event, in commit order, that names its actor and its move. */
  lemma {:induction false} EveryCommitHasItsEvent(start: State, actions: seq<Action>, job: JobId)
    requires Initial(start)
    ensures TimelineTells(EventsOf(After(start, actions).db, job), CommitsOn(After(start, actions).log, job))
  {
    if actions != [] {
      var before, a := After(start, actions[..|actions| - 1]), actions[|actions| - 1];
      EveryCommitHasItsEvent(start, actions[..|actions| - 1], job);
      OnlyCommitsWrite(before, a);
      if Committing(before, a) {
        RunsKeepInv(start, actions[..|actions| - 1]);
        assert TxOk(before.db, a.tx, before.active[a.tx]);
        CommitTells(before, a.tx, job);
      }
    }
  }

  /** The numbers on committed jobs are exactly 1..counter, each once, aborted creates included. */
  lemma NumbersAreGapless(start: State, actions: seq<Action>)
    requires Initial(start)
    ensures var db := After(start, actions).db;
            && (forall j :: j in db.jobs ==> 1 <= db.jobs[j].number <= db.counter)
            && (forall j, k :: j in db.jobs && k in db.jobs && j != k ==> db.jobs[j].number != db.jobs[k].number)
            && (forall n :: 1 <= n <= db.counter ==> HasNumber(db.jobs, n))
  {
    RunsKeepInv(start, actions);
  }

  /**
   * A start, complete or fail that commits is the assignee's at commit time, and so is an accept or
   * decline, although each tested a row it read earlier.
   */
  lemma OnlyTheAssigneeCommits(start: State, actions: seq<Action>, t: TxId)
    requires Initial(start) && t in After(start, actions).active
    requires After(start, actions).active[t].phase.Recorded?
    requires After(start, actions).active[t].op.OwnerOnly() || After(start, actions).active[t].op.Responds()
    ensures var s := After(start, actions);
            var op := s.active[t].op;
            && op.job in s.db.jobs
            && s.db.jobs[op.job].assignee == Some(op.actor)
            && s.db.jobs[op.job].status ==
               (if op.Responds() then Assigned else if op.Start? then Accepted else InProgress)
  {
    RunsKeepInv(start, actions);
    var s := After(start, actions);
    assert TxOk(s.db, t, s.active[t]);
    ReadyAssignee(s.db, t, s.active[t]);
  }

  lemma ReadyAssignee(db: Tables, t: TxId, tx: Tx)
    requires TxOk(db, t, tx) && tx.phase.Recorded? && (tx.op.OwnerOnly() || tx.op.Responds())
    ensures db.jobs[tx.op.job].assignee == Some(tx.op.actor)
    ensures db.jobs[tx.op.job].status ==
            if tx.op.Responds() then Assigned else if tx.op.Start? then Accepted else InProgress
  {
  }

  /** Every commit on an existing job is a legal move of its committed status; a patch is a self-loop. */
  lemma CommitsFollowTheTable(start: State, actions: seq<Action>, t: TxId)
    requires Initial(start) && t in After(start, actions).active
    requires After(start, actions).active[t].phase.Recorded? && !After(start, actions).active[t].op.Create?
    ensures var s := After(start, actions);
            var op := s.active[t].op;
            && op.job in s.db.jobs
            && (if op.Patch?
                then CommitTx(s, t).db.jobs[op.job].status == s.db.jobs[op.job].status
                else CanTransition(s.db.jobs[op.job].status, CommitTx(s, t).db.jobs[op.job].status))
  {
    RunsKeepInv(start, actions);
    var s := After(start, actions);
    assert TxOk(s.db, t, s.active[t]);
    ReadyMove(s.db, t, s.active[t]);
  }

  lemma ReadyMove(db: Tables, t: TxId, tx: Tx)
    requires TxOk(db, t, tx) && tx.phase.Recorded? && !tx.op.Create?
    ensures if tx.op.Patch? then tx.phase.row.status == db.jobs[tx.op.job].status
            else CanTransition(db.jobs[tx.op.job].status, tx.phase.row.status)
  {
  }

  lemma StepFollows(s: State, a: Action, job: JobId)
    requires Inv(s) && job in s.db.jobs
    ensures job in Step(s, a).db.jobs && Follows(s.db.jobs[job], Step(s, a).db.jobs[job])
  {
    assert Follows(s.db.jobs[job], s.db.jobs[job]) by {
      assert JobOk(s.db.assignments, job, s.db.jobs[job]);
    }
    OnlyCommitsWrite(s, a);
    if Committing(s, a) {
      CommitFollows(s, a.tx, job);
    }
  }

  lemma CommitFollows(s: State, t: TxId, job: JobId)
    requires Inv(s) && job in s.db.jobs && t in s.active && s.active[t].phase.Recorded?
    requires Follows(s.db.jobs[job], s.db.jobs[job])
    ensures Follows(s.db.jobs[job], CommitTx(s, t).db.jobs[job])
  {
    assert Merging(s.db, t, s.active[t]);
    MergeFollows(s.db, t, s.active[t], job, s.db.jobs[job]);
  }

  lemma FollowsChains(first: Job, middle: Job, last: Job)
    requires Follows(first, middle) && Follows(middle, last)
    ensures Follows(first, last)
  {
  }

  lemma {:induction false} ContinuationFollows(s: State, more: seq<Action>, job: JobId)
    requires Inv(s) && job in s.db.jobs
    ensures job in After(s, more).db.jobs && Follows(s.db.jobs[job], After(s, more).db.jobs[job])
  {
    if more == [] {
      assert JobOk(s.db.assignments, job, s.db.jobs[job]);
    } else {
      var before, a := After(s, more[..|more| - 1]), more[|more| - 1];
      ContinuationFollows(s, more[..|more| - 1], job);
      InvAfter(s, more[..|more| - 1]);
      StepFollows(before, a, job);
      FollowsChains(s.db.jobs[job], before.db.jobs[job], Step(before, a).db.jobs[job]);
    }
  }

  /**
   * However a run goes on, a job that is ACCEPTED or later keeps its assignee until it leaves that
   * status, and a status once left is never entered again.
   */
  lemma WorkKeepsItsOwner(start: State, actions: seq<Action>, more: seq<Action>, job: JobId)
    requires Initial(start) && job in After(start, actions).db.jobs
    ensures job in After(start, actions + more).db.jobs
    ensures var seen, now := After(start, actions).db.jobs[job], After(start, actions + more).db.jobs[job];
            && Rank(seen.status) <= Rank(now.status)
            && (seen.status !in {Pending, Assigned} && Rank(seen.status) == Rank(now.status) ==>
                  now.status == seen.status && now.assignee == seen.assignee)
  {
    RunsKeepInv(start, actions);
    AfterAppend(start, actions, more);
    ContinuationFollows(After(start, actions), more, job);
  }
}
