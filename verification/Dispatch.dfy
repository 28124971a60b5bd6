/**
 * The dispatch protocol: ten operations as concurrent Read Committed transactions
 * over shared rows. One `Action` is one database statement of one call, so a
 * sequence of actions is one interleaving of any number of calls.
 *
 * A read sees the committed tables. A conditional update takes the row lock and
 * tests its `where` on the committed row; its write stays private to the call until
 * commit and the lock is kept to the end. An abort drops the private writes.
 * A row inserted by a call carries that call's identity, which makes row
 * identities fresh. The tables belong to one organization.
 */
module Dispatch {
  import opened Optional
  import opened Lifecycle
  import opened Eligibility

  type TxId = nat
  type JobId = TxId
  type AssignmentId = TxId
  type Details = map<string, string>

  // ---------------------------------------------------------------- rows

  datatype Job = Job(
    year: nat,
    number: nat,
    status: Status,
    version: int,
    assignee: Option<UserId>,
    completedAt: Option<int>,
    details: Details)

  datatype OfferState = Offered | OfferAccepted | OfferDeclined | OfferRevoked | OfferCompleted

  datatype Assignment = Assignment(job: JobId, agent: UserId, state: OfferState)

  datatype Event = Event(actor: UserId, from: Option<Status>, to: Status)

  // ---------------------------------------------------------------- calls

  /** A version of `None` is an omitted one: the update then has no version in its `where`. */
  datatype Op =
    | Create(actor: UserId, year: nat, data: Details)
    | Assign(actor: UserId, job: JobId, version: Option<int>, agent: UserId)
    | Accept(actor: UserId, job: JobId, version: Option<int>)
    | Decline(actor: UserId, job: JobId, version: Option<int>)
    | Reassign(actor: UserId, job: JobId, version: Option<int>, agent: UserId)
    | Start(actor: UserId, job: JobId, version: Option<int>)
    | Complete(actor: UserId, job: JobId, version: Option<int>, now: int)
    | Cancel(actor: UserId, job: JobId, version: Option<int>)
    | Fail(actor: UserId, job: JobId, version: Option<int>)
    | Patch(actor: UserId, job: JobId, version: Option<int>, data: Details)
  {
    predicate Offers() { Assign? || Reassign? }
    predicate Responds() { Accept? || Decline? }
    predicate Transitions() { Start? || Complete? || Cancel? || Fail? }
    predicate OwnerOnly() { Start? || Complete? || Fail? }
    predicate Closes() { Responds() || Reassign? || Complete? || Cancel? || Fail? }

    function To(): Status
      requires Transitions()
    {
      match this
      case Start(_, _, _) => InProgress
      case Complete(_, _, _, _) => Completed
      case Cancel(_, _, _) => Cancelled
      case Fail(_, _, _) => Failed
    }

    function CloseTo(): OfferState
      requires Closes()
    {
      match this
      case Accept(_, _, _) => OfferAccepted
      case Decline(_, _, _) => OfferDeclined
      case Complete(_, _, _, _) => OfferCompleted
      case _ => OfferRevoked
    }
  }

  /**
   * Where a call stands, with what it has read and what it has written so far.
   * A create has read no job: its `seen` is the row it inserted itself.
   */
  datatype Phase =
    | Called
    | MemberTaken
    | MemberLocked(role: string)
    | CapChecked
    | Numbered(number: nat)
    | JobRead(seen: Job)
    | OfferRead(seen: Job, own: AssignmentId)
    | Claimed(seen: Job, offer: Option<AssignmentId>, row: Job)
    | OffersClosed(seen: Job, row: Job, changed: map<AssignmentId, Assignment>)
    | OfferMade(seen: Job, row: Job, changed: map<AssignmentId, Assignment>)
    | Recorded(seen: Job, row: Job, changed: map<AssignmentId, Assignment>, event: Event)
  {
    predicate HasRow() { Claimed? || OffersClosed? || OfferMade? || Recorded? }
    predicate HasChanges() { OffersClosed? || OfferMade? || Recorded? }
    predicate HasSeen() { JobRead? || OfferRead? || HasRow() }
  }

  datatype Tx = Tx(op: Op, phase: Phase)

  /** What a committed call did to its job, in commit order. */
  datatype CommitRecord = CommitRecord(tx: TxId, op: Op, job: JobId)

  /** The committed rows. The counter row is created with the organization; `hasCounter` says whether it was. */
  datatype Tables = Tables(
    organization: OrgId,
    defaultCap: int,
    hasCounter: bool,
    members: map<UserId, Membership>,
    jobs: map<JobId, Job>,
    assignments: map<AssignmentId, Assignment>,
    events: map<JobId, seq<Event>>,
    counter: nat)

  datatype State = State(db: Tables, active: map<TxId, Tx>, used: set<TxId>, log: seq<CommitRecord>)

  /** Where runs start: memberships exist, no job does. */
  predicate Initial(s: State) {
    && s.db.jobs == map[] && s.db.assignments == map[] && s.db.events == map[] && s.db.counter == 0
    && s.active == map[] && s.used == {} && s.log == []
  }

  function JobOf(t: TxId, op: Op): JobId {
    if op.Create? then t else op.job
  }

  predicate IsActive(state: OfferState) {
    state.Offered? || state.OfferAccepted?
  }

  function ActiveOf(assignments: map<AssignmentId, Assignment>, job: JobId): set<AssignmentId> {
    set a | a in assignments && assignments[a].job == job && IsActive(assignments[a].state)
  }

  function ActiveFor(assignments: map<AssignmentId, Assignment>, agent: UserId): set<AssignmentId> {
    set a | a in assignments && assignments[a].agent == agent && IsActive(assignments[a].state)
  }

  function OffersFor(assignments: map<AssignmentId, Assignment>, job: JobId): set<AssignmentId> {
    set a | a in assignments && assignments[a].job == job && assignments[a].state.Offered?
  }

  function OwnOffers(assignments: map<AssignmentId, Assignment>, job: JobId, agent: UserId): set<AssignmentId> {
    set a | a in OffersFor(assignments, job) && assignments[a].agent == agent
  }

  lemma NewestExists(ids: set<AssignmentId>)
    requires ids != {}
    ensures exists a :: a in ids && forall b :: b in ids ==> b <= a
  {
    var some :| some in ids;
    if ids != {some} {
      assert ids - {some} != {};
      NewestExists(ids - {some});
      var a :| a in ids - {some} && forall b :: b in ids - {some} ==> b <= a;
      var top := if a < some then some else a;
      assert forall b :: b in ids ==> b == some || b in ids - {some};
      assert top in ids;
    }
  }

  /** One of some rows, by identity. An open offer is its job's only one, so which end is taken never matters. */
  function Newest(ids: set<AssignmentId>): (newest: AssignmentId)
    requires ids != {}
    ensures newest in ids && forall b :: b in ids ==> b <= newest
  {
    NewestExists(ids);
    var a :| a in ids && forall b :: b in ids ==> b <= a;
    a
  }

  // ---------------------------------------------------------------- locks

  /**
   * Locking a membership row locks its role row with it, because the locking read joins the two. A call past
   * the eligibility check holds the agents' role row: the check admits no other role.
   * `OfferSlot` is the entry of the partial unique index that admits one active assignment per job.
   */
  datatype Lock =
    | MemberRow(user: UserId)
    | RoleRow(role: string)
    | CounterRow
    | JobRow(job: JobId)
    | AssignmentRow(assignment: AssignmentId)
    | OfferSlot(slot: JobId)

  predicate Holds(t: TxId, tx: Tx, lock: Lock) {
    match lock
    case MemberRow(u) => tx.op.Offers() && !tx.phase.Called? && tx.op.agent == u
    case RoleRow(r) =>
      && tx.op.Offers() && !tx.phase.Called? && !tx.phase.MemberTaken?
      && r == (if tx.phase.MemberLocked? then tx.phase.role else AGENT)
    case CounterRow => tx.op.Create? && !tx.phase.Called?
    case JobRow(j) => !tx.op.Create? && tx.phase.HasRow() && tx.op.job == j
    case AssignmentRow(a) => tx.phase.HasChanges() && a in tx.phase.changed && a != t
    case OfferSlot(j) => tx.op.Offers() && (tx.phase.OfferMade? || tx.phase.Recorded?) && tx.op.job == j
  }

  predicate HeldByOther(s: State, t: TxId, lock: Lock) {
    exists u :: u in s.active && u != t && Holds(u, s.active[u], lock)
  }

  // ---------------------------------------------------------------- statements

  datatype Error =
    | NotFound
    | VersionConflict(currentVersion: int, currentStatus: Status)
    | InvalidTransition(current: Status)
    | Forbidden
    | NotEligible
    | OfferGone
    | AlreadyAssigned
    | CheckViolation
    | CounterMissing
    | LockTimeout

  datatype Verdict = Waits(lock: Lock) | Refused(error: Error) | Goes(phase: Phase) | Commits

  /** The `where` of the job claim; an absent part is not tested. */
  datatype JobWhere = JobWhere(version: Option<int>, status: Option<Status>)

  /** The `data` of the job claim: absent columns keep their value. */
  datatype JobUpdate = JobUpdate(
    status: Option<Status>,
    version: int,
    assignee: Option<Option<UserId>>,
    completedAt: Option<int>,
    details: Details)

  predicate Matches(where: JobWhere, job: Job) {
    && (where.version.Some? ==> job.version == where.version.value)
    && (where.status.Some? ==> job.status == where.status.value)
  }

  function ApplyUpdate(job: Job, data: JobUpdate): Job {
    job.(status := if data.status.Some? then data.status.value else job.status,
         version := data.version,
         assignee := if data.assignee.Some? then data.assignee.value else job.assignee,
         completedAt := if data.completedAt.Some? then data.completedAt else job.completedAt,
         details := job.details + data.details)
  }

  function WhereOf(op: Op, seen: Job): JobWhere
    requires !op.Create?
  {
    JobWhere(op.version,
             match op
             case Assign(_, _, _, _) => Some(Pending)
             case Accept(_, _, _) => Some(Assigned)
             case Decline(_, _, _) => Some(Assigned)
             case Reassign(_, _, _, _) => Some(Assigned)
             case Patch(_, _, _, _) => None
             case _ => Some(seen.status))
  }

  function UpdateOf(op: Op, seen: Job): JobUpdate
    requires !op.Create?
  {
    var next := seen.version + 1;
    match op
    case Assign(_, _, _, agent) => JobUpdate(Some(Assigned), next, Some(Some(agent)), None, map[])
    case Accept(_, _, _) => JobUpdate(Some(Accepted), next, None, None, map[])
    case Decline(_, _, _) => JobUpdate(Some(Pending), next, Some(None), None, map[])
    case Reassign(_, _, _, agent) => JobUpdate(Some(Assigned), next, Some(Some(agent)), None, map[])
    case Start(_, _, _) => JobUpdate(Some(InProgress), next, None, None, map[])
    case Complete(_, _, _, now) => JobUpdate(Some(Completed), next, None, Some(now), map[])
    case Cancel(_, _, _) => JobUpdate(Some(Cancelled), next, Some(None), None, map[])
    case Fail(_, _, _) => JobUpdate(Some(Failed), next, None, None, map[])
    case Patch(_, _, _, data) => JobUpdate(None, next, None, None, data)
  }

  /** The three CHECK constraints of the job table. */
  predicate RowChecks(job: Job) {
    && (job.assignee.None? <==> job.status in {Pending, Cancelled})
    && (job.completedAt.Some? <==> job.status == Completed)
    && job.version >= 1
  }

  /** The test an operation makes on the job it read, before it claims the row. */
  function Objection(op: Op, seen: Job): (error: Option<Error>)
    requires !op.Create?
  {
    if op.Assign? && seen.status != Pending then Some(VersionConflict(seen.version, seen.status))
    else if op.Responds() && seen.status != Assigned then Some(InvalidTransition(seen.status))
    else if op.Reassign? && seen.status == Pending then Some(InvalidTransition(seen.status))
    else if op.Transitions() && !CanTransition(seen.status, op.To()) then Some(InvalidTransition(seen.status))
    else if op.OwnerOnly() && seen.assignee != Some(op.actor) then Some(Forbidden)
    else if op.Patch? && Terminal(seen.status) then Some(InvalidTransition(seen.status))
    else None
  }

  function ReadJob(db: Tables, op: Op): Verdict
    requires !op.Create?
  {
    if op.job in db.jobs then Goes(JobRead(db.jobs[op.job])) else Refused(NotFound)
  }

  function LockMember(s: State, t: TxId, op: Op): Verdict
    requires op.Offers()
  {
    if op.agent !in s.db.members then Refused(NotEligible)
    else if HeldByOther(s, t, MemberRow(op.agent)) then Waits(MemberRow(op.agent))
    else Goes(MemberTaken)
  }

  function LockRole(s: State, t: TxId, op: Op): Verdict
    requires op.Offers()
  {
    if op.agent !in s.db.members then Refused(NotEligible)
    else
      var role := s.db.members[op.agent].role;
      if HeldByOther(s, t, RoleRow(role)) then Waits(RoleRow(role)) else Goes(MemberLocked(role))
  }

  function CheckCap(db: Tables, op: Op): Verdict
    requires op.Offers()
  {
    var member := if op.agent in db.members then Some(db.members[op.agent]) else None;
    if Eligible(member, db.organization, |ActiveFor(db.assignments, op.agent)|, db.defaultCap)
    then Goes(CapChecked) else Refused(NotEligible)
  }

  function TakeNumber(s: State, t: TxId): Verdict {
    if !s.db.hasCounter then Refused(CounterMissing)
    else if HeldByOther(s, t, CounterRow) then Waits(CounterRow)
    else Goes(Numbered(s.db.counter + 1))
  }

  function FreshJob(op: Op, number: nat): Job
    requires op.Create?
  {
    Job(op.year, number, Pending, 1, None, None, op.data)
  }

  /** Finds the actor's own open offer; the two misses differ in the error a loser sees. */
  function ReadOffer(db: Tables, op: Op, seen: Job): Verdict
    requires op.Responds()
  {
    var own := OwnOffers(db.assignments, op.job, op.actor);
    if own != {} then
      Goes(OfferRead(seen, Newest(own)))
    else if OffersFor(db.assignments, op.job) != {} then Refused(VersionConflict(seen.version, seen.status))
    else Refused(InvalidTransition(seen.status))
  }

  function Claim(s: State, t: TxId, op: Op, seen: Job, offer: Option<AssignmentId>): Verdict
    requires !op.Create?
  {
    if Objection(op, seen).Some? then Refused(Objection(op, seen).value)
    else if op.job !in s.db.jobs then Refused(NotFound)
    else if HeldByOther(s, t, JobRow(op.job)) then Waits(JobRow(op.job))
    else
      var current := s.db.jobs[op.job];
      if !Matches(WhereOf(op, seen), current) then Refused(VersionConflict(current.version, current.status))
      else
        var row := ApplyUpdate(current, UpdateOf(op, seen));
        if RowChecks(row) then Goes(Claimed(seen, offer, row)) else Refused(CheckViolation)
  }

  /** The assignment rows of a set, moved to a new state. */
  function Moved(assignments: map<AssignmentId, Assignment>, ids: set<AssignmentId>, to: OfferState)
    : map<AssignmentId, Assignment>
  {
    map a | a in assignments && a in ids :: assignments[a].(state := to)
  }

  function CloseOffers(s: State, t: TxId, op: Op, seen: Job, offer: Option<AssignmentId>, row: Job): Verdict
    requires op.Closes()
  {
    var target := if offer.Some? then {offer.value} * OffersFor(s.db.assignments, op.job)
                  else ActiveOf(s.db.assignments, op.job);
    var locked := set a | a in target && HeldByOther(s, t, AssignmentRow(a));
    if locked != {} then Waits(AssignmentRow(Newest(locked)))
    else if offer.Some? && target == {} then Refused(OfferGone)
    else Goes(OffersClosed(seen, row, Moved(s.db.assignments, target, op.CloseTo())))
  }

  function InsertOffer(s: State, t: TxId, op: Op, seen: Job, row: Job, changed: map<AssignmentId, Assignment>)
    : Verdict
    requires op.Offers()
  {
    if HeldByOther(s, t, OfferSlot(op.job)) then Waits(OfferSlot(op.job))
    else if ActiveOf(s.db.assignments + changed, op.job) != {} then Refused(AlreadyAssigned)
    else Goes(OfferMade(seen, row, changed[t := Assignment(op.job, op.agent, Offered)]))
  }

  function EventOf(op: Op, seen: Job): Event {
    match op
    case Create(actor, _, _) => Event(actor, None, Pending)
    case Assign(actor, _, _, _) => Event(actor, Some(Pending), Assigned)
    case Accept(actor, _, _) => Event(actor, Some(Assigned), Accepted)
    case Decline(actor, _, _) => Event(actor, Some(Assigned), Pending)
    case Reassign(actor, _, _, _) => Event(actor, Some(Assigned), Assigned)
    case Patch(actor, _, _, _) => Event(actor, Some(seen.status), seen.status)
    case _ => Event(op.actor, Some(seen.status), op.To())
  }

  /** The next statement of a call. */
  function Advance(s: State, t: TxId, tx: Tx): Verdict {
    var op := tx.op;
    match tx.phase
    case Called =>
      if op.Create? then TakeNumber(s, t) else if op.Offers() then LockMember(s, t, op) else ReadJob(s.db, op)
    case MemberTaken => if op.Offers() then LockRole(s, t, op) else Refused(NotFound)
    case MemberLocked(_) => if op.Offers() then CheckCap(s.db, op) else Refused(NotFound)
    case CapChecked => if op.Create? then Refused(NotFound) else ReadJob(s.db, op)
    case Numbered(number) =>
      if op.Create? then Goes(Claimed(FreshJob(op, number), None, FreshJob(op, number))) else Refused(NotFound)
    case JobRead(seen) =>
      if op.Create? then Refused(NotFound)
      else if op.Responds() then ReadOffer(s.db, op, seen) else Claim(s, t, op, seen, None)
    case OfferRead(seen, offer) =>
      if op.Create? then Refused(NotFound) else Claim(s, t, op, seen, Some(offer))
    case Claimed(seen, offer, row) =>
      if op.Closes() then CloseOffers(s, t, op, seen, offer, row)
      else if op.Offers() then InsertOffer(s, t, op, seen, row, map[])
      else Goes(Recorded(seen, row, map[], EventOf(op, seen)))
    case OffersClosed(seen, row, changed) =>
      if op.Offers() then InsertOffer(s, t, op, seen, row, changed)
      else Goes(Recorded(seen, row, changed, EventOf(op, seen)))
    case OfferMade(seen, row, changed) => Goes(Recorded(seen, row, changed, EventOf(op, seen)))
    case Recorded(_, _, _, _) => Commits
  }

  function EventsOf(db: Tables, job: JobId): seq<Event> {
    if job in db.events then db.events[job] else []
  }

  /** The tables once a call's writes are merged. */
  function Merge(db: Tables, t: TxId, op: Op, phase: Phase): Tables
    requires phase.Recorded?
  {
    var job := JobOf(t, op);
    db.(jobs := db.jobs[job := phase.row],
        assignments := db.assignments + phase.changed,
        events := db.events[job := EventsOf(db, job) + [phase.event]],
        counter := if op.Create? then phase.row.number else db.counter)
  }

  function CommitTx(s: State, t: TxId): State
    requires t in s.active && s.active[t].phase.Recorded?
  {
    var tx := s.active[t];
    State(Merge(s.db, t, tx.op, tx.phase),
          s.active - {t},
          s.used,
          s.log + [CommitRecord(t, tx.op, JobOf(t, tx.op))])
  }

  // ---------------------------------------------------------------- runs

  /** `PutMember` is the membership route: any edit of role, availability and cap, once the rows it needs are free. */
  datatype Action =
    | Begin(tx: TxId, op: Op)
    | Run(tx: TxId)
    | Abort(tx: TxId)
    | PutMember(user: UserId, member: Membership)

  predicate MayPut(s: State, user: UserId, member: Membership) {
    && (forall t :: t in s.active ==> !Holds(t, s.active[t], MemberRow(user)))
    && (!(user in s.db.members && s.db.members[user].role == member.role) ==>
          forall t :: t in s.active ==> !Holds(t, s.active[t], RoleRow(member.role)))
  }

  /** One action; one that is not possible in the state changes nothing. */
  function Step(s: State, a: Action): State {
    match a
    case Begin(t, op) =>
      if t in s.used then s else s.(used := s.used + {t}, active := s.active[t := Tx(op, Called)])
    case Run(t) =>
      if t !in s.active then s
      else
        (match Advance(s, t, s.active[t])
         case Waits(_) => s
         case Refused(_) => s.(active := s.active - {t})
         case Goes(phase) => s.(active := s.active[t := Tx(s.active[t].op, phase)])
         case Commits => CommitTx(s, t))
    case Abort(t) => s.(active := s.active - {t})
    case PutMember(user, member) =>
      if MayPut(s, user, member) then s.(db := s.db.(members := s.db.members[user := member])) else s
  }

  predicate Committing(s: State, a: Action) {
    a.Run? && a.tx in s.active && s.active[a.tx].phase.Recorded?
  }

  /** Only a commit writes jobs, assignments, events or the counter. */
  lemma OnlyCommitsWrite(s: State, a: Action)
    ensures Committing(s, a) ==> Step(s, a) == CommitTx(s, a.tx)
    ensures !Committing(s, a) ==>
              Step(s, a).log == s.log && Step(s, a).db == s.db.(members := Step(s, a).db.members)
  {
    if a.Run? && a.tx in s.active {
      assert Advance(s, a.tx, s.active[a.tx]).Commits? <==> s.active[a.tx].phase.Recorded?;
    }
  }

  /** The state after an interleaving. */
  function After(start: State, actions: seq<Action>): State {
    if actions == [] then start
    else Step(After(start, actions[..|actions| - 1]), actions[|actions| - 1])
  }

  lemma {:induction false} AfterAppend(start: State, first: seq<Action>, more: seq<Action>)
    ensures After(start, first + more) == After(After(start, first), more)
  {
    if more == [] {
      assert first + more == first;
    } else {
      var n := |more| - 1;
      AfterAppend(start, first, more[..n]);
      assert (first + more)[..|first| + n] == first + more[..n];
    }
  }
}
