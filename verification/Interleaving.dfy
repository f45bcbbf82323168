/** The services and the worker step by step: every `await` lets the others run.  A world holds the
    table with the log of everything ever written to it, the cache, the service calls in progress,
    the classification queue and the event list. */
module Interleaving {
  import opened Wrappers
  import opened Calendar
  import opened Uuids
  import opened Requests
  import opened RequestEntities
  import opened Caching
  import opened RequestStore

  /** One write to the table: the row as written, and when. */
  datatype Version = Version(row: RequestRow, at: Micros)

  /** What a call wants the row for that it loads through `findOne`. */
  datatype Purpose = Get | Edit(dto: UpdateDto) | Move(target: Status) | Delete

  /** A service call, by what it does next.  From `Replied` on it is over: answered, refused with an
      error of its own, or broken off by a fault. */
  datatype Call =
    | Looking(tenantId: Uuid, id: string, purpose: Purpose)
    | Reading(tenantId: Uuid, id: string, purpose: Purpose)
    | Filling(tenantId: Uuid, id: string, purpose: Purpose, row: RequestRow, readAt: Micros)
    | Saving(tenantId: Uuid, id: string, row: RequestRow)
    | Removing(tenantId: Uuid, id: string, row: RequestRow)
    | Dropping(tenantId: Uuid, id: string, row: RequestRow)
    | Creating(tenantId: Uuid, data: NewRequest)
    | Finding(tenantId: Uuid, message: Message)
    | Inserting(tenantId: Uuid, message: Message)
    | Enqueuing(tenantId: Uuid, message: Message, requestId: Uuid)
    | Enqueued(tenantId: Uuid, message: Message, requestId: Uuid)
    | Replied(tenantId: Uuid, message: Message, reply: InboundReply)
    | Returned(row: RequestRow)
    | Failed(error: ServiceError)
    | Broken

  predicate Over(c: Call) {
    c.Replied? || c.Returned? || c.Failed? || c.Broken?
  }

  /** How far the current attempt of a job has come, or how the job ended; a skipped job knows how many
      versions the log had when it looked for its row. */
  datatype Phase =
    | Waiting
    | Answered(triple: Triple)
    | Loaded(triple: Triple, row: RequestRow)
    | RowSaved(triple: Triple)
    | Recorded
    | Skipped(seen: nat)
    | OutOfAttempts
    | Dead
    | DeadUnrecorded

  /** `begun` counts the attempts started, `attemptsMade` those that failed. */
  datatype Job = Job(requestId: Uuid, tenantId: Uuid, text: string, begun: nat, attemptsMade: nat, phase: Phase)

  const ATTEMPTS: nat := 3

  predicate Ended(phase: Phase) {
    phase.Recorded? || phase.Skipped? || phase.Dead? || phase.DeadUnrecorded?
  }

  datatype EventKind = LlmClassified | ClassificationFailed

  datatype Event = Event(requestId: Uuid, kind: EventKind)

  datatype World = World(
    rows: Table,
    log: seq<Version>,
    received: set<Uuid>,
    cache: Cache,
    now: Micros,
    calls: map<nat, Call>,
    jobs: seq<Job>,
    events: seq<Event>)

  function Quiet(now: Micros): World {
    World(map[], [], {}, map[], now, map[], [], [])
  }

  // ---------------------------------------------------------------- service calls

  function Write(w: World, row: RequestRow): World {
    w.(rows := w.rows[row.id := row], log := w.log + [Version(row, w.now)])
  }

  function Goes(w: World, p: nat, c: Call): World {
    w.(calls := w.calls[p := c])
  }

  /** What a call does with the row it has loaded, up to the next await. */
  function WithRow(t: Uuid, id: string, purpose: Purpose, row: RequestRow, hit: bool): Call {
    match purpose
    case Get => Returned(row)
    case Edit(dto) => Saving(t, id, Edited(row, dto))
    case Move(target) =>
      if !hit && LegalEdge(row.status, target) then Saving(t, id, row.(status := target)) else Failed(BadTransition)
    case Delete => Removing(t, id, row)
  }

  /** The next step of call `p`; `newId` is the id the database picks if the step inserts a row. */
  ghost function Proceed(w: World, p: nat, newId: Uuid): World
    requires p in w.calls
  {
    match w.calls[p]
    case Looking(t, id, purpose) => (
      match Lookup(w.cache, KeyFor(t, id), w.now)
      case Some(row) => Goes(w, p, WithRow(t, id, purpose, row, true))
      case None => Goes(w, p, Reading(t, id, purpose)))
    case Reading(t, id, purpose) => (
      match FindById(w.rows, t, id)
      case Some(row) => Goes(w, p, Filling(t, id, purpose, row, w.now))
      case None => Goes(w, p, Failed(NotFound)))
    case Filling(t, id, purpose, row, readAt) =>
      Goes(w.(cache := w.cache[KeyFor(t, id) := Entry(ThroughJson(row), readAt, w.now)]), p,
           WithRow(t, id, purpose, row, false))
    case Saving(t, id, row) =>
      if Clashes(w.rows, row) then Goes(w, p, Failed(UniqueViolation))
      else Goes(Write(w, Stamped(w.rows, row, w.now)), p, Dropping(t, id, Stamped(w.rows, row, w.now)))
    case Removing(t, id, row) =>
      if row.id in w.rows then
        Goes(Write(w, SoftDeleted(w.rows[row.id], w.now)), p, Dropping(t, id, SoftDeleted(w.rows[row.id], w.now)))
      else Goes(w, p, Dropping(t, id, row))
    case Dropping(t, id, row) => Goes(w.(cache := w.cache - {KeyFor(t, id)}), p, Returned(row))
    case Creating(t, data) =>
      var row := NewRow(newId, t, data, w.now);
      if Insert(w.rows, row).Err? then Goes(w, p, Failed(UniqueViolation)) else Goes(Write(w, row), p, Returned(row))
    case Finding(t, m) => (
      match FindByExternalId(w.rows, t, m.externalMessageId)
      case Some(id) => Goes(w, p, Replied(t, m, InboundReply(id, false)))
      case None => Goes(w, p, Inserting(t, m)))
    case Inserting(t, m) =>
      var row := NewRow(newId, t, FromMessage(m), w.now);
      if Insert(w.rows, row).Err? then Goes(w, p, Failed(UniqueViolation))
      else Goes(Write(w, row).(received := w.received + {newId}), p, Enqueuing(t, m, newId))
    case Enqueuing(t, m, id) => Goes(w.(jobs := w.jobs + [Job(id, t, m.text, 0, 0, Waiting)]), p, Enqueued(t, m, id))
    case Enqueued(t, m, id) => Goes(w, p, Replied(t, m, InboundReply(id, true)))
    case _ => w
  }

  predicate Initial(c: Call) {
    c.Looking? || c.Creating? || c.Finding?
  }

  // ---------------------------------------------------------------- the worker

  function JobGoes(w: World, j: nat, phase: Phase): World
    requires j < |w.jobs|
  {
    w.(jobs := w.jobs[j := w.jobs[j].(phase := phase)])
  }

  /** A failed attempt: the queue retries until the attempts are used up. */
  function FailAttempt(w: World, j: nat): World
    requires j < |w.jobs|
  {
    var job := w.jobs[j];
    var made := job.attemptsMade + 1;
    w.(jobs := w.jobs[j := job.(attemptsMade := made, phase := if made >= ATTEMPTS then OutOfAttempts else Waiting)])
  }

  function Record(w: World, j: nat, kind: EventKind, phase: Phase): World
    requires j < |w.jobs|
  {
    JobGoes(w, j, phase).(events := w.events + [Event(w.jobs[j].requestId, kind)])
  }

  /** The next step of job `j`: `process`, one await at a time, or `onFailed` after the last attempt.
      `answer` is what the classifier says if the step asks it. */
  function WorkOn(w: World, j: nat, answer: Option<Triple>): World
    requires j < |w.jobs|
  {
    var job := w.jobs[j];
    match job.phase
    case Waiting =>
      var started := w.(jobs := w.jobs[j := job.(begun := job.begun + 1)]);
      var t := Classify(answer);
      if t.category == UNCLASSIFIED then FailAttempt(started, j) else JobGoes(started, j, Answered(t))
    case Answered(t) => (
      match FindForWork(w.rows, job.tenantId, job.requestId)
      case Some(row) => JobGoes(w, j, Loaded(t, row))
      case None => JobGoes(w, j, Phase.Skipped(|w.log|)))
    case Loaded(t, row) =>
      var row' := Classified(row, t);
      if Clashes(w.rows, row') then FailAttempt(w, j)
      else JobGoes(Write(w, Stamped(w.rows, row', w.now)), j, RowSaved(t))
    case RowSaved(_) => Record(w, j, LlmClassified, Phase.Recorded)
    case OutOfAttempts => Record(w, j, ClassificationFailed, Dead)
    case _ => w
  }

  /** A database or queue error at the await the job is in.  (A waiting job is in none, and the call of
      the classifier catches every error.) */
  function Break(w: World, j: nat): World
    requires j < |w.jobs|
  {
    match w.jobs[j].phase
    case Answered(_) => FailAttempt(w, j)
    case Loaded(_, _) => FailAttempt(w, j)
    case RowSaved(_) => FailAttempt(w, j)
    case OutOfAttempts => JobGoes(w, j, DeadUnrecorded)
    case _ => w
  }

  // ---------------------------------------------------------------- runs

  datatype Step =
    | Start(call: nat, initial: Call)
    | Advance(call: nat, newId: Uuid)
    | Abort(call: nat)
    | JobStep(job: nat, answer: Option<Triple>)
    | JobBreaks(job: nat)
    | Tick(now: Micros)

  predicate Enabled(w: World, step: Step) {
    match step
    case Start(p, c) => p !in w.calls && Initial(c)
    case Advance(p, _) => p in w.calls && !Over(w.calls[p])
    case Abort(p) => p in w.calls && !Over(w.calls[p])
    case JobStep(j, _) => j < |w.jobs| && !Ended(w.jobs[j].phase)
    case JobBreaks(j) => j < |w.jobs| && !Ended(w.jobs[j].phase) && !w.jobs[j].phase.Waiting?
    case Tick(now) => w.now <= now
  }

  ghost function Do(w: World, step: Step): World
    requires Enabled(w, step)
  {
    match step
    case Start(p, c) => Goes(w, p, c)
    case Advance(p, newId) => Proceed(w, p, newId)
    case Abort(p) => Goes(w, p, Broken)
    case JobStep(j, answer) => WorkOn(w, j, answer)
    case JobBreaks(j) => Break(w, j)
    case Tick(now) => w.(now := now)
  }

  ghost predicate IsRun(w: World, steps: seq<Step>)
    decreases |steps|
  {
    steps != [] ==> Enabled(w, steps[0]) && IsRun(Do(w, steps[0]), steps[1..])
  }

  ghost function After(w: World, steps: seq<Step>): World
    requires IsRun(w, steps)
    decreases |steps|
  {
    if steps == [] then w else After(Do(w, steps[0]), steps[1..])
  }

  predicate FaultFree(steps: seq<Step>) {
    forall i :: 0 <= i < |steps| ==> !steps[i].Abort? && !steps[i].JobBreaks?
  }

  /** Nothing is left to do. */
  predicate Settled(w: World) {
    && (forall p :: p in w.calls ==> Over(w.calls[p]))
    && (forall j :: 0 <= j < |w.jobs| ==> Ended(w.jobs[j].phase))
  }
}
