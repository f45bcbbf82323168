/** Webhook intake and classification, exactly once: one row per external message id, one job per
    row, one terminal event per job, at most three attempts. */
module Pipeline {
  import opened Wrappers
  import opened Calendar
  import opened Uuids
  import opened Requests
  import opened Caching
  import opened RequestStore
  import opened SerialRuns
  import opened Interleaving
  import opened InterleavingInvariants
  import opened Staleness

  // ---------------------------------------------------------------- who created what

  /** The row that an intake call has created. */
  function Created(c: Call): Option<Uuid> {
    match c
    case Enqueuing(_, _, u) => Some(u)
    case Enqueued(_, _, u) => Some(u)
    case Replied(_, _, reply) => if reply.created then Some(reply.requestId) else None
    case _ => None
  }

  ghost predicate CreatedOnce(w: World) {
    && (forall p :: p in w.calls && Created(w.calls[p]).Some? ==> Created(w.calls[p]).value in w.rows)
    && (forall p, q :: p in w.calls && q in w.calls && p != q && Created(w.calls[p]).Some? ==>
          Created(w.calls[p]) != Created(w.calls[q]))
  }

  // ---------------------------------------------------------------- jobs

  predicate HasJob(w: World, u: Uuid) {
    exists j :: 0 <= j < |w.jobs| && w.jobs[j].requestId == u
  }

  predicate OneJobEach(jobs: seq<Job>) {
    forall i, j :: 0 <= i < j < |jobs| ==> jobs[i].requestId != jobs[j].requestId
  }

  ghost predicate QueuedOnce(w: World) {
    && OneJobEach(w.jobs)
    && (forall j :: 0 <= j < |w.jobs| ==> w.jobs[j].requestId in w.rows)
    && (forall p :: p in w.calls && w.calls[p].Enqueuing? ==> !HasJob(w, w.calls[p].requestId))
  }

  // ---------------------------------------------------------------- events

  /** The event that tells how the job ended, if the job has got that far. */
  function EventOf(job: Job): Option<EventKind> {
    match job.phase
    case Recorded => Some(LlmClassified)
    case Dead => Some(ClassificationFailed)
    case _ => None
  }

  predicate OneEventEach(events: seq<Event>) {
    forall i, j :: 0 <= i < j < |events| ==> events[i].requestId != events[j].requestId
  }

  /** The events are exactly those of the jobs that have ended with one. */
  ghost predicate EventsMatch(w: World) {
    forall u, kind :: Event(u, kind) in w.events <==>
      exists j :: 0 <= j < |w.jobs| && w.jobs[j].requestId == u && EventOf(w.jobs[j]) == Some(kind)
  }

  // ---------------------------------------------------------------- the shape of the steps

  /** A step of call `p` changes that call; rows only get more; at most one job is added, by a call
      that was about to; a row newly claimed as created is new in the table. */
  ghost predicate CallStep(w: World, w': World, p: nat) {
    && p in w'.calls && w'.calls == w.calls[p := w'.calls[p]]
    && w.rows.Keys <= w'.rows.Keys
    && w'.events == w.events
    && (p in w.calls && w.calls[p].Enqueuing? ==>
          && w'.calls[p] == Enqueued(w.calls[p].tenantId, w.calls[p].message, w.calls[p].requestId)
          && w'.rows == w.rows
          && w'.received == w.received
          && |w'.jobs| == |w.jobs| + 1 && w'.jobs[..|w.jobs|] == w.jobs
          && w'.jobs[|w.jobs|].requestId == w.calls[p].requestId && w'.jobs[|w.jobs|].phase.Waiting?)
    && (!(p in w.calls && w.calls[p].Enqueuing?) ==>
          && w'.jobs == w.jobs
          && w'.received == w.received + (if w'.calls[p].Enqueuing? then {w'.calls[p].requestId} else {})
          && (w'.calls[p].Enqueuing? ==> w'.calls[p].requestId !in w.rows && w'.calls[p].requestId in w'.rows)
          && (Created(w'.calls[p]).Some? && !w'.calls[p].Enqueuing? ==>
                p in w.calls && Created(w.calls[p]) == Created(w'.calls[p])))
  }

  predicate LoadsRow(c: Call) {
    c.Looking? || c.Reading? || c.Filling? || c.Saving? || c.Removing? || c.Dropping?
  }

  lemma ProceedShape(w: World, p: nat, newId: Uuid)
    requires p in w.calls && !Over(w.calls[p])
    ensures CallStep(w, Proceed(w, p, newId), p)
  {
    if LoadsRow(w.calls[p]) {
      hide CallStep, Proceed;
      PlainStep(w, p, newId);
      PlainShape(w, Proceed(w, p, newId), p);
    } else {
      hide Clashes, HasExternalId, FromMessage;
    }
  }

  /** The calls that load a row create none. */
  lemma PlainStep(w: World, p: nat, newId: Uuid)
    requires p in w.calls && !Over(w.calls[p])
    requires LoadsRow(w.calls[p])
    ensures Plain(w, Proceed(w, p, newId), p)
  {
    hide Lookup, FindById, KeyFor, ThroughJson, Clashes, Edited, Stamped, SoftDeleted;
  }

  predicate Plain(w: World, w': World, p: nat) {
    && p in w.calls && p in w'.calls && w'.calls == w.calls[p := w'.calls[p]]
    && Created(w.calls[p]).None? && Created(w'.calls[p]).None?
    && w'.jobs == w.jobs && w'.events == w.events && w'.received == w.received
    && w.rows.Keys <= w'.rows.Keys
  }

  lemma PlainShape(w: World, w': World, p: nat)
    requires Plain(w, w', p)
    ensures CallStep(w, w', p)
  {
  }

  /** A step of job `j` changes that job; the ids of the rows stay; at most one event is added, when
      the job gets to its end. */
  ghost predicate JobStepped(w: World, w': World, j: nat) {
    && j < |w.jobs| == |w'.jobs|
    && w'.jobs == w.jobs[j := w'.jobs[j]] && w'.jobs[j].requestId == w.jobs[j].requestId
    && w'.calls == w.calls && w'.received == w.received && w'.rows.Keys >= w.rows.Keys
    && EventOf(w.jobs[j]).None?
    && match EventOf(w'.jobs[j])
       case None => w'.events == w.events
       case Some(kind) => w'.events == w.events + [Event(w.jobs[j].requestId, kind)]
  }

  lemma WorkShape(w: World, j: nat, answer: Option<Triple>)
    requires j < |w.jobs| && !Ended(w.jobs[j].phase)
    ensures JobStepped(w, WorkOn(w, j, answer), j)
  {
    hide FindForWork, Classify, Write;
    if w.jobs[j].phase.Loaded? || w.jobs[j].phase.Waiting? {
      hide JobStepped;
      TryShape(w, j, answer);
    }
  }

  lemma TryShape(w: World, j: nat, answer: Option<Triple>)
    requires j < |w.jobs| && (w.jobs[j].phase.Loaded? || w.jobs[j].phase.Waiting?)
    ensures JobStepped(w, WorkOn(w, j, answer), j)
  {
    hide Clashes, Classify, Classified, Stamped;
  }

  lemma BreakShape(w: World, j: nat)
    requires j < |w.jobs| && !Ended(w.jobs[j].phase)
    ensures JobStepped(w, Break(w, j), j)
    ensures Break(w, j).jobs[j].phase.DeadUnrecorded? || !Ended(Break(w, j).jobs[j].phase)
  {
  }

  // ---------------------------------------------------------------- what the steps keep

  ghost predicate Once(w: World) {
    CreatedOnce(w) && QueuedOnce(w) && EventsMatch(w) && OneEventEach(w.events)
  }

  lemma CallKeepsCreated(w: World, w': World, p: nat)
    requires CreatedOnce(w) && CallStep(w, w', p)
    ensures CreatedOnce(w')
  {
    hide QueuedOnce;
    var c' := w'.calls[p];
    forall q | q in w.calls && q != p
      ensures Created(c').Some? ==> Created(c') != Created(w.calls[q])
    {
    }
  }

  lemma AppendedJob(w: World, w': World, u: Uuid)
    requires |w'.jobs| == |w.jobs| + 1 && w'.jobs[..|w.jobs|] == w.jobs
    ensures HasJob(w', u) <==> HasJob(w, u) || w'.jobs[|w.jobs|].requestId == u
  {
    assert forall j :: 0 <= j < |w.jobs| ==> w'.jobs[j] == w.jobs[j];
  }

  lemma CallKeepsQueued(w: World, w': World, p: nat)
    requires CreatedOnce(w) && QueuedOnce(w) && CallStep(w, w', p)
    ensures QueuedOnce(w')
  {
    hide HasJob;
    if p in w.calls && w.calls[p].Enqueuing? {
      var u := w.calls[p].requestId;
      assert !HasJob(w, u) && Created(w.calls[p]) == Some(u);
      NoJob(w, u);
      assert forall j :: 0 <= j < |w.jobs| ==> w'.jobs[j] == w.jobs[j];
      forall q | q in w'.calls && w'.calls[q].Enqueuing?
        ensures !HasJob(w', w'.calls[q].requestId)
      {
        assert q != p && Created(w.calls[q]) == Some(w.calls[q].requestId);
        AppendedJob(w, w', w.calls[q].requestId);
      }
    } else {
      forall q | q in w'.calls && w'.calls[q].Enqueuing?
        ensures !HasJob(w', w'.calls[q].requestId)
      {
        SameJobs(w, w', w'.calls[q].requestId);
        if q == p && HasJob(w, w'.calls[p].requestId) { JobIsStored(w, w'.calls[p].requestId); }
      }
    }
  }

  lemma NoJob(w: World, u: Uuid)
    requires !HasJob(w, u)
    ensures forall j :: 0 <= j < |w.jobs| ==> w.jobs[j].requestId != u
  {
  }

  lemma SameJobs(w: World, w': World, u: Uuid)
    requires |w'.jobs| == |w.jobs|
    requires forall j :: 0 <= j < |w.jobs| ==> w'.jobs[j].requestId == w.jobs[j].requestId
    ensures HasJob(w', u) <==> HasJob(w, u)
  {
  }

  lemma JobIsStored(w: World, u: Uuid)
    requires QueuedOnce(w) && HasJob(w, u)
    ensures u in w.rows
  {
  }

  /** Some job of the row has ended with the event. */
  ghost predicate EndedWith(jobs: seq<Job>, u: Uuid, kind: EventKind) {
    exists j :: 0 <= j < |jobs| && jobs[j].requestId == u && EventOf(jobs[j]) == Some(kind)
  }

  lemma CallKeepsEvents(w: World, w': World, p: nat)
    requires EventsMatch(w) && CallStep(w, w', p)
    ensures EventsMatch(w')
  {
    if p in w.calls && w.calls[p].Enqueuing? {
      var n := |w.jobs|;
      assert EventOf(w'.jobs[n]) == None;
      assert forall j :: 0 <= j < n ==> w'.jobs[j] == w.jobs[j];
      forall u, kind
        ensures EndedWith(w'.jobs, u, kind) <==> EndedWith(w.jobs, u, kind)
      {
        if EndedWith(w.jobs, u, kind) {
          var j :| 0 <= j < |w.jobs| && w.jobs[j].requestId == u && EventOf(w.jobs[j]) == Some(kind);
          assert w'.jobs[j] == w.jobs[j];
        }
      }
      EventsEndings(w);
      assert forall u, kind :: Event(u, kind) in w'.events <==> EndedWith(w'.jobs, u, kind);
    }
  }

  lemma EventsEndings(w: World)
    ensures EventsMatch(w) <==> forall u, kind :: Event(u, kind) in w.events <==> EndedWith(w.jobs, u, kind)
  {
  }

  lemma JobKeepsEvents(w: World, w': World, j: nat)
    requires EventsMatch(w) && OneJobEach(w.jobs) && OneEventEach(w.events) && JobStepped(w, w', j)
    ensures EventsMatch(w') && OneEventEach(w'.events)
  {
    var u := w.jobs[j].requestId;
    forall kind ensures Event(u, kind) !in w.events {
    }
    forall v, kind
      ensures EndedWith(w'.jobs, v, kind) <==> EndedWith(w.jobs, v, kind) || (v == u && EventOf(w'.jobs[j]) == Some(kind))
    {
      if EndedWith(w.jobs, v, kind) {
        var i :| 0 <= i < |w.jobs| && w.jobs[i].requestId == v && EventOf(w.jobs[i]) == Some(kind);
        assert w'.jobs[i] == w.jobs[i];
      }
    }
    EventsEndings(w);
    EventsEndings(w');
  }

  lemma JobKeepsQueued(w: World, w': World, j: nat)
    requires QueuedOnce(w) && JobStepped(w, w', j)
    ensures QueuedOnce(w')
  {
    hide HasJob;
    forall q | q in w'.calls && w'.calls[q].Enqueuing?
      ensures !HasJob(w', w'.calls[q].requestId)
    {
      SameJobs(w, w', w.calls[q].requestId);
    }
  }

  lemma CallStepOnce(w: World, w': World, p: nat)
    requires Once(w) && CallStep(w, w', p)
    ensures Once(w')
  {
    hide CallStep, CreatedOnce, QueuedOnce, EventsMatch;
    CallKeepsCreated(w, w', p);
    CallKeepsQueued(w, w', p);
    CallKeepsEvents(w, w', p);
    SameEvents(w, w', p);
  }

  lemma SameEvents(w: World, w': World, p: nat)
    requires CallStep(w, w', p)
    ensures w'.events == w.events
  {
  }

  lemma JobStepOnce(w: World, w': World, j: nat)
    requires Once(w) && JobStepped(w, w', j)
    ensures Once(w')
  {
    hide EventsMatch, QueuedOnce, OneEventEach;
    QueuedFacts(w);
    JobKeepsEvents(w, w', j);
    JobKeepsQueued(w, w', j);
  }

  lemma QueuedFacts(w: World)
    requires QueuedOnce(w)
    ensures OneJobEach(w.jobs)
  {
  }

  /** Every step of any interleaving keeps it. */
  lemma StepOnce(w: World, step: Step)
    requires Once(w) && Enabled(w, step)
    ensures Once(Do(w, step))
  {
    hide Once, Proceed, WorkOn, Break, CallStep, JobStepped;
    match step
    case Start(p, c) =>
      StartShape(w, p, c);
      CallStepOnce(w, Goes(w, p, c), p);
    case Advance(p, newId) =>
      ProceedShape(w, p, newId);
      CallStepOnce(w, Proceed(w, p, newId), p);
    case Abort(p) => AbortOnce(w, p);
    case JobStep(j, answer) =>
      WorkShape(w, j, answer);
      JobStepOnce(w, WorkOn(w, j, answer), j);
    case JobBreaks(j) =>
      BreakShape(w, j);
      JobStepOnce(w, Break(w, j), j);
    case Tick(now) => TickOnce(w, now);
  }

  lemma StartShape(w: World, p: nat, c: Call)
    requires p !in w.calls && Initial(c)
    ensures CallStep(w, Goes(w, p, c), p)
  {
  }

  lemma AbortOnce(w: World, p: nat)
    requires Once(w) && p in w.calls
    ensures Once(Goes(w, p, Broken))
  {
    hide HasJob;
    var w' := Goes(w, p, Broken);
    forall q | q in w'.calls && w'.calls[q].Enqueuing?
      ensures !HasJob(w', w'.calls[q].requestId)
    {
      SameJobs(w, w', w.calls[q].requestId);
    }
  }

  lemma TickOnce(w: World, now: Micros)
    requires Once(w)
    ensures Once(w.(now := now))
  {
    hide HasJob;
    var w' := w.(now := now);
    forall q | q in w'.calls && w'.calls[q].Enqueuing?
      ensures !HasJob(w', w'.calls[q].requestId)
    {
      SameJobs(w, w', w.calls[q].requestId);
    }
  }

  lemma QuietOnce(now: Micros)
    ensures Once(Quiet(now)) && NothingLost(Quiet(now))
  {
  }

  lemma {:induction false} RunOnce(w: World, steps: seq<Step>)
    requires Once(w) && IsRun(w, steps)
    ensures Once(After(w, steps))
    decreases |steps|
  {
    hide Once, Do, Enabled;
    if steps != [] {
      StepOnce(w, steps[0]);
      RunOnce(Do(w, steps[0]), steps[1..]);
    }
  }

  // ---------------------------------------------------------------- the pipeline, exactly once

  /** How many terminal events a request has. */
  function CountFor(events: seq<Event>, u: Uuid): nat {
    if events == [] then 0
    else CountFor(events[..|events| - 1], u) + if events[|events| - 1].requestId == u then 1 else 0
  }

  lemma {:induction false} CountAbsent(events: seq<Event>, u: Uuid)
    ensures CountFor(events, u) == 0 <==> forall kind :: Event(u, kind) !in events
  {
    if events != [] {
      var n := |events| - 1;
      CountAbsent(events[..n], u);
      assert events == events[..n] + [events[n]];
      assert events[n] == Event(events[n].requestId, events[n].kind);
    }
  }

  lemma {:induction false} CountAtMostOne(events: seq<Event>, u: Uuid)
    requires OneEventEach(events)
    ensures CountFor(events, u) <= 1
  {
    if events != [] {
      var n := |events| - 1;
      CountAtMostOne(events[..n], u);
      if events[n].requestId == u {
        forall kind ensures Event(u, kind) !in events[..n] {
          assert forall i :: 0 <= i < n ==> events[..n][i].requestId != events[n].requestId;
        }
        CountAbsent(events[..n], u);
      }
    }
  }

  /** A job of the row has begun three attempts, and three have failed. */
  predicate FailedThrice(w: World, u: Uuid) {
    exists j :: 0 <= j < |w.jobs| && w.jobs[j].requestId == u && w.jobs[j].begun == 3 && w.jobs[j].attemptsMade == 3
  }

  /** At most once: over every interleaving of deliveries, creations, worker attempts, removals and
      faults, an external message id has at most one row, a row at most one job, a job at most one
      terminal event and at most three attempts; and no LLM_CLASSIFIED event is recorded of a row that
      was never classified, and no CLASSIFICATION_FAILED event before the third attempt has failed. */
  lemma AtMostOnce(start: Micros, steps: seq<Step>)
    requires IsRun(Quiet(start), steps)
    ensures var w := After(Quiet(start), steps);
            && UniqueExternalIds(w.rows)
            && OneJobEach(w.jobs)
            && (forall u :: CountFor(w.events, u) <= 1)
            && (forall u :: CountFor(w.events, u) == 1 ==> HasJob(w, u))
            && (forall j :: 0 <= j < |w.jobs| ==> w.jobs[j].begun <= 3)
            && (forall u :: Event(u, LlmClassified) in w.events ==> EverClassified(w.log, u))
            && (forall u :: Event(u, ClassificationFailed) in w.events ==> FailedThrice(w, u))
  {
    hide IsRun, After, CacheOk, CallsOk, LogOk, CountFor, UniqueExternalIds, CreatedOnce, EverClassified;
    QuietOk(start);
    RunOk(Quiet(start), steps);
    QuietOnce(start);
    RunOnce(Quiet(start), steps);
    var w := After(Quiet(start), steps);
    UniqueRows(w);
    forall u ensures CountFor(w.events, u) <= 1 {
      CountAtMostOne(w.events, u);
    }
    forall u | CountFor(w.events, u) == 1
      ensures HasJob(w, u)
    {
      CountAbsent(w.events, u);
    }
    forall j | 0 <= j < |w.jobs|
      ensures w.jobs[j].begun <= 3
    {
      AttemptsBounded(w, w.jobs[j]);
    }
    forall u | Event(u, LlmClassified) in w.events
      ensures EverClassified(w.log, u)
    {
      var j :| 0 <= j < |w.jobs| && w.jobs[j].requestId == u && EventOf(w.jobs[j]) == Some(LlmClassified);
      RecordedIsClassified(w, w.jobs[j]);
    }
    forall u | Event(u, ClassificationFailed) in w.events
      ensures FailedThrice(w, u)
    {
      var j :| 0 <= j < |w.jobs| && w.jobs[j].requestId == u && EventOf(w.jobs[j]) == Some(ClassificationFailed);
      DeadHasFailed(w, w.jobs[j]);
    }
  }

  lemma DeadHasFailed(w: World, job: Job)
    requires JobOk(w, job) && job.phase.Dead?
    ensures job.begun == 3 && job.attemptsMade == 3
  {
  }

  lemma UniqueRows(w: World)
    requires LogOk(w.rows, w.log, w.now)
    ensures UniqueExternalIds(w.rows)
  {
  }

  lemma RecordedIsClassified(w: World, job: Job)
    requires JobOk(w, job) && job.phase.Recorded?
    ensures EverClassified(w.log, job.requestId)
  {
  }

  lemma AttemptsBounded(w: World, job: Job)
    requires JobOk(w, job)
    ensures job.begun <= 3
  {
  }

  // ---------------------------------------------------------------- without faults

  ghost predicate AboutToQueue(w: World, u: Uuid) {
    exists p :: p in w.calls && w.calls[p].Enqueuing? && w.calls[p].requestId == u
  }

  /** Every row an intake call created is queued, or its call is just about to queue it; no event
      got lost. */
  ghost predicate NothingLost(w: World) {
    && (forall u :: u in w.received ==> HasJob(w, u) || AboutToQueue(w, u))
    && (forall j :: 0 <= j < |w.jobs| ==> !w.jobs[j].phase.DeadUnrecorded?)
  }

  lemma QueuingKept(w: World, w': World, p: nat, u: Uuid)
    requires CallStep(w, w', p)
    requires HasJob(w, u) || AboutToQueue(w, u)
    ensures HasJob(w', u) || AboutToQueue(w', u)
  {
    if HasJob(w, u) {
      var j :| 0 <= j < |w.jobs| && w.jobs[j].requestId == u;
      assert w'.jobs[..|w.jobs|][j] == w.jobs[j];
      assert w'.jobs[j].requestId == u;
    } else {
      var q :| q in w.calls && w.calls[q].Enqueuing? && w.calls[q].requestId == u;
      if q == p {
        assert w'.jobs[|w.jobs|].requestId == u;
      } else {
        assert w'.calls[q] == w.calls[q];
      }
    }
  }

  lemma CallLosesNothing(w: World, w': World, p: nat)
    requires NothingLost(w) && CallStep(w, w', p)
    ensures NothingLost(w')
  {
    hide HasJob;
    forall u | u in w'.received
      ensures HasJob(w', u) || AboutToQueue(w', u)
    {
      if u in w.received {
        assert HasJob(w, u) || AboutToQueue(w, u);
        QueuingKept(w, w', p, u);
      } else {
        assert w'.calls[p].Enqueuing? && w'.calls[p].requestId == u;
      }
    }
    forall j | 0 <= j < |w'.jobs|
      ensures !w'.jobs[j].phase.DeadUnrecorded?
    {
      assert j < |w.jobs| ==> w'.jobs[..|w.jobs|][j] == w.jobs[j];
    }
  }

  lemma JobLosesNothing(w: World, w': World, j: nat)
    requires NothingLost(w) && JobStepped(w, w', j) && !w'.jobs[j].phase.DeadUnrecorded?
    ensures NothingLost(w')
  {
    hide HasJob;
    forall u | u in w'.received
      ensures HasJob(w', u) || AboutToQueue(w', u)
    {
      SameJobs(w, w', u);
      assert AboutToQueue(w, u) ==> AboutToQueue(w', u);
    }
  }

  lemma WorkRecords(w: World, j: nat, answer: Option<Triple>)
    requires j < |w.jobs| && !Ended(w.jobs[j].phase)
    ensures |WorkOn(w, j, answer).jobs| == |w.jobs| && !WorkOn(w, j, answer).jobs[j].phase.DeadUnrecorded?
  {
    hide FindForWork, Clashes, Classify, Classified, Stamped, Write;
    if w.jobs[j].phase.Loaded? {
      WriteKeepsJobs(w, Stamped(w.rows, Classified(w.jobs[j].phase.row, w.jobs[j].phase.triple), w.now));
    }
  }

  lemma WriteKeepsJobs(w: World, row: RequestRow)
    ensures Write(w, row).jobs == w.jobs
  {
  }

  lemma StepLosesNothing(w: World, step: Step)
    requires NothingLost(w) && Enabled(w, step) && !step.Abort? && !step.JobBreaks?
    ensures NothingLost(Do(w, step))
  {
    hide Proceed, WorkOn, CallStep, JobStepped, NothingLost;
    match step
    case Start(p, c) =>
      StartShape(w, p, c);
      CallLosesNothing(w, Goes(w, p, c), p);
    case Advance(p, newId) =>
      ProceedShape(w, p, newId);
      CallLosesNothing(w, Proceed(w, p, newId), p);
    case JobStep(j, answer) =>
      WorkShape(w, j, answer);
      WorkRecords(w, j, answer);
      JobLosesNothing(w, WorkOn(w, j, answer), j);
    case Tick(now) => TickLosesNothing(w, now);
  }

  lemma TickLosesNothing(w: World, now: Micros)
    requires NothingLost(w)
    ensures NothingLost(w.(now := now))
  {
    hide HasJob;
    forall u | u in w.received
      ensures HasJob(w.(now := now), u) || AboutToQueue(w.(now := now), u)
    {
      SameJobs(w, w.(now := now), u);
      assert AboutToQueue(w, u) ==> AboutToQueue(w.(now := now), u);
    }
  }

  lemma {:induction false} RunLosesNothing(w: World, steps: seq<Step>)
    requires NothingLost(w) && IsRun(w, steps) && FaultFree(steps)
    ensures NothingLost(After(w, steps))
    decreases |steps|
  {
    hide NothingLost, Do, Enabled;
    if steps != [] {
      StepLosesNothing(w, steps[0]);
      assert forall i :: 0 <= i < |steps| - 1 ==> steps[1..][i] == steps[i + 1];
      RunLosesNothing(Do(w, steps[0]), steps[1..]);
    }
  }

  /** The row's job found it deleted when it looked, and did nothing. */
  ghost predicate SkippedAsGone(w: World, u: Uuid) {
    exists j :: && 0 <= j < |w.jobs| && w.jobs[j].requestId == u
                && w.jobs[j].phase.Skipped? && w.jobs[j].phase.seen <= |w.log|
                && GoneIn(w.log[..w.jobs[j].phase.seen], u)
  }

  /** Exactly once: when a run without faults has settled, every row that a delivery created has
      exactly one terminal event, unless the row had been removed by the time its job read it, and
      then it has none. */
  lemma ExactlyOnce(start: Micros, steps: seq<Step>, u: Uuid)
    requires IsRun(Quiet(start), steps) && FaultFree(steps)
    requires var w := After(Quiet(start), steps); Settled(w) && u in w.received
    ensures var w := After(Quiet(start), steps);
            CountFor(w.events, u) == if SkippedAsGone(w, u) then 0 else 1
  {
    hide IsRun, After, CacheOk, CallsOk, LogOk, CountFor, CreatedOnce, GoneIn, FaultFree;
    QuietOk(start);
    RunOk(Quiet(start), steps);
    QuietOnce(start);
    RunOnce(Quiet(start), steps);
    RunLosesNothing(Quiet(start), steps);
    var w := After(Quiet(start), steps);
    assert HasJob(w, u);
    var j :| 0 <= j < |w.jobs| && w.jobs[j].requestId == u;
    hide JobsOk;
    OnlyJob(w, u, j);
    assert JobOk(w, w.jobs[j]) by { JobOf(w, j); }
    if EventOf(w.jobs[j]).Some? {
      assert Event(u, EventOf(w.jobs[j]).value) in w.events;
      CountAbsent(w.events, u);
      CountAtMostOne(w.events, u);
    } else {
      EndedUnrecorded(w, j);
      CountAbsent(w.events, u);
    }
  }

  lemma OnlyJob(w: World, u: Uuid, j: nat)
    requires OneJobEach(w.jobs) && j < |w.jobs| && w.jobs[j].requestId == u
    ensures forall i :: 0 <= i < |w.jobs| && w.jobs[i].requestId == u ==> i == j
  {
  }

  lemma JobOf(w: World, j: nat)
    requires JobsOk(w) && j < |w.jobs|
    ensures JobOk(w, w.jobs[j])
  {
  }

  lemma EndedUnrecorded(w: World, j: nat)
    requires j < |w.jobs| && JobOk(w, w.jobs[j]) && Ended(w.jobs[j].phase)
    requires EventOf(w.jobs[j]).None? && !w.jobs[j].phase.DeadUnrecorded?
    ensures SkippedAsGone(w, w.jobs[j].requestId)
  {
    hide GoneIn;
  }

  // ---------------------------------------------------------------- the replies

  /** Idempotent replies: all replies to deliveries of one external message id go to one tenant and name
      one request, and at most one of them says it was created.  (Another tenant that uses the same id
      never gets a reply: the id is unique over all tenants, the lookup is within one.) */
  lemma IdempotentReplies(start: Micros, steps: seq<Step>, p: nat, q: nat)
    requires IsRun(Quiet(start), steps)
    requires var w := After(Quiet(start), steps);
             && p in w.calls && w.calls[p].Replied? && q in w.calls && w.calls[q].Replied?
             && w.calls[p].message.externalMessageId == w.calls[q].message.externalMessageId
    ensures var w := After(Quiet(start), steps);
            && w.calls[p].tenantId == w.calls[q].tenantId
            && w.calls[p].reply.requestId == w.calls[q].reply.requestId
            && w.calls[p].reply.requestId in w.rows
            && (p != q ==> !(w.calls[p].reply.created && w.calls[q].reply.created))
  {
    hide IsRun, After, CacheOk, JobsOk, EventsMatch, QueuedOnce, SameRow;
    QuietOk(start);
    RunOk(Quiet(start), steps);
    QuietOnce(start);
    RunOnce(Quiet(start), steps);
    var w := After(Quiet(start), steps);
    assert CallOk(w, w.calls[p]) && CallOk(w, w.calls[q]);
  }

  lemma {:induction false} OverStays(w: World, steps: seq<Step>, p: nat)
    requires IsRun(w, steps) && p in w.calls && Over(w.calls[p])
    ensures p in After(w, steps).calls && After(w, steps).calls[p] == w.calls[p]
    decreases |steps|
  {
    hide Proceed, WorkOn, Break;
    if steps != [] {
      StepKeepsOver(w, steps[0], p);
      OverStays(Do(w, steps[0]), steps[1..], p);
    }
  }

  lemma StepKeepsOver(w: World, step: Step, p: nat)
    requires Enabled(w, step) && p in w.calls && Over(w.calls[p])
    ensures p in Do(w, step).calls && Do(w, step).calls[p] == w.calls[p]
  {
    hide Proceed, WorkOn, Break;
    match step
    case Advance(q, newId) => ProceedShape(w, q, newId);
    case JobStep(j, answer) => WorkShape(w, j, answer);
    case JobBreaks(j) => BreakShape(w, j);
    case _ =>
  }

  predicate About(c: Call, t: Uuid, externalId: string) {
    match c
    case Inserting(t', m) => t' == t && m.externalMessageId == externalId
    case Enqueuing(t', m, _) => t' == t && m.externalMessageId == externalId
    case Enqueued(t', m, _) => t' == t && m.externalMessageId == externalId
    case Replied(t', m, _) => t' == t && m.externalMessageId == externalId
    case _ => false
  }

  /** The row is there, and call `q`, if it is about the same message, has been told so. */
  ghost predicate ToldSo(w: World, t: Uuid, externalId: string, u: Uuid, q: nat) {
    && HasExternalId(w.rows, t, externalId, u)
    && (q in w.calls && About(w.calls[q], t, externalId) ==>
          w.calls[q].Replied? && w.calls[q].reply == InboundReply(u, false))
  }

  lemma RowsKeepOwner(w: World, w': World, t: Uuid, externalId: string, u: Uuid)
    requires Evolves(w, w') && HasExternalId(w.rows, t, externalId, u)
    ensures HasExternalId(w'.rows, t, externalId, u)
  {
    assert SameRow(w'.rows, w.rows[u]);
  }

  lemma AdvanceTold(w: World, t: Uuid, externalId: string, u: Uuid, q: nat, newId: Uuid)
    requires UniqueExternalIds(w.rows) && ToldSo(w, t, externalId, u, q)
    requires q in w.calls && !Over(w.calls[q])
    ensures q in Proceed(w, q, newId).calls
    ensures var c := Proceed(w, q, newId).calls[q];
            About(c, t, externalId) ==> c.Replied? && c.reply == InboundReply(u, false)
  {
    if LoadsRow(w.calls[q]) {
      PlainStep(w, q, newId);
      NotAbout(w, q, newId, t, externalId);
    } else {
      hide Clashes, FromMessage, Write;
    }
  }

  lemma NotAbout(w: World, q: nat, newId: Uuid, t: Uuid, externalId: string)
    requires q in w.calls && LoadsRow(w.calls[q])
    ensures q in Proceed(w, q, newId).calls && !About(Proceed(w, q, newId).calls[q], t, externalId)
  {
    hide Lookup, FindById, KeyFor, ThroughJson, Clashes, Edited, Stamped, SoftDeleted, Write;
  }

  lemma StepTold(w: World, step: Step, t: Uuid, externalId: string, u: Uuid, q: nat)
    requires Good(w) && Enabled(w, step) && ToldSo(w, t, externalId, u, q)
    ensures ToldSo(Do(w, step), t, externalId, u, q)
  {
    hide Proceed, WorkOn, Break, CacheOk, CallsOk, JobsOk, CallStep, JobStepped, Evolves, HasExternalId;
    UniqueRows(w);
    StepEvolves(w, step);
    RowsKeepOwner(w, Do(w, step), t, externalId, u);
    match step
    case Advance(p, newId) =>
      OnlyCall(w, p, newId);
      if p == q { AdvanceTold(w, t, externalId, u, q, newId); }
    case JobStep(j, answer) => SameCalls(w, j, answer);
    case JobBreaks(j) => SameCallsBroken(w, j);
    case _ =>
  }

  lemma OnlyCall(w: World, p: nat, newId: Uuid)
    requires p in w.calls && !Over(w.calls[p])
    ensures p in Proceed(w, p, newId).calls && Proceed(w, p, newId).calls == w.calls[p := Proceed(w, p, newId).calls[p]]
  {
    hide Proceed;
    ProceedShape(w, p, newId);
  }

  lemma SameCalls(w: World, j: nat, answer: Option<Triple>)
    requires j < |w.jobs|
    ensures WorkOn(w, j, answer).calls == w.calls
  {
    hide FindForWork, Clashes, Classify, Classified, Stamped;
  }

  lemma SameCallsBroken(w: World, j: nat)
    requires j < |w.jobs|
    ensures Break(w, j).calls == w.calls
  {
  }

  lemma {:induction false} RunTold(w: World, steps: seq<Step>, t: Uuid, externalId: string, u: Uuid, q: nat)
    requires Good(w) && IsRun(w, steps) && ToldSo(w, t, externalId, u, q)
    ensures ToldSo(After(w, steps), t, externalId, u, q)
    decreases |steps|
  {
    hide Good, ToldSo, Do, Enabled;
    if steps != [] {
      StepOk(w, steps[0]);
      StepTold(w, steps[0], t, externalId, u, q);
      RunTold(Do(w, steps[0]), steps[1..], t, externalId, u, q);
    }
  }

  /** ... and once a delivery has been answered, a delivery of the same message that starts later is
      told the same request, and that it was not created, whatever happens to the request: soft
      deletion included. */
  lemma LaterReplies(start: Micros, steps: seq<Step>, later: seq<Step>, p: nat, q: nat)
    requires IsRun(Quiet(start), steps) && IsRun(After(Quiet(start), steps), later)
    requires var w := After(Quiet(start), steps); p in w.calls && w.calls[p].Replied? && q !in w.calls
    requires var w, w' := After(Quiet(start), steps), After(After(Quiet(start), steps), later);
             && q in w'.calls && w'.calls[q].Replied?
             && w'.calls[q].tenantId == w.calls[p].tenantId
             && w'.calls[q].message.externalMessageId == w.calls[p].message.externalMessageId
    ensures var w, w' := After(Quiet(start), steps), After(After(Quiet(start), steps), later);
            w'.calls[q].reply == InboundReply(w.calls[p].reply.requestId, false)
  {
    hide IsRun, After, CacheOk, JobsOk, LogOk;
    QuietOk(start);
    RunOk(Quiet(start), steps);
    var w := After(Quiet(start), steps);
    assert CallOk(w, w.calls[p]);
    hide Good, HasExternalId;
    RunTold(w, later, w.calls[p].tenantId, w.calls[p].message.externalMessageId, w.calls[p].reply.requestId, q);
  }
}
