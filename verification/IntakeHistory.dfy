/** What the rows of the webhook intake were when they were created, over every interleaving: who sent the
    message in the title, its text in the body, and the same text in the queued job. */
module IntakeHistory {
  import opened Wrappers
  import opened Calendar
  import opened Uuids
  import opened Requests
  import opened Caching
  import opened RequestStore
  import opened Interleaving
  import opened InterleavingInvariants
  import opened Staleness
  import opened Pipeline
  import opened StoreLaws

  /** Version `k` is the first of the row. */
  ghost predicate FirstVersion(log: seq<Version>, k: nat, u: Uuid) {
    k < |log| && log[k].row.id == u && forall i :: 0 <= i < k ==> log[i].row.id != u
  }

  /** The row was first written as a fresh row of the tenant that tells the message. */
  ghost predicate BornOf(log: seq<Version>, u: Uuid, t: Uuid, m: Message) {
    exists k: nat :: BornAt(log, k, u, t, m)
  }

  ghost predicate BornAt(log: seq<Version>, k: nat, u: Uuid, t: Uuid, m: Message) {
    FirstVersion(log, k, u) && FreshRow(log[k].row, u, t, log[k].at) && FromSender(log[k].row, m)
  }

  predicate IsIntake(c: Call) {
    c.Finding? || c.Inserting? || c.Enqueuing? || c.Enqueued? || c.Replied?
  }

  ghost predicate CallRemembers(log: seq<Version>, sent: iset<(Uuid, Message)>, c: Call) {
    && (IsIntake(c) ==> (c.tenantId, c.message) in sent)
    && (Created(c).Some? ==> BornOf(log, Created(c).value, c.tenantId, c.message))
  }

  ghost predicate JobRemembers(log: seq<Version>, sent: iset<(Uuid, Message)>, job: Job) {
    exists m :: (job.tenantId, m) in sent && BornOf(log, job.requestId, job.tenantId, m) && job.text == m.text
  }

  ghost predicate RowRemembers(log: seq<Version>, sent: iset<(Uuid, Message)>, u: Uuid) {
    exists t, m :: (t, m) in sent && BornOf(log, u, t, m)
  }

  ghost predicate Remembers(w: World, sent: iset<(Uuid, Message)>) {
    && (forall u :: u in w.received ==> RowRemembers(w.log, sent, u))
    && (forall p :: p in w.calls ==> CallRemembers(w.log, sent, w.calls[p]))
    && (forall j :: 0 <= j < |w.jobs| ==> JobRemembers(w.log, sent, w.jobs[j]))
  }

  // ---------------------------------------------------------------- the log grows

  lemma BornKept(log: seq<Version>, log': seq<Version>, u: Uuid, t: Uuid, m: Message)
    requires log <= log' && BornOf(log, u, t, m)
    ensures BornOf(log', u, t, m)
  {
    hide FreshRow, FromSender;
    var k: nat :| BornAt(log, k, u, t, m);
    assert forall i :: 0 <= i < |log| ==> log'[i] == log[i];
    assert BornAt(log', k, u, t, m);
  }

  lemma CallKeptMemory(log: seq<Version>, log': seq<Version>, sent: iset<(Uuid, Message)>, c: Call)
    requires log <= log' && CallRemembers(log, sent, c)
    ensures CallRemembers(log', sent, c)
  {
    hide BornOf;
    if Created(c).Some? {
      BornKept(log, log', Created(c).value, c.tenantId, c.message);
    }
  }

  lemma JobKeptMemory(log: seq<Version>, log': seq<Version>, sent: iset<(Uuid, Message)>, job: Job)
    requires log <= log' && JobRemembers(log, sent, job)
    ensures JobRemembers(log', sent, job)
  {
    hide BornOf;
    var m :| (job.tenantId, m) in sent && BornOf(log, job.requestId, job.tenantId, m) && job.text == m.text;
    BornKept(log, log', job.requestId, job.tenantId, m);
  }

  lemma RowKeptMemory(log: seq<Version>, log': seq<Version>, sent: iset<(Uuid, Message)>, u: Uuid)
    requires log <= log' && RowRemembers(log, sent, u)
    ensures RowRemembers(log', sent, u)
  {
    hide BornOf;
    var t, m :| (t, m) in sent && BornOf(log, u, t, m);
    BornKept(log, log', u, t, m);
  }

  /** Of the rows, calls and jobs, only those named here may be new. */
  lemma MemoryKept(w: World, w': World, sent: iset<(Uuid, Message)>, p: nat, job: Option<Job>, u: Option<Uuid>)
    requires Remembers(w, sent) && w.log <= w'.log
    requires p in w'.calls && w'.calls == w.calls[p := w'.calls[p]] && CallRemembers(w'.log, sent, w'.calls[p])
    requires w'.jobs == w.jobs + (if job.Some? then [job.value] else [])
    requires job.Some? ==> JobRemembers(w'.log, sent, job.value)
    requires w'.received == w.received + (if u.Some? then {u.value} else {})
    requires u.Some? ==> RowRemembers(w'.log, sent, u.value)
    ensures Remembers(w', sent)
  {
    hide CallRemembers, JobRemembers, RowRemembers;
    forall v | v in w'.received
      ensures RowRemembers(w'.log, sent, v)
    {
      if v in w.received { RowKeptMemory(w.log, w'.log, sent, v); }
    }
    forall q | q in w'.calls
      ensures CallRemembers(w'.log, sent, w'.calls[q])
    {
      if q != p { CallKeptMemory(w.log, w'.log, sent, w.calls[q]); }
    }
    forall j | 0 <= j < |w'.jobs|
      ensures JobRemembers(w'.log, sent, w'.jobs[j])
    {
      if j < |w.jobs| { JobKeptMemory(w.log, w'.log, sent, w.jobs[j]); }
    }
  }

  // ---------------------------------------------------------------- the steps

  lemma Newborn(w: World, t: Uuid, m: Message, u: Uuid)
    requires Good(w) && u !in w.rows
    ensures BornOf(Write(w, NewRow(u, t, FromMessage(m), w.now)).log, u, t, m)
  {
    hide CacheOk, CallsOk, JobsOk;
    var log := w.log + [Version(NewRow(u, t, FromMessage(m), w.now), w.now)];
    forall i | 0 <= i < |w.log|
      ensures log[i].row.id != u
    {
      assert SameRow(w.rows, w.log[i].row);
    }
    assert BornAt(log, |w.log|, u, t, m);
  }

  lemma InsertRemembers(w: World, sent: iset<(Uuid, Message)>, p: nat, newId: Uuid)
    requires Good(w) && Remembers(w, sent) && p in w.calls && w.calls[p].Inserting?
    ensures Remembers(Proceed(w, p, newId), sent)
  {
    hide Good, Remembers, BornOf, Clashes, FromMessage, NewRow;
    var t, m := w.calls[p].tenantId, w.calls[p].message;
    var w' := Proceed(w, p, newId);
    CallMemory(w, sent, p);
    if newId in w.rows || Clashes(w.rows, NewRow(newId, t, FromMessage(m), w.now)) {
      NewId(newId, t, m, w.now);
      MemoryKept(w, w', sent, p, None, None);
    } else {
      NewId(newId, t, m, w.now);
      Newborn(w, t, m, newId);
      MemoryKept(w, w', sent, p, None, Some(newId));
    }
  }

  lemma NewId(u: Uuid, t: Uuid, m: Message, now: Micros)
    ensures NewRow(u, t, FromMessage(m), now).id == u
  {
  }

  lemma CallMemory(w: World, sent: iset<(Uuid, Message)>, p: nat)
    requires Remembers(w, sent) && p in w.calls
    ensures CallRemembers(w.log, sent, w.calls[p])
  {
  }

  lemma EnqueueRemembers(w: World, sent: iset<(Uuid, Message)>, p: nat, newId: Uuid)
    requires Remembers(w, sent) && p in w.calls && w.calls[p].Enqueuing?
    ensures Remembers(Proceed(w, p, newId), sent)
  {
    hide Remembers, BornOf;
    CallMemory(w, sent, p);
    var c := w.calls[p];
    MemoryKept(w, Proceed(w, p, newId), sent, p, Some(Job(c.requestId, c.tenantId, c.message.text, 0, 0, Waiting)), None);
  }

  lemma IntakeRemembers(w: World, sent: iset<(Uuid, Message)>, p: nat, newId: Uuid)
    requires Good(w) && Remembers(w, sent) && p in w.calls && IsIntake(w.calls[p])
    ensures Remembers(Proceed(w, p, newId), sent)
  {
    hide Good, Remembers, Proceed;
    match w.calls[p]
    case Finding(_, _) => FindRemembers(w, sent, p, newId);
    case Inserting(_, _) => InsertRemembers(w, sent, p, newId);
    case Enqueuing(_, _, _) => EnqueueRemembers(w, sent, p, newId);
    case Enqueued(_, _, _) => ReplyRemembers(w, sent, p, newId);
    case Replied(_, _, _) => ReplyRemembers(w, sent, p, newId);
  }

  lemma FindRemembers(w: World, sent: iset<(Uuid, Message)>, p: nat, newId: Uuid)
    requires Remembers(w, sent) && p in w.calls && w.calls[p].Finding?
    ensures Remembers(Proceed(w, p, newId), sent)
  {
    hide Remembers, BornOf, HasExternalId;
    CallMemory(w, sent, p);
    MemoryKept(w, Proceed(w, p, newId), sent, p, None, None);
  }

  lemma ReplyRemembers(w: World, sent: iset<(Uuid, Message)>, p: nat, newId: Uuid)
    requires Remembers(w, sent) && p in w.calls && (w.calls[p].Enqueued? || w.calls[p].Replied?)
    ensures Remembers(Proceed(w, p, newId), sent)
  {
    hide Remembers, BornOf;
    if w.calls[p].Enqueued? {
      CallMemory(w, sent, p);
      MemoryKept(w, Proceed(w, p, newId), sent, p, None, None);
    }
  }

  /** The other calls create nothing that is remembered. */
  lemma OtherCall(w: World, p: nat, newId: Uuid)
    requires p in w.calls && !IsIntake(w.calls[p]) && !Over(w.calls[p])
    ensures var w' := Proceed(w, p, newId);
            && p in w'.calls && !IsIntake(w'.calls[p]) && w'.calls == w.calls[p := w'.calls[p]]
            && w'.jobs == w.jobs && w'.received == w.received
  {
    hide Lookup, FindById, KeyFor, ThroughJson, Clashes, Edited, Stamped, SoftDeleted, NewRow, WithRow;
    match w.calls[p]
    case Looking(t, id, purpose) =>
      if Lookup(w.cache, KeyFor(t, id), w.now).Some? {
        NoIntake(t, id, purpose, Lookup(w.cache, KeyFor(t, id), w.now).value, true);
      }
    case Filling(t, id, purpose, row, _) => NoIntake(t, id, purpose, row, false);
    case _ =>
  }

  lemma NoIntake(t: Uuid, id: string, purpose: Purpose, row: RequestRow, hit: bool)
    ensures !IsIntake(WithRow(t, id, purpose, row, hit))
  {
  }

  lemma ProceedRemembers(w: World, sent: iset<(Uuid, Message)>, p: nat, newId: Uuid)
    requires Good(w) && Remembers(w, sent) && p in w.calls && !Over(w.calls[p])
    ensures Remembers(Proceed(w, p, newId), sent)
  {
    hide Good, Remembers, Proceed, BornOf;
    if IsIntake(w.calls[p]) {
      IntakeRemembers(w, sent, p, newId);
    } else {
      OtherCall(w, p, newId);
      ProceedEvolves(w, p, newId);
      MemoryKept(w, Proceed(w, p, newId), sent, p, None, None);
    }
  }

  /** A step of a job does not change what the job is about. */
  predicate SameTask(job': Job, job: Job) {
    job'.requestId == job.requestId && job'.tenantId == job.tenantId && job'.text == job.text
  }

  ghost predicate JobOnly(w: World, w': World, j: nat) {
    && j < |w.jobs| && |w'.jobs| == |w.jobs| && w'.jobs == w.jobs[j := w'.jobs[j]] && SameTask(w'.jobs[j], w.jobs[j])
    && w'.calls == w.calls && w'.received == w.received
  }

  lemma WorkIsJobOnly(w: World, j: nat, answer: Option<Triple>)
    requires j < |w.jobs|
    ensures JobOnly(w, WorkOn(w, j, answer), j)
  {
    hide FindForWork, Clashes, Classify, Classified, Stamped, JobOnly;
    var job := w.jobs[j];
    match job.phase
    case Waiting => AskIsJobOnly(w, j, answer);
    case Answered(_) => AnsweredIsJobOnly(w, j, answer);
    case Loaded(t, row) => LoadedIsJobOnly(w, j, answer);
    case _ => LateIsJobOnly(w, j, answer);
  }

  lemma AskIsJobOnly(w: World, j: nat, answer: Option<Triple>)
    requires j < |w.jobs| && w.jobs[j].phase.Waiting?
    ensures JobOnly(w, WorkOn(w, j, answer), j)
  {
    hide Classify;
  }

  lemma AnsweredIsJobOnly(w: World, j: nat, answer: Option<Triple>)
    requires j < |w.jobs| && w.jobs[j].phase.Answered?
    ensures JobOnly(w, WorkOn(w, j, answer), j)
  {
    hide FindForWork;
  }

  lemma LoadedIsJobOnly(w: World, j: nat, answer: Option<Triple>)
    requires j < |w.jobs| && w.jobs[j].phase.Loaded?
    ensures JobOnly(w, WorkOn(w, j, answer), j)
  {
    hide Clashes, Classified, Stamped;
  }

  lemma LateIsJobOnly(w: World, j: nat, answer: Option<Triple>)
    requires j < |w.jobs| && !w.jobs[j].phase.Waiting? && !w.jobs[j].phase.Answered? && !w.jobs[j].phase.Loaded?
    ensures JobOnly(w, WorkOn(w, j, answer), j)
  {
  }

  lemma BreakIsJobOnly(w: World, j: nat)
    requires j < |w.jobs|
    ensures JobOnly(w, Break(w, j), j)
  {
  }

  lemma JobStepRemembers(w: World, w': World, sent: iset<(Uuid, Message)>, j: nat)
    requires Remembers(w, sent) && w.log <= w'.log && JobOnly(w, w', j)
    ensures Remembers(w', sent)
  {
    hide CallRemembers, RowRemembers, BornOf;
    forall u | u in w'.received
      ensures RowRemembers(w'.log, sent, u)
    {
      RowKeptMemory(w.log, w'.log, sent, u);
    }
    forall q | q in w'.calls
      ensures CallRemembers(w'.log, sent, w'.calls[q])
    {
      CallKeptMemory(w.log, w'.log, sent, w.calls[q]);
    }
    forall i | 0 <= i < |w'.jobs|
      ensures JobRemembers(w'.log, sent, w'.jobs[i])
    {
      JobKeptMemory(w.log, w'.log, sent, w.jobs[i]);
    }
  }

  ghost predicate StepSends(step: Step, sent: iset<(Uuid, Message)>) {
    step.Start? && step.initial.Finding? ==> (step.initial.tenantId, step.initial.message) in sent
  }

  lemma StepRemembers(w: World, step: Step, sent: iset<(Uuid, Message)>)
    requires Good(w) && Remembers(w, sent) && Enabled(w, step) && StepSends(step, sent)
    ensures Remembers(Do(w, step), sent)
  {
    hide Good, Remembers, Proceed, WorkOn, Break, JobOnly, Evolves;
    match step
    case Start(p, c) => MemoryKept(w, Goes(w, p, c), sent, p, None, None);
    case Advance(p, newId) => ProceedRemembers(w, sent, p, newId);
    case Abort(p) => MemoryKept(w, Goes(w, p, Broken), sent, p, None, None);
    case JobStep(j, answer) =>
      WorkIsJobOnly(w, j, answer);
      WorkEvolves(w, j, answer);
      LogGrows(w, WorkOn(w, j, answer));
      JobStepRemembers(w, WorkOn(w, j, answer), sent, j);
    case JobBreaks(j) =>
      BreakIsJobOnly(w, j);
      BreakEvolves(w, j);
      LogGrows(w, Break(w, j));
      JobStepRemembers(w, Break(w, j), sent, j);
    case Tick(now) => TickRemembers(w, now, sent);
  }

  lemma LogGrows(w: World, w': World)
    requires Evolves(w, w')
    ensures w.log <= w'.log
  {
  }

  lemma TickRemembers(w: World, now: Micros, sent: iset<(Uuid, Message)>)
    requires Remembers(w, sent)
    ensures Remembers(w.(now := now), sent)
  {
    hide CallRemembers, RowRemembers, JobRemembers;
  }

  lemma {:induction false} RunRemembers(w: World, steps: seq<Step>, sent: iset<(Uuid, Message)>)
    requires Good(w) && Remembers(w, sent) && IsRun(w, steps)
    requires forall i :: 0 <= i < |steps| ==> StepSends(steps[i], sent)
    ensures Remembers(After(w, steps), sent)
    decreases |steps|
  {
    hide Good, Remembers, Do, Enabled, StepSends;
    if steps != [] {
      StepOk(w, steps[0]);
      StepRemembers(w, steps[0], sent);
      assert forall i :: 0 <= i < |steps| - 1 ==> steps[1..][i] == steps[i + 1];
      RunRemembers(Do(w, steps[0]), steps[1..], sent);
    }
  }

  // ---------------------------------------------------------------- what was received is what was sent

  /** The tenant was sent the message. */
  ghost predicate Sent(steps: seq<Step>, t: Uuid, m: Message) {
    exists i, p :: 0 <= i < |steps| && steps[i] == Start(p, Finding(t, m))
  }

  ghost function AllSent(steps: seq<Step>): iset<(Uuid, Message)> {
    iset t: Uuid, m: Message | Sent(steps, t, m) :: (t, m)
  }

  lemma AllRemembered(start: Micros, steps: seq<Step>)
    requires IsRun(Quiet(start), steps)
    ensures Remembers(After(Quiet(start), steps), AllSent(steps))
  {
    hide Good, IsRun, After;
    forall i | 0 <= i < |steps|
      ensures StepSends(steps[i], AllSent(steps))
    {
      if steps[i].Start? && steps[i].initial.Finding? {
        var t, m := steps[i].initial.tenantId, steps[i].initial.message;
        assert steps[i] == Start(steps[i].call, Finding(t, m));
        assert Sent(steps, t, m);
      }
    }
    QuietOk(start);
    RunRemembers(Quiet(start), steps, AllSent(steps));
  }

  /** Version `k` is the row's first: a new row of the tenant with the sender in its title and the text of
      the message in its body; and every job queued for the row has that text. */
  ghost predicate ReceivedAs(w: World, u: Uuid, k: nat, t: Uuid, m: Message) {
    && FirstVersion(w.log, k, u)
    && var row, at := w.log[k].row, w.log[k].at;
       && row.title == "Inbound from " + m.sender && row.body == m.text
       && row.channel == m.channel && row.externalMessageId == Some(m.externalMessageId)
       && row.tenantId == t && row.status == Open
       && row.category == None && row.urgency == None && row.sentiment == None
       && row.createdAt == at && row.updatedAt == at && row.deletedAt == None
       && forall j :: 0 <= j < |w.jobs| && w.jobs[j].requestId == u ==>
                        w.jobs[j].text == row.body && w.jobs[j].tenantId == row.tenantId
  }

  lemma BornIsReceived(w: World, sent: iset<(Uuid, Message)>, u: Uuid, t: Uuid, m: Message) returns (k: nat)
    requires Remembers(w, sent) && BornOf(w.log, u, t, m)
    ensures ReceivedAs(w, u, k, t, m)
  {
    k :| BornAt(w.log, k, u, t, m);
    forall j | 0 <= j < |w.jobs| && w.jobs[j].requestId == u
      ensures w.jobs[j].text == w.log[k].row.body && w.jobs[j].tenantId == w.log[k].row.tenantId
    {
      JobIsAbout(w, sent, j, k);
    }
  }

  lemma JobIsAbout(w: World, sent: iset<(Uuid, Message)>, j: nat, k: nat)
    requires Remembers(w, sent) && j < |w.jobs| && FirstVersion(w.log, k, w.jobs[j].requestId)
    ensures w.jobs[j].text == w.log[k].row.body && w.jobs[j].tenantId == w.log[k].row.tenantId
  {
    var job := w.jobs[j];
    assert JobRemembers(w.log, sent, job);
    var m :| (job.tenantId, m) in sent && BornOf(w.log, job.requestId, job.tenantId, m) && job.text == m.text;
    var k': nat :| BornAt(w.log, k', job.requestId, job.tenantId, m);
    assert k' == k;
  }

  /** Over every interleaving, faults included: each row that a delivery created was first written as the
      message says, for a message that was sent to its tenant, and its job asks about that message's text. */
  lemma ReceivedIsSent(start: Micros, steps: seq<Step>, u: Uuid) returns (k: nat, t: Uuid, m: Message)
    requires IsRun(Quiet(start), steps) && u in After(Quiet(start), steps).received
    ensures Sent(steps, t, m) && ReceivedAs(After(Quiet(start), steps), u, k, t, m)
  {
    hide IsRun, After, BornOf;
    AllRemembered(start, steps);
    var w := After(Quiet(start), steps);
    assert RowRemembers(w.log, AllSent(steps), u);
    t, m :| (t, m) in AllSent(steps) && BornOf(w.log, u, t, m);
    k := BornIsReceived(w, AllSent(steps), u, t, m);
  }

  /** And whoever is told that a row was created for a message is told of a row that was first written as
      that message says. */
  lemma CreatedAsTold(start: Micros, steps: seq<Step>, p: nat) returns (k: nat)
    requires IsRun(Quiet(start), steps)
    requires var w := After(Quiet(start), steps);
             p in w.calls && w.calls[p].Replied? && w.calls[p].reply.created
    ensures var w := After(Quiet(start), steps);
            ReceivedAs(w, w.calls[p].reply.requestId, k, w.calls[p].tenantId, w.calls[p].message)
  {
    hide IsRun, After, BornOf;
    AllRemembered(start, steps);
    var w := After(Quiet(start), steps);
    CallMemory(w, AllSent(steps), p);
    k := BornIsReceived(w, AllSent(steps), w.calls[p].reply.requestId, w.calls[p].tenantId, w.calls[p].message);
  }
}
