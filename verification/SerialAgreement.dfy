/** The two granularities agree: a call that nothing interrupts does step by step exactly what the
    serial model does at once. */
module SerialAgreement {
  import opened Wrappers
  import opened Calendar
  import opened Uuids
  import opened Requests
  import opened RequestEntities
  import opened Caching
  import opened RequestStore
  import opened Interleaving

  function StoreOf(w: World): Store {
    Store(w.rows, w.cache, w.now)
  }

  /** An upper bound on the steps a call still takes. */
  function Rank(c: Call): nat {
    match c
    case Looking(_, _, _) => 5
    case Reading(_, _, _) => 4
    case Filling(_, _, _, _, _) => 3
    case Saving(_, _, _) => 2
    case Removing(_, _, _) => 2
    case Dropping(_, _, _) => 1
    case Creating(_, _) => 1
    case Finding(_, _) => 4
    case Inserting(_, _) => 3
    case Enqueuing(_, _, _) => 2
    case Enqueued(_, _, _) => 1
    case _ => 0
  }

  predicate IsIntake(c: Call) {
    c.Finding? || c.Inserting? || c.Enqueuing? || c.Enqueued? || c.Creating?
  }

  lemma RankFalls(w: World, p: nat, newId: Uuid)
    requires p in w.calls && !Over(w.calls[p])
    ensures p in Proceed(w, p, newId).calls
    ensures Rank(Proceed(w, p, newId).calls[p]) < Rank(w.calls[p])
  {
    if IsIntake(w.calls[p]) {
      hide Clashes, NewRow, FromMessage, HasExternalId, Write, Insert;
    } else {
      hide Proceed;
      OtherRankFalls(w, p, newId);
    }
  }

  lemma OtherRankFalls(w: World, p: nat, newId: Uuid)
    requires p in w.calls && !Over(w.calls[p]) && !IsIntake(w.calls[p])
    ensures p in Proceed(w, p, newId).calls
    ensures Rank(Proceed(w, p, newId).calls[p]) < Rank(w.calls[p])
  {
    hide Lookup, FindById, KeyFor, ThroughJson, Clashes, Stamped, SoftDeleted, Write, WithRow;
    match w.calls[p]
    case Looking(t, id, purpose) =>
      if Lookup(w.cache, KeyFor(t, id), w.now).Some? {
        WithRowRank(t, id, purpose, Lookup(w.cache, KeyFor(t, id), w.now).value, true);
      }
    case Filling(t, id, purpose, row, _) => WithRowRank(t, id, purpose, row, false);
    case _ =>
  }

  lemma WithRowRank(t: Uuid, id: string, purpose: Purpose, row: RequestRow, hit: bool)
    ensures Rank(WithRow(t, id, purpose, row, hit)) <= 2
  {
    hide LegalEdge, Edited;
  }

  /** Call `p` runs to its end, and nothing else does. */
  ghost function Alone(w: World, p: nat, newId: Uuid): World
    requires p in w.calls
    decreases Rank(w.calls[p])
  {
    if Over(w.calls[p]) then w
    else
      RankFalls(w, p, newId);
      Alone(Proceed(w, p, newId), p, newId)
  }

  /** That is a run of the interleaved model, of at most five steps. */
  lemma {:induction false} AloneIsRun(w: World, p: nat, newId: Uuid) returns (steps: seq<Step>)
    requires p in w.calls
    ensures IsRun(w, steps) && After(w, steps) == Alone(w, p, newId)
    ensures |steps| <= Rank(w.calls[p]) <= 5 && FaultFree(steps)
    ensures p in Alone(w, p, newId).calls && Over(Alone(w, p, newId).calls[p])
    decreases Rank(w.calls[p])
  {
    hide Proceed;
    if Over(w.calls[p]) {
      steps := [];
    } else {
      RankFalls(w, p, newId);
      var rest := AloneIsRun(Proceed(w, p, newId), p, newId);
      steps := [Advance(p, newId)] + rest;
      assert steps[1..] == rest;
    }
  }

  lemma AloneNext(w: World, p: nat, newId: Uuid)
    requires p in w.calls && !Over(w.calls[p])
    ensures p in Proceed(w, p, newId).calls && Alone(w, p, newId) == Alone(Proceed(w, p, newId), p, newId)
  {
    hide Proceed;
    RankFalls(w, p, newId);
  }

  lemma AloneOver(w: World, p: nat, newId: Uuid)
    requires p in w.calls && Over(w.calls[p])
    ensures Alone(w, p, newId) == w
  {
  }

  lemma Regoes(w: World, p: nat, c: Call, c': Call)
    ensures Goes(Goes(w, p, c), p, c') == Goes(w, p, c')
  {
    assert w.calls[p := c][p := c'] == w.calls[p := c'];
  }

  lemma RegoesCached(w: World, p: nat, c: Call, cache: Cache, c': Call)
    ensures Goes(Goes(w, p, c).(cache := cache), p, c') == Goes(w.(cache := cache), p, c')
  {
    assert w.calls[p := c][p := c'] == w.calls[p := c'];
  }

  lemma AloneLooks(w: World, p: nat, newId: Uuid, t: Uuid, id: string, purpose: Purpose)
    requires p in w.calls && w.calls[p] == Looking(t, id, purpose)
    ensures Alone(w, p, newId) ==
              match Lookup(w.cache, KeyFor(t, id), w.now)
              case Some(row) => Alone(Goes(w, p, WithRow(t, id, purpose, row, true)), p, newId)
              case None => Alone(Goes(w, p, Reading(t, id, purpose)), p, newId)
  {
    hide Alone, KeyFor, Lookup, WithRow;
    AloneNext(w, p, newId);
  }

  lemma AloneReads(w: World, p: nat, newId: Uuid, t: Uuid, id: string, purpose: Purpose)
    ensures Alone(Goes(w, p, Reading(t, id, purpose)), p, newId) ==
              match FindById(w.rows, t, id)
              case Some(row) => Alone(Goes(w, p, Filling(t, id, purpose, row, w.now)), p, newId)
              case None => Goes(w, p, Failed(NotFound))
  {
    hide Alone, FindById;
    var w1 := Goes(w, p, Reading(t, id, purpose));
    AloneNext(w1, p, newId);
    match FindById(w.rows, t, id)
    case Some(row) => Regoes(w, p, w1.calls[p], Filling(t, id, purpose, row, w.now));
    case None =>
      Regoes(w, p, w1.calls[p], Failed(NotFound));
      AloneOver(Goes(w, p, Failed(NotFound)), p, newId);
  }

  lemma AloneFills(w: World, p: nat, newId: Uuid, t: Uuid, id: string, purpose: Purpose, row: RequestRow, readAt: Micros)
    ensures Alone(Goes(w, p, Filling(t, id, purpose, row, readAt)), p, newId) ==
              Alone(Goes(w.(cache := w.cache[KeyFor(t, id) := Entry(ThroughJson(row), readAt, w.now)]), p,
                         WithRow(t, id, purpose, row, false)), p, newId)
  {
    hide Alone, KeyFor, ThroughJson, WithRow;
    var w1 := Goes(w, p, Filling(t, id, purpose, row, readAt));
    AloneNext(w1, p, newId);
    RegoesCached(w, p, w1.calls[p], w.cache[KeyFor(t, id) := Entry(ThroughJson(row), readAt, w.now)],
                 WithRow(t, id, purpose, row, false));
  }

  /** Loading alone is `FindOne`. */
  lemma AloneLoads(w: World, p: nat, newId: Uuid, t: Uuid, id: string, purpose: Purpose)
    requires p in w.calls && w.calls[p] == Looking(t, id, purpose)
    ensures var (s, r) := FindOne(StoreOf(w), t, id);
            Alone(w, p, newId) ==
              match r
              case Ok(loaded) =>
                Alone(Goes(w.(cache := s.cache), p, WithRow(t, id, purpose, loaded.row, loaded.Hit?)), p, newId)
              case Err(e) => Goes(w, p, Failed(e))
  {
    hide Alone, Proceed, KeyFor, FindById, ThroughJson, WithRow, Lookup, Goes;
    AloneLooks(w, p, newId, t, id, purpose);
    match Lookup(w.cache, KeyFor(t, id), w.now)
    case Some(row) => assert w.(cache := w.cache) == w;
    case None =>
      AloneReads(w, p, newId, t, id, purpose);
      match FindById(w.rows, t, id)
      case None =>
      case Some(row) => AloneFills(w, p, newId, t, id, purpose, row, w.now);
  }

  /** How a call that ended tells its caller. */
  function Ending(r: Result<RequestRow, ServiceError>): Call {
    match r
    case Ok(row) => Returned(row)
    case Err(e) => Failed(e)
  }

  lemma AloneSaves(w: World, p: nat, newId: Uuid, t: Uuid, id: string, row: RequestRow)
    requires p in w.calls && w.calls[p] == Saving(t, id, row)
    ensures var (s, r) := SaveAndDrop(StoreOf(w), KeyFor(t, id), row);
            StoreOf(Alone(w, p, newId)) == s && Alone(w, p, newId).calls == w.calls[p := Ending(r)]
  {
    hide Alone, KeyFor, Clashes, Stamped;
    AloneNext(w, p, newId);
    if !Clashes(w.rows, row) {
      var saved := Stamped(w.rows, row, w.now);
      AloneDrops(Write(w, saved), p, newId, t, id, saved);
    } else {
      AloneOver(Goes(w, p, Failed(UniqueViolation)), p, newId);
    }
  }

  lemma AloneDrops(w: World, p: nat, newId: Uuid, t: Uuid, id: string, row: RequestRow)
    ensures Alone(Goes(w, p, Dropping(t, id, row)), p, newId) == Goes(w.(cache := w.cache - {KeyFor(t, id)}), p, Returned(row))
  {
    hide Alone, KeyFor;
    var w1 := Goes(w, p, Dropping(t, id, row));
    AloneNext(w1, p, newId);
    RegoesCached(w, p, w1.calls[p], w.cache - {KeyFor(t, id)}, Returned(row));
    AloneOver(Goes(w.(cache := w.cache - {KeyFor(t, id)}), p, Returned(row)), p, newId);
  }

  /** `findOne`, uninterrupted. */
  lemma FindOneAgrees(w: World, p: nat, newId: Uuid, t: Uuid, id: string)
    requires p in w.calls && w.calls[p] == Looking(t, id, Get)
    ensures var (s, r) := FindOne(StoreOf(w), t, id);
            StoreOf(Alone(w, p, newId)) == s && Alone(w, p, newId).calls == w.calls[p := Ending(RowOf(r))]
  {
    hide KeyFor, FindOne, Alone;
    AloneLoads(w, p, newId, t, id, Get);
    FindOneCacheOnly(StoreOf(w), t, id);
    var (s, r) := FindOne(StoreOf(w), t, id);
    if r.Ok? { AloneOver(Goes(w.(cache := s.cache), p, Returned(r.value.row)), p, newId); }
  }

  /** `update`, uninterrupted. */
  lemma UpdateAgrees(w: World, p: nat, newId: Uuid, t: Uuid, id: string, dto: UpdateDto)
    requires p in w.calls && w.calls[p] == Looking(t, id, Edit(dto))
    ensures var (s, r) := Update(StoreOf(w), t, id, dto);
            StoreOf(Alone(w, p, newId)) == s && Alone(w, p, newId).calls == w.calls[p := Ending(r)]
  {
    hide KeyFor, FindOne, Edited, Alone, SaveAndDrop;
    AloneLoads(w, p, newId, t, id, Edit(dto));
    FindOneCacheOnly(StoreOf(w), t, id);
    var (s, r) := FindOne(StoreOf(w), t, id);
    if r.Ok? {
      var w1 := Goes(w.(cache := s.cache), p, Saving(t, id, Edited(r.value.row, dto)));
      AloneSaves(w1, p, newId, t, id, Edited(r.value.row, dto));
    }
  }

  /** `changeStatus`, uninterrupted. */
  lemma ChangeStatusAgrees(w: World, p: nat, newId: Uuid, t: Uuid, id: string, target: Status)
    requires p in w.calls && w.calls[p] == Looking(t, id, Move(target))
    ensures var (s, r) := ChangeStatus(StoreOf(w), t, id, target);
            StoreOf(Alone(w, p, newId)) == s && Alone(w, p, newId).calls == w.calls[p := Ending(r)]
  {
    hide KeyFor, FindOne, SaveAndDrop, LegalEdge, Alone;
    AloneLoads(w, p, newId, t, id, Move(target));
    FindOneCacheOnly(StoreOf(w), t, id);
    var (s, r) := FindOne(StoreOf(w), t, id);
    if r.Ok? {
      var c := WithRow(t, id, Move(target), r.value.row, r.value.Hit?);
      var w1 := Goes(w.(cache := s.cache), p, c);
      if c.Saving? { AloneSaves(w1, p, newId, t, id, c.row); } else { AloneOver(w1, p, newId); }
    }
  }

  lemma FindOneCacheOnly(s: Store, t: Uuid, id: string)
    ensures FindOne(s, t, id).0 == s.(cache := FindOne(s, t, id).0.cache)
    ensures FindOne(s, t, id).1.Err? ==> FindOne(s, t, id).0 == s
  {
    hide KeyFor, FindById, ThroughJson, Lookup;
  }

  /** `remove`, uninterrupted. */
  lemma RemoveAgrees(w: World, p: nat, newId: Uuid, t: Uuid, id: string)
    requires p in w.calls && w.calls[p] == Looking(t, id, Delete)
    ensures var (s, r) := Remove(StoreOf(w), t, id);
            && StoreOf(Alone(w, p, newId)) == s
            && p in Alone(w, p, newId).calls
            && match r
               case Ok(_) => Alone(w, p, newId).calls[p].Returned?
               case Err(e) => Alone(w, p, newId).calls == w.calls[p := Failed(e)]
  {
    hide KeyFor, FindOne, Alone;
    AloneLoads(w, p, newId, t, id, Delete);
    FindOneCacheOnly(StoreOf(w), t, id);
    var (s, r) := FindOne(StoreOf(w), t, id);
    if r.Ok? {
      AloneRemoves(Goes(w.(cache := s.cache), p, Removing(t, id, r.value.row)), p, newId, t, id, r.value.row);
    }
  }

  lemma AloneRemoves(w: World, p: nat, newId: Uuid, t: Uuid, id: string, row: RequestRow)
    requires p in w.calls && w.calls[p] == Removing(t, id, row)
    ensures p in Alone(w, p, newId).calls && Alone(w, p, newId).calls[p].Returned?
    ensures StoreOf(Alone(w, p, newId))
         == StoreOf(w).(rows := SoftRemove(w.rows, row.id, w.now), cache := w.cache - {KeyFor(t, id)})
  {
    hide Alone, KeyFor, SoftDeleted;
    AloneNext(w, p, newId);
    if row.id in w.rows {
      var gone := SoftDeleted(w.rows[row.id], w.now);
      AloneDrops(Write(w, gone), p, newId, t, id, gone);
    } else {
      AloneDrops(w, p, newId, t, id, row);
    }
  }

  /** `create`, uninterrupted. */
  lemma CreateAgrees(w: World, p: nat, newId: Uuid, t: Uuid, data: NewRequest)
    requires p in w.calls && w.calls[p] == Creating(t, data)
    ensures var (s, r) := Create(StoreOf(w), t, newId, data);
            StoreOf(Alone(w, p, newId)) == s && Alone(w, p, newId).calls == w.calls[p := Ending(r)]
  {
    hide NewRow, Clashes;
  }

  /** `handleInbound`, uninterrupted: the serial model's reply, and one new job per created request. */
  lemma InboundAgrees(w: World, p: nat, newId: Uuid, t: Uuid, m: Message)
    requires p in w.calls && w.calls[p] == Finding(t, m)
    ensures var (s, r) := HandleInbound(StoreOf(w), t, newId, m);
            && StoreOf(Alone(w, p, newId)) == s
            && Alone(w, p, newId).calls == w.calls[p := if r.Ok? then Replied(t, m, r.value) else Failed(r.error)]
            && Alone(w, p, newId).jobs
            == if r.Ok? && r.value.created then w.jobs + [Job(r.value.requestId, t, m.text, 0, 0, Waiting)] else w.jobs
  {
    hide HasExternalId, FromMessage;
    match FindByExternalId(w.rows, t, m.externalMessageId)
    case Some(id) => AloneOver(Goes(w, p, Replied(t, m, InboundReply(id, false))), p, newId);
    case None =>
      var w1 := Goes(w, p, Inserting(t, m));
      assert Alone(w, p, newId) == Alone(w1, p, newId);
      AloneInserts(w1, p, newId, t, m);
  }

  lemma AloneInserts(w: World, p: nat, newId: Uuid, t: Uuid, m: Message)
    requires p in w.calls && w.calls[p] == Inserting(t, m)
    ensures var (s, r) := Create(StoreOf(w), t, newId, FromMessage(m));
            && StoreOf(Alone(w, p, newId)) == s
            && Alone(w, p, newId).calls
            == w.calls[p := if r.Ok? then Replied(t, m, InboundReply(newId, true)) else Failed(r.error)]
            && Alone(w, p, newId).jobs == if r.Ok? then w.jobs + [Job(newId, t, m.text, 0, 0, Waiting)] else w.jobs
  {
    hide FromMessage, Clashes, Alone;
    var row := NewRow(newId, t, FromMessage(m), w.now);
    if Insert(w.rows, row).Ok? {
      var w1 := Goes(Write(w, row).(received := w.received + {newId}), p, Enqueuing(t, m, newId));
      AloneNext(w, p, newId);
      AloneEnqueues(w1, p, newId, t, m);
    } else {
      AloneNext(w, p, newId);
      AloneOver(Goes(w, p, Failed(UniqueViolation)), p, newId);
    }
  }

  lemma AloneEnqueues(w: World, p: nat, newId: Uuid, t: Uuid, m: Message)
    requires p in w.calls && w.calls[p] == Enqueuing(t, m, newId)
    ensures Alone(w, p, newId)
         == w.(calls := w.calls[p := Replied(t, m, InboundReply(newId, true))],
               jobs := w.jobs + [Job(newId, t, m.text, 0, 0, Waiting)])
  {
    var w1 := Goes(w.(jobs := w.jobs + [Job(newId, t, m.text, 0, 0, Waiting)]), p, Enqueued(t, m, newId));
    assert Alone(w, p, newId) == Alone(w1, p, newId);
    var w2 := Goes(w1, p, Replied(t, m, InboundReply(newId, true)));
    assert Alone(w1, p, newId) == Alone(w2, p, newId);
  }

  // ---------------------------------------------------------------- the worker

  /** One attempt of a job, uninterrupted and without faults. */
  function Attempt(w: World, j: nat, answer: Option<Triple>): (w': World)
    requires j < |w.jobs| && w.jobs[j].phase.Waiting?
    ensures |w'.jobs| == |w.jobs|
  {
    var w1 := WorkOn(w, j, answer);
    if !w1.jobs[j].phase.Answered? then w1
    else
      var w2 := WorkOn(w1, j, answer);
      if !w2.jobs[j].phase.Loaded? then w2
      else
        var w3 := WorkOn(w2, j, answer);
        if !w3.jobs[j].phase.RowSaved? then w3 else WorkOn(w3, j, answer)
  }

  /** An attempt does to the table what the serial `Work` does, records its event exactly when that
      has classified the row, and is counted as failed exactly when that throws. */
  lemma AttemptAgrees(w: World, j: nat, answer: Option<Triple>)
    requires j < |w.jobs| && w.jobs[j].phase.Waiting?
    ensures var (s, r) := Work(StoreOf(w), w.jobs[j].tenantId, w.jobs[j].requestId, answer);
            var w', job := Attempt(w, j, answer), w.jobs[j];
            && StoreOf(w') == s
            && (r.Recorded? <==> w'.jobs[j].phase == Phase.Recorded)
            && (r.Skipped? <==> w'.jobs[j].phase.Skipped?)
            && w'.jobs[j].attemptsMade == job.attemptsMade + (if r.Thrown? then 1 else 0)
            && w'.events == w.events + if r.Recorded? then [Event(job.requestId, LlmClassified)] else []
  {
    hide Classify, Classified, Clashes, Stamped, FindForWork, WorkOn;
    var job, t := w.jobs[j], Classify(answer);
    AskStep(w, j, answer);
    if t.category != UNCLASSIFIED {
      var w1 := WorkOn(w, j, answer);
      ReadStep(w1, j, answer);
      match FindForWork(w.rows, job.tenantId, job.requestId)
      case None =>
      case Some(row) =>
        SaveStep(WorkOn(w1, j, answer), j, answer);
    }
  }

  lemma AskStep(w: World, j: nat, answer: Option<Triple>)
    requires j < |w.jobs| && w.jobs[j].phase.Waiting?
    ensures var job, t, w' := w.jobs[j], Classify(answer), WorkOn(w, j, answer);
            && w' == w.(jobs := w'.jobs) && |w'.jobs| == |w.jobs|
            && (t.category != UNCLASSIFIED ==> w'.jobs[j] == job.(begun := job.begun + 1, phase := Answered(t)))
            && (t.category == UNCLASSIFIED ==>
                  && w'.jobs[j].attemptsMade == job.attemptsMade + 1
                  && (w'.jobs[j].phase.Waiting? || w'.jobs[j].phase.OutOfAttempts?))
  {
    hide Classify;
  }

  lemma ReadStep(w: World, j: nat, answer: Option<Triple>)
    requires j < |w.jobs| && w.jobs[j].phase.Answered?
    ensures var job, w' := w.jobs[j], WorkOn(w, j, answer);
            && w' == w.(jobs := w'.jobs) && |w'.jobs| == |w.jobs|
            && w'.jobs[j] == job.(phase := match FindForWork(w.rows, job.tenantId, job.requestId)
                                           case Some(row) => Loaded(job.phase.triple, row)
                                           case None => Phase.Skipped(|w.log|))
  {
    hide FindForWork;
  }

  /** The save, and if it succeeds the event. */
  lemma SaveStep(w: World, j: nat, answer: Option<Triple>)
    requires j < |w.jobs| && w.jobs[j].phase.Loaded?
    ensures var job, w1 := w.jobs[j], WorkOn(w, j, answer);
            && |w1.jobs| == |w.jobs|
            && match Save(w.rows, Classified(job.phase.row, job.phase.triple), w.now)
               case Ok(rows) =>
                 && w1.jobs[j].phase.RowSaved? && |WorkOn(w1, j, answer).jobs| == |w.jobs|
                 && StoreOf(WorkOn(w1, j, answer)) == StoreOf(w).(rows := rows)
                 && WorkOn(w1, j, answer).jobs[j] == job.(phase := Phase.Recorded)
                 && WorkOn(w1, j, answer).events == w.events + [Event(job.requestId, LlmClassified)]
               case Err(_) =>
                 && StoreOf(w1) == StoreOf(w) && w1.events == w.events
                 && (w1.jobs[j].phase.Waiting? || w1.jobs[j].phase.OutOfAttempts?)
                 && w1.jobs[j].attemptsMade == job.attemptsMade + 1
  {
    hide Classified, Clashes;
  }
}
