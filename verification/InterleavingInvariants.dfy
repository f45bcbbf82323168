/** What holds in every world the interleaved steps can reach: every copy of a row that a call, a
    job or the cache holds is about that row, and every cached value is a logged version. */
module InterleavingInvariants {
  import opened Wrappers
  import opened Calendar
  import opened Uuids
  import opened Requests
  import opened Caching
  import opened RequestStore
  import opened SerialRuns
  import opened RowHistories
  import opened Interleaving

  // ---------------------------------------------------------------- the log

  /** Version `k` is `row`, and was current at `at`: written by then, and not overwritten before. */
  ghost predicate CurrentAt(log: seq<Version>, k: nat, row: RequestRow, at: Micros) {
    && k < |log| && log[k].row == row && log[k].at <= at
    && forall j :: k < j < |log| && log[j].row.id == row.id ==> at <= log[j].at
  }

  ghost predicate WasCurrent(log: seq<Version>, row: RequestRow, at: Micros) {
    exists k :: CurrentAt(log, k, row, at)
  }

  ghost predicate Latest(log: seq<Version>, k: nat, row: RequestRow) {
    && k < |log| && log[k].row == row
    && forall j :: k < j < |log| ==> log[j].row.id != row.id
  }

  /** The stored row has the same identity: id, tenant and external message id. */
  predicate SameRow(rows: Table, row: RequestRow) {
    && row.id in rows
    && rows[row.id].tenantId == row.tenantId
    && rows[row.id].externalMessageId == row.externalMessageId
  }

  ghost predicate LogOk(rows: Table, log: seq<Version>, now: Micros) {
    && UniqueExternalIds(rows)
    && (forall i :: 0 <= i < |log| ==> log[i].at <= now && SameRow(rows, log[i].row) && Whole(log[i].row))
    && (forall u :: u in rows ==> exists k :: Latest(log, k, rows[u]))
  }

  // ---------------------------------------------------------------- what calls, jobs and entries hold

  ghost predicate EntryOk(w: World, key: string, t: Uuid, id: string, row: RequestRow) {
    && key in w.cache && key == KeyFor(t, id)
    && Parse(id) == Some(row.id) && row.tenantId == t && row.Live()
    && w.cache[key].value == ThroughJson(row)
    && w.cache[key].readAt <= w.cache[key].setAt <= w.now
    && WasCurrent(w.log, row, w.cache[key].readAt)
  }

  predicate HoldsOk(w: World, t: Uuid, id: string, row: RequestRow) {
    Parse(id) == Some(row.id) && row.tenantId == t && SameRow(w.rows, row) && Whole(row)
  }

  predicate Owned(w: World, t: Uuid, m: Message, u: Uuid) {
    HasExternalId(w.rows, t, m.externalMessageId, u)
  }

  ghost predicate CallOk(w: World, c: Call) {
    match c
    case Filling(t, id, _, row, readAt) =>
      HoldsOk(w, t, id, row) && row.Live() && readAt <= w.now && WasCurrent(w.log, row, readAt)
    case Saving(t, id, row) => HoldsOk(w, t, id, row)
    case Removing(t, id, row) => HoldsOk(w, t, id, row)
    case Enqueuing(t, m, u) => Owned(w, t, m, u)
    case Enqueued(t, m, u) => Owned(w, t, m, u)
    case Replied(t, m, reply) => Owned(w, t, m, reply.requestId)
    case _ => true
  }

  /** By the end of the log the row is deleted: its latest version there is not live. */
  ghost predicate GoneIn(log: seq<Version>, u: Uuid) {
    exists k :: && 0 <= k < |log| && log[k].row.id == u && !log[k].row.Live()
                && forall j :: k < j < |log| ==> log[j].row.id != u
  }

  ghost predicate EverClassified(log: seq<Version>, u: Uuid) {
    exists k :: 0 <= k < |log| && log[k].row.id == u && log[k].row.category.Some?
  }

  ghost predicate JobOk(w: World, job: Job) {
    && job.requestId in w.rows && w.rows[job.requestId].tenantId == job.tenantId
    && match job.phase
       case Waiting => job.begun == job.attemptsMade < ATTEMPTS
       case Answered(t) => job.begun == job.attemptsMade + 1 <= ATTEMPTS && t.category != UNCLASSIFIED
       case Loaded(t, row) =>
         && job.begun == job.attemptsMade + 1 <= ATTEMPTS && t.category != UNCLASSIFIED
         && row.id == job.requestId && SameRow(w.rows, row)
       case RowSaved(_) => job.begun == job.attemptsMade + 1 <= ATTEMPTS && EverClassified(w.log, job.requestId)
       case Recorded => job.begun == job.attemptsMade + 1 <= ATTEMPTS && EverClassified(w.log, job.requestId)
       case Skipped(seen) =>
         job.begun == job.attemptsMade + 1 <= ATTEMPTS && seen <= |w.log| && GoneIn(w.log[..seen], job.requestId)
       case _ => job.begun == job.attemptsMade == ATTEMPTS
  }

  ghost predicate CacheOk(w: World) {
    forall key :: key in w.cache ==> exists t, id, row :: EntryOk(w, key, t, id, row)
  }

  ghost predicate CallsOk(w: World) {
    forall p :: p in w.calls ==> CallOk(w, w.calls[p])
  }

  ghost predicate JobsOk(w: World) {
    forall j :: 0 <= j < |w.jobs| ==> JobOk(w, w.jobs[j])
  }

  ghost predicate Good(w: World) {
    LogOk(w.rows, w.log, w.now) && CacheOk(w) && CallsOk(w) && JobsOk(w)
  }

  // ---------------------------------------------------------------- what a step may do to the table

  /** Rows keep their identity, the log only grows, and what it gains is not older than now. */
  ghost predicate Evolves(w: World, w': World) {
    && w.now <= w'.now
    && (forall u :: u in w.rows ==> SameRow(w'.rows, w.rows[u]))
    && w.log <= w'.log
    && (forall i :: |w.log| <= i < |w'.log| ==> w.now <= w'.log[i].at)
  }

  lemma SameRowKept(w: World, w': World, row: RequestRow)
    requires Evolves(w, w') && SameRow(w.rows, row)
    ensures SameRow(w'.rows, row)
  {
    assert SameRow(w'.rows, w.rows[row.id]);
  }

  lemma WasCurrentKept(w: World, w': World, row: RequestRow, at: Micros)
    requires Evolves(w, w') && WasCurrent(w.log, row, at) && at <= w.now
    ensures WasCurrent(w'.log, row, at)
  {
    var k :| CurrentAt(w.log, k, row, at);
    assert forall i :: 0 <= i < |w.log| ==> w'.log[i] == w.log[i];
    assert CurrentAt(w'.log, k, row, at);
  }

  lemma EntryKept(w: World, w': World, key: string, t: Uuid, id: string, row: RequestRow)
    requires Evolves(w, w') && EntryOk(w, key, t, id, row)
    requires key in w'.cache && w'.cache[key] == w.cache[key]
    ensures EntryOk(w', key, t, id, row)
  {
    hide Parse, KeyFor, ThroughJson, WasCurrent;
    WasCurrentKept(w, w', row, w.cache[key].readAt);
  }

  lemma OwnedKept(w: World, w': World, t: Uuid, m: Message, u: Uuid)
    requires Evolves(w, w') && Owned(w, t, m, u)
    ensures Owned(w', t, m, u)
  {
    assert SameRow(w'.rows, w.rows[u]);
  }

  lemma CallKept(w: World, w': World, c: Call)
    requires Evolves(w, w') && CallOk(w, c)
    ensures CallOk(w', c)
  {
    hide Parse, WasCurrent, Evolves, Owned, SameRow, Whole;
    match c
    case Filling(t, id, _, row, readAt) =>
      SameRowKept(w, w', row);
      WasCurrentKept(w, w', row, readAt);
      NowGrows(w, w');
    case Saving(t, id, row) => SameRowKept(w, w', row);
    case Removing(t, id, row) => SameRowKept(w, w', row);
    case Enqueuing(t, m, u) => OwnedKept(w, w', t, m, u);
    case Enqueued(t, m, u) => OwnedKept(w, w', t, m, u);
    case Replied(t, m, reply) => OwnedKept(w, w', t, m, reply.requestId);
    case _ =>
  }

  lemma NowGrows(w: World, w': World)
    requires Evolves(w, w')
    ensures w.now <= w'.now
  {
  }

  lemma JobKept(w: World, w': World, job: Job)
    requires Evolves(w, w') && JobOk(w, job)
    ensures JobOk(w', job)
  {
    assert SameRow(w'.rows, w.rows[job.requestId]);
    match job.phase
    case Loaded(t, row) => SameRowKept(w, w', row);
    case Skipped(seen) => assert w'.log[..seen] == w.log[..seen];
    case RowSaved(_) => ClassifiedKept(w, w', job.requestId);
    case Recorded => ClassifiedKept(w, w', job.requestId);
    case _ =>
  }

  lemma ClassifiedKept(w: World, w': World, u: Uuid)
    requires Evolves(w, w') && EverClassified(w.log, u)
    ensures EverClassified(w'.log, u)
  {
    var k :| 0 <= k < |w.log| && w.log[k].row.id == u && w.log[k].row.category.Some?;
    assert w'.log[k] == w.log[k];
  }

  // ---------------------------------------------------------------- the three kinds of change

  /** A row may be written if its identity is that of the stored row, or new. */
  ghost predicate MayWrite(w: World, row: RequestRow) {
    Whole(row) && (row.id in w.rows ==> SameRow(w.rows, row)) && !Clashes(w.rows, row)
  }

  lemma WriteEvolves(w: World, row: RequestRow)
    requires MayWrite(w, row)
    ensures Evolves(w, Write(w, row))
  {
    hide Whole, Clashes;
  }

  lemma WriteUnique(rows: Table, row: RequestRow)
    requires UniqueExternalIds(rows) && !Clashes(rows, row)
    ensures UniqueExternalIds(rows[row.id := row])
  {
  }

  lemma LatestKept(log: seq<Version>, v: Version, k: nat, row: RequestRow)
    requires Latest(log, k, row) && v.row.id != row.id
    ensures Latest(log + [v], k, row)
  {
  }

  lemma WriteLogOk(w: World, row: RequestRow)
    requires LogOk(w.rows, w.log, w.now) && MayWrite(w, row)
    ensures LogOk(Write(w, row).rows, Write(w, row).log, w.now)
  {
    hide Whole, Clashes, UniqueExternalIds, SameRow, Evolves;
    var w' := Write(w, row);
    WriteUnique(w.rows, row);
    WriteEvolves(w, row);
    forall i | 0 <= i < |w'.log|
      ensures w'.log[i].at <= w.now && SameRow(w'.rows, w'.log[i].row) && Whole(w'.log[i].row)
    {
      if i < |w.log| {
        assert w'.log[i] == w.log[i];
        SameRowKept(w, w', w.log[i].row);
      } else {
        WrittenIsSame(w, row);
      }
    }
    forall u | u in w'.rows
      ensures exists k :: Latest(w'.log, k, w'.rows[u])
    {
      if u == row.id {
        assert Latest(w'.log, |w.log|, row);
      } else {
        var k :| Latest(w.log, k, w.rows[u]);
        LatestKept(w.log, Version(row, w.now), k, w.rows[u]);
      }
    }
  }

  lemma WrittenIsSame(w: World, row: RequestRow)
    ensures SameRow(Write(w, row).rows, row)
  {
  }

  /** Nothing that is held is disturbed when a row is written. */
  lemma WriteOk(w: World, row: RequestRow)
    requires Good(w) && MayWrite(w, row)
    ensures Good(Write(w, row)) && Evolves(w, Write(w, row))
  {
    hide LogOk, MayWrite;
    WriteLogOk(w, row);
    WriteEvolves(w, row);
    HeldKept(w, Write(w, row));
  }

  /** What the cache, the calls and the jobs hold stays right while rows evolve. */
  lemma HeldKept(w: World, w': World)
    requires CacheOk(w) && CallsOk(w) && JobsOk(w) && Evolves(w, w')
    requires w'.cache == w.cache && w'.calls == w.calls && w'.jobs == w.jobs
    ensures CacheOk(w') && CallsOk(w') && JobsOk(w')
  {
    hide Evolves, CallOk, JobOk, EntryOk;
    forall key | key in w'.cache
      ensures exists t, id, row :: EntryOk(w', key, t, id, row)
    {
      var t, id, row :| EntryOk(w, key, t, id, row);
      EntryKept(w, w', key, t, id, row);
    }
    forall p | p in w'.calls
      ensures CallOk(w', w'.calls[p])
    {
      CallKept(w, w', w.calls[p]);
    }
    forall j | 0 <= j < |w'.jobs|
      ensures JobOk(w', w'.jobs[j])
    {
      JobKept(w, w', w.jobs[j]);
    }
  }

  lemma FrameEvolves(w: World, w': World)
    requires w'.rows == w.rows && w'.log == w.log && w.now <= w'.now
    ensures Evolves(w, w')
  {
  }

  lemma GoesOk(w: World, p: nat, c: Call)
    requires Good(w) && CallOk(w, c)
    ensures Good(Goes(w, p, c))
  {
    hide LogOk, CallOk, Evolves, JobOk, EntryOk;
    var w' := Goes(w, p, c);
    FrameEvolves(w, w');
    Unchanged(w, w');
    forall q | q in w'.calls
      ensures CallOk(w', w'.calls[q])
    {
      CallKept(w, w', if q == p then c else w.calls[q]);
    }
  }

  /** Whether the cache and the jobs are right does not depend on the calls. */
  lemma Unchanged(w: World, w': World)
    requires CacheOk(w) && JobsOk(w)
    requires w'.rows == w.rows && w'.log == w.log && w'.now == w.now && w'.cache == w.cache && w'.jobs == w.jobs
    ensures CacheOk(w') && JobsOk(w')
  {
    hide Evolves, JobOk, EntryOk;
    FrameEvolves(w, w');
    forall key | key in w'.cache
      ensures exists t, id, row :: EntryOk(w', key, t, id, row)
    {
      var t, id, row :| EntryOk(w, key, t, id, row);
      EntryKept(w, w', key, t, id, row);
    }
    forall j | 0 <= j < |w'.jobs|
      ensures JobOk(w', w'.jobs[j])
    {
      JobKept(w, w', w.jobs[j]);
    }
  }

  lemma CallsUnchanged(w: World, w': World)
    requires CallsOk(w)
    requires w'.rows == w.rows && w'.log == w.log && w.now <= w'.now && w'.calls == w.calls
    ensures CallsOk(w')
  {
    hide Evolves, CallOk;
    FrameEvolves(w, w');
    forall p | p in w'.calls
      ensures CallOk(w', w'.calls[p])
    {
      CallKept(w, w', w.calls[p]);
    }
  }

  lemma CacheChangeOk(w: World, cache: Cache)
    requires Good(w) && CacheOk(w.(cache := cache))
    ensures Good(w.(cache := cache))
  {
    hide LogOk, CallOk, Evolves, JobOk, CacheOk;
    var w' := w.(cache := cache);
    CallsUnchanged(w, w');
    FrameEvolves(w, w');
    forall j | 0 <= j < |w'.jobs|
      ensures JobOk(w', w'.jobs[j])
    {
      JobKept(w, w', w.jobs[j]);
    }
  }

  lemma FillOk(w: World, t: Uuid, id: string, row: RequestRow, readAt: Micros)
    requires Good(w)
    requires Parse(id) == Some(row.id) && row.tenantId == t && row.Live() && readAt <= w.now
    requires WasCurrent(w.log, row, readAt)
    ensures Good(w.(cache := w.cache[KeyFor(t, id) := Entry(ThroughJson(row), readAt, w.now)]))
  {
    hide Parse, KeyFor, ThroughJson, WasCurrent, LogOk, CallsOk, JobsOk;
    var key := KeyFor(t, id);
    var w' := w.(cache := w.cache[key := Entry(ThroughJson(row), readAt, w.now)]);
    FrameEvolves(w, w');
    forall k | k in w'.cache
      ensures exists t', id', row' :: EntryOk(w', k, t', id', row')
    {
      if k == key {
        assert EntryOk(w', k, t, id, row);
      } else {
        var t', id', row' :| EntryOk(w, k, t', id', row');
        EntryKept(w, w', k, t', id', row');
      }
    }
    CacheChangeOk(w, w'.cache);
  }

  lemma DropOk(w: World, key: string)
    requires Good(w)
    ensures Good(w.(cache := w.cache - {key}))
  {
    hide Parse, KeyFor, EntryOk, LogOk, CallsOk, JobsOk, Evolves;
    var w' := w.(cache := w.cache - {key});
    FrameEvolves(w, w');
    forall k | k in w'.cache
      ensures exists t', id', row' :: EntryOk(w', k, t', id', row')
    {
      var t', id', row' :| EntryOk(w, k, t', id', row');
      EntryKept(w, w', k, t', id', row');
    }
    CacheChangeOk(w, w'.cache);
  }

  /** The jobs, the events and the list of received ids may change as long as the jobs stay right. */
  lemma QueueChangeOk(w: World, jobs: seq<Job>, events: seq<Event>, received: set<Uuid>)
    requires Good(w)
    requires forall j :: 0 <= j < |jobs| ==> JobOk(w, jobs[j])
    ensures Good(w.(jobs := jobs, events := events, received := received))
  {
    hide LogOk, CallOk, Evolves, JobOk, EntryOk;
    var w' := w.(jobs := jobs, events := events, received := received);
    FrameEvolves(w, w');
    Unchanged(w, w'.(jobs := w.jobs));
    CallsUnchanged(w, w');
    forall j | 0 <= j < |jobs|
      ensures JobOk(w', jobs[j])
    {
      JobKept(w, w', jobs[j]);
    }
    forall key | key in w'.cache
      ensures exists t, id, row :: EntryOk(w', key, t, id, row)
    {
      var t, id, row :| EntryOk(w, key, t, id, row);
      EntryKept(w, w', key, t, id, row);
    }
  }

  lemma TickOk(w: World, now: Micros)
    requires Good(w) && w.now <= now
    ensures Good(w.(now := now))
  {
    hide CallOk, JobOk, EntryOk, Evolves;
    var w' := w.(now := now);
    FrameEvolves(w, w');
    HeldKept(w, w');
  }

  // ---------------------------------------------------------------- each step

  lemma VersionFacts(w: World, row: RequestRow, at: Micros)
    requires LogOk(w.rows, w.log, w.now) && WasCurrent(w.log, row, at)
    ensures SameRow(w.rows, row) && Whole(row)
  {
    hide SameRow, Whole;
    var k :| CurrentAt(w.log, k, row, at);
  }

  lemma StoredFacts(w: World, u: Uuid)
    requires LogOk(w.rows, w.log, w.now) && u in w.rows
    ensures Whole(w.rows[u]) && WasCurrent(w.log, w.rows[u], w.now) && SameRow(w.rows, w.rows[u])
  {
    hide Whole;
    var k :| Latest(w.log, k, w.rows[u]);
    assert CurrentAt(w.log, k, w.rows[u], w.now);
  }

  /** A hit is a logged version of the very row asked for, as JSON leaves it. */
  lemma HitFacts(w: World, t: Uuid, id: string) returns (row: RequestRow)
    requires Good(w) && Lookup(w.cache, KeyFor(t, id), w.now).Some?
    ensures Lookup(w.cache, KeyFor(t, id), w.now).value == ThroughJson(row)
    ensures EntryOk(w, KeyFor(t, id), t, id, row)
    ensures HoldsOk(w, t, id, row)
  {
    hide Parse, KeyFor, ThroughJson, LogOk, CallsOk, JobsOk, Whole, SameRow, WasCurrent;
    var key := KeyFor(t, id);
    var t', id', row' :| EntryOk(w, key, t', id', row');
    KeyForInjective(t, id, t', id');
    VersionFacts(w, row', w.cache[key].readAt);
    row := row';
  }

  lemma WithRowOk(w: World, t: Uuid, id: string, purpose: Purpose, row: RequestRow, hit: bool)
    requires HoldsOk(w, t, id, row)
    ensures CallOk(w, WithRow(t, id, purpose, row, hit))
  {
    hide Parse, WasCurrent;
  }

  lemma JsonHolds(w: World, t: Uuid, id: string, row: RequestRow)
    requires HoldsOk(w, t, id, row)
    ensures HoldsOk(w, t, id, ThroughJson(row))
  {
    hide Parse;
  }

  lemma LookOk(w: World, p: nat, t: Uuid, id: string, purpose: Purpose)
    requires Good(w) && Lookup(w.cache, KeyFor(t, id), w.now).Some?
    ensures Good(Goes(w, p, WithRow(t, id, purpose, Lookup(w.cache, KeyFor(t, id), w.now).value, true)))
  {
    hide Parse, KeyFor, ThroughJson, Good, HoldsOk, WithRow, Lookup;
    var row := HitFacts(w, t, id);
    JsonHolds(w, t, id, row);
    WithRowOk(w, t, id, purpose, ThroughJson(row), true);
    GoesOk(w, p, WithRow(t, id, purpose, ThroughJson(row), true));
  }

  lemma ReadOk(w: World, p: nat, t: Uuid, id: string, purpose: Purpose)
    requires Good(w) && FindById(w.rows, t, id).Some?
    ensures Good(Goes(w, p, Filling(t, id, purpose, FindById(w.rows, t, id).value, w.now)))
  {
    hide Parse, CacheOk, CallsOk, JobsOk, LogOk, Whole, WasCurrent;
    StoredFacts(w, Parse(id).value);
    GoesOk(w, p, Filling(t, id, purpose, FindById(w.rows, t, id).value, w.now));
  }

  lemma FilledOk(w: World, p: nat, t: Uuid, id: string, purpose: Purpose, row: RequestRow, readAt: Micros)
    requires Good(w) && CallOk(w, Filling(t, id, purpose, row, readAt))
    ensures Good(Goes(w.(cache := w.cache[KeyFor(t, id) := Entry(ThroughJson(row), readAt, w.now)]), p,
                    WithRow(t, id, purpose, row, false)))
  {
    hide Parse, KeyFor, ThroughJson, Good, WithRow, WasCurrent, SameRow, Whole;
    FillOk(w, t, id, row, readAt);
    var w' := w.(cache := w.cache[KeyFor(t, id) := Entry(ThroughJson(row), readAt, w.now)]);
    WithRowOk(w', t, id, purpose, row, false);
    GoesOk(w', p, WithRow(t, id, purpose, row, false));
  }

  lemma WrittenOk(w: World, p: nat, row: RequestRow, c: Call)
    requires Good(w) && MayWrite(w, row) && CallOk(Write(w, row), c)
    ensures Good(Goes(Write(w, row), p, c))
  {
    hide Good, CallOk;
    WriteOk(w, row);
    GoesOk(Write(w, row), p, c);
  }

  lemma SaveMay(w: World, row: RequestRow)
    requires SameRow(w.rows, row) && Whole(row) && !Clashes(w.rows, row)
    ensures MayWrite(w, Stamped(w.rows, row, w.now))
  {
  }

  lemma RemoveMay(w: World, u: Uuid)
    requires Good(w) && u in w.rows
    ensures MayWrite(w, SoftDeleted(w.rows[u], w.now))
  {
    hide CacheOk, CallsOk, JobsOk;
    StoredFacts(w, u);
    NoClash(w.rows, SoftDeleted(w.rows[u], w.now));
  }

  lemma InsertMay(w: World, row: RequestRow)
    requires Whole(row) && Insert(w.rows, row).Ok?
    ensures MayWrite(w, row)
  {
  }

  lemma NewRowOwned(w: World, t: Uuid, m: Message, u: Uuid)
    ensures Owned(Write(w, NewRow(u, t, FromMessage(m), w.now)), t, m, u)
  {
  }

  /** One step of a call. */
  lemma ProceedOk(w: World, p: nat, newId: Uuid)
    requires Good(w) && p in w.calls
    ensures Good(Proceed(w, p, newId))
  {
    hide Parse, KeyFor, Lookup, FindById, FindByExternalId, WithRow, Clashes, Stamped, SoftDeleted, NewRow, Write, Goes;
    hide LogOk, CacheOk, JobsOk, WasCurrent, MayWrite, Whole, SameRow;
    var c := w.calls[p];
    assert CallOk(w, c);
    match c
    case Looking(t, id, purpose) =>
      if Lookup(w.cache, KeyFor(t, id), w.now).Some? { LookOk(w, p, t, id, purpose); }
      else { GoesOk(w, p, Reading(t, id, purpose)); }
    case Reading(t, id, purpose) =>
      if FindById(w.rows, t, id).Some? { ReadOk(w, p, t, id, purpose); }
      else { GoesOk(w, p, Failed(NotFound)); }
    case Filling(t, id, purpose, row, readAt) => FilledOk(w, p, t, id, purpose, row, readAt);
    case Saving(t, id, row) =>
      if Clashes(w.rows, row) { GoesOk(w, p, Failed(UniqueViolation)); }
      else {
        SaveMay(w, row);
        WrittenOk(w, p, Stamped(w.rows, row, w.now), Dropping(t, id, Stamped(w.rows, row, w.now)));
      }
    case Removing(t, id, row) =>
      if row.id in w.rows {
        RemoveMay(w, row.id);
        WrittenOk(w, p, SoftDeleted(w.rows[row.id], w.now), Dropping(t, id, SoftDeleted(w.rows[row.id], w.now)));
      } else { GoesOk(w, p, Dropping(t, id, row)); }
    case Dropping(t, id, row) =>
      DropOk(w, KeyFor(t, id));
      GoesOk(w.(cache := w.cache - {KeyFor(t, id)}), p, Returned(row));
    case Creating(t, data) => CreateOk(w, p, t, data, newId);
    case Finding(t, m) => FindOk(w, p, t, m);
    case Inserting(t, m) => InsertedOk(w, p, t, m, newId);
    case Enqueuing(t, m, id) => EnqueueOk(w, p, t, m, id);
    case Enqueued(t, m, id) => GoesOk(w, p, Replied(t, m, InboundReply(id, true)));
    case _ =>
  }

  lemma CreateOk(w: World, p: nat, t: Uuid, data: NewRequest, newId: Uuid)
    requires Good(w) && p in w.calls && w.calls[p] == Creating(t, data)
    ensures Good(Proceed(w, p, newId))
  {
    hide Good, MayWrite, Write, Goes, Clashes;
    var row := NewRow(newId, t, data, w.now);
    if Insert(w.rows, row).Err? { GoesOk(w, p, Failed(UniqueViolation)); }
    else {
      InsertMay(w, row);
      WrittenOk(w, p, row, Returned(row));
    }
  }

  lemma FindOk(w: World, p: nat, t: Uuid, m: Message)
    requires Good(w) && p in w.calls && w.calls[p] == Finding(t, m)
    ensures Good(Proceed(w, p, 0))
  {
    hide Good, Goes;
    match FindByExternalId(w.rows, t, m.externalMessageId)
    case Some(id) => GoesOk(w, p, Replied(t, m, InboundReply(id, false)));
    case None => GoesOk(w, p, Inserting(t, m));
  }

  lemma InsertedOk(w: World, p: nat, t: Uuid, m: Message, newId: Uuid)
    requires Good(w) && p in w.calls && w.calls[p] == Inserting(t, m)
    ensures Good(Proceed(w, p, newId))
  {
    hide Good, MayWrite, Clashes, JobOk;
    var row := NewRow(newId, t, FromMessage(m), w.now);
    if Insert(w.rows, row).Err? { GoesOk(w, p, Failed(UniqueViolation)); }
    else {
      InsertMay(w, row);
      NewRowOwned(w, t, m, newId);
      WrittenOk(w, p, row, Enqueuing(t, m, newId));
      var w1 := Goes(Write(w, row), p, Enqueuing(t, m, newId));
      OkJobs(w1);
      QueueChangeOk(w1, w1.jobs, w1.events, w.received + {newId});
    }
  }

  lemma OkJobs(w: World)
    requires Good(w)
    ensures JobsOk(w)
  {
  }

  lemma EnqueueOk(w: World, p: nat, t: Uuid, m: Message, id: Uuid)
    requires Good(w) && CallOk(w, Enqueuing(t, m, id))
    ensures Good(Goes(w.(jobs := w.jobs + [Job(id, t, m.text, 0, 0, Waiting)]), p, Enqueued(t, m, id)))
  {
    hide LogOk, CacheOk, CallsOk;
    var jobs := w.jobs + [Job(id, t, m.text, 0, 0, Waiting)];
    forall j | 0 <= j < |jobs| ensures JobOk(w, jobs[j]) {
      assert j < |w.jobs| ==> jobs[j] == w.jobs[j];
    }
    QueueChangeOk(w, jobs, w.events, w.received);
    var w' := w.(jobs := jobs);
    assert w.(jobs := jobs, events := w.events, received := w.received) == w';
    GoesOk(w', p, Enqueued(t, m, id));
  }

  // ---------------------------------------------------------------- the worker's steps

  lemma JobSetOk(w: World, j: nat, job: Job, events: seq<Event>)
    requires Good(w) && j < |w.jobs| && JobOk(w, job)
    ensures Good(w.(jobs := w.jobs[j := job], events := events))
  {
    hide LogOk, CacheOk, CallsOk, JobOk;
    QueueChangeOk(w, w.jobs[j := job], events, w.received);
    assert w.(jobs := w.jobs[j := job], events := events, received := w.received) == w.(jobs := w.jobs[j := job], events := events);
  }

  /** A row of the tenant that the worker does not find is deleted at that time. */
  lemma SkippedWasDeleted(w: World, u: Uuid, t: Uuid)
    requires LogOk(w.rows, w.log, w.now) && u in w.rows && w.rows[u].tenantId == t
    requires FindForWork(w.rows, t, u).None?
    ensures GoneIn(w.log[..|w.log|], u)
  {
    hide Whole, SameRow;
    var k: nat :| Latest(w.log, k, w.rows[u]);
    assert w.log[..|w.log|] == w.log;
    assert w.log[k].row.id == u && !w.log[k].row.Live();
  }

  /** The job's own loaded copy may be saved, and stays within its identity. */
  lemma WorkSaveOk(w: World, j: nat)
    requires Good(w) && j < |w.jobs| && w.jobs[j].phase.Loaded?
    ensures Good(WorkOn(w, j, None))
    ensures var t, row := w.jobs[j].phase.triple, w.jobs[j].phase.row;
            SameRow(w.rows, row) && row.id == w.jobs[j].requestId && MayWrite(w, Stamped(w.rows, Classified(row, t), w.now))
  {
    hide CacheOk, CallsOk, GoneIn;
    var job := w.jobs[j];
    assert JobOk(w, job);
    var row := Stamped(w.rows, Classified(job.phase.row, job.phase.triple), w.now);
    NoClash(w.rows, Classified(job.phase.row, job.phase.triple));
    hide Good, Clashes, Stamped, Classified;
    MayWriteClassified(w, job.phase.row, job.phase.triple);
    WriteOk(w, row);
    WriteEvolves(w, row);
    SavedJobOk(w, job);
    JobSetOk(Write(w, row), j, job.(phase := RowSaved(job.phase.triple)), w.events);
    assert JobGoes(Write(w, row), j, RowSaved(job.phase.triple))
        == Write(w, row).(jobs := w.jobs[j := job.(phase := RowSaved(job.phase.triple))], events := w.events);
  }

  lemma SavedJobOk(w: World, job: Job)
    requires job.phase.Loaded? && JobOk(w, job)
    ensures var row := Stamped(w.rows, Classified(job.phase.row, job.phase.triple), w.now);
            JobOk(Write(w, row), job.(phase := RowSaved(job.phase.triple)))
  {
    var row := Stamped(w.rows, Classified(job.phase.row, job.phase.triple), w.now);
    var log := Write(w, row).log;
    assert log[|w.log|].row == row && row.category.Some?;
  }

  lemma MayWriteClassified(w: World, row: RequestRow, t: Triple)
    requires SameRow(w.rows, row) && t.category != UNCLASSIFIED && !Clashes(w.rows, Classified(row, t))
    ensures MayWrite(w, Stamped(w.rows, Classified(row, t), w.now))
  {
    SaveMay(w, Classified(row, t));
  }

  /** Every other step of a job changes only the job, and at most adds an event. */
  lemma WorkElsewhere(w: World, j: nat, answer: Option<Triple>)
    requires j < |w.jobs| && !w.jobs[j].phase.Loaded?
    ensures |WorkOn(w, j, answer).jobs| == |w.jobs|
    ensures WorkOn(w, j, answer)
         == w.(jobs := w.jobs[j := WorkOn(w, j, answer).jobs[j]], events := WorkOn(w, j, answer).events)
  {
    hide FindForWork, Classify;
    if w.jobs[j].phase.Waiting? {
      AskedElsewhere(w, j, answer);
    }
  }

  lemma AskedElsewhere(w: World, j: nat, answer: Option<Triple>)
    requires j < |w.jobs| && w.jobs[j].phase.Waiting?
    ensures |WorkOn(w, j, answer).jobs| == |w.jobs| && WorkOn(w, j, answer).events == w.events
    ensures WorkOn(w, j, answer) == w.(jobs := w.jobs[j := WorkOn(w, j, answer).jobs[j]])
  {
    hide Classify;
  }

  lemma WorkedJobOk(w: World, j: nat, answer: Option<Triple>)
    requires LogOk(w.rows, w.log, w.now)
    requires j < |w.jobs| && !w.jobs[j].phase.Loaded? && JobOk(w, w.jobs[j])
    ensures |WorkOn(w, j, answer).jobs| == |w.jobs| && JobOk(w, WorkOn(w, j, answer).jobs[j])
  {
    hide LogOk, GoneIn, SameRow;
    var job := w.jobs[j];
    if job.phase.Answered? {
      if FindForWork(w.rows, job.tenantId, job.requestId).None? { SkippedWasDeleted(w, job.requestId, job.tenantId); }
      else { StoredFacts(w, job.requestId); }
    }
  }

  /** One step of a job. */
  lemma WorkOk(w: World, j: nat, answer: Option<Triple>)
    requires Good(w) && j < |w.jobs|
    ensures Good(WorkOn(w, j, answer))
  {
    hide CacheOk, CallsOk, LogOk, JobOk, WorkOn;
    if w.jobs[j].phase.Loaded? {
      LoadedStep(w, j, answer);
      WorkSaveOk(w, j);
    } else {
      WorkElsewhere(w, j, answer);
      WorkedJobOk(w, j, answer);
      JobSetOk(w, j, WorkOn(w, j, answer).jobs[j], WorkOn(w, j, answer).events);
    }
  }

  lemma LoadedStep(w: World, j: nat, answer: Option<Triple>)
    requires j < |w.jobs| && w.jobs[j].phase.Loaded?
    ensures WorkOn(w, j, answer) == WorkOn(w, j, None)
  {
  }

  lemma BreakOk(w: World, j: nat)
    requires Good(w) && j < |w.jobs|
    ensures Good(Break(w, j))
  {
    hide CacheOk, CallsOk, LogOk, GoneIn, SameRow;
    var job := w.jobs[j];
    assert JobOk(w, job);
    assert JobOk(w, Break(w, j).jobs[j]);
    hide Good, JobOk;
    JobSetOk(w, j, Break(w, j).jobs[j], w.events);
    assert Break(w, j) == w.(jobs := w.jobs[j := Break(w, j).jobs[j]], events := w.events);
  }

  // ---------------------------------------------------------------- every run

  /** Every step keeps all of it. */
  lemma StepOk(w: World, step: Step)
    requires Good(w) && Enabled(w, step)
    ensures Good(Do(w, step))
  {
    hide Good, Proceed, WorkOn, Break;
    match step
    case Start(p, c) => GoesOk(w, p, c);
    case Advance(p, newId) => ProceedOk(w, p, newId);
    case Abort(p) => GoesOk(w, p, Broken);
    case JobStep(j, answer) => WorkOk(w, j, answer);
    case JobBreaks(j) => BreakOk(w, j);
    case Tick(now) => TickOk(w, now);
  }

  /** Every step lets the table evolve: no row disappears or changes its identity, and the log grows. */
  lemma StepEvolves(w: World, step: Step)
    requires Good(w) && Enabled(w, step)
    ensures Evolves(w, Do(w, step))
  {
    hide Proceed, WorkOn, Break, CacheOk, LogOk, CallsOk, JobsOk, Evolves;
    match step
    case Advance(p, newId) => ProceedEvolves(w, p, newId);
    case JobStep(j, answer) => WorkEvolves(w, j, answer);
    case JobBreaks(j) => BreakEvolves(w, j);
    case _ => FrameEvolves(w, Do(w, step));
  }

  lemma ProceedEvolves(w: World, p: nat, newId: Uuid)
    requires Good(w) && p in w.calls
    ensures Evolves(w, Proceed(w, p, newId))
  {
    hide KeyFor, Lookup, FindById, HasExternalId, WithRow, Clashes, Stamped, SoftDeleted, ThroughJson;
    hide Good, MayWrite, Whole, Evolves, Write, FromMessage, NewRow, Insert;
    var c := w.calls[p];
    match c
    case Saving(t, id, row) => SavingEvolves(w, p, newId);
    case Removing(t, id, row) => RemovingEvolves(w, p, newId);
    case Creating(t, data) =>
      var row := NewRow(newId, t, data, w.now);
      if Insert(w.rows, row).Err? { FrameEvolves(w, Goes(w, p, Failed(UniqueViolation))); } else {
        NewIsWhole(newId, t, data, w.now);
        InsertMay(w, row);
        GoesEvolves(w, row, p, Returned(row), w.received);
      }
    case Inserting(t, m) =>
      var row := NewRow(newId, t, FromMessage(m), w.now);
      if Insert(w.rows, row).Err? { FrameEvolves(w, Goes(w, p, Failed(UniqueViolation))); } else {
        NewIsWhole(newId, t, FromMessage(m), w.now);
        InsertMay(w, row);
        GoesEvolves(w, row, p, Enqueuing(t, m, newId), w.received + {newId});
      }
    case _ => FrameEvolves(w, Proceed(w, p, newId));
  }

  lemma SavingEvolves(w: World, p: nat, newId: Uuid)
    requires Good(w) && p in w.calls && w.calls[p].Saving?
    ensures Evolves(w, Proceed(w, p, newId))
  {
    hide Parse, Clashes, Stamped, LogOk, CacheOk, JobsOk, MayWrite, Whole, SameRow, Evolves, Write;
    var c := w.calls[p];
    assert CallOk(w, c);
    if Clashes(w.rows, c.row) { FrameEvolves(w, Goes(w, p, Failed(UniqueViolation))); } else {
      SaveMay(w, c.row);
      GoesEvolves(w, Stamped(w.rows, c.row, w.now), p, Dropping(c.tenantId, c.id, Stamped(w.rows, c.row, w.now)), w.received);
    }
  }

  lemma RemovingEvolves(w: World, p: nat, newId: Uuid)
    requires Good(w) && p in w.calls && w.calls[p].Removing?
    ensures Evolves(w, Proceed(w, p, newId))
  {
    hide Good, SoftDeleted, MayWrite, Evolves, Write;
    var c := w.calls[p];
    if c.row.id in w.rows {
      RemoveMay(w, c.row.id);
      var gone := SoftDeleted(w.rows[c.row.id], w.now);
      GoesEvolves(w, gone, p, Dropping(c.tenantId, c.id, gone), w.received);
    } else {
      FrameEvolves(w, Goes(w, p, Dropping(c.tenantId, c.id, c.row)));
    }
  }

  lemma NewIsWhole(id: Uuid, t: Uuid, data: NewRequest, now: Micros)
    ensures Whole(NewRow(id, t, data, now))
  {
  }

  lemma GoesEvolves(w: World, row: RequestRow, p: nat, c: Call, received: set<Uuid>)
    requires MayWrite(w, row)
    ensures Evolves(w, Goes(Write(w, row), p, c))
    ensures Evolves(w, Goes(Write(w, row).(received := received), p, c))
  {
    hide MayWrite;
    WriteEvolves(w, row);
  }

  lemma WorkEvolves(w: World, j: nat, answer: Option<Triple>)
    requires Good(w) && j < |w.jobs|
    ensures Evolves(w, WorkOn(w, j, answer))
  {
    hide CacheOk, CallsOk, LogOk, JobOk, Evolves;
    if w.jobs[j].phase.Loaded? {
      WorkSaveOk(w, j);
      LoadedWrites(w, j, answer);
    } else {
      WorkElsewhere(w, j, answer);
      hide WorkOn;
      FrameEvolves(w, WorkOn(w, j, answer));
    }
  }

  lemma LoadedWrites(w: World, j: nat, answer: Option<Triple>)
    requires j < |w.jobs| && w.jobs[j].phase.Loaded?
    requires MayWrite(w, Stamped(w.rows, Classified(w.jobs[j].phase.row, w.jobs[j].phase.triple), w.now))
    ensures Evolves(w, WorkOn(w, j, answer))
  {
    hide MayWrite, Stamped, Classified, Clashes;
    var row := Stamped(w.rows, Classified(w.jobs[j].phase.row, w.jobs[j].phase.triple), w.now);
    WriteEvolves(w, row);
    if Clashes(w.rows, Classified(w.jobs[j].phase.row, w.jobs[j].phase.triple)) {
      FrameEvolves(w, WorkOn(w, j, answer));
    }
  }

  lemma BreakEvolves(w: World, j: nat)
    requires j < |w.jobs|
    ensures Evolves(w, Break(w, j))
  {
    hide Evolves;
    FrameEvolves(w, Break(w, j));
  }

  lemma {:induction false} RunOk(w: World, steps: seq<Step>)
    requires Good(w) && IsRun(w, steps)
    ensures Good(After(w, steps))
    decreases |steps|
  {
    hide Good, Do, Enabled;
    if steps != [] {
      StepOk(w, steps[0]);
      RunOk(Do(w, steps[0]), steps[1..]);
    }
  }
}
