/** Serial cache coherence: what an entry may get wrong, and when.  The cache key contains the
    request id as the caller spelled it, while the table knows the id only as a value, so entries
    are dropped reliably only if callers do not spell one id in two ways. */
module Coherence {
  import opened Wrappers
  import opened Calendar
  import opened Uuids
  import opened Requests
  import opened RequestEntities
  import opened Caching
  import opened RequestStore
  import opened SerialRuns
  import Pagination

  /** A cached value agrees with a live row in all but classification and update time. */
  predicate Agrees(v: RequestRow, row: RequestRow) {
    && row.deletedAt.None? && v.deletedAt.None?
    && v.id == row.id && v.tenantId == row.tenantId
    && v.title == row.title && v.body == row.body
    && v.channel == row.channel && v.status == row.status
    && v.externalMessageId == row.externalMessageId
    && CutDate(v.createdAt, row.createdAt)
  }

  predicate Right(s: Store, spellings: iset<string>, key: string, t: Uuid, id: string) {
    && id in spellings
    && Tied(s, key, t, id)
    && Agrees(s.cache[key].value, s.rows[Parse(id).value])
  }

  ghost predicate Coherent(s: Store, spellings: iset<string>) {
    && UniqueExternalIds(s.rows)
    && forall key :: key in s.cache ==> exists t, id :: Right(s, spellings, key, t, id)
  }

  /** No two of the spellings denote the same id. */
  ghost predicate OneSpellingEach(spellings: iset<string>) {
    forall i, j :: i in spellings && j in spellings && Parse(i).Some? && Parse(i) == Parse(j) ==> i == j
  }

  predicate SpellsId(op: Op) {
    op.OpFindOne? || op.OpUpdate? || op.OpChangeStatus? || op.OpRemove?
  }

  ghost predicate UsesOnly(ops: seq<Op>, spellings: iset<string>) {
    forall op :: op in ops && SpellsId(op) ==> op.id in spellings
  }

  lemma CoherentIsSane(s: Store, spellings: iset<string>)
    requires Coherent(s, spellings)
    ensures Sane(s)
  {
    hide Parse, KeyFor;
    forall key | key in s.cache
      ensures exists t, id :: Tied(s, key, t, id)
    {
      var t, id :| Right(s, spellings, key, t, id);
    }
  }

  lemma RightAt(s: Store, spellings: iset<string>, t: Uuid, id: string)
    requires Coherent(s, spellings) && KeyFor(t, id) in s.cache
    ensures Right(s, spellings, KeyFor(t, id), t, id)
  {
    hide Parse, KeyFor;
    var t', id' :| Right(s, spellings, KeyFor(t, id), t', id');
    KeyForInjective(t, id, t', id');
  }

  /** Rewriting a row and dropping its entry keeps coherence: no other entry is about that row. */
  lemma DropKeeps(s: Store, s': Store, spellings: iset<string>, t: Uuid, id: string)
    requires Coherent(s, spellings) && OneSpellingEach(spellings) && id in spellings
    requires Parse(id).Some? && Rewrites(s.rows, s'.rows, Parse(id).value)
    requires s.rows[Parse(id).value].tenantId == t
    requires s'.cache == s.cache - {KeyFor(t, id)}
    ensures Coherent(s', spellings)
  {
    hide Parse, KeyFor, Agrees;
    RewriteKeepsUnique(s.rows, s'.rows, Parse(id).value);
    forall key | key in s'.cache
      ensures exists t, id :: Right(s', spellings, key, t, id)
    {
      var t', id' :| Right(s, spellings, key, t', id');
      RightKept(s, s', spellings, t, id, key, t', id');
    }
  }

  /** The entry is about another row, since the entry of that row was dropped. */
  lemma RightKept(s: Store, s': Store, spellings: iset<string>, t: Uuid, id: string, key: string, t': Uuid, id': string)
    requires OneSpellingEach(spellings) && id in spellings
    requires Parse(id).Some? && Rewrites(s.rows, s'.rows, Parse(id).value)
    requires s.rows[Parse(id).value].tenantId == t
    requires s'.cache == s.cache - {KeyFor(t, id)} && key in s'.cache
    requires Right(s, spellings, key, t', id')
    ensures Right(s', spellings, key, t', id')
  {
    hide Parse, KeyFor, Agrees;
    TiedKept(s, s', key, t', id');
    assert Parse(id') == Parse(id) ==> id' == id && t' == t;
  }

  /** Rewriting only what an entry may get wrong keeps coherence without dropping anything. */
  lemma ReclassifyKeeps(s: Store, s': Store, spellings: iset<string>, u: Uuid)
    requires Coherent(s, spellings)
    requires Rewrites(s.rows, s'.rows, u) && s'.cache == s.cache
    requires forall v :: Agrees(v, s.rows[u]) ==> Agrees(v, s'.rows[u])
    ensures Coherent(s', spellings)
  {
    hide Parse, KeyFor, Agrees;
    RewriteKeepsUnique(s.rows, s'.rows, u);
    forall key | key in s'.cache
      ensures exists t, id :: Right(s', spellings, key, t, id)
    {
      var t', id' :| Right(s, spellings, key, t', id');
      TiedKept(s, s', key, t', id');
      assert Right(s', spellings, key, t', id');
    }
  }

  lemma InsertKeeps(s: Store, spellings: iset<string>, row: RequestRow)
    requires Coherent(s, spellings)
    requires Insert(s.rows, row).Ok?
    ensures Coherent(s.(rows := s.rows[row.id := row]), spellings)
  {
    hide Parse, KeyFor, Agrees;
    var s' := s.(rows := s.rows[row.id := row]);
    forall key | key in s'.cache
      ensures exists t, id :: Right(s', spellings, key, t, id)
    {
      var t', id' :| Right(s, spellings, key, t', id');
      TiedKept(s, s', key, t', id');
      assert Right(s', spellings, key, t', id');
    }
  }

  lemma AgreesItself(row: RequestRow)
    requires row.Live()
    ensures Agrees(ThroughJson(row), row)
  {
  }

  lemma FindOneKeeps(s: Store, spellings: iset<string>, t: Uuid, id: string)
    requires Coherent(s, spellings) && id in spellings
    ensures Coherent(FindOne(s, t, id).0, spellings)
  {
    hide Parse, KeyFor, Agrees, ThroughJson;
    CoherentIsSane(s, spellings);
    FindOneSane(s, t, id);
    var key := KeyFor(t, id);
    var s' := FindOne(s, t, id).0;
    if Lookup(s.cache, key, s.now).None? && FindById(s.rows, t, id).Some? {
      AgreesItself(s.rows[Parse(id).value]);
      assert Right(s', spellings, key, t, id);
      forall k | k in s'.cache
        ensures exists t', id' :: Right(s', spellings, k, t', id')
      {
        if k != key {
          var t', id' :| Right(s, spellings, k, t', id');
          assert Right(s', spellings, k, t', id');
        }
      }
    }
  }

  lemma SaveKeeps(s: Store, spellings: iset<string>, t: Uuid, id: string, row: RequestRow)
    requires Coherent(s, spellings) && OneSpellingEach(spellings) && id in spellings
    requires Parse(id) == Some(row.id) && row.id in s.rows
    requires row.tenantId == t == s.rows[row.id].tenantId && row.externalMessageId == s.rows[row.id].externalMessageId
    ensures Coherent(SaveAndDrop(s, KeyFor(t, id), row).0, spellings)
  {
    hide Parse, KeyFor;
    CoherentIsSane(s, spellings);
    SaveAndDropSane(s, KeyFor(t, id), row);
    DropKeeps(s, SaveAndDrop(s, KeyFor(t, id), row).0, spellings, t, id);
  }

  /** Every serial step, the worker's included, keeps coherence. */
  lemma StepCoherent(s: Store, op: Op, spellings: iset<string>)
    requires Coherent(s, spellings) && OneSpellingEach(spellings)
    requires SpellsId(op) ==> op.id in spellings
    ensures Coherent(Step(s, op).0, spellings)
  {
    hide Coherent, Step;
    if SpellsId(op) { ServiceCoherent(s, op, spellings); } else { OtherCoherent(s, op, spellings); }
  }

  lemma OtherCoherent(s: Store, op: Op, spellings: iset<string>)
    requires Coherent(s, spellings) && !SpellsId(op)
    ensures Coherent(Step(s, op).0, spellings)
  {
    hide Coherent, Clashes, HasExternalId, Work;
    match op
    case OpCreate(t, id, data) =>
      if Insert(s.rows, NewRow(id, t, data, s.now)).Ok? { InsertKeeps(s, spellings, NewRow(id, t, data, s.now)); }
    case OpInbound(t, id, m) =>
      var row := NewRow(id, t, FromMessage(m), s.now);
      if Insert(s.rows, row).Ok? { InsertKeeps(s, spellings, row); }
    case OpWork(t, id, a) => WorkKeeps(s, spellings, t, id, a);
    case OpTick(now) => TickKeeps(s, Step(s, op).0, spellings);
    case _ =>
  }

  /** The calls that load a row first. */
  lemma ServiceCoherent(s: Store, op: Op, spellings: iset<string>)
    requires Coherent(s, spellings) && OneSpellingEach(spellings) && SpellsId(op) && op.id in spellings
    ensures Coherent(Step(s, op).0, spellings)
  {
    hide Parse, KeyFor, Coherent, OneSpellingEach, FindOne, SaveAndDrop;
    var t, id := op.tenantId, op.id;
    CoherentIsSane(s, spellings);
    FindOneKeeps(s, spellings, t, id);
    FindOneSane(s, t, id);
    var (s1, r) := FindOne(s, t, id);
    if r.Ok? {
      match op
      case OpUpdate(_, _, dto) => SaveKeeps(s1, spellings, t, id, Edited(r.value.row, dto));
      case OpChangeStatus(_, _, target) => SaveKeeps(s1, spellings, t, id, r.value.row.(status := target));
      case OpRemove(_, _) => DropKeeps(s1, Remove(s, t, id).0, spellings, t, id);
      case _ =>
    }
  }

  lemma WorkKeeps(s: Store, spellings: iset<string>, t: Uuid, id: Uuid, a: Option<Triple>)
    requires Coherent(s, spellings)
    ensures Coherent(Work(s, t, id, a).0, spellings)
  {
    hide Parse, KeyFor;
    if Classify(a).category != UNCLASSIFIED && FindForWork(s.rows, t, id).Some? {
      NoClash(s.rows, Classified(s.rows[id], Classify(a)));
      ReclassifyKeeps(s, Work(s, t, id, a).0, spellings, id);
    }
  }

  lemma TickKeeps(s: Store, s': Store, spellings: iset<string>)
    requires Coherent(s, spellings) && s'.rows == s.rows && s'.cache == s.cache
    ensures Coherent(s', spellings)
  {
    hide Parse, KeyFor;
    forall key | key in s'.cache
      ensures exists t, id :: Right(s', spellings, key, t, id)
    {
      var t, id :| Right(s, spellings, key, t, id);
      assert Right(s', spellings, key, t, id);
    }
  }

  lemma {:induction false} RunCoherent(s: Store, ops: seq<Op>, spellings: iset<string>)
    requires Coherent(s, spellings) && OneSpellingEach(spellings) && UsesOnly(ops, spellings)
    ensures Coherent(Run(s, ops), spellings)
    decreases |ops|
  {
    hide Step;
    if ops != [] {
      assert ops[0] in ops;
      StepCoherent(s, ops[0], spellings);
      RunCoherent(Step(s, ops[0]).0, ops[1..], spellings);
    }
  }

  /** A write that the callers' spellings can hide from the cache: the row is cached under one
      spelling and edited under the other. */
  function HidingRun(u: Uuid, i: string, j: string): seq<Op> {
    [OpCreate(0, u, NewRequest("before", "", Email, None)),
     OpFindOne(0, i),
     OpUpdate(0, j, UpdateDto(Some("after"), None))]
  }

  lemma RunThree(s: Store, a: Op, b: Op, c: Op)
    ensures Run(s, [a, b, c]) == Step(Step(Step(s, a).0, b).0, c).0
  {
    hide Step;
    assert [a, b, c][1..] == [b, c] && [b, c][1..] == [c] && [c][1..] == [];
    var s1, s2 := Step(s, a).0, Step(Step(s, a).0, b).0;
    assert Run(s, [a, b, c]) == Run(s1, [b, c]);
    assert Run(s1, [b, c]) == Run(s2, [c]);
    assert Run(s2, [c]) == Run(Step(s2, c).0, []);
  }

  lemma HidingRunIncoherent(u: Uuid, i: string, j: string, spellings: iset<string>, now: Micros)
    requires Parse(i) == Some(u) && Parse(j) == Some(u) && i != j
    ensures var s := Run(Empty(now), HidingRun(u, i, j));
            && !Coherent(s, spellings)
            && u in s.rows && s.rows[u].title == "after"
            && Lookup(s.cache, KeyFor(0, i), s.now).Some? && Lookup(s.cache, KeyFor(0, i), s.now).value.title == "before"
  {
    hide Parse, KeyFor, Pagination.FindPage;
    var ops := HidingRun(u, i, j);
    var row := NewRow(u, 0, NewRequest("before", "", Email, None), now);
    var s1 := Step(Empty(now), ops[0]).0;
    assert s1 == Store(map[u := row], map[], now);
    var s2 := Step(s1, ops[1]).0;
    var entry := Entry(ThroughJson(row), now, now);
    assert s2 == Store(map[u := row], map[KeyFor(0, i) := entry], now);
    assert KeyFor(0, i) != KeyFor(0, j) by {
      if KeyFor(0, i) == KeyFor(0, j) { KeyForInjective(0, i, 0, j); }
    }
    var s3 := Step(s2, ops[2]).0;
    assert FindById(s2.rows, 0, j) == Some(row);
    assert s3.cache == map[KeyFor(0, i) := entry];
    assert s3.rows[u].title == "after";
    RunThree(Empty(now), ops[0], ops[1], ops[2]);
    if Coherent(s3, spellings) {
      RightAt(s3, spellings, 0, i);
      assert false;
    }
  }

  /** The cache is coherent in every serial run if and only if no two spellings in use denote the
      same id.  Ids are read in either case of their letters, so this is a condition on the clients. */
  lemma CoherentIff(spellings: iset<string>)
    ensures (forall now, ops :: UsesOnly(ops, spellings) ==> Coherent(Run(Empty(now), ops), spellings))
       <==> OneSpellingEach(spellings)
  {
    hide Parse, KeyFor;
    if OneSpellingEach(spellings) {
      forall now, ops | UsesOnly(ops, spellings)
        ensures Coherent(Run(Empty(now), ops), spellings)
      {
        RunCoherent(Empty(now), ops, spellings);
      }
    } else {
      var i, j :| i in spellings && j in spellings && Parse(i).Some? && Parse(i) == Parse(j) && i != j;
      HidingRunIncoherent(Parse(i).value, i, j, spellings, 0);
      assert UsesOnly(HidingRun(Parse(i).value, i, j), spellings);
    }
  }

  /** There are such spellings: an update sent with an upper-case letter in the id leaves the cached
      row, and whoever asks with the lower-case letter is told the old title for up to 300 seconds. */
  lemma UpdateCanBeHidden(now: Micros) returns (ops: seq<Op>, u: Uuid)
    ensures |ops| == 3
    ensures var s := Run(Empty(now), ops);
            && u in s.rows && s.rows[u].title == "after"
            && var hit := Lookup(s.cache, KeyFor(0, Text(u)), s.now); hit.Some? && hit.value.title == "before"
  {
    hide Parse, KeyFor, Run;
    u := 10;
    var other := TwoSpellings(u);
    ParseText(u);
    ops := HidingRun(u, Text(u), other);
    HidingRunIncoherent(u, Text(u), other, iset{}, now);
  }

  // ---------------------------------------------------------------- reading through the cache

  /** The rows whose entry a step sets from the database, or leaves dropped: a call on the row that
      loaded it from the database, or after which it is not cached. */
  ghost function Renewed(s: Store, op: Op): set<Uuid> {
    if !SpellsId(op) then {}
    else
      match FindOne(s, op.tenantId, op.id).1
      case Ok(loaded) =>
        if loaded.Miss? || KeyFor(op.tenantId, op.id) !in Step(s, op).0.cache then {loaded.row.id} else {}
      case Err(_) => {}
  }

  /** The row a step of the worker wrote. */
  ghost function Recorded(s: Store, op: Op): set<Uuid> {
    if op.OpWork? && Step(s, op).1 == WorkReply(WorkResult.Recorded) then {op.requestId} else {}
  }

  /** The rows the worker has written since their entry was last set or dropped, given those of before. */
  ghost function WrittenSince(s: Store, ops: seq<Op>, before: set<Uuid>): set<Uuid>
    decreases |ops|
  {
    if ops == [] then before
    else WrittenSince(Step(s, ops[0]).0, ops[1..], before - Renewed(s, ops[0]) + Recorded(s, ops[0]))
  }

  /** Entries about other rows than `stale` are exactly what the database would return. */
  ghost predicate ExactExcept(s: Store, stale: set<Uuid>) {
    forall t, id :: KeyFor(t, id) in s.cache && Parse(id).Some? && Parse(id).value in s.rows && Parse(id).value !in stale ==>
      s.cache[KeyFor(t, id)].value == ThroughJson(s.rows[Parse(id).value])
  }

  lemma RightIsLive(s: Store, spellings: iset<string>, t: Uuid, id: string)
    requires Right(s, spellings, KeyFor(t, id), t, id)
    ensures FindById(s.rows, t, id) == Some(s.rows[Parse(id).value])
  {
    hide Parse, KeyFor;
  }

  /** Two entries about one row are one entry, if no id has two spellings. */
  lemma OneEntryEach(s: Store, spellings: iset<string>, t: Uuid, id: string, t': Uuid, id': string)
    requires Coherent(s, spellings) && OneSpellingEach(spellings) && id in spellings
    requires Parse(id).Some? && Parse(id).value in s.rows && s.rows[Parse(id).value].tenantId == t
    requires KeyFor(t', id') in s.cache && Parse(id') == Parse(id)
    ensures id' == id && t' == t
  {
    hide Parse, KeyFor, Agrees;
    RightAt(s, spellings, t', id');
  }

  /** Rewriting a row and dropping its entry makes every remaining entry exact that was, and the row
      is no longer stale. */
  lemma DropExact(s: Store, s': Store, spellings: iset<string>, stale: set<Uuid>, t: Uuid, id: string)
    requires Coherent(s, spellings) && OneSpellingEach(spellings) && id in spellings
    requires Parse(id).Some? && Rewrites(s.rows, s'.rows, Parse(id).value)
    requires s.rows[Parse(id).value].tenantId == t
    requires s'.cache == s.cache - {KeyFor(t, id)}
    requires ExactExcept(s, stale)
    ensures ExactExcept(s', stale - {Parse(id).value})
  {
    hide Parse, KeyFor, ThroughJson, Coherent, OneSpellingEach;
    var u := Parse(id).value;
    forall t', id' | KeyFor(t', id') in s'.cache && Parse(id').Some? && Parse(id').value in s'.rows
                     && Parse(id').value !in stale - {u}
      ensures s'.cache[KeyFor(t', id')].value == ThroughJson(s'.rows[Parse(id').value])
    {
      if Parse(id') == Parse(id) {
        OneEntryEach(s, spellings, t, id, t', id');
        assert false;
      }
    }
  }

  /** Loading keeps exact entries exact, and after a miss the entry is that of the row as it is. */
  lemma LoadExact(s: Store, spellings: iset<string>, stale: set<Uuid>, t: Uuid, id: string)
    requires Coherent(s, spellings) && OneSpellingEach(spellings) && id in spellings
    requires ExactExcept(s, stale)
    ensures var (s', r) := FindOne(s, t, id);
            && ExactExcept(s', stale)
            && (r.Ok? && r.value.Miss? ==> ExactExcept(s', stale - {r.value.row.id}))
  {
    hide Parse, KeyFor, ThroughJson, Agrees, Coherent, OneSpellingEach;
    if Lookup(s.cache, KeyFor(t, id), s.now).None? && FindById(s.rows, t, id).Some? {
      SetExact(s, spellings, stale, t, id);
    }
  }

  lemma SetExact(s: Store, spellings: iset<string>, stale: set<Uuid>, t: Uuid, id: string)
    requires Coherent(s, spellings) && OneSpellingEach(spellings) && id in spellings
    requires FindById(s.rows, t, id).Some? && ExactExcept(s, stale)
    ensures var row := FindById(s.rows, t, id).value;
            ExactExcept(s.(cache := s.cache[KeyFor(t, id) := Entry(ThroughJson(row), s.now, s.now)]), stale - {row.id})
  {
    hide Parse, KeyFor, ThroughJson, Coherent, OneSpellingEach;
    var row := FindById(s.rows, t, id).value;
    var s' := s.(cache := s.cache[KeyFor(t, id) := Entry(ThroughJson(row), s.now, s.now)]);
    forall t', id' | KeyFor(t', id') in s'.cache && Parse(id').Some? && Parse(id').value in s'.rows
                     && Parse(id').value !in stale - {row.id}
      ensures s'.cache[KeyFor(t', id')].value == ThroughJson(s'.rows[Parse(id').value])
    {
      if KeyFor(t', id') == KeyFor(t, id) {
        KeyForInjective(t', id', t, id);
      } else if Parse(id') == Parse(id) {
        OneEntryEach(s, spellings, t, id, t', id');
        assert false;
      }
    }
  }

  lemma InsertExact(s: Store, spellings: iset<string>, stale: set<Uuid>, row: RequestRow)
    requires Coherent(s, spellings) && ExactExcept(s, stale) && row.id !in s.rows
    ensures ExactExcept(s.(rows := s.rows[row.id := row]), stale)
  {
    hide Parse, KeyFor, ThroughJson, Agrees;
    forall t, id | KeyFor(t, id) in s.cache && Parse(id).Some?
      ensures Parse(id).value in s.rows
    {
      RightAt(s, spellings, t, id);
    }
  }

  lemma StepExact(s: Store, op: Op, spellings: iset<string>, stale: set<Uuid>)
    requires Coherent(s, spellings) && OneSpellingEach(spellings)
    requires SpellsId(op) ==> op.id in spellings
    requires ExactExcept(s, stale)
    ensures ExactExcept(Step(s, op).0, stale - Renewed(s, op) + Recorded(s, op))
  {
    hide ExactExcept;
    if SpellsId(op) {
      hide Step, Renewed;
      ServiceExact(s, op, spellings, stale);
      assert stale - Renewed(s, op) + {} == stale - Renewed(s, op);
    } else {
      hide Step;
      OtherExact(s, op, spellings, stale);
      assert stale - {} == stale;
    }
  }

  lemma OtherExact(s: Store, op: Op, spellings: iset<string>, stale: set<Uuid>)
    requires Coherent(s, spellings) && !SpellsId(op) && ExactExcept(s, stale)
    ensures ExactExcept(Step(s, op).0, stale + Recorded(s, op))
  {
    hide Parse, KeyFor, Pagination.FindPage, ThroughJson, Agrees, Coherent, Clashes, HasExternalId;
    match op
    case OpCreate(t, id, data) =>
      if id !in s.rows { InsertExact(s, spellings, stale, NewRow(id, t, data, s.now)); }
    case OpInbound(t, id, m) =>
      if id !in s.rows { InsertExact(s, spellings, stale, NewRow(id, t, FromMessage(m), s.now)); }
    case _ =>
  }

  lemma ExactWith(s: Store, small: set<Uuid>, big: set<Uuid>)
    requires ExactExcept(s, small) && small <= big
    ensures ExactExcept(s, big)
  {
    hide Parse, KeyFor, ThroughJson;
  }

  /** The calls that load a row first. */
  lemma ServiceExact(s: Store, op: Op, spellings: iset<string>, stale: set<Uuid>)
    requires SpellsId(op)
    requires Coherent(s, spellings) && OneSpellingEach(spellings) && op.id in spellings
    requires ExactExcept(s, stale)
    ensures ExactExcept(Step(s, op).0, stale - Renewed(s, op))
  {
    hide Parse, KeyFor, ThroughJson, Agrees, FindOne, SaveAndDrop, ExactExcept, Coherent, OneSpellingEach, SoftRemove;
    var t, id := op.tenantId, op.id;
    CoherentIsSane(s, spellings);
    FindOneKeeps(s, spellings, t, id);
    FindOneSane(s, t, id);
    LoadExact(s, spellings, stale, t, id);
    var (s1, r) := FindOne(s, t, id);
    if r.Err? {
      assert Step(s, op).0 == s1 && stale - {} == stale;
    } else if op.OpFindOne? || (op.OpChangeStatus? && !(r.value.Miss? && LegalEdge(r.value.row.status, op.target))) {
      assert Step(s, op).0 == s1;
      assert stale - {} == stale;
    } else {
      WriteExact(s1, op, r.value, spellings, stale);
      ExactWith(Step(s, op).0, stale - {r.value.row.id}, stale - Renewed(s, op));
    }
  }

  /** What follows the load in a call that commits. */
  lemma WriteExact(s: Store, op: Op, loaded: Loaded, spellings: iset<string>, stale: set<Uuid>)
    requires Coherent(s, spellings) && OneSpellingEach(spellings) && ExactExcept(s, stale)
    requires op.OpUpdate? || op.OpChangeStatus? || op.OpRemove?
    requires op.id in spellings && Parse(op.id) == Some(loaded.row.id) && loaded.row.id in s.rows
    requires loaded.row.tenantId == op.tenantId == s.rows[loaded.row.id].tenantId
    requires loaded.row.externalMessageId == s.rows[loaded.row.id].externalMessageId
    ensures var key, row := KeyFor(op.tenantId, op.id), loaded.row;
            ExactExcept(match op
                        case OpUpdate(_, _, dto) => SaveAndDrop(s, key, Edited(row, dto)).0
                        case OpChangeStatus(_, _, target) => SaveAndDrop(s, key, row.(status := target)).0
                        case _ => s.(rows := SoftRemove(s.rows, row.id, s.now), cache := s.cache - {key}),
                        stale - {row.id})
  {
    hide Parse, KeyFor, ThroughJson, ExactExcept, Coherent, OneSpellingEach, SaveAndDrop;
    var t, id, row := op.tenantId, op.id, loaded.row;
    CoherentIsSane(s, spellings);
    match op
    case OpUpdate(_, _, dto) => SaveExact(s, spellings, stale, t, id, Edited(row, dto));
    case OpChangeStatus(_, _, target) => SaveExact(s, spellings, stale, t, id, row.(status := target));
    case OpRemove(_, _) =>
      DropExact(s, s.(rows := SoftRemove(s.rows, row.id, s.now), cache := s.cache - {KeyFor(t, id)}), spellings, stale, t, id);
  }

  lemma SaveExact(s: Store, spellings: iset<string>, stale: set<Uuid>, t: Uuid, id: string, row: RequestRow)
    requires Coherent(s, spellings) && OneSpellingEach(spellings) && id in spellings
    requires Parse(id) == Some(row.id) && row.id in s.rows
    requires row.tenantId == t == s.rows[row.id].tenantId && row.externalMessageId == s.rows[row.id].externalMessageId
    requires ExactExcept(s, stale)
    ensures ExactExcept(SaveAndDrop(s, KeyFor(t, id), row).0, stale - {row.id})
  {
    hide Parse, KeyFor, ExactExcept, Coherent, OneSpellingEach;
    CoherentIsSane(s, spellings);
    SaveAndDropSane(s, KeyFor(t, id), row);
    DropExact(s, SaveAndDrop(s, KeyFor(t, id), row).0, spellings, stale, t, id);
  }

  /** Over serial runs, every entry is exactly what the database would return, unless the worker has
      written the row since the entry was set. */
  lemma {:induction false} RunExact(s: Store, ops: seq<Op>, spellings: iset<string>, stale: set<Uuid>)
    requires Coherent(s, spellings) && OneSpellingEach(spellings) && UsesOnly(ops, spellings)
    requires ExactExcept(s, stale)
    ensures ExactExcept(Run(s, ops), WrittenSince(s, ops, stale))
    decreases |ops|
  {
    hide Step, ThroughJson, Parse, KeyFor, Renewed, Recorded, ExactExcept;
    if ops != [] {
      assert ops[0] in ops;
      StepCoherent(s, ops[0], spellings);
      StepExact(s, ops[0], spellings, stale);
      RunExact(Step(s, ops[0]).0, ops[1..], spellings, stale - Renewed(s, ops[0]) + Recorded(s, ops[0]));
    }
  }

  /** `findOne` finds what the database lookup finds: nothing when that finds nothing; otherwise the row
      itself, or on a hit one that agrees with it, and in every column if it is not stale, the dates cut to
      the millisecond. */
  ghost predicate FindsLookup(s: Store, t: Uuid, id: string, stale: set<Uuid>) {
    var r := FindOne(s, t, id).1;
    match FindById(s.rows, t, id)
    case None => r == Err(NotFound)
    case Some(row) =>
      && r.Ok?
      && (r.value.Miss? ==> r.value.row == row)
      && (r.value.Hit? ==> Agrees(r.value.row, row))
      && (r.value.Hit? && row.id !in stale ==> JsonImage(r.value.row, row))
  }

  lemma FindOneIsLookup(s: Store, spellings: iset<string>, t: Uuid, id: string, stale: set<Uuid>)
    requires Coherent(s, spellings) && id in spellings
    requires ExactExcept(s, stale)
    ensures FindsLookup(s, t, id, stale)
  {
    hide Parse, KeyFor, Agrees, ThroughJson, JsonImage;
    if Lookup(s.cache, KeyFor(t, id), s.now).Some? {
      RightAt(s, spellings, t, id);
      RightIsLive(s, spellings, t, id);
      ImageIsJson(s.cache[KeyFor(t, id)].value, s.rows[Parse(id).value]);
    }
  }

  /** Whoever looks again within 300 seconds is shown the row that was found, every column of it, with the
      dates cut to the millisecond; whoever looks later reads it anew. */
  lemma LookAgain(s: Store, t: Uuid, id: string, now: Micros, row: RequestRow)
    requires FindOne(s, t, id).1 == Ok(Miss(row)) && s.now <= now
    ensures var s' := Step(FindOne(s, t, id).0, OpTick(now)).0;
            var again := FindOne(s', t, id).1;
            if now < s.now + 300_000_000 then
              && again.Ok? && again.value.Hit?
              && var v := again.value.row;
                 && v.id == row.id && v.tenantId == row.tenantId
                 && v.title == row.title && v.body == row.body
                 && v.channel == row.channel && v.status == row.status
                 && v.category == row.category && v.urgency == row.urgency && v.sentiment == row.sentiment
                 && v.externalMessageId == row.externalMessageId
                 && v.createdAt % 1000 == 0 && 0 <= row.createdAt - v.createdAt < 1000
                 && v.updatedAt % 1000 == 0 && 0 <= row.updatedAt - v.updatedAt < 1000
                 && v.deletedAt == None == row.deletedAt
            else again == Ok(Miss(row))
  {
    hide Parse, KeyFor, ThroughJson;
    ImageIsJson(ThroughJson(row), row);
  }

  lemma EmptyExact(now: Micros)
    ensures ExactExcept(Empty(now), {})
  {
  }

  lemma EmptyCoherent(now: Micros, spellings: iset<string>)
    ensures Coherent(Empty(now), spellings)
  {
  }
}
