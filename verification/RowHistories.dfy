/** How a row develops over serial runs: its statuses, and its classification. */
module RowHistories {
  import opened Wrappers
  import opened Calendar
  import opened Uuids
  import opened Requests
  import opened RequestEntities
  import opened Caching
  import opened RequestStore
  import opened SerialRuns
  import opened Coherence
  import opened StaleEntries
  import Pagination

  // ---------------------------------------------------------------- statuses

  /** `changeStatus` commits exactly when the row is not in the cache, is found, and the edge is legal. */
  lemma ChangeStatusCommitsIff(s: Store, t: Uuid, id: string, target: Status)
    requires Sane(s)
    ensures var row := FindById(s.rows, t, id);
            ChangeStatus(s, t, id, target).1.Ok? <==>
              Lookup(s.cache, KeyFor(t, id), s.now).None? && row.Some? && LegalEdge(row.value.status, target)
  {
    hide Parse, KeyFor;
    FindOneSane(s, t, id);
    var (s1, r) := FindOne(s, t, id);
    if r.Ok? {
      SaveAndDropSane(s1, KeyFor(t, id), r.value.row.(status := target));
    }
  }

  /** From one table to the next, a row's status stays, or moves along a legal edge if `moves`; new
      rows are OPEN. */
  predicate StatusMoves(rows: Table, rows': Table, u: Uuid, moves: Option<Status>) {
    && (u in rows ==> u in rows')
    && (u in rows ==>
          || rows'[u].status == rows[u].status
          || (moves.Some? && rows'[u].status == moves.value && LegalEdge(rows[u].status, moves.value)))
    && (u !in rows && u in rows' ==> rows'[u].status == Open)
  }

  lemma StatusUnderUpdate(s: Store, spellings: iset<string>, t: Uuid, id: string, dto: UpdateDto, u: Uuid)
    requires Coherent(s, spellings) && id in spellings
    ensures StatusMoves(s.rows, Update(s, t, id, dto).0.rows, u, None)
  {
    hide Parse, KeyFor, Update, FindOne;
    CoherentIsSane(s, spellings);
    LoadedStatus(s, spellings, t, id);
    UpdateEffect(s, t, id, dto);
  }

  lemma StatusUnderChange(s: Store, spellings: iset<string>, t: Uuid, id: string, target: Status, u: Uuid)
    requires Coherent(s, spellings) && id in spellings
    ensures StatusMoves(s.rows, ChangeStatus(s, t, id, target).0.rows, u, Some(target))
  {
    hide Parse, KeyFor, ChangeStatus, FindOne;
    CoherentIsSane(s, spellings);
    LoadedStatus(s, spellings, t, id);
    ChangeStatusEffect(s, t, id, target);
  }

  lemma StatusUnderWork(s: Store, t: Uuid, id: Uuid, a: Option<Triple>, u: Uuid)
    requires Sane(s)
    ensures StatusMoves(s.rows, Work(s, t, id, a).0.rows, u, None)
  {
    if FindForWork(s.rows, t, id).Some? {
      NoClash(s.rows, Classified(s.rows[id], Classify(a)));
    }
  }

  /** A serial step moves a row's status along a legal edge or not at all, and only `changeStatus`
      moves it; new rows are OPEN. */
  lemma StatusStep(s: Store, op: Op, spellings: iset<string>, u: Uuid)
    requires Coherent(s, spellings) && OneSpellingEach(spellings)
    requires SpellsId(op) ==> op.id in spellings
    ensures StatusMoves(s.rows, Step(s, op).0.rows, u, if op.OpChangeStatus? then Some(op.target) else None)
  {
    hide Parse, KeyFor, Pagination.FindPage;
    CoherentIsSane(s, spellings);
    match op
    case OpUpdate(t, id, dto) =>
      hide Update, StatusMoves;
      StatusUnderUpdate(s, spellings, t, id, dto, u);
    case OpChangeStatus(t, id, target) =>
      hide ChangeStatus, StatusMoves;
      StatusUnderChange(s, spellings, t, id, target, u);
    case OpRemove(t, id) => FindOneSane(s, t, id);
    case OpFindOne(t, id) => FindOneSane(s, t, id);
    case OpWork(t, id, a) =>
      hide Work, StatusMoves;
      StatusUnderWork(s, t, id, a, u);
    case _ =>
  }

  lemma LoadedStatus(s: Store, spellings: iset<string>, t: Uuid, id: string)
    requires Coherent(s, spellings) && id in spellings
    ensures var r := FindOne(s, t, id).1;
            r.Ok? ==> r.value.row.id in s.rows && r.value.row.status == s.rows[r.value.row.id].status
  {
    hide Parse, KeyFor;
    if Lookup(s.cache, KeyFor(t, id), s.now).Some? {
      RightAt(s, spellings, t, id);
    }
  }

  /** The status of a row after each step of a run, from when it exists. */
  ghost function StatusHistory(s: Store, ops: seq<Op>, u: Uuid): seq<Status>
    decreases |ops|
  {
    (if u in s.rows then [s.rows[u].status] else [])
    + if ops == [] then [] else StatusHistory(Step(s, ops[0]).0, ops[1..], u)
  }

  lemma {:induction false} HistoryChains(s: Store, ops: seq<Op>, spellings: iset<string>, u: Uuid)
    requires Coherent(s, spellings) && OneSpellingEach(spellings) && UsesOnly(ops, spellings)
    ensures var h := StatusHistory(s, ops, u);
            && (h != [] ==> h[0] == if u in s.rows then s.rows[u].status else Open)
            && (u in s.rows ==> h != [])
            && forall i :: 0 < i < |h| ==> h[i] == h[i - 1] || LegalEdge(h[i - 1], h[i])
    decreases |ops|
  {
    hide Step;
    if ops != [] {
      assert ops[0] in ops;
      StatusStep(s, ops[0], spellings, u);
      StepCoherent(s, ops[0], spellings);
      HistoryChains(Step(s, ops[0]).0, ops[1..], spellings, u);
    }
  }

  /** In every serial run in which no id is spelled in two ways, a row starts OPEN, follows only legal
      edges, and with r reopenings changes its status at most 4r + 3 times. */
  lemma StatusHistoryLegal(now: Micros, ops: seq<Op>, spellings: iset<string>, u: Uuid)
    requires OneSpellingEach(spellings) && UsesOnly(ops, spellings)
    ensures var h := StatusHistory(Empty(now), ops, u);
            LegalHistory(h) && Changes(h) <= 4 * Reopenings(h) + 3
  {
    hide Step;
    HistoryChains(Empty(now), ops, spellings, u);
    var h := StatusHistory(Empty(now), ops, u);
    if h != [] {
      ChangesBounded(h);
    }
  }

  // ---------------------------------------------------------------- ... and an illegal history

  function Blank(u: Uuid, now: Micros): RequestRow {
    NewRow(u, 0, NewRequest("", "", Email, None), now)
  }

  /** The row alone, with its first version in the cache under a spelling. */
  function OneRow(row: RequestRow, i: string, now: Micros): Store {
    Store(map[row.id := row], map[KeyFor(0, i) := Entry(ThroughJson(Blank(row.id, now)), now, now)], now)
  }

  function CreateAndLook(u: Uuid, i: string): seq<Op> {
    [OpCreate(0, u, NewRequest("", "", Email, None)), OpFindOne(0, i)]
  }

  lemma CreateStep(u: Uuid, now: Micros)
    ensures Step(Empty(now), OpCreate(0, u, NewRequest("", "", Email, None))).0 == Store(map[u := Blank(u, now)], map[], now)
  {
    hide Pagination.FindPage;
  }

  lemma LookStep(u: Uuid, i: string, now: Micros)
    requires Parse(i) == Some(u)
    ensures Step(Store(map[u := Blank(u, now)], map[], now), OpFindOne(0, i)).0 == OneRow(Blank(u, now), i, now)
  {
    hide Parse, KeyFor, ThroughJson, Pagination.FindPage;
    assert FindById(map[u := Blank(u, now)], 0, i) == Some(Blank(u, now));
  }

  /** A status change under another spelling than the cached one. */
  lemma HiddenMove(u: Uuid, i: string, j: string, now: Micros)
    requires Parse(i) == Some(u) && Parse(j) == Some(u) && i != j
    ensures Step(OneRow(Blank(u, now), i, now), OpChangeStatus(0, j, InProgress)).0
         == OneRow(Blank(u, now).(status := InProgress), i, now)
  {
    hide Parse, KeyFor, ThroughJson, Pagination.FindPage;
    var s, row := OneRow(Blank(u, now), i, now), Blank(u, now);
    assert KeyFor(0, i) != KeyFor(0, j) by {
      if KeyFor(0, i) == KeyFor(0, j) { KeyForInjective(0, i, 0, j); }
    }
    assert FindById(s.rows, 0, j) == Some(row);
    var moved := row.(status := InProgress);
    assert Stamped(s.rows, moved, now) == moved;
    assert (s.cache[KeyFor(0, j) := Entry(ThroughJson(row), now, now)] - {KeyFor(0, j)}) == s.cache;
    assert s.rows[u := moved] == map[u := moved];
  }

  /** An update without content through the copy cached first writes that copy back. */
  lemma StaleUpdate(u: Uuid, i: string, row: RequestRow, now: Micros)
    requires Parse(i) == Some(u) && row.id == u && row.externalMessageId.None?
    ensures var rows := Step(OneRow(row, i, now), OpUpdate(0, i, UpdateDto(None, None))).0.rows;
            u in rows && rows[u].status == Open && rows[u].category.None?
  {
    hide Parse, KeyFor, Pagination.FindPage;
  }

  /** The row is cached under one spelling, moved on under the other, and then edited through the cached
      copy, which moves it back without a reopening. */
  function StaleStatusRun(u: Uuid, i: string, j: string): seq<Op> {
    CreateAndLook(u, i) + [OpChangeStatus(0, j, InProgress), OpUpdate(0, i, UpdateDto(None, None))]
  }

  lemma HistoryNext(s: Store, op: Op, ops: seq<Op>, u: Uuid)
    ensures StatusHistory(s, [op] + ops, u)
         == (if u in s.rows then [s.rows[u].status] else []) + StatusHistory(Step(s, op).0, ops, u)
  {
    hide Step;
    assert ([op] + ops)[1..] == ops;
  }

  lemma StaleStatusIllegal(u: Uuid, i: string, j: string, now: Micros)
    requires Parse(i) == Some(u) && Parse(j) == Some(u) && i != j
    ensures StatusHistory(Empty(now), StaleStatusRun(u, i, j), u) == [Open, Open, InProgress, Open]
    ensures !LegalHistory(StatusHistory(Empty(now), StaleStatusRun(u, i, j), u))
  {
    hide Parse, KeyFor, Step;
    var create, look := CreateAndLook(u, i)[0], CreateAndLook(u, i)[1];
    var move, edit := OpChangeStatus(0, j, InProgress), OpUpdate(0, i, UpdateDto(None, None));
    var moved := Blank(u, now).(status := InProgress);
    CreateStep(u, now);
    LookStep(u, i, now);
    HiddenMove(u, i, j, now);
    StaleUpdate(u, i, moved, now);
    HistoryNext(OneRow(moved, i, now), edit, [], u);
    HistoryNext(OneRow(Blank(u, now), i, now), move, [edit], u);
    HistoryNext(Store(map[u := Blank(u, now)], map[], now), look, [move, edit], u);
    HistoryNext(Empty(now), create, [look, move, edit], u);
    assert StaleStatusRun(u, i, j) == [create] + [look, move, edit];
    assert [edit] + [] == [edit] && [move] + [edit] == [move, edit] && [look] + [move, edit] == [look, move, edit];
    var h := StatusHistory(Empty(now), StaleStatusRun(u, i, j), u);
    assert h[3] == Open && h[2] == InProgress;
  }

  /** All serial runs keep to the status graph if and only if no two spellings in use denote one id. */
  lemma StatusLegalIff(spellings: iset<string>)
    ensures (forall now, ops, u :: UsesOnly(ops, spellings) ==> LegalHistory(StatusHistory(Empty(now), ops, u)))
       <==> OneSpellingEach(spellings)
  {
    hide Parse, KeyFor, LegalHistory, StatusHistory;
    if OneSpellingEach(spellings) {
      forall now, ops, u | UsesOnly(ops, spellings)
        ensures LegalHistory(StatusHistory(Empty(now), ops, u))
      {
        StatusHistoryLegal(now, ops, spellings, u);
      }
    } else {
      var i, j :| i in spellings && j in spellings && Parse(i).Some? && Parse(i) == Parse(j) && i != j;
      var u := Parse(i).value;
      StaleStatusIllegal(u, i, j, 0);
      StaleRunUses(u, i, j, spellings);
    }
  }

  lemma StaleRunUses(u: Uuid, i: string, j: string, spellings: iset<string>)
    requires i in spellings && j in spellings
    ensures UsesOnly(StaleStatusRun(u, i, j), spellings)
  {
  }

  /** There are such spellings: a request goes back from IN_PROGRESS to OPEN without being reopened. */
  lemma StatusCanGoBack(now: Micros) returns (ops: seq<Op>, u: Uuid)
    ensures StatusHistory(Empty(now), ops, u) == [Open, Open, InProgress, Open]
    ensures !LegalHistory(StatusHistory(Empty(now), ops, u))
  {
    hide Parse, StatusHistory, LegalHistory;
    u := 10;
    var other := TwoSpellings(u);
    ParseText(u);
    ops := StaleStatusRun(u, Text(u), other);
    StaleStatusIllegal(u, Text(u), other, now);
  }

  /** A legal change of an OPEN request is refused when the request has just been looked at. */
  lemma ChangeCanBeRefused(u: Uuid, i: string, now: Micros)
    requires Parse(i) == Some(u)
    ensures var s := Run(Empty(now), CreateAndLook(u, i));
            && FindById(s.rows, 0, i).Some? && LegalEdge(FindById(s.rows, 0, i).value.status, InProgress)
            && ChangeStatus(s, 0, i, InProgress).1 == Err(BadTransition)
  {
    hide Parse, KeyFor;
    AfterLook(u, i, now);
  }

  lemma AfterLook(u: Uuid, i: string, now: Micros)
    requires Parse(i) == Some(u)
    ensures Run(Empty(now), CreateAndLook(u, i)) == OneRow(Blank(u, now), i, now)
  {
    hide Parse, KeyFor, Step;
    CreateStep(u, now);
    LookStep(u, i, now);
    RunTwo(Empty(now), CreateAndLook(u, i)[0], CreateAndLook(u, i)[1]);
  }

  lemma RunTwo(s: Store, a: Op, b: Op)
    ensures Run(s, [a, b]) == Step(Step(s, a).0, b).0
  {
    hide Step;
    assert [a, b][1..] == [b] && [b][1..] == [];
    assert Run(s, [a, b]) == Run(Step(s, a).0, [b]);
    assert Run(Step(s, a).0, [b]) == Run(Step(Step(s, a).0, b).0, []);
  }

  // ---------------------------------------------------------------- classifications

  /** All three parts of the classification are there, with a real category, or none is. */
  predicate Whole(row: RequestRow) {
    || (row.category.None? && row.urgency.None? && row.sentiment.None?)
    || (row.category.Some? && row.urgency.Some? && row.sentiment.Some? && row.category.value != UNCLASSIFIED)
  }

  ghost predicate AllWhole(s: Store) {
    && (forall u :: u in s.rows ==> Whole(s.rows[u]))
    && (forall key :: key in s.cache ==> Whole(s.cache[key].value))
  }

  lemma StepWhole(s: Store, op: Op)
    requires AllWhole(s)
    ensures AllWhole(Step(s, op).0)
  {
    hide AllWhole, Step;
    if SpellsId(op) { ServiceWhole(s, op); } else { OtherWhole(s, op); }
  }

  lemma OtherWhole(s: Store, op: Op)
    requires AllWhole(s) && !SpellsId(op)
    ensures AllWhole(Step(s, op).0)
  {
    hide KeyFor, Pagination.FindPage, Clashes, HasExternalId;
  }

  lemma ServiceWhole(s: Store, op: Op)
    requires AllWhole(s) && SpellsId(op)
    ensures AllWhole(Step(s, op).0)
  {
    hide Parse, KeyFor, FindOne, Whole;
    LoadWhole(s, op.tenantId, op.id);
    var (s1, r) := FindOne(s, op.tenantId, op.id);
    if r.Ok? {
      match op
      case OpUpdate(t, id, dto) => EditedWhole(s1.rows, r.value.row, dto, s1.now);
      case OpChangeStatus(t, id, target) => MovedWhole(s1.rows, r.value.row, target, s1.now);
      case OpRemove(t, id) => if r.value.row.id in s1.rows { DeletedWhole(s1.rows[r.value.row.id], s1.now); }
      case _ =>
    }
  }

  lemma MovedWhole(rows: Table, row: RequestRow, target: Status, now: Micros)
    requires Whole(row)
    ensures Whole(Stamped(rows, row.(status := target), now))
  {
  }

  lemma DeletedWhole(row: RequestRow, now: Micros)
    requires Whole(row)
    ensures Whole(SoftDeleted(row, now))
  {
  }

  lemma EditedWhole(rows: Table, row: RequestRow, dto: UpdateDto, now: Micros)
    requires Whole(row)
    ensures Whole(Stamped(rows, Edited(row, dto), now))
  {
  }

  lemma LoadWhole(s: Store, t: Uuid, id: string)
    requires AllWhole(s)
    ensures AllWhole(FindOne(s, t, id).0)
    ensures FindOne(s, t, id).1.Ok? ==> Whole(FindOne(s, t, id).1.value.row)
  {
    hide Parse, KeyFor;
  }

  /** In every serial run every row, stored or cached, has a whole classification or none. */
  lemma {:induction false} RunWhole(s: Store, ops: seq<Op>)
    requires AllWhole(s)
    ensures AllWhole(Run(s, ops))
    decreases |ops|
  {
    hide Step;
    if ops != [] {
      StepWhole(s, ops[0]);
      RunWhole(Step(s, ops[0]).0, ops[1..]);
    }
  }

  /** The edit loads a cached copy of row `u` that has no classification. */
  predicate EditsUnclassifiedCopy(s: Store, op: Op, u: Uuid) {
    && op.OpUpdate?
    && var hit := Lookup(s.cache, KeyFor(op.tenantId, op.id), s.now);
       hit.Some? && hit.value.id == u && hit.value.category.None?
  }

  /** A classified row loses its classification in exactly one way: through an `update` that hits a
      cached copy without one. */
  lemma ClassificationLostIff(s: Store, op: Op, u: Uuid)
    requires Sane(s)
    requires u in s.rows && s.rows[u].category.Some?
    ensures u in Step(s, op).0.rows
    ensures Step(s, op).0.rows[u].category.None? <==> EditsUnclassifiedCopy(s, op, u)
  {
    hide Parse, KeyFor, Pagination.FindPage;
    match op
    case OpUpdate(t, id, dto) =>
      hide Update;
      LostByUpdate(s, t, id, dto, u);
    case OpChangeStatus(t, id, target) =>
      hide ChangeStatus;
      LostByStatus(s, t, id, target, u);
    case _ =>
      hide Step;
      OthersKeep(s, op, u);
  }

  lemma OthersKeep(s: Store, op: Op, u: Uuid)
    requires Sane(s) && !op.OpUpdate? && !op.OpChangeStatus?
    requires u in s.rows && s.rows[u].category.Some?
    ensures u in Step(s, op).0.rows && Step(s, op).0.rows[u].category.Some?
  {
    hide Parse, KeyFor, Pagination.FindPage, FindOne, Clashes, HasExternalId;
    match op
    case OpRemove(t, id) => FindOneSane(s, t, id);
    case OpFindOne(t, id) => FindOneSane(s, t, id);
    case _ =>
  }

  lemma LostByUpdate(s: Store, t: Uuid, id: string, dto: UpdateDto, u: Uuid)
    requires Sane(s)
    requires u in s.rows && s.rows[u].category.Some?
    ensures var rows' := Update(s, t, id, dto).0.rows;
            u in rows' && (rows'[u].category.None? <==> EditsUnclassifiedCopy(s, OpUpdate(t, id, dto), u))
  {
    hide Parse, KeyFor, Update;
    UpdateEffect(s, t, id, dto);
  }

  lemma LostByStatus(s: Store, t: Uuid, id: string, target: Status, u: Uuid)
    requires Sane(s)
    requires u in s.rows && s.rows[u].category.Some?
    ensures var rows' := ChangeStatus(s, t, id, target).0.rows;
            u in rows' && rows'[u].category.Some?
  {
    hide Parse, KeyFor, ChangeStatus;
    ChangeStatusEffect(s, t, id, target);
  }

  /** Such a copy was cached before the worker's write: after a serial run in which no id is spelled in
      two ways, an `update` can take the classification of a row only if the worker has written the row
      under the very entry that the update hits. */
  lemma LostOnlyIfStale(now: Micros, ops: seq<Op>, spellings: iset<string>, op: Op, u: Uuid) returns (n: nat)
    requires OneSpellingEach(spellings) && UsesOnly(ops, spellings)
    requires var s := Run(Empty(now), ops);
             && u in s.rows && s.rows[u].category.Some?
             && u in Step(s, op).0.rows && Step(s, op).0.rows[u].category.None?
    ensures op.OpUpdate?
    ensures var s, key := Run(Empty(now), ops), KeyFor(op.tenantId, op.id);
            key in s.cache && WrittenUnder(Empty(now), ops, n, key, u, s.cache[key])
  {
    hide Parse, KeyFor, Step, Run, WrittenUnder, Stale;
    var s := Run(Empty(now), ops);
    EmptyCoherent(now, spellings);
    RunCoherent(Empty(now), ops, spellings);
    CoherentIsSane(s, spellings);
    ClassificationLostIff(s, op, u);
    StaleIfUnclassified(s, spellings, op, u);
    var key := KeyFor(op.tenantId, op.id);
    StaleBecause(Empty(now), ops, spellings, op.tenantId, op.id, u, s.cache[key]);
    NothingStale(now, key, u, s.cache[key]);
    n :| WrittenUnder(Empty(now), ops, n, key, u, s.cache[key]);
  }

  lemma NothingStale(now: Micros, key: string, u: Uuid, entry: Entry)
    ensures !Stale(Empty(now), key, u, entry)
  {
  }

  lemma StaleIfUnclassified(s: Store, spellings: iset<string>, op: Op, u: Uuid)
    requires Coherent(s, spellings)
    requires u in s.rows && s.rows[u].category.Some? && EditsUnclassifiedCopy(s, op, u)
    ensures var key := KeyFor(op.tenantId, op.id);
            && op.id in spellings && Parse(op.id) == Some(u)
            && key in s.cache && Stale(s, key, u, s.cache[key])
  {
    hide Parse, KeyFor, Agrees;
    RightAt(s, spellings, op.tenantId, op.id);
  }

  /** It happens: a request is looked at, then classified, then edited within five minutes. */
  lemma ClassificationCanBeLost(u: Uuid, i: string, now: Micros, t: Triple)
    requires Parse(i) == Some(u) && t.category != UNCLASSIFIED
    ensures var s := Run(Empty(now), CreateAndLook(u, i));
            var classified := Step(s, OpWork(0, u, Some(t))).0;
            var edited := Step(classified, OpUpdate(0, i, UpdateDto(None, None))).0;
            && u in classified.rows && classified.rows[u].category == Some(t.category)
            && u in edited.rows && edited.rows[u].category.None?
  {
    hide Parse, KeyFor, Run;
    AfterLook(u, i, now);
    var row := Classified(Blank(u, now), t);
    ClassifyStep(u, i, now, t);
    hide Step;
    StaleUpdate(u, i, row, now);
  }

  lemma ClassifyStep(u: Uuid, i: string, now: Micros, t: Triple)
    requires t.category != UNCLASSIFIED
    ensures Step(OneRow(Blank(u, now), i, now), OpWork(0, u, Some(t))).0 == OneRow(Classified(Blank(u, now), t), i, now)
  {
    hide Parse, KeyFor, ThroughJson, Pagination.FindPage;
    var row := Classified(Blank(u, now), t);
    assert Stamped(map[u := Blank(u, now)], row, now) == row;
    assert map[u := Blank(u, now)][u := row] == map[u := row];
  }
}
