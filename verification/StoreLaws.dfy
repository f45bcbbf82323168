/** What the calls of the request services leave in the columns of the rows, and what removal means for
    every later lookup. */
module StoreLaws {
  import opened Wrappers
  import opened Calendar
  import opened Uuids
  import opened Requests
  import opened RequestEntities
  import opened Caching
  import opened RequestStore
  import opened SerialRuns
  import opened Coherence
  import Pagination
  import ListingLaws

  // ---------------------------------------------------------------- new rows

  /** A row as the database first stores it: open, unclassified, not deleted, both times now. */
  predicate FreshRow(row: RequestRow, id: Uuid, tenantId: Uuid, now: Micros) {
    && row.id == id && row.tenantId == tenantId
    && row.status == Open
    && row.category == None && row.urgency == None && row.sentiment == None
    && row.createdAt == now && row.updatedAt == now && row.deletedAt == None
  }

  /** `create` adds one row, with the caller's title, body, channel and external message id, if the id is
      new and nobody has that external message id; otherwise it changes nothing. */
  lemma CreateStores(s: Store, t: Uuid, newId: Uuid, data: NewRequest)
    ensures var (s', r) := Create(s, t, newId, data);
            && (r.Ok? <==> newId !in s.rows
                           && (data.externalMessageId == None
                               || forall u <- s.rows :: s.rows[u].externalMessageId != data.externalMessageId))
            && (r.Ok? ==> && s' == s.(rows := s.rows[newId := r.value])
                          && FreshRow(r.value, newId, t, s.now)
                          && r.value.title == data.title && r.value.body == data.body
                          && r.value.channel == data.channel && r.value.externalMessageId == data.externalMessageId)
            && (r.Err? ==> s' == s && r.error == UniqueViolation)
  {
  }

  /** What `handleInbound` stores of a message: who sent it in the title, the text in the body. */
  predicate FromSender(row: RequestRow, m: Message) {
    && row.title == "Inbound from " + m.sender
    && row.body == m.text
    && row.channel == m.channel
    && row.externalMessageId == Some(m.externalMessageId)
  }

  /** `handleInbound` creates exactly one row for a message that the tenant has no row for, and names it;
      for any other message it names the tenant's row and changes nothing.  It fails exactly if the message id
      is another tenant's. */
  lemma InboundStores(s: Store, t: Uuid, newId: Uuid, m: Message)
    ensures var (s', r) := HandleInbound(s, t, newId, m);
            && (r.Ok? && r.value.created ==>
                  && r.value.requestId == newId && newId !in s.rows && newId in s'.rows
                  && s' == s.(rows := s.rows[newId := s'.rows[newId]])
                  && FreshRow(s'.rows[newId], newId, t, s.now) && FromSender(s'.rows[newId], m)
                  && forall u <- s.rows :: s.rows[u].externalMessageId != Some(m.externalMessageId))
            && (r.Ok? && !r.value.created ==>
                  && s' == s && r.value.requestId in s.rows
                  && s.rows[r.value.requestId].tenantId == t
                  && s.rows[r.value.requestId].externalMessageId == Some(m.externalMessageId))
            && (r.Err? <==> && (forall u <- s.rows :: !(s.rows[u].tenantId == t
                                                       && s.rows[u].externalMessageId == Some(m.externalMessageId)))
                            && (newId in s.rows
                                || exists u <- s.rows :: s.rows[u].externalMessageId == Some(m.externalMessageId)))
            && (r.Err? ==> s' == s && r.error == UniqueViolation)
  {
    assert forall u :: HasExternalId(s.rows, t, m.externalMessageId, u) <==>
                         u in s.rows && s.rows[u].tenantId == t && s.rows[u].externalMessageId == Some(m.externalMessageId);
    CreateStores(s, t, newId, FromMessage(m));
  }

  // ---------------------------------------------------------------- changed rows

  /** The columns no call and no worker changes. */
  predicate SameOrigin(row: RequestRow, was: RequestRow) {
    && row.id == was.id && row.tenantId == was.tenantId
    && row.channel == was.channel && row.externalMessageId == was.externalMessageId
    && row.deletedAt == was.deletedAt
  }

  predicate SameClassification(row: RequestRow, was: RequestRow) {
    row.category == was.category && row.urgency == was.urgency && row.sentiment == was.sentiment
  }

  /** A saved row is stamped: written now, and created when the stored row was. */
  predicate WrittenNow(s: Store, row: RequestRow) {
    row.updatedAt == s.now && (row.id in s.rows ==> row.createdAt == s.rows[row.id].createdAt)
  }

  /** `update` answers exactly if `findOne` does; it stores the title and the body that are given, and
      every other column as it was loaded. */
  lemma UpdateStores(s: Store, t: Uuid, id: string, dto: UpdateDto)
    requires Sane(s)
    ensures var found, (s', r) := FindOne(s, t, id).1, Update(s, t, id, dto);
            && (r.Ok? <==> found.Ok?)
            && (r.Err? ==> s'.rows == s.rows && r.error == found.error)
            && (r.Ok? ==>
                  var was, row := found.value.row, r.value;
                  && s'.rows == s.rows[was.id := row] && KeyFor(t, id) !in s'.cache
                  && row.title == (match dto.title case Some(title) => title case None => was.title)
                  && row.body == (match dto.body case Some(body) => body case None => was.body)
                  && row.status == was.status
                  && SameOrigin(row, was) && SameClassification(row, was) && WrittenNow(s, row))
  {
    hide Parse, KeyFor, FindOne, Sane, SaveAndDrop;
    FindOneSane(s, t, id);
    var (s1, found) := FindOne(s, t, id);
    if found.Ok? {
      SaveAndDropSane(s1, KeyFor(t, id), Edited(found.value.row, dto));
    }
  }

  /** `changeStatus` commits exactly for a row fresh from the database and one of the eight edges; it
      stores the new status, and every other column as it was loaded. */
  lemma ChangeStatusStores(s: Store, t: Uuid, id: string, target: Status)
    requires Sane(s)
    ensures var found, (s', r) := FindOne(s, t, id).1, ChangeStatus(s, t, id, target);
            && (r.Ok? <==> found.Ok? && found.value.Miss? && LegalEdge(found.value.row.status, target))
            && (r.Err? ==> s'.rows == s.rows && r.error == if found.Ok? then BadTransition else found.error)
            && (r.Ok? ==>
                  var was, row := found.value.row, r.value;
                  && s'.rows == s.rows[was.id := row] && KeyFor(t, id) !in s'.cache
                  && row.status == target && row.title == was.title && row.body == was.body
                  && SameOrigin(row, was) && SameClassification(row, was) && WrittenNow(s, row))
  {
    hide Parse, KeyFor, FindOne, Sane, SaveAndDrop;
    FindOneSane(s, t, id);
    var (s1, found) := FindOne(s, t, id);
    if found.Ok? {
      SaveAndDropSane(s1, KeyFor(t, id), found.value.row.(status := target));
    }
  }

  /** An attempt throws exactly if the classifier fails or answers with the fallback; otherwise it records
      if the tenant has the row and it is not deleted, and skips if not.  What it records is the three
      values of the answer. */
  lemma WorkStores(s: Store, t: Uuid, u: Uuid, answer: Option<Triple>)
    requires UniqueExternalIds(s.rows)
    ensures var (s', r) := Work(s, t, u, answer);
            && (r.Thrown? <==> answer == None || answer.value.category == "UNCLASSIFIED")
            && (r.Recorded? ==> u in s.rows && s.rows[u].tenantId == t && s.rows[u].deletedAt == None)
            && (r.Skipped? ==> !(u in s.rows && s.rows[u].tenantId == t && s.rows[u].deletedAt == None))
            && (!r.Recorded? ==> s' == s)
            && (r.Recorded? ==>
                  && s' == s.(rows := s.rows[u := s'.rows[u]])
                  && var was, row := s.rows[u], s'.rows[u];
                     && row.category == Some(answer.value.category)
                     && row.urgency == Some(answer.value.urgency)
                     && row.sentiment == Some(answer.value.sentiment)
                     && row.title == was.title && row.body == was.body && row.status == was.status
                     && SameOrigin(row, was) && WrittenNow(s, row))
  {
    if u in s.rows {
      NoClash(s.rows, Classified(s.rows[u], Classify(answer)));
    }
  }

  // ---------------------------------------------------------------- removed rows

  /** Nobody is shown the row, under any spelling of its id, by any tenant's lookup or page, and the worker
      does not see it. */
  ghost predicate Gone(rows: Table, u: Uuid) {
    && u in rows
    && (forall t, id :: Parse(id) == Some(u) ==> FindById(rows, t, id) == None)
    && (forall t :: FindForWork(rows, t, u) == None)
    && (forall t, q, page, row ::
          Pagination.FindPage(rows, t, q) == Ok(page) && row in page.data ==> row.id != u)
  }

  lemma DeletedIsGone(rows: Table, u: Uuid)
    requires u in rows && rows[u].deletedAt.Some?
    ensures Gone(rows, u)
  {
    hide Parse, Pagination.FindPage;
    forall t, q, page, row | Pagination.FindPage(rows, t, q) == Ok(page) && row in page.data
      ensures row.id != u
    {
      ListingLaws.PageHolds(rows, t, q, page);
    }
  }

  /** `remove` answers exactly if `findOne` does.  After that the row is gone from every lookup and page, the
      caller's next `findOne` is not found, a second delivery of its message still finds it, and every other
      row is as it was. */
  lemma RemoveRemoves(s: Store, t: Uuid, id: string)
    requires Sane(s)
    ensures var found, (s', r) := FindOne(s, t, id).1, Remove(s, t, id);
            && (r.Ok? <==> found.Ok?)
            && (r.Err? ==> s'.rows == s.rows && r.error == found.error)
            && (r.Ok? ==> Parse(id).Some? && RemovedFrom(s, s', t, Parse(id).value) && FindOne(s', t, id).1 == Err(NotFound))
  {
    hide Parse, KeyFor, FindOne, Sane, RemovedFrom;
    FindOneSane(s, t, id);
    if FindOne(s, t, id).1.Ok? {
      RemovedRow(s, t, id);
    }
  }

  /** The row of the tenant has been removed from the table. */
  ghost predicate RemovedFrom(s: Store, s': Store, t: Uuid, u: Uuid) {
    && u in s.rows && s.rows[u].tenantId == t
    && Gone(s'.rows, u)
    && (forall m :: s.rows[u].externalMessageId == Some(m) ==> FindByExternalId(s'.rows, t, m) == Some(u))
    && s'.rows == s.rows[u := s'.rows[u]]
    && var row, was := s'.rows[u], s.rows[u];
       && row.deletedAt == Some(s.now) && row.updatedAt == s.now && row.createdAt == was.createdAt
       && row.title == was.title && row.body == was.body && row.status == was.status
       && row.channel == was.channel && row.externalMessageId == was.externalMessageId
       && SameClassification(row, was)
  }

  lemma RemovedRow(s: Store, t: Uuid, id: string)
    requires Sane(s) && Remove(s, t, id).1.Ok?
    ensures Parse(id).Some? && RemovedFrom(s, Remove(s, t, id).0, t, Parse(id).value)
    ensures FindOne(Remove(s, t, id).0, t, id).1 == Err(NotFound)
  {
    hide Parse, KeyFor, FindOne, Sane, Gone;
    FindOneSane(s, t, id);
    var u := Parse(id).value;
    var s' := Remove(s, t, id).0;
    RemoveSane(s, t, id);
    DeletedIsGone(s'.rows, u);
    RemovedNotFound(s', t, id);
    forall m | s.rows[u].externalMessageId == Some(m)
      ensures FindByExternalId(s'.rows, t, m) == Some(u)
    {
      FoundAgain(s', t, m, u);
    }
  }

  lemma RemovedNotFound(s: Store, t: Uuid, id: string)
    requires KeyFor(t, id) !in s.cache && Parse(id).Some? && Gone(s.rows, Parse(id).value)
    ensures FindOne(s, t, id).1 == Err(NotFound)
  {
    hide Parse, KeyFor, Pagination.FindPage;
  }

  lemma FoundAgain(s: Store, t: Uuid, m: string, u: Uuid)
    requires Sane(s) && HasExternalId(s.rows, t, m, u)
    ensures FindByExternalId(s.rows, t, m) == Some(u)
  {
  }

  // ---------------------------------------------------------------- removal in runs

  lemma StepStaysDeleted(s: Store, op: Op, spellings: iset<string>, u: Uuid)
    requires Coherent(s, spellings)
    requires u in s.rows && s.rows[u].deletedAt.Some?
    ensures var s' := Step(s, op).0; u in s'.rows && s'.rows[u].deletedAt.Some?
  {
    hide Parse, KeyFor, FindOne, Coherent, SaveAndDrop, Clashes, HasExternalId, Pagination.FindPage;
    CoherentIsSane(s, spellings);
    match op
    case OpUpdate(t, id, dto) =>
      LoadedIsLive(s, spellings, t, id);
      UpdateEffect(s, t, id, dto);
    case OpChangeStatus(t, id, target) =>
      LoadedIsLive(s, spellings, t, id);
      ChangeStatusEffect(s, t, id, target);
    case OpRemove(t, id) => FindOneSane(s, t, id);
    case OpFindOne(t, id) => FindOneSane(s, t, id);
    case OpCreate(_, _, _) =>
    case OpInbound(_, _, _) =>
    case OpFindAll(_, _) =>
    case OpWork(_, _, _) =>
    case OpTick(_) =>
  }

  lemma LoadedIsLive(s: Store, spellings: iset<string>, t: Uuid, id: string)
    requires Coherent(s, spellings)
    ensures var r := FindOne(s, t, id).1;
            r.Ok? ==> r.value.row.id in s.rows && s.rows[r.value.row.id].deletedAt == None
  {
    hide Parse, KeyFor;
    if Lookup(s.cache, KeyFor(t, id), s.now).Some? {
      RightAt(s, spellings, t, id);
    }
  }

  lemma {:induction false} StaysDeleted(s: Store, ops: seq<Op>, spellings: iset<string>, u: Uuid)
    requires Coherent(s, spellings) && OneSpellingEach(spellings) && UsesOnly(ops, spellings)
    requires u in s.rows && s.rows[u].deletedAt.Some?
    ensures var s' := Run(s, ops); Coherent(s', spellings) && u in s'.rows && s'.rows[u].deletedAt.Some?
    decreases |ops|
  {
    hide Step, Coherent, OneSpellingEach;
    if ops != [] {
      assert ops[0] in ops;
      StepStaysDeleted(s, ops[0], spellings, u);
      StepCoherent(s, ops[0], spellings);
      StaysDeleted(Step(s, ops[0]).0, ops[1..], spellings, u);
    }
  }

  /** If the removal of `id` after some calls is answered, `id'` is not found once more calls have followed. */
  ghost predicate StaysGone(now: Micros, before: seq<Op>, t: Uuid, id: string, after: seq<Op>, t': Uuid, id': string) {
    var (s, r) := Remove(Run(Empty(now), before), t, id);
    r.Ok? ==> FindOne(Run(s, after), t', id').1 == Err(NotFound)
  }

  /** What is removed is never found again, by whatever calls, in serial runs - if and only if no two
      spellings in use denote the same id. */
  lemma RemovalFinalIff(spellings: iset<string>)
    ensures (forall now, before, t, id, after, t', id' ::
               && UsesOnly(before, spellings) && UsesOnly(after, spellings)
               && id in spellings && id' in spellings && Parse(id') == Parse(id) ==>
                 StaysGone(now, before, t, id, after, t', id'))
       <==> OneSpellingEach(spellings)
  {
    hide Parse, KeyFor, StaysGone, Run, Coherent;
    if OneSpellingEach(spellings) {
      forall now, before, t, id, after, t', id' | && UsesOnly(before, spellings) && UsesOnly(after, spellings)
                                                  && id in spellings && id' in spellings && Parse(id') == Parse(id)
        ensures StaysGone(now, before, t, id, after, t', id')
      {
        GoneForGood(now, before, t, id, after, t', id', spellings);
      }
    } else {
      var i, j :| i in spellings && j in spellings && Parse(i).Some? && Parse(i) == Parse(j) && i != j;
      RemovalHidden(Parse(i).value, i, j, 0);
      var before := Peeked(Parse(i).value, i);
      assert UsesOnly(before, spellings) && UsesOnly([], spellings);
    }
  }

  lemma GoneForGood(now: Micros, before: seq<Op>, t: Uuid, id: string, after: seq<Op>, t': Uuid, id': string,
      spellings: iset<string>)
    requires OneSpellingEach(spellings) && UsesOnly(before, spellings) && UsesOnly(after, spellings)
    requires id in spellings && id' in spellings && Parse(id') == Parse(id)
    ensures StaysGone(now, before, t, id, after, t', id')
  {
    hide Parse, KeyFor, Step, Remove, FindOne, Coherent, OneSpellingEach, Gone;
    EmptyCoherent(now, spellings);
    RunCoherent(Empty(now), before, spellings);
    var s := Run(Empty(now), before);
    CoherentIsSane(s, spellings);
    if Remove(s, t, id).1.Ok? {
      var s1 := Remove(s, t, id).0;
      RemovedRow(s, t, id);
      RemoveIsStep(s, t, id, spellings);
      StaysDeleted(s1, after, spellings, Parse(id).value);
      DeletedNotFound(Run(s1, after), spellings, t', id');
    }
  }

  lemma RemoveIsStep(s: Store, t: Uuid, id: string, spellings: iset<string>)
    requires Coherent(s, spellings) && OneSpellingEach(spellings) && id in spellings
    ensures Coherent(Remove(s, t, id).0, spellings)
  {
    hide Coherent, OneSpellingEach, Remove;
    StepCoherent(s, OpRemove(t, id), spellings);
  }

  lemma DeletedNotFound(s: Store, spellings: iset<string>, t: Uuid, id: string)
    requires Coherent(s, spellings)
    requires Parse(id).Some? && Parse(id).value in s.rows && s.rows[Parse(id).value].deletedAt.Some?
    ensures FindOne(s, t, id).1 == Err(NotFound)
  {
    hide Parse, KeyFor;
    if Lookup(s.cache, KeyFor(t, id), s.now).Some? {
      RightAt(s, spellings, t, id);
      assert false;
    }
  }

  /** A request is created and looked at. */
  function Peeked(u: Uuid, i: string): seq<Op> {
    [OpCreate(0, u, NewRequest("", "", Email, None)), OpFindOne(0, i)]
  }

  /** Removed under another spelling, it is still shown under the first. */
  lemma RemovalHidden(u: Uuid, i: string, j: string, now: Micros)
    requires Parse(i) == Some(u) && Parse(j) == Some(u) && i != j
    ensures !StaysGone(now, Peeked(u, i), 0, j, [], 0, i)
  {
    hide Parse, KeyFor, Pagination.FindPage;
    var ops := Peeked(u, i);
    var row := NewRow(u, 0, NewRequest("", "", Email, None), now);
    var s1 := Step(Empty(now), ops[0]).0;
    assert s1 == Store(map[u := row], map[], now);
    var s2 := Step(s1, ops[1]).0;
    var entry := Entry(ThroughJson(row), now, now);
    assert s2 == Store(map[u := row], map[KeyFor(0, i) := entry], now);
    RunTwo(Empty(now), ops[0], ops[1]);
    if KeyFor(0, i) == KeyFor(0, j) {
      KeyForInjective(0, i, 0, j);
    }
    assert FindById(s2.rows, 0, j) == Some(row);
    assert Remove(s2, 0, j).0.cache == map[KeyFor(0, i) := entry];
  }

  lemma RunTwo(s: Store, a: Op, b: Op)
    ensures Run(s, [a, b]) == Step(Step(s, a).0, b).0
  {
    hide Step;
    assert [a, b][1..] == [b] && [b][1..] == [];
    assert Run(s, [a, b]) == Run(Step(s, a).0, [b]);
    assert Run(Step(s, a).0, [b]) == Run(Step(Step(s, a).0, b).0, []);
  }
}
