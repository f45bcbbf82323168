/** Serial runs of the request services and the worker: what the cache may say about the table,
    how statuses move, and when a classification gets lost. */
module SerialRuns {
  import opened Wrappers
  import opened Uuids
  import opened Requests
  import opened RequestEntities
  import opened Caching
  import opened RequestStore
  import Pagination

  predicate UniqueExternalIds(rows: Table) {
    forall a, b :: a in rows && b in rows && a != b && rows[a].externalMessageId.Some? ==>
      rows[a].externalMessageId != rows[b].externalMessageId
  }

  // ---------------------------------------------------------------- every entry is about its own row

  /** The entry under (t, id) is about the tenant's row that `id` spells. */
  predicate Tied(s: Store, key: string, t: Uuid, id: string) {
    && key in s.cache && key == KeyFor(t, id)
    && Parse(id).Some?
    && var u := Parse(id).value;
       && u in s.rows && s.rows[u].tenantId == t
       && var v := s.cache[key].value;
          v.id == u && v.tenantId == t && v.externalMessageId == s.rows[u].externalMessageId && v.Live()
  }

  ghost predicate Sane(s: Store) {
    && UniqueExternalIds(s.rows)
    && forall key :: key in s.cache ==> exists t, id :: Tied(s, key, t, id)
  }

  lemma TiedAt(s: Store, t: Uuid, id: string)
    requires Sane(s) && KeyFor(t, id) in s.cache
    ensures Tied(s, KeyFor(t, id), t, id)
  {
    hide Parse, KeyFor;
    var t', id' :| Tied(s, KeyFor(t, id), t', id');
    KeyForInjective(t, id, t', id');
  }

  /** What a write may do to a table: change one row, never its id, tenant, external id or creation time. */
  predicate Rewrites(rows: Table, rows': Table, u: Uuid) {
    && u in rows && u in rows' && rows' == rows[u := rows'[u]]
    && rows'[u].tenantId == rows[u].tenantId
    && rows'[u].externalMessageId == rows[u].externalMessageId
    && rows'[u].createdAt == rows[u].createdAt
  }

  lemma RewriteKeepsUnique(rows: Table, rows': Table, u: Uuid)
    requires UniqueExternalIds(rows) && Rewrites(rows, rows', u)
    ensures UniqueExternalIds(rows')
  {
    assert forall a :: a in rows' ==> a in rows && rows'[a].externalMessageId == rows[a].externalMessageId;
  }

  lemma RewriteKeepsSane(s: Store, s': Store, u: Uuid)
    requires Sane(s)
    requires Rewrites(s.rows, s'.rows, u)
    requires forall key :: key in s'.cache ==> key in s.cache && s'.cache[key] == s.cache[key]
    ensures Sane(s')
  {
    hide Parse, KeyFor;
    RewriteKeepsUnique(s.rows, s'.rows, u);
    forall key | key in s'.cache
      ensures exists t, id :: Tied(s', key, t, id)
    {
      var t, id :| Tied(s, key, t, id);
      TiedKept(s, s', key, t, id);
    }
  }

  lemma TiedKept(s: Store, s': Store, key: string, t: Uuid, id: string)
    requires Tied(s, key, t, id)
    requires key in s'.cache && s'.cache[key] == s.cache[key]
    requires forall u :: u in s.rows ==> && u in s'.rows
                                         && s'.rows[u].tenantId == s.rows[u].tenantId
                                         && s'.rows[u].externalMessageId == s.rows[u].externalMessageId
    ensures Tied(s', key, t, id)
  {
    hide Parse, KeyFor;
  }

  lemma NoClash(rows: Table, row: RequestRow)
    requires UniqueExternalIds(rows)
    requires row.id in rows && rows[row.id].externalMessageId == row.externalMessageId
    ensures !Clashes(rows, row)
  {
  }

  /** Loading keeps the store sane, and what it returns is the tenant's row, as far as identity goes. */
  lemma FindOneSane(s: Store, t: Uuid, id: string)
    requires Sane(s)
    ensures var (s', r) := FindOne(s, t, id);
            && Sane(s') && s'.rows == s.rows && s'.now == s.now
            && (r.Ok? ==> && KeyFor(t, id) in s'.cache
                          && Tied(s', KeyFor(t, id), t, id)
                          && Parse(id) == Some(r.value.row.id)
                          && r.value.row.tenantId == t
                          && r.value.row.externalMessageId == s.rows[r.value.row.id].externalMessageId
                          && r.value.row.Live())
  {
    hide Parse, KeyFor;
    var key := KeyFor(t, id);
    var (s', r) := FindOne(s, t, id);
    if Lookup(s.cache, key, s.now).Some? {
      TiedAt(s, t, id);
    } else if FindById(s.rows, t, id).Some? {
      assert Tied(s', key, t, id);
      forall k | k in s'.cache
        ensures exists t', id' :: Tied(s', k, t', id')
      {
        if k != key {
          var t', id' :| Tied(s, k, t', id');
          assert Tied(s', k, t', id');
        }
      }
    }
  }

  /** Saving a loaded row always succeeds, and rewrites just that row. */
  lemma SaveAndDropSane(s: Store, key: string, row: RequestRow)
    requires Sane(s)
    requires row.id in s.rows
    requires row.tenantId == s.rows[row.id].tenantId && row.externalMessageId == s.rows[row.id].externalMessageId
    ensures var (s', r) := SaveAndDrop(s, key, row);
            && r == Ok(Stamped(s.rows, row, s.now))
            && s' == s.(rows := s.rows[row.id := Stamped(s.rows, row, s.now)], cache := s.cache - {key})
            && Rewrites(s.rows, s'.rows, row.id) && Sane(s')
  {
    hide Parse, KeyFor;
    NoClash(s.rows, row);
    RewriteKeepsSane(s, SaveAndDrop(s, key, row).0, row.id);
  }

  /** What `update` and `changeStatus` do to the table. */
  lemma UpdateEffect(s: Store, t: Uuid, id: string, dto: UpdateDto)
    requires Sane(s)
    ensures var r, rows' := FindOne(s, t, id).1, Update(s, t, id, dto).0.rows;
            && (r.Ok? ==> && r.value.row.id in s.rows
                          && rows' == s.rows[r.value.row.id := Stamped(s.rows, Edited(r.value.row, dto), s.now)])
            && (r.Err? ==> rows' == s.rows)
  {
    hide Parse, KeyFor;
    FindOneSane(s, t, id);
    var (s1, r) := FindOne(s, t, id);
    if r.Ok? {
      SaveAndDropSane(s1, KeyFor(t, id), Edited(r.value.row, dto));
    }
  }

  lemma ChangeStatusEffect(s: Store, t: Uuid, id: string, target: Status)
    requires Sane(s)
    ensures var r, rows' := FindOne(s, t, id).1, ChangeStatus(s, t, id, target).0.rows;
            if r.Ok? && r.value.Miss? && LegalEdge(r.value.row.status, target) then
              && r.value.row.id in s.rows
              && rows' == s.rows[r.value.row.id := Stamped(s.rows, r.value.row.(status := target), s.now)]
            else rows' == s.rows
  {
    hide Parse, KeyFor;
    FindOneSane(s, t, id);
    var (s1, r) := FindOne(s, t, id);
    if r.Ok? {
      SaveAndDropSane(s1, KeyFor(t, id), r.value.row.(status := target));
    }
  }

  lemma InsertSane(s: Store, row: RequestRow)
    requires Sane(s)
    requires Insert(s.rows, row).Ok?
    ensures Sane(s.(rows := s.rows[row.id := row]))
  {
    hide Parse, KeyFor;
    var s' := s.(rows := s.rows[row.id := row]);
    forall key | key in s'.cache
      ensures exists t, id :: Tied(s', key, t, id)
    {
      var t, id :| Tied(s, key, t, id);
      assert Tied(s', key, t, id);
    }
  }

  /** Every serial step keeps the store sane and no row ever disappears or changes tenant. */
  lemma StepSane(s: Store, op: Op)
    requires Sane(s)
    ensures Sane(Step(s, op).0)
  {
    hide Parse, KeyFor, FindOne, Sane, Clashes, HasExternalId, FindForWork, Work, SaveAndDrop, SoftRemove;
    match op
    case OpCreate(t, id, data) =>
      if Insert(s.rows, NewRow(id, t, data, s.now)).Ok? { InsertSane(s, NewRow(id, t, data, s.now)); }
    case OpFindOne(t, id) => FindOneSane(s, t, id);
    case OpFindAll(t, q) =>
    case OpUpdate(t, id, dto) =>
      FindOneSane(s, t, id);
      var (s1, r) := FindOne(s, t, id);
      if r.Ok? { SaveAndDropSane(s1, KeyFor(t, id), Edited(r.value.row, dto)); }
    case OpChangeStatus(t, id, target) =>
      FindOneSane(s, t, id);
      var (s1, r) := FindOne(s, t, id);
      if r.Ok? { SaveAndDropSane(s1, KeyFor(t, id), r.value.row.(status := target)); }
    case OpRemove(t, id) => RemoveSane(s, t, id);
    case OpInbound(t, id, m) =>
      var row := NewRow(id, t, FromMessage(m), s.now);
      if Insert(s.rows, row).Ok? { InsertSane(s, row); }
    case OpWork(t, id, a) => WorkSane(s, t, id, a);
    case OpTick(now) => TickSane(s, Step(s, op).0);
  }

  lemma RemoveSane(s: Store, t: Uuid, id: string)
    requires Sane(s)
    ensures Sane(Remove(s, t, id).0)
  {
    hide Parse, KeyFor, FindOne, Sane;
    FindOneSane(s, t, id);
    var (s1, r) := FindOne(s, t, id);
    if r.Ok? { RewriteKeepsSane(s1, Remove(s, t, id).0, r.value.row.id); }
  }

  lemma WorkSane(s: Store, t: Uuid, id: Uuid, a: Option<Triple>)
    requires Sane(s)
    ensures Sane(Work(s, t, id, a).0)
  {
    hide Parse, KeyFor, Classify, Tied;
    if FindForWork(s.rows, t, id).Some? {
      var row := Classified(s.rows[id], Classify(a));
      NoClash(s.rows, row);
      hide Sane;
      RewriteKeepsSane(s, s.(rows := s.rows[id := Stamped(s.rows, row, s.now)]), id);
    }
  }

  lemma TickSane(s: Store, s': Store)
    requires Sane(s) && s'.rows == s.rows && s'.cache == s.cache
    ensures Sane(s')
  {
    hide Parse, KeyFor;
    forall key | key in s'.cache
      ensures exists t, id :: Tied(s', key, t, id)
    {
      var t, id :| Tied(s, key, t, id);
      assert Tied(s', key, t, id);
    }
  }

  lemma {:induction false} RunSane(s: Store, ops: seq<Op>)
    requires Sane(s)
    ensures Sane(Run(s, ops))
    decreases |ops|
  {
    hide Parse, KeyFor;
    hide Step;
    if ops != [] {
      StepSane(s, ops[0]);
      RunSane(Step(s, ops[0]).0, ops[1..]);
    }
  }
}
