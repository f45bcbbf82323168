/** Tenants do not see each other: the calls of one tenant depend only on that tenant's rows and
    cache entries, and change nobody else's. */
module TenantIsolation {
  import opened Wrappers
  import opened Calendar
  import opened Uuids
  import opened Requests
  import opened Caching
  import opened RequestStore
  import opened SerialRuns
  import Listings
  import Pagination

  predicate Owns(rows: Table, tenant: Uuid, u: Uuid) {
    u in rows && rows[u].tenantId == tenant
  }

  ghost predicate AlikeRows(rows: Table, rows': Table, tenant: Uuid) {
    && (forall u :: Owns(rows, tenant, u) <==> Owns(rows', tenant, u))
    && (forall u :: Owns(rows, tenant, u) ==> rows[u] == rows'[u])
  }

  ghost predicate AlikeCaches(cache: Cache, cache': Cache, tenant: Uuid) {
    && (forall id :: KeyFor(tenant, id) in cache <==> KeyFor(tenant, id) in cache')
    && (forall id :: KeyFor(tenant, id) in cache ==> cache[KeyFor(tenant, id)] == cache'[KeyFor(tenant, id)])
  }

  /** The two stores hold the same rows and the same cache entries of the tenant. */
  ghost predicate Alike(s: Store, s': Store, tenant: Uuid) {
    AlikeRows(s.rows, s'.rows, tenant) && AlikeCaches(s.cache, s'.cache, tenant)
  }

  /** A call by the tenant on its existing requests, or the passing of time.  (Creating a request is
      not in this list: external message ids are unique across tenants.) */
  predicate CallBy(op: Op, tenant: Uuid) {
    match op
    case OpFindOne(t, _) => t == tenant
    case OpFindAll(t, _) => t == tenant
    case OpUpdate(t, _, _) => t == tenant
    case OpChangeStatus(t, _, _) => t == tenant
    case OpRemove(t, _) => t == tenant
    case OpTick(_) => true
    case _ => false
  }

  lemma FindOneAlike(s: Store, s': Store, tenant: Uuid, id: string)
    requires Sane(s) && Sane(s') && Alike(s, s', tenant) && s.now == s'.now
    ensures FindOne(s, tenant, id).1 == FindOne(s', tenant, id).1
    ensures Alike(FindOne(s, tenant, id).0, FindOne(s', tenant, id).0, tenant)
  {
    hide Parse, KeyFor, ThroughJson;
    var key := KeyFor(tenant, id);
    assert Lookup(s.cache, key, s.now) == Lookup(s'.cache, key, s'.now);
    assert FindById(s.rows, tenant, id) == FindById(s'.rows, tenant, id) by {
      if Parse(id).Some? { assert Owns(s.rows, tenant, Parse(id).value) <==> Owns(s'.rows, tenant, Parse(id).value); }
    }
  }

  lemma OwnsAfter(rows: Table, tenant: Uuid, u: Uuid, row: RequestRow, v: Uuid)
    requires row.id == u && row.tenantId == tenant
    ensures Owns(rows[u := row], tenant, v) <==> v == u || Owns(rows, tenant, v)
  {
  }

  lemma WriteAlikeRows(rows: Table, rows': Table, tenant: Uuid, u: Uuid, row: RequestRow)
    requires AlikeRows(rows, rows', tenant)
    requires row.id == u && row.tenantId == tenant
    ensures AlikeRows(rows[u := row], rows'[u := row], tenant)
  {
    hide Owns;
    var after, after' := rows[u := row], rows'[u := row];
    forall v
      ensures Owns(after, tenant, v) <==> Owns(after', tenant, v)
      ensures Owns(after, tenant, v) ==> v in after && v in after' && after[v] == after'[v]
    {
      WriteAlikeAt(rows, rows', tenant, u, row, v);
    }
  }

  lemma WriteAlikeAt(rows: Table, rows': Table, tenant: Uuid, u: Uuid, row: RequestRow, v: Uuid)
    requires AlikeRows(rows, rows', tenant)
    requires row.id == u && row.tenantId == tenant
    ensures Owns(rows[u := row], tenant, v) <==> Owns(rows'[u := row], tenant, v)
    ensures Owns(rows[u := row], tenant, v) ==>
              v in rows[u := row] && v in rows'[u := row] && rows[u := row][v] == rows'[u := row][v]
  {
    hide Owns, AlikeRows;
    OwnsAfter(rows, tenant, u, row, v);
    OwnsAfter(rows', tenant, u, row, v);
    OwnsAlike(rows, rows', tenant, v);
    if Owns(rows, tenant, v) { OwnedAlike(rows, rows', tenant, v); }
  }

  lemma OwnsAlike(rows: Table, rows': Table, tenant: Uuid, v: Uuid)
    requires AlikeRows(rows, rows', tenant)
    ensures Owns(rows, tenant, v) <==> Owns(rows', tenant, v)
  {
  }

  lemma OwnedAlike(rows: Table, rows': Table, tenant: Uuid, v: Uuid)
    requires AlikeRows(rows, rows', tenant) && Owns(rows, tenant, v)
    ensures v in rows && v in rows' && rows[v] == rows'[v]
  {
  }

  lemma DropAlike(cache: Cache, cache': Cache, tenant: Uuid, key: string)
    requires AlikeCaches(cache, cache', tenant)
    ensures AlikeCaches(cache - {key}, cache' - {key}, tenant)
  {
    hide KeyFor;
  }

  /** Writing the same row of the tenant into both stores, and dropping the same entry, keeps them alike. */
  lemma WriteAlike(s: Store, s': Store, tenant: Uuid, u: Uuid, row: RequestRow, key: string)
    requires Alike(s, s', tenant)
    requires Owns(s.rows, tenant, u) && row.id == u && row.tenantId == tenant
    ensures Alike(s.(rows := s.rows[u := row], cache := s.cache - {key}),
                  s'.(rows := s'.rows[u := row], cache := s'.cache - {key}), tenant)
  {
    WriteAlikeRows(s.rows, s'.rows, tenant, u, row);
    DropAlike(s.cache, s'.cache, tenant, key);
  }

  lemma UpdateAlike(s: Store, s': Store, tenant: Uuid, id: string, dto: UpdateDto)
    requires Sane(s) && Sane(s') && Alike(s, s', tenant) && s.now == s'.now
    ensures Update(s, tenant, id, dto).1 == Update(s', tenant, id, dto).1
    ensures Alike(Update(s, tenant, id, dto).0, Update(s', tenant, id, dto).0, tenant)
  {
    hide Parse, KeyFor, FindOne, Alike;
    FindOneAlike(s, s', tenant, id);
    FindOneSane(s, tenant, id);
    FindOneSane(s', tenant, id);
    var (s1, r) := FindOne(s, tenant, id);
    var s1' := FindOne(s', tenant, id).0;
    if r.Ok? {
      SaveAlike(s1, s1', tenant, KeyFor(tenant, id), Edited(r.value.row, dto));
    }
  }

  lemma ChangeStatusAlike(s: Store, s': Store, tenant: Uuid, id: string, target: Status)
    requires Sane(s) && Sane(s') && Alike(s, s', tenant) && s.now == s'.now
    ensures ChangeStatus(s, tenant, id, target).1 == ChangeStatus(s', tenant, id, target).1
    ensures Alike(ChangeStatus(s, tenant, id, target).0, ChangeStatus(s', tenant, id, target).0, tenant)
  {
    hide Parse, KeyFor, FindOne, Alike;
    FindOneAlike(s, s', tenant, id);
    FindOneSane(s, tenant, id);
    FindOneSane(s', tenant, id);
    var (s1, r) := FindOne(s, tenant, id);
    var s1' := FindOne(s', tenant, id).0;
    if r.Ok? {
      SaveAlike(s1, s1', tenant, KeyFor(tenant, id), r.value.row.(status := target));
    }
  }

  lemma SaveAlike(s: Store, s': Store, tenant: Uuid, key: string, row: RequestRow)
    requires Sane(s) && Sane(s') && Alike(s, s', tenant) && s.now == s'.now
    requires Owns(s.rows, tenant, row.id) && Owns(s'.rows, tenant, row.id)
    requires row.tenantId == tenant
    requires row.externalMessageId == s.rows[row.id].externalMessageId == s'.rows[row.id].externalMessageId
    ensures SaveAndDrop(s, key, row).1 == SaveAndDrop(s', key, row).1
    ensures Alike(SaveAndDrop(s, key, row).0, SaveAndDrop(s', key, row).0, tenant)
  {
    hide KeyFor;
    SaveAndDropSane(s, key, row);
    SaveAndDropSane(s', key, row);
    WriteAlike(s, s', tenant, row.id, Stamped(s.rows, row, s.now), key);
  }

  lemma RemoveAlike(s: Store, s': Store, tenant: Uuid, id: string)
    requires Sane(s) && Sane(s') && Alike(s, s', tenant) && s.now == s'.now
    ensures Remove(s, tenant, id).1 == Remove(s', tenant, id).1
    ensures Alike(Remove(s, tenant, id).0, Remove(s', tenant, id).0, tenant)
  {
    hide Parse, KeyFor, FindOne;
    FindOneAlike(s, s', tenant, id);
    FindOneSane(s, tenant, id);
    FindOneSane(s', tenant, id);
    var (s1, r) := FindOne(s, tenant, id);
    var s1' := FindOne(s', tenant, id).0;
    if r.Ok? {
      var u := r.value.row.id;
      assert Owns(s1.rows, tenant, u) && Owns(s1'.rows, tenant, u);
      WriteAlike(s1, s1', tenant, u, SoftDeleted(s1.rows[u], s1.now), KeyFor(tenant, id));
    }
  }

  lemma FindAllAlike(s: Store, s': Store, tenant: Uuid, q: Pagination.Query)
    requires Alike(s, s', tenant)
    ensures Pagination.FindPage(s.rows, tenant, q) == Pagination.FindPage(s'.rows, tenant, q)
  {
    hide KeyFor, Pagination.SeekFrom, Pagination.ToPage;
    forall l: Listings.Listing | l.tenantId == tenant
      ensures Listings.Matching(s.rows, l) == Listings.Matching(s'.rows, l)
    {
      forall row
        ensures row in Listings.Matching(s.rows, l) <==> row in Listings.Matching(s'.rows, l)
      {
        assert row in Listings.Matching(s.rows, l) ==> Owns(s.rows, tenant, row.id);
        assert row in Listings.Matching(s'.rows, l) ==> Owns(s'.rows, tenant, row.id);
      }
    }
  }

  lemma NowAfter(s: Store, op: Op)
    ensures Step(s, op).0.now == if op.OpTick? && s.now <= op.now then op.now else s.now
  {
    hide Parse, KeyFor, Pagination.FindPage;
  }

  /** One call: alike stores answer the tenant alike, and stay alike. */
  lemma CallAlike(s: Store, s': Store, op: Op, tenant: Uuid)
    requires Sane(s) && Sane(s') && Alike(s, s', tenant) && s.now == s'.now
    requires CallBy(op, tenant)
    ensures Step(s, op).1 == Step(s', op).1
    ensures Alike(Step(s, op).0, Step(s', op).0, tenant)
  {
    match op
    case OpFindOne(t, id) =>
      hide Parse, KeyFor, FindOne, Alike;
      FindOneAlike(s, s', tenant, id);
    case OpFindAll(t, q) =>
      hide Pagination.FindPage, KeyFor;
      FindAllAlike(s, s', tenant, q);
    case OpUpdate(t, id, dto) =>
      hide KeyFor, Alike, Update;
      UpdateAlike(s, s', tenant, id, dto);
    case OpChangeStatus(t, id, target) =>
      hide KeyFor, Alike, ChangeStatus;
      ChangeStatusAlike(s, s', tenant, id, target);
    case OpRemove(t, id) =>
      hide KeyFor, Alike, Remove;
      RemoveAlike(s, s', tenant, id);
    case OpTick(now) =>
      hide KeyFor;
  }

  /** What the caller sees of a run. */
  ghost function Replies(s: Store, ops: seq<Op>): seq<Reply>
    decreases |ops|
  {
    if ops == [] then [] else [Step(s, ops[0]).1] + Replies(Step(s, ops[0]).0, ops[1..])
  }

  /** Non-interference: whatever other tenants have stored or cached, a tenant's sequence of calls
      gets the same answers and leaves its own rows and entries the same. */
  lemma {:induction false} NonInterference(s: Store, s': Store, ops: seq<Op>, tenant: Uuid)
    requires Sane(s) && Sane(s') && Alike(s, s', tenant) && s.now == s'.now
    requires forall op :: op in ops ==> CallBy(op, tenant)
    ensures Replies(s, ops) == Replies(s', ops)
    ensures Alike(Run(s, ops), Run(s', ops), tenant)
    decreases |ops|
  {
    hide Step, KeyFor, Alike, Sane;
    if ops != [] {
      assert ops[0] in ops;
      CallAlike(s, s', ops[0], tenant);
      NowAfter(s, ops[0]);
      NowAfter(s', ops[0]);
      StepSane(s, ops[0]);
      StepSane(s', ops[0]);
      NonInterference(Step(s, ops[0]).0, Step(s', ops[0]).0, ops[1..], tenant);
    }
  }

  // ---------------------------------------------------------------- creating requests

  /** Some row of the tenant, or of another tenant, has the external message id. */
  predicate UsedBy(rows: Table, tenant: Uuid, externalId: Option<string>) {
    externalId.Some? && exists u <- rows :: rows[u].tenantId == tenant && rows[u].externalMessageId == externalId
  }

  predicate UsedElsewhere(rows: Table, tenant: Uuid, externalId: Option<string>) {
    externalId.Some? && exists u <- rows :: rows[u].tenantId != tenant && rows[u].externalMessageId == externalId
  }

  lemma ClashIsUse(rows: Table, tenant: Uuid, newId: Uuid, data: NewRequest, now: Micros)
    requires newId !in rows
    ensures Clashes(rows, NewRow(newId, tenant, data, now))
       <==> UsedBy(rows, tenant, data.externalMessageId) || UsedElsewhere(rows, tenant, data.externalMessageId)
  {
  }

  lemma UsedByAlike(rows: Table, rows': Table, tenant: Uuid, externalId: Option<string>)
    requires AlikeRows(rows, rows', tenant) && UsedBy(rows, tenant, externalId)
    ensures UsedBy(rows', tenant, externalId)
  {
    var u :| u in rows && rows[u].tenantId == tenant && rows[u].externalMessageId == externalId;
    assert Owns(rows, tenant, u);
    assert u in rows' && rows'[u] == rows[u];
  }

  /** Creation is where tenants can feel each other: a tenant is answered alike in alike stores exactly
      if it uses the external message id itself, or other tenants use it in both stores or in neither. */
  lemma CreateAlikeIff(s: Store, s': Store, tenant: Uuid, newId: Uuid, data: NewRequest)
    requires Alike(s, s', tenant) && s.now == s'.now
    requires newId !in s.rows && newId !in s'.rows
    ensures Create(s, tenant, newId, data).1 == Create(s', tenant, newId, data).1 <==>
              || UsedBy(s.rows, tenant, data.externalMessageId)
              || (UsedElsewhere(s.rows, tenant, data.externalMessageId)
                  <==> UsedElsewhere(s'.rows, tenant, data.externalMessageId))
  {
    hide Clashes, UsedBy, UsedElsewhere, AlikeRows, AlikeCaches;
    ClashIsUse(s.rows, tenant, newId, data, s.now);
    ClashIsUse(s'.rows, tenant, newId, data, s'.now);
    if UsedBy(s.rows, tenant, data.externalMessageId) { UsedByAlike(s.rows, s'.rows, tenant, data.externalMessageId); }
    if UsedBy(s'.rows, tenant, data.externalMessageId) {
      AlikeBack(s.rows, s'.rows, tenant);
      UsedByAlike(s'.rows, s.rows, tenant, data.externalMessageId);
    }
  }

  lemma AlikeBack(rows: Table, rows': Table, tenant: Uuid)
    requires AlikeRows(rows, rows', tenant)
    ensures AlikeRows(rows', rows, tenant)
  {
  }

  // ---------------------------------------------------------------- the other tenants

  /** Between the stores, only rows of `tenant` are written, and only entries under its keys. */
  ghost predicate OnlyTouches(s: Store, s': Store, tenant: Uuid) {
    && (forall u :: u in s'.rows <==> u in s.rows)
    && (forall u :: u in s.rows && s'.rows[u] != s.rows[u] ==> s.rows[u].tenantId == s'.rows[u].tenantId == tenant)
    && (forall key :: (key in s.cache && key in s'.cache && s.cache[key] == s'.cache[key])
                      || (key !in s.cache && key !in s'.cache)
                      || exists id :: key == KeyFor(tenant, id))
  }

  lemma OthersAlike(s: Store, s': Store, tenant: Uuid, other: Uuid)
    requires OnlyTouches(s, s', tenant) && other != tenant
    ensures Alike(s, s', other)
  {
    hide KeyFor;
    forall id
      ensures KeyFor(other, id) in s.cache <==> KeyFor(other, id) in s'.cache
      ensures KeyFor(other, id) in s.cache ==> s.cache[KeyFor(other, id)] == s'.cache[KeyFor(other, id)]
    {
      forall id' ensures KeyFor(other, id) != KeyFor(tenant, id') {
        if KeyFor(other, id) == KeyFor(tenant, id') { KeyForInjective(other, id, tenant, id'); }
      }
    }
  }

  /** The entries of two caches differ at most under `key`. */
  ghost predicate SameBut(cache: Cache, cache': Cache, key: string) {
    forall k :: k != key ==> (k in cache <==> k in cache') && (k in cache ==> cache[k] == cache'[k])
  }

  lemma OneWriteTouches(s: Store, s': Store, tenant: Uuid, id: string, u: Uuid)
    requires SameBut(s.cache, s'.cache, KeyFor(tenant, id))
    requires s'.rows == s.rows || (&& Owns(s.rows, tenant, u) && Owns(s'.rows, tenant, u)
                                   && s'.rows == s.rows[u := s'.rows[u]])
    ensures OnlyTouches(s, s', tenant)
  {
    hide KeyFor;
    forall key
      ensures (key in s.cache && key in s'.cache && s.cache[key] == s'.cache[key])
              || (key !in s.cache && key !in s'.cache)
              || exists i :: key == KeyFor(tenant, i)
    {
      assert key != KeyFor(tenant, id) ==> (key in s.cache <==> key in s'.cache);
    }
  }

  /** What a call through `FindOne` does to the cache is confined to its own key. */
  lemma LoadTouchesKey(s: Store, t: Uuid, id: string)
    ensures SameBut(s.cache, FindOne(s, t, id).0.cache, KeyFor(t, id))
    ensures SameBut(s.cache, FindOne(s, t, id).0.cache - {KeyFor(t, id)}, KeyFor(t, id))
  {
    hide Parse, KeyFor, ThroughJson;
  }

  lemma UpdateTouches(s: Store, t: Uuid, id: string, dto: UpdateDto)
    requires Sane(s)
    ensures OnlyTouches(s, Update(s, t, id, dto).0, t)
  {
    hide Parse, KeyFor, OnlyTouches, SameBut, FindOne;
    FindOneSane(s, t, id);
    LoadTouchesKey(s, t, id);
    var (s1, r) := FindOne(s, t, id);
    if r.Ok? {
      SaveAndDropSane(s1, KeyFor(t, id), Edited(r.value.row, dto));
      OneWriteTouches(s, Update(s, t, id, dto).0, t, id, r.value.row.id);
    } else {
      OneWriteTouches(s, s1, t, id, 0);
    }
  }

  lemma ChangeStatusTouches(s: Store, t: Uuid, id: string, target: Status)
    requires Sane(s)
    ensures OnlyTouches(s, ChangeStatus(s, t, id, target).0, t)
  {
    hide Parse, KeyFor, OnlyTouches, SameBut, FindOne;
    FindOneSane(s, t, id);
    LoadTouchesKey(s, t, id);
    var (s1, r) := FindOne(s, t, id);
    if r.Ok? {
      SaveAndDropSane(s1, KeyFor(t, id), r.value.row.(status := target));
      OneWriteTouches(s, ChangeStatus(s, t, id, target).0, t, id, r.value.row.id);
    } else {
      OneWriteTouches(s, s1, t, id, 0);
    }
  }

  lemma RemoveTouches(s: Store, t: Uuid, id: string)
    requires Sane(s)
    ensures OnlyTouches(s, Remove(s, t, id).0, t)
  {
    hide Parse, KeyFor, OnlyTouches, SameBut, FindOne;
    FindOneSane(s, t, id);
    LoadTouchesKey(s, t, id);
    var (s1, r) := FindOne(s, t, id);
    if r.Ok? {
      OneWriteTouches(s, Remove(s, t, id).0, t, id, r.value.row.id);
    } else {
      OneWriteTouches(s, s1, t, id, 0);
    }
  }

  /** A call of one tenant leaves every other tenant's rows and entries as they were. */
  lemma CallTouchesOwn(s: Store, op: Op, tenant: Uuid)
    requires Sane(s) && CallBy(op, tenant)
    ensures OnlyTouches(s, Step(s, op).0, tenant)
  {
    hide Parse, KeyFor, OnlyTouches;
    match op
    case OpFindOne(t, id) => OneWriteTouches(s, FindOne(s, t, id).0, t, id, 0);
    case OpFindAll(t, q) =>
      hide Pagination.FindPage;
      OneWriteTouches(s, s, t, "", 0);
    case OpUpdate(t, id, dto) =>
      hide Update;
      UpdateTouches(s, t, id, dto);
    case OpChangeStatus(t, id, target) =>
      hide ChangeStatus;
      ChangeStatusTouches(s, t, id, target);
    case OpRemove(t, id) =>
      hide Remove;
      RemoveTouches(s, t, id);
    case OpTick(now) => OneWriteTouches(s, Step(s, op).0, tenant, "", 0);
  }

  lemma {:induction false} OthersUntouched(s: Store, ops: seq<Op>, tenant: Uuid, other: Uuid)
    requires Sane(s) && other != tenant
    requires forall op :: op in ops ==> CallBy(op, tenant)
    ensures Alike(s, Run(s, ops), other)
    decreases |ops|
  {
    hide Step, KeyFor, Sane, OnlyTouches;
    if ops != [] {
      assert ops[0] in ops;
      CallTouchesOwn(s, ops[0], tenant);
      OthersAlike(s, Step(s, ops[0]).0, tenant, other);
      StepSane(s, ops[0]);
      OthersUntouched(Step(s, ops[0]).0, ops[1..], tenant, other);
    }
  }
}
