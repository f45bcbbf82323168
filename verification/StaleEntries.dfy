/** When a cached row differs from the stored one, over serial runs: only after the worker has written the
    row under the very entry that is served. */
module StaleEntries {
  import opened Wrappers
  import opened Calendar
  import opened Uuids
  import opened Requests
  import opened Caching
  import opened RequestStore
  import opened SerialRuns
  import opened Coherence
  import Pagination

  /** Call `n` of the run is an attempt of the worker that records on the row while the entry is in the cache. */
  ghost predicate WrittenUnder(s: Store, ops: seq<Op>, n: nat, key: string, u: Uuid, entry: Entry) {
    && n < |ops| && ops[n].OpWork? && ops[n].requestId == u
    && var before := Run(s, ops[..n]);
       && Step(before, ops[n]).1 == WorkReply(WorkResult.Recorded)
       && key in before.cache && before.cache[key] == entry
  }

  /** The entry is there, and is not what the stored row would be cached as. */
  ghost predicate Stale(s: Store, key: string, u: Uuid, entry: Entry) {
    && key in s.cache && s.cache[key] == entry
    && u in s.rows && entry.value != ThroughJson(s.rows[u])
  }

  // ---------------------------------------------------------------- one call

  /** A call that changes the entry has read the row. */
  lemma ChangedIsRenewed(s: Store, op: Op, t: Uuid, id: string, u: Uuid)
    requires Parse(id) == Some(u)
    requires KeyFor(t, id) in Step(s, op).0.cache
    requires !(KeyFor(t, id) in s.cache && s.cache[KeyFor(t, id)] == Step(s, op).0.cache[KeyFor(t, id)])
    ensures SpellsId(op) && u in Renewed(s, op)
  {
    hide Parse, KeyFor, ThroughJson, Pagination.FindPage, Clashes, HasExternalId, FindForWork;
    match op
    case OpFindOne(t', id') => LoadedKey(s, t', id', t, id, u);
    case OpUpdate(t', id', _) => LoadedKey(s, t', id', t, id, u);
    case OpChangeStatus(t', id', _) => LoadedKey(s, t', id', t, id, u);
    case OpRemove(t', id') => LoadedKey(s, t', id', t, id, u);
    case OpCreate(_, _, _) =>
    case OpInbound(_, _, _) =>
    case OpFindAll(_, _) =>
    case OpWork(_, _, _) =>
    case OpTick(_) =>
  }

  lemma LoadedKey(s: Store, t: Uuid, id: string, t': Uuid, id': string, u: Uuid)
    requires Parse(id') == Some(u)
    ensures var (s1, r) := FindOne(s, t, id);
            || (&& (KeyFor(t', id') in s1.cache <==> KeyFor(t', id') in s.cache)
                && (KeyFor(t', id') in s.cache ==> s1.cache[KeyFor(t', id')] == s.cache[KeyFor(t', id')]))
            || (KeyFor(t', id') == KeyFor(t, id) && r.Ok? && r.value.Miss? && r.value.row.id == u)
  {
    hide Parse, KeyFor, ThroughJson;
    if KeyFor(t', id') == KeyFor(t, id) {
      KeyForInjective(t', id', t, id);
    }
  }

  lemma ExactButFor(s: Store, spellings: iset<string>, t: Uuid, id: string, u: Uuid)
    requires Coherent(s, spellings) && OneSpellingEach(spellings) && id in spellings && Parse(id) == Some(u)
    requires KeyFor(t, id) in s.cache && !Stale(s, KeyFor(t, id), u, s.cache[KeyFor(t, id)])
    ensures u in s.rows && ExactExcept(s, s.rows.Keys - {u})
  {
    hide Parse, KeyFor, ThroughJson, Agrees, Coherent, OneSpellingEach;
    RightAt(s, spellings, t, id);
    forall t', id' | KeyFor(t', id') in s.cache && Parse(id').Some? && Parse(id').value in s.rows
                     && Parse(id').value !in s.rows.Keys - {u}
      ensures s.cache[KeyFor(t', id')].value == ThroughJson(s.rows[Parse(id').value])
    {
      OneEntryEach(s, spellings, t, id, t', id');
    }
  }

  /** An entry that is stale after a call was stale before it, or the call is the worker's. */
  lemma StepStale(s: Store, op: Op, spellings: iset<string>, t: Uuid, id: string, u: Uuid, entry: Entry)
    requires Coherent(s, spellings) && OneSpellingEach(spellings) && (SpellsId(op) ==> op.id in spellings)
    requires id in spellings && Parse(id) == Some(u)
    requires Stale(Step(s, op).0, KeyFor(t, id), u, entry)
    ensures || Stale(s, KeyFor(t, id), u, entry)
            || (&& op.OpWork? && op.requestId == u && Step(s, op).1 == WorkReply(WorkResult.Recorded)
                && KeyFor(t, id) in s.cache && s.cache[KeyFor(t, id)] == entry)
  {
    hide Parse, KeyFor, ThroughJson, Step, Coherent, OneSpellingEach;
    var key := KeyFor(t, id);
    if key in s.cache && s.cache[key] == entry {
      if !Stale(s, key, u, entry) {
        ExactButFor(s, spellings, t, id, u);
        StepExact(s, op, spellings, s.rows.Keys - {u});
      }
    } else {
      ChangedIsRenewed(s, op, t, id, u);
      StepExact(s, op, spellings, s.rows.Keys);
      assert false;
    }
  }

  // ---------------------------------------------------------------- runs

  lemma LaterInRun(s: Store, ops: seq<Op>, n: nat, key: string, u: Uuid, entry: Entry)
    requires ops != [] && WrittenUnder(Step(s, ops[0]).0, ops[1..], n, key, u, entry)
    ensures WrittenUnder(s, ops, n + 1, key, u, entry)
  {
    hide Step;
    assert ops[..n + 1][0] == ops[0] && ops[..n + 1][1..] == ops[1..][..n];
  }

  lemma {:induction false} StaleBecause(s: Store, ops: seq<Op>, spellings: iset<string>, t: Uuid, id: string, u: Uuid,
      entry: Entry)
    requires Coherent(s, spellings) && OneSpellingEach(spellings) && UsesOnly(ops, spellings)
    requires id in spellings && Parse(id) == Some(u)
    requires Stale(Run(s, ops), KeyFor(t, id), u, entry)
    ensures Stale(s, KeyFor(t, id), u, entry) || exists n: nat :: WrittenUnder(s, ops, n, KeyFor(t, id), u, entry)
    decreases |ops|
  {
    hide Step, Parse, KeyFor, ThroughJson, Coherent, OneSpellingEach, Stale;
    if ops != [] {
      assert ops[0] in ops;
      var s1 := Step(s, ops[0]).0;
      StepCoherent(s, ops[0], spellings);
      StaleBecause(s1, ops[1..], spellings, t, id, u, entry);
      if Stale(s1, KeyFor(t, id), u, entry) {
        StepStale(s, ops[0], spellings, t, id, u, entry);
        assert ops[..0] == [];
        assert Stale(s, KeyFor(t, id), u, entry) || WrittenUnder(s, ops, 0, KeyFor(t, id), u, entry);
      } else {
        var n: nat :| WrittenUnder(s1, ops[1..], n, KeyFor(t, id), u, entry);
        LaterInRun(s, ops, n, KeyFor(t, id), u, entry);
      }
    }
  }

  // ---------------------------------------------------------------- reading through the cache

  /** `findOne` after a run from the empty store: not found exactly as in the table; after a miss, the stored
      row; and on a hit one that agrees with it, and in every column, the dates cut to the millisecond, unless
      the worker has written the row under the entry. */
  ghost predicate FindsAfter(now: Micros, ops: seq<Op>, t: Uuid, id: string) {
    var s := Run(Empty(now), ops);
    var r := FindOne(s, t, id).1;
    match FindById(s.rows, t, id)
    case None => r == Err(NotFound)
    case Some(row) =>
      && r.Ok?
      && (r.value.Miss? ==> r.value.row == row)
      && (r.value.Hit? ==>
            && Agrees(r.value.row, row)
            && KeyFor(t, id) in s.cache
            && (|| JsonImage(r.value.row, row)
                || exists n: nat :: WrittenUnder(Empty(now), ops, n, KeyFor(t, id), row.id, s.cache[KeyFor(t, id)])))
  }

  lemma FindsInRun(now: Micros, ops: seq<Op>, spellings: iset<string>, t: Uuid, id: string)
    requires OneSpellingEach(spellings) && UsesOnly(ops, spellings) && id in spellings
    ensures FindsAfter(now, ops, t, id)
  {
    hide Parse, KeyFor, ThroughJson, Agrees, JsonImage, Run, Coherent, OneSpellingEach, WrittenUnder, WrittenSince;
    var s := Run(Empty(now), ops);
    EmptyCoherent(now, spellings);
    EmptyExact(now);
    RunCoherent(Empty(now), ops, spellings);
    RunExact(Empty(now), ops, spellings, {});
    FindOneIsLookup(s, spellings, t, id, WrittenSince(Empty(now), ops, {}));
    if Lookup(s.cache, KeyFor(t, id), s.now).Some? {
      RightAt(s, spellings, t, id);
      var u := Parse(id).value;
      ImageIsJson(s.cache[KeyFor(t, id)].value, s.rows[u]);
      if Stale(s, KeyFor(t, id), u, s.cache[KeyFor(t, id)]) {
        StaleBecause(Empty(now), ops, spellings, t, id, u, s.cache[KeyFor(t, id)]);
      }
    }
  }

  /** After every serial run `findOne` is the uncached lookup, not-found included, but for the
      classification and the update time of rows that the worker has written under the entry that is
      served - if and only if no two spellings in use denote the same id. */
  lemma FindOneExactIff(spellings: iset<string>)
    ensures (forall now, ops, t, id :: UsesOnly(ops, spellings) && id in spellings ==> FindsAfter(now, ops, t, id))
       <==> OneSpellingEach(spellings)
  {
    hide Parse, KeyFor, FindsAfter;
    if OneSpellingEach(spellings) {
      forall now, ops, t, id | UsesOnly(ops, spellings) && id in spellings
        ensures FindsAfter(now, ops, t, id)
      {
        FindsInRun(now, ops, spellings, t, id);
      }
    } else {
      var i, j :| i in spellings && j in spellings && Parse(i).Some? && Parse(i) == Parse(j) && i != j;
      var u := Parse(i).value;
      var now: Micros, ops := 0, HidingRun(u, i, j);
      HidingRunIncoherent(u, i, j, spellings, now);
      HiddenIsNotFound(now, ops, u, i);
      HidingRunUses(u, i, j, spellings);
      assert !FindsAfter(now, ops, 0, i);
    }
  }

  lemma HidingRunUses(u: Uuid, i: string, j: string, spellings: iset<string>)
    requires i in spellings && j in spellings
    ensures UsesOnly(HidingRun(u, i, j), spellings)
  {
  }

  lemma HiddenIsNotFound(now: Micros, ops: seq<Op>, u: Uuid, i: string)
    requires var s := Run(Empty(now), ops);
             && Parse(i) == Some(u) && u in s.rows && s.rows[u].title == "after"
             && var hit := Lookup(s.cache, KeyFor(0, i), s.now); hit.Some? && hit.value.title == "before"
    ensures !FindsAfter(now, ops, 0, i)
  {
    hide Parse, KeyFor, Run;
  }
}
