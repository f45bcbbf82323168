/** How old a cached row can be, and what every version of a row looks like, in any interleaving. */
module Staleness {
  import opened Wrappers
  import opened Calendar
  import opened Uuids
  import opened Requests
  import opened Caching
  import opened RowHistories
  import opened Interleaving
  import opened InterleavingInvariants

  lemma QuietOk(now: Micros)
    ensures Good(Quiet(now))
  {
  }

  /** The value shows every column of version `k` of the tenant's row that `id` spells, and no later
      version of the row is older than 300 seconds plus the gap between the entry's read and set. */
  ghost predicate ServesVersion(w: World, t: Uuid, id: string, value: RequestRow, k: nat) {
    && KeyFor(t, id) in w.cache
    && k < |w.log|
    && var row, entry := w.log[k].row, w.cache[KeyFor(t, id)];
       && row.tenantId == t && Parse(id) == Some(row.id) && row.Live()
       && JsonImage(value, row)
       && entry.readAt <= entry.setAt <= w.now
       && w.log[k].at <= entry.readAt
       && forall j :: k < j < |w.log| && w.log[j].row.id == row.id ==>
                        w.now - 300_000_000 - (entry.setAt - entry.readAt) < w.log[j].at
  }

  /** Bounded staleness: whatever service calls, worker writes and faults interleave, a cache hit is
      an exact version of the tenant's row that was still current 300 seconds ago, less the time its
      loader took from the database read to the cache write. */
  lemma BoundedStaleness(start: Micros, steps: seq<Step>, t: Uuid, id: string)
    requires IsRun(Quiet(start), steps)
    ensures var w := After(Quiet(start), steps);
            var hit := Lookup(w.cache, KeyFor(t, id), w.now);
            hit.Some? ==> exists k :: ServesVersion(w, t, id, hit.value, k)
  {
    hide Good, IsRun, After, Parse, KeyFor, ThroughJson, JsonImage, Whole;
    QuietOk(start);
    RunOk(Quiet(start), steps);
    var w := After(Quiet(start), steps);
    var hit := Lookup(w.cache, KeyFor(t, id), w.now);
    if hit.Some? {
      var row := HitFacts(w, t, id);
      var k :| CurrentAt(w.log, k, row, w.cache[KeyFor(t, id)].readAt);
      ImageIsJson(hit.value, row);
      assert ServesVersion(w, t, id, hit.value, k);
    }
  }

  /** In every interleaving, every version of every row and every cached row has a whole
      classification or none, never the fallback. */
  lemma AlwaysWhole(start: Micros, steps: seq<Step>)
    requires IsRun(Quiet(start), steps)
    ensures var w := After(Quiet(start), steps);
            && (forall k :: 0 <= k < |w.log| ==> Whole(w.log[k].row))
            && (forall u :: u in w.rows ==> Whole(w.rows[u]))
            && (forall key :: key in w.cache ==> Whole(w.cache[key].value))
  {
    hide CallsOk, JobsOk, IsRun, After, Parse, KeyFor, Whole;
    QuietOk(start);
    RunOk(Quiet(start), steps);
    var w := After(Quiet(start), steps);
    forall u | u in w.rows ensures Whole(w.rows[u]) {
      StoredFacts(w, u);
    }
    forall key | key in w.cache ensures Whole(w.cache[key].value) {
      var t, id, row :| EntryOk(w, key, t, id, row);
      VersionFacts(w, row, w.cache[key].readAt);
      JsonWhole(row);
    }
  }

  lemma JsonWhole(row: RequestRow)
    requires Whole(row)
    ensures Whole(ThroughJson(row))
  {
  }
}
