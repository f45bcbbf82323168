/** The row cache: its keys, its 300-second entries, and `CacheService`. */
module Caching {
  import opened Wrappers
  import opened Calendar
  import opened Uuids
  import opened Requests

  const TTL: int := 300_000_000

  /** A cached row; `readAt` is the instant its loader read it from the database. */
  datatype Entry = Entry(value: RequestRow, readAt: Micros, setAt: Micros)

  type Cache = map<string, Entry>

  /** `JSON.stringify` and back: the dates lose their microseconds. */
  function ThroughJson(row: RequestRow): RequestRow {
    row.(createdAt := ToMillis(row.createdAt) * 1000,
         updatedAt := ToMillis(row.updatedAt) * 1000,
         deletedAt := if row.deletedAt.Some? then Some(ToMillis(row.deletedAt.value) * 1000) else None)
  }

  /** A date of a cached value: that of the row, cut to the millisecond. */
  predicate CutDate(d: Micros, was: Micros) {
    d % 1000 == 0 && 0 <= was - d < 1000
  }

  /** `v` shows every column of `row`: the same values, the dates cut to the millisecond. */
  predicate JsonImage(v: RequestRow, row: RequestRow) {
    && v.id == row.id && v.tenantId == row.tenantId
    && v.title == row.title && v.body == row.body
    && v.channel == row.channel && v.status == row.status
    && v.category == row.category && v.urgency == row.urgency && v.sentiment == row.sentiment
    && v.externalMessageId == row.externalMessageId
    && CutDate(v.createdAt, row.createdAt) && CutDate(v.updatedAt, row.updatedAt)
    && (v.deletedAt.Some? <==> row.deletedAt.Some?)
    && (row.deletedAt.Some? ==> CutDate(v.deletedAt.value, row.deletedAt.value))
  }

  /** The JSON round trip makes an image of the row, and a row has only one. */
  lemma ImageIsJson(v: RequestRow, row: RequestRow)
    ensures JsonImage(v, row) <==> v == ThroughJson(row)
  {
    OneCut(v.createdAt, row.createdAt);
    OneCut(v.updatedAt, row.updatedAt);
    if v.deletedAt.Some? && row.deletedAt.Some? {
      OneCut(v.deletedAt.value, row.deletedAt.value);
    }
  }

  lemma OneCut(d: Micros, was: Micros)
    ensures CutDate(d, was) <==> d == ToMillis(was) * 1000
  {
  }

  /** `requestKey` */
  function RequestKey(tenantId: string, requestId: string): string {
    "request:" + tenantId + ":" + requestId
  }

  /** The key tells tenant and request apart whenever tenant ids have no colon. */
  lemma RequestKeyInjective(t: string, i: string, t': string, i': string)
    requires ':' !in t && ':' !in t'
    requires RequestKey(t, i) == RequestKey(t', i')
    ensures t == t' && i == i'
  {
    var k, k' := t + ":" + i, t' + ":" + i';
    assert RequestKey(t, i) == "request:" + k && RequestKey(t', i') == "request:" + k';
    assert RequestKey(t, i)[8..] == k && RequestKey(t', i')[8..] == k';
    assert k[|t|] == ':' && k'[|t'|] == ':';
    assert forall j :: 0 <= j < |t| ==> k[j] == t[j] && t[j] in t;
    assert forall j :: 0 <= j < |t'| ==> k'[j] == t'[j] && t'[j] in t';
    assert |t| <= |t'|;
    assert |t'| <= |t|;
    assert t == k[..|t|] && t' == k'[..|t'|];
    assert i == k[|t| + 1..] && i' == k'[|t'| + 1..];
  }

  /** The key of a tenant (by its canonical id text) and a request id as the caller spelled it. */
  function KeyFor(tenantId: Uuid, id: string): string {
    RequestKey(Text(tenantId), id)
  }

  lemma KeyForInjective(t: Uuid, i: string, t': Uuid, i': string)
    requires KeyFor(t, i) == KeyFor(t', i')
    ensures t == t' && i == i'
  {
    forall k: nat | k < 36
      ensures Text(t)[k] != ':' && Text(t')[k] != ':'
    {
      TextIsPlain(t, k);
      TextIsPlain(t', k);
    }
    RequestKeyInjective(Text(t), i, Text(t'), i');
    ParseText(t);
    ParseText(t');
  }

  /** What a `get` finds: nothing once the entry is 300 seconds old. */
  function Lookup(cache: Cache, key: string, now: Micros): Option<RequestRow> {
    if key in cache && now < cache[key].setAt + TTL then Some(cache[key].value) else None
  }

  class CacheService {
    var entries: Cache

    constructor ()
      ensures entries == map[]
    {
      entries := map[];
    }

    method Get(key: string, now: Micros) returns (value: Option<RequestRow>)
      ensures value == Lookup(entries, key, now)
      ensures value == if key in entries && now < entries[key].setAt + 300_000_000 then Some(entries[key].value) else None
    {
      if key !in entries || entries[key].setAt + TTL <= now {
        return None;
      }
      return Some(entries[key].value);
    }

    method Set(key: string, value: RequestRow, readAt: Micros, now: Micros)
      modifies this
      ensures entries == old(entries)[key := Entry(ThroughJson(value), readAt, now)]
      ensures JsonImage(entries[key].value, value)
    {
      ImageIsJson(ThroughJson(value), value);
      entries := entries[key := Entry(ThroughJson(value), readAt, now)];
    }

    method Del(key: string)
      modifies this
      ensures entries == old(entries) - {key}
    {
      entries := entries - {key};
    }
  }
}
