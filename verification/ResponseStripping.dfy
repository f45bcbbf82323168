/** `TenantScopeInterceptor.stripTenantId`: what it takes out of a response tree, and what it keeps. */
module ResponseStripping {
  import opened Wrappers

  type Fields = seq<(string, Json)>

  /** A response value; `Leaf` stands for texts, numbers, booleans and undefined alike.  The fields of
      an object are in order, and the first of a name is the one that counts. */
  datatype Json = Null | Leaf(text: string) | Arr(items: seq<Json>) | Obj(fields: Fields)

  function Field(fields: Fields, key: string): Option<Json> {
    if fields == [] then None
    else if fields[0].0 == key then Some(fields[0].1)
    else Field(fields[1..], key)
  }

  predicate IsWrapper(fields: Fields) {
    var d := Field(fields, "data");
    d.Some? && d.value.Arr?
  }

  function Without(fields: Fields, key: string): Fields {
    if fields == [] then []
    else (if fields[0].0 == key then [] else [fields[0]]) + Without(fields[1..], key)
  }

  function Replace(fields: Fields, key: string, value: Json): Fields {
    if fields == [] then []
    else if fields[0].0 == key then [(key, value)] + fields[1..]
    else [fields[0]] + Replace(fields[1..], key, value)
  }

  lemma {:induction false} FieldIsThere(fields: Fields, key: string)
    requires Field(fields, key).Some?
    ensures exists i :: 0 <= i < |fields| && fields[i].1 == Field(fields, key).value
  {
    if fields[0].0 != key {
      FieldIsThere(fields[1..], key);
      var i :| 0 <= i < |fields[1..]| && fields[1..][i].1 == Field(fields[1..], key).value;
      assert fields[i + 1].1 == Field(fields, key).value;
    }
  }

  /** The case of an object with a `data` array is `{ ...obj, data: obj.data.map(...) }`. */
  function StripTenantId(data: Json): Json
    decreases data, 0
  {
    match data
    case Arr(items) => Arr(StripAll(items))
    case Obj(fields) =>
      if IsWrapper(fields) then
        FieldIsThere(fields, "data");
        Obj(Replace(fields, "data", Arr(StripAll(Field(fields, "data").value.items))))
      else Obj(Without(fields, "tenantId"))
    case _ => data
  }

  function StripAll(items: seq<Json>): (r: seq<Json>)
    ensures |r| == |items|
    decreases items, 1
  {
    if items == [] then [] else [StripTenantId(items[0])] + StripAll(items[1..])
  }

  // ---------------------------------------------------------------- paths

  /** One hop into an array, or into the `data` array of a wrapper: where stripping goes. */
  datatype Hop = Index(i: nat) | Data(i: nat)

  function Hopped(j: Json, hop: Hop): Option<Json> {
    match hop
    case Index(i) => if j.Arr? && i < |j.items| then Some(j.items[i]) else None
    case Data(i) =>
      if j.Obj? && IsWrapper(j.fields) && i < |Field(j.fields, "data").value.items|
      then Some(Field(j.fields, "data").value.items[i])
      else None
  }

  function At(j: Json, path: seq<Hop>): Option<Json>
    decreases |path|
  {
    if path == [] then Some(j)
    else
      match Hopped(j, path[0])
      case Some(next) => At(next, path[1..])
      case None => None
  }

  // ---------------------------------------------------------------- one object

  lemma {:induction false} WithoutField(fields: Fields, key: string, k: string)
    ensures Field(Without(fields, key), k) == if k == key then None else Field(fields, k)
  {
    if fields != [] {
      WithoutField(fields[1..], key, k);
      assert fields[0].0 == key ==> Without(fields, key) == Without(fields[1..], key);
      assert fields[0].0 != key ==> Without(fields, key)[1..] == Without(fields[1..], key);
    }
  }

  lemma {:induction false} ReplaceField(fields: Fields, key: string, value: Json, k: string)
    ensures Field(Replace(fields, key, value), k)
         == if k == key && Field(fields, key).Some? then Some(value) else Field(fields, k)
  {
    if fields != [] {
      ReplaceField(fields[1..], key, value, k);
      assert Replace(fields, key, value)[1..]
          == if fields[0].0 == key then fields[1..] else Replace(fields[1..], key, value);
    }
  }

  /** Every key of an object: `tenantId` goes, unless the object is a wrapper; the elements of a
      wrapper's `data` are stripped; all else stays. */
  lemma ObjectFields(fields: Fields, k: string)
    ensures StripTenantId(Obj(fields)).Obj?
    ensures var before, after := Field(fields, k), Field(StripTenantId(Obj(fields)).fields, k);
            if IsWrapper(fields) then
              after == if k == "data" then Some(Arr(StripAll(before.value.items))) else before
            else
              after == if k == "tenantId" then None else before
    ensures IsWrapper(StripTenantId(Obj(fields)).fields) <==> IsWrapper(fields)
  {
    WithoutField(fields, "tenantId", k);
    WithoutField(fields, "tenantId", "data");
    if IsWrapper(fields) {
      var value := Arr(StripAll(Field(fields, "data").value.items));
      ReplaceField(fields, "data", value, k);
      ReplaceField(fields, "data", value, "data");
    }
  }

  lemma {:induction false} StripAllAt(items: seq<Json>, i: nat)
    requires i < |items|
    ensures StripAll(items)[i] == StripTenantId(items[i])
  {
    if i > 0 {
      StripAllAt(items[1..], i - 1);
    }
  }

  // ---------------------------------------------------------------- the whole tree

  lemma HopCommutes(j: Json, hop: Hop)
    ensures Hopped(StripTenantId(j), hop)
         == match Hopped(j, hop) case Some(next) => Some(StripTenantId(next)) case None => None
  {
    match j
    case Obj(fields) =>
      ObjectFields(fields, "data");
      if IsWrapper(fields) && hop.i < |Field(fields, "data").value.items| {
        StripAllAt(Field(fields, "data").value.items, hop.i);
      }
    case Arr(items) =>
      if hop.i < |items| {
        StripAllAt(items, hop.i);
      }
    case _ =>
  }

  /** Stripping goes exactly where arrays and `data` arrays lead: what is at a path in the stripped
      tree is what was there, stripped. */
  lemma {:induction false} StripCommutes(j: Json, path: seq<Hop>)
    ensures At(StripTenantId(j), path)
         == match At(j, path) case Some(found) => Some(StripTenantId(found)) case None => None
    decreases |path|
  {
    if path != [] {
      HopCommutes(j, path[0]);
      if Hopped(j, path[0]).Some? {
        StripCommutes(Hopped(j, path[0]).value, path[1..]);
      }
    }
  }

  /** An object with a `tenantId` that is not a wrapper. */
  predicate Exposed(j: Json) {
    j.Obj? && !IsWrapper(j.fields) && Field(j.fields, "tenantId").Some?
  }

  ghost predicate Clean(j: Json) {
    forall path :: At(j, path).Some? ==> !Exposed(At(j, path).value)
  }

  /** No object that stripping reaches still shows a tenant id, except as the key of a wrapper. */
  lemma StrippedIsClean(j: Json)
    ensures Clean(StripTenantId(j))
  {
    forall path | At(StripTenantId(j), path).Some?
      ensures !Exposed(At(StripTenantId(j), path).value)
    {
      StripCommutes(j, path);
      var found := At(j, path).value;
      if found.Obj? {
        ObjectFields(found.fields, "tenantId");
      }
    }
  }

  lemma {:induction false} NothingToDrop(fields: Fields, key: string)
    ensures Without(fields, key) == fields <==> Field(fields, key).None?
    ensures |Without(fields, key)| <= |fields|
  {
    if fields != [] {
      NothingToDrop(fields[1..], key);
      if fields[0].0 != key {
        assert fields == [fields[0]] + fields[1..];
        assert Without(fields, key)[1..] == Without(fields[1..], key);
      }
    }
  }

  lemma {:induction false} ReplacedBySame(fields: Fields, key: string)
    requires Field(fields, key).Some?
    ensures Replace(fields, key, Field(fields, key).value) == fields
  {
    if fields[0].0 != key {
      ReplacedBySame(fields[1..], key);
    }
    assert fields == [fields[0]] + fields[1..];
  }

  lemma CleanBelow(j: Json, hop: Hop)
    requires Clean(j) && Hopped(j, hop).Some?
    ensures Clean(Hopped(j, hop).value)
  {
    var next := Hopped(j, hop).value;
    forall path | At(next, path).Some?
      ensures !Exposed(At(next, path).value)
    {
      assert ([hop] + path)[1..] == path;
      assert At(j, [hop] + path) == At(next, path);
    }
  }

  lemma {:induction false} CleanIsFixed(j: Json)
    requires Clean(j)
    ensures StripTenantId(j) == j
    decreases j
  {
    assert At(j, []) == Some(j);
    match j
    case Arr(items) =>
      forall i: nat | i < |items|
        ensures StripAll(items)[i] == items[i]
      {
        CleanBelow(j, Index(i));
        CleanIsFixed(items[i]);
        StripAllAt(items, i);
      }
      assert StripAll(items) == items;
    case Obj(fields) =>
      if IsWrapper(fields) {
        var d := Field(fields, "data").value;
        FieldIsThere(fields, "data");
        forall i: nat | i < |d.items|
          ensures StripAll(d.items)[i] == d.items[i]
        {
          CleanBelow(j, Data(i));
          assert d.items[i] < d && d < j;
          CleanIsFixed(d.items[i]);
          StripAllAt(d.items, i);
        }
        assert StripAll(d.items) == d.items;
        ReplacedBySame(fields, "data");
      } else {
        NothingToDrop(fields, "tenantId");
      }
    case _ =>
  }

  /** The trees that stripping leaves alone are exactly the clean ones. */
  lemma FixedIffClean(j: Json)
    ensures StripTenantId(j) == j <==> Clean(j)
  {
    StrippedIsClean(j);
    if Clean(j) {
      CleanIsFixed(j);
    }
  }

  lemma StripIdempotent(j: Json)
    ensures StripTenantId(StripTenantId(j)) == StripTenantId(j)
  {
    StrippedIsClean(j);
    CleanIsFixed(StripTenantId(j));
  }
}
