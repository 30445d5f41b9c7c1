/**
 vllm_omni/data_entry_keys.py, the loops: checking, flattening and unflattening payloads,
 and carrying them over the wire entry by entry.
 */
module PayloadTransport {
  import opened Common
  import opened OrderedDict
  import opened Decimal
  import opened Tensors
  import opened DataEntryKeys

  // ---- assert_payload ----

  datatype Violation = UnknownTopLevel | NotADict(category: string) | UnknownSubKey(category: string)

  method AssertPayload<T>(p: Payload<T>) returns (violation: Option<Violation>)
    ensures violation.None? <==> SchemaValid(p)
  {
    for i := 0 to |p|
      invariant forall j :: 0 <= j < i ==> p[j].0 in ROOT_KEYS
    {
      if p[i].0 !in ROOT_KEYS {
        assert p[i] in p;
        return Some(UnknownTopLevel);
      }
    }
    for i := 0 to |NESTED_KEYS|
      invariant forall e :: e in p && e.0 in NESTED_KEYS[..i] ==> CategoryValid(e)
    {
      var category := NESTED_KEYS[i];
      assert NESTED_KEYS[..i + 1] == NESTED_KEYS[..i] + [category];
      var bad := CheckCategory(p, category);
      if bad.Some? {
        return bad;
      }
    }
    assert NESTED_KEYS[..|NESTED_KEYS|] == NESTED_KEYS;
    violation := None;
  }

  ghost predicate CategoryValid<T>(e: (string, Value<T>)) {
    e.1.Dict? && forall s :: s in e.1.entries ==> KnownSubKey(e.0, s.0)
  }

  /** One category; a payload has at most one item for it. */
  method CheckCategory<T>(p: Payload<T>, category: string) returns (bad: Option<Violation>)
    requires category in NESTED_KEYS
    ensures bad.None? <==> forall e :: e in p && e.0 == category ==> CategoryValid(e)
  {
    hide KnownSubKey;
    for i := 0 to |p|
      invariant forall j :: 0 <= j < i && p[j].0 == category ==> CategoryValid(p[j])
    {
      if p[i].0 == category {
        assert p[i] in p;
        if !p[i].1.Dict? {
          return Some(NotADict(category));
        }
        var sub := p[i].1.entries;
        for j := 0 to |sub|
          invariant forall m :: 0 <= m < j ==> KnownSubKey(category, sub[m].0)
        {
          if !KnownSubKey(category, sub[j].0) {
            assert sub[j] in sub;
            return Some(UnknownSubKey(category));
          }
        }
      }
    }
    bad := None;
  }

  // ---- flatten_payload and unflatten_payload ----

  lemma PutNext<K, V>(d: Items<K, V>, all: Items<K, V>, item: (K, V), rest: Items<K, V>)
    requires all == [item] + rest
    ensures PutAll(d, all) == PutAll(Put(d, item.0, item.1), rest)
  {
    assert all[1..] == rest;
  }

  method FlattenPayload<T>(p: Payload<T>) returns (flat: Items<string, Value<T>>)
    ensures flat == Flatten(p)
  {
    flat := [];
    if p == [] {
      return;
    }
    assert p[0..] == p;
    for i := 0 to |p|
      invariant Flatten(p) == PutAll(flat, FlatItems(p[i..]))
    {
      var (key, value) := p[i];
      assert p[i..][1..] == p[i + 1..];
      PutAllConcat(flat, FlatItem(key, value), FlatItems(p[i + 1..]));
      if IsNested(key) && value.Dict? {
        flat := FlattenCategory(flat, key, value.entries);
      } else {
        PutNext(flat, [(key, value)], (key, value), []);
        flat := Put(flat, key, value);
      }
    }
    assert p[|p|..] == [];
  }

  /** The loop over the layers. */
  method FlattenLayers<T>(before: Items<string, Value<T>>, layers: Items<Key, Value<T>>)
    returns (flat: Items<string, Value<T>>)
    ensures flat == PutAll(before, FlatLayers(layers))
  {
    flat := before;
    assert layers[0..] == layers;
    for j := 0 to |layers|
      invariant PutAll(before, FlatLayers(layers)) == PutAll(flat, FlatLayers(layers[j..]))
    {
      assert layers[j..][1..] == layers[j + 1..];
      var name := Dotted(HIDDEN, LAYER + Text(layers[j].0));
      PutNext(flat, FlatLayers(layers[j..]), (name, layers[j].1), FlatLayers(layers[j + 1..]));
      flat := Put(flat, name, layers[j].1);
    }
    assert layers[|layers|..] == [];
  }

  /** The loop over the qualifiers of one category. */
  method FlattenCategory<T>(before: Items<string, Value<T>>, key: string, sub: Items<Key, Value<T>>)
    returns (flat: Items<string, Value<T>>)
    ensures flat == PutAll(before, FlatCategory(key, sub))
  {
    flat := before;
    assert sub[0..] == sub;
    for i := 0 to |sub|
      invariant PutAll(before, FlatCategory(key, sub)) == PutAll(flat, FlatCategory(key, sub[i..]))
    {
      var (qual, val) := sub[i];
      assert sub[i..][1..] == sub[i + 1..];
      PutAllConcat(flat, FlatQualifier(key, qual, val), FlatCategory(key, sub[i + 1..]));
      if qual == Str(LAYERS) && key == HIDDEN && val.Dict? {
        flat := FlattenLayers(flat, val.entries);
      } else {
        var name := Dotted(key, Text(qual));
        PutNext(flat, [(name, val)], (name, val), []);
        flat := Put(flat, name, val);
      }
    }
    assert sub[|sub|..] == [];
  }

  method UnflattenPayload<T>(flat: Items<string, Value<T>>) returns (r: Result<Payload<T>, Error>)
    ensures r == Unflatten(flat)
  {
    var result: Payload<T> := [];
    assert flat[0..] == flat;
    for i := 0 to |flat|
      invariant Unflatten(flat) == InsertAll(result, flat[i..])
    {
      var (key, value) := flat[i];
      assert flat[i..][1..] == flat[i + 1..];
      if DotAt(key) < |key| {
        var typeKey, qualifier := Category(key), Qualifier(key);
        var found: Option<Value<T>> := Get(result, typeKey);
        if found.Some? && found.value.Leaf? {
          return Err(TypeError);
        }
        var sub := if found.Some? then found.value.entries else [];
        if typeKey == HIDDEN && IsLayerName(qualifier) {
          var inner: Option<Value<T>> := Get(sub, Str(LAYERS));
          if inner.Some? && inner.value.Leaf? {
            return Err(TypeError);
          }
          var layers := if inner.Some? then inner.value.entries else [];
          var index := ParseInt(qualifier[|LAYER|..]);
          if index.None? {
            return Err(ValueError);
          }
          layers := Put(layers, Int(index.value), value);
          sub := Put(sub, Str(LAYERS), Dict(layers));
        } else {
          sub := Put(sub, Str(qualifier), value);
        }
        result := Put(result, typeKey, Dict(sub));
      } else {
        result := Put(result, key, value);
      }
    }
    assert flat[|flat|..] == [];
    r := Ok(result);
  }

  // ---- serialize_payload and deserialize_payload ----

  datatype Leaf = TensorLeaf(tensor: Tensor) | ListLeaf(items: seq<int>) | NoneLeaf | ScalarLeaf(id: int)
  type Item = Value<Leaf>

  /** One entry on the wire; the bytes of a tensor are its elements. */
  datatype Entry = Entry(tensorData: Option<seq<int>>, tensorShape: seq<nat>, tensorDtype: string,
                         listData: Option<seq<int>>, scalarData: Option<Item>)

  datatype WireError = UnsupportedDtype | BadTensor | BadPayload(error: Error)

  predicate IsNone(v: Item) { v.Leaf? && v.leaf.NoneLeaf? }

  /** A tensor NumPy has no dtype for. */
  predicate Unserializable(v: Item) {
    v.Leaf? && v.leaf.TensorLeaf? && v.leaf.tensor.dtype == BFloat16
  }

  function Encode(v: Item): Entry
    requires !Unserializable(v) && !IsNone(v)
  {
    if v.Leaf? && v.leaf.TensorLeaf? then
      var t := v.leaf.tensor;
      Entry(Some(t.data), t.shape, DtypeName(t.dtype), None, None)
    else if v.Leaf? && v.leaf.ListLeaf? then Entry(None, [], "", Some(v.leaf.items), None)
    else Entry(None, [], "", None, Some(v))
  }

  function DecodeTensor(e: Entry): Result<Item, WireError>
    requires e.tensorData.Some?
  {
    var dtype := DtypeNamed(if e.tensorDtype != "" then e.tensorDtype else "float32");
    if dtype.None? || dtype.value == BFloat16 || |e.tensorData.value| != Product(e.tensorShape) then Err(BadTensor)
    else Ok(Leaf(TensorLeaf(TensorRep(dtype.value, e.tensorShape, e.tensorData.value))))
  }

  /** What an entry contributes: nothing when all its forms are missing. */
  function Decode(key: string, e: Entry): Result<Items<string, Item>, WireError> {
    if e.tensorData.Some? then
      var t := DecodeTensor(e);
      if t.Err? then Err(t.error) else Ok([(key, t.value)])
    else if e.listData.Some? then Ok([(key, Leaf(ListLeaf(e.listData.value)))])
    else if e.scalarData.Some? then Ok([(key, e.scalarData.value)])
    else Ok([])
  }

  function EncodeAll(flat: Items<string, Item>): Result<Items<string, Entry>, WireError> {
    if flat == [] then Ok([])
    else if IsNone(flat[0].1) then EncodeAll(flat[1..])
    else if Unserializable(flat[0].1) then Err(UnsupportedDtype)
    else
      var rest := EncodeAll(flat[1..]);
      if rest.Err? then rest else Ok([(flat[0].0, Encode(flat[0].1))] + rest.value)
  }

  function DecodeAll(entries: Items<string, Entry>): Result<Items<string, Item>, WireError> {
    if entries == [] then Ok([])
    else
      var first := Decode(entries[0].0, entries[0].1);
      if first.Err? then first
      else
        var rest := DecodeAll(entries[1..]);
        if rest.Err? then rest else Ok(first.value + rest.value)
  }

  /** `serialize_payload`: None for a payload with nothing to send. */
  function Serialize(p: Payload<Leaf>): Result<Option<Items<string, Entry>>, WireError> {
    var entries := EncodeAll(Flatten(p));
    if entries.Err? then Err(entries.error)
    else if entries.value == [] then Ok(None)
    else Ok(Some(entries.value))
  }

  /** `deserialize_payload`. */
  function Deserialize(wire: Items<string, Entry>): Result<Payload<Leaf>, WireError> {
    var flat := DecodeAll(wire);
    if flat.Err? then Err(flat.error)
    else
      var p := Unflatten(flat.value);
      if p.Err? then Err(BadPayload(p.error)) else Ok(p.value)
  }

  // ---- Leaving out None ----

  function Kept<K>(d: Items<K, Item>): Items<K, Item> {
    if d == [] then [] else (if IsNone(d[0].1) then [] else [d[0]]) + Kept(d[1..])
  }

  function KeptQualifier(category: string, k: Key, v: Item): Items<Key, Item> {
    if IsLayers(category, k, v) then [(k, Dict(Kept(v.entries)))] else if IsNone(v) then [] else [(k, v)]
  }

  function KeptQualifiers(category: string, sub: Items<Key, Item>): Items<Key, Item> {
    if sub == [] then [] else KeptQualifier(category, sub[0].0, sub[0].1) + KeptQualifiers(category, sub[1..])
  }

  function KeptItem(k: string, v: Item): Payload<Leaf> {
    if IsNested(k) && v.Dict? then [(k, Dict(KeptQualifiers(k, v.entries)))] else if IsNone(v) then [] else [(k, v)]
  }

  /** The payload without the values that are None. */
  function WithoutNone(p: Payload<Leaf>): Payload<Leaf> {
    if p == [] then [] else KeptItem(p[0].0, p[0].1) + WithoutNone(p[1..])
  }

  lemma {:induction false} KeptConcat<K>(a: Items<K, Item>, b: Items<K, Item>)
    ensures Kept(a + b) == Kept(a) + Kept(b)
    decreases |a|
  {
    if a == [] {
      assert a + b == b;
    } else {
      assert (a + b)[1..] == a[1..] + b;
      KeptConcat(a[1..], b);
    }
  }

  lemma KeptOne<K>(e: (K, Item))
    ensures Kept([e]) == if IsNone(e.1) then [] else [e]
  {
    assert [e][1..] == [];
  }

  lemma HeadAndTailUnique<K, V>(d: Items<K, V>, a: Items<K, V>, b: Items<K, V>)
    requires d != [] && Unique(d) && Unique(a) && Unique(b)
    requires forall s :: s in a ==> s.0 == d[0].0
    requires forall s :: s in b ==> exists t :: t in d[1..] && t.0 == s.0
    ensures Unique(a + b)
  {
    forall i, j | 0 <= i < |a| && 0 <= j < |b| ensures a[i].0 != b[j].0 {
      assert a[i] in a && b[j] in b;
      var t :| t in d[1..] && t.0 == b[j].0;
      var m :| 0 <= m < |d[1..]| && d[1..][m] == t;
      assert d[m + 1].0 != d[0].0;
    }
    ConcatUnique(a, b);
  }

  lemma {:induction false} KeptIsPart<K>(d: Items<K, Item>)
    requires Unique(d)
    ensures Unique(Kept(d)) && forall e :: e in Kept(d) ==> e in d
    decreases |d|
  {
    if d != [] {
      assert [] + d == d;
      DropKeepsUnique([], d);
      KeptIsPart(d[1..]);
      HeadAndTailUnique(d, if IsNone(d[0].1) then [] else [d[0]], Kept(d[1..]));
    }
  }

  lemma {:induction false} FlatKeptLayers(layers: Items<Key, Item>)
    ensures FlatLayers(Kept(layers)) == Kept(FlatLayers(layers))
    decreases |layers|
  {
    if layers != [] {
      FlatKeptLayers(layers[1..]);
      assert FlatLayers(layers)[1..] == FlatLayers(layers[1..]);
      if !IsNone(layers[0].1) {
        assert Kept(layers)[1..] == Kept(layers[1..]);
      } else {
        assert Kept(layers) == Kept(layers[1..]);
      }
    }
  }

  lemma {:induction false} FlatCategoryConcat(category: string, a: Items<Key, Item>, b: Items<Key, Item>)
    ensures FlatCategory(category, a + b) == FlatCategory(category, a) + FlatCategory(category, b)
    decreases |a|
  {
    if a == [] {
      assert a + b == b;
    } else {
      assert (a + b)[1..] == a[1..] + b;
      FlatCategoryConcat(category, a[1..], b);
    }
  }

  lemma FlatCategoryOnly(category: string, k: Key, v: Item)
    ensures FlatCategory(category, [(k, v)]) == FlatQualifier(category, k, v)
  {
    assert [(k, v)][1..] == [];
    assert FlatQualifier(category, k, v) + [] == FlatQualifier(category, k, v);
  }

  lemma FlatKeptQualifier(category: string, k: Key, v: Item)
    ensures FlatCategory(category, KeptQualifier(category, k, v)) == Kept(FlatQualifier(category, k, v))
  {
    if IsLayers(category, k, v) {
      FlatKeptLayers(v.entries);
      FlatCategoryOnly(category, k, Dict(Kept(v.entries)));
    } else {
      FlatCategoryOnly(category, k, v);
      KeptOne((Dotted(category, Text(k)), v));
    }
  }

  lemma {:induction false} FlatKeptCategory(category: string, sub: Items<Key, Item>)
    ensures FlatCategory(category, KeptQualifiers(category, sub)) == Kept(FlatCategory(category, sub))
    decreases |sub|
  {
    if sub != [] {
      var (k, v) := sub[0];
      FlatKeptCategory(category, sub[1..]);
      FlatKeptQualifier(category, k, v);
      FlatCategoryConcat(category, KeptQualifier(category, k, v), KeptQualifiers(category, sub[1..]));
      KeptConcat(FlatQualifier(category, k, v), FlatCategory(category, sub[1..]));
    }
  }

  lemma {:induction false} FlatItemsConcat(a: Payload<Leaf>, b: Payload<Leaf>)
    ensures FlatItems(a + b) == FlatItems(a) + FlatItems(b)
    decreases |a|
  {
    if a == [] {
      assert a + b == b;
    } else {
      assert (a + b)[1..] == a[1..] + b;
      FlatItemsConcat(a[1..], b);
    }
  }

  lemma FlatItemsOnly(k: string, v: Item)
    ensures FlatItems([(k, v)]) == FlatItem(k, v)
  {
    assert [(k, v)][1..] == [];
    assert FlatItem(k, v) + [] == FlatItem(k, v);
  }

  lemma FlatKeptItem(k: string, v: Item)
    ensures FlatItems(KeptItem(k, v)) == Kept(FlatItem(k, v))
  {
    if IsNested(k) && v.Dict? {
      FlatKeptCategory(k, v.entries);
      FlatItemsOnly(k, Dict(KeptQualifiers(k, v.entries)));
    } else {
      FlatItemsOnly(k, v);
      KeptOne((k, v));
    }
  }

  /** Dropping None from the flat form is dropping it from the payload. */
  lemma {:induction false} FlatKeptItems(p: Payload<Leaf>)
    ensures FlatItems(WithoutNone(p)) == Kept(FlatItems(p))
    decreases |p|
  {
    if p != [] {
      var (k, v) := p[0];
      FlatKeptItems(p[1..]);
      FlatKeptItem(k, v);
      FlatItemsConcat(KeptItem(k, v), WithoutNone(p[1..]));
      KeptConcat(FlatItem(k, v), FlatItems(p[1..]));
    }
  }

  // ---- What leaving out None keeps ----

  lemma {:induction false} KeptQualifiersKeys(category: string, sub: Items<Key, Item>)
    requires RegularSub(category, sub) && SubIndexed(category, sub)
    ensures RegularSub(category, KeptQualifiers(category, sub)) && SubIndexed(category, KeptQualifiers(category, sub))
    ensures forall s :: s in KeptQualifiers(category, sub) ==> exists t :: t in sub && t.0 == s.0
    decreases |sub|
  {
    if sub != [] {
      assert [] + sub == sub;
      CategoryParts(category, [], sub);
      KeptQualifiersKeys(category, sub[1..]);
      KeptQualifierRegular(category, sub[0].0, sub[0].1);
      var a, b := KeptQualifier(category, sub[0].0, sub[0].1), KeptQualifiers(category, sub[1..]);
      HeadAndTailUnique(sub, a, b);
      assert sub[0] in sub;
      assert forall s :: s in a + b <==> s in a || s in b;
    }
  }

  lemma KeptQualifierRegular(category: string, k: Key, v: Item)
    requires RegularSub(category, [(k, v)]) && SubIndexed(category, [(k, v)])
    ensures RegularSub(category, KeptQualifier(category, k, v)) && SubIndexed(category, KeptQualifier(category, k, v))
    ensures forall s :: s in KeptQualifier(category, k, v) ==> s.0 == k
  {
    assert (k, v) in [(k, v)];
    if IsLayers(category, k, v) {
      KeptIsPart(v.entries);
      forall i | 0 <= i < |Kept(v.entries)| ensures Kept(v.entries)[i].0.Int? {
        assert Kept(v.entries)[i] in Kept(v.entries);
      }
    }
  }

  lemma {:induction false} WithoutNoneKeys(p: Payload<Leaf>)
    requires Regular(p) && LayersIndexed(p)
    ensures Regular(WithoutNone(p)) && LayersIndexed(WithoutNone(p))
    ensures forall e :: e in WithoutNone(p) ==> exists d :: d in p && d.0 == e.0
    decreases |p|
  {
    if p != [] {
      assert [] + p == p;
      ItemParts([], p);
      WithoutNoneKeys(p[1..]);
      KeptItemRegular(p[0].0, p[0].1);
      var a, b := KeptItem(p[0].0, p[0].1), WithoutNone(p[1..]);
      HeadAndTailUnique(p, a, b);
      assert p[0] in p;
      assert forall s :: s in a + b <==> s in a || s in b;
    }
  }

  lemma KeptItemRegular(k: string, v: Item)
    requires '.' !in k
    requires IsNested(k) ==> v.Dict? && RegularSub(k, v.entries) && SubIndexed(k, v.entries)
    ensures Regular(KeptItem(k, v)) && LayersIndexed(KeptItem(k, v))
    ensures forall e :: e in KeptItem(k, v) ==> e.0 == k
  {
    if IsNested(k) { KeptQualifiersKeys(k, v.entries); }
  }

  // ---- The round trip over the wire ----

  lemma EncodedIsRead(key: string, v: Item)
    requires !Unserializable(v) && !IsNone(v)
    ensures Decode(key, Encode(v)) == Ok([(key, v)])
  {
    if v.Leaf? && v.leaf.TensorLeaf? { DtypeNamesParse(v.leaf.tensor.dtype); }
  }

  lemma {:induction false} EncodeAllExactly(flat: Items<string, Item>)
    ensures EncodeAll(flat).Err? <==> exists e :: e in flat && Unserializable(e.1)
    ensures EncodeAll(flat).Ok? ==> (EncodeAll(flat).value == [] <==> Kept(flat) == [])
    ensures EncodeAll(flat).Ok? ==> DecodeAll(EncodeAll(flat).value) == Ok(Kept(flat))
    decreases |flat|
  {
    if flat != [] {
      EncodeAllExactly(flat[1..]);
      assert flat == [flat[0]] + flat[1..];
      assert forall e :: e in flat <==> e == flat[0] || e in flat[1..];
      if IsNone(flat[0].1) {
        assert Kept(flat) == Kept(flat[1..]);
      } else if !Unserializable(flat[0].1) {
        EncodedIsRead(flat[0].0, flat[0].1);
        if EncodeAll(flat).Ok? {
          assert EncodeAll(flat).value[1..] == EncodeAll(flat[1..]).value;
        }
      }
    }
  }

  lemma FlatNeedsItems(p: Payload<Leaf>)
    requires Regular(p) && LayersIndexed(p)
    ensures Prune(p) == [] <==> FlatItems(p) == []
  {
    UnflattenUndoesFlatten(p);
    InsertedIsNotEmpty([], FlatItems(p));
  }

  lemma {:induction false} InsertedIsNotEmpty(p: Payload<Leaf>, flat: Items<string, Item>)
    ensures InsertAll(p, flat).Ok? && (p != [] || flat != []) ==> InsertAll(p, flat).value != []
    decreases |flat|
  {
    if flat != [] {
      var q := Insert(p, flat[0].0, flat[0].1);
      if q.Ok? { InsertedIsNotEmpty(q.value, flat[1..]); }
    }
  }

  /** Serialization fails exactly on bfloat16 tensors; otherwise it sends nothing exactly
      when nothing but None and empty dicts is there, and what is sent is read back as the
      payload without those. */
  lemma TransportRoundTrip(p: Payload<Leaf>)
    requires Regular(p) && LayersIndexed(p)
    ensures Serialize(p).Err? <==>
              exists e :: e in Flatten(p) && e.1.Leaf? && e.1.leaf.TensorLeaf? && e.1.leaf.tensor.dtype.BFloat16?
    ensures Serialize(p).Ok? ==> (Serialize(p).value.None? <==> Prune(WithoutNone(p)) == [])
    ensures Serialize(p).Ok? && Serialize(p).value.Some? ==>
              Deserialize(Serialize(p).value.value) == Ok(Prune(WithoutNone(p)))
  {
    UnflattenUndoesFlatten(p);
    EncodeAllExactly(Flatten(p));
    FlatKeptItems(p);
    WithoutNoneKeys(p);
    FlatNeedsItems(WithoutNone(p));
    UnflattenUndoesFlatten(WithoutNone(p));
  }

  /** The one form of its value an entry carries: a tensor's elements, shape and dtype, the items
      of a list, or the value itself. */
  ghost predicate Carries(e: Entry, v: Item) {
    if v.Leaf? && v.leaf.TensorLeaf? then
      var t := v.leaf.tensor;
      e == Entry(Some(t.data), t.shape, DtypeName(t.dtype), None, None)
    else if v.Leaf? && v.leaf.ListLeaf? then e == Entry(None, [], "", Some(v.leaf.items), None)
    else e == Entry(None, [], "", None, Some(v))
  }

  lemma EncodedCarries(v: Item)
    requires !Unserializable(v) && !IsNone(v)
    ensures Carries(Encode(v), v)
  {
  }

  ghost predicate WiredAt(v: Option<Item>, e: Option<Entry>) {
    && (e.Some? <==> v.Some? && v.value != Leaf(NoneLeaf))
    && (e.Some? ==> Carries(e.value, v.value))
  }

  lemma {:induction false} EncodedAt(flat: Items<string, Item>, key: string)
    requires Unique(flat) && EncodeAll(flat).Ok?
    ensures WiredAt(Get(flat, key), Get(EncodeAll(flat).value, key))
    decreases |flat|
  {
    if flat != [] {
      assert [] + flat == flat;
      DropKeepsUnique([], flat);
      GetNoneIfLacks(flat[1..], flat[0].0);
      EncodedAt(flat[1..], key);
      if !IsNone(flat[0].1) {
        EncodedCarries(flat[0].1);
        hide Encode, Carries, Unserializable;
        assert EncodeAll(flat).value == [(flat[0].0, Encode(flat[0].1))] + EncodeAll(flat[1..]).value;
        assert EncodeAll(flat).value[1..] == EncodeAll(flat[1..]).value;
      } else {
        NoneIsNoneLeaf(flat[0].1);
        hide Encode, Carries, Unserializable, IsNone;
      }
    }
  }

  lemma NoneIsNoneLeaf(v: Item)
    ensures IsNone(v) <==> v == Leaf(NoneLeaf)
  {
  }

  /** What is on the wire: an entry for exactly the flat keys whose value is not None, in the
      form that fits the value. */
  lemma WireHolds(p: Payload<Leaf>, key: string)
    requires Serialize(p).Ok?
    ensures var wire := if Serialize(p).value.Some? then Serialize(p).value.value else [];
            var v, e: Option<Entry> := Get(Flatten(p), key), Get(wire, key);
            WiredAt(v, e)
  {
    FlattenIsDict(p);
    EncodedAt(Flatten(p), key);
  }

  /** A tensor entry without a dtype is read as float32. */
  lemma NoDtypeIsFloat32(e: Entry)
    requires e.tensorData.Some? && e.tensorDtype == ""
    ensures DecodeTensor(e)
            == if |e.tensorData.value| != Product(e.tensorShape) then Err(BadTensor)
               else Ok(Leaf(TensorLeaf(TensorRep(Float32, e.tensorShape, e.tensorData.value))))
  {
    DtypeNamesParse(Float32);
  }

  method SerializePayload(p: Payload<Leaf>) returns (r: Result<Option<Items<string, Entry>>, WireError>)
    ensures r == Serialize(p)
  {
    var flat := FlattenPayload(p);
    FlattenIsDict(p);
    var entries: Items<string, Entry> := [];
    assert flat[0..] == flat;
    PrefixedByNone(EncodeAll(flat));
    for i := 0 to |flat|
      invariant forall e :: e in entries ==> exists j :: 0 <= j < i && flat[j].0 == e.0
      invariant EncodeAll(flat) == Prefixed(entries, EncodeAll(flat[i..]))
    {
      var (key, value) := flat[i];
      assert flat[i..][1..] == flat[i + 1..];
      assert flat[i..][0] == flat[i];
      hide Flatten, Encode, Unserializable, IsNone, Put;
      if !IsNone(value) {
        if Unserializable(value) {
          return Err(UnsupportedDtype);
        }
        EncodeOneMore(entries, flat, i);
        PutNew(entries, key, Encode(value));
        entries := Put(entries, key, Encode(value));
      }
    }
    assert flat[|flat|..] == [] && entries + [] == entries;
    r := Ok(if entries != [] then Some(entries) else None);
  }

  ghost function Prefixed<T>(done: seq<T>, rest: Result<seq<T>, WireError>): Result<seq<T>, WireError> {
    if rest.Err? then rest else Ok(done + rest.value)
  }

  lemma PrefixedByNone<T>(r: Result<seq<T>, WireError>)
    ensures Prefixed([], r) == r
  {
    if r.Ok? { assert [] + r.value == r.value; }
  }

  lemma EncodeOneMore(done: Items<string, Entry>, flat: Items<string, Item>, i: nat)
    requires i < |flat| && !IsNone(flat[i].1) && !Unserializable(flat[i].1)
    ensures Prefixed(done, EncodeAll(flat[i..]))
              == Prefixed(done + [(flat[i].0, Encode(flat[i].1))], EncodeAll(flat[i + 1..]))
  {
    assert flat[i..][1..] == flat[i + 1..];
    var rest := EncodeAll(flat[i + 1..]);
    if rest.Ok? { ConcatAssociates(done, [(flat[i].0, Encode(flat[i].1))], rest.value); }
  }

  lemma FlattenIsDict<T>(p: Payload<T>)
    ensures Unique(Flatten(p))
  {
    PutAllUnique([], FlatItems(p));
  }

  method DeserializePayload(wire: Items<string, Entry>) returns (r: Result<Payload<Leaf>, WireError>)
    requires Unique(wire)
    ensures r == Deserialize(wire)
  {
    var flat: Items<string, Item> := [];
    assert wire[0..] == wire;
    PrefixedByNone(DecodeAll(wire));
    for i := 0 to |wire|
      invariant forall e :: e in flat ==> exists j :: 0 <= j < i && wire[j].0 == e.0
      invariant DecodeAll(wire) == Prefixed(flat, DecodeAll(wire[i..]))
    {
      var (key, entry) := wire[i];
      var one := Decode(key, entry);
      DecodeOneMore(flat, wire, i);
      if one.Err? {
        return Err(one.error);
      }
      if one.value != [] {
        PutNew(flat, key, one.value[0].1);
        flat := Put(flat, key, one.value[0].1);
      } else {
        assert flat + [] == flat;
      }
    }
    assert wire[|wire|..] == [] && flat + [] == flat;
    var p := UnflattenPayload(flat);
    r := if p.Err? then Err(BadPayload(p.error)) else Ok(p.value);
  }

  lemma DecodeOneMore(done: Items<string, Item>, wire: Items<string, Entry>, i: nat)
    requires i < |wire|
    ensures var one := Decode(wire[i].0, wire[i].1);
            Prefixed(done, DecodeAll(wire[i..]))
            == if one.Err? then one else Prefixed(done + one.value, DecodeAll(wire[i + 1..]))
  {
    assert wire[i..][1..] == wire[i + 1..];
    var one, rest := Decode(wire[i].0, wire[i].1), DecodeAll(wire[i + 1..]);
    if one.Ok? && rest.Ok? { ConcatAssociates(done, one.value, rest.value); }
  }
}
