/**
 vllm_omni/data_entry_keys.py: payloads of nested categories, their flat form with dotted
 keys, and the schema.  A payload maps strings to values; a value is a leaf or a dict,
 whose keys are strings or integers.
 */
module DataEntryKeys {
  import opened Common
  import opened OrderedDict
  import opened Decimal

  datatype Key = Str(s: string) | Int(n: int)
  datatype Value<T> = Leaf(leaf: T) | Dict(entries: Items<Key, Value<T>>)
  type Payload<T> = Items<string, Value<T>>

  datatype Error = TypeError | ValueError

  const HIDDEN: string := "hidden_states"
  const LAYERS: string := "layers"
  const LAYER: string := "layer_"

  predicate IsNested(k: string) {
    k == HIDDEN || k == "embed" || k == "ids" || k == "codes" || k == "meta"
  }

  function Text(k: Key): string {
    match k
    case Str(s) => s
    case Int(n) => IntText(n)
  }

  function Dotted(category: string, qualifier: string): string {
    category + "." + qualifier
  }

  // ---- Flattening ----

  function FlatLayers<T>(layers: Items<Key, Value<T>>): (r: Items<string, Value<T>>)
    ensures |r| == |layers|
  {
    if layers == [] then []
    else [(Dotted(HIDDEN, LAYER + Text(layers[0].0)), layers[0].1)] + FlatLayers(layers[1..])
  }

  predicate IsLayers<T>(category: string, k: Key, v: Value<T>) {
    category == HIDDEN && k == Str(LAYERS) && v.Dict?
  }

  function FlatQualifier<T>(category: string, k: Key, v: Value<T>): Items<string, Value<T>> {
    if IsLayers(category, k, v) then FlatLayers(v.entries) else [(Dotted(category, Text(k)), v)]
  }

  function FlatCategory<T>(category: string, sub: Items<Key, Value<T>>): Items<string, Value<T>> {
    if sub == [] then [] else FlatQualifier(category, sub[0].0, sub[0].1) + FlatCategory(category, sub[1..])
  }

  function FlatItem<T>(k: string, v: Value<T>): Items<string, Value<T>> {
    if IsNested(k) && v.Dict? then FlatCategory(k, v.entries) else [(k, v)]
  }

  /** The assignments flattening makes, in order. */
  function FlatItems<T>(p: Payload<T>): Items<string, Value<T>> {
    if p == [] then [] else FlatItem(p[0].0, p[0].1) + FlatItems(p[1..])
  }

  /** `flatten_payload`. */
  function Flatten<T>(p: Payload<T>): Items<string, Value<T>> {
    PutAll([], FlatItems(p))
  }

  // ---- Unflattening ----

  /** The index of the first dot, or the length. */
  function DotAt(s: string): (i: nat)
    ensures i <= |s| && (i < |s| ==> s[i] == '.')
    ensures forall j :: 0 <= j < i ==> s[j] != '.'
  {
    if s == "" || s[0] == '.' then 0 else 1 + DotAt(s[1..])
  }

  function Category(key: string): string { key[..DotAt(key)] }

  function Qualifier(key: string): string
    requires DotAt(key) < |key|
  {
    key[DotAt(key) + 1..]
  }

  predicate IsLayerName(q: string) {
    |q| >= |LAYER| && q[..|LAYER|] == LAYER
  }


  /** The effect of one dotted item on the dict of its category. */
  function InsertQualifier<T>(category: string, sub: Items<Key, Value<T>>, q: string, v: Value<T>)
    : Result<Items<Key, Value<T>>, Error>
  {
    if category == HIDDEN && IsLayerName(q) then
      var found: Option<Value<T>> := Get(sub, Str(LAYERS));
      if found.Some? && found.value.Leaf? then Err(TypeError)
      else
        var layers := if found.Some? then found.value.entries else [];
        var n := ParseInt(q[|LAYER|..]);
        if n.None? then Err(ValueError)
        else Ok(Put(sub, Str(LAYERS), Dict(Put(layers, Int(n.value), v))))
    else Ok(Put(sub, Str(q), v))
  }

  /** The effect of one item of the flat form on the nested result. */
  function Insert<T>(p: Payload<T>, key: string, v: Value<T>): Result<Payload<T>, Error> {
    if DotAt(key) == |key| then Ok(Put(p, key, v))
    else
      var found: Option<Value<T>> := Get(p, Category(key));
      if found.Some? && found.value.Leaf? then Err(TypeError)
      else
        var sub := InsertQualifier(Category(key), if found.Some? then found.value.entries else [], Qualifier(key), v);
        if sub.Err? then Err(sub.error) else Ok(Put(p, Category(key), Dict(sub.value)))
  }

  function InsertAll<T>(p: Payload<T>, items: Items<string, Value<T>>): Result<Payload<T>, Error>
    decreases |items|
  {
    if items == [] then Ok(p)
    else
      var q := Insert(p, items[0].0, items[0].1);
      if q.Err? then q else InsertAll(q.value, items[1..])
  }

  /** `unflatten_payload`. */
  function Unflatten<T>(flat: Items<string, Value<T>>): Result<Payload<T>, Error> {
    InsertAll([], flat)
  }

  // ---- The schema ----

  const ROOT_KEYS: seq<string> :=
    ["hidden_states", "embed", "ids", "codes", "meta", "latent", "generated_len", "model_outputs",
     "mtp_inputs", "speaker", "language", "request_id"]

  const NESTED_KEYS: seq<string> := ["hidden_states", "embed", "ids", "codes", "meta"]

  function SubKeys(category: string): seq<string> {
    if category == "hidden_states" then ["output", "trailing_text", "last", "layers"]
    else if category == "embed" then
      ["prefill", "decode", "cached_decode", "tts_bos", "tts_eos", "tts_pad", "tts_pad_projected",
       "voice", "speech_feat", "thinker_reply"]
    else if category == "ids" then ["all", "prompt", "output", "speech_token", "prior_image"]
    else if category == "codes" then ["audio", "ref"]
    else
      ["finished", "left_context_size", "override_keys", "num_processed_tokens", "next_stage_prompt_len",
       "ar_width", "eol_token_id", "visual_token_start_id", "visual_token_end_id", "gen_token_mask",
       "omni_task", "height", "width", "decode_flag", "codec_streaming", "ref_code_len",
       "talker_prefill_offset"]
  }

  predicate KnownSubKey(category: string, k: Key) {
    k.Str? && k.s in SubKeys(category)
  }

  /** What `assert_payload` accepts. */
  ghost predicate SchemaValid<T>(p: Payload<T>) {
    && (forall e :: e in p ==> e.0 in ROOT_KEYS)
    && (forall e :: e in p && e.0 in NESTED_KEYS ==>
          e.1.Dict? && forall s :: s in e.1.entries ==> KnownSubKey(e.0, s.0))
  }

  /** What a payload needs to survive flattening, given that its dicts are dicts. */
  ghost predicate Regular<T>(p: Payload<T>) {
    && Unique(p)
    && (forall e :: e in p ==> '.' !in e.0)
    && (forall e :: e in p && IsNested(e.0) ==> e.1.Dict? && RegularSub(e.0, e.1.entries))
  }

  ghost predicate RegularSub<T>(category: string, sub: Items<Key, Value<T>>) {
    && Unique(sub)
    && (forall s :: s in sub ==> s.0.Str?)
    && (category == HIDDEN ==> forall s :: s in sub ==> !IsLayerName(s.0.s))
    && (forall s :: s in sub && IsLayers(category, s.0, s.1) ==> Unique(s.1.entries))
  }

  /** Every key of the payload's layers is an integer. */
  ghost predicate LayersIndexed<T>(p: Payload<T>) {
    forall e :: e in p && IsNested(e.0) && e.1.Dict? ==> SubIndexed(e.0, e.1.entries)
  }

  ghost predicate SubIndexed<T>(category: string, sub: Items<Key, Value<T>>) {
    forall s :: s in sub && IsLayers(category, s.0, s.1) ==> IntKeys(s.1.entries)
  }

  ghost predicate IntKeys<T>(layers: Items<Key, Value<T>>) {
    forall i :: 0 <= i < |layers| ==> layers[i].0.Int?
  }

  // ---- Leaving out empty dicts ----

  function PruneQualifier<T>(category: string, k: Key, v: Value<T>): Items<Key, Value<T>> {
    if IsLayers(category, k, v) && v.entries == [] then [] else [(k, v)]
  }

  function PruneCategory<T>(category: string, sub: Items<Key, Value<T>>): (r: Items<Key, Value<T>>)
    ensures forall s :: s in r ==> s in sub
  {
    if sub == [] then []
    else PruneQualifier(category, sub[0].0, sub[0].1) + PruneCategory(category, sub[1..])
  }

  function PruneItem<T>(k: string, v: Value<T>): Payload<T> {
    if IsNested(k) && v.Dict? then AtEnd([], k, PruneCategory(k, v.entries)) else [(k, v)]
  }

  /** The payload without its empty categories and empty layers. */
  function Prune<T>(p: Payload<T>): Payload<T> {
    if p == [] then [] else PruneItem(p[0].0, p[0].1) + Prune(p[1..])
  }

  /** A payload and one category after it, unless that is empty. */
  function AtEnd<T>(p: Payload<T>, k: string, sub: Items<Key, Value<T>>): Payload<T> {
    if sub == [] then p else p + [(k, Dict(sub))]
  }

  function LayersAtEnd<T>(sub: Items<Key, Value<T>>, layers: Items<Key, Value<T>>): Items<Key, Value<T>> {
    if layers == [] then sub else sub + [(Str(LAYERS), Dict(layers))]
  }

  // ---- Dotted keys ----

  lemma DottedSplits(category: string, q: string)
    requires '.' !in category
    ensures DotAt(Dotted(category, q)) == |category| < |Dotted(category, q)|
    ensures Category(Dotted(category, q)) == category && Qualifier(Dotted(category, q)) == q
  {
    var s := Dotted(category, q);
    assert s[|category|] == '.';
    forall j | 0 <= j < |category| ensures s[j] != '.' { assert s[j] == category[j]; }
  }

  lemma NoDot(s: string)
    requires '.' !in s
    ensures DotAt(s) == |s|
  {
  }

  // ---- Unflattening what was flattened ----

  /** Inserting below a category that stands last, or not at all. */
  lemma InsertIsLocal<T>(p: Payload<T>, k: string, sub: Items<Key, Value<T>>, q: string, v: Value<T>)
    requires Lacks(p, k) && '.' !in k
    requires InsertQualifier(k, sub, q, v).Ok?
    ensures Insert(AtEnd(p, k, sub), Dotted(k, q), v) == Ok(p + [(k, Dict(InsertQualifier(k, sub, q, v).value))])
  {
    DottedSplits(k, q);
    var s := InsertQualifier(k, sub, q, v);
    hide InsertQualifier, DotAt, Category, Qualifier, Dotted;
    if sub == [] {
      GetNoneIfLacks(p, k);
      PutNew(p, k, Dict(s.value));
    } else {
      LastItem(p, k, Dict(sub), Dict(s.value));
    }
  }

  lemma InsertLayer<T>(sub: Items<Key, Value<T>>, layers: Items<Key, Value<T>>, n: int, v: Value<T>)
    requires Lacks(sub, Str(LAYERS)) && Lacks(layers, Int(n))
    ensures InsertQualifier(HIDDEN, LayersAtEnd(sub, layers), LAYER + IntText(n), v)
            == Ok(LayersAtEnd(sub, layers + [(Int(n), v)]))
  {
    var q := LAYER + IntText(n);
    assert q[..|LAYER|] == LAYER && q[|LAYER|..] == IntText(n);
    ParseUndoesPrint(n);
    PutNew(layers, Int(n), v);
    var more := Dict(layers + [(Int(n), v)]);
    if layers == [] {
      GetNoneIfLacks(sub, Str(LAYERS));
      PutNew(sub, Str(LAYERS), more);
    } else {
      LastItem(sub, Str(LAYERS), Dict(layers), more);
    }
  }

  lemma {:induction false} InsertAllConcat<T>(p: Payload<T>, a: Items<string, Value<T>>, b: Items<string, Value<T>>)
    ensures var m := InsertAll(p, a);
            InsertAll(p, a + b) == if m.Err? then m else InsertAll(m.value, b)
    decreases |a|
  {
    if a == [] {
      assert a + b == b;
    } else {
      assert (a + b)[1..] == a[1..] + b;
      var q := Insert(p, a[0].0, a[0].1);
      if q.Ok? { InsertAllConcat(q.value, a[1..], b); }
    }
  }

  lemma LayerStep<T>(p: Payload<T>, sub: Items<Key, Value<T>>, done: Items<Key, Value<T>>, layers: Items<Key, Value<T>>)
    requires Lacks(p, HIDDEN) && Lacks(sub, Str(LAYERS))
    requires layers != [] && Unique(done + layers) && layers[0].0.Int?
    ensures Insert(AtEnd(p, HIDDEN, LayersAtEnd(sub, done)), Dotted(HIDDEN, LAYER + Text(layers[0].0)), layers[0].1)
            == Ok(AtEnd(p, HIDDEN, LayersAtEnd(sub, done + [layers[0]])))
  {
    var (k, v) := layers[0];
    UniqueParts(done, layers);
    InsertLayer(sub, done, k.n, v);
    InsertIsLocal(p, HIDDEN, LayersAtEnd(sub, done), LAYER + IntText(k.n), v);
  }

  lemma {:induction false} LayersBack<T>(p: Payload<T>, sub: Items<Key, Value<T>>,
                                         done: Items<Key, Value<T>>, layers: Items<Key, Value<T>>)
    requires Lacks(p, HIDDEN) && Lacks(sub, Str(LAYERS)) && Unique(done + layers) && IntKeys(layers)
    ensures InsertAll(AtEnd(p, HIDDEN, LayersAtEnd(sub, done)), FlatLayers(layers))
            == Ok(AtEnd(p, HIDDEN, LayersAtEnd(sub, done + layers)))
    decreases |layers|
  {
    if layers == [] {
      assert done + layers == done;
    } else {
      var (k, v) := layers[0];
      LayerStep(p, sub, done, layers);
      hide Unique, Lacks, AtEnd, LayersAtEnd, InsertQualifier, Insert;
      ConcatAssociates(done, [layers[0]], layers[1..]);
      assert [layers[0]] + layers[1..] == layers;
      assert FlatLayers(layers)[1..] == FlatLayers(layers[1..]);
      LayersBack(p, sub, done + [layers[0]], layers[1..]);
    }
  }

  lemma QualifierBack<T>(p: Payload<T>, category: string, done: Items<Key, Value<T>>, s: (Key, Value<T>))
    requires Lacks(p, category) && '.' !in category && Lacks(done, s.0)
    requires RegularSub(category, [s]) && SubIndexed(category, [s])
    ensures InsertAll(AtEnd(p, category, done), FlatQualifier(category, s.0, s.1))
            == Ok(AtEnd(p, category, done + PruneQualifier(category, s.0, s.1)))
  {
    assert s in [s];
    if IsLayers(category, s.0, s.1) {
      assert [] + s.1.entries == s.1.entries;
      LayersBack(p, done, [], s.1.entries);
      assert done + [] == done;
    } else {
      PutNew(done, s.0, s.1);
      InsertIsLocal(p, category, done, s.0.s, s.1);
    }
  }

  lemma {:induction false} CategoryBack<T>(p: Payload<T>, category: string,
                                           done: Items<Key, Value<T>>, sub: Items<Key, Value<T>>)
    requires Lacks(p, category) && '.' !in category && Unique(done + sub)
    requires RegularSub(category, sub) && SubIndexed(category, sub)
    ensures InsertAll(AtEnd(p, category, done), FlatCategory(category, sub))
            == Ok(AtEnd(p, category, done + PruneCategory(category, sub)))
    decreases |sub|
  {
    if sub == [] {
      assert done + [] == done;
    } else {
      var (k, v) := sub[0];
      var more := PruneQualifier(category, k, v);
      CategoryParts(category, done, sub);
      hide Unique, Lacks, RegularSub, SubIndexed, AtEnd, PruneQualifier, FlatQualifier, InsertAll;
      QualifierBack(p, category, done, sub[0]);
      InsertAllConcat(AtEnd(p, category, done), FlatQualifier(category, k, v), FlatCategory(category, sub[1..]));
      CategoryBack(p, category, done + more, sub[1..]);
      ConcatAssociates(done, more, PruneCategory(category, sub[1..]));
    }
  }

  lemma CategoryParts<T>(category: string, done: Items<Key, Value<T>>, sub: Items<Key, Value<T>>)
    requires sub != [] && Unique(done + sub) && RegularSub(category, sub) && SubIndexed(category, sub)
    ensures Lacks(done, sub[0].0)
    ensures Unique(done + PruneQualifier(category, sub[0].0, sub[0].1) + sub[1..])
    ensures RegularSub(category, [sub[0]]) && SubIndexed(category, [sub[0]])
    ensures RegularSub(category, sub[1..]) && SubIndexed(category, sub[1..])
  {
    UniqueParts(done, sub);
    DropKeepsUnique(done, sub);
    assert done + [sub[0]] + sub[1..] == done + sub;
    assert done + [] + sub[1..] == done + sub[1..];
    assert forall s :: s in [sub[0]] || s in sub[1..] ==> s in sub;
  }

  lemma DropKeepsUnique<K, V>(a: Items<K, V>, b: Items<K, V>)
    requires b != [] && Unique(a + b)
    ensures Unique(a + b[1..]) && Unique(b[1..])
  {
    var s, t := a + b, a + b[1..];
    forall i, j | 0 <= i < j < |t| ensures t[i].0 != t[j].0 {
      assert t[i] == s[if i < |a| then i else i + 1];
      assert t[j] == s[if j < |a| then j else j + 1];
    }
    UniqueParts(a, b[1..]);
  }

  lemma AtEndIsAppended<T>(p: Payload<T>, k: string, sub: Items<Key, Value<T>>)
    ensures AtEnd(p, k, sub) == p + AtEnd([], k, sub)
  {
    assert [] + [(k, Dict(sub))] == [(k, Dict(sub))];
  }

  lemma ItemBack<T>(done: Payload<T>, e: (string, Value<T>))
    requires Lacks(done, e.0) && '.' !in e.0
    requires IsNested(e.0) ==> e.1.Dict? && RegularSub(e.0, e.1.entries) && SubIndexed(e.0, e.1.entries)
    ensures InsertAll(done, FlatItem(e.0, e.1)) == Ok(done + PruneItem(e.0, e.1))
  {
    var (k, v) := e;
    if IsNested(k) {
      assert [] + v.entries == v.entries;
      CategoryBack(done, k, [], v.entries);
      assert [] + PruneCategory(k, v.entries) == PruneCategory(k, v.entries);
      AtEndIsAppended(done, k, PruneCategory(k, v.entries));
    } else {
      NoDot(k);
      PutNew(done, k, v);
      assert FlatItem(k, v) == [(k, v)] && [(k, v)][1..] == [];
      assert Insert(done, k, v) == Ok(done + [(k, v)]);
    }
  }

  lemma ItemParts<T>(done: Payload<T>, p: Payload<T>)
    requires p != [] && Unique(done + p) && Regular(p) && LayersIndexed(p)
    ensures Lacks(done, p[0].0) && '.' !in p[0].0
    ensures IsNested(p[0].0) ==>
              p[0].1.Dict? && RegularSub(p[0].0, p[0].1.entries) && SubIndexed(p[0].0, p[0].1.entries)
    ensures Regular(p[1..]) && LayersIndexed(p[1..])
  {
    assert p[0] in p;
    UniqueParts(done, p);
    DropKeepsUnique(done, p);
    assert forall e :: e in p[1..] ==> e in p;
  }

  lemma {:induction false} ItemsBack<T>(done: Payload<T>, p: Payload<T>)
    requires Unique(done + p) && Regular(p) && LayersIndexed(p)
    ensures InsertAll(done, FlatItems(p)) == Ok(done + Prune(p))
    decreases |p|
  {
    if p == [] {
      assert done + [] == done;
    } else {
      var (k, v) := p[0];
      ItemParts(done, p);
      hide Unique, Lacks, Regular, LayersIndexed, RegularSub, SubIndexed, FlatItem, PruneItem, InsertAll;
      ItemBack(done, p[0]);
      InsertAllConcat(done, FlatItem(k, v), FlatItems(p[1..]));
      var more := PruneItem(k, v);
      PrunedItemsUnique(done, p);
      ItemsBack(done + more, p[1..]);
      ConcatAssociates(done, more, Prune(p[1..]));
    }
  }

  lemma PrunedItemsUnique<T>(done: Payload<T>, p: Payload<T>)
    requires p != [] && Unique(done + p)
    ensures Unique(done + PruneItem(p[0].0, p[0].1) + p[1..])
  {
    var more, s := PruneItem(p[0].0, p[0].1), done + p;
    if more == [] {
      DropKeepsUnique(done, p);
      assert done + [] + p[1..] == done + p[1..];
    } else {
      var t := done + more + p[1..];
      assert more[0].0 == p[0].0 && |t| == |s|;
      forall i, j | 0 <= i < j < |t| ensures t[i].0 != t[j].0 {
        assert t[i].0 == s[i].0 && t[j].0 == s[j].0;
      }
    }
  }

  // ---- What a flat key reads ----

  /** The value the flat form has under a key, found by following the key. */
  function Reads<T>(p: Payload<T>, key: string): Option<Value<T>> {
    if DotAt(key) == |key| then
      var v: Option<Value<T>> := Get(p, key);
      if v.Some? && IsNested(key) && v.value.Dict? then None else v
    else
      var sub: Option<Value<T>> := Get(p, Category(key));
      if sub.Some? && sub.value.Dict? && IsNested(Category(key)) then
        ReadsSub(Category(key), sub.value.entries, Qualifier(key))
      else None
  }

  function ReadsSub<T>(category: string, sub: Items<Key, Value<T>>, q: string): Option<Value<T>> {
    if category == HIDDEN && IsLayerName(q) then
      var layers: Option<Value<T>> := Get(sub, Str(LAYERS));
      if layers.Some? && layers.value.Dict? then ReadsLayer(layers.value.entries, q) else None
    else
      var v: Option<Value<T>> := Get(sub, Str(q));
      if v.Some? && IsLayers(category, Str(q), v.value) then None else v
  }

  function ReadsLayer<T>(layers: Items<Key, Value<T>>, q: string): Option<Value<T>>
    requires IsLayerName(q)
  {
    var n := ParseInt(q[|LAYER|..]);
    if n.Some? && IntText(n.value) == q[|LAYER|..] then Get(layers, Int(n.value)) else None
  }

  predicate Below(category: string, key: string) {
    DotAt(key) < |key| && Category(key) == category
  }

  lemma BelowIsDotted(category: string, key: string)
    requires Below(category, key)
    ensures key == Dotted(category, Qualifier(key))
  {
  }

  lemma LayerNames(n: int)
    ensures var q := LAYER + IntText(n); IsLayerName(q) && q[|LAYER|..] == IntText(n)
    ensures var key := Dotted(HIDDEN, LAYER + IntText(n)); Below(HIDDEN, key) && Qualifier(key) == LAYER + IntText(n)
  {
    DottedSplits(HIDDEN, LAYER + IntText(n));
  }

  lemma {:induction false} FlatLayersAt<T>(layers: Items<Key, Value<T>>, i: nat)
    requires i < |layers|
    ensures FlatLayers(layers)[i] == (Dotted(HIDDEN, LAYER + Text(layers[i].0)), layers[i].1)
    decreases i
  {
    if i > 0 { FlatLayersAt(layers[1..], i - 1); }
  }

  ghost predicate InLayers<T>(layers: Items<Key, Value<T>>, key: string, v: Value<T>) {
    Below(HIDDEN, key) && IsLayerName(Qualifier(key)) && ReadsLayer(layers, Qualifier(key)) == Some(v)
  }

  lemma FlatLayersRead<T>(layers: Items<Key, Value<T>>, key: string, v: Value<T>)
    requires Unique(layers) && IntKeys(layers)
    ensures (key, v) in FlatLayers(layers) <==> InLayers(layers, key, v)
  {
    if (key, v) in FlatLayers(layers) {
      var i :| 0 <= i < |layers| && FlatLayers(layers)[i] == (key, v);
      FlatLayersAt(layers, i);
      LayerNames(layers[i].0.n);
      ParseUndoesPrint(layers[i].0.n);
      assert layers[i] in layers;
      GetIsIn(layers, layers[i].0, v);
    }
    if InLayers(layers, key, v) {
      var q := Qualifier(key);
      var n := ParseInt(q[|LAYER|..]).value;
      GetIsIn(layers, Int(n), v);
      var i :| 0 <= i < |layers| && layers[i] == (Int(n), v);
      FlatLayersAt(layers, i);
      BelowIsDotted(HIDDEN, key);
      assert q == LAYER + IntText(n);
      assert FlatLayers(layers)[i] == (key, v);
    }
  }

  lemma FlatLayersUnique<T>(layers: Items<Key, Value<T>>)
    requires Unique(layers) && IntKeys(layers)
    ensures Unique(FlatLayers(layers))
  {
    var flat := FlatLayers(layers);
    forall i, j | 0 <= i < j < |flat| ensures flat[i].0 != flat[j].0 {
      FlatLayersAt(layers, i);
      FlatLayersAt(layers, j);
      LayerNames(layers[i].0.n);
      LayerNames(layers[j].0.n);
      PrintIsInjective(layers[i].0.n, layers[j].0.n);
    }
  }

  ghost predicate InCategory<T>(category: string, sub: Items<Key, Value<T>>, key: string, v: Value<T>) {
    Below(category, key) && ReadsSub(category, sub, Qualifier(key)) == Some(v)
  }

  lemma FlatQualifierReads<T>(category: string, s: (Key, Value<T>), key: string, v: Value<T>)
    requires '.' !in category && RegularSub(category, [s]) && SubIndexed(category, [s])
    ensures (key, v) in FlatQualifier(category, s.0, s.1) <==> InCategory(category, [s], key, v)
  {
    assert s in [s];
    if Below(category, key) {
      BelowIsDotted(category, key);
      GetOnly(s, Str(Qualifier(key)));
      GetOnly(s, Str(LAYERS));
    }
    if IsLayers(category, s.0, s.1) {
      FlatLayersRead(s.1.entries, key, v);
    } else {
      DottedSplits(category, s.0.s);
    }
  }

  lemma SubReadsHeadOrTail<T>(category: string, sub: Items<Key, Value<T>>, key: string, v: Value<T>)
    requires sub != [] && Unique(sub)
    ensures InCategory(category, sub, key, v) <==>
            InCategory(category, [sub[0]], key, v) || InCategory(category, sub[1..], key, v)
    ensures !(InCategory(category, [sub[0]], key, v) && exists w :: InCategory(category, sub[1..], key, w))
  {
    if Below(category, key) {
      var q := Qualifier(key);
      var k := Str(if category == HIDDEN && IsLayerName(q) then LAYERS else q);
      GetOnly(sub[0], k);
      if sub[0].0 == k { GetNoneIfLacks(sub[1..], k); }
    }
  }

  lemma {:induction false} FlatCategoryReads<T>(category: string, sub: Items<Key, Value<T>>, key: string, v: Value<T>)
    requires '.' !in category && RegularSub(category, sub) && SubIndexed(category, sub)
    ensures (key, v) in FlatCategory(category, sub) <==> InCategory(category, sub, key, v)
    decreases |sub|
  {
    if sub != [] {
      assert [] + sub == sub;
      CategoryParts(category, [], sub);
      SubReadsHeadOrTail(category, sub, key, v);
      hide RegularSub, SubIndexed, InCategory, FlatQualifier, Unique;
      FlatQualifierReads(category, sub[0], key, v);
      FlatCategoryReads(category, sub[1..], key, v);
    }
  }

  lemma QualifiersApart<T>(category: string, sub: Items<Key, Value<T>>, key: string, v: Value<T>, w: Value<T>)
    requires sub != [] && '.' !in category && RegularSub(category, sub) && SubIndexed(category, sub)
    ensures (key, v) in FlatQualifier(category, sub[0].0, sub[0].1) ==> (key, w) !in FlatCategory(category, sub[1..])
  {
    assert [] + sub == sub;
    CategoryParts(category, [], sub);
    FlatQualifierReads(category, sub[0], key, v);
    FlatCategoryReads(category, sub[1..], key, w);
    SubReadsHeadOrTail(category, sub, key, v);
  }

  lemma {:induction false} FlatCategoryUnique<T>(category: string, sub: Items<Key, Value<T>>)
    requires '.' !in category && RegularSub(category, sub) && SubIndexed(category, sub)
    ensures Unique(FlatCategory(category, sub))
    decreases |sub|
  {
    if sub != [] {
      assert [] + sub == sub;
      CategoryParts(category, [], sub);
      FlatCategoryUnique(category, sub[1..]);
      var a, b := FlatQualifier(category, sub[0].0, sub[0].1), FlatCategory(category, sub[1..]);
      FlatQualifierUnique(category, sub[0]);
      forall i, j | 0 <= i < |a| && 0 <= j < |b| ensures a[i].0 != b[j].0 {
        if a[i].0 == b[j].0 {
          var key := a[i].0;
          assert (key, a[i].1) in a && (key, b[j].1) in b;
          QualifiersApart(category, sub, key, a[i].1, b[j].1);
          assert false;
        }
      }
      ConcatUnique(a, b);
    }
  }

  lemma FlatQualifierUnique<T>(category: string, s: (Key, Value<T>))
    requires RegularSub(category, [s]) && SubIndexed(category, [s])
    ensures Unique(FlatQualifier(category, s.0, s.1))
  {
    assert s in [s];
    if IsLayers(category, s.0, s.1) { FlatLayersUnique(s.1.entries); }
  }

  // ---- The whole payload ----

  ghost predicate InPayload<T>(p: Payload<T>, key: string, v: Value<T>) {
    Reads(p, key) == Some(v)
  }

  lemma FlatItemReads<T>(e: (string, Value<T>), key: string, v: Value<T>)
    requires '.' !in e.0
    requires IsNested(e.0) ==> e.1.Dict? && RegularSub(e.0, e.1.entries) && SubIndexed(e.0, e.1.entries)
    ensures (key, v) in FlatItem(e.0, e.1) <==> InPayload([e], key, v)
    ensures (key, v) in FlatItem(e.0, e.1) ==> Category(key) == e.0
  {
    NoDot(e.0);
    GetOnly(e, key);
    GetOnly(e, Category(key));
    if IsNested(e.0) { FlatCategoryReads(e.0, e.1.entries, key, v); }
  }

  lemma ReadsHeadOrTail<T>(p: Payload<T>, key: string, v: Value<T>)
    requires p != [] && Unique(p)
    ensures InPayload(p, key, v) <==> InPayload([p[0]], key, v) || InPayload(p[1..], key, v)
    ensures !(InPayload([p[0]], key, v) && exists w :: InPayload(p[1..], key, w))
  {
    var k := Category(key);
    GetOnly(p[0], k);
    assert DotAt(key) == |key| ==> k == key;
    hide ReadsSub, IsNested, DotAt, Category, Qualifier;
    if p[0].0 == k { GetNoneIfLacks(p[1..], k); }
  }

  /** The flat form holds a value under a key exactly if following the key finds it. */
  lemma {:induction false} FlatItemsRead<T>(p: Payload<T>, key: string, v: Value<T>)
    requires Regular(p) && LayersIndexed(p)
    ensures (key, v) in FlatItems(p) <==> InPayload(p, key, v)
    decreases |p|
  {
    if p != [] {
      assert [] + p == p;
      ItemParts([], p);
      ReadsHeadOrTail(p, key, v);
      hide Regular, LayersIndexed, RegularSub, SubIndexed, InPayload, FlatItem, Unique;
      FlatItemReads(p[0], key, v);
      FlatItemsRead(p[1..], key, v);
    }
  }

  lemma FlatItemUnique<T>(e: (string, Value<T>))
    requires '.' !in e.0
    requires IsNested(e.0) ==> e.1.Dict? && RegularSub(e.0, e.1.entries) && SubIndexed(e.0, e.1.entries)
    ensures Unique(FlatItem(e.0, e.1))
  {
    if IsNested(e.0) { FlatCategoryUnique(e.0, e.1.entries); }
  }

  lemma ItemsApart<T>(p: Payload<T>, key: string, v: Value<T>, w: Value<T>)
    requires p != [] && Regular(p) && LayersIndexed(p)
    ensures (key, v) in FlatItem(p[0].0, p[0].1) ==> (key, w) !in FlatItems(p[1..])
  {
    assert [] + p == p;
    ItemParts([], p);
    FlatItemReads(p[0], key, v);
    FlatItemsRead(p[1..], key, w);
    ReadsHeadOrTail(p, key, v);
  }

  /** Flattening never gives two entries one key. */
  lemma {:induction false} FlatItemsUnique<T>(p: Payload<T>)
    requires Regular(p) && LayersIndexed(p)
    ensures Unique(FlatItems(p))
    decreases |p|
  {
    if p != [] {
      assert [] + p == p;
      ItemParts([], p);
      FlatItemsUnique(p[1..]);
      FlatItemUnique(p[0]);
      var a, b := FlatItem(p[0].0, p[0].1), FlatItems(p[1..]);
      forall i, j | 0 <= i < |a| && 0 <= j < |b| ensures a[i].0 != b[j].0 {
        if a[i].0 == b[j].0 {
          var key := a[i].0;
          assert (key, a[i].1) in a && (key, b[j].1) in b;
          ItemsApart(p, key, a[i].1, b[j].1);
          assert false;
        }
      }
      ConcatUnique(a, b);
    }
  }

  // ---- The names of the flat form ----

  lemma FlattenHolds<T>(p: Payload<T>, key: string, v: Value<T>)
    requires Regular(p) && LayersIndexed(p)
    ensures (key, v) in Flatten(p) <==> InPayload(p, key, v)
  {
    FlatItemsUnique(p);
    assert [] + FlatItems(p) == FlatItems(p);
    PutAllNew([], FlatItems(p));
    FlatItemsRead(p, key, v);
  }

  /** Layer n of the hidden states travels as "hidden_states.layer_n". */
  lemma LayerOnTheWire<T>(p: Payload<T>, sub: Items<Key, Value<T>>, layers: Items<Key, Value<T>>, n: int, v: Value<T>)
    requires Regular(p) && LayersIndexed(p)
    requires Get(p, "hidden_states") == Some(Dict(sub)) && Get(sub, Str("layers")) == Some(Dict(layers))
    requires Get(layers, Int(n)) == Some(v)
    ensures ("hidden_states.layer_" + IntText(n), v) in Flatten(p)
  {
    var q := "layer_" + IntText(n);
    LayerName(IntText(n));
    hide Regular, LayersIndexed, Flatten, Reads, ReadsSub, IntText;
    LayerReads(sub, layers, n, v);
    EntryReads(p, "hidden_states", sub, q);
    hide Get, Dotted;
    FlattenHolds(p, Dotted("hidden_states", q), v);
  }

  lemma LayerName(n: string)
    ensures "hidden_states.layer_" + n == Dotted("hidden_states", "layer_" + n)
  {
  }

  lemma LayerReads<T>(sub: Items<Key, Value<T>>, layers: Items<Key, Value<T>>, n: int, v: Value<T>)
    requires Get(sub, Str("layers")) == Some(Dict(layers)) && Get(layers, Int(n)) == Some(v)
    ensures ReadsSub("hidden_states", sub, "layer_" + IntText(n)) == Some(v)
  {
    var q := "layer_" + IntText(n);
    ParseUndoesPrint(n);
    hide ParseInt, IntText;
    assert q[..6] == "layer_" && q[6..] == IntText(n);
    assert IsLayerName(q) && |LAYER| == 6;
    assert ReadsLayer(layers, q) == Some(v);
    hide ReadsLayer;
  }

  lemma EntryReads<T>(p: Payload<T>, category: string, sub: Items<Key, Value<T>>, q: string)
    requires '.' !in category && IsNested(category) && Get(p, category) == Some(Dict(sub))
    ensures Reads(p, Dotted(category, q)) == ReadsSub(category, sub, q)
  {
    DottedSplits(category, q);
    hide Dotted, DotAt, Category, Qualifier, ReadsSub;
  }

  /** Any other entry of a category travels as "category.name". */
  lemma EntryOnTheWire<T>(p: Payload<T>, category: string, sub: Items<Key, Value<T>>, name: string, v: Value<T>)
    requires Regular(p) && LayersIndexed(p) && category in {"hidden_states", "embed", "ids", "codes", "meta"}
    requires Get(p, category) == Some(Dict(sub)) && Get(sub, Str(name)) == Some(v)
    requires category == "hidden_states" && name == "layers" ==> !v.Dict?
    ensures (category + "." + name, v) in Flatten(p)
  {
    EntryIsRegular(p, category, sub, name, v);
    EntryReads(p, category, sub, name);
    FlattenHolds(p, Dotted(category, name), v);
    hide Regular, LayersIndexed, Flatten, Reads, IsLayerName;
  }

  lemma EntryIsRegular<T>(p: Payload<T>, category: string, sub: Items<Key, Value<T>>, name: string, v: Value<T>)
    requires Regular(p) && Get(p, category) == Some(Dict(sub)) && Get(sub, Str(name)) == Some(v) && IsNested(category)
    ensures '.' !in category && (category == HIDDEN ==> !IsLayerName(name))
  {
    GetIsIn(p, category, Dict(sub));
    GetIsIn(sub, Str(name), v);
  }

  /** What is no category travels under its own name. */
  lemma PlainOnTheWire<T>(p: Payload<T>, k: string, v: Value<T>)
    requires Regular(p) && LayersIndexed(p) && k !in {"hidden_states", "embed", "ids", "codes", "meta"}
    requires Get(p, k) == Some(v)
    ensures (k, v) in Flatten(p)
  {
    GetIsIn(p, k, v);
    NoDot(k);
    FlattenHolds(p, k, v);
    hide Regular, LayersIndexed, Flatten;
  }

  /** For any regular payload with indexed layers, unflattening the flat form gives the
      payload without its empty dicts. */
  lemma UnflattenUndoesFlatten<T>(p: Payload<T>)
    requires Regular(p) && LayersIndexed(p)
    ensures Flatten(p) == FlatItems(p) && Unique(Flatten(p))
    ensures Unflatten(Flatten(p)) == Ok(Prune(p))
  {
    FlatItemsUnique(p);
    assert [] + FlatItems(p) == FlatItems(p);
    PutAllNew([], FlatItems(p));
    assert [] + p == p;
    ItemsBack([], p);
    assert [] + Prune(p) == Prune(p);
  }

  // ---- Exactly when nothing is lost ----

  /** No category is empty and no layers are. */
  ghost predicate NoEmpty<T>(p: Payload<T>) {
    forall e :: e in p && IsNested(e.0) && e.1.Dict? ==> e.1.entries != [] && SubNoEmpty(e.0, e.1.entries)
  }

  ghost predicate SubNoEmpty<T>(category: string, sub: Items<Key, Value<T>>) {
    forall s :: s in sub && IsLayers(category, s.0, s.1) ==> s.1.entries != []
  }

  lemma {:induction false} PruneCategoryKeepsAll<T>(category: string, sub: Items<Key, Value<T>>)
    ensures |PruneCategory(category, sub)| <= |sub|
    ensures SubNoEmpty(category, sub) <==> PruneCategory(category, sub) == sub
    decreases |sub|
  {
    if sub != [] {
      PruneCategoryKeepsAll(category, sub[1..]);
      var head, rest := PruneQualifier(category, sub[0].0, sub[0].1), PruneCategory(category, sub[1..]);
      assert sub == [sub[0]] + sub[1..];
      if head == [] {
        assert sub[0] in sub;
      } else {
        assert PruneCategory(category, sub)[1..] == rest;
        assert forall s :: s in sub <==> s == sub[0] || s in sub[1..];
      }
    }
  }

  lemma PruneItemKeepsAll<T>(e: (string, Value<T>))
    ensures |PruneItem(e.0, e.1)| <= 1
    ensures NoEmpty([e]) <==> PruneItem(e.0, e.1) == [e]
  {
    assert e in [e];
    if IsNested(e.0) && e.1.Dict? {
      PruneCategoryKeepsAll(e.0, e.1.entries);
      var pruned := PruneCategory(e.0, e.1.entries);
      if PruneItem(e.0, e.1) == [e] {
        assert PruneItem(e.0, e.1)[0] == (e.0, Dict(pruned));
      }
    }
  }

  lemma {:induction false} PruneKeepsAll<T>(p: Payload<T>)
    ensures |Prune(p)| <= |p|
    ensures NoEmpty(p) <==> Prune(p) == p
    decreases |p|
  {
    if p != [] {
      PruneKeepsAll(p[1..]);
      PruneItemKeepsAll(p[0]);
      var head, rest := PruneItem(p[0].0, p[0].1), Prune(p[1..]);
      assert p == [p[0]] + p[1..];
      assert NoEmpty(p) <==> NoEmpty([p[0]]) && NoEmpty(p[1..]) by {
        assert forall e :: e in p <==> e in [p[0]] || e in p[1..];
      }
      hide NoEmpty, PruneItem;
      if |head| == 1 {
        assert Prune(p)[0] == head[0] && Prune(p)[1..] == rest;
      }
    }
  }

  /** An item that cannot bring in layers with other keys than integers. */
  ghost predicate Harmless<T>(key: string, v: Value<T>) {
    v.Dict? ==> !IsNested(key) && key != Dotted(HIDDEN, LAYERS)
  }

  lemma InsertQualifierKeepsIndexed<T>(category: string, sub: Items<Key, Value<T>>, q: string, v: Value<T>)
    requires SubIndexed(category, sub)
    requires v.Dict? ==> !(category == HIDDEN && q == LAYERS)
    ensures var r := InsertQualifier(category, sub, q, v); r.Ok? ==> SubIndexed(category, r.value)
  {
    var r := InsertQualifier(category, sub, q, v);
    if r.Ok? {
      if category == HIDDEN && IsLayerName(q) {
        GotIsIn(sub, Str(LAYERS));
        var n := ParseInt(q[|LAYER|..]).value;
        var found: Option<Value<T>> := Get(sub, Str(LAYERS));
        var layers := if found.Some? then found.value.entries else [];
        PutComesFrom(layers, Int(n), v);
        PutComesFrom(sub, Str(LAYERS), Dict(Put(layers, Int(n), v)));
        var all := Put(layers, Int(n), v);
        forall i | 0 <= i < |all| ensures all[i].0.Int? { assert all[i] in all; }
      } else {
        PutComesFrom(sub, Str(q), v);
      }
    }
  }

  lemma InsertKeepsIndexed<T>(p: Payload<T>, key: string, v: Value<T>)
    requires LayersIndexed(p) && Harmless(key, v)
    ensures Insert(p, key, v).Ok? ==> LayersIndexed(Insert(p, key, v).value)
  {
    if DotAt(key) == |key| {
      PutComesFrom(p, key, v);
    } else {
      BelowIsDotted(Category(key), key);
      var k := Category(key);
      var found: Option<Value<T>> := Get(p, k);
      GotIsIn(p, k);
      if !(found.Some? && found.value.Leaf?) && IsNested(k) {
        InsertQualifierKeepsIndexed(k, if found.Some? then found.value.entries else [], Qualifier(key), v);
      }
      var r := Insert(p, key, v);
      if r.Ok? {
        var sub := InsertQualifier(k, if found.Some? then found.value.entries else [], Qualifier(key), v).value;
        PutComesFrom(p, k, Dict(sub));
      }
    }
  }

  lemma {:induction false} InsertAllKeepsIndexed<T>(p: Payload<T>, items: Items<string, Value<T>>)
    requires LayersIndexed(p) && forall e :: e in items ==> Harmless(e.0, e.1)
    ensures InsertAll(p, items).Ok? ==> LayersIndexed(InsertAll(p, items).value)
    decreases |items|
  {
    if items != [] {
      InsertKeepsIndexed(p, items[0].0, items[0].1);
      var q := Insert(p, items[0].0, items[0].1);
      if q.Ok? { InsertAllKeepsIndexed(q.value, items[1..]); }
    }
  }

  lemma LayerKeyIsHarmless<T>(q: string, v: Value<T>)
    ensures Harmless(Dotted(HIDDEN, LAYER + q), v)
  {
    var key := Dotted(HIDDEN, LAYER + q);
    DottedSplits(HIDDEN, LAYER + q);
    DottedSplits(HIDDEN, LAYERS);
    assert (LAYER + q)[5] == '_' && LAYERS[5] == 's';
    NestedHasNoDot(key);
  }

  lemma NestedHasNoDot(key: string)
    ensures '.' in key ==> !IsNested(key)
  {
  }

  lemma {:induction false} FlatLayersAreHarmless<T>(layers: Items<Key, Value<T>>)
    ensures forall e :: e in FlatLayers(layers) ==> Harmless(e.0, e.1)
    decreases |layers|
  {
    if layers != [] {
      LayerKeyIsHarmless(Text(layers[0].0), layers[0].1);
      FlatLayersAreHarmless(layers[1..]);
    }
  }

  lemma {:induction false} FlatCategoryIsHarmless<T>(category: string, sub: Items<Key, Value<T>>)
    requires '.' !in category && forall s :: s in sub ==> s.0.Str?
    ensures forall e :: e in FlatCategory(category, sub) ==> Harmless(e.0, e.1)
    decreases |sub|
  {
    if sub != [] {
      var (k, v) := sub[0];
      assert sub[0] in sub;
      if IsLayers(category, k, v) {
        FlatLayersAreHarmless(v.entries);
      } else {
        DottedSplits(category, k.s);
        DottedSplits(HIDDEN, LAYERS);
        NestedHasNoDot(Dotted(category, k.s));
      }
      FlatCategoryIsHarmless(category, sub[1..]);
    }
  }

  lemma RegularParts<T>(p: Payload<T>)
    requires p != [] && Regular(p)
    ensures Regular(p[1..])
    ensures IsNested(p[0].0) ==>
              p[0].1.Dict? && '.' !in p[0].0 && forall s :: s in p[0].1.entries ==> s.0.Str?
  {
    assert p[0] in p && [] + p == p;
    DropKeepsUnique([], p);
    assert forall e :: e in p[1..] ==> e in p;
  }

  lemma {:induction false} FlatItemsAreHarmless<T>(p: Payload<T>)
    requires Regular(p)
    ensures forall e :: e in FlatItems(p) ==> Harmless(e.0, e.1)
    decreases |p|
  {
    if p != [] {
      RegularParts(p);
      if IsNested(p[0].0) { FlatCategoryIsHarmless(p[0].0, p[0].1.entries); }
      hide Regular, FlatCategory;
      FlatItemsAreHarmless(p[1..]);
    }
  }

  /** A regular payload survives flattening and unflattening exactly if its layers have
      integer keys and no category or layers dict is empty. */
  lemma RoundTripExactly<T>(p: Payload<T>)
    requires Regular(p)
    ensures Unflatten(Flatten(p)) == Ok(p) <==> LayersIndexed(p) && NoEmpty(p)
  {
    if LayersIndexed(p) {
      UnflattenUndoesFlatten(p);
      PruneKeepsAll(p);
    } else {
      FlatItemsAreHarmless(p);
      PutAllComesFrom([], FlatItems(p));
      InsertAllKeepsIndexed([], Flatten(p));
    }
  }

  /** The dicts of a payload have each key once. */
  ghost predicate DictsUnique<T>(p: Payload<T>) {
    && Unique(p)
    && (forall e :: e in p && e.1.Dict? ==> Unique(e.1.entries))
    && (forall e :: e in p && e.1.Dict? ==> forall s :: s in e.1.entries && s.1.Dict? ==> Unique(s.1.entries))
  }

  lemma RootKeysHaveNoDot(k: string)
    requires k in ROOT_KEYS
    ensures '.' !in k
  {
  }

  lemma NestedKeysAre(k: string)
    ensures IsNested(k) <==> k in NESTED_KEYS
  {
  }

  lemma SubKeysAreNoLayerNames(k: string)
    requires k in SubKeys(HIDDEN)
    ensures !IsLayerName(k)
  {
    assert LAYER[5] == '_';
    if |k| >= 6 {
      assert k[..6][5] == k[5] != '_';
    }
  }

  /** What the schema accepts is regular. */
  lemma SchemaIsRegular<T>(p: Payload<T>)
    requires SchemaValid(p) && DictsUnique(p)
    ensures Regular(p)
  {
    forall e | e in p ensures '.' !in e.0 { RootKeysHaveNoDot(e.0); }
    forall e | e in p && IsNested(e.0) ensures e.1.Dict? && RegularSub(e.0, e.1.entries) {
      NestedKeysAre(e.0);
      SchemaSubIsRegular(e.0, e.1.entries);
    }
  }

  lemma SchemaSubIsRegular<T>(category: string, sub: Items<Key, Value<T>>)
    requires Unique(sub) && forall s :: s in sub ==> KnownSubKey(category, s.0)
    requires forall s :: s in sub && s.1.Dict? ==> Unique(s.1.entries)
    ensures RegularSub(category, sub)
  {
    hide SubKeys;
    forall s | s in sub ensures s.0.Str? && (category == HIDDEN ==> !IsLayerName(s.0.s)) {
      if category == HIDDEN { SubKeysAreNoLayerNames(s.0.s); }
    }
  }

  // ---- Flattening what was unflattened ----

  /** Keys that flattening itself would produce. */
  ghost predicate CanonicalKey(key: string) {
    if DotAt(key) == |key| then !IsNested(key)
    else
      && IsNested(Category(key))
      && (Category(key) == HIDDEN && IsLayerName(Qualifier(key)) ==> CanonicalNumber(Qualifier(key)[|LAYER|..]))
  }

  predicate CanonicalNumber(s: string) {
    ParseInt(s).Some? && IntText(ParseInt(s).value) == s
  }

  ghost predicate LayerKey(key: string) {
    Below(HIDDEN, key) && IsLayerName(Qualifier(key))
  }

  /** A flat form is indexed if its layers, when it has any, come as numbered entries, and
      plain if they come as one value that is not a dict.  It cannot be both. */
  ghost predicate EntryFits<T>(key: string, v: Value<T>, indexed: bool) {
    && (key == Dotted(HIDDEN, LAYERS) ==> !indexed && !v.Dict?)
    && (LayerKey(key) ==> indexed)
  }

  ghost predicate Canonical<T>(flat: Items<string, Value<T>>, indexed: bool) {
    && Unique(flat)
    && forall e :: e in flat ==> CanonicalKey(e.0) && EntryFits(e.0, e.1, indexed)
  }

  /** The same of the nested form. */
  ghost predicate Fits<T>(p: Payload<T>, indexed: bool) {
    forall e :: e in p && e.0 == HIDDEN && e.1.Dict? ==> SubFits(e.1.entries, indexed)
  }

  ghost predicate SubFits<T>(sub: Items<Key, Value<T>>, indexed: bool) {
    forall s :: s in sub && s.0 == Str(LAYERS) ==> s.1.Dict? == indexed
  }

  ghost predicate SubGood<T>(category: string, sub: Items<Key, Value<T>>, indexed: bool) {
    RegularSub(category, sub) && SubIndexed(category, sub) && (category == HIDDEN ==> SubFits(sub, indexed))
  }

  /** The dict of a category after one more qualifier. */
  lemma PutQualifierGood<T>(category: string, sub: Items<Key, Value<T>>, indexed: bool, q: string, v: Value<T>)
    requires SubGood(category, sub, indexed)
    requires category == HIDDEN ==> !IsLayerName(q) && (q == LAYERS ==> v.Dict? == indexed)
    requires IsLayers(category, Str(q), v) ==> Unique(v.entries) && IntKeys(v.entries)
    ensures SubGood(category, Put(sub, Str(q), v), indexed)
  {
    PutKeys(sub, Str(q), v);
  }

  ghost predicate SubReadsOneMore<T>(category: string, sub: Items<Key, Value<T>>, more: Items<Key, Value<T>>,
                                     q: string, v: Value<T>) {
    forall r :: (category == HIDDEN && IsLayerName(r) ==> CanonicalNumber(r[|LAYER|..])) ==>
      ReadsSub(category, more, r) == if r == q then Some(v) else ReadsSub(category, sub, r)
  }

  lemma InsertPlainQualifierReads<T>(category: string, sub: Items<Key, Value<T>>, indexed: bool, q: string, v: Value<T>)
    requires SubGood(category, sub, indexed)
    requires !(category == HIDDEN && IsLayerName(q))
    requires category == HIDDEN && q == LAYERS ==> !indexed && !v.Dict?
    ensures SubGood(category, Put(sub, Str(q), v), indexed)
    ensures SubReadsOneMore(category, sub, Put(sub, Str(q), v), q, v)
  {
    PutQualifierGood(category, sub, indexed, q, v);
    forall r
      ensures ReadsSub(category, Put(sub, Str(q), v), r) == if r == q then Some(v) else ReadsSub(category, sub, r)
    {
      GetPut(sub, Str(q), v, Str(LAYERS));
      GetPut(sub, Str(q), v, Str(r));
      GotIsIn(sub, Str(LAYERS));
    }
  }

  function LayersOf<T>(sub: Items<Key, Value<T>>): Items<Key, Value<T>> {
    var found: Option<Value<T>> := Get(sub, Str(LAYERS));
    if found.Some? && found.value.Dict? then found.value.entries else []
  }

  lemma LayersOfGood<T>(sub: Items<Key, Value<T>>)
    requires SubGood(HIDDEN, sub, true)
    ensures Unique(LayersOf(sub)) && IntKeys(LayersOf(sub))
    ensures var found: Option<Value<T>> := Get(sub, Str(LAYERS)); found.Some? ==> found.value.Dict?
  {
    GotIsIn(sub, Str(LAYERS));
  }

  lemma PutLayerGood<T>(layers: Items<Key, Value<T>>, n: int, v: Value<T>)
    requires Unique(layers) && IntKeys(layers)
    ensures Unique(Put(layers, Int(n), v)) && IntKeys(Put(layers, Int(n), v))
  {
    PutKeys(layers, Int(n), v);
    var all := Put(layers, Int(n), v);
    forall i | 0 <= i < |all| ensures all[i].0.Int? { assert all[i] in all; }
  }

  lemma InsertLayerQualifierReads<T>(sub: Items<Key, Value<T>>, q: string, v: Value<T>)
    requires SubGood(HIDDEN, sub, true)
    requires IsLayerName(q) && CanonicalNumber(q[|LAYER|..])
    ensures var r := InsertQualifier(HIDDEN, sub, q, v);
            r.Ok? && SubGood(HIDDEN, r.value, true) && SubReadsOneMore(HIDDEN, sub, r.value, q, v)
  {
    LayersOfGood(sub);
    var n, layers := ParseInt(q[|LAYER|..]).value, LayersOf(sub);
    var more := Put(layers, Int(n), v);
    PutLayerGood(layers, n, v);
    assert LAYERS[..|LAYER|][5] == LAYERS[5] != LAYER[5];
    PutQualifierGood(HIDDEN, sub, true, LAYERS, Dict(more));
    var all := Put(sub, Str(LAYERS), Dict(more));
    assert InsertQualifier(HIDDEN, sub, q, v) == Ok(all);
    forall r | IsLayerName(r) ==> CanonicalNumber(r[|LAYER|..])
      ensures ReadsSub(HIDDEN, all, r) == if r == q then Some(v) else ReadsSub(HIDDEN, sub, r)
    {
      LayerReadsOneMore(sub, layers, n, q, v, r);
    }
  }

  lemma LayerReadsOneMore<T>(sub: Items<Key, Value<T>>, layers: Items<Key, Value<T>>, n: int, q: string, v: Value<T>,
                             r: string)
    requires layers == LayersOf(sub)
    requires var found: Option<Value<T>> := Get(sub, Str(LAYERS)); found.Some? ==> found.value.Dict?
    requires IsLayerName(q) && CanonicalNumber(q[|LAYER|..]) && ParseInt(q[|LAYER|..]) == Some(n)
    requires IsLayerName(r) ==> CanonicalNumber(r[|LAYER|..])
    ensures ReadsSub(HIDDEN, Put(sub, Str(LAYERS), Dict(Put(layers, Int(n), v))), r)
            == if r == q then Some(v) else ReadsSub(HIDDEN, sub, r)
  {
    hide ParseInt, IntText;
    var more := Dict(Put(layers, Int(n), v));
    GetPut(sub, Str(LAYERS), more, Str(LAYERS));
    GetPut(sub, Str(LAYERS), more, Str(r));
    if IsLayerName(r) {
      var m := ParseInt(r[|LAYER|..]).value;
      GetPut(layers, Int(n), v, Int(m));
      if m == n {
        assert r == LAYER + r[|LAYER|..] && q == LAYER + q[|LAYER|..];
      }
    }
  }

  lemma InsertQualifierReads<T>(category: string, sub: Items<Key, Value<T>>, indexed: bool, q: string, v: Value<T>)
    requires SubGood(category, sub, indexed)
    requires category == HIDDEN && IsLayerName(q) ==> indexed && CanonicalNumber(q[|LAYER|..])
    requires category == HIDDEN && q == LAYERS ==> !indexed && !v.Dict?
    ensures var r := InsertQualifier(category, sub, q, v);
            r.Ok? && SubGood(category, r.value, indexed) && SubReadsOneMore(category, sub, r.value, q, v)
  {
    if category == HIDDEN && IsLayerName(q) {
      InsertLayerQualifierReads(sub, q, v);
    } else {
      InsertPlainQualifierReads(category, sub, indexed, q, v);
    }
  }

  ghost predicate Good<T>(p: Payload<T>, indexed: bool) {
    && Unique(p)
    && (forall e :: e in p ==> '.' !in e.0)
    && (forall e :: e in p && IsNested(e.0) ==> e.1.Dict? && SubGood(e.0, e.1.entries, indexed))
  }

  lemma GoodIsRegular<T>(p: Payload<T>, indexed: bool)
    requires Good(p, indexed)
    ensures Regular(p) && LayersIndexed(p)
  {
  }

  ghost predicate ReadsOneMore<T>(p: Payload<T>, more: Payload<T>, key: string, v: Value<T>) {
    forall other :: CanonicalKey(other) ==>
      Reads(more, other) == if other == key then Some(v) else Reads(p, other)
  }

  lemma InsertPlainReads<T>(p: Payload<T>, indexed: bool, key: string, v: Value<T>)
    requires Good(p, indexed) && DotAt(key) == |key| && !IsNested(key)
    ensures Good(Put(p, key, v), indexed) && ReadsOneMore(p, Put(p, key, v), key, v)
  {
    PutKeys(p, key, v);
    forall other | CanonicalKey(other)
      ensures Reads(Put(p, key, v), other) == if other == key then Some(v) else Reads(p, other)
    {
      GetPut(p, key, v, other);
      GetPut(p, key, v, Category(other));
    }
  }

  /** The dict a category has, empty if there is none. */
  function SubOf<T>(p: Payload<T>, category: string): Items<Key, Value<T>> {
    var found: Option<Value<T>> := Get(p, category);
    if found.Some? && found.value.Dict? then found.value.entries else []
  }

  lemma SubOfGood<T>(p: Payload<T>, category: string, indexed: bool)
    requires Good(p, indexed) && IsNested(category)
    ensures SubGood(category, SubOf(p, category), indexed)
    ensures var found: Option<Value<T>> := Get(p, category); found.Some? ==> found.value.Dict?
  {
    GotIsIn(p, category);
  }

  lemma PutCategoryGood<T>(p: Payload<T>, category: string, sub: Items<Key, Value<T>>, indexed: bool)
    requires Good(p, indexed) && '.' !in category && SubGood(category, sub, indexed)
    ensures Good(Put(p, category, Dict(sub)), indexed)
  {
    PutKeys(p, category, Dict(sub));
  }

  lemma PutCategoryReads<T>(p: Payload<T>, category: string, sub: Items<Key, Value<T>>, q: string, v: Value<T>,
                            other: string)
    requires IsNested(category) && '.' !in category && CanonicalKey(other)
    requires SubReadsOneMore(category, SubOf(p, category), sub, q, v)
    requires var found: Option<Value<T>> := Get(p, category); found.Some? ==> found.value.Dict?
    ensures Reads(Put(p, category, Dict(sub)), other)
            == if other == Dotted(category, q) then Some(v) else Reads(p, other)
  {
    hide ReadsSub;
    DottedSplits(category, q);
    GetPut(p, category, Dict(sub), other);
    GetPut(p, category, Dict(sub), Category(other));
    if Below(category, other) {
      BelowIsDotted(category, other);
      EmptyReadsNothing(category, Qualifier(other), v);
    }
  }

  lemma EmptyReadsNothing<T>(category: string, q: string, like: Value<T>)
    ensures ReadsSub<T>(category, [], q) == None
  {
  }

  lemma InsertReads<T>(p: Payload<T>, indexed: bool, key: string, v: Value<T>)
    requires Good(p, indexed) && CanonicalKey(key) && EntryFits(key, v, indexed)
    ensures var r := Insert(p, key, v);
            r.Ok? && Good(r.value, indexed) && ReadsOneMore(p, r.value, key, v)
  {
    if DotAt(key) == |key| {
      InsertPlainReads(p, indexed, key, v);
    } else {
      var category, q := Category(key), Qualifier(key);
      BelowIsDotted(category, key);
      SubOfGood(p, category, indexed);
      InsertQualifierReads(category, SubOf(p, category), indexed, q, v);
      var sub := InsertQualifier(category, SubOf(p, category), q, v).value;
      PutCategoryGood(p, category, sub, indexed);
      forall other | CanonicalKey(other)
        ensures Reads(Put(p, category, Dict(sub)), other) == if other == key then Some(v) else Reads(p, other)
      {
        PutCategoryReads(p, category, sub, q, v, other);
      }
    }
  }

  lemma CanonicalParts<T>(flat: Items<string, Value<T>>, indexed: bool)
    requires flat != [] && Canonical(flat, indexed)
    ensures CanonicalKey(flat[0].0) && EntryFits(flat[0].0, flat[0].1, indexed)
    ensures Canonical(flat[1..], indexed) && Get(flat[1..], flat[0].0).None?
  {
    assert flat[0] in flat && [] + flat == flat;
    DropKeepsUnique([], flat);
    assert forall e :: e in flat[1..] ==> e in flat;
    GetNoneIfLacks(flat[1..], flat[0].0);
  }

  lemma {:induction false} InsertAllReads<T>(p: Payload<T>, flat: Items<string, Value<T>>, indexed: bool)
    requires Good(p, indexed) && Canonical(flat, indexed)
    ensures var r := InsertAll(p, flat);
            && r.Ok? && Good(r.value, indexed)
            && forall key :: CanonicalKey(key) ==>
                 Reads(r.value, key) == if Get(flat, key).Some? then Get(flat, key) else Reads(p, key)
    decreases |flat|
  {
    if flat != [] {
      var (k, v) := flat[0];
      CanonicalParts(flat, indexed);
      hide Good, Canonical, CanonicalKey, EntryFits, Insert, Reads;
      InsertReads(p, indexed, k, v);
      InsertAllReads(Insert(p, k, v).value, flat[1..], indexed);
    }
  }

  /** In a good payload only canonical keys read anything. */
  lemma OnlyCanonicalKeysRead<T>(p: Payload<T>, indexed: bool, key: string)
    requires Good(p, indexed) && Reads(p, key).Some?
    ensures CanonicalKey(key)
  {
    GotIsIn(p, key);
  }

  /** A canonical flat form survives unflattening and flattening: the same keys with the
      same values, whatever the order of the items. */
  lemma FlattenUndoesUnflatten<T>(flat: Items<string, Value<T>>, indexed: bool, key: string)
    requires Canonical(flat, indexed)
    ensures var p := Unflatten(flat);
            p.Ok? && Regular(p.value) && LayersIndexed(p.value) && Get(Flatten(p.value), key) == Get(flat, key)
  {
    InsertAllReads([], flat, indexed);
    var p := Unflatten(flat).value;
    GoodIsRegular(p, indexed);
    UnflattenUndoesFlatten(p);
    GotIsIn(flat, key);
    if Reads(p, key).Some? {
      OnlyCanonicalKeysRead(p, indexed, key);
      FlatItemsRead(p, key, Reads(p, key).value);
      GetIsIn(Flatten(p), key, Reads(p, key).value);
    }
    if Get(Flatten(p), key).Some? {
      GotIsIn(Flatten(p), key);
      FlatItemsRead(p, key, Get(Flatten(p), key).value);
      OnlyCanonicalKeysRead(p, indexed, key);
    }
  }
}
