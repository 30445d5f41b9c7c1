/**
 vllm_omni/engine/output_processor.py: the multimodal outputs a request accumulates, and
 what its emissions show of them.
 */
module OutputAccumulation {
  import opened Common
  import opened OrderedDict
  import opened DataEntryKeys

  /** A tensor as its slices along the axis its key is concatenated on, and the shape of
      the other axes. */
  datatype Chunk = Chunk(shape: nat, slices: seq<int>)

  datatype Slot = One(chunk: Chunk) | Many(chunks: seq<Chunk>) | Other(id: int)
  type Slots = Payload<Slot>
  type SlotValue = Value<Slot>

  datatype OutputKind = Delta | Cumulative | FinalOnly

  predicate Drainable(k: string) { k == "image" || k == "audio" }

  // ---- Accumulating ----

  datatype Arrival = Nothing | Bare(v: SlotValue) | Named(items: Slots)

  function Lower(s: string): string {
    seq(|s|, i requires 0 <= i < |s| => if 'A' <= s[i] <= 'Z' then (s[i] as int + 32) as char else s[i])
  }

  function TargetKey(mmType: string): string {
    if mmType != "" then Lower(mmType) else "hidden"
  }

  /** The key an item of a payload is filed under. */
  function Filed(k: string, target: string): string {
    if k == "model_outputs" || (k == "hidden" && target != "hidden") then target else k
  }

  function FiledItems(items: Slots, target: string): Slots {
    if items == [] then [] else [(Filed(items[0].0, target), items[0].1)] + FiledItems(items[1..], target)
  }

  function Incoming(a: Arrival, mmType: string): Slots {
    match a
    case Nothing => []
    case Bare(v) => [(TargetKey(mmType), v)]
    case Named(items) => PutAll([], FiledItems(items, TargetKey(mmType)))
  }

  /** A tensor joins the tensors already there; anything else replaces what was there. */
  function Joined(was: Slot, now: Slot): Slot {
    match (was, now)
    case (One(c), One(d)) => Many([c, d])
    case (Many(cs), One(d)) => Many(cs + [d])
    case _ => now
  }

  function MergeSub(was: Items<Key, SlotValue>, now: Items<Key, SlotValue>): Items<Key, SlotValue>
    decreases |now|
  {
    if now == [] then was
    else
      var found: Option<SlotValue> := Get(was, now[0].0);
      var v := if found.Some? && found.value.Leaf? && now[0].1.Leaf? then Leaf(Joined(found.value.leaf, now[0].1.leaf))
               else now[0].1;
      MergeSub(Put(was, now[0].0, v), now[1..])
  }

  function Merge(was: SlotValue, now: SlotValue): SlotValue {
    match (was, now)
    case (Leaf(s), Leaf(t)) => Leaf(Joined(s, t))
    case (Dict(d), Dict(e)) => Dict(MergeSub(d, e))
    case _ => now
  }

  function MergeAll(acc: Slots, incoming: Slots): Slots
    decreases |incoming|
  {
    if incoming == [] then acc
    else
      var (k, v) := incoming[0];
      var found: Option<SlotValue> := Get(acc, k);
      MergeAll(Put(acc, k, if found.Some? then Merge(found.value, v) else v), incoming[1..])
  }

  /** `add_multimodal_tensor`. */
  function Add(acc: Slots, a: Arrival, mmType: string): Slots {
    if acc == [] then Incoming(a, mmType) else MergeAll(acc, Incoming(a, mmType))
  }

  // ---- Consolidating ----

  predicate SameShape(cs: seq<Chunk>) {
    forall i :: 0 <= i < |cs| ==> cs[i].shape == cs[0].shape
  }

  function SlicesOf(cs: seq<Chunk>): seq<int> {
    if cs == [] then [] else cs[0].slices + SlicesOf(cs[1..])
  }

  /** Concatenation, or the last tensor when the shapes do not fit. */
  function Concatenated(cs: seq<Chunk>): Chunk
    requires cs != []
  {
    if SameShape(cs) then Chunk(cs[0].shape, SlicesOf(cs)) else cs[|cs| - 1]
  }

  function ConsolidatedSlot(s: Slot, keepLast: bool): Slot {
    if s.Many? && s.chunks != [] then
      One(if keepLast then s.chunks[|s.chunks| - 1] else Concatenated(s.chunks))
    else s
  }

  function ConsolidatedSub(sub: Items<Key, SlotValue>): Items<Key, SlotValue> {
    if sub == [] then []
    else
      var v := sub[0].1;
      [(sub[0].0, if v.Leaf? then Leaf(ConsolidatedSlot(v.leaf, false)) else v)] + ConsolidatedSub(sub[1..])
  }

  function ConsolidatedValue(k: string, v: SlotValue, delta: bool): SlotValue {
    if delta && Drainable(k) then v
    else match v
         case Leaf(s) => Leaf(ConsolidatedSlot(s, k == "sr"))
         case Dict(d) => Dict(ConsolidatedSub(d))
  }

  function ConsolidatedItems(acc: Slots, delta: bool): (r: Slots)
    ensures |r| == |acc|
  {
    if acc == [] then []
    else [(acc[0].0, ConsolidatedValue(acc[0].0, acc[0].1, delta))] + ConsolidatedItems(acc[1..], delta)
  }

  /** `_consolidate_multimodal_tensors`: when unflattening raises, the flat form stays. */
  function Consolidated(acc: Slots, delta: bool): Slots {
    var flat := ConsolidatedItems(acc, delta);
    var nested := Unflatten(flat);
    if nested.Ok? then nested.value else flat
  }

  // ---- The request ----

  datatype Output = Output(tokens: seq<int>, allTokens: seq<int>, mm: Slots, finished: bool)

  datatype Request = Request(kind: OutputKind, streamInterval: nat, acc: Slots, tokens: seq<int>, sent: nat) {

    ghost predicate Valid() { Unique(acc) && sent <= |tokens| }

    function Arrive(a: Arrival, mmType: string): Request {
      if a.Nothing? then this else this.(acc := Add(acc, a, mmType))
    }

    function Decode(more: seq<int>): Request {
      this.(tokens := tokens + more)
    }

    function Unsent(): seq<int> {
      if sent <= |tokens| then tokens[sent..] else []
    }

    /** Whether the stream interval holds an emission back. */
    predicate HeldBack(finished: bool) {
      streamInterval > 1 && !finished && sent != 0 && |tokens| - sent < streamInterval
    }

    predicate Emits(finished: bool) {
      (finished || !kind.FinalOnly?) && !HeldBack(finished)
    }

    /** The state an emission reads. */
    function Settled(finished: bool): Request {
      if finished || kind.Cumulative? then this.(acc := Consolidated(acc, kind.Delta?)) else this
    }

    /** `make_request_output`, what it returns. */
    function Emission(newTokens: seq<int>, finished: bool): Option<Output> {
      if !Emits(finished) then None
      else Some(Output(if streamInterval > 1 && kind.Delta? then Unsent() else newTokens,
                       tokens, Settled(finished).acc, finished))
    }

    /** `make_request_output`, what it leaves behind. */
    function AfterMake(finished: bool): Request {
      var r := Settled(finished);
      if !Emits(finished) then r
      else r.(sent := if streamInterval > 1 && kind.Delta? then |tokens| else sent,
              acc := if kind.Delta? then Drained(r.acc) else r.acc)
    }
  }

  /** The accumulated outputs without the drainable ones. */
  function Drained(acc: Slots): Slots {
    if acc == [] then [] else (if Drainable(acc[0].0) then [] else [acc[0]]) + Drained(acc[1..])
  }

  // ---- One key at a time ----

  function LeafAt<T>(d: Payload<T>, k: string): Option<T> {
    var v: Option<Value<T>> := Get(d, k);
    if v.Some? && v.value.Leaf? then Some(v.value.leaf) else None
  }

  function ChunksOf(s: Option<Slot>): seq<Chunk> {
    match s
    case Some(One(c)) => [c]
    case Some(Many(cs)) => cs
    case _ => []
  }

  /** The tensors waiting under a key. */
  function Pending(acc: Slots, k: string): seq<Chunk> { ChunksOf(LeafAt(acc, k)) }

  ghost predicate OneTensor(v: Option<SlotValue>) {
    v.None? || (v.value.Leaf? && v.value.leaf.One?)
  }

  /** An arrival brings nothing under a key, or one tensor. */
  ghost predicate BringsTensor(incoming: Slots, k: string) {
    OneTensor(Get(incoming, k))
  }

  // ---- What an arrival holds, read off the payload itself ----

  /** The two generic names stand for the modality, every other name for itself. */
  predicate Means(name: string, modality: string, k: string) {
    if name in {"model_outputs", "hidden"} then k == modality else k == name
  }

  function LastNamed(items: Slots, modality: string, k: string): Option<SlotValue>
    decreases |items|
  {
    if items == [] then None
    else
      var (name, v) := items[|items| - 1];
      if Means(name, modality, k) then Some(v) else LastNamed(items[..|items| - 1], modality, k)
  }

  /** What the arrival holds for a key: a dict the last item meant for it, anything else is
      meant for the modality. */
  function RawAt(a: Arrival, mmType: string, k: string): Option<SlotValue> {
    match a
    case Nothing => None
    case Bare(v) => if k == TargetKey(mmType) then Some(v) else None
    case Named(items) => LastNamed(items, TargetKey(mmType), k)
  }

  ghost predicate InLowerCase(s: string, lower: string) {
    && |lower| == |s|
    && forall i :: 0 <= i < |s| ==>
         if 'A' <= s[i] <= 'Z' then 'a' <= lower[i] <= 'z' && lower[i] as int - 'a' as int == s[i] as int - 'A' as int
         else lower[i] == s[i]
  }

  /** The modality is the type in lower case, and "hidden" when there is none. */
  lemma ModalityIs(mmType: string)
    ensures if mmType == "" then TargetKey(mmType) == "hidden" else InLowerCase(mmType, TargetKey(mmType))
  {
  }

  lemma {:induction false} FiledOneMore(items: Slots, last: (string, SlotValue), target: string)
    ensures FiledItems(items + [last], target) == FiledItems(items, target) + [(Filed(last.0, target), last.1)]
    decreases |items|
  {
    if items == [] {
      assert items + [last] == [last] && [last][1..] == [];
    } else {
      assert (items + [last])[1..] == items[1..] + [last];
      FiledOneMore(items[1..], last, target);
    }
  }

  lemma {:induction false} LastNamedStays(items: Slots, target: string, k: string)
    ensures Get(PutAll([], FiledItems(items, target)), k) == LastNamed(items, target, k)
    decreases |items|
  {
    if items != [] {
      var n := |items| - 1;
      var (j, v) := items[n];
      assert items[..n] + [items[n]] == items;
      LastNamedStays(items[..n], target, k);
      FiledOneMore(items[..n], items[n], target);
      var before, one: Slots := FiledItems(items[..n], target), [(Filed(j, target), v)];
      PutAllConcat<string, SlotValue>([], before, one);
      assert one[1..] == [];
      GetPut(PutAll([], before), Filed(j, target), v, k);
    }
  }

  /** Whatever an arrival holds is filed under the key it is meant for, and of several items
      meant for one key the last one stays. */
  lemma IncomingReads(a: Arrival, mmType: string, k: string)
    ensures Get(Incoming(a, mmType), k) == RawAt(a, mmType, k)
  {
    match a
    case Nothing =>
    case Bare(v) => GetOnly((TargetKey(mmType), v), k);
    case Named(items) => LastNamedStays(items, TargetKey(mmType), k);
  }

  lemma {:induction false} LastNamedAt(items: Slots, modality: string, k: string, i: nat)
    requires i < |items| && Means(items[i].0, modality, k)
    requires forall m :: i < m < |items| ==> !Means(items[m].0, modality, k)
    ensures LastNamed(items, modality, k) == Some(items[i].1)
    decreases |items|
  {
    if i < |items| - 1 {
      LastNamedAt(items[..|items| - 1], modality, k, i);
    }
  }

  /** A payload may name its tensor `model_outputs`, `hidden` or by its modality, once or more
      often: the last item so named is filed under the modality, whatever else there is. */
  lemma FiledUnderModality(items: Slots, mmType: string, i: nat)
    requires i < |items| && items[i].0 in {"model_outputs", "hidden", TargetKey(mmType)}
    requires forall m :: i < m < |items| ==> items[m].0 !in {"model_outputs", "hidden", TargetKey(mmType)}
    ensures Get(Incoming(Named(items), mmType), TargetKey(mmType)) == Some(items[i].1)
  {
    var target := TargetKey(mmType);
    IncomingReads(Named(items), mmType, target);
    if items[i].0 == "model_outputs" || items[i].0 == "hidden" || target !in {"model_outputs", "hidden"} {
      LastNamedAt(items, target, target, i);
    }
  }

  /** Every other name is kept, and nothing else is filed under it. */
  lemma OtherNamesAreKept(items: Slots, mmType: string, k: string)
    requires k !in {"model_outputs", "hidden", TargetKey(mmType)}
    ensures Get(Incoming(Named(items), mmType), k).Some? <==> exists i :: 0 <= i < |items| && items[i].0 == k
    ensures forall i :: 0 <= i < |items| && items[i].0 == k && (forall m :: i < m < |items| ==> items[m].0 != k) ==>
              Get(Incoming(Named(items), mmType), k) == Some(items[i].1)
  {
    IncomingReads(Named(items), mmType, k);
    LastNamedIfAny(items, TargetKey(mmType), k);
    forall i | 0 <= i < |items| && items[i].0 == k && (forall m :: i < m < |items| ==> items[m].0 != k)
      ensures LastNamed(items, TargetKey(mmType), k) == Some(items[i].1)
    {
      LastNamedAt(items, TargetKey(mmType), k, i);
    }
  }

  lemma {:induction false} LastNamedIfAny(items: Slots, modality: string, k: string)
    ensures LastNamed(items, modality, k).Some? <==> exists i :: 0 <= i < |items| && Means(items[i].0, modality, k)
    decreases |items|
  {
    if items != [] {
      var n := |items| - 1;
      LastNamedIfAny(items[..n], modality, k);
      if i :| 0 <= i < |items| && Means(items[i].0, modality, k) && i < n { assert items[..n][i] == items[i]; }
    }
  }

  lemma {:induction false} MergeAllAt(acc: Slots, incoming: Slots, k: string)
    requires Unique(incoming)
    ensures Get(MergeAll(acc, incoming), k)
            == if Get(incoming, k).None? then Get(acc, k)
               else if Get(acc, k).None? then Get(incoming, k)
               else Some(Merge(Get(acc, k).value, Get(incoming, k).value))
    decreases |incoming|
  {
    if incoming != [] {
      var (j, v) := incoming[0];
      var found: Option<SlotValue> := Get(acc, j);
      var w := if found.Some? then Merge(found.value, v) else v;
      assert [] + incoming == incoming;
      DropKeepsUnique([], incoming);
      GetPut(acc, j, w, k);
      GetNoneIfLacks(incoming[1..], j);
      MergeAllAt(Put(acc, j, w), incoming[1..], k);
    }
  }

  lemma {:induction false} MergeAllUnique(acc: Slots, incoming: Slots)
    requires Unique(acc)
    ensures Unique(MergeAll(acc, incoming))
    decreases |incoming|
  {
    if incoming != [] {
      var (k, v) := incoming[0];
      var found: Option<SlotValue> := Get(acc, k);
      var w := if found.Some? then Merge(found.value, v) else v;
      PutKeys(acc, k, w);
      MergeAllUnique(Put(acc, k, w), incoming[1..]);
    }
  }

  lemma IncomingUnique(a: Arrival, mmType: string)
    ensures Unique(Incoming(a, mmType))
  {
    if a.Named? { PutAllUnique([], FiledItems(a.items, TargetKey(mmType))); }
  }

  lemma AddUnique(acc: Slots, a: Arrival, mmType: string)
    requires Unique(acc)
    ensures Unique(Add(acc, a, mmType))
  {
    IncomingUnique(a, mmType);
    MergeAllUnique(acc, Incoming(a, mmType));
  }

  /** An arriving tensor waits behind the ones already there. */
  lemma AddAppends(acc: Slots, a: Arrival, mmType: string, k: string)
    requires BringsTensor(Incoming(a, mmType), k)
    ensures Pending(Add(acc, a, mmType), k) == Pending(acc, k) + Pending(Incoming(a, mmType), k)
    ensures Get(Incoming(a, mmType), k).None? ==> Get(Add(acc, a, mmType), k) == Get(acc, k)
  {
    IncomingUnique(a, mmType);
    MergeAllAt(acc, Incoming(a, mmType), k);
  }

  lemma {:induction false} ConsolidatedItemsAt(acc: Slots, delta: bool, k: string)
    ensures Get(ConsolidatedItems(acc, delta), k)
            == if Get(acc, k).None? then None else Some(ConsolidatedValue(k, Get(acc, k).value, delta))
    decreases |acc|
  {
    if acc != [] && acc[0].0 != k { ConsolidatedItemsAt(acc[1..], delta, k); }
  }

  lemma {:induction false} ConsolidatedItemsUnique(acc: Slots, delta: bool)
    requires Unique(acc)
    ensures Unique(ConsolidatedItems(acc, delta))
  {
    forall i | 0 <= i < |acc| ensures ConsolidatedItems(acc, delta)[i].0 == acc[i].0 {
      ConsolidatedItemsKeys(acc, delta, i);
    }
  }

  lemma {:induction false} ConsolidatedItemsKeys(acc: Slots, delta: bool, i: nat)
    requires i < |acc|
    ensures ConsolidatedItems(acc, delta)[i] == (acc[i].0, ConsolidatedValue(acc[i].0, acc[i].1, delta))
    decreases i
  {
    if i > 0 { ConsolidatedItemsKeys(acc[1..], delta, i - 1); }
  }

  // ---- What joining and consolidating give ----

  /** Items that arrive in a dict join those of the dict that is there, one by one: a tensor
      waits behind the tensors already there, anything else replaces what was there, and what
      gets nothing new stays. */
  lemma {:induction false} MergeSubAt(was: Items<Key, SlotValue>, now: Items<Key, SlotValue>, k: Key)
    requires Unique(now)
    ensures var before, more: Option<SlotValue>, after: Option<SlotValue> := Get(was, k), Get(now, k),
                                                                             Get(MergeSub(was, now), k);
            if more.None? then after == before
            else if before.Some? && before.value.Leaf? && more.value.Leaf?
            then after == Some(Leaf(Joined(before.value.leaf, more.value.leaf)))
            else after == more
    decreases |now|
  {
    if now != [] {
      var (j, v) := now[0];
      var found: Option<SlotValue> := Get(was, j);
      var w := if found.Some? && found.value.Leaf? && v.Leaf? then Leaf(Joined(found.value.leaf, v.leaf)) else v;
      assert [] + now == now;
      DropKeepsUnique([], now);
      GetPut(was, j, w, k);
      GetNoneIfLacks(now[1..], j);
      MergeSubAt(Put(was, j, w), now[1..], k);
    }
  }

  lemma DictsMerge(acc: Slots, a: Arrival, mmType: string, k: string, was: Items<Key, SlotValue>,
                   now: Items<Key, SlotValue>, sub: Key)
    requires Get(acc, k) == Some(Dict(was)) && Get(Incoming(a, mmType), k) == Some(Dict(now)) && Unique(now)
    ensures var merged := Get(Add(acc, a, mmType), k);
            && merged.Some? && merged.value.Dict?
            && ChunksAt(merged.value.entries, sub)
               == if Get(now, sub).None? then ChunksAt(was, sub)
                  else if Get(was, sub).Some? && Get(was, sub).value.Leaf? && BringsOne(now, sub)
                  then ChunksAt(was, sub) + ChunksAt(now, sub)
                  else ChunksAt(now, sub)
  {
    IncomingUnique(a, mmType);
    MergeAllAt(acc, Incoming(a, mmType), k);
    MergeSubAt(was, now, sub);
  }

  function ChunksAt(d: Items<Key, SlotValue>, k: Key): seq<Chunk> {
    var v: Option<SlotValue> := Get(d, k);
    if v.Some? && v.value.Leaf? then ChunksOf(Some(v.value.leaf)) else []
  }

  predicate BringsOne(d: Items<Key, SlotValue>, k: Key) {
    var v: Option<SlotValue> := Get(d, k);
    v.Some? && v.value.Leaf? && v.value.leaf.One?
  }

  /** Waiting tensors become one: for the sample rate the last of them, else their concatenation
      if the other axes agree, and the last of them if not. */
  lemma WaitingBecomeOne(cs: seq<Chunk>, k: string)
    requires cs != []
    ensures var agree := forall i, j :: 0 <= i < |cs| && 0 <= j < |cs| ==> cs[i].shape == cs[j].shape;
            ConsolidatedSlot(Many(cs), k == "sr")
            == One(if k != "sr" && agree then Chunk(cs[0].shape, SlicesOf(cs)) else cs[|cs| - 1])
  {
  }

  // ---- Unflattening leaves plain keys alone ----

  lemma InsertPlainLeaf<T>(p: Payload<T>, key: string, v: Value<T>, k: string)
    requires '.' !in k
    ensures var r := Insert(p, key, v);
            r.Ok? ==> LeafAt(r.value, k) == if key == k then LeafAt([(k, v)], k) else LeafAt(p, k)
  {
    NoDot(k);
    GetOnly((k, v), k);
    if DotAt(key) == |key| {
      GetPut(p, key, v, k);
    } else {
      var r := Insert(p, key, v);
      if r.Ok? {
        var found: Option<Value<T>> := Get(p, Category(key));
        var sub := InsertQualifier(Category(key), if found.Some? then found.value.entries else [], Qualifier(key), v);
        GetPut(p, Category(key), Dict(sub.value), k);
      }
    }
  }

  /** Whatever the other keys are: a leaf under a key without a dot stays as it is. */
  lemma {:induction false} InsertAllPlainLeaf<T>(p: Payload<T>, flat: Items<string, Value<T>>, k: string)
    requires '.' !in k && Unique(flat)
    ensures var r := InsertAll(p, flat);
            r.Ok? ==> LeafAt(r.value, k) == if Get(flat, k).Some? then LeafAt(flat, k) else LeafAt(p, k)
    decreases |flat|
  {
    if flat != [] {
      var (key, v) := flat[0];
      assert [] + flat == flat;
      DropKeepsUnique([], flat);
      InsertPlainLeaf(p, key, v, k);
      GetOnly((k, v), k);
      GetNoneIfLacks(flat[1..], key);
      var q := Insert(p, key, v);
      if q.Ok? { InsertAllPlainLeaf(q.value, flat[1..], k); }
    }
  }

  function ConsolidatedLeaf(k: string, s: Option<Slot>, delta: bool): Option<Slot> {
    if s.None? || (delta && Drainable(k)) then s else Some(ConsolidatedSlot(s.value, k == "sr"))
  }

  lemma ConsolidatedAt(acc: Slots, delta: bool, k: string)
    requires '.' !in k && Unique(acc)
    ensures LeafAt(Consolidated(acc, delta), k) == ConsolidatedLeaf(k, LeafAt(acc, k), delta)
  {
    ConsolidatedItemsUnique(acc, delta);
    ConsolidatedItemsAt(acc, delta, k);
    InsertAllPlainLeaf([], ConsolidatedItems(acc, delta), k);
  }

  lemma {:induction false} InsertAllUnique<T>(p: Payload<T>, flat: Items<string, Value<T>>)
    requires Unique(p)
    ensures InsertAll(p, flat).Ok? ==> Unique(InsertAll(p, flat).value)
    decreases |flat|
  {
    if flat != [] {
      var q := Insert(p, flat[0].0, flat[0].1);
      if q.Ok? {
        InsertUnique(p, flat[0].0, flat[0].1);
        InsertAllUnique(q.value, flat[1..]);
      }
    }
  }

  lemma InsertUnique<T>(p: Payload<T>, key: string, v: Value<T>)
    requires Unique(p)
    ensures Insert(p, key, v).Ok? ==> Unique(Insert(p, key, v).value)
  {
    PutKeys(p, key, v);
    var found: Option<Value<T>> := Get(p, Category(key));
    if DotAt(key) < |key| && !(found.Some? && found.value.Leaf?) {
      var sub := InsertQualifier(Category(key), if found.Some? then found.value.entries else [], Qualifier(key), v);
      if sub.Ok? { PutKeys(p, Category(key), Dict(sub.value)); }
    }
  }

  lemma ConsolidatedUnique(acc: Slots, delta: bool)
    requires Unique(acc)
    ensures Unique(Consolidated(acc, delta))
  {
    ConsolidatedItemsUnique(acc, delta);
    InsertAllUnique([], ConsolidatedItems(acc, delta));
  }

  lemma {:induction false} DrainedUnique(acc: Slots)
    requires Unique(acc)
    ensures Unique(Drained(acc)) && forall e :: e in Drained(acc) ==> e in acc
    decreases |acc|
  {
    if acc != [] {
      assert [] + acc == acc;
      DropKeepsUnique([], acc);
      DrainedUnique(acc[1..]);
      if Drainable(acc[0].0) {
        assert Drained(acc) == Drained(acc[1..]);
      } else {
        KeptHeadUnique(acc, Drained(acc[1..]));
      }
    }
  }

  lemma {:induction false} DrainedAt(acc: Slots, k: string)
    ensures Get(Drained(acc), k) == if Drainable(k) then None else Get(acc, k)
    decreases |acc|
  {
    if acc != [] {
      DrainedAt(acc[1..], k);
      hide Drainable;
      if Drainable(acc[0].0) {
        assert Drained(acc) == Drained(acc[1..]);
      } else {
        assert Drained(acc)[1..] == Drained(acc[1..]);
      }
    }
  }

  lemma KeptHeadUnique(acc: Slots, rest: Slots)
    requires acc != [] && Unique(acc) && Unique(rest) && forall e :: e in rest ==> e in acc[1..]
    ensures Unique([acc[0]] + rest)
  {
    forall i, j | 0 <= i < 1 && 0 <= j < |rest| ensures [acc[0]][i].0 != rest[j].0 {
      assert rest[j] in rest;
      var m :| 0 <= m < |acc[1..]| && acc[1..][m] == rest[j];
      assert acc[m + 1].0 != acc[0].0;
    }
    ConcatUnique([acc[0]], rest);
  }

  // ---- Runs ----

  datatype Event = Arriving(a: Arrival, mmType: string) | Decoding(more: seq<int>)
      | Making(newTokens: seq<int>, finished: bool)

  function Next(r: Request, e: Event): Request {
    match e
    case Arriving(a, mmType) => r.Arrive(a, mmType)
    case Decoding(more) => r.Decode(more)
    case Making(_, finished) => r.AfterMake(finished)
  }

  function Emitted(r: Request, e: Event): seq<Output> {
    if !e.Making? then []
    else
      var o := r.Emission(e.newTokens, e.finished);
      if o.Some? then [o.value] else []
  }

  function Run(r: Request, events: seq<Event>): Request
    decreases |events|
  {
    if events == [] then r else Run(Next(r, events[0]), events[1..])
  }

  function Outputs(r: Request, events: seq<Event>): seq<Output>
    decreases |events|
  {
    if events == [] then [] else Emitted(r, events[0]) + Outputs(Next(r, events[0]), events[1..])
  }

  function TensorsIn(v: Option<SlotValue>): seq<Chunk> {
    if v.Some? && v.value.Leaf? then ChunksOf(Some(v.value.leaf)) else []
  }

  /** The tensors one event brings for a key, as the payload has them. */
  function Brings(e: Event, k: string): seq<Chunk> {
    if e.Arriving? then TensorsIn(RawAt(e.a, e.mmType, k)) else []
  }

  lemma BringsWhatIsFiled(e: Event, k: string)
    requires e.Arriving?
    ensures Brings(e, k) == Pending(Incoming(e.a, e.mmType), k)
    ensures TensorEvent(e, k) <==> BringsTensor(Incoming(e.a, e.mmType), k)
  {
    IncomingReads(e.a, e.mmType, k);
  }

  function Received(events: seq<Event>, k: string): seq<Chunk> {
    if events == [] then [] else Brings(events[0], k) + Received(events[1..], k)
  }

  ghost predicate TensorEvent(e: Event, k: string) {
    e.Arriving? ==> OneTensor(RawAt(e.a, e.mmType, k))
  }

  ghost predicate TensorsOnly(events: seq<Event>, k: string) {
    forall i :: 0 <= i < |events| ==> TensorEvent(events[i], k)
  }

  lemma NextIsValid(r: Request, e: Event)
    requires r.Valid()
    ensures Next(r, e).Valid() && Next(r, e).kind == r.kind && Next(r, e).streamInterval == r.streamInterval
  {
    match e
    case Arriving(a, mmType) => AddUnique(r.acc, a, mmType);
    case Decoding(_) =>
    case Making(_, finished) =>
      ConsolidatedUnique(r.acc, r.kind.Delta?);
      DrainedUnique(r.Settled(finished).acc);
  }

  // ---- DELTA ----

  /** The tensors a sequence of outputs shows under a key. */
  function Shown(outputs: seq<Output>, k: string): seq<Chunk> {
    if outputs == [] then [] else Pending(outputs[0].mm, k) + Shown(outputs[1..], k)
  }

  lemma {:induction false} ShownConcat(a: seq<Output>, b: seq<Output>, k: string)
    ensures Shown(a + b, k) == Shown(a, k) + Shown(b, k)
    decreases |a|
  {
    if a == [] {
      assert a + b == b;
    } else {
      assert (a + b)[1..] == a[1..] + b;
      ShownConcat(a[1..], b, k);
    }
  }

  /** Settling does not touch what DELTA drains. */
  lemma DeltaSettles(r: Request, finished: bool, k: string)
    requires r.Valid() && r.kind.Delta? && Drainable(k)
    ensures Pending(r.Settled(finished).acc, k) == Pending(r.acc, k)
    ensures Unique(r.Settled(finished).acc)
  {
    ConsolidatedAt(r.acc, true, k);
    ConsolidatedUnique(r.acc, true);
  }

  lemma DeltaStep(r: Request, e: Event, k: string)
    requires r.Valid() && r.kind.Delta? && Drainable(k) && TensorEvent(e, k)
    ensures Shown(Emitted(r, e), k) + Pending(Next(r, e).acc, k) == Pending(r.acc, k) + Brings(e, k)
  {
    match e
    case Arriving(a, mmType) =>
      BringsWhatIsFiled(e, k);
      AddAppends(r.acc, a, mmType, k);
    case Decoding(_) =>
    case Making(newTokens, finished) =>
      DeltaSettles(r, finished, k);
      DrainedAt(r.Settled(finished).acc, k);
      var out := Emitted(r, e);
      if out != [] { assert out[1..] == []; }
  }

  /** In DELTA mode the audio, or image, tensors over all outputs are the tensors received,
      in order and each once, and those not shown yet still wait: whatever arrives when and
      whatever the stream interval holds back. */
  lemma {:induction false} DeltaShowsEverythingOnce(r: Request, events: seq<Event>, k: string)
    requires r.Valid() && r.kind.Delta? && Drainable(k) && TensorsOnly(events, k)
    ensures Shown(Outputs(r, events), k) + Pending(Run(r, events).acc, k) == Pending(r.acc, k) + Received(events, k)
    decreases |events|
  {
    if events != [] {
      var e, n := events[0], Next(r, events[0]);
      NextIsValid(r, e);
      DeltaStep(r, e, k);
      DeltaShowsEverythingOnce(n, events[1..], k);
      ShownConcat(Emitted(r, e), Outputs(n, events[1..]), k);
      Regroup(Shown(Emitted(r, e), k), Shown(Outputs(n, events[1..]), k), Pending(Run(r, events).acc, k),
              Pending(n.acc, k), Pending(r.acc, k), Brings(e, k), Received(events[1..], k));
    }
  }

  lemma Regroup<T>(a: seq<T>, b: seq<T>, last: seq<T>, middle: seq<T>, first: seq<T>, c: seq<T>, d: seq<T>)
    requires a + middle == first + c && b + last == middle + d
    ensures (a + b) + last == first + (c + d)
  {
    assert (a + b) + last == a + (b + last);
    assert a + (middle + d) == (a + middle) + d;
    assert (first + c) + d == first + (c + d);
  }

  /** An emission leaves nothing to drain behind, and the finishing call always emits. */
  lemma DeltaEmissionDrains(r: Request, finished: bool, k: string)
    requires r.Valid() && r.kind.Delta? && Drainable(k)
    ensures r.Emits(finished) ==> Pending(r.AfterMake(finished).acc, k) == []
    ensures r.Emits(true)
  {
    DeltaSettles(r, finished, k);
    DrainedAt(r.Settled(finished).acc, k);
  }

  function TokensOf(outputs: seq<Output>): seq<int> {
    if outputs == [] then [] else outputs[0].tokens + TokensOf(outputs[1..])
  }

  lemma {:induction false} TokensConcat(a: seq<Output>, b: seq<Output>)
    ensures TokensOf(a + b) == TokensOf(a) + TokensOf(b)
    decreases |a|
  {
    if a == [] {
      assert a + b == b;
    } else {
      assert (a + b)[1..] == a[1..] + b;
      TokensConcat(a[1..], b);
    }
  }

  lemma DeltaTokenStep(r: Request, e: Event)
    requires r.Valid() && r.kind.Delta? && r.streamInterval > 1
    ensures TokensOf(Emitted(r, e)) + Next(r, e).Unsent() == r.Unsent() + (if e.Decoding? then e.more else [])
  {
    NextIsValid(r, e);
    var out := Emitted(r, e);
    if e.Making? && out != [] {
      assert out[1..] == [] && Next(r, e).Unsent() == [];
    }
  }

  function Decoded(events: seq<Event>): seq<int> {
    if events == [] then []
    else (if events[0].Decoding? then events[0].more else []) + Decoded(events[1..])
  }

  /** With a stream interval the tokens of the outputs are the tokens decoded, each once. */
  lemma {:induction false} DeltaSendsTokensOnce(r: Request, events: seq<Event>)
    requires r.Valid() && r.kind.Delta? && r.streamInterval > 1
    ensures TokensOf(Outputs(r, events)) + Run(r, events).Unsent() == r.Unsent() + Decoded(events)
    decreases |events|
  {
    if events != [] {
      var e, n := events[0], Next(r, events[0]);
      NextIsValid(r, e);
      DeltaTokenStep(r, e);
      DeltaSendsTokensOnce(n, events[1..]);
      TokensConcat(Emitted(r, e), Outputs(n, events[1..]));
      Regroup(TokensOf(Emitted(r, e)), TokensOf(Outputs(n, events[1..])), Run(r, events).Unsent(),
              n.Unsent(), r.Unsent(), if e.Decoding? then e.more else [], Decoded(events[1..]));
    }
  }

  lemma {:induction false} RunTokens(r: Request, events: seq<Event>)
    ensures Run(r, events).tokens == r.tokens + Decoded(events)
    decreases |events|
  {
    if events == [] {
      assert r.tokens + [] == r.tokens;
    } else {
      var more := if events[0].Decoding? then events[0].more else [];
      assert Next(r, events[0]).tokens == r.tokens + more;
      RunTokens(Next(r, events[0]), events[1..]);
      ConcatAssociates(r.tokens, more, Decoded(events[1..]));
    }
  }

  lemma {:induction false} RunIsValid(r: Request, events: seq<Event>)
    requires r.Valid()
    ensures var n := Run(r, events); n.Valid() && n.kind == r.kind && n.streamInterval == r.streamInterval
    decreases |events|
  {
    if events != [] {
      NextIsValid(r, events[0]);
      RunIsValid(Next(r, events[0]), events[1..]);
    }
  }

  /** Every emission carries all tokens decoded so far and whether the request finished, and, but
      for DELTA with an interval, the new tokens of its own step. */
  lemma EmissionCarries(kind: OutputKind, streamInterval: nat, events: seq<Event>, newTokens: seq<int>, finished: bool)
    ensures var out := Run(Fresh(kind, streamInterval), events).Emission(newTokens, finished);
            out.Some? ==>
              && out.value.allTokens == Decoded(events) && out.value.finished == finished
              && (!kind.Delta? || streamInterval <= 1 ==> out.value.tokens == newTokens)
  {
    RunTokens(Fresh(kind, streamInterval), events);
    RunIsValid(Fresh(kind, streamInterval), events);
    assert [] + Decoded(events) == Decoded(events);
  }

  /** In DELTA mode an interval holds an emission back exactly while some tokens were sent, fewer
      than the interval are new, and the request has not finished; an emission sends all new ones. */
  lemma IntervalHoldsBackExactly(streamInterval: nat, events: seq<Event>, newTokens: seq<int>, finished: bool)
    ensures var r := Fresh(Delta, streamInterval);
            var out, sent := Run(r, events).Emission(newTokens, finished), |TokensOf(Outputs(r, events))|;
            if streamInterval <= 1 then out.Some?
            else
              && sent <= |Decoded(events)|
              && (out.None? <==> !finished && sent > 0 && |Decoded(events)| - sent < streamInterval)
              && (out.Some? ==> out.value.tokens == Decoded(events)[sent..])
  {
    var r := Fresh(Delta, streamInterval);
    RunTokens(r, events);
    RunIsValid(r, events);
    assert [] + Decoded(events) == Decoded(events);
    if streamInterval > 1 {
      DeltaSendsTokensOnce(r, events);
      var n := Run(r, events);
      assert |TokensOf(Outputs(r, events))| == n.sent;
    }
  }

  /** Image and audio are what DELTA drains; under every other key what was shown waits on, to be
      shown again with what comes. */
  lemma DeltaDrainsExactly(r: Request, newTokens: seq<int>, finished: bool, k: string)
    requires r.Valid() && r.kind.Delta? && r.Emission(newTokens, finished).Some?
    ensures var left := Pending(r.AfterMake(finished).acc, k);
            var shown := Pending(r.Emission(newTokens, finished).value.mm, k);
            if k in {"image", "audio"} then left == [] else left == shown
  {
    DrainedAt(r.Settled(finished).acc, k);
  }

  // ---- CUMULATIVE and FINAL_ONLY ----

  ghost predicate Shaped(cs: seq<Chunk>, shape: nat) {
    forall i :: 0 <= i < |cs| ==> cs[i].shape == shape
  }

  /** What waits under a key stands for all tensors received: their concatenation, for the
      sample rate the last of them. */
  ghost predicate StandsFor(waiting: seq<Chunk>, received: seq<Chunk>, k: string, shape: nat) {
    if k == "sr" then received != [] ==> waiting != [] && waiting[|waiting| - 1] == received[|received| - 1]
    else
      && (received != [] ==> waiting != [])
      && Shaped(waiting, shape) && SlicesOf(waiting) == SlicesOf(received)
  }

  lemma {:induction false} SlicesConcat(a: seq<Chunk>, b: seq<Chunk>)
    ensures SlicesOf(a + b) == SlicesOf(a) + SlicesOf(b)
    decreases |a|
  {
    if a == [] {
      assert a + b == b;
    } else {
      assert (a + b)[1..] == a[1..] + b;
      SlicesConcat(a[1..], b);
    }
  }

  lemma MoreStandsForMore(waiting: seq<Chunk>, received: seq<Chunk>, more: seq<Chunk>, k: string, shape: nat)
    requires StandsFor(waiting, received, k, shape)
    requires k == "sr" || Shaped(more, shape)
    ensures StandsFor(waiting + more, received + more, k, shape)
  {
    SlicesConcat(waiting, more);
    SlicesConcat(received, more);
  }

  /** The one tensor an emission shows for what was received. */
  ghost predicate Summarises(c: Chunk, received: seq<Chunk>, k: string, shape: nat) {
    received != [] && if k == "sr" then c == received[|received| - 1] else c == Chunk(shape, SlicesOf(received))
  }

  lemma ConsolidatedStandsFor(s: Option<Slot>, received: seq<Chunk>, k: string, shape: nat)
    requires StandsFor(ChunksOf(s), received, k, shape)
    ensures StandsFor(ChunksOf(ConsolidatedLeaf(k, s, false)), received, k, shape)
    ensures received != [] ==>
              var t := ConsolidatedLeaf(k, s, false);
              t.Some? && t.value.One? && Summarises(t.value.chunk, received, k, shape)
  {
    var cs := ChunksOf(s);
    if s.Some? && s.value.Many? && cs != [] {
      var all := ConsolidatedSlot(s.value, k == "sr").chunk;
      assert [all][1..] == [];
      if k != "sr" { assert SlicesOf([all]) == all.slices + []; }
    } else if s.Some? && s.value.One? {
      assert cs[1..] == [] && SlicesOf(cs) == cs[0].slices + [];
    }
  }

  ghost predicate ShapedEvents(events: seq<Event>, k: string, shape: nat) {
    TensorsOnly(events, k) && (k == "sr" || forall i :: 0 <= i < |events| ==> Shaped(Brings(events[i], k), shape))
  }

  lemma ShapedParts(events: seq<Event>, k: string, shape: nat)
    requires events != [] && ShapedEvents(events, k, shape)
    ensures TensorEvent(events[0], k) && (k == "sr" || Shaped(Brings(events[0], k), shape))
    ensures ShapedEvents([events[0]], k, shape) && ShapedEvents(events[1..], k, shape)
  {
  }

  lemma CumulativeStep(r: Request, e: Event, received: seq<Chunk>, k: string, shape: nat)
    requires r.Valid() && !r.kind.Delta? && '.' !in k
    requires StandsFor(Pending(r.acc, k), received, k, shape)
    requires TensorEvent(e, k) && (k == "sr" || Shaped(Brings(e, k), shape))
    ensures StandsFor(Pending(Next(r, e).acc, k), received + Brings(e, k), k, shape)
  {
    match e
    case Arriving(a, mmType) =>
      BringsWhatIsFiled(e, k);
      AddAppends(r.acc, a, mmType, k);
      MoreStandsForMore(Pending(r.acc, k), received, Brings(e, k), k, shape);
    case Decoding(_) => assert received + [] == received;
    case Making(_, _) =>
      assert received + [] == received;
      ConsolidatedAt(r.acc, false, k);
      ConsolidatedStandsFor(LeafAt(r.acc, k), received, k, shape);
  }

  lemma {:induction false} CumulativeRun(r: Request, events: seq<Event>, received: seq<Chunk>, k: string, shape: nat)
    requires r.Valid() && !r.kind.Delta? && '.' !in k
    requires StandsFor(Pending(r.acc, k), received, k, shape) && ShapedEvents(events, k, shape)
    ensures var n := Run(r, events);
            && n.Valid() && n.kind == r.kind && n.streamInterval == r.streamInterval
            && StandsFor(Pending(n.acc, k), received + Received(events, k), k, shape)
    decreases |events|
  {
    if events == [] {
      assert received + [] == received;
    } else {
      var e := events[0];
      NextIsValid(r, e);
      ShapedParts(events, k, shape);
      CumulativeStep(r, e, received, k, shape);
      hide StandsFor, ShapedEvents, Next, Pending, Brings;
      CumulativeRun(Next(r, e), events[1..], received + Brings(e, k), k, shape);
      ConcatAssociates(received, Brings(e, k), Received(events[1..], k));
    }
  }

  /** A request before anything happened. */
  function Fresh(kind: OutputKind, streamInterval: nat): Request {
    Request(kind, streamInterval, [], [], 0)
  }

  /** In CUMULATIVE mode, and at the end in FINAL_ONLY mode, an emission shows under a key
      without a dot the concatenation of all tensors received for it so far, for `sr` the
      last of them, however often the parts were consolidated before and whatever came
      under other keys. */
  lemma EmissionShowsAll(kind: OutputKind, streamInterval: nat, events: seq<Event>, newTokens: seq<int>,
                         finished: bool, k: string, shape: nat)
    requires !kind.Delta? && '.' !in k && ShapedEvents(events, k, shape) && Received(events, k) != []
    ensures var out := Run(Fresh(kind, streamInterval), events).Emission(newTokens, finished);
            out.Some? ==> var s := LeafAt(out.value.mm, k);
              s.Some? && s.value.One? && Summarises(s.value.chunk, Received(events, k), k, shape)
  {
    var r := Fresh(kind, streamInterval);
    CumulativeRun(r, events, [], k, shape);
    assert [] + Received(events, k) == Received(events, k);
    var n := Run(r, events);
    ConsolidatedAt(n.acc, false, k);
    ConsolidatedStandsFor(LeafAt(n.acc, k), Received(events, k), k, shape);
  }

  lemma {:induction false} SentStaysZero(r: Request, events: seq<Event>)
    requires !r.kind.Delta? && r.sent == 0
    ensures Run(r, events).sent == 0 && Run(r, events).kind == r.kind
    decreases |events|
  {
    if events != [] { SentStaysZero(Next(r, events[0]), events[1..]); }
  }

  /** Only DELTA moves the offset of what was sent, so the stream interval never holds an
      emission back in the other modes. */
  lemma IntervalOnlyHoldsBackDelta(kind: OutputKind, streamInterval: nat, events: seq<Event>, finished: bool)
    requires !kind.Delta?
    ensures Run(Fresh(kind, streamInterval), events).Emits(finished) <==> kind.Cumulative? || finished
  {
    SentStaysZero(Fresh(kind, streamInterval), events);
  }

  // ---- FINAL_ONLY and dotted keys ----

  ghost predicate NotFinished(events: seq<Event>) {
    forall i :: 0 <= i < |events| ==> events[i].Making? ==> !events[i].finished
  }

  /** Everything that arrives could have come out of flattening. */
  ghost predicate CanonicalEvents(events: seq<Event>, indexed: bool) {
    forall i :: 0 <= i < |events| && events[i].Arriving? ==>
      Canonical(Incoming(events[i].a, events[i].mmType), indexed)
  }

  lemma {:induction false} MergeAllCanonical(acc: Slots, incoming: Slots, indexed: bool)
    requires Canonical(acc, indexed) && Canonical(incoming, indexed)
    ensures Canonical(MergeAll(acc, incoming), indexed)
    decreases |incoming|
  {
    if incoming != [] {
      var (k, v) := incoming[0];
      var found: Option<SlotValue> := Get(acc, k);
      var w := if found.Some? then Merge(found.value, v) else v;
      CanonicalParts(incoming, indexed);
      PutKeys(acc, k, w);
      MergeAllCanonical(Put(acc, k, w), incoming[1..], indexed);
    }
  }

  lemma FinalOnlyStep(r: Request, e: Event, received: seq<Chunk>, key: string, shape: nat, indexed: bool)
    requires r.Valid() && r.kind.FinalOnly? && Canonical(r.acc, indexed)
    requires StandsFor(Pending(r.acc, key), received, key, shape)
    requires ShapedEvents([e], key, shape) && NotFinished([e]) && CanonicalEvents([e], indexed)
    ensures StandsFor(Pending(Next(r, e).acc, key), received + Brings(e, key), key, shape)
    ensures Canonical(Next(r, e).acc, indexed)
  {
    assert [e][0] == e;
    match e
    case Arriving(a, mmType) =>
      BringsWhatIsFiled(e, key);
      AddAppends(r.acc, a, mmType, key);
      MoreStandsForMore(Pending(r.acc, key), received, Brings(e, key), key, shape);
      MergeAllCanonical(r.acc, Incoming(a, mmType), indexed);
    case Decoding(_) => assert received + [] == received;
    case Making(_, _) => assert received + [] == received;
  }

  lemma {:induction false} FinalOnlyRun(r: Request, events: seq<Event>, received: seq<Chunk>, key: string, shape: nat,
                                        indexed: bool)
    requires r.Valid() && r.kind.FinalOnly? && Canonical(r.acc, indexed)
    requires StandsFor(Pending(r.acc, key), received, key, shape)
    requires ShapedEvents(events, key, shape) && NotFinished(events) && CanonicalEvents(events, indexed)
    ensures var n := Run(r, events);
            && n.kind.FinalOnly? && Canonical(n.acc, indexed)
            && StandsFor(Pending(n.acc, key), received + Received(events, key), key, shape)
    decreases |events|
  {
    if events == [] {
      assert received + [] == received;
    } else {
      var e := events[0];
      NextIsValid(r, e);
      ShapedParts(events, key, shape);
      assert NotFinished(events[1..]) && CanonicalEvents(events[1..], indexed);
      assert NotFinished([e]) && CanonicalEvents([e], indexed);
      FinalOnlyStep(r, e, received, key, shape, indexed);
      hide StandsFor, ShapedEvents, Next, Pending, Brings, Canonical, NotFinished, CanonicalEvents;
      FinalOnlyRun(Next(r, e), events[1..], received + Brings(e, key), key, shape, indexed);
      ConcatAssociates(received, Brings(e, key), Received(events[1..], key));
    }
  }

  lemma ConsolidatedCanonical(acc: Slots, indexed: bool)
    requires Canonical(acc, indexed)
    ensures Canonical(ConsolidatedItems(acc, false), indexed)
  {
    ConsolidatedItemsUnique(acc, false);
    var flat := ConsolidatedItems(acc, false);
    forall e | e in flat ensures CanonicalKey(e.0) && EntryFits(e.0, e.1, indexed) {
      var i :| 0 <= i < |flat| && flat[i] == e;
      ConsolidatedItemsKeys(acc, false, i);
      assert acc[i] in acc;
    }
  }

  /** In FINAL_ONLY mode the one output shows, under dotted keys too, all that was received:
      the tensor stands in the nested slot its key leads to. */
  lemma FinalOutputShowsAll(streamInterval: nat, events: seq<Event>, newTokens: seq<int>, key: string, shape: nat,
                            indexed: bool)
    requires ShapedEvents(events, key, shape) && NotFinished(events) && CanonicalEvents(events, indexed)
    requires CanonicalKey(key) && Received(events, key) != []
    ensures var out := Run(Fresh(FinalOnly, streamInterval), events).Emission(newTokens, true);
            && out.Some? && Reads(out.value.mm, key).Some?
            && var v := Reads(out.value.mm, key).value;
               v.Leaf? && v.leaf.One? && Summarises(v.leaf.chunk, Received(events, key), key, shape)
  {
    var r := Fresh(FinalOnly, streamInterval);
    hide Run, Summarises, ShapedEvents, Received, CanonicalEvents, NotFinished;
    FinalOnlyRun(r, events, [], key, shape, indexed);
    hide StandsFor;
    assert [] + Received(events, key) == Received(events, key);
    var n := Run(r, events);
    var flat := ConsolidatedItems(n.acc, false);
    ConsolidatedCanonical(n.acc, indexed);
    ConsolidatedItemsAt(n.acc, false, key);
    ConsolidatedStandsFor(LeafAt(n.acc, key), Received(events, key), key, shape);
    hide Canonical, CanonicalKey;
    InsertAllReads([], flat, indexed);
  }

  // ---- What gets lost ----

  const AUDIO_CODES: string := Dotted("codes", "audio")

  function AudioCodes(c: Chunk): Event {
    Arriving(Named([(AUDIO_CODES, Leaf(One(c)))]), "")
  }

  lemma AudioCodesArrive(c: Chunk)
    ensures Incoming(AudioCodes(c).a, "") == [(AUDIO_CODES, Leaf(One(c)))]
    ensures Brings(AudioCodes(c), AUDIO_CODES) == [c]
  {
    var v: SlotValue := Leaf(One(c));
    var items: Slots := [(AUDIO_CODES, v)];
    assert items[1..] == [];
    assert AUDIO_CODES[5] == '.' && "model_outputs"[5] == '_';
    assert FiledItems(items, "hidden") == items;
    assert PutAll<string, SlotValue>([], items) == Put([], AUDIO_CODES, v);
    GetOnly((AUDIO_CODES, v), AUDIO_CODES);
    BringsWhatIsFiled(AudioCodes(c), AUDIO_CODES);
  }

  /** The nested form of audio codes. */
  function NestedCodes(c: Chunk): Slots {
    [("codes", Dict([(Str("audio"), Leaf(One(c)))]))]
  }

  lemma InsertAudioCodes(p: Slots, c: Chunk)
    requires p == [] || exists d :: p == NestedCodes(d)
    ensures Insert(p, AUDIO_CODES, Leaf(One(c))) == Ok(NestedCodes(c))
  {
    DottedSplits("codes", "audio");
    var v: SlotValue := Leaf(One(c));
    var more: Items<Key, SlotValue> := [(Str("audio"), v)];
    if p == [] {
      assert InsertQualifier("codes", [], "audio", v) == Ok(more);
      assert Put<string, SlotValue>([], "codes", Dict(more)) == NestedCodes(c);
    } else {
      var d :| p == NestedCodes(d);
      GetOnly(p[0], "codes");
      assert p[1..] == [];
      var sub: Items<Key, SlotValue> := [(Str("audio"), Leaf(One(d)))];
      LastItem([], Str("audio"), Leaf(One(d)), v);
      assert [] + sub == sub && [] + more == more;
      assert InsertQualifier("codes", sub, "audio", v) == Ok(more);
      LastItem([], "codes", Dict(sub), Dict(more));
      assert [] + [("codes", Dict(sub))] == p && [] + [("codes", Dict(more))] == NestedCodes(c);
    }
  }

  lemma SettleAudioCodes(c: Chunk)
    ensures Consolidated([(AUDIO_CODES, Leaf(One(c)))], false) == NestedCodes(c)
  {
    var flat: Slots := [(AUDIO_CODES, Leaf(One(c)))];
    assert flat[1..] == [];
    assert ConsolidatedItems(flat, false) == flat;
    InsertAudioCodes([], c);
    assert InsertAll<Slot>([], flat) == InsertAll(NestedCodes(c), flat[1..]);
  }

  lemma SettleAudioCodesAgain(c: Chunk, d: Chunk)
    ensures Consolidated(NestedCodes(c) + [(AUDIO_CODES, Leaf(One(d)))], false) == NestedCodes(d)
  {
    var last: Slots := [(AUDIO_CODES, Leaf(One(d)))];
    var flat := NestedCodes(c) + last;
    var sub: Items<Key, SlotValue> := [(Str("audio"), Leaf(One(c)))];
    assert sub[1..] == [] && ConsolidatedSub(sub) == sub;
    assert flat[1..] == last && last[1..] == [];
    assert ConsolidatedItems(last, false) == last;
    assert ConsolidatedItems(flat, false) == flat;
    NoDot("codes");
    assert Insert<Slot>([], "codes", Dict(sub)) == Ok(NestedCodes(c));
    InsertAudioCodes(NestedCodes(c), d);
    assert InsertAll(NestedCodes(c), last) == Ok(NestedCodes(d));
  }

  /** In CUMULATIVE mode a dotted key does not accumulate across emissions: once it was
      nested, the next tensor replaces it.  Of two tensors received, the second output
      shows one. */
  lemma DottedKeysKeepTheLast(first: Chunk, second: Chunk)
    ensures var events := [AudioCodes(first), Making([], false), AudioCodes(second)];
            var out := Run(Fresh(Cumulative, 1), events).Emission([], false);
            && Received(events, AUDIO_CODES) == [first, second]
            && out.Some? && out.value.mm == NestedCodes(second)
  {
    var e1, e2, e3 := AudioCodes(first), Making([], false), AudioCodes(second);
    AudioCodesArrive(first);
    AudioCodesArrive(second);
    ThreeEvents(Fresh(Cumulative, 1), e1, e2, e3, AUDIO_CODES);
    FirstCodesSettle(first);
    hide Next, Brings, NestedCodes, Consolidated;
    SecondCodesSettle(Next(Next(Fresh(Cumulative, 1), e1), e2), first, second);
  }

  lemma ThreeEvents(r: Request, e1: Event, e2: Event, e3: Event, k: string)
    ensures Run(r, [e1, e2, e3]) == Next(Next(Next(r, e1), e2), e3)
    ensures Received([e1, e2, e3], k) == Brings(e1, k) + Brings(e2, k) + Brings(e3, k)
  {
    var all := [e1, e2, e3];
    assert all[1..] == [e2, e3] && all[1..][1..] == [e3] && all[1..][1..][1..] == [];
    assert Run(r, all) == Run(Next(r, e1), [e2, e3]);
    assert Run(Next(r, e1), [e2, e3]) == Run(Next(Next(r, e1), e2), [e3]);
    assert Received([e3], k) == Brings(e3, k) + [];
    assert Received([e2, e3], k) == Brings(e2, k) + Received([e3], k);
    ConcatAssociates(Brings(e1, k), Brings(e2, k), Brings(e3, k));
    assert Run(Next(Next(r, e1), e2), [e3]) == Run(Next(Next(Next(r, e1), e2), e3), []);
  }

  lemma FirstCodesSettle(c: Chunk)
    ensures Brings(Making([], false), AUDIO_CODES) == []
    ensures Next(Next(Fresh(Cumulative, 1), AudioCodes(c)), Making([], false))
            == Fresh(Cumulative, 1).(acc := NestedCodes(c))
  {
    AudioCodesArrive(c);
    SettleAudioCodes(c);
    hide Incoming, Consolidated, NestedCodes;
  }

  lemma SecondCodesSettle(r: Request, first: Chunk, second: Chunk)
    requires r == Fresh(Cumulative, 1).(acc := NestedCodes(first))
    ensures var out := Next(r, AudioCodes(second)).Emission([], false);
            out.Some? && out.value.mm == NestedCodes(second)
  {
    AudioCodesArrive(second);
    AddToNested(first, Leaf(One(second)));
    SettleAudioCodesAgain(first, second);
  }

  lemma AddToNested(c: Chunk, v: SlotValue)
    ensures MergeAll(NestedCodes(c), [(AUDIO_CODES, v)]) == NestedCodes(c) + [(AUDIO_CODES, v)]
  {
    assert AUDIO_CODES[5] == '.';
    GetOnly(NestedCodes(c)[0], AUDIO_CODES);
    PutNew(NestedCodes(c), AUDIO_CODES, v);
    assert [(AUDIO_CODES, v)][1..] == [];
  }
}
