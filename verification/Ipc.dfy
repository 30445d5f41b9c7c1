/**
 vllm_omni/diffusion/ipc.py: large tensors of a nested value are moved into named
 shared-memory segments and leave a handle, an ordinary marked dict, in their place.
 A value is a tensor, an atom, or a dict, list or tuple of values; a dict is an ordered
 list of keys next to the list of its values.
 */
module Ipc {
  import opened Common
  import opened Tensors

  const SHM_TENSOR_THRESHOLD: nat := 1_000_000
  const MARK: string := "__tensor_shm__"

  type Name = string

  datatype Atom = NoneAtom | BoolAtom(b: bool) | IntAtom(n: int) | StrAtom(s: string) | OtherAtom(id: int)

  datatype Kind = Dict(keys: seq<string>) | List | Tuple

  datatype Value =
    | TensorValue(tensor: Tensor)
    | AtomValue(atom: Atom)
    | Node(kind: Kind, items: seq<Value>)

  /** A segment holds an array of a NumPy dtype. */
  datatype Segment = Segment(dtype: Dtype, data: seq<int>)
  type Shm = map<Name, Segment>

  datatype Error = KeyError | TypeError | FileNotFound | BadHandle | AmbiguousTruth

  /** What a call leaves: its value or its exception, and the segments. */
  datatype Outcome<+T> = Outcome(result: Result<T, Error>, shm: Shm)

  /** The names the operating system hands out, in order of creation. */
  type Names = nat -> Name

  // ---- Truth and lookup, as Python has them ----

  datatype Truth = Yes | No | Ambiguous

  function TruthOf(v: Value): Truth {
    match v
    case TensorValue(t) => if |t.data| != 1 then Ambiguous else if t.data[0] != 0 then Yes else No
    case AtomValue(NoneAtom) => No
    case AtomValue(BoolAtom(b)) => if b then Yes else No
    case AtomValue(IntAtom(n)) => if n != 0 then Yes else No
    case AtomValue(StrAtom(s)) => if s != "" then Yes else No
    case AtomValue(OtherAtom(_)) => Yes
    case Node(_, items) => if items != [] then Yes else No
  }

  function Lookup(keys: seq<string>, items: seq<Value>, key: string): Option<Value> {
    if keys == [] || items == [] then None
    else if keys[0] == key then Some(items[0])
    else Lookup(keys[1..], items[1..], key)
  }

  function Get(v: Value, key: string): Option<Value> {
    if v.Node? && v.kind.Dict? then Lookup(v.kind.keys, v.items, key) else None
  }

  /** Whether `unpack` takes a dict for a handle. */
  function Mark(v: Value): Truth {
    var m := Get(v, MARK);
    if m.Some? then TruthOf(m.value) else No
  }

  /** No dict in the value is, or may be, taken for a handle. */
  predicate Unmarked(v: Value) {
    match v
    case Node(_, items) => Mark(v) == No && AllUnmarked(items)
    case _ => true
  }

  predicate AllUnmarked(vs: seq<Value>) {
    vs == [] || (Unmarked(vs[0]) && AllUnmarked(vs[1..]))
  }

  /** What Python takes for false: nothing else unmarks a dict. */
  ghost predicate Falsy(v: Value) {
    v in {AtomValue(NoneAtom), AtomValue(BoolAtom(false)), AtomValue(IntAtom(0)), AtomValue(StrAtom("")),
          Node(List, []), Node(Tuple, [])}
    || (v.Node? && v.kind.Dict? && v.items == [])
    || (v.TensorValue? && v.tensor.data == [0])
  }

  /** A dict is taken for a handle exactly if it has a value under the mark that is not false;
      a tensor there of other than one element has no truth value. */
  lemma MarkReads(v: Value)
    ensures var m := Get(v, "__tensor_shm__");
            && (Mark(v) == Ambiguous <==> m.Some? && m.value.TensorValue? && |m.value.tensor.data| != 1)
            && (Mark(v) == Yes <==> m.Some? && !Falsy(m.value) && Mark(v) != Ambiguous)
  {
  }

  // ---- Packing ----

  predicate IsLarge(t: Tensor) {
    |t.data| * ElementSize(t.dtype) > SHM_TENSOR_THRESHOLD
  }

  function SegmentOf(t: Tensor): Segment {
    Segment(NumpyDtype(t.dtype), t.data)
  }

  function IntValues(ns: seq<nat>): seq<Value> {
    if ns == [] then [] else [AtomValue(IntAtom(ns[0]))] + IntValues(ns[1..])
  }

  function HandleKeys(): seq<string> {
    [MARK, "name", "shape", "torch_dtype", "numpy_dtype", "nbytes"]
  }

  /** The metadata dict left in place of a tensor. */
  function Handle(t: Tensor, name: Name): Value {
    Node(Dict(HandleKeys()),
         [AtomValue(BoolAtom(true)),
          AtomValue(StrAtom(name)),
          Node(List, IntValues(t.shape)),
          AtomValue(StrAtom("torch." + DtypeName(t.dtype))),
          AtomValue(StrAtom(DtypeName(NumpyDtype(t.dtype)))),
          AtomValue(IntAtom(|t.data| * ElementSize(NumpyDtype(t.dtype))))])
  }

  /** The segments packing creates, in order. */
  function Segments(v: Value): seq<Segment> {
    match v
    case TensorValue(t) => if IsLarge(t) then [SegmentOf(t)] else []
    case AtomValue(_) => []
    case Node(_, items) => AllSegments(items)
  }

  function AllSegments(vs: seq<Value>): seq<Segment> {
    if vs == [] then [] else Segments(vs[0]) + AllSegments(vs[1..])
  }

  /** `_pack_value_if_large`, when the next segment created gets the name names(k). */
  function Pack(v: Value, names: Names, k: nat): Value {
    match v
    case TensorValue(t) => if IsLarge(t) then Handle(t, names(k)) else v
    case AtomValue(_) => v
    case Node(kind, items) => Node(kind, PackAll(items, names, k))
  }

  function PackAll(vs: seq<Value>, names: Names, k: nat): (r: seq<Value>)
    ensures |r| == |vs|
  {
    if vs == [] then []
    else [Pack(vs[0], names, k)] + PackAll(vs[1..], names, k + |Segments(vs[0])|)
  }

  /** The store after creating these segments. */
  function Created(shm: Shm, names: Names, k: nat, segments: seq<Segment>): Shm
    decreases |segments|
  {
    if segments == [] then shm else Created(shm[names(k) := segments[0]], names, k + 1, segments[1..])
  }

  // ---- Unpacking ----

  function IntsOf(vs: seq<Value>): Option<seq<nat>> {
    if vs == [] then Some([])
    else if vs[0].AtomValue? && vs[0].atom.IntAtom? && vs[0].atom.n >= 0 then
      var rest := IntsOf(vs[1..]);
      if rest.Some? then Some([vs[0].atom.n as nat] + rest.value) else None
    else None
  }

  /** The dtype a handle asks to convert back to; an unknown name leaves the array as it is. */
  function TorchDtype(handle: Value, arrived: Dtype): Dtype {
    match Get(handle, "torch_dtype")
    case Some(AtomValue(StrAtom(s))) =>
      var d := DtypeNamed(if |s| >= 6 && s[..6] == "torch." then s[6..] else s);
      if d.Some? then d.value else arrived
    case _ => arrived
  }

  /** Rebuilding the tensor from an attached segment. */
  function Rebuilt(handle: Value, segment: Segment): Result<Value, Error> {
    match (Get(handle, "numpy_dtype"), Get(handle, "shape"), Get(handle, "nbytes"))
    case (Some(AtomValue(StrAtom(d))), Some(Node(List, dims)), Some(AtomValue(IntAtom(nbytes)))) =>
      var shape := IntsOf(dims);
      if DtypeNamed(d) != Some(segment.dtype) || shape.None? then Err(BadHandle)
      else
        var n := Product(shape.value);
        if n > |segment.data| || n * ElementSize(segment.dtype) > nbytes then Err(BadHandle)
        else Ok(TensorValue(TensorRep(TorchDtype(handle, segment.dtype), shape.value, segment.data[..n])))
    case (Some(_), Some(_), Some(_)) => Err(BadHandle)
    case _ => Err(KeyError)
  }

  /** `_tensor_from_shm`: once attached, the segment is unlinked whatever else fails. */
  function FromShm(handle: Value, shm: Shm): Outcome<Value> {
    match Get(handle, "name")
    case None => Outcome(Err(KeyError), shm)
    case Some(AtomValue(StrAtom(name))) =>
      if name !in shm then Outcome(Err(FileNotFound), shm)
      else Outcome(Rebuilt(handle, shm[name]), shm - {name})
    case Some(_) => Outcome(Err(TypeError), shm)
  }

  /** `_unpack_if_shm_handle`. */
  function Unpack(v: Value, shm: Shm): Outcome<Value> {
    match v
    case Node(kind, items) =>
      (match Mark(v)
       case Ambiguous => Outcome(Err(AmbiguousTruth), shm)
       case Yes => FromShm(v, shm)
       case No =>
         var r := UnpackAll(items, shm);
         Outcome(if r.result.Ok? then Ok(Node(kind, r.result.value)) else Err(r.result.error), r.shm))
    case _ => Outcome(Ok(v), shm)
  }

  function UnpackAll(vs: seq<Value>, shm: Shm): Outcome<seq<Value>> {
    if vs == [] then Outcome(Ok([]), shm)
    else
      var first := Unpack(vs[0], shm);
      if first.result.Err? then Outcome(Err(first.result.error), first.shm)
      else
        var rest := UnpackAll(vs[1..], first.shm);
        if rest.result.Err? then rest
        else Outcome(Ok([first.result.value] + rest.result.value), rest.shm)
  }

  /** What unpacking a dict taken for a handle does: without a name, or with one that is no
      string, or that no segment has, it raises and leaves the store; else the segment is
      unlinked, and it raises exactly if a field is missing or does not fit the segment. */
  lemma HandleUnpacks(v: Value, shm: Shm)
    requires Mark(v) == Yes
    ensures var r := Unpack(v, shm);
            var name := Get(v, "name");
            if name.None? then r == Outcome(Err(KeyError), shm)
            else if !(name.value.AtomValue? && name.value.atom.StrAtom?) then r == Outcome(Err(TypeError), shm)
            else if name.value.atom.s !in shm then r == Outcome(Err(FileNotFound), shm)
            else
              && r.shm == shm - {name.value.atom.s}
              && (r.result == Err(KeyError) <==>
                    exists key | key in {"numpy_dtype", "shape", "nbytes"} :: Get(v, key).None?)
              && (r.result.Err? && r.result.error != KeyError ==> r.result.error == BadHandle)
  {
  }

  lemma AmbiguousMarkRaises(v: Value, shm: Shm)
    requires Mark(v) == Ambiguous
    ensures Unpack(v, shm) == Outcome(Err(AmbiguousTruth), shm)
  {
  }

  // ---- Packing leaves nothing large inline ----

  /** The bytes a tensor takes, by the width of its dtype. */
  function ByteSize(t: Tensor): nat {
    var n := |t.data|;
    match t.dtype
    case BoolType => n case Int8 => n case UInt8 => n
    case Int16 => 2 * n case Float16 => 2 * n case BFloat16 => 2 * n
    case Int32 => 4 * n case Float32 => 4 * n
    case Int64 => 8 * n case Float64 => 8 * n
  }

  /** Every tensor that is in the value itself has at most one megabyte. */
  predicate InlineSmall(v: Value) {
    match v
    case TensorValue(t) => ByteSize(t) <= 1_000_000
    case AtomValue(_) => true
    case Node(_, items) => AllInlineSmall(items)
  }

  predicate AllInlineSmall(vs: seq<Value>) {
    vs == [] || (InlineSmall(vs[0]) && AllInlineSmall(vs[1..]))
  }

  lemma {:induction false} IntValuesAreSmall(ns: seq<nat>)
    ensures AllInlineSmall(IntValues(ns)) && AllUnmarked(IntValues(ns))
    ensures IntsOf(IntValues(ns)) == Some(ns)
  {
    if ns != [] {
      IntValuesAreSmall(ns[1..]);
      assert IntValues(ns)[1..] == IntValues(ns[1..]);
      assert [ns[0]] + ns[1..] == ns;
    }
  }

  lemma HandleIsSmall(t: Tensor, name: Name)
    ensures InlineSmall(Handle(t, name))
  {
    IntValuesAreSmall(t.shape);
    var h := Handle(t, name).items;
    assert AllInlineSmall(h[6..]);
    assert h[5..][1..] == h[6..] && h[4..][1..] == h[5..] && h[3..][1..] == h[4..];
    assert h[2..][1..] == h[3..] && h[1..][1..] == h[2..];
    assert InlineSmall(h[2]);
    assert AllInlineSmall(h[5..]);
    assert AllInlineSmall(h[4..]);
    assert AllInlineSmall(h[3..]);
    assert AllInlineSmall(h[2..]);
    assert AllInlineSmall(h[1..]);
  }

  lemma {:induction false} PackLeavesSmall(v: Value, names: Names, k: nat)
    ensures InlineSmall(Pack(v, names, k))
    decreases v
  {
    match v
    case TensorValue(t) => if IsLarge(t) { HandleIsSmall(t, names(k)); }
    case AtomValue(_) =>
    case Node(_, items) => PackAllLeavesSmall(items, names, k);
  }

  lemma {:induction false} PackAllLeavesSmall(vs: seq<Value>, names: Names, k: nat)
    ensures AllInlineSmall(PackAll(vs, names, k))
    decreases vs
  {
    if vs != [] {
      PackLeavesSmall(vs[0], names, k);
      PackAllLeavesSmall(vs[1..], names, k + |Segments(vs[0])|);
    }
  }

  /** The tensors of a value that have more than a megabyte, from left to right. */
  function BigTensors(v: Value): seq<Tensor> {
    match v
    case TensorValue(t) => if ByteSize(t) > 1_000_000 then [t] else []
    case AtomValue(_) => []
    case Node(_, items) => AllBigTensors(items)
  }

  function AllBigTensors(vs: seq<Value>): seq<Tensor> {
    if vs == [] then [] else BigTensors(vs[0]) + AllBigTensors(vs[1..])
  }

  /** One segment for each tensor, with its elements; bfloat16 is stored as float32. */
  ghost predicate SegmentsHold(segments: seq<Segment>, tensors: seq<Tensor>) {
    && |segments| == |tensors|
    && forall i :: 0 <= i < |tensors| ==>
         && segments[i].data == tensors[i].data
         && segments[i].dtype == if tensors[i].dtype.BFloat16? then Float32 else tensors[i].dtype
  }

  /** Packing moves exactly the tensors of more than a megabyte, each to a segment. */
  lemma {:induction false} BigTensorsMove(v: Value)
    ensures SegmentsHold(Segments(v), BigTensors(v))
    decreases v
  {
    if v.Node? { AllBigTensorsMove(v.items); }
  }

  lemma {:induction false} AllBigTensorsMove(vs: seq<Value>)
    ensures SegmentsHold(AllSegments(vs), AllBigTensors(vs))
    decreases vs
  {
    if vs != [] {
      BigTensorsMove(vs[0]);
      AllBigTensorsMove(vs[1..]);
    }
  }

  /** What is left of a tensor of more than a megabyte: a marked dict that names its segment. */
  lemma BigBecomesHandle(t: Tensor, names: Names, k: nat)
    requires ByteSize(t) > 1_000_000
    ensures var h := Pack(TensorValue(t), names, k);
            && Mark(h) == Yes && Get(h, "__tensor_shm__") == Some(AtomValue(BoolAtom(true)))
            && Get(h, "name") == Some(AtomValue(StrAtom(names(k))))
            && (!t.dtype.BFloat16? ==> Get(h, "nbytes") == Some(AtomValue(IntAtom(ByteSize(t)))))
            && (t.dtype.BFloat16? ==> Get(h, "nbytes") == Some(AtomValue(IntAtom(2 * ByteSize(t)))))
  {
    HandleFields(t, names(k));
  }

  /** A value without large tensors is packed to itself and creates nothing; a value with
      one always creates something. */
  lemma {:induction false} SmallIsLeftAlone(v: Value, names: Names, k: nat)
    ensures InlineSmall(v) <==> Segments(v) == []
    ensures InlineSmall(v) ==> Pack(v, names, k) == v
    decreases v
  {
    if v.Node? { AllSmallAreLeftAlone(v.items, names, k); }
  }

  lemma {:induction false} AllSmallAreLeftAlone(vs: seq<Value>, names: Names, k: nat)
    ensures AllInlineSmall(vs) <==> AllSegments(vs) == []
    ensures AllInlineSmall(vs) ==> PackAll(vs, names, k) == vs
    decreases vs
  {
    if vs != [] {
      SmallIsLeftAlone(vs[0], names, k);
      AllSmallAreLeftAlone(vs[1..], names, k);
    }
  }

  /** Packing twice is packing once; the second time creates no segment. */
  lemma PackIsIdempotent(v: Value, names: Names, k: nat, others: Names, j: nat)
    ensures Pack(Pack(v, names, k), others, j) == Pack(v, names, k)
    ensures Segments(Pack(v, names, k)) == []
  {
    PackLeavesSmall(v, names, k);
    SmallIsLeftAlone(Pack(v, names, k), others, j);
  }

  // ---- The round trip ----

  /** No name is handed out twice from the k-th on. */
  ghost predicate Distinct(names: Names, k: nat) {
    forall i, j :: k <= i < j ==> names(i) != names(j)
  }

  ghost predicate Holds(shm: Shm, names: Names, k: nat, segments: seq<Segment>) {
    forall i :: k <= i < k + |segments| ==> names(i) in shm && shm[names(i)] == segments[i - k]
  }

  ghost function Named(names: Names, k: nat, n: nat): set<Name> {
    set i | k <= i < k + n :: names(i)
  }

  lemma NamedOne(names: Names, k: nat)
    ensures Named(names, k, 1) == {names(k)}
  {
    assert names(k) in Named(names, k, 1);
  }

  lemma NamedSplits(names: Names, k: nat, n: nat, m: nat)
    ensures Named(names, k, n + m) == Named(names, k, n) + Named(names, k + n, m)
  {
  }

  lemma RemovedInTwo(shm: Shm, names: Names, k: nat, n: nat, m: nat)
    ensures shm - Named(names, k, n) - Named(names, k + n, m) == shm - Named(names, k, n + m)
  {
    NamedSplits(names, k, n, m);
  }

  lemma {:induction false} MarkLooksThroughPacking(keys: seq<string>, vs: seq<Value>, names: Names, k: nat)
    ensures var before := Lookup(keys, vs, MARK);
            var after := Lookup(keys, PackAll(vs, names, k), MARK);
            && before.Some? == after.Some?
            && (before.Some? ==> (TruthOf(before.value) == No) == (TruthOf(after.value) == No))
    decreases vs
  {
    if keys != [] && vs != [] {
      if keys[0] == MARK {
        PackKeepsTruth(vs[0], names, k);
      } else {
        MarkLooksThroughPacking(keys[1..], vs[1..], names, k + |Segments(vs[0])|);
      }
    }
  }

  /** A large tensor has no single truth value, its handle is true. */
  lemma PackKeepsTruth(v: Value, names: Names, k: nat)
    ensures TruthOf(v) == No <==> TruthOf(Pack(v, names, k)) == No
  {
    if v.TensorValue? && IsLarge(v.tensor) && |v.tensor.data| == 1 {
      assert false;
    }
  }

  lemma PackKeepsUnmarked(v: Value, names: Names, k: nat)
    requires v.Node?
    ensures Mark(v) == No <==> Mark(Pack(v, names, k)) == No
  {
    if v.kind.Dict? { MarkLooksThroughPacking(v.kind.keys, v.items, names, k); }
  }

  lemma HandleFields(t: Tensor, name: Name)
    ensures var h := Handle(t, name);
            && Mark(h) == Yes
            && Get(h, "name") == Some(AtomValue(StrAtom(name)))
            && Get(h, "shape") == Some(Node(List, IntValues(t.shape)))
            && Get(h, "torch_dtype") == Some(AtomValue(StrAtom("torch." + DtypeName(t.dtype))))
            && Get(h, "numpy_dtype") == Some(AtomValue(StrAtom(DtypeName(NumpyDtype(t.dtype)))))
            && Get(h, "nbytes") == Some(AtomValue(IntAtom(|t.data| * ElementSize(NumpyDtype(t.dtype)))))
  {
    var h := Handle(t, name);
    var keys, items := h.kind.keys, h.items;
    LookupAt(keys, items, 0);
    LookupAt(keys, items, 1);
    LookupAt(keys, items, 2);
    LookupAt(keys, items, 3);
    LookupAt(keys, items, 4);
    LookupAt(keys, items, 5);
  }

  lemma {:induction false} LookupAt(keys: seq<string>, items: seq<Value>, i: nat)
    requires i < |keys| == |items|
    requires forall j :: 0 <= j < i ==> keys[j] != keys[i]
    ensures Lookup(keys, items, keys[i]) == Some(items[i])
    decreases i
  {
    if i > 0 { LookupAt(keys[1..], items[1..], i - 1); }
  }

  /** Reading a handle gives its tensor back, bfloat16 included, and takes the segment away. */
  lemma HandleRoundTrip(t: Tensor, name: Name, shm: Shm)
    requires name in shm && shm[name] == SegmentOf(t)
    ensures Unpack(Handle(t, name), shm) == Outcome(Ok(TensorValue(t)), shm - {name})
  {
    HandleFields(t, name);
    IntValuesAreSmall(t.shape);
    DtypeNamesParse(t.dtype);
    DtypeNamesParse(NumpyDtype(t.dtype));
    var s := "torch." + DtypeName(t.dtype);
    assert s[..6] == "torch." && s[6..] == DtypeName(t.dtype);
    assert t.data[..|t.data|] == t.data;
  }

  /** Unpacking what was packed gives the value back and removes exactly its segments,
      whatever else the store holds. */
  lemma {:induction false} UnpackUndoesPack(v: Value, names: Names, k: nat, shm: Shm)
    requires Unmarked(v) && Distinct(names, k) && Holds(shm, names, k, Segments(v))
    ensures Unpack(Pack(v, names, k), shm) == Outcome(Ok(v), shm - Named(names, k, |Segments(v)|))
    decreases v
  {
    match v
    case TensorValue(t) =>
      if IsLarge(t) {
        assert shm[names(k)] == Segments(v)[0];
        HandleRoundTrip(t, names(k), shm);
        NamedOne(names, k);
      } else {
        assert Named(names, k, 0) == {};
      }
    case AtomValue(_) => assert Named(names, k, 0) == {};
    case Node(_, items) =>
      PackKeepsUnmarked(v, names, k);
      UnpackAllUndoesPackAll(items, names, k, shm);
  }

  lemma UnpackBoth(vs: seq<Value>, names: Names, k: nat, shm: Shm, middle: Shm, last: Shm)
    requires vs != []
    requires Unpack(Pack(vs[0], names, k), shm) == Outcome(Ok(vs[0]), middle)
    requires UnpackAll(PackAll(vs[1..], names, k + |Segments(vs[0])|), middle) == Outcome(Ok(vs[1..]), last)
    ensures UnpackAll(PackAll(vs, names, k), shm) == Outcome(Ok(vs), last)
  {
    hide Unpack, Segments, Pack;
    assert PackAll(vs, names, k)[1..] == PackAll(vs[1..], names, k + |Segments(vs[0])|);
    assert [vs[0]] + vs[1..] == vs;
  }

  lemma {:induction false} UnpackAllUndoesPackAll(vs: seq<Value>, names: Names, k: nat, shm: Shm)
    requires AllUnmarked(vs) && Distinct(names, k) && Holds(shm, names, k, AllSegments(vs))
    ensures UnpackAll(PackAll(vs, names, k), shm) == Outcome(Ok(vs), shm - Named(names, k, |AllSegments(vs)|))
    decreases vs
  {
    if vs == [] {
      assert Named(names, k, 0) == {};
    } else {
      hide Named, Holds, Distinct, PackAll, UnpackAll;
      var n, m := |Segments(vs[0])|, |AllSegments(vs[1..])|;
      HoldsSplits(shm, names, k, Segments(vs[0]), AllSegments(vs[1..]));
      UnpackUndoesPack(vs[0], names, k, shm);
      UnpackAllUndoesPackAll(vs[1..], names, k + n, shm - Named(names, k, n));
      RemovedInTwo(shm, names, k, n, m);
      UnpackBoth(vs, names, k, shm, shm - Named(names, k, n), shm - Named(names, k, n + m));
    }
  }

  /** Segments of different subtrees never interfere. */
  lemma HoldsSplits(shm: Shm, names: Names, k: nat, first: seq<Segment>, rest: seq<Segment>)
    requires Distinct(names, k) && Holds(shm, names, k, first + rest)
    ensures Holds(shm, names, k, first)
    ensures Holds(shm - Named(names, k, |first|), names, k + |first|, rest)
    ensures Distinct(names, k + |first|)
  {
    forall i | k <= i < k + |first| ensures names(i) in shm && shm[names(i)] == first[i - k] {
      assert (first + rest)[i - k] == first[i - k];
    }
    var j := k + |first|;
    var left := shm - Named(names, k, |first|);
    forall i | j <= i < j + |rest| ensures names(i) in left && left[names(i)] == rest[i - j] {
      assert (first + rest)[i - k] == rest[i - j];
    }
  }

  // ---- The store as a whole ----

  /** None of the names still to be handed out is in use. */
  ghost predicate Unused(shm: Shm, names: Names, k: nat) {
    forall i :: k <= i ==> names(i) !in shm
  }

  lemma CreatedHolds(shm: Shm, names: Names, k: nat, segments: seq<Segment>)
    requires Distinct(names, k) && Unused(shm, names, k)
    ensures Holds(Created(shm, names, k, segments), names, k, segments)
    ensures Created(shm, names, k, segments) - Named(names, k, |segments|) == shm
    ensures Unused(Created(shm, names, k, segments), names, k + |segments|)
  {
    CreatedKeys(shm, names, k, segments);
    var all := Created(shm, names, k, segments);
    forall i | k <= i < k + |segments| ensures all[names(i)] == segments[i - k] {
      CreatedAt(shm, names, k, segments, i);
    }
    forall name | name in shm ensures name !in Named(names, k, |segments|) && all[name] == shm[name] {
      CreatedKeeps(shm, names, k, segments, name);
    }
    assert all - Named(names, k, |segments|) == shm;
  }

  lemma {:induction false} CreatedKeys(shm: Shm, names: Names, k: nat, segments: seq<Segment>)
    ensures Created(shm, names, k, segments).Keys == shm.Keys + Named(names, k, |segments|)
    decreases |segments|
  {
    if segments == [] {
      assert Named(names, k, 0) == {};
    } else {
      CreatedKeys(shm[names(k) := segments[0]], names, k + 1, segments[1..]);
      NamedSplits(names, k, 1, |segments| - 1);
      NamedOne(names, k);
    }
  }

  lemma {:induction false} CreatedAt(shm: Shm, names: Names, k: nat, segments: seq<Segment>, i: nat)
    requires Distinct(names, k) && k <= i < k + |segments|
    ensures names(i) in Created(shm, names, k, segments)
    ensures Created(shm, names, k, segments)[names(i)] == segments[i - k]
    decreases |segments|
  {
    var next := shm[names(k) := segments[0]];
    if i == k {
      CreatedKeeps(next, names, k + 1, segments[1..], names(k));
    } else {
      CreatedAt(next, names, k + 1, segments[1..], i);
    }
  }

  lemma {:induction false} CreatedKeeps(shm: Shm, names: Names, k: nat, segments: seq<Segment>, name: Name)
    requires forall i :: k <= i ==> names(i) != name
    requires name in shm
    ensures var c := Created(shm, names, k, segments); name in c && c[name] == shm[name]
    decreases |segments|
  {
    if segments != [] {
      CreatedKeeps(shm[names(k) := segments[0]], names, k + 1, segments[1..], name);
    }
  }

  lemma {:induction false} CreatedConcat(shm: Shm, names: Names, k: nat, a: seq<Segment>, b: seq<Segment>)
    ensures Created(shm, names, k, a + b) == Created(Created(shm, names, k, a), names, k + |a|, b)
    decreases |a|
  {
    if a == [] {
      assert a + b == b;
    } else {
      assert (a + b)[1..] == a[1..] + b;
      CreatedConcat(shm[names(k) := a[0]], names, k + 1, a[1..], b);
    }
  }

  /** Packing a value and unpacking it gives the value and the store back, for every value
      in which no dict can be taken for a handle, and for no other. */
  lemma RoundTripExactlyIfUnmarked(v: Value, names: Names, k: nat, shm: Shm)
    requires Distinct(names, k) && Unused(shm, names, k)
    ensures Unmarked(v) <==>
            Unpack(Pack(v, names, k), Created(shm, names, k, Segments(v))) == Outcome(Ok(v), shm)
  {
    var store := Created(shm, names, k, Segments(v));
    if Unmarked(v) {
      CreatedHolds(shm, names, k, Segments(v));
      UnpackUndoesPack(v, names, k, store);
    } else {
      MarkedIsNotRestored(v, names, k, store);
    }
  }

  lemma {:induction false} MarkedIsNotRestored(v: Value, names: Names, k: nat, shm: Shm)
    requires !Unmarked(v)
    ensures Unpack(Pack(v, names, k), shm).result != Ok(v)
    decreases v
  {
    PackKeepsUnmarked(v, names, k);
    if Mark(v) == No { AllMarkedAreNotRestored(v.items, names, k, shm); }
  }

  lemma {:induction false} AllMarkedAreNotRestored(vs: seq<Value>, names: Names, k: nat, shm: Shm)
    requires !AllUnmarked(vs)
    ensures UnpackAll(PackAll(vs, names, k), shm).result != Ok(vs)
    decreases vs
  {
    var ps := PackAll(vs, names, k);
    var first := Unpack(ps[0], shm);
    var n := k + |Segments(vs[0])|;
    assert ps[1..] == PackAll(vs[1..], names, n);
    if !Unmarked(vs[0]) {
      MarkedIsNotRestored(vs[0], names, k, shm);
    } else {
      AllMarkedAreNotRestored(vs[1..], names, n, first.shm);
    }
    var rest := UnpackAll(ps[1..], first.shm);
    if first.result.Ok? && rest.result.Ok? {
      var w := [first.result.value] + rest.result.value;
      assert w[0] == first.result.value && w[1..] == rest.result.value;
    }
  }

  /** Unpacking leaves alone what carries no handle. */
  lemma {:induction false} UnmarkedIsLeftAlone(v: Value, shm: Shm)
    requires Unmarked(v)
    ensures Unpack(v, shm) == Outcome(Ok(v), shm)
    decreases v
  {
    if v.Node? { AllUnmarkedAreLeftAlone(v.items, shm); }
  }

  lemma {:induction false} AllUnmarkedAreLeftAlone(vs: seq<Value>, shm: Shm)
    requires AllUnmarked(vs)
    ensures UnpackAll(vs, shm) == Outcome(Ok(vs), shm)
    decreases vs
  {
    if vs != [] {
      UnmarkedIsLeftAlone(vs[0], shm);
      AllUnmarkedAreLeftAlone(vs[1..], shm);
      assert [vs[0]] + vs[1..] == vs;
    }
  }

  // ---- The fields of an output ----

  /** A field of an output.  `output` is packed in depth; a trajectory field only when it
      is a tensor itself. */
  datatype Slot = Slot(value: Value, deep: bool)

  function SlotSegments(s: Slot): seq<Segment> {
    if s.deep || s.value.TensorValue? then Segments(s.value) else []
  }

  function FieldSegments(fields: seq<Slot>): seq<Segment> {
    if fields == [] then [] else SlotSegments(fields[0]) + FieldSegments(fields[1..])
  }

  function PackSlot(s: Slot, names: Names, k: nat): Slot {
    if s.deep || s.value.TensorValue? then s.(value := Pack(s.value, names, k)) else s
  }

  /** `_pack_diffusion_fields`. */
  function PackFields(fields: seq<Slot>, names: Names, k: nat): (r: seq<Slot>)
    ensures |r| == |fields|
  {
    if fields == [] then []
    else [PackSlot(fields[0], names, k)] + PackFields(fields[1..], names, k + |SlotSegments(fields[0])|)
  }

  /** `_unpack_diffusion_fields`: every field in depth, up to the first exception. */
  function UnpackFields(fields: seq<Slot>, shm: Shm): Outcome<seq<Slot>> {
    if fields == [] then Outcome(Ok([]), shm)
    else
      var first := Unpack(fields[0].value, shm);
      if first.result.Err? then Outcome(Err(first.result.error), first.shm)
      else
        var rest := UnpackFields(fields[1..], first.shm);
        if rest.result.Err? then rest
        else Outcome(Ok([fields[0].(value := first.result.value)] + rest.result.value), rest.shm)
  }

  predicate FieldsUnmarked(fields: seq<Slot>) {
    forall i :: 0 <= i < |fields| ==> Unmarked(fields[i].value)
  }

  predicate PacksSmall(s: Slot) {
    s.deep || s.value.TensorValue? || InlineSmall(s.value)
  }

  /** A nested value in a trajectory field keeps its large tensors: after packing nothing
      large is left inline exactly if no such value holds one. */
  lemma LargeLeftInline(fields: seq<Slot>, names: Names, k: nat)
    ensures (forall s :: s in PackFields(fields, names, k) ==> InlineSmall(s.value))
            <==> (forall s :: s in fields ==> PacksSmall(s))
  {
    var packed := PackFields(fields, names, k);
    forall i | 0 <= i < |fields|
      ensures InlineSmall(packed[i].value) <==> PacksSmall(fields[i])
    {
      PackedInlineAt(fields, names, k, i);
    }
    if forall s :: s in fields ==> PacksSmall(s) {
      forall s | s in packed ensures InlineSmall(s.value) {
        var i :| 0 <= i < |packed| && packed[i] == s;
        assert fields[i] in fields;
      }
    } else {
      var s :| s in fields && !PacksSmall(s);
      var i :| 0 <= i < |fields| && fields[i] == s;
      assert packed[i] in packed;
    }
  }

  lemma PackSlotSmall(s: Slot, names: Names, k: nat)
    ensures InlineSmall(PackSlot(s, names, k).value) <==> PacksSmall(s)
  {
    PackLeavesSmall(s.value, names, k);
  }

  lemma {:induction false} PackedInlineAt(fields: seq<Slot>, names: Names, k: nat, i: nat)
    requires i < |fields|
    ensures InlineSmall(PackFields(fields, names, k)[i].value) <==> PacksSmall(fields[i])
    decreases i
  {
    hide InlineSmall, PacksSmall, PackSlot, SlotSegments;
    if i == 0 {
      PackSlotSmall(fields[0], names, k);
    } else {
      PackedInlineAt(fields[1..], names, k + |SlotSegments(fields[0])|, i - 1);
    }
  }

  lemma PackSlotIsIdempotent(s: Slot, names: Names, k: nat, j: nat)
    ensures SlotSegments(PackSlot(s, names, k)) == []
    ensures PackSlot(PackSlot(s, names, k), names, j) == PackSlot(s, names, k)
  {
    PackIsIdempotent(s.value, names, k, names, j);
  }

  lemma {:induction false} PackFieldsIsIdempotent(fields: seq<Slot>, names: Names, k: nat, j: nat)
    ensures FieldSegments(PackFields(fields, names, k)) == []
    ensures PackFields(PackFields(fields, names, k), names, j) == PackFields(fields, names, k)
    decreases |fields|
  {
    if fields != [] {
      hide SlotSegments, PackSlot;
      var next := k + |SlotSegments(fields[0])|;
      assert PackFields(fields, names, k)[1..] == PackFields(fields[1..], names, next);
      PackSlotIsIdempotent(fields[0], names, k, j);
      PackFieldsIsIdempotent(fields[1..], names, next, j);
    }
  }

  lemma SlotRoundTrip(s: Slot, names: Names, k: nat, shm: Shm)
    requires Unmarked(s.value) && Distinct(names, k) && Holds(shm, names, k, SlotSegments(s))
    ensures Unpack(PackSlot(s, names, k).value, shm)
            == Outcome(Ok(s.value), shm - Named(names, k, |SlotSegments(s)|))
  {
    if s.deep || s.value.TensorValue? {
      UnpackUndoesPack(s.value, names, k, shm);
    } else {
      UnmarkedIsLeftAlone(s.value, shm);
      assert Named(names, k, 0) == {};
    }
  }

  lemma UnpackBothFields(fields: seq<Slot>, names: Names, k: nat, shm: Shm, middle: Shm, last: Shm)
    requires fields != []
    requires Unpack(PackSlot(fields[0], names, k).value, shm) == Outcome(Ok(fields[0].value), middle)
    requires UnpackFields(PackFields(fields[1..], names, k + |SlotSegments(fields[0])|), middle)
             == Outcome(Ok(fields[1..]), last)
    ensures UnpackFields(PackFields(fields, names, k), shm) == Outcome(Ok(fields), last)
  {
    hide Unpack, Segments, SlotSegments, Pack;
    var packed := PackFields(fields, names, k);
    assert packed[1..] == PackFields(fields[1..], names, k + |SlotSegments(fields[0])|);
    assert [fields[0]] + fields[1..] == fields;
  }

  lemma {:induction false} FieldsRoundTrip(fields: seq<Slot>, names: Names, k: nat, shm: Shm)
    requires FieldsUnmarked(fields) && Distinct(names, k) && Holds(shm, names, k, FieldSegments(fields))
    ensures UnpackFields(PackFields(fields, names, k), shm)
            == Outcome(Ok(fields), shm - Named(names, k, |FieldSegments(fields)|))
    decreases |fields|
  {
    if fields == [] {
      assert Named(names, k, 0) == {};
    } else {
      assert FieldsUnmarked(fields[1..]);
      hide Named, Holds, Distinct, Segments, FieldsUnmarked, PackFields, UnpackFields, SlotSegments;
      var s := fields[0];
      var n, m := |SlotSegments(s)|, |FieldSegments(fields[1..])|;
      HoldsSplits(shm, names, k, SlotSegments(s), FieldSegments(fields[1..]));
      SlotRoundTrip(s, names, k, shm);
      FieldsRoundTrip(fields[1..], names, k + n, shm - Named(names, k, n));
      RemovedInTwo(shm, names, k, n, m);
      UnpackBothFields(fields, names, k, shm, shm - Named(names, k, n), shm - Named(names, k, n + m));
    }
  }

  lemma {:induction false} UnmarkedFieldsAreLeftAlone(fields: seq<Slot>, shm: Shm)
    requires FieldsUnmarked(fields)
    ensures UnpackFields(fields, shm) == Outcome(Ok(fields), shm)
    decreases |fields|
  {
    if fields != [] {
      UnmarkedIsLeftAlone(fields[0].value, shm);
      UnmarkedFieldsAreLeftAlone(fields[1..], shm);
      assert [fields[0]] + fields[1..] == fields;
    }
  }

  // ---- Wrappers: several references, perhaps to one object ----

  type Heap<!R> = map<R, seq<Slot>>
  datatype Packing<!R> = Packing(heap: Heap<R>, k: nat, shm: Shm)

  /** Packing the objects the references lead to, one reference after the other. */
  function PackRefs<R>(refs: seq<R>, p: Packing<R>, names: Names): (q: Packing<R>)
    requires forall r :: r in refs ==> r in p.heap
    ensures q.heap.Keys == p.heap.Keys
    decreases |refs|
  {
    if refs == [] then p
    else PackRefs(refs[1..], PackRef(refs[0], p, names), names)
  }

  function PackRef<R>(r: R, p: Packing<R>, names: Names): Packing<R>
    requires r in p.heap
  {
    var segments := FieldSegments(p.heap[r]);
    Packing(p.heap[r := PackFields(p.heap[r], names, p.k)], p.k + |segments|,
            Created(p.shm, names, p.k, segments))
  }

  function UnpackRefs<R>(refs: seq<R>, heap: Heap<R>, shm: Shm): Outcome<Heap<R>>
    requires forall r :: r in refs ==> r in heap
    decreases |refs|
  {
    if refs == [] then Outcome(Ok(heap), shm)
    else
      var first := UnpackFields(heap[refs[0]], shm);
      if first.result.Err? then Outcome(Err(first.result.error), first.shm)
      else UnpackRefs(refs[1..], heap[refs[0] := first.result.value], first.shm)
  }

  /** The references to anything but r. */
  function Others<R(==)>(refs: seq<R>, r: R): (s: seq<R>)
    ensures |s| <= |refs| && r !in s
    ensures forall x :: x in s ==> x in refs
  {
    if refs == [] then []
    else if refs[0] == r then Others(refs[1..], r)
    else [refs[0]] + Others(refs[1..], r)
  }

  /** A second reference to a packed object packs nothing more. */
  lemma {:induction false} PackedOnce<R>(refs: seq<R>, p: Packing<R>, names: Names, r: R)
    requires forall x :: x in refs ==> x in p.heap
    requires r in p.heap && FieldSegments(p.heap[r]) == []
    requires forall j :: PackFields(p.heap[r], names, j) == p.heap[r]
    ensures PackRefs(refs, p, names) == PackRefs(Others(refs, r), p, names)
    decreases |refs|
  {
    if refs != [] {
      if refs[0] == r {
        assert p.heap[r := p.heap[r]] == p.heap;
        assert PackRef(r, p, names) == p;
      }
      PackedOnce(refs[1..], PackRef(refs[0], p, names), names, r);
    }
  }

  /** A second reference to an unpacked object unpacks nothing more. */
  lemma {:induction false} UnpackedOnce<R>(refs: seq<R>, heap: Heap<R>, shm: Shm, r: R)
    requires forall x :: x in refs ==> x in heap
    requires r in heap && FieldsUnmarked(heap[r])
    ensures UnpackRefs(refs, heap, shm) == UnpackRefs(Others(refs, r), heap, shm)
    decreases |refs|
  {
    if refs != [] {
      var first := UnpackFields(heap[refs[0]], shm);
      if refs[0] == r {
        UnmarkedFieldsAreLeftAlone(heap[r], shm);
        assert heap[r := heap[r]] == heap;
        UnpackedOnce(refs[1..], heap, shm, r);
      } else if first.result.Ok? {
        UnpackedOnce(refs[1..], heap[refs[0] := first.result.value], first.shm, r);
      }
    }
  }

  /** Packing other objects neither looks at this object nor at segments already there. */
  lemma {:induction false} PackRefsElsewhere<R>(refs: seq<R>, p: Packing<R>, q: Packing<R>, names: Names, r: R,
                                                gone: set<Name>)
    requires forall x :: x in refs ==> x in q.heap
    requires r !in refs && r in q.heap && r in p.heap
    requires p.heap == q.heap[r := p.heap[r]] && p.k == q.k && q.shm == p.shm - gone
    requires forall i :: p.k <= i ==> names(i) !in gone
    ensures var p2, q2 := PackRefs(refs, p, names), PackRefs(refs, q, names);
            p2.heap == q2.heap[r := p.heap[r]] && q2.shm == p2.shm - gone
    decreases |refs|
  {
    if refs != [] {
      CreatedElsewhere(p.shm, names, p.k, FieldSegments(p.heap[refs[0]]), gone);
      var p1, q1 := PackRef(refs[0], p, names), PackRef(refs[0], q, names);
      assert p1.heap == q1.heap[r := p.heap[r]];
      PackRefsElsewhere(refs[1..], p1, q1, names, r, gone);
    }
  }

  lemma {:induction false} CreatedElsewhere(shm: Shm, names: Names, k: nat, segments: seq<Segment>, gone: set<Name>)
    requires forall i :: k <= i ==> names(i) !in gone
    ensures Created(shm - gone, names, k, segments) == Created(shm, names, k, segments) - gone
    decreases |segments|
  {
    if segments != [] {
      assert (shm - gone)[names(k) := segments[0]] == shm[names(k) := segments[0]] - gone;
      CreatedElsewhere(shm[names(k) := segments[0]], names, k + 1, segments[1..], gone);
    }
  }

  lemma {:induction false} PackRefsKeepsSegment<R>(refs: seq<R>, p: Packing<R>, names: Names, name: Name)
    requires forall x :: x in refs ==> x in p.heap
    requires name in p.shm && forall i :: p.k <= i ==> names(i) != name
    ensures var q := PackRefs(refs, p, names); name in q.shm && q.shm[name] == p.shm[name]
    decreases |refs|
  {
    if refs != [] {
      CreatedKeeps(p.shm, names, p.k, FieldSegments(p.heap[refs[0]]), name);
      PackRefsKeepsSegment(refs[1..], PackRef(refs[0], p, names), names, name);
    }
  }

  lemma PackRefsKeepsHeld<R>(refs: seq<R>, p: Packing<R>, names: Names, k: nat, segments: seq<Segment>)
    requires forall x :: x in refs ==> x in p.heap
    requires Distinct(names, k) && Holds(p.shm, names, k, segments) && k + |segments| <= p.k
    ensures Holds(PackRefs(refs, p, names).shm, names, k, segments)
  {
    var q := PackRefs(refs, p, names);
    forall i | k <= i < k + |segments| ensures names(i) in q.shm && q.shm[names(i)] == segments[i - k] {
      PackRefsKeepsSegment(refs, p, names, names(i));
    }
  }

  /** The first reference packs its object; later references to it do nothing. */
  lemma PackFirst<R>(refs: seq<R>, p: Packing<R>, names: Names)
    requires refs != [] && forall r :: r in refs ==> r in p.heap
    ensures PackRefs(refs, p, names) == PackRefs(Others(refs[1..], refs[0]), PackRef(refs[0], p, names), names)
  {
    var r := refs[0];
    var p1 := PackRef(r, p, names);
    forall j: nat ensures PackFields(p1.heap[r], names, j) == p1.heap[r] {
      PackFieldsIsIdempotent(p.heap[r], names, p.k, j);
    }
    PackFieldsIsIdempotent(p.heap[r], names, p.k, 0);
    forall x | x in refs[1..] ensures x in p1.heap { assert x in refs; }
    PackedOnce(refs[1..], p1, names, r);
  }

  /** A packing that also packed r first, against one that did not. */
  ghost predicate Apart<R>(with: Packing<R>, without: Packing<R>, r: R, packed: seq<Slot>,
                           segments: seq<Segment>, names: Names, k: nat) {
    && with.heap == without.heap[r := packed]
    && with.shm - Named(names, k, |segments|) == without.shm
    && Holds(with.shm, names, k, segments)
  }

  function Skipping<R>(p: Packing<R>, n: nat): Packing<R> {
    p.(k := p.k + n)
  }

  lemma PackApart<R>(r: R, rest: seq<R>, p: Packing<R>, names: Names)
    requires r in p.heap && r !in rest && forall x :: x in rest ==> x in p.heap
    requires Distinct(names, p.k) && Unused(p.shm, names, p.k)
    ensures Apart(PackRefs(rest, PackRef(r, p, names), names),
                  PackRefs(rest, Skipping(p, |FieldSegments(p.heap[r])|), names),
                  r, PackFields(p.heap[r], names, p.k), FieldSegments(p.heap[r]), names, p.k)
  {
    hide PackRefs, PackFields, FieldSegments, Created;
    var segments := FieldSegments(p.heap[r]);
    var p1 := PackRef(r, p, names);
    CreatedHolds(p.shm, names, p.k, segments);
    PackRefsElsewhere(rest, p1, Skipping(p, |segments|), names, r, Named(names, p.k, |segments|));
    PackRefsKeepsHeld(rest, p1, names, p.k, segments);
  }

  /** Packing the objects behind any references and unpacking them through the same
      references gives every object its fields back and the store back, however often an
      object is referred to. */
  lemma {:induction false} RefsRoundTrip<R>(refs: seq<R>, p: Packing<R>, names: Names)
    requires forall r :: r in refs ==> r in p.heap && FieldsUnmarked(p.heap[r])
    requires Distinct(names, p.k) && Unused(p.shm, names, p.k)
    ensures var q := PackRefs(refs, p, names);
            UnpackRefs(refs, q.heap, q.shm) == Outcome(Ok(p.heap), p.shm)
    decreases |refs|
  {
    if refs != [] {
      var r, rest := refs[0], Others(refs[1..], refs[0]);
      forall x | x in rest ensures x in refs { assert x in refs[1..]; }
      var alone := Skipping(p, |FieldSegments(p.heap[r])|);
      PackFirst(refs, p, names);
      PackApart(r, rest, p, names);
      RefsRoundTrip(rest, alone, names);
      RestedHeap(rest, alone, names, r);
      UnpackFirst(refs, p, names, PackRefs(refs, p, names), PackRefs(rest, alone, names));
    }
  }

  lemma UnpackFirst<R>(refs: seq<R>, p: Packing<R>, names: Names, q: Packing<R>, alone: Packing<R>)
    requires refs != [] && refs[0] in p.heap && FieldsUnmarked(p.heap[refs[0]])
    requires forall x :: x in refs ==> x in alone.heap
    requires Distinct(names, p.k) && alone.heap[refs[0]] == p.heap[refs[0]]
    requires Apart(q, alone, refs[0], PackFields(p.heap[refs[0]], names, p.k), FieldSegments(p.heap[refs[0]]),
                   names, p.k)
    ensures UnpackRefs(refs, q.heap, q.shm) == UnpackRefs(Others(refs[1..], refs[0]), alone.heap, alone.shm)
  {
    var r := refs[0];
    FieldsRoundTrip(p.heap[r], names, p.k, q.shm);
    assert q.heap[r := p.heap[r]] == alone.heap;
    forall x | x in refs[1..] ensures x in alone.heap { assert x in refs; }
    UnpackedOnce(refs[1..], alone.heap, alone.shm, r);
  }

  lemma {:induction false} RestedHeap<R>(refs: seq<R>, p: Packing<R>, names: Names, r: R)
    requires forall x :: x in refs ==> x in p.heap
    requires r in p.heap && r !in refs
    ensures PackRefs(refs, p, names).heap[r] == p.heap[r]
    decreases |refs|
  {
    if refs != [] {
      RestedHeap(refs[1..], PackRef(refs[0], p, names), names, r);
    }
  }

  /** Had the references led to separate copies of one packed object, the copy unpacked
      second would find its segments gone: reading both succeeds exactly when there are none. */
  lemma CopiesUnpackOnce(fields: seq<Slot>, names: Names, k: nat, shm: Shm)
    requires FieldsUnmarked(fields) && Distinct(names, k) && Holds(shm, names, k, FieldSegments(fields))
    ensures var packed := PackFields(fields, names, k);
            var second := UnpackFields(packed, UnpackFields(packed, shm).shm).result;
            && (second.Ok? <==> FieldSegments(fields) == [])
            && (second.Err? ==> second.error == FileNotFound)
  {
    FieldsRoundTrip(fields, names, k, shm);
    var left := shm - Named(names, k, |FieldSegments(fields)|);
    if FieldSegments(fields) == [] {
      assert Holds(left, names, k, FieldSegments(fields));
      FieldsRoundTrip(fields, names, k, left);
    } else {
      assert Gone(left, names, k, |FieldSegments(fields)|);
      MissingFieldsFail(fields, names, k, left);
    }
  }

  ghost predicate Gone(shm: Shm, names: Names, k: nat, n: nat) {
    forall i :: k <= i < k + n ==> names(i) !in shm
  }

  lemma {:induction false} MissingFails(v: Value, names: Names, k: nat, shm: Shm)
    requires Unmarked(v) && Gone(shm, names, k, |Segments(v)|) && Segments(v) != []
    ensures Unpack(Pack(v, names, k), shm) == Outcome(Err(FileNotFound), shm)
    decreases v
  {
    match v
    case TensorValue(t) => HandleFields(t, names(k));
    case AtomValue(_) =>
    case Node(_, items) =>
      PackKeepsUnmarked(v, names, k);
      MissingAllFail(items, names, k, shm);
  }

  lemma {:induction false} MissingAllFail(vs: seq<Value>, names: Names, k: nat, shm: Shm)
    requires AllUnmarked(vs) && Gone(shm, names, k, |AllSegments(vs)|) && AllSegments(vs) != []
    ensures UnpackAll(PackAll(vs, names, k), shm) == Outcome(Err(FileNotFound), shm)
    decreases vs
  {
    var n := |Segments(vs[0])|;
    if n == 0 {
      SmallIsLeftAlone(vs[0], names, k);
      UnmarkedIsLeftAlone(vs[0], shm);
      MissingAllFail(vs[1..], names, k, shm);
    } else {
      MissingFails(vs[0], names, k, shm);
    }
  }

  lemma {:induction false} MissingFieldsFail(fields: seq<Slot>, names: Names, k: nat, shm: Shm)
    requires FieldsUnmarked(fields) && Gone(shm, names, k, |FieldSegments(fields)|) && FieldSegments(fields) != []
    ensures UnpackFields(PackFields(fields, names, k), shm) == Outcome(Err(FileNotFound), shm)
    decreases |fields|
  {
    var s := fields[0];
    if SlotSegments(s) == [] {
      SmallIsLeftAlone(s.value, names, k);
      UnmarkedIsLeftAlone(s.value, shm);
      MissingFieldsFail(fields[1..], names, k, shm);
    } else {
      MissingFails(s.value, names, k, shm);
    }
  }
}
