/**
 vllm_omni/diffusion/ipc.py, the part that works in place: creating and unlinking
 segments, and the fields of outputs and of wrappers around them.
 */
module IpcTransfer {
  import opened Common
  import opened Tensors
  import opened Ipc

  class DiffusionOutput {
    var output: Value
    var trajectoryLatents: Value
    var trajectoryTimesteps: Value
    var trajectoryLogProbs: Value

    constructor (output: Value, latents: Value, timesteps: Value, logProbs: Value)
      ensures Fields() == [Slot(output, true), Slot(latents, false), Slot(timesteps, false), Slot(logProbs, false)]
    {
      this.output := output;
      trajectoryLatents := latents;
      trajectoryTimesteps := timesteps;
      trajectoryLogProbs := logProbs;
    }

    function Fields(): seq<Slot>
      reads this
    {
      [Slot(output, true), Slot(trajectoryLatents, false),
       Slot(trajectoryTimesteps, false), Slot(trajectoryLogProbs, false)]
    }
  }

  /** Of the four fields, in this order, only `output` is packed in depth: a trajectory field that
      is no tensor itself stays as it is. */
  lemma OnlyOutputInDepth(o: DiffusionOutput, names: Names, k: nat)
    ensures var p := PackFields(o.Fields(), names, k);
            && |p| == 4 && p[0].value == Pack(o.output, names, k) && InlineSmall(p[0].value)
            && (!o.trajectoryLatents.TensorValue? ==> p[1].value == o.trajectoryLatents)
            && (!o.trajectoryTimesteps.TensorValue? ==> p[2].value == o.trajectoryTimesteps)
            && (!o.trajectoryLogProbs.TensorValue? ==> p[3].value == o.trajectoryLogProbs)
            && (o.trajectoryLatents.TensorValue? ==> InlineSmall(p[1].value))
            && (o.trajectoryTimesteps.TensorValue? ==> InlineSmall(p[2].value))
            && (o.trajectoryLogProbs.TensorValue? ==> InlineSmall(p[3].value))
  {
    var f := o.Fields();
    PackLeavesSmall(o.output, names, k);
    PackedSlotAt(f, names, k, 0);
    PackedSlotAt(f, names, k, 1);
    PackedSlotAt(f, names, k, 2);
    PackedSlotAt(f, names, k, 3);
    hide PackFields, Pack, InlineSmall;
  }

  lemma {:induction false} PackedSlotAt(fields: seq<Slot>, names: Names, k: nat, i: nat)
    requires i < |fields|
    ensures var s, p := fields[i], PackFields(fields, names, k)[i];
            && (i == 0 && s.deep ==> p.value == Pack(s.value, names, k))
            && (s.value.TensorValue? ==> InlineSmall(p.value))
            && (!s.deep && !s.value.TensorValue? ==> p == s)
    decreases i
  {
    if i > 0 {
      PackedSlotAt(fields[1..], names, k + |SlotSegments(fields[0])|, i - 1);
    } else {
      PackLeavesSmall(fields[0].value, names, k);
    }
  }

  /** A wrapper such as RunnerOutput.  `result` may be one of the `perRequestResults`. */
  class Wrapper {
    var result: DiffusionOutput?
    var perRequestResults: seq<(string, DiffusionOutput)>

    constructor (result: DiffusionOutput?, perRequestResults: seq<(string, DiffusionOutput)>)
      ensures this.result == result && this.perRequestResults == perRequestResults
    {
      this.result := result;
      this.perRequestResults := perRequestResults;
    }

    function Refs(): seq<DiffusionOutput>
      reads this
    {
      (if result != null then [result] else []) + Results(perRequestResults)
    }
  }

  function Results(s: seq<(string, DiffusionOutput)>): (r: seq<DiffusionOutput>)
    ensures |r| == |s|
  {
    if s == [] then [] else [s[0].1] + Results(s[1..])
  }

  lemma {:induction false} ResultsAt(s: seq<(string, DiffusionOutput)>, i: nat)
    requires i < |s|
    ensures Results(s)[i] == s[i].1
    decreases i
  {
    if i > 0 { ResultsAt(s[1..], i - 1); }
  }

  /** The outputs a wrapper leads to: its result, if it has one, and then those of its entries. */
  lemma RefsAre(w: Wrapper)
    ensures var refs := w.Refs();
            var own := if w.result != null then 1 else 0;
            && |refs| == own + |w.perRequestResults|
            && (w.result != null ==> refs[0] == w.result)
            && (forall i :: own <= i < |refs| ==> refs[i] == w.perRequestResults[i - own].1)
  {
    forall i | 0 <= i < |w.perRequestResults| ensures Results(w.perRequestResults)[i] == w.perRequestResults[i].1 {
      ResultsAt(w.perRequestResults, i);
    }
  }

  lemma PackRefsStep(refs: seq<DiffusionOutput>, i: nat, p: Packing<DiffusionOutput>, names: Names)
    requires i < |refs| && forall r :: r in refs ==> r in p.heap
    ensures PackRefs(refs[i..], p, names) == PackRefs(refs[i + 1..], PackRef(refs[i], p, names), names)
  {
    assert refs[i..][1..] == refs[i + 1..];
  }

  lemma PackNone(refs: seq<DiffusionOutput>, p: Packing<DiffusionOutput>, names: Names)
    ensures PackRefs(refs[|refs|..], p, names) == p
  {
  }

  lemma UnpackNone(refs: seq<DiffusionOutput>, heap: Heap<DiffusionOutput>, shm: Shm)
    ensures UnpackRefs(refs[|refs|..], heap, shm) == Outcome(Ok(heap), shm)
  {
  }

  lemma UnpackRefsStep(refs: seq<DiffusionOutput>, i: nat, heap: Heap<DiffusionOutput>, shm: Shm)
    requires i < |refs| && forall r :: r in refs ==> r in heap
    ensures var one := UnpackFields(heap[refs[i]], shm);
            UnpackRefs(refs[i..], heap, shm)
            == if one.result.Err? then Outcome(Err(one.result.error), one.shm)
               else UnpackRefs(refs[i + 1..], heap[refs[i] := one.result.value], one.shm)
  {
    assert refs[i..][1..] == refs[i + 1..];
  }

  ghost function HeapOf(refs: seq<DiffusionOutput>): (h: Heap<DiffusionOutput>)
    reads refs
    ensures forall o :: o in refs ==> o in h
  {
    map o | o in refs :: o.Fields()
  }

  function Prepended<T>(done: seq<T>, rest: Outcome<seq<T>>): Outcome<seq<T>> {
    if rest.result.Ok? then Outcome(Ok(done + rest.result.value), rest.shm) else rest
  }

  /** What packing leaves: the packed items, the next name and the segments. */
  datatype Packed<T> = Packed(items: seq<T>, next: nat, shm: Shm)

  ghost function PackedItems(done: seq<Value>, vs: seq<Value>, names: Names, k: nat, shm: Shm): Packed<Value> {
    Packed(done + PackAll(vs, names, k), k + |AllSegments(vs)|, Created(shm, names, k, AllSegments(vs)))
  }

  lemma PackOneMore(done: seq<Value>, vs: seq<Value>, i: nat, names: Names, k: nat, shm: Shm)
    requires i < |vs|
    ensures PackedItems(done, vs[i..], names, k, shm)
            == PackedItems(done + [Pack(vs[i], names, k)], vs[i + 1..], names, k + |Segments(vs[i])|,
                           Created(shm, names, k, Segments(vs[i])))
  {
    assert vs[i..][1..] == vs[i + 1..];
    CreatedConcat(shm, names, k, Segments(vs[i]), AllSegments(vs[i + 1..]));
  }

  /** One field packed, from the k-th name on. */
  lemma PackStep(fields: seq<Slot>, i: nat, names: Names, k: nat, shm: Shm, next: nat, after: Shm, value: Value)
    requires i < |fields| && value == PackSlot(fields[i], names, k).value
    requires next == k + |SlotSegments(fields[i])| && after == Created(shm, names, k, SlotSegments(fields[i]))
    ensures PackFields(fields[i..], names, k) == [fields[i].(value := value)] + PackFields(fields[i + 1..], names, next)
    ensures k + |FieldSegments(fields[i..])| == next + |FieldSegments(fields[i + 1..])|
    ensures Created(shm, names, k, FieldSegments(fields[i..]))
              == Created(after, names, next, FieldSegments(fields[i + 1..]))
  {
    hide Created, Segments, Pack, SlotSegments;
    assert fields[i..][1..] == fields[i + 1..];
    CreatedConcat(shm, names, k, SlotSegments(fields[i]), FieldSegments(fields[i + 1..]));
  }

  ghost function UnpackedItems(done: seq<Value>, vs: seq<Value>, shm: Shm): Outcome<seq<Value>> {
    Prepended(done, UnpackAll(vs, shm))
  }

  lemma UnpackOneMore(done: seq<Value>, vs: seq<Value>, i: nat, shm: Shm)
    requires i < |vs|
    ensures var one := Unpack(vs[i], shm);
            UnpackedItems(done, vs[i..], shm)
            == if one.result.Err? then Outcome(Err(one.result.error), one.shm)
               else UnpackedItems(done + [one.result.value], vs[i + 1..], one.shm)
  {
    assert vs[i..][1..] == vs[i + 1..];
    var one := Unpack(vs[i], shm);
    if one.result.Ok? {
      var rest := UnpackAll(vs[i + 1..], one.shm);
      if rest.result.Ok? {
        assert done + ([one.result.value] + rest.result.value) == done + [one.result.value] + rest.result.value;
      }
    }
  }

  lemma UnpackedNone(vs: seq<Value>, shm: Shm)
    ensures UnpackedItems([], vs[0..], shm) == UnpackAll(vs, shm)
  {
    assert vs[0..] == vs;
    var r := UnpackAll(vs, shm).result;
    if r.Ok? { assert [] + r.value == r.value; }
  }

  lemma PackNothing(names: Names, k: nat, shm: Shm)
    ensures PackFields([], names, k) == [] && FieldSegments([]) == [] && Created(shm, names, k, []) == shm
  {
  }

  lemma NonePacksToItself(names: Names, k: nat, shm: Shm)
    ensures Pack(AtomValue(NoneAtom), names, k) == AtomValue(NoneAtom) && Segments(AtomValue(NoneAtom)) == []
    ensures Created(shm, names, k, []) == shm
  {
  }

  lemma UnpackStep(fields: seq<Slot>, i: nat, shm: Shm)
    requires i < |fields|
    ensures var one := Unpack(fields[i].value, shm);
            UnpackFields(fields[i..], shm)
            == if one.result.Err? then Outcome(Err(one.result.error), one.shm)
               else Prepended([fields[i].(value := one.result.value)], UnpackFields(fields[i + 1..], one.shm))
  {
    assert fields[i..][1..] == fields[i + 1..];
  }

  /** The shared memory of the machine. */
  class SharedMemory {
    const names: Names
    var next: nat
    var segments: Shm

    constructor (names: Names, segments: Shm)
      ensures this.names == names && next == 0 && this.segments == segments
    {
      this.names := names;
      next := 0;
      this.segments := segments;
    }

    /** `_tensor_to_shm`. */
    method TensorToShm(t: Tensor) returns (handle: Value)
      modifies this
      ensures handle == Handle(t, names(old(next))) && next == old(next) + 1
      ensures segments == old(segments)[names(old(next)) := SegmentOf(t)]
    {
      var name := names(next);
      segments := segments[name := SegmentOf(t)];
      next := next + 1;
      handle := Handle(t, name);
    }

    /** `_tensor_from_shm`. */
    method TensorFromShm(handle: Value) returns (r: Result<Value, Error>)
      modifies this`segments
      ensures Outcome(r, segments) == FromShm(handle, old(segments))
    {
      var named := Get(handle, "name");
      if named.None? {
        return Err(KeyError);
      }
      match named.value {
        case AtomValue(StrAtom(name)) =>
          if name !in segments {
            return Err(FileNotFound);
          }
          r := Rebuilt(handle, segments[name]);
          segments := segments - {name};
        case _ =>
          r := Err(TypeError);
      }
    }

    /** `_pack_value_if_large`. */
    method PackValueIfLarge(v: Value) returns (p: Value)
      modifies this
      ensures p == Pack(v, names, old(next)) && next == old(next) + |Segments(v)|
      ensures segments == Created(old(segments), names, old(next), Segments(v))
      decreases v
    {
      match v {
        case TensorValue(t) =>
          if IsLarge(t) {
            p := TensorToShm(t);
          } else {
            p := v;
          }
        case AtomValue(_) =>
          p := v;
        case Node(kind, items) =>
          var packed: seq<Value> := [];
          assert items[0..] == items;
          for i := 0 to |items|
            invariant PackedItems([], items, names, old(next), old(segments))
                      == PackedItems(packed, items[i..], names, next, segments)
          {
            PackOneMore(packed, items, i, names, next, segments);
            var one := PackValueIfLarge(items[i]);
            packed := packed + [one];
          }
          assert items[|items|..] == [] && packed + [] == packed;
          assert [] + PackAll(items, names, old(next)) == PackAll(items, names, old(next));
          p := Node(kind, packed);
      }
    }

    /** `_unpack_if_shm_handle`. */
    method UnpackIfShmHandle(v: Value) returns (r: Result<Value, Error>)
      modifies this`segments
      ensures Outcome(r, segments) == Unpack(v, old(segments))
      decreases v
    {
      if !v.Node? {
        return Ok(v);
      }
      var mark := Mark(v);
      if mark == Ambiguous {
        return Err(AmbiguousTruth);
      }
      if mark == Yes {
        r := TensorFromShm(v);
        return;
      }
      var items, unpacked: seq<Value> := v.items, [];
      UnpackedNone(items, segments);
      for i := 0 to |items|
        invariant UnpackAll(items, old(segments)) == UnpackedItems(unpacked, items[i..], segments)
      {
        UnpackOneMore(unpacked, items, i, segments);
        var one := UnpackIfShmHandle(items[i]);
        if one.Err? {
          return Err(one.error);
        }
        unpacked := unpacked + [one.value];
      }
      assert items[|items|..] == [] && unpacked + [] == unpacked;
      r := Ok(Node(v.kind, unpacked));
    }

    /** `_pack_tensor_if_large` on a trajectory field. */
    method PackTrajectory(v: Value) returns (p: Value)
      modifies this
      ensures p == PackSlot(Slot(v, false), names, old(next)).value
      ensures next == old(next) + |SlotSegments(Slot(v, false))|
      ensures segments == Created(old(segments), names, old(next), SlotSegments(Slot(v, false)))
    {
      p := v;
      if v.TensorValue? {
        p := PackValueIfLarge(v);
      }
    }

    /** `_pack_diffusion_fields`, and `pack_diffusion_output_shm` on a bare output. */
    method PackDiffusionFields(o: DiffusionOutput)
      modifies this, o
      ensures o.Fields() == PackFields(old(o.Fields()), names, old(next))
      ensures next == old(next) + |FieldSegments(old(o.Fields()))|
      ensures segments == Created(old(segments), names, old(next), FieldSegments(old(o.Fields())))
    {
      hide Created, PackFields, FieldSegments, Segments, Pack;
      ghost var f := o.Fields();
      ghost var k0, shm0 := next, segments;
      var output := o.output;
      NonePacksToItself(names, next, segments);
      if output != AtomValue(NoneAtom) {
        output := PackValueIfLarge(o.output);
      }
      o.output := output;
      ghost var k1, shm1 := next, segments;
      var latents := PackTrajectory(o.trajectoryLatents);
      o.trajectoryLatents := latents;
      ghost var k2, shm2 := next, segments;
      var timesteps := PackTrajectory(o.trajectoryTimesteps);
      o.trajectoryTimesteps := timesteps;
      ghost var k3, shm3 := next, segments;
      var logProbs := PackTrajectory(o.trajectoryLogProbs);
      o.trajectoryLogProbs := logProbs;
      PackStep(f, 0, names, k0, shm0, k1, shm1, output);
      PackStep(f, 1, names, k1, shm1, k2, shm2, latents);
      PackStep(f, 2, names, k2, shm2, k3, shm3, timesteps);
      PackStep(f, 3, names, k3, shm3, next, segments, logProbs);
      PackNothing(names, next, segments);
      assert f[0..] == f && f[4..] == [];
    }

    /** `_unpack_diffusion_fields`, and `unpack_diffusion_output_shm` on a bare output. */
    method UnpackDiffusionFields(o: DiffusionOutput) returns (e: Option<Error>)
      modifies this`segments, o
      ensures var u := UnpackFields(old(o.Fields()), old(segments));
              && segments == u.shm
              && (e.None? ==> u.result == Ok(o.Fields()))
              && (e.Some? ==> u.result == Err(e.value))
    {
      ghost var f := o.Fields();
      assert f[0..] == f;
      UnpackStep(f, 0, segments);
      var r := UnpackIfShmHandle(o.output);
      if r.Err? { return Some(r.error); }
      o.output := r.value;
      UnpackStep(f, 1, segments);
      r := UnpackIfShmHandle(o.trajectoryLatents);
      if r.Err? { return Some(r.error); }
      o.trajectoryLatents := r.value;
      UnpackStep(f, 2, segments);
      r := UnpackIfShmHandle(o.trajectoryTimesteps);
      if r.Err? { return Some(r.error); }
      o.trajectoryTimesteps := r.value;
      UnpackStep(f, 3, segments);
      r := UnpackIfShmHandle(o.trajectoryLogProbs);
      if r.Err? { return Some(r.error); }
      o.trajectoryLogProbs := r.value;
      assert f[4..] == [];
      assert o.Fields() == [o.Fields()[0]] + ([o.Fields()[1]] + ([o.Fields()[2]] + ([o.Fields()[3]] + [])));
      e := None;
    }

    /** Packs the i-th of the objects a wrapper leads to. */
    method PackNext(o: DiffusionOutput, ghost refs: seq<DiffusionOutput>, ghost i: nat)
      requires i < |refs| && refs[i] == o
      modifies this, o
      ensures PackRefs(refs[i..], old(Packing(HeapOf(refs), next, segments)), names)
              == PackRefs(refs[i + 1..], Packing(HeapOf(refs), next, segments), names)
    {
      hide Created, PackFields, FieldSegments, PackRefs;
      ghost var before := HeapOf(refs);
      PackRefsStep(refs, i, Packing(before, next, segments), names);
      PackDiffusionFields(o);
      hide DiffusionOutput.Fields;
      assert HeapOf(refs) == before[o := o.Fields()];
    }

    /** The dict comprehension over `per_request_results`. */
    method PackResults(entries: seq<(string, DiffusionOutput)>, ghost refs: seq<DiffusionOutput>, ghost offset: nat)
      returns (packed: seq<(string, DiffusionOutput)>)
      requires offset + |entries| == |refs| && refs[offset..] == Results(entries)
      modifies this, refs
      ensures packed == entries
      ensures Packing(HeapOf(refs), next, segments)
              == PackRefs(refs[offset..], old(Packing(HeapOf(refs), next, segments)), names)
    {
      hide PackRefs, HeapOf, Results;
      packed := [];
      ghost var all := PackRefs(refs[offset..], Packing(HeapOf(refs), next, segments), names);
      for i := 0 to |entries|
        invariant packed == entries[..i]
        invariant all == PackRefs(refs[offset + i..], Packing(HeapOf(refs), next, segments), names)
      {
        ResultsAt(entries, i);
        assert refs[offset + i] == refs[offset..][i] && refs[offset + i] in refs;
        PackNext(entries[i].1, refs, offset + i);
        packed := packed + [entries[i]];
      }
      PackNone(refs, Packing(HeapOf(refs), next, segments), names);
    }

    /** `pack_diffusion_output_shm` on a wrapper. */
    method PackWrapper(w: Wrapper)
      modifies this, w, w.Refs()
      ensures w.result == old(w.result) && w.perRequestResults == old(w.perRequestResults)
      ensures Packing(HeapOf(w.Refs()), next, segments)
              == PackRefs(w.Refs(), Packing(old(HeapOf(w.Refs())), old(next), old(segments)), names)
    {
      hide PackRefs, HeapOf, Results;
      ghost var refs: seq<DiffusionOutput> := w.Refs();
      ghost var offset := 0;
      assert refs[0..] == refs;
      if w.result != null {
        assert refs[0] == w.result && refs[0] in refs;
        PackNext(w.result, refs, 0);
        offset := 1;
      }
      w.perRequestResults := PackResults(w.perRequestResults, refs, offset);
    }

    /** Unpacks the i-th of the objects a wrapper leads to. */
    method UnpackNext(o: DiffusionOutput, ghost refs: seq<DiffusionOutput>, ghost i: nat) returns (e: Option<Error>)
      requires i < |refs| && refs[i] == o
      modifies this`segments, o
      ensures UnpackRefs(refs[i..], old(HeapOf(refs)), old(segments))
              == if e.Some? then Outcome(Err(e.value), segments)
                 else UnpackRefs(refs[i + 1..], HeapOf(refs), segments)
    {
      hide UnpackFields;
      ghost var before := HeapOf(refs);
      UnpackRefsStep(refs, i, before, segments);
      e := UnpackDiffusionFields(o);
      assert e.None? ==> HeapOf(refs) == before[o := o.Fields()];
    }

    method UnpackResults(entries: seq<(string, DiffusionOutput)>, ghost refs: seq<DiffusionOutput>, ghost offset: nat)
      returns (e: Option<Error>, unpacked: seq<(string, DiffusionOutput)>)
      requires offset + |entries| == |refs| && refs[offset..] == Results(entries)
      modifies this`segments, refs
      ensures e.None? ==> unpacked == entries
      ensures Outcome(if e.None? then Ok(HeapOf(refs)) else Err(e.value), segments)
              == UnpackRefs(refs[offset..], old(HeapOf(refs)), old(segments))
    {
      hide UnpackRefs, HeapOf, Results;
      unpacked := [];
      ghost var all := UnpackRefs(refs[offset..], HeapOf(refs), segments);
      for i := 0 to |entries|
        invariant unpacked == entries[..i]
        invariant all == UnpackRefs(refs[offset + i..], HeapOf(refs), segments)
      {
        ResultsAt(entries, i);
        assert refs[offset + i] == refs[offset..][i] && refs[offset + i] in refs;
        e := UnpackNext(entries[i].1, refs, offset + i);
        if e.Some? { return; }
        unpacked := unpacked + [entries[i]];
      }
      UnpackNone(refs, HeapOf(refs), segments);
      e := None;
    }

    /** `unpack_diffusion_output_shm` on a wrapper. */
    method UnpackWrapper(w: Wrapper) returns (e: Option<Error>)
      modifies this`segments, w, w.Refs()
      ensures w.result == old(w.result) && w.perRequestResults == old(w.perRequestResults)
      ensures Outcome(if e.None? then Ok(HeapOf(w.Refs())) else Err(e.value), segments)
              == UnpackRefs(w.Refs(), old(HeapOf(w.Refs())), old(segments))
    {
      hide UnpackRefs, HeapOf, Results;
      ghost var refs: seq<DiffusionOutput> := w.Refs();
      ghost var offset := 0;
      assert refs[0..] == refs;
      if w.result != null {
        assert refs[0] == w.result && refs[0] in refs;
        e := UnpackNext(w.result, refs, 0);
        if e.Some? { return; }
        offset := 1;
      }
      var unpacked;
      e, unpacked := UnpackResults(w.perRequestResults, refs, offset);
      if e.None? {
        w.perRequestResults := unpacked;
      }
    }
  }
}
