/**
 vllm_omni/engine/output_processor.py: the request state whose methods add, consolidate
 and emit in place.
 */
module OutputProcessing {
  import opened Common
  import opened OrderedDict
  import opened DataEntryKeys
  import opened PayloadTransport
  import opened OutputAccumulation

  /** Python's dict.pop with a default. */
  function Popped(d: Slots, k: string): Slots {
    if d == [] then [] else (if d[0].0 == k then [] else [d[0]]) + Popped(d[1..], k)
  }

  lemma {:induction false} PoppedTwice(d: Slots)
    ensures Popped(Popped(d, "image"), "audio") == Drained(d)
    decreases |d|
  {
    if d != [] {
      PoppedTwice(d[1..]);
      var rest := Popped(d[1..], "image");
      if d[0].0 == "image" {
        assert Popped(d, "image") == rest;
      } else {
        assert Popped(d, "image")[1..] == rest;
      }
    }
  }

  lemma FiledItemsSplit(items: Slots, target: string, i: nat)
    requires i < |items|
    ensures FiledItems(items[i..], target)
              == [(Filed(items[i].0, target), items[i].1)] + FiledItems(items[i + 1..], target)
  {
    assert items[i..][1..] == items[i + 1..];
  }

  class OmniRequestState {
    const outputKind: OutputKind
    const streamInterval: nat
    var mmAccumulated: Slots
    var outputTokenIds: seq<int>
    var sentTokensOffset: nat

    constructor (outputKind: OutputKind, streamInterval: nat)
      ensures State() == Fresh(outputKind, streamInterval) && State().Valid()
    {
      this.outputKind := outputKind;
      this.streamInterval := streamInterval;
      mmAccumulated := [];
      outputTokenIds := [];
      sentTokensOffset := 0;
    }

    ghost function State(): Request
      reads this
    {
      Request(outputKind, streamInterval, mmAccumulated, outputTokenIds, sentTokensOffset)
    }

    /** The incoming dict of one payload. */
    method BuildIncoming(a: Arrival, mmType: string) returns (incoming: Slots)
      ensures incoming == Incoming(a, mmType)
    {
      var targetKey := TargetKey(mmType);
      match a {
        case Nothing =>
          incoming := [];
        case Bare(v) =>
          incoming := [(targetKey, v)];
        case Named(items) =>
          incoming := [];
          assert items[0..] == items;
          for i := 0 to |items|
            invariant Incoming(a, mmType) == PutAll(incoming, FiledItems(items[i..], targetKey))
          {
            var (k, v) := items[i];
            FiledItemsSplit(items, targetKey, i);
            if k == "model_outputs" {
              k := targetKey;
            } else if k == "hidden" && targetKey != "hidden" {
              k := targetKey;
            }
            PutNext(incoming, FiledItems(items[i..], targetKey), (k, v), FiledItems(items[i + 1..], targetKey));
            incoming := Put(incoming, k, v);
          }
          assert items[|items|..] == [];
      }
    }

    /** `add_multimodal_tensor`. */
    method AddMultimodalTensor(a: Arrival, mmType: string)
      requires State().Valid()
      modifies this`mmAccumulated
      ensures State() == old(State()).Arrive(a, mmType) && State().Valid()
    {
      if a.Nothing? {
        return;
      }
      AddUnique(mmAccumulated, a, mmType);
      var incoming := BuildIncoming(a, mmType);
      if mmAccumulated == [] {
        mmAccumulated := incoming;
        return;
      }
      assert incoming[0..] == incoming;
      for i := 0 to |incoming|
        invariant MergeAll(old(mmAccumulated), incoming) == MergeAll(mmAccumulated, incoming[i..])
      {
        var (k, v) := incoming[i];
        assert incoming[i..][1..] == incoming[i + 1..];
        var existing: Option<SlotValue> := Get(mmAccumulated, k);
        if existing.None? {
          mmAccumulated := Put(mmAccumulated, k, v);
        } else {
          var merged := MergeValue(existing.value, v);
          mmAccumulated := Put(mmAccumulated, k, merged);
        }
      }
      assert incoming[|incoming|..] == [];
    }

    /** One key that was there already. */
    method MergeValue(existing: SlotValue, v: SlotValue) returns (merged: SlotValue)
      ensures merged == Merge(existing, v)
    {
      if v.Leaf? && v.leaf.One? && existing.Leaf? && existing.leaf.One? {
        merged := Leaf(Many([existing.leaf.chunk, v.leaf.chunk]));
      } else if v.Leaf? && v.leaf.One? && existing.Leaf? && existing.leaf.Many? {
        merged := Leaf(Many(existing.leaf.chunks + [v.leaf.chunk]));
      } else if v.Dict? && existing.Dict? {
        var sub := existing.entries;
        assert v.entries[0..] == v.entries;
        for i := 0 to |v.entries|
          invariant MergeSub(existing.entries, v.entries) == MergeSub(sub, v.entries[i..])
        {
          var (sk, sv) := v.entries[i];
          assert v.entries[i..][1..] == v.entries[i + 1..];
          var had: Option<SlotValue> := Get(sub, sk);
          if had.Some? && had.value.Leaf? && sv.Leaf? {
            sub := Put(sub, sk, Leaf(Joined(had.value.leaf, sv.leaf)));
          } else {
            sub := Put(sub, sk, sv);
          }
        }
        assert v.entries[|v.entries|..] == [];
        merged := Dict(sub);
      } else {
        merged := v;
      }
    }

    /** `_consolidate_multimodal_tensors`. */
    method ConsolidateMultimodalTensors()
      requires State().Valid()
      modifies this`mmAccumulated
      ensures mmAccumulated == Consolidated(old(mmAccumulated), outputKind.Delta?) && State().Valid()
    {
      ConsolidatedUnique(mmAccumulated, outputKind.Delta?);
      ghost var was := mmAccumulated;
      if mmAccumulated == [] {
        return;
      }
      var skipModality := outputKind.Delta?;
      for i := 0 to |mmAccumulated|
        invariant |mmAccumulated| == |was| && mmAccumulated[i..] == was[i..]
        invariant forall j :: 0 <= j < i ==> mmAccumulated[j] == ConsolidatedItems(was, skipModality)[j]
      {
        var (k, v) := mmAccumulated[i];
        assert was[i] == was[i..][0] == mmAccumulated[i..][0];
        ConsolidatedItemsKeys(was, skipModality, i);
        if skipModality && Drainable(k) {
          continue;
        }
        if v.Leaf? && v.leaf.Many? && v.leaf.chunks != [] {
          var one := if k == "sr" then v.leaf.chunks[|v.leaf.chunks| - 1] else Concatenated(v.leaf.chunks);
          mmAccumulated := mmAccumulated[i := (k, Leaf(One(one)))];
        } else if v.Dict? {
          mmAccumulated := mmAccumulated[i := (k, Dict(ConsolidatedSub(v.entries)))];
        }
      }
      assert mmAccumulated == ConsolidatedItems(was, skipModality);
      var nested := UnflattenPayload(mmAccumulated);
      if nested.Ok? {
        mmAccumulated := nested.value;
      }
    }

    /** `make_request_output` for a request with a detokenizer and no parent. */
    method MakeRequestOutput(newTokenIds: seq<int>, finished: bool) returns (out: Option<Output>)
      requires State().Valid()
      modifies this`mmAccumulated, this`sentTokensOffset
      ensures out == old(State()).Emission(newTokenIds, finished)
      ensures State() == old(State()).AfterMake(finished) && State().Valid()
    {
      NextIsValid(State(), Making(newTokenIds, finished));
      var isFinalOnly, isDelta := outputKind.FinalOnly?, outputKind.Delta?;
      if !finished && isFinalOnly {
        return None;
      }
      if finished || !isDelta {
        ConsolidateMultimodalTensors();
      }
      var tokens := newTokenIds;
      if streamInterval > 1 {
        if !(finished || sentTokensOffset == 0 || |outputTokenIds| - sentTokensOffset >= streamInterval) {
          return None;
        }
        if isDelta {
          tokens := outputTokenIds[sentTokensOffset..];
          sentTokensOffset := |outputTokenIds|;
        }
      }
      var output := NewCompletionOutput(tokens, finished);
      out := Some(output);
    }

    /** `_new_completion_output`: in DELTA mode what was shown is drained. */
    method NewCompletionOutput(tokens: seq<int>, finished: bool) returns (output: Output)
      modifies this`mmAccumulated
      ensures output == Output(tokens, outputTokenIds, old(mmAccumulated), finished)
      ensures mmAccumulated == if outputKind.Delta? then Drained(old(mmAccumulated)) else old(mmAccumulated)
    {
      output := Output(tokens, outputTokenIds, mmAccumulated, finished);
      if outputKind.Delta? {
        PoppedTwice(mmAccumulated);
        mmAccumulated := Popped(mmAccumulated, "image");
        mmAccumulated := Popped(mmAccumulated, "audio");
      }
    }
  }
}
