/**
 The class of vllm_omni/core/prefix_cache.py, with its cache tensors written in place
 through their flat views.
 */
module OmniTensorPrefixCaching {
  import opened Common
  import opened PrefixCache

  /** What the class reads of vLLM's input batch. */
  datatype InputBatch = InputBatch(
    reqIds: seq<ReqId>,
    indexOf: map<ReqId, nat>,
    numComputed: seq<nat>,
    blockTable: seq<seq<nat>>)
  {
    ghost predicate Fits(queryStart: seq<nat>, scheduled: map<ReqId, nat>, blockSize: nat, size: nat) {
      forall r :: r in reqIds ==>
        && r in indexOf && r in scheduled
        && indexOf[r] < |numComputed| && indexOf[r] < |blockTable| && indexOf[r] < |queryStart|
        && BlocksFit(blockTable[indexOf[r]], blockSize, size)
    }
  }

  /** What `_get_merged_tensors` returns for one request. */
  function Merged(flat: seq<Row>, blockSize: nat, batch: InputBatch, hits: set<ReqId>, queryStart: seq<nat>,
                  rows: seq<Row>, scheduled: map<ReqId, nat>, r: ReqId): seq<Row>
    requires blockSize > 0 && batch.Fits(queryStart, scheduled, blockSize, |flat|) && r in batch.reqIds
  {
    var index := batch.indexOf[r];
    var computed := Slice(rows, queryStart[index], queryStart[index] + scheduled[r]);
    if r in hits
    then MergeHit(flat, blockSize, CachedBlockIds(batch.blockTable[index], batch.numComputed[index], blockSize),
                  computed)
    else computed
  }

  /** How many rows of a request come out of the cache. */
  function CachedRows(blockSize: nat, batch: InputBatch, hits: set<ReqId>, r: ReqId): nat
    requires blockSize > 0 && r in batch.indexOf && batch.indexOf[r] < |batch.numComputed|
  {
    if r in hits then batch.numComputed[batch.indexOf[r]] / blockSize * blockSize else 0
  }

  /** Row i of what a list of blocks holds. */
  ghost predicate RowIs(row: Row, flat: seq<Row>, blocks: seq<nat>, blockSize: nat, i: nat)
    requires blockSize > 0
  {
    && i / blockSize < |blocks| && blocks[i / blockSize] * blockSize + i % blockSize < |flat|
    && row == flat[blocks[i / blockSize] * blockSize + i % blockSize]
  }

  lemma CachedRowsAre(flat: seq<Row>, blockSize: nat, blocks: seq<nat>, full: nat)
    requires blockSize > 0 && full <= |blocks| && BlocksFit(blocks[..full], blockSize, |flat|)
    ensures var cached := ReadBlocks(flat, blockSize, blocks[..full]);
            && |cached| == full * blockSize
            && forall i :: 0 <= i < |cached| ==> RowIs(cached[i], flat, blocks, blockSize, i)
  {
    ReadBlocksLength(flat, blockSize, blocks[..full]);
    var cached := ReadBlocks(flat, blockSize, blocks[..full]);
    forall i | 0 <= i < |cached| ensures RowIs(cached[i], flat, blocks, blockSize, i) {
      DivBelow(i, full, blockSize);
      ReadBlocksAt(flat, blockSize, blocks[..full], i);
    }
  }

  lemma SliceAt<T>(s: seq<T>, start: nat, length: nat)
    requires start + length <= |s|
    ensures |Slice(s, start, start + length)| == length
    ensures Slice(s, start, start + length) == s[start..start + length]
  {
  }

  /** Which rows a request gets back: row by row those of its full cached blocks if it hit the
      cache, and then, in order, its own rows of this step and no others. */
  lemma MergedRows(flat: seq<Row>, blockSize: nat, batch: InputBatch, hits: set<ReqId>, queryStart: seq<nat>,
                   rows: seq<Row>, scheduled: map<ReqId, nat>, r: ReqId)
    requires blockSize > 0 && batch.Fits(queryStart, scheduled, blockSize, |flat|) && r in batch.reqIds
    requires queryStart[batch.indexOf[r]] + scheduled[r] <= |rows|
    requires batch.numComputed[batch.indexOf[r]] / blockSize <= |batch.blockTable[batch.indexOf[r]]|
    ensures var index, cached := batch.indexOf[r], CachedRows(blockSize, batch, hits, r);
            var merged := Merged(flat, blockSize, batch, hits, queryStart, rows, scheduled, r);
            && |merged| == cached + scheduled[r]
            && (forall i :: 0 <= i < cached ==> RowIs(merged[i], flat, batch.blockTable[index], blockSize, i))
            && (forall i :: cached <= i < |merged| ==> merged[i] == rows[queryStart[index] + (i - cached)])
  {
    var index := batch.indexOf[r];
    SliceAt(rows, queryStart[index], scheduled[r]);
    hide RowIs;
    if r in hits {
      var full := batch.numComputed[index] / blockSize;
      CachedBlocksAre(batch.blockTable[index], batch.numComputed[index], blockSize);
      CachedRowsAre(flat, blockSize, batch.blockTable[index], full);
    }
  }

  /** The rows delivered now are the uncached rows of the tokens scheduled now. */
  ghost predicate DeliversNow(forward: seq<Token> -> Row, batch: InputBatch, queryStart: seq<nat>, rows: seq<Row>,
                              scheduled: map<ReqId, nat>, r: ReqId, tokens: seq<Token>)
    requires r in batch.indexOf && batch.indexOf[r] < |batch.numComputed| && batch.indexOf[r] < |queryStart|
    requires r in scheduled
  {
    var index := batch.indexOf[r];
    var from, start := batch.numComputed[index], queryStart[index];
    && from + scheduled[r] <= |tokens| && start + scheduled[r] <= |rows|
    && forall j :: start <= j < start + scheduled[r] ==> rows[j] == forward(tokens[..from + (j - start) + 1])
  }

  /** The full blocks of a hit hold the rows of the request's own prefixes. */
  ghost predicate BlocksOwned(owners: Owners, blockSize: nat, batch: InputBatch, r: ReqId, tokens: seq<Token>)
    requires blockSize > 0
    requires r in batch.indexOf && batch.indexOf[r] < |batch.numComputed| && batch.indexOf[r] < |batch.blockTable|
  {
    var index := batch.indexOf[r];
    var full := batch.numComputed[index] / blockSize;
    && full <= |batch.blockTable[index]| && full * blockSize <= |tokens|
    && HitOwned(owners, blockSize, batch.blockTable[index][..full], tokens)
  }

  /** What the caller brings for one cache tensor: the rows of now, and for a hit its blocks. */
  ghost predicate Ready(forward: seq<Token> -> Row, owners: Owners, blockSize: nat, batch: InputBatch,
                        hits: set<ReqId>, queryStart: seq<nat>, rows: seq<Row>, scheduled: map<ReqId, nat>, r: ReqId,
                        tokens: seq<Token>)
    requires blockSize > 0 && r in batch.indexOf && r in scheduled
    requires var i := batch.indexOf[r]; i < |batch.numComputed| && i < |batch.blockTable| && i < |queryStart|
  {
    && DeliversNow(forward, batch, queryStart, rows, scheduled, r, tokens)
    && (r in hits ==> BlocksOwned(owners, blockSize, batch, r, tokens))
  }

  /** What is returned for a request is what an uncached forward gives: for a hit from the
      first token on, exactly if its computed tokens fill whole blocks; for any other the
      tokens scheduled now, wherever it continues. */
  ghost predicate ReadsUncached(forward: seq<Token> -> Row, flat: seq<Row>, blockSize: nat, batch: InputBatch,
                                hits: set<ReqId>, queryStart: seq<nat>, rows: seq<Row>, scheduled: map<ReqId, nat>,
                                r: ReqId, tokens: seq<Token>)
    requires blockSize > 0 && batch.Fits(queryStart, scheduled, blockSize, |flat|) && r in batch.reqIds
    requires DeliversNow(forward, batch, queryStart, rows, scheduled, r, tokens)
  {
    var from := batch.numComputed[batch.indexOf[r]];
    var merged := Merged(flat, blockSize, batch, hits, queryStart, rows, scheduled, r);
    if r in hits then from % blockSize == 0 <==> merged == Uncached(forward, tokens, 0, from + scheduled[r])
    else merged == Uncached(forward, tokens, from, from + scheduled[r])
  }

  lemma DeliveredSlice(forward: seq<Token> -> Row, batch: InputBatch, queryStart: seq<nat>, rows: seq<Row>,
                       scheduled: map<ReqId, nat>, r: ReqId, tokens: seq<Token>)
    requires r in batch.indexOf && batch.indexOf[r] < |batch.numComputed| && batch.indexOf[r] < |queryStart|
    requires r in scheduled && DeliversNow(forward, batch, queryStart, rows, scheduled, r, tokens)
    ensures var index := batch.indexOf[r];
            var from, start := batch.numComputed[index], queryStart[index];
            Slice(rows, start, start + scheduled[r]) == Uncached(forward, tokens, from, from + scheduled[r])
  {
    SliceAt(rows, queryStart[batch.indexOf[r]], scheduled[r]);
  }

  lemma CachedBlocksAre(blockTable: seq<nat>, numComputed: nat, blockSize: nat)
    requires blockSize > 0 && numComputed / blockSize <= |blockTable|
    ensures CachedBlockIds(blockTable, numComputed, blockSize) == blockTable[..numComputed / blockSize]
  {
  }

  /** Every request of a batch gets the rows an uncached forward would give it. */
  lemma BatchEqualsUncached(forward: seq<Token> -> Row, flat: seq<Row>, owners: Owners, blockSize: nat,
                            batch: InputBatch, hits: set<ReqId>, queryStart: seq<nat>, rows: seq<Row>,
                            scheduled: map<ReqId, nat>, r: ReqId, tokens: seq<Token>)
    requires blockSize > 0 && batch.Fits(queryStart, scheduled, blockSize, |flat|) && r in batch.reqIds
    requires Faithful(forward, flat, owners)
    requires Ready(forward, owners, blockSize, batch, hits, queryStart, rows, scheduled, r, tokens)
    ensures ReadsUncached(forward, flat, blockSize, batch, hits, queryStart, rows, scheduled, r, tokens)
  {
    var index := batch.indexOf[r];
    DeliveredSlice(forward, batch, queryStart, rows, scheduled, r, tokens);
    hide Slice, Uncached, DeliversNow, SlotOf, Faithful;
    if r in hits {
      var blockIds := batch.blockTable[index][..batch.numComputed[index] / blockSize];
      CachedBlocksAre(batch.blockTable[index], batch.numComputed[index], blockSize);
      MergeEqualsUncached(forward, flat, owners, blockSize, blockIds, tokens, batch.numComputed[index], scheduled[r]);
    }
  }

  /** The caches the class starts with. */
  function Empty(size: nat, hiddenSize: nat): (c: Caches)
    ensures Sized(c, size)
  {
    Caches(Zeros(size, hiddenSize), map[])
  }

  const NO_HISTORY := History(map[], map[])

  /** The same for a cache that only ever took in what the model computed, from the first
      update on: for the hidden states, and for every multimodal key it has a tensor for. */
  lemma RunEqualsUncached(hiddenModel: seq<Token> -> Row, mmModel: Key -> seq<Token> -> Row, size: nat,
                          hiddenSize: nat, steps: seq<StepOutputs>, prefixes: seq<seq<seq<Token>>>, blockSize: nat,
                          batch: InputBatch, hits: set<ReqId>, queryStart: seq<nat>, rows: seq<Row>,
                          mmRows: map<Key, seq<Row>>, scheduled: map<ReqId, nat>, r: ReqId, tokens: seq<Token>)
    requires RunShaped(Empty(size, hiddenSize), size, steps) && |steps| == |prefixes|
    requires forall i :: 0 <= i < |steps| ==> Computes(hiddenModel, mmModel, steps[i], prefixes[i])
    requires forall i :: 0 <= i < |steps| ==>
               steps[i].numUnpadded <= |steps[i].slots| && |prefixes[i]| == steps[i].numUnpadded
    requires blockSize > 0 && batch.Fits(queryStart, scheduled, blockSize, size) && r in batch.reqIds
    ensures var c, h := UpdateAll(Empty(size, hiddenSize), size, steps), RecordAll(NO_HISTORY, steps, prefixes);
            && Sized(c, size) && c.mm.Keys == h.mm.Keys
            && (Ready(hiddenModel, h.hidden, blockSize, batch, hits, queryStart, rows, scheduled, r, tokens) ==>
                  ReadsUncached(hiddenModel, c.hidden, blockSize, batch, hits, queryStart, rows, scheduled, r, tokens))
            && forall k | k in c.mm && k in mmRows ::
                 Ready(mmModel(k), h.mm[k], blockSize, batch, hits, queryStart, mmRows[k], scheduled, r, tokens) ==>
                   ReadsUncached(mmModel(k), c.mm[k], blockSize, batch, hits, queryStart, mmRows[k], scheduled, r,
                                 tokens)
  {
    var c, h := UpdateAll(Empty(size, hiddenSize), size, steps), RecordAll(NO_HISTORY, steps, prefixes);
    RunKeepsFaithful(hiddenModel, mmModel, Empty(size, hiddenSize), NO_HISTORY, size, steps, prefixes);
    hide UpdateAll, RecordAll, RunShaped, Computes, Faithful, ReadsUncached, DeliversNow, BlocksOwned;
    if Ready(hiddenModel, h.hidden, blockSize, batch, hits, queryStart, rows, scheduled, r, tokens) {
      BatchEqualsUncached(hiddenModel, c.hidden, h.hidden, blockSize, batch, hits, queryStart, rows, scheduled, r,
                          tokens);
    }
    forall k | k in c.mm && k in mmRows
               && Ready(mmModel(k), h.mm[k], blockSize, batch, hits, queryStart, mmRows[k], scheduled, r, tokens)
      ensures ReadsUncached(mmModel(k), c.mm[k], blockSize, batch, hits, queryStart, mmRows[k], scheduled, r, tokens)
    {
      BatchEqualsUncached(mmModel(k), c.mm[k], h.mm[k], blockSize, batch, hits, queryStart, mmRows[k], scheduled, r,
                          tokens);
    }
  }

  class OmniTensorPrefixCache {
    const numBlocks: nat
    const blockSize: nat
    const hiddenStatesCache: array<Row>
    var mmOutputsCache: map<Key, array<Row>>
    var mmCacheKeys: set<Key>
    var newReqCacheHitIds: set<ReqId>

    ghost predicate Valid()
      reads this
    {
      && hiddenStatesCache.Length == numBlocks * blockSize
      && mmCacheKeys == mmOutputsCache.Keys
      && (forall k :: k in mmOutputsCache ==>
            mmOutputsCache[k].Length == numBlocks * blockSize && mmOutputsCache[k] != hiddenStatesCache)
      && (forall k, l :: k in mmOutputsCache && l in mmOutputsCache && k != l ==>
          mmOutputsCache[k] != mmOutputsCache[l])
    }

    ghost function MmContents(): map<Key, seq<Row>>
      reads this, mmOutputsCache.Values
    {
      map k | k in mmOutputsCache :: mmOutputsCache[k][..]
    }

    ghost function Contents(): Caches
      reads this, hiddenStatesCache, mmOutputsCache.Values
    {
      Caches(hiddenStatesCache[..], MmContents())
    }

    constructor (numBlocks: nat, blockSize: nat, hiddenSize: nat)
      ensures Valid() && fresh(hiddenStatesCache) && this.numBlocks == numBlocks && this.blockSize == blockSize
      ensures Contents() == Empty(numBlocks * blockSize, hiddenSize) && newReqCacheHitIds == {}
    {
      this.numBlocks, this.blockSize := numBlocks, blockSize;
      hiddenStatesCache := new Row[numBlocks * blockSize](_ => ZeroRow(hiddenSize));
      mmOutputsCache, mmCacheKeys, newReqCacheHitIds := map[], {}, {};
    }

    method AddPrefixCachedNewReqId(r: ReqId)
      modifies this`newReqCacheHitIds
      ensures newReqCacheHitIds == old(newReqCacheHitIds) + {r}
    {
      newReqCacheHitIds := newReqCacheHitIds + {r};
    }

    method ResetPrefixCachedNewReqIds()
      modifies this`newReqCacheHitIds
      ensures newReqCacheHitIds == {}
    {
      newReqCacheHitIds := {};
    }

    method MaybeInitMissingMmCacheKeys(outputs: map<Key, MmOutput>, seqLen: nat)
      requires Valid()
      modifies this`mmOutputsCache, this`mmCacheKeys
      ensures Valid()
      ensures MmContents() == InitKeys(old(MmContents()), outputs, seqLen, numBlocks * blockSize)
      ensures forall k :: k in mmOutputsCache && k !in old(mmOutputsCache) ==> fresh(mmOutputsCache[k])
      ensures forall k :: k in old(mmOutputsCache) ==>
                k in mmOutputsCache && mmOutputsCache[k] == old(mmOutputsCache)[k]
    {
      hide InitSome, Zeros;
      ghost var before, size := MmContents(), numBlocks * blockSize;
      var todo := outputs.Keys;
      InitNone(before, outputs, seqLen, size);
      assert outputs.Keys - todo == {};
      while todo != {}
        invariant Valid() && todo <= outputs.Keys
        invariant forall k :: k in mmOutputsCache && k !in old(mmOutputsCache) ==> fresh(mmOutputsCache[k])
        invariant forall k :: k in old(mmOutputsCache) ==>
                    k in mmOutputsCache && mmOutputsCache[k] == old(mmOutputsCache)[k]
        invariant MmContents() == InitSome(before, outputs, seqLen, size, outputs.Keys - todo)
        decreases |todo|
      {
        var key :| key in todo;
        ghost var seen := outputs.Keys - todo;
        todo := todo - {key};
        assert outputs.Keys - todo == seen + {key};
        InitOneMore(before, outputs, seqLen, size, seen, key);
        assert MmContents().Keys == mmOutputsCache.Keys;
        if outputs[key].Tensor? && |outputs[key].rows| == seqLen && key !in mmCacheKeys {
          InitKey(key, outputs[key].width);
        }
      }
      assert outputs.Keys - todo == outputs.Keys;
    }

    method InitKey(key: Key, width: nat)
      requires Valid() && key !in mmCacheKeys
      modifies this`mmOutputsCache, this`mmCacheKeys
      ensures Valid()
      ensures MmContents() == old(MmContents())[key := Zeros(numBlocks * blockSize, width)]
      ensures mmOutputsCache.Keys == old(mmOutputsCache).Keys + {key} && fresh(mmOutputsCache[key])
      ensures forall k :: k in old(mmOutputsCache) ==> mmOutputsCache[k] == old(mmOutputsCache)[k]
    {
      var cache := new Row[numBlocks * blockSize](_ => ZeroRow(width));
      assert cache[..] == Zeros(numBlocks * blockSize, width);
      mmOutputsCache := mmOutputsCache[key := cache];
      mmCacheKeys := mmCacheKeys + {key};
    }

    /** `flat_cache[slots] = rows` */
    static method WriteSlots(flat: array<Row>, slots: seq<nat>, rows: seq<Row>)
      requires |slots| == |rows| && SlotsFit(slots, flat.Length)
      modifies flat
      ensures flat[..] == WriteRows(old(flat[..]), slots, rows)
    {
      ghost var before := flat[..];
      for i := 0 to |slots|
        invariant flat[..] == WriteRows(before, slots[..i], rows[..i])
      {
        WriteOneMore(before, slots, rows, i);
        flat[slots[i]] := rows[i];
      }
      assert slots[..|slots|] == slots && rows[..|rows|] == rows;
    }

    method UpdateMmOutputs(outputs: map<Key, MmOutput>, slots: seq<nat>)
      requires Valid() && MmSized(MmContents(), numBlocks * blockSize)
      requires RowsFit(mmOutputsCache.Keys, outputs, |slots|) && SlotsFit(slots, numBlocks * blockSize)
      modifies mmOutputsCache.Values
      ensures MmContents() == WriteKeys(old(MmContents()), numBlocks * blockSize, outputs, slots)
    {
      ghost var before, size := MmContents(), numBlocks * blockSize;
      var todo := mmOutputsCache.Keys;
      WriteNoKey(before, size, outputs, slots);
      assert before.Keys == mmOutputsCache.Keys;
      assert RowsFit(before.Keys, outputs, |slots|);
      hide WriteSome, WriteRows, RowsFit, SlotsFit, MmSized, WriteKeys;
      assert before.Keys - todo == {};
      while todo != {}
        invariant todo <= mmOutputsCache.Keys
        invariant MmContents() == WriteSome(before, size, outputs, slots, before.Keys - todo)
        decreases |todo|
      {
        var key :| key in todo;
        ghost var seen := before.Keys - todo;
        todo := todo - {key};
        TakeUp(key, outputs, slots, before, seen);
        assert before.Keys - todo == seen + {key};
      }
      assert before.Keys - todo == before.Keys;
    }

    method TakeUp(key: Key, outputs: map<Key, MmOutput>, slots: seq<nat>, ghost before: map<Key, seq<Row>>,
                  ghost seen: set<Key>)
      requires Valid() && key in mmOutputsCache && key !in seen && before.Keys == mmOutputsCache.Keys
      requires RowsFit(before.Keys, outputs, |slots|) && MmSized(before, numBlocks * blockSize)
      requires SlotsFit(slots, numBlocks * blockSize)
      requires MmContents() == WriteSome(before, numBlocks * blockSize, outputs, slots, seen)
      modifies mmOutputsCache.Values
      ensures MmContents() == WriteSome(before, numBlocks * blockSize, outputs, slots, seen + {key})
    {
      hide WriteRows;
      ghost var size := numBlocks * blockSize;
      if key in outputs {
        UnseenKeyIsUnwritten(before, size, outputs, slots, seen, key);
        WriteOneMoreKey(before, size, outputs, slots, seen, key);
        hide WriteSome;
        WriteKey(key, slots, outputs[key].rows[..|slots|]);
      } else {
        SkipOneMoreKey(before, size, outputs, slots, seen, key);
      }
    }

    method WriteKey(key: Key, slots: seq<nat>, rows: seq<Row>)
      requires Valid() && key in mmOutputsCache && |slots| == |rows| && SlotsFit(slots, numBlocks * blockSize)
      modifies mmOutputsCache[key]
      ensures MmContents() == old(MmContents())[key := WriteRows(old(MmContents())[key], slots, rows)]
    {
      ghost var before := MmContents();
      WriteSlots(mmOutputsCache[key], slots, rows);
      forall k | k in mmOutputsCache && k != key ensures mmOutputsCache[k][..] == before[k] {}
    }

    method UpdateOmniTensorPrefixCache(st: StepOutputs)
      requires Valid() && Sized(Contents(), numBlocks * blockSize)
      requires Shaped(Contents().mm.Keys, numBlocks * blockSize, st)
      modifies this`mmOutputsCache, this`mmCacheKeys, hiddenStatesCache, mmOutputsCache.Values
      ensures Valid()
      ensures Contents() == Update(old(Contents()), numBlocks * blockSize, st)
    {
      hide WriteRows, WriteKeys, InitKeys;
      var slots := st.slots[..st.numUnpadded];
      if st.hidden.Some? {
        WriteSlots(hiddenStatesCache, slots, st.hidden.value[..st.numUnpadded]);
      }
      assert MmContents() == old(MmContents());
      if st.mm.Some? {
        InitKeysFit(MmContents(), st.mm.value, st.numPadded, numBlocks * blockSize, |slots|);
        MaybeInitMissingMmCacheKeys(st.mm.value, st.numPadded);
        assert MmContents().Keys == mmOutputsCache.Keys;
        UpdateMmOutputs(st.mm.value, slots);
      }
    }

    method GetMergedTensors(cache: array<Row>, batch: InputBatch, queryStart: seq<nat>, rows: seq<Row>,
                            scheduled: map<ReqId, nat>) returns (merged: map<ReqId, seq<Row>>)
      requires blockSize > 0 && cache.Length == numBlocks * blockSize
      requires batch.Fits(queryStart, scheduled, blockSize, cache.Length)
      ensures forall r :: r in merged <==> r in batch.reqIds
      ensures forall r :: r in batch.reqIds ==>
        merged[r] == Merged(cache[..], blockSize, batch, newReqCacheHitIds, queryStart, rows, scheduled, r)
    {
      merged := map[];
      for i := 0 to |batch.reqIds|
        invariant forall r :: r in merged <==> r in batch.reqIds[..i]
        invariant forall r :: r in batch.reqIds[..i] ==>
          merged[r] == Merged(cache[..], blockSize, batch, newReqCacheHitIds, queryStart, rows, scheduled, r)
      {
        var r := batch.reqIds[i];
        var index := batch.indexOf[r];
        var start := queryStart[index];
        var computed := Slice(rows, start, start + scheduled[r]);
        if r in newReqCacheHitIds {
          var blockIds := CachedBlockIds(batch.blockTable[index], batch.numComputed[index], blockSize);
          var cached := GatherBlocks(cache, blockIds);
          merged := merged[r := cached + computed];
        } else {
          merged := merged[r := computed];
        }
        assert batch.reqIds[..i + 1] == batch.reqIds[..i] + [r];
      }
      assert batch.reqIds[..|batch.reqIds|] == batch.reqIds;
    }

    method GatherBlocks(cache: array<Row>, blockIds: seq<nat>) returns (rows: seq<Row>)
      requires BlocksFit(blockIds, blockSize, cache.Length)
      ensures rows == ReadBlocks(cache[..], blockSize, blockIds)
    {
      rows := [];
      for i := 0 to |blockIds|
        invariant rows == ReadBlocks(cache[..], blockSize, blockIds[..i])
      {
        MulSuccessor(blockIds[i], blockSize);
        rows := rows + cache[blockIds[i] * blockSize..blockIds[i] * blockSize + blockSize];
        assert blockIds[..i + 1][..i] == blockIds[..i];
      }
      assert blockIds[..|blockIds|] == blockIds;
    }
  }
}
