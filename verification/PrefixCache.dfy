/**
 vllm_omni/core/prefix_cache.py: a cache of per-token rows addressed by the slots of the
 KV cache, read back block by block.  A cache tensor of shape (blocks, block size,
 features) is its flat view, one row per slot.
 */
module PrefixCache {
  import opened Common

  type Row = seq<int>
  type Token = int
  type ReqId = string
  type Key = string

  function ZeroRow(width: nat): Row {
    seq(width, _ => 0)
  }

  /** A multimodal output; only tensors have a first dimension to compare. */
  datatype MmOutput = Tensor(rows: seq<Row>, width: nat) | Other

  /** Python's `s[start:stop]` for non-negative bounds. */
  function Slice<T>(s: seq<T>, start: nat, stop: nat): seq<T> {
    if start >= |s| || stop <= start then [] else if stop <= |s| then s[start..stop] else s[start..]
  }

  // ---- Writing through the flat view ----

  ghost predicate SlotsFit(slots: seq<nat>, size: nat) {
    forall i :: 0 <= i < |slots| ==> slots[i] < size
  }

  /** `flat[slots] = rows`; of two writes to one slot the later one stays. */
  function WriteRows<T>(flat: seq<T>, slots: seq<nat>, rows: seq<T>): (r: seq<T>)
    requires |slots| == |rows| && SlotsFit(slots, |flat|)
    ensures |r| == |flat|
    decreases |slots|
  {
    if slots == [] then flat else WriteRows(flat[slots[0] := rows[0]], slots[1..], rows[1..])
  }

  lemma {:induction false} WriteOneMore<T>(flat: seq<T>, slots: seq<nat>, rows: seq<T>, n: nat)
    requires |slots| == |rows| && n < |slots| && SlotsFit(slots, |flat|)
    ensures WriteRows(flat, slots[..n + 1], rows[..n + 1])
              == WriteRows(flat, slots[..n], rows[..n])[slots[n] := rows[n]]
    decreases n
  {
    if n > 0 {
      assert slots[..n + 1][1..] == slots[1..][..n] && rows[..n + 1][1..] == rows[1..][..n];
      assert slots[..n][1..] == slots[1..][..n - 1] && rows[..n][1..] == rows[1..][..n - 1];
      WriteOneMore(flat[slots[0] := rows[0]], slots[1..], rows[1..], n - 1);
    } else {
      assert slots[..1][1..] == [] && rows[..1][1..] == [];
      assert slots[..0] == [] && rows[..0] == [];
      assert WriteRows(flat, slots[..1], rows[..1]) == WriteRows(flat[slots[0] := rows[0]], [], []);
    }
  }

  lemma {:induction false} WriteLeavesOthers<T>(flat: seq<T>, slots: seq<nat>, rows: seq<T>, s: nat)
    requires |slots| == |rows| && s < |flat| && SlotsFit(slots, |flat|)
    requires s !in slots
    ensures WriteRows(flat, slots, rows)[s] == flat[s]
    decreases |slots|
  {
    if slots != [] {
      WriteLeavesOthers(flat[slots[0] := rows[0]], slots[1..], rows[1..], s);
    }
  }

  // ---- Who wrote a slot ----

  /** Per slot, the token prefix whose last row was written there last. */
  type Owners = map<nat, seq<Token>>

  function Record(owners: Owners, slots: seq<nat>, prefixes: seq<seq<Token>>): Owners
    requires |slots| == |prefixes|
    decreases |slots|
  {
    if slots == [] then owners else Record(owners[slots[0] := prefixes[0]], slots[1..], prefixes[1..])
  }

  /** The owner of a slot is the prefix of the last row written there. */
  lemma {:induction false} RecordedLast(owners: Owners, slots: seq<nat>, prefixes: seq<seq<Token>>, i: nat)
    requires |slots| == |prefixes| && i < |slots|
    requires forall m :: i < m < |slots| ==> slots[m] != slots[i]
    ensures slots[i] in Record(owners, slots, prefixes) && Record(owners, slots, prefixes)[slots[i]] == prefixes[i]
    decreases |slots|
  {
    var next := owners[slots[0] := prefixes[0]];
    if i == 0 { RecordLeavesOthers(next, slots[1..], prefixes[1..], slots[0]); }
    else { RecordedLast(next, slots[1..], prefixes[1..], i - 1); }
  }

  lemma {:induction false} RecordLeavesOthers(owners: Owners, slots: seq<nat>, prefixes: seq<seq<Token>>, s: nat)
    requires |slots| == |prefixes| && s !in slots
    ensures s in Record(owners, slots, prefixes) <==> s in owners
    ensures s in owners ==> Record(owners, slots, prefixes)[s] == owners[s]
    decreases |slots|
  {
    if slots != [] { RecordLeavesOthers(owners[slots[0] := prefixes[0]], slots[1..], prefixes[1..], s); }
  }

  /** Every owned slot holds the row the uncached model computes for its owner. */
  ghost predicate Faithful(forward: seq<Token> -> Row, flat: seq<Row>, owners: Owners) {
    forall s :: s in owners ==> s < |flat| && flat[s] == forward(owners[s])
  }

  lemma {:induction false} WriteKeepsFaithful(forward: seq<Token> -> Row, flat: seq<Row>, owners: Owners,
                                              slots: seq<nat>, rows: seq<Row>, prefixes: seq<seq<Token>>)
    requires |slots| == |rows| == |prefixes| && SlotsFit(slots, |flat|)
    requires forall i :: 0 <= i < |rows| ==> rows[i] == forward(prefixes[i])
    requires Faithful(forward, flat, owners)
    ensures Faithful(forward, WriteRows(flat, slots, rows), Record(owners, slots, prefixes))
    decreases |slots|
  {
    if slots != [] {
      WriteKeepsFaithful(forward, flat[slots[0] := rows[0]], owners[slots[0] := prefixes[0]],
                         slots[1..], rows[1..], prefixes[1..]);
    }
  }

  // ---- Arithmetic of slots ----

  lemma DivMod(i: nat, d: nat)
    requires d > 0
    ensures i == (i / d) * d + i % d && 0 <= i % d < d
  {
  }

  lemma MulMonotone(a: nat, b: nat, d: nat)
    requires a <= b
    ensures a * d <= b * d
  {
  }

  lemma MulSuccessor(a: nat, d: nat)
    ensures (a + 1) * d == a * d + d
  {
  }

  lemma DivBetween(i: nat, q: nat, d: nat)
    requires d > 0 && q * d <= i < (q + 1) * d
    ensures i / d == q && i % d == i - q * d
  {
    DivMod(i, d);
    if i / d < q {
      MulMonotone(i / d + 1, q, d);
      MulSuccessor(i / d, d);
    } else if i / d > q {
      MulMonotone(q + 1, i / d, d);
    }
  }

  lemma DivBelow(i: nat, n: nat, d: nat)
    requires d > 0 && i < n * d
    ensures i / d < n
  {
    DivMod(i, d);
    if i / d >= n {
      MulMonotone(n, i / d, d);
    }
  }

  lemma SlotInBlock(block: nat, offset: nat, d: nat)
    requires offset < d
    ensures (block * d + offset) / d == block && block * d + offset < (block + 1) * d
  {
    MulSuccessor(block, d);
    DivBetween(block * d + offset, block, d);
  }

  // ---- Reading blocks back ----

  ghost predicate BlocksFit(blockIds: seq<nat>, blockSize: nat, size: nat) {
    forall i :: 0 <= i < |blockIds| ==> (blockIds[i] + 1) * blockSize <= size
  }

  /** The slot that holds token i of a request with the given block table. */
  function SlotOf(blockIds: seq<nat>, blockSize: nat, i: nat): nat
    requires blockSize > 0 && i < |blockIds| * blockSize
  {
    DivBelow(i, |blockIds|, blockSize);
    blockIds[i / blockSize] * blockSize + i % blockSize
  }

  function Block(flat: seq<Row>, blockSize: nat, block: nat): seq<Row>
    requires (block + 1) * blockSize <= |flat|
  {
    MulSuccessor(block, blockSize);
    flat[block * blockSize..block * blockSize + blockSize]
  }

  /** `cache[block_ids].reshape(-1, features)` */
  function ReadBlocks(flat: seq<Row>, blockSize: nat, blockIds: seq<nat>): seq<Row>
    requires BlocksFit(blockIds, blockSize, |flat|)
  {
    if blockIds == [] then []
    else
      var n := |blockIds| - 1;
      ReadBlocks(flat, blockSize, blockIds[..n]) + Block(flat, blockSize, blockIds[n])
  }

  lemma {:induction false} ReadBlocksLength(flat: seq<Row>, blockSize: nat, blockIds: seq<nat>)
    requires BlocksFit(blockIds, blockSize, |flat|)
    ensures |ReadBlocks(flat, blockSize, blockIds)| == |blockIds| * blockSize
    decreases |blockIds|
  {
    if blockIds != [] {
      var n: nat := |blockIds| - 1;
      ReadBlocksLength(flat, blockSize, blockIds[..n]);
      BlockLength(flat, blockSize, blockIds[n]);
      MulSuccessor(n, blockSize);
      hide Block;
    }
  }

  lemma BlockLength(flat: seq<Row>, blockSize: nat, block: nat)
    requires (block + 1) * blockSize <= |flat|
    ensures |Block(flat, blockSize, block)| == blockSize
  {
  }

  lemma SlotFits(blockIds: seq<nat>, blockSize: nat, size: nat, i: nat)
    requires blockSize > 0 && i < |blockIds| * blockSize && BlocksFit(blockIds, blockSize, size)
    ensures SlotOf(blockIds, blockSize, i) < size
  {
    DivBelow(i, |blockIds|, blockSize);
    DivMod(i, blockSize);
    SlotInBlock(blockIds[i / blockSize], i % blockSize, blockSize);
  }

  /** Row i of a block read is the row in the slot of token i. */
  lemma {:induction false} ReadBlocksAt(flat: seq<Row>, blockSize: nat, blockIds: seq<nat>, i: nat)
    requires blockSize > 0 && BlocksFit(blockIds, blockSize, |flat|) && i < |blockIds| * blockSize
    ensures |ReadBlocks(flat, blockSize, blockIds)| == |blockIds| * blockSize
    ensures SlotOf(blockIds, blockSize, i) < |flat|
    ensures ReadBlocks(flat, blockSize, blockIds)[i] == flat[SlotOf(blockIds, blockSize, i)]
    decreases |blockIds|
  {
    var n := |blockIds| - 1;
    ReadBlocksLength(flat, blockSize, blockIds);
    SlotFits(blockIds, blockSize, |flat|, i);
    if n * blockSize <= i {
      LastBlockAt(flat, blockSize, blockIds, i);
    } else {
      ReadBlocksAt(flat, blockSize, blockIds[..n], i);
      SlotOfPrefix(blockIds, blockSize, i);
      ReadPrefixAt(flat, blockSize, blockIds, i);
    }
  }

  lemma SlotOfPrefix(blockIds: seq<nat>, blockSize: nat, i: nat)
    requires blockSize > 0 && blockIds != [] && i < (|blockIds| - 1) * blockSize
    ensures i < |blockIds| * blockSize
    ensures SlotOf(blockIds[..|blockIds| - 1], blockSize, i) == SlotOf(blockIds, blockSize, i)
  {
    MulSuccessor(|blockIds| - 1, blockSize);
    DivBelow(i, |blockIds| - 1, blockSize);
  }

  lemma ReadPrefixAt(flat: seq<Row>, blockSize: nat, blockIds: seq<nat>, i: nat)
    requires BlocksFit(blockIds, blockSize, |flat|) && blockIds != []
    requires i < |ReadBlocks(flat, blockSize, blockIds[..|blockIds| - 1])|
    ensures i < |ReadBlocks(flat, blockSize, blockIds)|
    ensures ReadBlocks(flat, blockSize, blockIds)[i] == ReadBlocks(flat, blockSize, blockIds[..|blockIds| - 1])[i]
  {
    hide Block;
  }

  lemma BlockAt(flat: seq<Row>, blockSize: nat, block: nat, r: nat)
    requires r < blockSize && (block + 1) * blockSize <= |flat|
    ensures 0 <= block * blockSize + r < |flat|
    ensures |Block(flat, blockSize, block)| == blockSize
    ensures Block(flat, blockSize, block)[r] == flat[block * blockSize + r]
  {
    MulSuccessor(block, blockSize);
  }

  lemma LastBlockAt(flat: seq<Row>, blockSize: nat, blockIds: seq<nat>, i: nat)
    requires blockSize > 0 && BlocksFit(blockIds, blockSize, |flat|)
    requires blockIds != [] && (|blockIds| - 1) * blockSize <= i < |blockIds| * blockSize
    ensures i < |ReadBlocks(flat, blockSize, blockIds)| && SlotOf(blockIds, blockSize, i) < |flat|
    ensures ReadBlocks(flat, blockSize, blockIds)[i] == flat[SlotOf(blockIds, blockSize, i)]
  {
    var n := |blockIds| - 1;
    ReadBlocksLength(flat, blockSize, blockIds);
    LastSlot(blockIds, blockSize, i);
    SlotFits(blockIds, blockSize, |flat|, i);
    hide ReadBlocks, SlotOf;
    ReadLastAt(flat, blockSize, blockIds, i - n * blockSize);
  }

  lemma LastSlot(blockIds: seq<nat>, blockSize: nat, i: nat)
    requires blockSize > 0 && blockIds != [] && (|blockIds| - 1) * blockSize <= i < |blockIds| * blockSize
    ensures i - (|blockIds| - 1) * blockSize < blockSize
    ensures SlotOf(blockIds, blockSize, i) == blockIds[|blockIds| - 1] * blockSize + (i - (|blockIds| - 1) * blockSize)
  {
    MulSuccessor(|blockIds| - 1, blockSize);
    DivBetween(i, |blockIds| - 1, blockSize);
  }

  lemma ReadLastAt(flat: seq<Row>, blockSize: nat, blockIds: seq<nat>, r: nat)
    requires BlocksFit(blockIds, blockSize, |flat|) && blockIds != [] && r < blockSize
    ensures |ReadBlocks(flat, blockSize, blockIds)|
              == |ReadBlocks(flat, blockSize, blockIds[..|blockIds| - 1])| + blockSize
    ensures 0 <= blockIds[|blockIds| - 1] * blockSize + r < |flat|
    ensures ReadBlocks(flat, blockSize, blockIds)[|ReadBlocks(flat, blockSize, blockIds[..|blockIds| - 1])| + r]
         == flat[blockIds[|blockIds| - 1] * blockSize + r]
  {
    BlockAt(flat, blockSize, blockIds[|blockIds| - 1], r);
    hide Block;
  }

  // ---- The hit ----

  /** The uncached causal forward: one row per token, each from the tokens up to it. */
  function Uncached(forward: seq<Token> -> Row, tokens: seq<Token>, from: nat, to: nat): seq<Row>
    requires from <= to <= |tokens|
  {
    seq(to - from, i requires 0 <= i < to - from => forward(tokens[..from + i + 1]))
  }

  /** The blocks of a hit were last written with the rows of the request's own prefix. */
  ghost predicate HitOwned(owners: Owners, blockSize: nat, blockIds: seq<nat>, tokens: seq<Token>)
    requires blockSize > 0 && |blockIds| * blockSize <= |tokens|
  {
    forall i :: 0 <= i < |blockIds| * blockSize ==>
      SlotOf(blockIds, blockSize, i) in owners && owners[SlotOf(blockIds, blockSize, i)] == tokens[..i + 1]
  }

  /** What a hit reads is the uncached forward over its blocks. */
  lemma HitReadsUncached(forward: seq<Token> -> Row, flat: seq<Row>, owners: Owners, blockSize: nat,
                         blockIds: seq<nat>, tokens: seq<Token>)
    requires blockSize > 0 && |blockIds| * blockSize <= |tokens| && BlocksFit(blockIds, blockSize, |flat|)
    requires Faithful(forward, flat, owners) && HitOwned(owners, blockSize, blockIds, tokens)
    ensures ReadBlocks(flat, blockSize, blockIds) == Uncached(forward, tokens, 0, |blockIds| * blockSize)
  {
    var rows := ReadBlocks(flat, blockSize, blockIds);
    ReadBlocksLength(flat, blockSize, blockIds);
    forall i | 0 <= i < |rows| ensures rows[i] == forward(tokens[..i + 1]) {
      ReadBlocksAt(flat, blockSize, blockIds, i);
      assert SlotOf(blockIds, blockSize, i) in owners;
    }
  }

  lemma UncachedSplit(forward: seq<Token> -> Row, tokens: seq<Token>, mid: nat, to: nat)
    requires mid <= to <= |tokens|
    ensures Uncached(forward, tokens, 0, mid) + Uncached(forward, tokens, mid, to) == Uncached(forward, tokens, 0, to)
  {
  }

  /** The block ids attached to a hit: only full blocks are cached. */
  function CachedBlockIds(blockTable: seq<nat>, numComputed: nat, blockSize: nat): seq<nat>
    requires blockSize > 0
  {
    Slice(blockTable, 0, numComputed / blockSize)
  }

  /** The rows returned for a hit: its full blocks, then the rows just computed. */
  function MergeHit(flat: seq<Row>, blockSize: nat, blockIds: seq<nat>, computed: seq<Row>): seq<Row>
    requires BlocksFit(blockIds, blockSize, |flat|)
  {
    ReadBlocks(flat, blockSize, blockIds) + computed
  }

  lemma FullBlocks(numComputed: nat, blockSize: nat)
    requires blockSize > 0
    ensures (numComputed / blockSize) * blockSize <= numComputed
    ensures (numComputed / blockSize) * blockSize == numComputed <==> numComputed % blockSize == 0
  {
    DivMod(numComputed, blockSize);
  }

  /** A hit returns what the model computes without a cache exactly when the number of
      computed tokens is a multiple of the block size; otherwise rows are missing. */
  lemma MergeEqualsUncached(forward: seq<Token> -> Row, flat: seq<Row>, owners: Owners, blockSize: nat,
                            blockIds: seq<nat>, tokens: seq<Token>, numComputed: nat, numScheduled: nat)
    requires blockSize > 0 && |blockIds| == numComputed / blockSize && |blockIds| * blockSize <= |tokens|
    requires numComputed + numScheduled <= |tokens| && BlocksFit(blockIds, blockSize, |flat|)
    requires Faithful(forward, flat, owners) && HitOwned(owners, blockSize, blockIds, tokens)
    ensures numComputed % blockSize == 0 <==>
      MergeHit(flat, blockSize, blockIds, Uncached(forward, tokens, numComputed, numComputed + numScheduled))
        == Uncached(forward, tokens, 0, numComputed + numScheduled)
  {
    FullBlocks(numComputed, blockSize);
    HitReadsUncached(forward, flat, owners, blockSize, blockIds, tokens);
    if numComputed % blockSize == 0 {
      UncachedSplit(forward, tokens, numComputed, numComputed + numScheduled);
    }
  }

  /** Reading a hit before or after the step's own writes makes no difference when none of
      the slots written lies in a block of the hit. */
  lemma WritesOutsideHitAreInvisible(flat: seq<Row>, blockSize: nat, blockIds: seq<nat>, slots: seq<nat>,
                                     rows: seq<Row>)
    requires blockSize > 0 && BlocksFit(blockIds, blockSize, |flat|)
    requires |slots| == |rows| && SlotsFit(slots, |flat|)
    requires forall i :: 0 <= i < |slots| ==> slots[i] / blockSize !in blockIds
    ensures ReadBlocks(WriteRows(flat, slots, rows), blockSize, blockIds) == ReadBlocks(flat, blockSize, blockIds)
  {
    var written := WriteRows(flat, slots, rows);
    ReadBlocksLength(flat, blockSize, blockIds);
    ReadBlocksLength(written, blockSize, blockIds);
    var before, after := ReadBlocks(flat, blockSize, blockIds), ReadBlocks(written, blockSize, blockIds);
    forall i | 0 <= i < |before| ensures before[i] == after[i] {
      ReadBlocksAt(flat, blockSize, blockIds, i);
      ReadBlocksAt(written, blockSize, blockIds, i);
      SlotLiesInTable(blockIds, blockSize, i);
      WriteLeavesOthers(flat, slots, rows, SlotOf(blockIds, blockSize, i));
    }
  }

  lemma SlotLiesInTable(blockIds: seq<nat>, blockSize: nat, i: nat)
    requires blockSize > 0 && i < |blockIds| * blockSize
    ensures SlotOf(blockIds, blockSize, i) / blockSize in blockIds
  {
    DivBelow(i, |blockIds|, blockSize);
    DivMod(i, blockSize);
    SlotInBlock(blockIds[i / blockSize], i % blockSize, blockSize);
  }

  // ---- One update of all cache tensors ----

  datatype Caches = Caches(hidden: seq<Row>, mm: map<Key, seq<Row>>)

  /** The arguments of `update_omni_tensor_prefix_cache`. */
  datatype StepOutputs = StepOutputs(
    hidden: Option<seq<Row>>, mm: Option<map<Key, MmOutput>>, numUnpadded: nat, slots: seq<nat>, numPadded: nat)

  /** Does this output depend on the sequence length, and so get a cache of its own? */
  predicate Cacheable(output: MmOutput, seqLen: nat) {
    output.Tensor? && |output.rows| == seqLen
  }

  function Zeros(size: nat, width: nat): seq<Row> {
    seq(size, _ => ZeroRow(width))
  }

  /** The caches once the outputs in `seen` were looked at for new keys. */
  function InitSome(mm: map<Key, seq<Row>>, outputs: map<Key, MmOutput>, seqLen: nat, size: nat,
                    seen: set<Key>): map<Key, seq<Row>>
  {
    map k | k in mm.Keys + outputs.Keys && (k in mm || (k in seen && Cacheable(outputs[k], seqLen))) ::
      if k in mm then mm[k] else Zeros(size, outputs[k].width)
  }

  /** `maybe_init_missing_mm_cache_keys` */
  function InitKeys(mm: map<Key, seq<Row>>, outputs: map<Key, MmOutput>, seqLen: nat, size: nat): map<Key, seq<Row>> {
    InitSome(mm, outputs, seqLen, size, outputs.Keys)
  }

  lemma InitOneMore(mm: map<Key, seq<Row>>, outputs: map<Key, MmOutput>, seqLen: nat, size: nat, seen: set<Key>, k: Key)
    requires k in outputs && k !in seen
    ensures InitSome(mm, outputs, seqLen, size, seen + {k})
         == if k !in mm && Cacheable(outputs[k], seqLen)
            then InitSome(mm, outputs, seqLen, size, seen)[k := Zeros(size, outputs[k].width)]
            else InitSome(mm, outputs, seqLen, size, seen)
    ensures k in InitSome(mm, outputs, seqLen, size, seen) <==> k in mm
  {
  }

  lemma InitNone(mm: map<Key, seq<Row>>, outputs: map<Key, MmOutput>, seqLen: nat, size: nat)
    ensures InitSome(mm, outputs, seqLen, size, {}) == mm
  {
  }

  /** Do all outputs that go into the caches of `keys` have at least n rows? */
  ghost predicate RowsFit(keys: set<Key>, outputs: map<Key, MmOutput>, n: nat) {
    forall k :: k in keys && k in outputs ==> outputs[k].Tensor? && n <= |outputs[k].rows|
  }

  ghost predicate MmSized(mm: map<Key, seq<Row>>, size: nat) {
    forall k :: k in mm ==> |mm[k]| == size
  }

  /** What the shapes of a step must be for the indexed assignments to be defined. */
  ghost predicate Shaped(keys: set<Key>, size: nat, st: StepOutputs) {
    && st.numUnpadded <= |st.slots| && st.numUnpadded <= st.numPadded
    && SlotsFit(st.slots[..st.numUnpadded], size)
    && (st.hidden.Some? ==> st.numUnpadded <= |st.hidden.value|)
    && (st.mm.Some? ==> RowsFit(keys, st.mm.value, st.numUnpadded))
  }

  /** The caches once those in `seen` took up this step's rows. */
  function WriteSome(mm: map<Key, seq<Row>>, size: nat, outputs: map<Key, MmOutput>, slots: seq<nat>,
                     seen: set<Key>): map<Key, seq<Row>>
    requires RowsFit(mm.Keys, outputs, |slots|) && MmSized(mm, size) && SlotsFit(slots, size)
  {
    map k | k in mm ::
      if k in outputs && k in seen then WriteRows(mm[k], slots, outputs[k].rows[..|slots|]) else mm[k]
  }

  lemma WriteNoKey(mm: map<Key, seq<Row>>, size: nat, outputs: map<Key, MmOutput>, slots: seq<nat>)
    requires RowsFit(mm.Keys, outputs, |slots|) && MmSized(mm, size) && SlotsFit(slots, size)
    ensures WriteSome(mm, size, outputs, slots, {}) == mm
  {
  }

  lemma UnseenKeyIsUnwritten(mm: map<Key, seq<Row>>, size: nat, outputs: map<Key, MmOutput>, slots: seq<nat>,
                             seen: set<Key>, k: Key)
    requires RowsFit(mm.Keys, outputs, |slots|) && MmSized(mm, size) && SlotsFit(slots, size)
    requires k in mm && k !in seen
    ensures k in WriteSome(mm, size, outputs, slots, seen) && WriteSome(mm, size, outputs, slots, seen)[k] == mm[k]
  {
  }

  lemma SkipOneMoreKey(mm: map<Key, seq<Row>>, size: nat, outputs: map<Key, MmOutput>, slots: seq<nat>,
                       seen: set<Key>, k: Key)
    requires RowsFit(mm.Keys, outputs, |slots|) && MmSized(mm, size) && SlotsFit(slots, size)
    requires k !in outputs
    ensures WriteSome(mm, size, outputs, slots, seen + {k}) == WriteSome(mm, size, outputs, slots, seen)
  {
    hide WriteRows;
  }

  lemma WriteOneMoreKey(mm: map<Key, seq<Row>>, size: nat, outputs: map<Key, MmOutput>, slots: seq<nat>,
                        seen: set<Key>, k: Key)
    requires RowsFit(mm.Keys, outputs, |slots|) && MmSized(mm, size) && SlotsFit(slots, size)
    requires k in mm && k in outputs
    ensures WriteSome(mm, size, outputs, slots, seen + {k})
         == WriteSome(mm, size, outputs, slots, seen)[k := WriteRows(mm[k], slots, outputs[k].rows[..|slots|])]
  {
    hide WriteRows;
  }

  function WriteKeys(mm: map<Key, seq<Row>>, size: nat, outputs: map<Key, MmOutput>, slots: seq<nat>)
    : map<Key, seq<Row>>
    requires RowsFit(mm.Keys, outputs, |slots|) && MmSized(mm, size) && SlotsFit(slots, size)
  {
    WriteSome(mm, size, outputs, slots, mm.Keys)
  }

  ghost predicate Sized(c: Caches, size: nat) {
    |c.hidden| == size && MmSized(c.mm, size)
  }

  lemma InitKeysFit(mm: map<Key, seq<Row>>, outputs: map<Key, MmOutput>, seqLen: nat, size: nat, n: nat)
    requires RowsFit(mm.Keys, outputs, n) && MmSized(mm, size) && n <= seqLen
    ensures RowsFit(InitKeys(mm, outputs, seqLen, size).Keys, outputs, n)
    ensures MmSized(InitKeys(mm, outputs, seqLen, size), size)
  {
  }

  function UpdateMm(mm: map<Key, seq<Row>>, size: nat, outputs: map<Key, MmOutput>, slots: seq<nat>,
                    numPadded: nat): map<Key, seq<Row>>
    requires RowsFit(mm.Keys, outputs, |slots|) && MmSized(mm, size) && SlotsFit(slots, size)
    requires |slots| <= numPadded
  {
    InitKeysFit(mm, outputs, numPadded, size, |slots|);
    WriteKeys(InitKeys(mm, outputs, numPadded, size), size, outputs, slots)
  }

  function Update(c: Caches, size: nat, st: StepOutputs): Caches
    requires Sized(c, size) && Shaped(c.mm.Keys, size, st)
  {
    var slots := st.slots[..st.numUnpadded];
    Caches(
      if st.hidden.Some? then WriteRows(c.hidden, slots, st.hidden.value[..st.numUnpadded]) else c.hidden,
      if st.mm.Some? then UpdateMm(c.mm, size, st.mm.value, slots, st.numPadded) else c.mm)
  }

  // ---- Runs ----

  /** Who owns each slot of each cache tensor; a key has no owners before it is initialised. */
  datatype History = History(hidden: Owners, mm: map<Key, Owners>)

  function RecordStep(h: History, st: StepOutputs, prefixes: seq<seq<Token>>): History
    requires st.numUnpadded <= |st.slots| && |prefixes| == st.numUnpadded
  {
    var slots := st.slots[..st.numUnpadded];
    History(
      if st.hidden.Some? then Record(h.hidden, slots, prefixes) else h.hidden,
      if st.mm.None? then h.mm
      else map k | k in h.mm.Keys + st.mm.value.Keys && (k in h.mm || Cacheable(st.mm.value[k], st.numPadded)) ::
             var owners := if k in h.mm then h.mm[k] else map[];
             if k in st.mm.value then Record(owners, slots, prefixes) else owners)
  }

  /** Every cache tensor agrees with the uncached model on every owned slot. */
  ghost predicate AllFaithful(hiddenModel: seq<Token> -> Row, mmModel: Key -> seq<Token> -> Row, c: Caches,
                              h: History) {
    && Faithful(hiddenModel, c.hidden, h.hidden)
    && c.mm.Keys == h.mm.Keys
    && forall k :: k in c.mm ==> Faithful(mmModel(k), c.mm[k], h.mm[k])
  }

  /** The rows a step delivers are the uncached model's rows for the prefixes it computes. */
  ghost predicate Computes(hiddenModel: seq<Token> -> Row, mmModel: Key -> seq<Token> -> Row,
                           st: StepOutputs, prefixes: seq<seq<Token>>)
  {
    && |prefixes| == st.numUnpadded
    && (st.hidden.Some? && |prefixes| <= |st.hidden.value| ==>
          forall i :: 0 <= i < |prefixes| ==> st.hidden.value[i] == hiddenModel(prefixes[i]))
    && (st.mm.Some? ==> forall k, i ::
          (k in st.mm.value && st.mm.value[k].Tensor? && |prefixes| <= |st.mm.value[k].rows| && 0 <= i < |prefixes|) ==>
          st.mm.value[k].rows[i] == mmModel(k)(prefixes[i]))
  }

  lemma UpdateKeepsFaithful(hiddenModel: seq<Token> -> Row, mmModel: Key -> seq<Token> -> Row,
                            c: Caches, h: History, size: nat, st: StepOutputs, prefixes: seq<seq<Token>>)
    requires Sized(c, size) && Shaped(c.mm.Keys, size, st)
    requires AllFaithful(hiddenModel, mmModel, c, h) && Computes(hiddenModel, mmModel, st, prefixes)
    ensures AllFaithful(hiddenModel, mmModel, Update(c, size, st), RecordStep(h, st, prefixes))
    ensures Sized(Update(c, size, st), size)
  {
    var slots := st.slots[..st.numUnpadded];
    var n, m := Update(c, size, st), RecordStep(h, st, prefixes);
    if st.hidden.Some? {
      WriteKeepsFaithful(hiddenModel, c.hidden, h.hidden, slots, st.hidden.value[..st.numUnpadded], prefixes);
    }
    if st.mm.Some? {
      forall k | k in n.mm ensures Faithful(mmModel(k), n.mm[k], m.mm[k]) {
        var flat := InitKeys(c.mm, st.mm.value, st.numPadded, size)[k];
        var owners := if k in h.mm then h.mm[k] else map[];
        if k in st.mm.value {
          WriteKeepsFaithful(mmModel(k), flat, owners, slots, st.mm.value[k].rows[..st.numUnpadded], prefixes);
        }
      }
    }
  }

  ghost predicate RunShaped(c: Caches, size: nat, steps: seq<StepOutputs>)
    requires Sized(c, size)
    decreases |steps|
  {
    steps != [] ==> Shaped(c.mm.Keys, size, steps[0]) && RunShaped(Update(c, size, steps[0]), size, steps[1..])
  }

  function UpdateAll(c: Caches, size: nat, steps: seq<StepOutputs>): Caches
    requires Sized(c, size) && RunShaped(c, size, steps)
    decreases |steps|
  {
    if steps == [] then c else UpdateAll(Update(c, size, steps[0]), size, steps[1..])
  }

  function RecordAll(h: History, steps: seq<StepOutputs>, prefixes: seq<seq<seq<Token>>>): History
    requires |steps| == |prefixes|
    requires forall i :: 0 <= i < |steps| ==>
               steps[i].numUnpadded <= |steps[i].slots| && |prefixes[i]| == steps[i].numUnpadded
    decreases |steps|
  {
    if steps == [] then h else RecordAll(RecordStep(h, steps[0], prefixes[0]), steps[1..], prefixes[1..])
  }

  /** Over any run of steps, every cache tensor keeps agreeing with the uncached model. */
  lemma {:induction false} RunKeepsFaithful(hiddenModel: seq<Token> -> Row, mmModel: Key -> seq<Token> -> Row,
                                            c: Caches, h: History, size: nat,
                                            steps: seq<StepOutputs>, prefixes: seq<seq<seq<Token>>>)
    requires Sized(c, size) && RunShaped(c, size, steps) && |steps| == |prefixes|
    requires AllFaithful(hiddenModel, mmModel, c, h)
    requires forall i :: 0 <= i < |steps| ==> Computes(hiddenModel, mmModel, steps[i], prefixes[i])
    requires forall i :: 0 <= i < |steps| ==>
               steps[i].numUnpadded <= |steps[i].slots| && |prefixes[i]| == steps[i].numUnpadded
    ensures AllFaithful(hiddenModel, mmModel, UpdateAll(c, size, steps), RecordAll(h, steps, prefixes))
    ensures Sized(UpdateAll(c, size, steps), size)
    decreases |steps|
  {
    if steps != [] {
      UpdateKeepsFaithful(hiddenModel, mmModel, c, h, size, steps[0], prefixes[0]);
      RunKeepsFaithful(hiddenModel, mmModel, Update(c, size, steps[0]), RecordStep(h, steps[0], prefixes[0]),
                       size, steps[1..], prefixes[1..]);
    }
  }

  /** The slots a step writes the hidden states to, or one multimodal output. */
  function Written(st: StepOutputs, key: Option<Key>): seq<nat>
    requires st.numUnpadded <= |st.slots|
  {
    if match key case None => st.hidden.Some? case Some(k) => st.mm.Some? && k in st.mm.value
    then st.slots[..st.numUnpadded] else []
  }

  function OwnersOf(h: History, key: Option<Key>): Owners {
    match key
    case None => h.hidden
    case Some(k) => if k in h.mm then h.mm[k] else map[]
  }

  ghost predicate Recorded(steps: seq<StepOutputs>, prefixes: seq<seq<seq<Token>>>) {
    && |steps| == |prefixes|
    && forall i :: 0 <= i < |steps| ==>
         steps[i].numUnpadded <= |steps[i].slots| && |prefixes[i]| == steps[i].numUnpadded
  }

  lemma StepLeavesOwner(h: History, st: StepOutputs, prefixes: seq<seq<Token>>, key: Option<Key>, s: nat)
    requires st.numUnpadded <= |st.slots| && |prefixes| == st.numUnpadded
    requires s in OwnersOf(h, key) && s !in Written(st, key)
    ensures var n := OwnersOf(RecordStep(h, st, prefixes), key); s in n && n[s] == OwnersOf(h, key)[s]
  {
    if st.numUnpadded == |Written(st, key)| { RecordLeavesOthers(OwnersOf(h, key), Written(st, key), prefixes, s); }
  }

  lemma {:induction false} LaterLeaveOwner(h: History, steps: seq<StepOutputs>, prefixes: seq<seq<seq<Token>>>,
                                           key: Option<Key>, s: nat)
    requires Recorded(steps, prefixes) && s in OwnersOf(h, key)
    requires forall l :: 0 <= l < |steps| ==> s !in Written(steps[l], key)
    ensures var n := OwnersOf(RecordAll(h, steps, prefixes), key); s in n && n[s] == OwnersOf(h, key)[s]
    decreases |steps|
  {
    if steps != [] {
      StepLeavesOwner(h, steps[0], prefixes[0], key, s);
      LaterLeaveOwner(RecordStep(h, steps[0], prefixes[0]), steps[1..], prefixes[1..], key, s);
    }
  }

  /** Over a run: a slot of a cache tensor belongs to the prefix whose row some step wrote
      there last.  For a multimodal key that is so from the first output on that has as many
      rows as the padded step. */
  lemma {:induction false} OwnerIsLastWriter(h: History, steps: seq<StepOutputs>, prefixes: seq<seq<seq<Token>>>,
                                             key: Option<Key>, j: nat, i: nat)
    requires Recorded(steps, prefixes) && j < |steps| && i < |Written(steps[j], key)|
    requires key.Some? ==>
               var out := steps[j].mm.value[key.value];
               key.value in h.mm || (out.Tensor? && |out.rows| == steps[j].numPadded)
    requires forall m :: i < m < |Written(steps[j], key)| ==> steps[j].slots[m] != steps[j].slots[i]
    requires forall l :: j < l < |steps| ==> steps[j].slots[i] !in Written(steps[l], key)
    ensures var n := OwnersOf(RecordAll(h, steps, prefixes), key);
            steps[j].slots[i] in n && n[steps[j].slots[i]] == prefixes[j][i]
    decreases |steps|
  {
    var next := RecordStep(h, steps[0], prefixes[0]);
    if j == 0 {
      RecordedLast(OwnersOf(h, key), Written(steps[0], key), prefixes[0], i);
      assert OwnersOf(next, key) == Record(OwnersOf(h, key), Written(steps[0], key), prefixes[0]);
      LaterLeaveOwner(next, steps[1..], prefixes[1..], key, steps[0].slots[i]);
    } else {
      OwnerIsLastWriter(next, steps[1..], prefixes[1..], key, j - 1, i);
    }
  }

  /** A multimodal key first seen while a hit is being served has no rows for the hit: it
      reads back zeros, whatever the model would have computed. */
  lemma LateKeyReadsZeros(c: Caches, size: nat, st: StepOutputs, k: Key, blockSize: nat, blockIds: seq<nat>)
    requires Sized(c, size) && Shaped(c.mm.Keys, size, st)
    requires k !in c.mm && st.mm.Some? && k in st.mm.value && Cacheable(st.mm.value[k], st.numPadded)
    requires blockSize > 0 && BlocksFit(blockIds, blockSize, size)
    requires forall i :: 0 <= i < st.numUnpadded ==> st.slots[i] / blockSize !in blockIds
    ensures k in Update(c, size, st).mm && |Update(c, size, st).mm[k]| == size
    ensures ReadBlocks(Update(c, size, st).mm[k], blockSize, blockIds)
         == seq(|blockIds| * blockSize, _ => seq(st.mm.value[k].width, _ => 0))
  {
    var width := st.mm.value[k].width;
    var slots := st.slots[..st.numUnpadded];
    WritesOutsideHitAreInvisible(Zeros(size, width), blockSize, blockIds, slots, st.mm.value[k].rows[..st.numUnpadded]);
    var rows := ReadBlocks(Zeros(size, width), blockSize, blockIds);
    ReadBlocksLength(Zeros(size, width), blockSize, blockIds);
    forall i | 0 <= i < |rows| ensures rows[i] == ZeroRow(width) {
      ReadBlocksAt(Zeros(size, width), blockSize, blockIds, i);
    }
  }
}
