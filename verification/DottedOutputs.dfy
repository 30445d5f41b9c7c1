/**
 vllm_omni/engine/output_processor.py, CUMULATIVE outputs under dotted keys: once the
 accumulated outputs were nested, a dotted key that arrives again starts anew.
 */
module DottedOutputs {
  import opened Common
  import opened OrderedDict
  import opened DataEntryKeys
  import opened OutputAccumulation

  // ---- Nested part and flat part ----

  lemma {:induction false} GetConcat<K, V>(a: Items<K, V>, b: Items<K, V>, k: K)
    ensures Get(a + b, k) == if Get(a, k).Some? then Get(a, k) else Get(b, k)
    decreases |a|
  {
    if a == [] {
      assert a + b == b;
    } else {
      assert (a + b)[1..] == a[1..] + b;
      if a[0].0 != k { GetConcat(a[1..], b, k); }
    }
  }

  lemma {:induction false} PutConcat<K, V>(a: Items<K, V>, b: Items<K, V>, k: K, v: V)
    ensures Put(a + b, k, v) == if Get(a, k).Some? then Put(a, k, v) + b else a + Put(b, k, v)
    decreases |a|
  {
    if a == [] {
      assert a + b == b;
    } else {
      assert (a + b)[1..] == a[1..] + b;
      if a[0].0 == k {
        ConcatAssociates([(k, v)], a[1..], b);
      } else {
        PutConcat(a[1..], b, k, v);
        if Get(a, k).Some? {
          ConcatAssociates([a[0]], Put(a[1..], k, v), b);
        } else {
          ConcatAssociates([a[0]], a[1..], Put(b, k, v));
          assert [a[0]] + a[1..] == a;
        }
      }
    }
  }

  /** What has been nested already, and what came since. */
  datatype Parts = Parts(nested: Slots, flat: Slots) {
    function All(): Slots { nested + flat }

    ghost predicate Fit(indexed: bool) { Good(nested, indexed) && Canonical(flat, indexed) }
  }

  function MergedOne(found: Option<SlotValue>, v: SlotValue): SlotValue {
    if found.Some? then Merge(found.value, v) else v
  }

  function AddOne(p: Parts, k: string, v: SlotValue): Parts {
    if Get(p.nested, k).Some? then p.(nested := Put(p.nested, k, MergedOne(Get(p.nested, k), v)))
    else p.(flat := Put(p.flat, k, MergedOne(Get(p.flat, k), v)))
  }

  function AddAll(p: Parts, incoming: Slots): Parts
    decreases |incoming|
  {
    if incoming == [] then p else AddAll(AddOne(p, incoming[0].0, incoming[0].1), incoming[1..])
  }

  lemma {:induction false} MergeAllInParts(p: Parts, incoming: Slots)
    ensures MergeAll(p.All(), incoming) == AddAll(p, incoming).All()
    decreases |incoming|
  {
    if incoming != [] {
      var (k, v) := incoming[0];
      GetConcat(p.nested, p.flat, k);
      PutConcat(p.nested, p.flat, k, MergedOne(Get(p.All(), k), v));
      assert AddOne(p, k, v).All() == Put(p.All(), k, MergedOne(Get(p.All(), k), v));
      MergeAllInParts(AddOne(p, k, v), incoming[1..]);
    }
  }

  lemma PutCanonical(flat: Slots, k: string, v: SlotValue, indexed: bool)
    requires Canonical(flat, indexed) && CanonicalKey(k) && EntryFits(k, v, indexed)
    ensures Canonical(Put(flat, k, MergedOne(Get(flat, k), v)), indexed)
  {
    PutKeys(flat, k, MergedOne(Get(flat, k), v));
  }

  /** The nested part has no dotted keys. */
  lemma NestedHasPlainKeys(nested: Slots, indexed: bool, k: string)
    requires Good(nested, indexed) && Get(nested, k).Some?
    ensures '.' !in k
  {
    GotIsIn(nested, k);
  }

  ghost predicate DottedKey(key: string) { CanonicalKey(key) && DotAt(key) < |key| }

  /** One arriving item, as a dotted key sees it. */
  lemma AddOneKeeps(p: Parts, k: string, v: SlotValue, key: string, indexed: bool)
    requires p.Fit(indexed) && CanonicalKey(k) && EntryFits(k, v, indexed) && DottedKey(key)
    ensures var n := AddOne(p, k, v);
            && n.Fit(indexed) && Reads(n.nested, key) == Reads(p.nested, key)
            && Get(n.flat, key) == if k == key then Some(MergedOne(Get(p.flat, key), v)) else Get(p.flat, key)
  {
    if Get(p.nested, k).Some? {
      NestedHasPlainKeys(p.nested, indexed, k);
      NoDot(k);
      InsertPlainReads(p.nested, indexed, k, MergedOne(Get(p.nested, k), v));
    } else {
      PutCanonical(p.flat, k, v, indexed);
      GetPut(p.flat, k, MergedOne(Get(p.flat, k), v), key);
    }
  }

  lemma {:induction false} AddAllKeeps(p: Parts, incoming: Slots, key: string, indexed: bool)
    requires p.Fit(indexed) && Canonical(incoming, indexed) && DottedKey(key)
    ensures var n := AddAll(p, incoming);
            && n.Fit(indexed) && Reads(n.nested, key) == Reads(p.nested, key)
            && Get(n.flat, key) == if Get(incoming, key).None? then Get(p.flat, key)
                                   else Some(MergedOne(Get(p.flat, key), Get(incoming, key).value))
    decreases |incoming|
  {
    if incoming != [] {
      var (k, v) := incoming[0];
      CanonicalParts(incoming, indexed);
      hide Canonical, CanonicalKey, EntryFits, Reads;
      AddOneKeeps(p, k, v, key, indexed);
      AddAllKeeps(AddOne(p, k, v), incoming[1..], key, indexed);
    }
  }

  // ---- Consolidating the parts ----

  lemma {:induction false} ConsolidatedConcat(a: Slots, b: Slots)
    ensures ConsolidatedItems(a + b, false) == ConsolidatedItems(a, false) + ConsolidatedItems(b, false)
    decreases |a|
  {
    if a == [] {
      assert a + b == b;
    } else {
      assert (a + b)[1..] == a[1..] + b;
      ConsolidatedConcat(a[1..], b);
    }
  }

  lemma {:induction false} ConsolidatedSubAt(sub: Items<Key, SlotValue>, i: nat)
    requires i < |sub|
    ensures |ConsolidatedSub(sub)| == |sub|
    ensures var v := sub[i].1;
            ConsolidatedSub(sub)[i] == (sub[i].0, if v.Leaf? then Leaf(ConsolidatedSlot(v.leaf, false)) else v)
    decreases |sub|
  {
    if i > 0 {
      ConsolidatedSubAt(sub[1..], i - 1);
    } else if |sub| > 1 {
      ConsolidatedSubAt(sub[1..], 0);
    } else {
      assert sub[1..] == [];
    }
  }

  lemma {:induction false} ConsolidatedSubGet(sub: Items<Key, SlotValue>, k: Key)
    ensures var v: Option<SlotValue> := Get(sub, k);
            Get(ConsolidatedSub(sub), k)
            == if v.Some? && v.value.Leaf? then Some(Leaf(ConsolidatedSlot(v.value.leaf, false))) else v
    decreases |sub|
  {
    if sub != [] && sub[0].0 != k { ConsolidatedSubGet(sub[1..], k); }
  }

  lemma ConsolidatedSubGood(category: string, sub: Items<Key, SlotValue>, indexed: bool)
    requires SubGood(category, sub, indexed)
    ensures SubGood(category, ConsolidatedSub(sub), indexed)
  {
    var r := ConsolidatedSub(sub);
    if sub != [] { ConsolidatedSubAt(sub, 0); }
    forall i | 0 <= i < |sub|
      ensures r[i] == (sub[i].0, if sub[i].1.Leaf? then Leaf(ConsolidatedSlot(sub[i].1.leaf, false)) else sub[i].1)
    {
      ConsolidatedSubAt(sub, i);
    }
    forall s | s in r ensures exists u :: u in sub && u.0 == s.0 && (s.1.Dict? ==> u == s) && u.1.Dict? == s.1.Dict? {
      var i :| 0 <= i < |r| && r[i] == s;
      assert sub[i] in sub;
    }
  }

  lemma ConsolidatedGood(nested: Slots, indexed: bool)
    requires Good(nested, indexed)
    ensures Good(ConsolidatedItems(nested, false), indexed)
  {
    var r := ConsolidatedItems(nested, false);
    ConsolidatedItemsUnique(nested, false);
    forall e | e in r
      ensures '.' !in e.0
      ensures IsNested(e.0) ==> e.1.Dict? && SubGood(e.0, e.1.entries, indexed)
    {
      var i :| 0 <= i < |r| && r[i] == e;
      ConsolidatedItemsKeys(nested, false, i);
      assert nested[i] in nested;
      if IsNested(e.0) { ConsolidatedSubGood(e.0, nested[i].1.entries, indexed); }
    }
  }

  /** Consolidation leaves a nested slot empty, or as the one tensor it was. */
  lemma ConsolidatedReads(nested: Slots, key: string)
    requires DotAt(key) < |key|
    ensures var v, w := Reads(nested, key), Reads(ConsolidatedItems(nested, false), key);
            && (v.None? ==> w.None?)
            && (v.Some? && v.value.Leaf? && v.value.leaf.One? ==> w == v)
  {
    var k := Category(key);
    ConsolidatedItemsAt(nested, false, k);
    var sub: Option<SlotValue> := Get(nested, k);
    if sub.Some? && sub.value.Dict? {
      ConsolidatedSubGet(sub.value.entries, Str(LAYERS));
      ConsolidatedSubGet(sub.value.entries, Str(Qualifier(key)));
    }
  }

  lemma {:induction false} InsertAllPlain(p: Slots, items: Slots)
    requires Unique(p + items) && forall e :: e in items ==> '.' !in e.0
    ensures InsertAll(p, items) == Ok(p + items)
    decreases |items|
  {
    if items == [] {
      assert p + items == p;
    } else {
      var (k, v) := items[0];
      assert items[0] in items;
      NoDot(k);
      UniqueParts(p, items);
      PutNew(p, k, v);
      ConcatAssociates(p, [items[0]], items[1..]);
      assert [items[0]] + items[1..] == items;
      InsertAllPlain(p + [(k, v)], items[1..]);
    }
  }

  /** The settled form of the parts, all of it nested. */
  function Settle(p: Parts): Slots {
    Consolidated(p.All(), false)
  }

  lemma SettleReads(p: Parts, key: string, indexed: bool)
    requires p.Fit(indexed) && DottedKey(key)
    ensures Good(Settle(p), indexed)
    ensures Reads(Settle(p), key)
            == if Get(p.flat, key).Some? then Some(ConsolidatedValue(key, Get(p.flat, key).value, false))
               else Reads(ConsolidatedItems(p.nested, false), key)
  {
    var nested, flat := ConsolidatedItems(p.nested, false), ConsolidatedItems(p.flat, false);
    ConsolidatedGood(p.nested, indexed);
    ConsolidatedCanonical(p.flat, indexed);
    ConsolidatedConcat(p.nested, p.flat);
    ConsolidatedItemsAt(p.flat, false, key);
    assert [] + nested == nested;
    InsertAllPlain([], nested);
    InsertAllConcat([], nested, flat);
    InsertAllReads(nested, flat, indexed);
  }

  // ---- Batches ----

  /** The tensors received under a key, cut at the consolidations: those of the batch shown
      now, those of the batches before it, and those that came since. */
  datatype Batches = Batches(earlier: seq<Chunk>, shown: seq<Chunk>, current: seq<Chunk>)

  function After(b: Batches, e: Event, key: string): Batches {
    match e
    case Arriving(_, _) => b.(current := b.current + Brings(e, key))
    case Decoding(_) => b
    case Making(_, _) => if b.current == [] then b else Batches(b.earlier + b.shown, b.current, [])
  }

  function BatchesFrom(b: Batches, events: seq<Event>, key: string): Batches
    decreases |events|
  {
    if events == [] then b else BatchesFrom(After(b, events[0], key), events[1..], key)
  }

  function BatchesOf(events: seq<Event>, key: string): Batches {
    BatchesFrom(Batches([], [], []), events, key)
  }

  function AllOf(b: Batches): seq<Chunk> { b.earlier + b.shown + b.current }

  /** Nothing received is missing from the batches. */
  lemma {:induction false} BatchesAreReceived(b: Batches, events: seq<Event>, key: string)
    ensures AllOf(BatchesFrom(b, events, key)) == AllOf(b) + Received(events, key)
    decreases |events|
  {
    if events == [] {
      assert AllOf(b) + [] == AllOf(b);
    } else {
      var e := events[0];
      BatchesAreReceived(After(b, e, key), events[1..], key);
      AfterAdds(b, e, key);
      ConcatAssociates(AllOf(b), Brings(e, key), Received(events[1..], key));
    }
  }

  lemma AfterAdds(b: Batches, e: Event, key: string)
    ensures AllOf(After(b, e, key)) == AllOf(b) + Brings(e, key)
  {
    match e
    case Arriving(_, _) => ConcatAssociates(b.earlier + b.shown, b.current, Brings(e, key));
    case Decoding(_) => assert AllOf(b) + [] == AllOf(b);
    case Making(_, _) =>
      assert AllOf(b) + [] == AllOf(b);
      if b.current != [] { assert (b.earlier + b.shown) + b.current + [] == AllOf(b); }
  }

  // ---- Every run ----

  /** The parts hold under a dotted key what the batches say. */
  ghost predicate Tracks(p: Parts, b: Batches, key: string, shape: nat, indexed: bool) {
    && p.Fit(indexed)
    && StandsFor(Pending(p.flat, key), b.current, key, shape)
    && (b.current == [] ==> Get(p.flat, key).None?)
    && Shows(p.nested, b.shown, key, shape)
  }

  /** The nested slot of a key holds one tensor for all of a batch, or nothing. */
  ghost predicate Shows(nested: Slots, batch: seq<Chunk>, key: string, shape: nat) {
    var v := Reads(nested, key);
    if batch == [] then v.None?
    else v.Some? && v.value.Leaf? && v.value.leaf.One? && Summarises(v.value.leaf.chunk, batch, key, shape)
  }

  lemma ArrivalTracks(p: Parts, b: Batches, e: Event, key: string, shape: nat, indexed: bool)
    requires Tracks(p, b, key, shape, indexed) && e.Arriving? && DottedKey(key) && key != "sr"
    requires Canonical(Incoming(e.a, e.mmType), indexed) && TensorEvent(e, key)
    requires Shaped(Brings(e, key), shape)
    ensures Tracks(AddAll(p, Incoming(e.a, e.mmType)), After(b, e, key), key, shape, indexed)
  {
    var incoming := Incoming(e.a, e.mmType);
    BringsWhatIsFiled(e, key);
    AddAllKeeps(p, incoming, key, indexed);
    MoreStandsForMore(Pending(p.flat, key), b.current, Brings(e, key), key, shape);
    var n := AddAll(p, incoming);
    assert Pending(n.flat, key) == Pending(p.flat, key) + Brings(e, key) by {
      if Get(incoming, key).None? { assert Pending(p.flat, key) + [] == Pending(p.flat, key); }
    }
  }

  lemma SettleTracks(p: Parts, b: Batches, e: Event, key: string, shape: nat, indexed: bool)
    requires Tracks(p, b, key, shape, indexed) && e.Making? && DottedKey(key) && key != "sr"
    ensures Tracks(Parts(Settle(p), []), After(b, e, key), key, shape, indexed)
    ensures After(b, e, key).current == []
  {
    SettleReads(p, key, indexed);
    ConsolidatedReads(p.nested, key);
    ConsolidatedStandsFor(LeafAt(p.flat, key), b.current, key, shape);
  }

  lemma SettleShows(p: Parts, b: Batches, e: Event, key: string, shape: nat, indexed: bool)
    requires Tracks(p, b, key, shape, indexed) && e.Making? && DottedKey(key) && key != "sr"
    ensures Shows(Settle(p), After(b, e, key).shown, key, shape)
  {
    SettleTracks(p, b, e, key, shape, indexed);
  }

  ghost predicate Cumulating(r: Request, p: Parts) {
    r.kind.Cumulative? && r.sent == 0 && r.acc == p.All()
  }

  lemma DottedStep(r: Request, p: Parts, b: Batches, e: Event, key: string, shape: nat, indexed: bool)
    returns (n: Parts)
    requires Cumulating(r, p) && Tracks(p, b, key, shape, indexed) && DottedKey(key) && key != "sr"
    requires ShapedEvents([e], key, shape) && CanonicalEvents([e], indexed)
    ensures Cumulating(Next(r, e), n) && Tracks(n, After(b, e, key), key, shape, indexed)
    ensures e.Making? ==> n == Parts(Settle(p), [])
  {
    assert [e][0] == e;
    match e
    case Arriving(a, mmType) =>
      n := AddAll(p, Incoming(a, mmType));
      ArrivalTracks(p, b, e, key, shape, indexed);
      MergeAllInParts(p, Incoming(a, mmType));
      if a.Nothing? { assert Incoming(a, mmType) == []; }
      if r.acc == [] { AddToNothing(p, Incoming(a, mmType)); }
    case Decoding(_) => n := p;
    case Making(_, _) =>
      n := Parts(Settle(p), []);
      SettleTracks(p, b, e, key, shape, indexed);
      assert Settle(p) + [] == Settle(p);
  }

  /** Merging into nothing is taking what comes. */
  lemma AddToNothing(p: Parts, incoming: Slots)
    requires p.All() == [] && Unique(incoming)
    ensures AddAll(p, incoming).All() == incoming
  {
    MergeAllInParts(p, incoming);
    assert [] + incoming == incoming;
    MergeNew([], incoming);
  }

  lemma {:induction false} MergeNew(acc: Slots, incoming: Slots)
    requires Unique(acc + incoming)
    ensures MergeAll(acc, incoming) == acc + incoming
    decreases |incoming|
  {
    if incoming == [] {
      assert acc + incoming == acc;
    } else {
      var (k, v) := incoming[0];
      UniqueParts(acc, incoming);
      GetNoneIfLacks(acc, k);
      PutNew(acc, k, v);
      ConcatAssociates(acc, [incoming[0]], incoming[1..]);
      assert [incoming[0]] + incoming[1..] == incoming;
      MergeNew(acc + [(k, v)], incoming[1..]);
    }
  }

  lemma {:induction false} DottedRun(r: Request, p: Parts, b: Batches, events: seq<Event>, key: string, shape: nat,
                                     indexed: bool)
    returns (n: Parts)
    requires Cumulating(r, p) && Tracks(p, b, key, shape, indexed) && DottedKey(key) && key != "sr"
    requires ShapedEvents(events, key, shape) && CanonicalEvents(events, indexed)
    ensures Cumulating(Run(r, events), n) && Tracks(n, BatchesFrom(b, events, key), key, shape, indexed)
    decreases |events|
  {
    if events == [] {
      n := p;
    } else {
      ShapedParts(events, key, shape);
      assert CanonicalEvents([events[0]], indexed) && CanonicalEvents(events[1..], indexed);
      hide Cumulating, Tracks, Next, ShapedEvents, CanonicalEvents;
      n := DottedStep(r, p, b, events[0], key, shape, indexed);
      n := DottedRun(Next(r, events[0]), n, After(b, events[0], key), events[1..], key, shape, indexed);
    }
  }

  lemma DottedIsNotSr(key: string)
    requires DottedKey(key)
    ensures key != "sr"
  {
    assert key[DotAt(key)] == '.';
  }

  /** In CUMULATIVE mode, for any canonical arrivals and any dotted key, an emission shows the
      concatenation of the last batch: what came under the key since the consolidation before
      the last one after which something came. */
  lemma EmissionShowsLastBatch(streamInterval: nat, events: seq<Event>, newTokens: seq<int>, finished: bool,
                               key: string, shape: nat, indexed: bool)
    requires ShapedEvents(events, key, shape) && CanonicalEvents(events, indexed) && DottedKey(key)
    ensures var out := Run(Fresh(Cumulative, streamInterval), events).Emission(newTokens, finished);
            && out.Some?
            && Shows(out.value.mm, BatchesOf(events + [Making(newTokens, finished)], key).shown, key, shape)
  {
    DottedIsNotSr(key);
    var r := Fresh(Cumulative, streamInterval);
    assert Tracks(Parts([], []), Batches([], [], []), key, shape, indexed);
    var p := DottedRun(r, Parts([], []), Batches([], [], []), events, key, shape, indexed);
    var b := BatchesOf(events, key);
    hide Tracks, Canonical, ShapedEvents, CanonicalEvents, Consolidated, Shows;
    SettleShows(p, b, Making(newTokens, finished), key, shape, indexed);
    BatchesOneMore(Batches([], [], []), events, Making(newTokens, finished), key);
  }

  lemma {:induction false} BatchesOneMore(b: Batches, events: seq<Event>, e: Event, key: string)
    ensures BatchesFrom(b, events + [e], key) == After(BatchesFrom(b, events, key), e, key)
    decreases |events|
  {
    if events == [] {
      assert events + [e] == [e] && [e][1..] == [];
    } else {
      assert (events + [e])[1..] == events[1..] + [e];
      BatchesOneMore(After(b, events[0], key), events[1..], e, key);
    }
  }

  // ---- Exactly when everything is shown ----

  /** Something comes under the key at i. */
  ghost predicate At(events: seq<Event>, i: int, key: string) {
    0 <= i < |events| && Brings(events[i], key) != []
  }

  ghost predicate MakingAt(events: seq<Event>, j: int) {
    0 <= j < |events| && events[j].Making?
  }

  ghost predicate Open(events: seq<Event>, key: string) {
    exists i :: At(events, i, key) && forall j :: MakingAt(events, j) ==> j < i
  }

  ghost predicate Closed(events: seq<Event>, key: string) {
    exists i, j :: At(events, i, key) && MakingAt(events, j) && i < j
  }

  ghost predicate Twice(events: seq<Event>, key: string) {
    exists i, j, k, l :: At(events, i, key) && MakingAt(events, j) && At(events, k, key) && MakingAt(events, l)
                         && i < j < k < l
  }

  lemma BringingMakesNothing(e: Event, key: string)
    ensures Brings(e, key) != [] ==> !e.Making?
  {
  }

  lemma OneMoreEvent(events: seq<Event>, e: Event, key: string)
    ensures var more := events + [e];
            && (forall i :: At(more, i, key) <==> At(events, i, key) || (i == |events| && Brings(e, key) != []))
            && (forall j :: MakingAt(more, j) <==> MakingAt(events, j) || (j == |events| && e.Making?))
  {
    var more := events + [e];
    forall i ensures At(more, i, key) <==> At(events, i, key) || (i == |events| && Brings(e, key) != []) {
      if 0 <= i < |events| { assert more[i] == events[i]; }
    }
    forall j ensures MakingAt(more, j) <==> MakingAt(events, j) || (j == |events| && e.Making?) {
      if 0 <= j < |events| { assert more[j] == events[j]; }
    }
  }

  lemma OpenOneMore(events: seq<Event>, e: Event, key: string)
    ensures Open(events + [e], key) <==> Brings(e, key) != [] || (Open(events, key) && !e.Making?)
  {
    OneMoreEvent(events, e, key);
    var more := events + [e];
    assert forall j :: MakingAt(events, j) ==> j < |events|;
    if Brings(e, key) != [] {
      assert At(more, |events|, key);
    } else if Open(events, key) && !e.Making? {
      var i :| At(events, i, key) && forall j :: MakingAt(events, j) ==> j < i;
      assert At(more, i, key);
    }
    assert e.Making? ==> MakingAt(more, |events|);
  }

  lemma ClosedOneMore(events: seq<Event>, e: Event, key: string)
    ensures Closed(events + [e], key) <==> Closed(events, key) || (Open(events, key) && e.Making?)
  {
    OneMoreEvent(events, e, key);
    var more := events + [e];
    if Closed(events, key) {
      var i, j :| At(events, i, key) && MakingAt(events, j) && i < j;
      assert At(more, i, key) && MakingAt(more, j);
    } else if Open(events, key) && e.Making? {
      var i :| At(events, i, key) && forall j :: MakingAt(events, j) ==> j < i;
      assert At(more, i, key) && MakingAt(more, |events|);
    } else if Closed(more, key) {
      var i, j :| At(more, i, key) && MakingAt(more, j) && i < j;
      assert At(events, i, key) && !MakingAt(events, j);
      OpenIfNotClosed(events, i, key);
    }
  }

  lemma OpenIfNotClosed(events: seq<Event>, i: int, key: string)
    requires At(events, i, key) && !Closed(events, key)
    ensures Open(events, key)
  {
    BringingMakesNothing(events[i], key);
    forall j | MakingAt(events, j) ensures j < i {
    }
  }

  lemma TwiceOneMore(events: seq<Event>, e: Event, key: string)
    ensures Twice(events + [e], key) <==>
            Twice(events, key) || (Open(events, key) && Closed(events, key) && e.Making?)
  {
    OneMoreEvent(events, e, key);
    var more := events + [e];
    if Twice(events, key) {
      var i, j, k, l :| At(events, i, key) && MakingAt(events, j) && At(events, k, key) && MakingAt(events, l)
                        && i < j < k < l;
      assert At(more, i, key) && MakingAt(more, j) && At(more, k, key) && MakingAt(more, l);
    } else if Open(events, key) && Closed(events, key) && e.Making? {
      var k :| At(events, k, key) && forall j :: MakingAt(events, j) ==> j < k;
      var i, j :| At(events, i, key) && MakingAt(events, j) && i < j;
      assert At(more, i, key) && MakingAt(more, j) && At(more, k, key) && MakingAt(more, |events|);
    } else if Twice(more, key) {
      var i, j, k, l :| At(more, i, key) && MakingAt(more, j) && At(more, k, key) && MakingAt(more, l) && i < j < k < l;
      assert At(events, i, key) && MakingAt(events, j) && At(events, k, key);
      assert Closed(events, key);
      assert !MakingAt(events, l);
      OpenIfNotTwice(events, i, j, k, key);
    }
  }

  lemma OpenIfNotTwice(events: seq<Event>, i: int, j: int, k: int, key: string)
    requires At(events, i, key) && MakingAt(events, j) && At(events, k, key) && i < j < k && !Twice(events, key)
    ensures Open(events, key)
  {
    BringingMakesNothing(events[k], key);
    forall l | MakingAt(events, l) ensures l < k {
    }
  }

  /** Where the batches stand, in terms of the events. */
  lemma {:induction false} BatchPositions(events: seq<Event>, key: string)
    ensures var b := BatchesOf(events, key);
            && (b.current != [] <==> Open(events, key))
            && (b.shown != [] <==> Closed(events, key))
            && (b.earlier != [] <==> Twice(events, key))
    decreases |events|
  {
    if events != [] {
      var n := |events| - 1;
      var before, e := events[..n], events[n];
      assert before + [e] == events;
      BatchPositions(before, key);
      BatchesOneMore(Batches([], [], []), before, e, key);
      OpenOneMore(before, e, key);
      ClosedOneMore(before, e, key);
      TwiceOneMore(before, e, key);
      EarlierWasShown(before, key);
    }
  }

  lemma {:induction false} EarlierWasShown(events: seq<Event>, key: string)
    ensures var b := BatchesOf(events, key); b.earlier != [] ==> b.shown != []
    decreases |events|
  {
    if events != [] {
      var n := |events| - 1;
      assert events[..n] + [events[n]] == events;
      BatchesOneMore(Batches([], [], []), events[..n], events[n], key);
      EarlierWasShown(events[..n], key);
    }
  }

  /** All tensors of the key came with no consolidation in between. */
  ghost predicate InOneBatch(events: seq<Event>, key: string) {
    forall i, j, k :: At(events, i, key) && MakingAt(events, j) && At(events, k, key) && i < j ==> k <= j
  }

  lemma OneBatchExactly(events: seq<Event>, newTokens: seq<int>, finished: bool, key: string)
    ensures BatchesOf(events + [Making(newTokens, finished)], key).earlier == [] <==> InOneBatch(events, key)
  {
    var e := Making(newTokens, finished);
    var all := events + [e];
    BatchPositions(all, key);
    OneMoreEvent(events, e, key);
    if Twice(all, key) {
      var i, j, k, l :| At(all, i, key) && MakingAt(all, j) && At(all, k, key) && MakingAt(all, l) && i < j < k < l;
      assert At(events, i, key) && MakingAt(events, j) && At(events, k, key);
    } else {
      forall i, j, k | At(events, i, key) && MakingAt(events, j) && At(events, k, key) && i < j ensures k <= j {
        assert At(all, i, key) && MakingAt(all, j) && At(all, k, key) && MakingAt(all, |events|);
      }
    }
  }

  ghost predicate NonEmpty(cs: seq<Chunk>) {
    forall i :: 0 <= i < |cs| ==> cs[i].slices != []
  }

  lemma SlicesOfNonEmpty(cs: seq<Chunk>)
    requires NonEmpty(cs)
    ensures SlicesOf(cs) == [] <==> cs == []
  {
  }

  lemma {:induction false} ReceivedOneMore(events: seq<Event>, e: Event, key: string)
    ensures Received(events + [e], key) == Received(events, key) + Brings(e, key)
    decreases |events|
  {
    if events == [] {
      assert events + [e] == [e] && [e][1..] == [];
      assert Received([e], key) == Brings(e, key) + [];
    } else {
      assert (events + [e])[1..] == events[1..] + [e];
      ReceivedOneMore(events[1..], e, key);
      ConcatAssociates(Brings(events[0], key), Received(events[1..], key), Brings(e, key));
    }
  }

  lemma SummaryOfPart(c: Chunk, earlier: seq<Chunk>, shown: seq<Chunk>, key: string, shape: nat)
    requires key != "sr" && Summarises(c, shown, key, shape)
    ensures Summarises(c, earlier + shown, key, shape) <==> SlicesOf(earlier) == []
  {
    SlicesConcat(earlier, shown);
    var s, t := SlicesOf(earlier), SlicesOf(shown);
    assert s == [] ==> s + t == t;
    assert s != [] ==> |s + t| > |t|;
  }

  /** In CUMULATIVE mode an emission shows under a dotted key everything received, exactly if
      all of it that is not empty came with no consolidation in between. */
  lemma DottedShowsAllExactly(streamInterval: nat, events: seq<Event>, newTokens: seq<int>, finished: bool,
                              key: string, shape: nat, indexed: bool)
    requires ShapedEvents(events, key, shape) && CanonicalEvents(events, indexed) && DottedKey(key)
    requires Received(events, key) != [] && NonEmpty(Received(events, key))
    ensures var out := Run(Fresh(Cumulative, streamInterval), events).Emission(newTokens, finished);
            && out.Some?
            && (Shows(out.value.mm, Received(events, key), key, shape) <==> InOneBatch(events, key))
  {
    var e := Making(newTokens, finished);
    var b := BatchesOf(events + [e], key);
    DottedIsNotSr(key);
    EmissionShowsLastBatch(streamInterval, events, newTokens, finished, key, shape, indexed);
    AllReceivedShown(events, newTokens, finished, key);
    OneBatchExactly(events, newTokens, finished, key);
    assert NonEmpty(b.earlier) by {
      forall i | 0 <= i < |b.earlier| ensures b.earlier[i].slices != [] {
        assert b.earlier[i] == Received(events, key)[i];
      }
    }
    SlicesOfNonEmpty(b.earlier);
    var mm := Run(Fresh(Cumulative, streamInterval), events).Emission(newTokens, finished).value.mm;
    hide Summarises, InOneBatch;
    SummaryOfPart(Reads(mm, key).value.leaf.chunk, b.earlier, b.shown, key, shape);
  }

  lemma AllReceivedShown(events: seq<Event>, newTokens: seq<int>, finished: bool, key: string)
    ensures var b := BatchesOf(events + [Making(newTokens, finished)], key);
            Received(events, key) == b.earlier + b.shown && (Received(events, key) != [] ==> b.shown != [])
  {
    var e := Making(newTokens, finished);
    var b := BatchesOf(events + [e], key);
    BatchesAreReceived(Batches([], [], []), events + [e], key);
    ReceivedOneMore(events, e, key);
    BatchesOneMore(Batches([], [], []), events, e, key);
    assert Received(events, key) + [] == Received(events, key);
    assert [] + Received(events, key) == Received(events, key);
    assert b.current == [];
    assert AllOf(b) == b.earlier + b.shown;
    assert AllOf(Batches([], [], [])) == [];
    EarlierWasShown(events + [e], key);
  }
}
