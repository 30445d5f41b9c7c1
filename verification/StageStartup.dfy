/**
 vllm_omni/engine/stage_engine_startup.py, _wait_for_omni_engine_startup: the HELLO/READY
 handshake with the engines of a stage.
 */
module StageStartup {
  import opened Common

  type Identity = seq<bv8>

  datatype EngineState = New | Connected | Ready

  /** A decoded message; READY carries a block count. */
  datatype Message = Message(identity: Identity, status: string, numGpuBlocks: Option<int>,
      statsAddress: Option<string>)

  datatype Error = UnexpectedEngine | UnexpectedStatus | MissingKey

  // ---- One engine ----

  /** The state after one status, None when it is out of order. */
  function Advance(state: EngineState, status: string): Option<EngineState> {
    if status == "HELLO" && state == New then Some(Connected)
    else if status == "READY" && state == Connected then Some(Ready)
    else None
  }

  function AdvanceAll(state: EngineState, statuses: seq<string>): Option<EngineState>
    decreases |statuses|
  {
    if statuses == [] then Some(state)
    else
      var next := Advance(state, statuses[0]);
      if next.None? then None else AdvanceAll(next.value, statuses[1..])
  }

  /** An engine gets ready by exactly a HELLO and a READY. */
  lemma ReadyByTwoMessages(statuses: seq<string>)
    ensures AdvanceAll(New, statuses) == Some(Ready) <==> statuses == ["HELLO", "READY"]
  {
    assert forall s: seq<string> :: AdvanceAll(Ready, s).Some? <==> s == [];
    if statuses != [] {
      assert statuses == [statuses[0]] + statuses[1..];
      var rest := statuses[1..];
      if rest != [] {
        assert rest == [rest[0]] + rest[1..];
        assert AdvanceAll(Connected, rest) == Some(Ready) <==> rest[0] == "READY" && rest[1..] == [];
      }
    }
  }

  /** The statuses one engine sent. */
  function From(messages: seq<Message>, id: Identity): seq<string> {
    if messages == [] then []
    else (if messages[0].identity == id then [messages[0].status] else []) + From(messages[1..], id)
  }

  // ---- All engines ----

  /** The first engine with an identity. */
  function IndexOf(ids: seq<Identity>, id: Identity): (i: nat)
    ensures i <= |ids| && (i < |ids| <==> id in ids)
    ensures i < |ids| ==> ids[i] == id && forall j :: 0 <= j < i ==> ids[j] != id
  {
    if ids == [] || ids[0] == id then 0 else 1 + IndexOf(ids[1..], id)
  }

  function Process(ids: seq<Identity>, states: seq<EngineState>, messages: seq<Message>)
    : Result<seq<EngineState>, Error>
    requires |ids| == |states|
    decreases |messages|
  {
    if messages == [] then Ok(states)
    else
      var i := IndexOf(ids, messages[0].identity);
      if i == |ids| then Err(UnexpectedEngine)
      else
        var next := Advance(states[i], messages[0].status);
        if next.None? then Err(UnexpectedStatus) else Process(ids, states[i := next.value], messages[1..])
  }

  ghost predicate AllKnown(ids: seq<Identity>, messages: seq<Message>) {
    forall m :: m in messages ==> m.identity in ids
  }

  ghost predicate EachInOrder(ids: seq<Identity>, states: seq<EngineState>, messages: seq<Message>)
    requires |ids| == |states|
  {
    forall i :: 0 <= i < |ids| ==> AdvanceAll(states[i], From(messages, ids[i])).Some?
  }

  /** Each engine's part of the messages takes it to its state. */
  ghost predicate EachAt(ids: seq<Identity>, states: seq<EngineState>, messages: seq<Message>, after: seq<EngineState>)
    requires |ids| == |states|
  {
    |after| == |ids| && forall i :: 0 <= i < |ids| ==> AdvanceAll(states[i], From(messages, ids[i])) == Some(after[i])
  }

  /** However the messages of the engines are interleaved: they are accepted exactly if they
      come from known engines, each in its own order, and every engine ends where its own
      messages take it. */
  lemma {:induction false} InterleavingDoesNotMatter(ids: seq<Identity>, states: seq<EngineState>,
                                                     messages: seq<Message>)
    requires |ids| == |states| && NoDuplicates(ids)
    ensures Process(ids, states, messages).Ok? <==> AllKnown(ids, messages) && EachInOrder(ids, states, messages)
    ensures Process(ids, states, messages).Ok? ==> EachAt(ids, states, messages, Process(ids, states, messages).value)
    decreases |messages|
  {
    if messages != [] {
      var m := messages[0];
      var i := IndexOf(ids, m.identity);
      assert messages == [m] + messages[1..];
      if i < |ids| {
        forall j | 0 <= j < |ids| && j != i ensures From(messages, ids[j]) == From(messages[1..], ids[j]) {
          assert ids[j] != ids[i];
        }
        assert From(messages, ids[i])[1..] == From(messages[1..], ids[i]);
        var next := Advance(states[i], m.status);
        if next.Some? {
          InterleavingDoesNotMatter(ids, states[i := next.value], messages[1..]);
        } else {
          assert AdvanceAll(states[i], From(messages, ids[i])).None?;
        }
      } else {
        assert m in messages;
      }
    }
  }

  /** All engines end ready exactly if each sent one HELLO and then one READY, in whatever
      interleaving, and nobody else sent anything. */
  lemma AllReadyExactly(ids: seq<Identity>, messages: seq<Message>)
    requires NoDuplicates(ids)
    ensures var allNew := seq(|ids|, _ => New);
            Process(ids, allNew, messages) == Ok(seq(|ids|, _ => Ready)) <==>
            AllKnown(ids, messages) && forall i :: 0 <= i < |ids| ==> From(messages, ids[i]) == ["HELLO", "READY"]
  {
    var allNew, allReady := seq(|ids|, _ => New), seq(|ids|, _ => Ready);
    InterleavingDoesNotMatter(ids, allNew, messages);
    forall i | 0 <= i < |ids|
      ensures AdvanceAll(New, From(messages, ids[i])) == Some(Ready) <==> From(messages, ids[i]) == ["HELLO", "READY"]
    {
      ReadyByTwoMessages(From(messages, ids[i]));
    }
    var r := Process(ids, allNew, messages);
    if r.Ok? && forall i :: 0 <= i < |ids| ==> From(messages, ids[i]) == ["HELLO", "READY"] {
      forall i | 0 <= i < |ids| ensures r.value[i] == Ready {
        assert AdvanceAll(allNew[i], From(messages, ids[i])) == Some(r.value[i]);
      }
      assert r.value == allReady;
    }
  }

  function Count(states: seq<EngineState>, state: EngineState): nat {
    if states == [] then 0 else (if states[0] == state then 1 else 0) + Count(states[1..], state)
  }

  lemma {:induction false} CountUpdate(states: seq<EngineState>, i: nat, next: EngineState, state: EngineState)
    requires i < |states|
    ensures Count(states[i := next], state)
            == Count(states, state) - (if states[i] == state then 1 else 0) + (if next == state then 1 else 0)
    decreases |states|
  {
    if i == 0 {
      assert states[0 := next][1..] == states[1..];
    } else {
      assert states[i := next][1..] == states[1..][i - 1 := next];
      CountUpdate(states[1..], i - 1, next, state);
    }
  }

  lemma {:induction false} CountNone(states: seq<EngineState>, state: EngineState)
    ensures Count(states, state) == 0 <==> state !in states
    decreases |states|
  {
    if states != [] {
      assert states == [states[0]] + states[1..];
      CountNone(states[1..], state);
    }
  }

  lemma {:induction false} CountAll(n: nat)
    ensures Count(seq(n, _ => New), New) == n && Count(seq(n, _ => New), Connected) == 0
    decreases n
  {
    if n > 0 {
      assert seq(n, _ => New)[1..] == seq(n - 1, _ => New);
      CountAll(n - 1);
    }
  }

  /** The blocks reported ready. */
  function BlocksReady(messages: seq<Message>): int {
    if messages == [] then 0
    else (if messages[0].status == "READY" && messages[0].numGpuBlocks.Some? then messages[0].numGpuBlocks.value else 0)
         + BlocksReady(messages[1..])
  }

  lemma {:induction false} BlocksOneMore(messages: seq<Message>, n: nat)
    requires n < |messages|
    ensures BlocksReady(messages[..n + 1]) == BlocksReady(messages[..n]) + BlocksReady([messages[n]])
    decreases n
  {
    if n == 0 {
      assert messages[..1] == [messages[0]] && messages[..0] == [];
    } else {
      assert messages[..n + 1][1..] == messages[1..][..n] && messages[..n][1..] == messages[1..][..n - 1];
      BlocksOneMore(messages[1..], n - 1);
    }
  }

  /** Only a READY message reports blocks, and the blocks of messages add up. */
  lemma BlocksOfOne(m: Message)
    ensures BlocksReady([m]) == if m.status == "READY" && m.numGpuBlocks.Some? then m.numGpuBlocks.value else 0
  {
    assert [m][1..] == [];
  }

  lemma {:induction false} BlocksAddUp(a: seq<Message>, b: seq<Message>)
    ensures BlocksReady(a + b) == BlocksReady(a) + BlocksReady(b)
    decreases |a|
  {
    if a == [] {
      assert a + b == b;
    } else {
      assert (a + b)[1..] == a[1..] + b;
      BlocksAddUp(a[1..], b);
    }
  }

  lemma {:induction false} ProcessOneMore(ids: seq<Identity>, states: seq<EngineState>, messages: seq<Message>, n: nat)
    requires |ids| == |states| && n < |messages|
    ensures var r := Process(ids, states, messages[..n]);
            r.Ok? ==> |r.value| == |ids| &&
                      Process(ids, states, messages[..n + 1]) == Process(ids, r.value, [messages[n]])
    decreases n
  {
    if n == 0 {
      assert messages[..1] == [messages[0]] && messages[..0] == [];
    } else {
      assert messages[..n + 1][1..] == messages[1..][..n] && messages[..n][1..] == messages[1..][..n - 1];
      var i := IndexOf(ids, messages[0].identity);
      if i < |ids| {
        var next := Advance(states[i], messages[0].status);
        if next.Some? { ProcessOneMore(ids, states[i := next.value], messages[1..], n - 1); }
      }
    }
  }

  // ---- The loop ----

  class CoreEngine {
    const identity: Identity
    var state: EngineState

    constructor (identity: Identity)
      ensures this.identity == identity && state == New
    {
      this.identity := identity;
      state := New;
    }
  }

  class CacheConfig {
    var numGpuBlocks: Option<int>

    constructor (numGpuBlocks: Option<int>)
      ensures this.numGpuBlocks == numGpuBlocks
    {
      this.numGpuBlocks := numGpuBlocks;
    }

    function Blocks(): int
      reads this
    {
      if numGpuBlocks.Some? then numGpuBlocks.value else 0
    }
  }

  ghost function Ids(engines: seq<CoreEngine>): seq<Identity> {
    seq(|engines|, i requires 0 <= i < |engines| => engines[i].identity)
  }

  ghost function States(engines: seq<CoreEngine>): seq<EngineState>
    reads engines
  {
    seq(|engines|, i requires 0 <= i < |engines| reads engines => engines[i].state)
  }

  /** How the loop ends: all engines ready, an exception, or still waiting for messages. */
  datatype Outcome = Started | Failed(error: Error) | StillWaiting

  method FindEngine(engines: seq<CoreEngine>, identity: Identity) returns (i: nat)
    ensures i == IndexOf(Ids(engines), identity)
  {
    i := 0;
    while i < |engines| && engines[i].identity != identity
      invariant i <= |engines| && forall j :: 0 <= j < i ==> engines[j].identity != identity
    {
      i := i + 1;
    }
    var ids := Ids(engines);
    if i < |engines| {
      assert ids[i] == identity;
      assert IndexOf(ids, identity) >= i;
    }
  }

  /** What one message does. */
  datatype Handled = SentInit(i: nat) | GotReady(i: nat) | Raised(error: Error)

  /** The body of the loop for one message. */
  method HandleMessage(engines: seq<CoreEngine>, m: Message, cache: CacheConfig) returns (h: Handled)
    requires NoDuplicates(engines)
    modifies engines, cache
    ensures Effect(Ids(engines), old(States(engines)), m, States(engines), h)
    ensures cache.Blocks() == old(cache.Blocks()) + if h.GotReady? then BlocksReady([m]) else 0
    ensures !h.GotReady? ==> cache.numGpuBlocks == old(cache.numGpuBlocks)
    ensures h.GotReady? ==>
              && m.numGpuBlocks.Some?
              && cache.numGpuBlocks == Some((if old(cache.numGpuBlocks).Some? then old(cache.numGpuBlocks.value) else 0)
                                            + m.numGpuBlocks.value)
  {
    ghost var states := States(engines);
    var i := FindEngine(engines, m.identity);
    if i == |engines| {
      return Raised(UnexpectedEngine);
    }
    var engine := engines[i];
    if m.status == "HELLO" && engine.state == New {
      h := SentInit(i);
      engine.state := Connected;
      assert States(engines) == states[i := Connected];
    } else if m.status == "READY" && engine.state == Connected {
      if m.numGpuBlocks.None? {
        return Raised(MissingKey);
      }
      cache.numGpuBlocks := Some(cache.Blocks() + m.numGpuBlocks.value);
      h := GotReady(i);
      engine.state := Ready;
      assert States(engines) == states[i := Ready];
    } else {
      h := Raised(UnexpectedStatus);
    }
  }

  ghost predicate Effect(ids: seq<Identity>, before: seq<EngineState>, m: Message, after: seq<EngineState>,
                         h: Handled) {
    |ids| == |before| &&
    match h
    case SentInit(i) =>
      i < |before| && before[i] == New && after == before[i := Connected] && Process(ids, before, [m]) == Ok(after)
      && m.status == "HELLO"
    case GotReady(i) =>
      i < |before| && before[i] == Connected && after == before[i := Ready] && Process(ids, before, [m]) == Ok(after)
    case Raised(e) =>
      after == before && (e != MissingKey ==> Process(ids, before, [m]) == Err(e))
  }

  /** What the loop knows of the messages taken. */
  ghost predicate Taken(ids: seq<Identity>, start: seq<EngineState>, messages: seq<Message>, states: seq<EngineState>,
                        inits: seq<nat>, conn: nat, starting: nat) {
    && |ids| == |start| == |states|
    && Process(ids, start, messages) == Ok(states)
    && conn == Count(states, New) && starting == Count(states, Connected)
    && InitsMatch(inits, states)
  }

  /** Each engine that is not new was sent one INIT. */
  ghost predicate InitsMatch(inits: seq<nat>, states: seq<EngineState>) {
    NoDuplicates(inits) && forall i :: i in inits <==> 0 <= i < |states| && states[i] != New
  }

  lemma TakeOneMore(ids: seq<Identity>, start: seq<EngineState>, messages: seq<Message>, n: nat,
                    before: seq<EngineState>,
                    inits: seq<nat>, conn: nat, starting: nat, after: seq<EngineState>, h: Handled)
    requires n < |messages| && Taken(ids, start, messages[..n], before, inits, conn, starting)
    requires Effect(ids, before, messages[n], after, h)
    ensures h.SentInit? ==>
              conn > 0 && Taken(ids, start, messages[..n + 1], after, inits + [h.i], conn - 1, starting + 1)
    ensures h.GotReady? ==> starting > 0 && Taken(ids, start, messages[..n + 1], after, inits, conn, starting - 1)
    ensures h.Raised? && h.error != MissingKey ==> Process(ids, start, messages[..n + 1]) == Err(h.error)
  {
    ProcessOneMore(ids, start, messages, n);
    if !h.Raised? {
      CountUpdate(before, h.i, after[h.i], New);
      CountUpdate(before, h.i, after[h.i], Connected);
    }
  }

  lemma OnlyReadyReports(ids: seq<Identity>, before: seq<EngineState>, m: Message, after: seq<EngineState>, h: Handled)
    requires Effect(ids, before, m, after, h)
    ensures h.SentInit? ==> BlocksReady([m]) == 0
  {
    assert [m][1..] == [];
  }

  lemma AllReadyWhenNonePending(states: seq<EngineState>)
    ensures Count(states, New) == 0 && Count(states, Connected) == 0 <==> AllReady(states)
  {
    CountNone(states, New);
    CountNone(states, Connected);
    assert forall i :: 0 <= i < |states| ==> states[i] in states;
  }

  ghost predicate AllReady(states: seq<EngineState>) {
    forall i :: 0 <= i < |states| ==> states[i] == Ready
  }

  /** `_wait_for_omni_engine_startup` on the messages that arrive: how it ends, the number of
      messages it took, and the engines it sent an INIT to, in order. */
  method WaitForStartup(engines: seq<CoreEngine>, messages: seq<Message>, cache: CacheConfig)
    returns (outcome: Outcome, taken: nat, inits: seq<nat>)
    requires NoDuplicates(engines) && forall e :: e in engines ==> e.state == New
    modifies engines, cache
    ensures taken <= |messages| && (outcome == StillWaiting ==> taken == |messages|)
    ensures outcome.Started? <==> AllReady(States(engines))
    ensures !outcome.Failed? ==>
              Process(Ids(engines), old(States(engines)), messages[..taken]) == Ok(States(engines))
    ensures outcome.Failed? && outcome.error != MissingKey ==>
              Process(Ids(engines), old(States(engines)), messages[..taken]) == Err(outcome.error)
    ensures InitsMatch(inits, States(engines))
    ensures !outcome.Failed? ==> cache.Blocks() == old(cache.Blocks()) + BlocksReady(messages[..taken])
  {
    ghost var ids, start := Ids(engines), States(engines);
    var connPending: nat, startPending: nat := |engines|, 0;
    inits, taken := [], 0;
    CountAll(|engines|);
    assert start == seq(|engines|, _ => New);
    hide States, Process, Effect, BlocksReady;
    NothingTaken(ids, start, messages);
    while connPending > 0 || startPending > 0
      invariant taken <= |messages|
      invariant Taken(ids, start, messages[..taken], States(engines), inits, connPending, startPending)
      invariant cache.Blocks() == old(cache.Blocks()) + BlocksReady(messages[..taken])
      decreases |messages| - taken
    {
      AllReadyWhenNonePending(States(engines));
      if taken == |messages| {
        return StillWaiting, taken, inits;
      }
      ghost var before := States(engines);
      var h := HandleMessage(engines, messages[taken], cache);
      TakeOneMore(ids, start, messages, taken, before, inits, connPending, startPending, States(engines), h);
      OnlyReadyReports(ids, before, messages[taken], States(engines), h);
      BlocksOneMore(messages, taken);
      EffectKeepsWhenRaised(ids, before, messages[taken], States(engines), h);
      taken := taken + 1;
      match h {
        case SentInit(i) =>
          inits := inits + [i];
          connPending := connPending - 1;
          startPending := startPending + 1;
        case GotReady(_) =>
          startPending := startPending - 1;
        case Raised(e) =>
          return Failed(e), taken, inits;
      }
    }
    AllReadyWhenNonePending(States(engines));
    outcome := Started;
  }

  lemma EffectKeepsWhenRaised(ids: seq<Identity>, before: seq<EngineState>, m: Message, after: seq<EngineState>,
                              h: Handled)
    requires Effect(ids, before, m, after, h)
    ensures h.Raised? ==> after == before
  {
  }

  lemma NothingTaken(ids: seq<Identity>, start: seq<EngineState>, messages: seq<Message>)
    requires |ids| == |start| && start == seq(|ids|, _ => New)
    ensures Taken(ids, start, messages[..0], start, [], |ids|, 0) && BlocksReady(messages[..0]) == 0
  {
    CountAll(|ids|);
  }
}
