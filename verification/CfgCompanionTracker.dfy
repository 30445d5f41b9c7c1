/**
 vllm_omni/engine/cfg_companion_tracker.py: which requests are classifier-free-guidance
 companions of which parent, which of them are done, and which parents wait for them.
 */
module CfgCompanionTracking {
  import opened Common

  type Id = string
  type Role = string
  type EngineOutputs = int

  datatype Deferred = Deferred(outputs: EngineOutputs, stage: nat)

  function ValuesAt(companions: map<Id, map<Role, Id>>, parent: Id): set<Id> {
    if parent in companions then companions[parent].Values else {}
  }

  datatype Tracker = Tracker(
    companions: map<Id, map<Role, Id>>,
    ids: set<Id>,
    parentOf: map<Id, Id>,
    done: map<Id, set<Id>>,
    pending: map<Id, Deferred>)
  {
    predicate IsCompanion(req: Id) {
      req in ids
    }

    function CompanionsOf(parent: Id): set<Id> {
      ValuesAt(companions, parent)
    }

    function DoneOf(parent: Id): set<Id> {
      if parent in done then done[parent] else {}
    }

    predicate AllDone(parent: Id) {
      CompanionsOf(parent) <= DoneOf(parent)
    }

    /** The companion table and the parent table are each other's inverse. */
    ghost predicate Inverse() {
      && ids == parentOf.Keys
      && (forall c :: c in parentOf ==> c in ValuesAt(companions, parentOf[c]))
      && (forall p, c :: c in ValuesAt(companions, p) ==> c in parentOf && parentOf[c] == p)
    }

    /** No companion plays two roles. */
    ghost predicate RolesDistinct() {
      forall p, a, b :: p in companions && a in companions[p] && b in companions[p] && a != b ==>
        companions[p][a] != companions[p][b]
    }

    ghost predicate Valid() {
      && Inverse()
      && companions.Keys == done.Keys
      && (forall p :: p in done ==> done[p] <= ValuesAt(companions, p))
      && (forall p :: p in pending ==> p in companions && !AllDone(p))
    }

    function RegisterParent(parent: Id): Tracker {
      this.(companions := if parent in companions then companions else companions[parent := map[]],
            done := if parent in done then done else done[parent := {}])
    }

    function RegisterCompanion(parent: Id, role: Role, companion: Id): Tracker {
      var t := RegisterParent(parent);
      var roles := if parent in companions then companions[parent] else map[];
      t.(companions := t.companions[parent := roles[role := companion]],
         ids := ids + {companion},
         parentOf := parentOf[companion := parent])
    }

    /** Is this the first report of a known companion's completion? */
    predicate NewlyDone(companion: Id) {
      companion in parentOf && companion !in DoneOf(parentOf[companion])
    }

    function MarkDone(companion: Id): Tracker {
      if !NewlyDone(companion) then this
      else
        var p := parentOf[companion];
        this.(done := done[p := DoneOf(p) + {companion}])
    }

    /** The parent `on_companion_completed` returns. */
    function Released(companion: Id): Option<Id> {
      if NewlyDone(companion) && parentOf[companion] in pending && MarkDone(companion).AllDone(parentOf[companion])
      then Some(parentOf[companion]) else None
    }

    function Defer(parent: Id, outputs: EngineOutputs, stage: nat): Tracker {
      this.(pending := pending[parent := Deferred(outputs, stage)])
    }

    function PopPending(parent: Id): Tracker {
      this.(pending := pending - {parent})
    }

    /** Everybody's companions. */
    function CompanionsOfAll(parents: set<Id>): set<Id> {
      set p, c | p in parents && c in CompanionsOf(p) :: c
    }

    function CleanupAll(parents: set<Id>): Tracker {
      Tracker(companions - parents, ids - CompanionsOfAll(parents), parentOf - CompanionsOfAll(parents),
              done - parents, pending - parents)
    }

    function CleanupParent(parent: Id): Tracker {
      CleanupAll({parent})
    }

    /** The ids that `abort_parents` treats as parents. */
    function ParentsAmong(requestIds: seq<Id>): set<Id> {
      set id | id in requestIds && id !in ids
    }
  }

  const EMPTY_TRACKER := Tracker(map[], {}, map[], map[], map[])

  // ---- What the operations keep ----

  lemma ValuesAfterUpdate(roles: map<Role, Id>, role: Role, companion: Id)
    requires companion !in roles.Values
    requires forall a, b :: a in roles && b in roles && a != b ==> roles[a] != roles[b]
    ensures roles[role := companion].Values
         == (if role in roles then roles.Values - {roles[role]} else roles.Values) + {companion}
  {
    var n := roles[role := companion];
    assert n[role] == companion;
    forall c | c in roles.Values && !(role in roles && c == roles[role]) ensures c in n.Values {
      var r :| r in roles && roles[r] == c;
      assert n[r] == c;
    }
  }

  lemma CompanionsAfterRegister(t: Tracker, parent: Id, role: Role, companion: Id)
    requires t.RolesDistinct() && companion !in t.CompanionsOf(parent)
    ensures var n := t.RegisterCompanion(parent, role, companion);
            && (forall p :: p != parent ==> ValuesAt(n.companions, p) == ValuesAt(t.companions, p))
            && ValuesAt(n.companions, parent)
               == (if parent in t.companions && role in t.companions[parent]
                   then ValuesAt(t.companions, parent) - {t.companions[parent][role]}
                   else ValuesAt(t.companions, parent)) + {companion}
  {
    var roles := if parent in t.companions then t.companions[parent] else map[];
    assert t.CompanionsOf(parent) == roles.Values;
    ValuesAfterUpdate(roles, role, companion);
    var n := t.RegisterCompanion(parent, role, companion);
    assert n.companions[parent] == roles[role := companion];
    forall p | p != parent ensures ValuesAt(n.companions, p) == ValuesAt(t.companions, p) {}
  }

  lemma RegisterKeepsRolesDistinct(t: Tracker, parent: Id, role: Role, companion: Id)
    requires t.Valid() && t.RolesDistinct() && companion !in t.ids
    ensures t.RegisterCompanion(parent, role, companion).RolesDistinct()
  {
    var roles := if parent in t.companions then t.companions[parent] else map[];
    assert companion !in t.CompanionsOf(parent);
    forall a | a in roles ensures roles[a] != companion {
      assert roles[a] in roles.Values;
    }
  }

  lemma CleanupKeepsRolesDistinct(t: Tracker, parents: set<Id>)
    requires t.RolesDistinct()
    ensures t.CleanupAll(parents).RolesDistinct()
  {
  }

  /** Registering a companion under a new id keeps the tables consistent exactly when the
      role is new for that parent: a replaced companion stays behind in the id tables. */
  lemma RegisterCompanionKeepsValid(t: Tracker, parent: Id, role: Role, companion: Id)
    requires t.Valid() && t.RolesDistinct() && companion !in t.ids
    ensures t.RegisterCompanion(parent, role, companion).Valid()
       <==> (parent in t.companions ==> role !in t.companions[parent])
  {
    var n := t.RegisterCompanion(parent, role, companion);
    NewCompanionIsNobodys(t, parent, companion);
    CompanionsAfterRegister(t, parent, role, companion);
    TablesAfterRegister(t, parent, role, companion);
    hide Tracker.Valid, Tracker.RolesDistinct;
    hide Tracker.RegisterCompanion;
    if parent in t.companions && role in t.companions[parent] {
      RoleIsPlayed(t, parent, role);
      hide ValuesAt;
      RegisterTakenRole(t, n, parent, t.companions[parent][role]);
    } else {
      hide ValuesAt;
      RegisterNewRole(t, n, parent, companion);
    }
  }

  lemma TablesAfterRegister(t: Tracker, parent: Id, role: Role, companion: Id)
    requires t.Valid()
    ensures var n := t.RegisterCompanion(parent, role, companion);
            && n.companions.Keys == n.done.Keys == t.companions.Keys + {parent}
            && n.ids == t.ids + {companion} && n.parentOf == t.parentOf[companion := parent] && n.pending == t.pending
            && n.done == if parent in t.done then t.done else t.done[parent := {}]
  {
  }

  lemma NewCompanionIsNobodys(t: Tracker, parent: Id, companion: Id)
    requires t.Valid() && companion !in t.ids
    ensures companion !in t.CompanionsOf(parent)
  {
  }

  lemma RoleIsPlayed(t: Tracker, parent: Id, role: Role)
    requires t.Valid() && parent in t.companions && role in t.companions[parent]
    ensures t.companions[parent][role] in t.CompanionsOf(parent)
    ensures t.companions[parent][role] in t.parentOf && t.companions[parent][role] in t.ids
  {
    assert t.companions[parent][role] in t.companions[parent].Values;
    assert t.companions[parent][role] in ValuesAt(t.companions, parent);
  }

  lemma RegisterTakenRole(t: Tracker, n: Tracker, parent: Id, replaced: Id)
    requires t.Valid() && replaced in t.CompanionsOf(parent) && replaced !in n.CompanionsOf(parent)
    requires n.parentOf.Keys >= t.parentOf.Keys && n.parentOf[replaced] == t.parentOf[replaced]
    ensures !n.Valid()
  {
    OwnerOf(t, parent, replaced);
    hide ValuesAt;
    assert replaced in n.parentOf && n.parentOf[replaced] == parent;
    assert replaced !in ValuesAt(n.companions, parent);
  }

  lemma RegisterNewRole(t: Tracker, n: Tracker, parent: Id, companion: Id)
    requires t.Valid() && companion !in t.ids
    requires n.companions.Keys == n.done.Keys == t.companions.Keys + {parent}
    requires forall p :: p != parent ==> ValuesAt(n.companions, p) == ValuesAt(t.companions, p)
    requires ValuesAt(n.companions, parent) == ValuesAt(t.companions, parent) + {companion}
    requires n.ids == t.ids + {companion} && n.parentOf == t.parentOf[companion := parent] && n.pending == t.pending
    requires n.done == if parent in t.done then t.done else t.done[parent := {}]
    ensures n.Valid()
  {
    RegisterNewRoleInverts(t, n, parent, companion);
    hide ValuesAt, Tracker.Inverse;
    forall p | p in n.pending ensures !n.AllDone(p) {
      assert !(t.CompanionsOf(p) <= t.DoneOf(p));
    }
  }

  lemma RegisterNewRoleInverts(t: Tracker, n: Tracker, parent: Id, companion: Id)
    requires t.Inverse() && companion !in t.ids
    requires forall p :: p != parent ==> ValuesAt(n.companions, p) == ValuesAt(t.companions, p)
    requires ValuesAt(n.companions, parent) == ValuesAt(t.companions, parent) + {companion}
    requires n.ids == t.ids + {companion} && n.parentOf == t.parentOf[companion := parent]
    ensures n.Inverse()
  {
    hide ValuesAt;
  }

  lemma RegisterParentKeepsValid(t: Tracker, parent: Id)
    requires t.Valid()
    ensures t.RegisterParent(parent).Valid()
  {
  }

  /** A parent is handed back exactly when this report is the first one of the only
      companion it was still waiting for. */
  lemma ReleasedWhenLast(t: Tracker, companion: Id, parent: Id)
    requires t.Valid()
    ensures t.Released(companion) == Some(parent) <==>
              parent in t.pending && t.CompanionsOf(parent) - t.DoneOf(parent) == {companion}
  {
    if parent in t.pending && t.CompanionsOf(parent) - t.DoneOf(parent) == {companion} {
      assert companion in t.CompanionsOf(parent);
      assert t.CompanionsOf(parent) <= t.DoneOf(parent) + {companion};
    }
    if t.Released(companion) == Some(parent) {
      assert !(t.CompanionsOf(parent) <= t.DoneOf(parent));
    }
  }

  /** Reporting a companion again changes nothing and releases nobody. */
  lemma SecondReportIsIgnored(t: Tracker, companion: Id)
    requires t.Valid()
    ensures t.MarkDone(companion).MarkDone(companion) == t.MarkDone(companion)
    ensures t.MarkDone(companion).Released(companion) == None
  {
  }

  /** Between two handler calls no waiting parent could be released: the completion that
      makes it releasable also hands it back, and it is popped at once. */
  lemma CompletionKeepsValid(t: Tracker, companion: Id)
    requires t.Valid()
    ensures match t.Released(companion)
            case Some(p) => t.MarkDone(companion).PopPending(p).Valid() && !t.MarkDone(companion).Valid()
            case None => t.MarkDone(companion).Valid()
  {
    hide ValuesAt, Tracker.Inverse, Tracker.MarkDone, Tracker.DoneOf;
    var n := t.MarkDone(companion);
    CompletionKeepsTables(t, companion);
    forall p | p in n.pending && t.Released(companion) != Some(p) ensures !n.AllDone(p) {
      StillWaits(t, companion, p);
    }
    if t.Released(companion).Some? {
      ReleasableIsInvalid(n, t.Released(companion).value);
      ValidOncePopped(n, t.Released(companion).value);
    }
  }

  lemma ValidOncePopped(t: Tracker, p: Id)
    requires t.Inverse() && t.companions.Keys == t.done.Keys
    requires forall q :: q in t.done ==> t.done[q] <= ValuesAt(t.companions, q)
    requires forall q :: q in t.pending && q != p ==> q in t.companions && !t.AllDone(q)
    ensures t.PopPending(p).Valid()
  {
  }

  lemma ReleasableIsInvalid(t: Tracker, p: Id)
    requires p in t.pending && t.AllDone(p)
    ensures !t.Valid()
  {
  }

  lemma StillWaits(t: Tracker, companion: Id, p: Id)
    requires p in t.pending && !t.AllDone(p) && t.Released(companion) != Some(p)
    ensures !t.MarkDone(companion).AllDone(p)
  {
    hide ValuesAt;
  }

  lemma CompletionKeepsTables(t: Tracker, companion: Id)
    requires t.Valid()
    ensures t.MarkDone(companion).Inverse() && t.MarkDone(companion).companions == t.companions
    ensures t.MarkDone(companion).done.Keys == t.done.Keys
    ensures t.MarkDone(companion).pending == t.pending
    ensures forall p :: p in t.done ==> t.MarkDone(companion).done[p] <= t.CompanionsOf(p)
    ensures forall p :: !(t.NewlyDone(companion) && p == t.parentOf[companion]) ==>
              t.MarkDone(companion).DoneOf(p) == t.DoneOf(p)
  {
    hide ValuesAt;
    if t.NewlyDone(companion) {
      ParentIsRegistered(t, companion);
      assert companion in t.CompanionsOf(t.parentOf[companion]);
    }
  }

  lemma DeferKeepsValid(t: Tracker, parent: Id, outputs: EngineOutputs, stage: nat)
    requires t.Valid()
    ensures t.Defer(parent, outputs, stage).Valid() <==> parent in t.companions && !t.AllDone(parent)
  {
    assert parent in t.Defer(parent, outputs, stage).pending;
  }

  lemma CompanionsAfterCleanup(t: Tracker, parents: set<Id>, p: Id)
    ensures t.CleanupAll(parents).CompanionsOf(p) == if p in parents then {} else t.CompanionsOf(p)
    ensures t.CleanupAll(parents).DoneOf(p) == if p in parents then {} else t.DoneOf(p)
  {
  }

  lemma OwnerOf(t: Tracker, p: Id, c: Id)
    requires t.Inverse() && c in t.CompanionsOf(p)
    ensures c in t.parentOf && t.parentOf[c] == p
  {
    assert c in ValuesAt(t.companions, p);
  }

  lemma OwnerStays(t: Tracker, parents: set<Id>, c: Id)
    requires t.Inverse() && c in t.parentOf && c !in t.CompanionsOfAll(parents)
    ensures t.parentOf[c] !in parents
    ensures c in t.CleanupAll(parents).CompanionsOf(t.parentOf[c])
  {
    assert c in t.CompanionsOf(t.parentOf[c]);
    CompanionsNotShared(t, parents, t.parentOf[c], c);
    CompanionsAfterCleanup(t, parents, t.parentOf[c]);
  }

  lemma CompanionsNotShared(t: Tracker, parents: set<Id>, p: Id, c: Id)
    requires t.Inverse() && c in t.CompanionsOf(p)
    ensures c in t.CompanionsOfAll(parents) <==> p in parents
  {
    var all := t.CompanionsOfAll(parents);
    if p in parents {
      assert c in all;
    }
    if c in all {
      var q :| q in parents && c in t.CompanionsOf(q);
      OwnerOf(t, p, c);
      OwnerOf(t, q, c);
    }
  }

  lemma CleanupKeepsInverse(t: Tracker, parents: set<Id>)
    requires t.Inverse()
    ensures t.CleanupAll(parents).Inverse()
  {
    var n := t.CleanupAll(parents);
    hide ValuesAt, Tracker.CompanionsOfAll;
    forall c | c in n.parentOf ensures c in ValuesAt(n.companions, n.parentOf[c]) {
      OwnerStays(t, parents, c);
    }
    forall p, c | c in ValuesAt(n.companions, p) ensures c in n.parentOf && n.parentOf[c] == p {
      CompanionsAfterCleanup(t, parents, p);
      assert c in n.CompanionsOf(p) && p !in parents && c in t.CompanionsOf(p);
      CompanionsNotShared(t, parents, p, c);
      OwnerOf(t, p, c);
    }
  }

  lemma CleanupKeepsValid(t: Tracker, parents: set<Id>)
    requires t.Valid()
    ensures t.CleanupAll(parents).Valid()
  {
    var n := t.CleanupAll(parents);
    CleanupKeepsInverse(t, parents);
    hide Tracker.CompanionsOfAll, Tracker.Inverse, ValuesAt;
    forall p ensures n.CompanionsOf(p) == (if p in parents then {} else t.CompanionsOf(p))
                     && n.DoneOf(p) == (if p in parents then {} else t.DoneOf(p)) {
      CompanionsAfterCleanup(t, parents, p);
    }
    forall p | p in n.done ensures n.done[p] <= ValuesAt(n.companions, p) {
      assert n.done[p] == n.DoneOf(p) && ValuesAt(n.companions, p) == n.CompanionsOf(p);
    }
    forall p | p in n.pending ensures p in n.companions && !n.AllDone(p) {
      assert !t.AllDone(p);
    }
  }

  /** None of the five tables mentions a cleaned-up parent any more, neither as a key nor
      through one of its companions, and nobody else's entries are touched. */
  lemma CleanupLeavesNoTrace(t: Tracker, parents: set<Id>, p: Id)
    requires t.Valid() && p in parents
    ensures var n := t.CleanupAll(parents);
            && p !in n.companions && p !in n.done && p !in n.pending
            && (forall c :: c in n.parentOf ==> n.parentOf[c] != p)
            && n.ids !! t.CompanionsOf(p)
    ensures forall q :: q !in parents ==>
              && t.CleanupAll(parents).CompanionsOf(q) == t.CompanionsOf(q)
              && t.CleanupAll(parents).DoneOf(q) == t.DoneOf(q)
              && (q in t.CleanupAll(parents).pending <==> q in t.pending)
              && t.CompanionsOf(q) <= t.CleanupAll(parents).ids
  {
    var n := t.CleanupAll(parents);
    CompanionsAfterCleanup(t, parents, p);
    hide ValuesAt;
    forall c | c in n.parentOf ensures n.parentOf[c] != p {
      assert c in t.CompanionsOf(t.parentOf[c]);
    }
    forall q | q !in parents ensures n.CompanionsOf(q) == t.CompanionsOf(q) && t.CompanionsOf(q) <= n.ids {
      CompanionsAfterCleanup(t, parents, q);
      forall c | c in t.CompanionsOf(q) ensures c in n.ids {
        CompanionsNotShared(t, parents, q, c);
      }
    }
    forall c | c in t.CompanionsOf(p) ensures c !in n.ids {
      CompanionsNotShared(t, parents, p, c);
    }
  }

  lemma CleanupOneMore(t: Tracker, parents: set<Id>, p: Id)
    requires p !in parents
    ensures t.CleanupAll(parents + {p}) == t.CleanupAll(parents).CleanupParent(p)
    ensures t.CleanupAll(parents).CompanionsOf(p) == t.CompanionsOf(p)
  {
    var n := t.CleanupAll(parents);
    CompanionsAfterCleanup(t, parents, p);
    CompanionsOfOne(t, p);
    CompanionsOfOne(n, p);
    CompanionsOfOneMore(t, parents, p);
    hide ValuesAt, Tracker.CompanionsOfAll;
    assert t.ids - (t.CompanionsOfAll(parents) + t.CompanionsOf(p)) == n.ids - t.CompanionsOf(p);
    assert t.parentOf - (t.CompanionsOfAll(parents) + t.CompanionsOf(p)) == n.parentOf - t.CompanionsOf(p);
    assert t.companions - (parents + {p}) == n.companions - {p};
    assert t.done - (parents + {p}) == n.done - {p};
    assert t.pending - (parents + {p}) == n.pending - {p};
  }

  lemma CompanionsOfOne(t: Tracker, p: Id)
    ensures t.CompanionsOfAll({p}) == t.CompanionsOf(p)
  {
  }

  // ---- The class ----

  class CfgCompanionTracker {
    var companionMap: map<Id, map<Role, Id>>
    var companionIds: set<Id>
    var companionToParent: map<Id, Id>
    var done: map<Id, set<Id>>
    var pendingParents: map<Id, Deferred>

    function State(): Tracker
      reads this
    {
      Tracker(companionMap, companionIds, companionToParent, done, pendingParents)
    }

    constructor ()
      ensures State() == EMPTY_TRACKER
    {
      companionMap, companionIds, companionToParent, done, pendingParents := map[], {}, map[], map[], map[];
    }

    method Register(parent: Id)
      modifies this
      ensures State() == old(State()).RegisterParent(parent)
    {
      if parent !in companionMap { companionMap := companionMap[parent := map[]]; }
      if parent !in done { done := done[parent := {}]; }
    }

    method RegisterCompanionRequest(parent: Id, role: Role, companion: Id)
      modifies this
      ensures State() == old(State()).RegisterCompanion(parent, role, companion)
    {
      Register(parent);
      companionMap := companionMap[parent := companionMap[parent][role := companion]];
      companionIds := companionIds + {companion};
      companionToParent := companionToParent[companion := parent];
    }

    method OnCompanionCompleted(companion: Id) returns (released: Option<Id>)
      requires State().Valid()
      modifies this`done
      ensures State() == old(State()).MarkDone(companion)
      ensures released == old(State()).Released(companion)
    {
      released := None;
      if companion !in companionToParent { return; }
      var parent := companionToParent[companion];
      ParentIsRegistered(State(), companion);
      if companion in done[parent] { return; }
      done := done[parent := done[parent] + {companion}];
      if parent in pendingParents && State().AllDone(parent) {
        released := Some(parent);
      }
    }

    method DeferParent(parent: Id, outputs: EngineOutputs, stage: nat)
      modifies this`pendingParents
      ensures State() == old(State()).Defer(parent, outputs, stage)
    {
      pendingParents := pendingParents[parent := Deferred(outputs, stage)];
    }

    method PopPendingParent(parent: Id) returns (deferred: Option<Deferred>)
      modifies this`pendingParents
      ensures State() == old(State()).PopPending(parent)
      ensures deferred == if parent in old(pendingParents) then Some(old(pendingParents)[parent]) else None
    {
      deferred := if parent in pendingParents then Some(pendingParents[parent]) else None;
      pendingParents := pendingParents - {parent};
    }

    method Cleanup(parent: Id) returns (companions: set<Id>)
      modifies this
      ensures State() == old(State()).CleanupParent(parent)
      ensures companions == old(State()).CompanionsOf(parent)
    {
      ghost var before := State();
      companions := if parent in companionMap then companionMap[parent].Values else {};
      CompanionsOfOne(before, parent);
      companionMap := companionMap - {parent};
      companionIds := companionIds - companions;
      companionToParent := companionToParent - companions;
      done := done - {parent};
      pendingParents := pendingParents - {parent};
    }

    /** Everything to abort: the given ids, then the companions of the given parents, each
        once and none that was given. */
    method AbortParents(requestIds: seq<Id>) returns (all: seq<Id>)
      requires State().Valid()
      modifies this
      ensures State() == old(State()).CleanupAll(old(State()).ParentsAmong(requestIds))
      ensures requestIds <= all && NoDuplicates(all[|requestIds|..])
      ensures forall id :: id in all[|requestIds|..] <==>
                id !in requestIds && id in old(State()).CompanionsOfAll(old(State()).ParentsAmong(requestIds))
    {
      ghost var before := State();
      var parents := set id | id in requestIds && id !in companionIds;
      var added: seq<Id> := [];
      var todo := parents;
      CleanupNobody(before);
      assert parents - todo == {};
      while todo != {}
        invariant todo <= parents
        invariant State() == before.CleanupAll(parents - todo)
        invariant NoDuplicates(added)
        invariant forall id :: id in added <==> id !in requestIds && id in before.CompanionsOfAll(parents - todo)
        decreases |todo|
      {
        var parent :| parent in todo;
        ghost var seen := parents - todo;
        todo := todo - {parent};
        assert parents - todo == seen + {parent};
        CleanupOneMore(before, seen, parent);
        var companions := Cleanup(parent);
        CompanionsOfOneMore(before, seen, parent);
        added := AppendNew(added, requestIds, companions);
      }
      assert parents - todo == parents;
      all := requestIds + added;
      assert all[|requestIds|..] == added;
    }
  }

  lemma ParentIsRegistered(t: Tracker, companion: Id)
    requires t.Valid() && companion in t.parentOf
    ensures t.parentOf[companion] in t.done
  {
    assert companion in t.CompanionsOf(t.parentOf[companion]);
  }

  lemma CleanupNobody(t: Tracker)
    ensures t.CleanupAll({}) == t && t.CompanionsOfAll({}) == {}
  {
    assert t.CompanionsOfAll({}) == {};
  }

  lemma CompanionsOfOneMore(t: Tracker, parents: set<Id>, p: Id)
    ensures t.CompanionsOfAll(parents + {p}) == t.CompanionsOfAll(parents) + t.CompanionsOf(p)
  {
  }

  /** Appends the members of a set that were neither given nor added before. */
  method AppendNew(added: seq<Id>, given: seq<Id>, extra: set<Id>) returns (r: seq<Id>)
    requires NoDuplicates(added)
    ensures NoDuplicates(r)
    ensures forall id :: id in r <==> id in added || (id in extra && id !in given)
  {
    r := added;
    var todo := extra;
    while todo != {}
      invariant todo <= extra && NoDuplicates(r)
      invariant forall id :: id in r <==> id in added || (id in extra - todo && id !in given)
      decreases |todo|
    {
      var id :| id in todo;
      todo := todo - {id};
      if id !in given && id !in r {
        r := r + [id];
      }
    }
  }
}
