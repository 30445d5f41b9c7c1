/**
 vllm_omni/config/stage_config.py: layering deploy configurations over their bases, and the
 runtime overrides of one stage.
 */
module StageConfig {
  import opened Common
  import opened OrderedDict
  import opened Decimal

  /** A YAML value; a mapping is compared as Python compares dicts, without order. */
  datatype Yaml = Scalar(id: int) | Mapping(fields: map<string, int>)

  type Fields = map<string, Yaml>

  predicate IsDeepKey(k: string) {
    k == "default_sampling_params" || k == "subtalker_sampling_params" || k == "engine_extras" || k == "engine_args"
  }

  // ---- One stage over another ----

  /** The value of a key both sides have. */
  function MergedValue(k: string, base: Yaml, overlay: Yaml): Yaml {
    if IsDeepKey(k) && base.Mapping? && overlay.Mapping? then Mapping(base.fields + overlay.fields) else overlay
  }

  function MergedAt(base: Fields, overlay: Fields, k: string): Yaml
    requires k in base || k in overlay
  {
    if k !in overlay then base[k] else if k !in base then overlay[k] else MergedValue(k, base[k], overlay[k])
  }

  /** `_deep_merge_stage`. */
  function DeepMerge(base: Fields, overlay: Fields): Fields {
    map k | k in base.Keys + overlay.Keys :: MergedAt(base, overlay, k)
  }

  method DeepMergeStage(base: Fields, overlay: Fields) returns (merged: Fields)
    ensures merged == DeepMerge(base, overlay)
  {
    merged := base;
    var todo := overlay.Keys;
    while todo != {}
      invariant todo <= overlay.Keys
      invariant merged.Keys == base.Keys + (overlay.Keys - todo)
      invariant forall k :: k in merged ==>
        merged[k] == if k in overlay && k !in todo then MergedAt(base, overlay, k) else base[k]
      decreases todo
    {
      var k :| k in todo;
      var v := overlay[k];
      if IsDeepKey(k) && v.Mapping? && k in merged && merged[k].Mapping? {
        merged := merged[k := Mapping(merged[k].fields + v.fields)];
      } else {
        merged := merged[k := v];
      }
      todo := todo - {k};
    }
  }

  /** Who wins, key by key: under a deep-merge key two mappings are joined, the overlay winning
      where both have a field; under any other key, and where one side is no mapping, the overlay
      wins if it has the key. */
  lemma MergedKeyByKey(base: Fields, overlay: Fields, k: string)
    ensures var deep := k in {"default_sampling_params", "subtalker_sampling_params", "engine_extras", "engine_args"};
            var m := DeepMerge(base, overlay);
            && (k in m <==> k in base || k in overlay)
            && (k in base && k !in overlay ==> m[k] == base[k])
            && (k in overlay && !(deep && k in base && base[k].Mapping? && overlay[k].Mapping?) ==> m[k] == overlay[k])
            && (deep && k in base && k in overlay && base[k].Mapping? && overlay[k].Mapping? ==>
                  m[k].Mapping? && JoinedFields(m[k].fields, base[k].fields, overlay[k].fields))
  {
  }

  ghost predicate JoinedFields(m: map<string, int>, base: map<string, int>, overlay: map<string, int>) {
    && (forall s :: s in m <==> s in base || s in overlay)
    && (forall s :: s in overlay ==> s in m && m[s] == overlay[s])
    && (forall s :: s in base && s !in overlay ==> s in m && m[s] == base[s])
  }

  /** Layers a mapping, something else, a mapping again: the middle layer cuts off the first
      when merged in order, and is forgotten when the upper two are merged first. */
  ghost predicate CutOff(a: Fields, b: Fields, c: Fields, k: string) {
    && IsDeepKey(k) && k in a && k in b && k in c
    && a[k].Mapping? && !b[k].Mapping? && c[k].Mapping?
    && !(a[k].fields.Keys <= c[k].fields.Keys)
  }

  /** Merging three stages is associative exactly when no key is cut off. */
  lemma StageMergeAssociatesExactly(a: Fields, b: Fields, c: Fields)
    ensures DeepMerge(DeepMerge(a, b), c) == DeepMerge(a, DeepMerge(b, c)) <==> forall k :: !CutOff(a, b, c, k)
  {
    var left, right := DeepMerge(DeepMerge(a, b), c), DeepMerge(a, DeepMerge(b, c));
    assert left.Keys == right.Keys;
    forall k | k in left ensures left[k] == right[k] <==> !CutOff(a, b, c, k) {
      FieldMergeAssociatesExactly(a, b, c, k);
    }
    if forall k :: !CutOff(a, b, c, k) {
      assert left == right;
    } else {
      var k :| CutOff(a, b, c, k);
      assert k in left;
    }
  }

  lemma FieldMergeAssociatesExactly(a: Fields, b: Fields, c: Fields, k: string)
    requires k in a || k in b || k in c
    ensures DeepMerge(DeepMerge(a, b), c)[k] == DeepMerge(a, DeepMerge(b, c))[k] <==> !CutOff(a, b, c, k)
  {
    if k in a && k in b && k in c && IsDeepKey(k) && a[k].Mapping? && c[k].Mapping? {
      var x, y := a[k].fields, c[k].fields;
      assert (x + y).Keys == x.Keys + y.Keys;
      assert x.Keys <= y.Keys <==> x + y == y by {
        if x.Keys <= y.Keys {
          assert x + y == y;
        } else {
          var z :| z in x.Keys && z !in y.Keys;
          assert z in x + y;
        }
      }
      if b[k].Mapping? {
        assert (x + b[k].fields) + y == x + (b[k].fields + y);
      }
    }
  }

  /** Deep-merge keys hold mappings. */
  ghost predicate DeepKeysHoldMappings(f: Fields) {
    forall k :: k in f && IsDeepKey(k) ==> f[k].Mapping?
  }

  lemma StageMergeAssociates(a: Fields, b: Fields, c: Fields)
    requires DeepKeysHoldMappings(b)
    ensures DeepMerge(DeepMerge(a, b), c) == DeepMerge(a, DeepMerge(b, c))
  {
    StageMergeAssociatesExactly(a, b, c);
  }

  // ---- Lists of stages ----

  /** Stages in order, each under its stage_id. */
  type Stages = Items<int, Fields>

  function MergeOne(stages: Stages, id: int, overlay: Fields): Stages {
    var found := Get(stages, id);
    Put(stages, id, if found.Some? then DeepMerge(found.value, overlay) else overlay)
  }

  function MergeInto(stages: Stages, overlays: Stages): Stages
    decreases |overlays|
  {
    if overlays == [] then stages else MergeInto(MergeOne(stages, overlays[0].0, overlays[0].1), overlays[1..])
  }

  /** `_merge_stage_lists`; a missing list is empty. */
  function MergeLists(base: Stages, overlays: Stages): Stages {
    MergeInto(PutAll([], base), overlays)
  }

  method MergeStageLists(base: Stages, overlays: Stages) returns (merged: Stages)
    ensures merged == MergeLists(base, overlays)
  {
    merged := [];
    assert base[0..] == base;
    for i := 0 to |base|
      invariant PutAll([], base) == PutAll(merged, base[i..])
    {
      assert base[i..][1..] == base[i + 1..];
      merged := Put(merged, base[i].0, base[i].1);
    }
    assert base[|base|..] == [];
    assert overlays[0..] == overlays;
    for i := 0 to |overlays|
      invariant MergeLists(base, overlays) == MergeInto(merged, overlays[i..])
    {
      assert overlays[i..][1..] == overlays[i + 1..];
      var (id, overlay) := overlays[i];
      var had := Get(merged, id);
      if had.Some? {
        var stage := DeepMergeStage(had.value, overlay);
        merged := Put(merged, id, stage);
      } else {
        merged := Put(merged, id, overlay);
      }
    }
    assert overlays[|overlays|..] == [];
  }

  ghost predicate StagesValid(s: Stages) {
    Unique(s) && forall e :: e in s ==> DeepKeysHoldMappings(e.1)
  }

  lemma ListIsItsOwnDict(s: Stages)
    requires Unique(s)
    ensures PutAll([], s) == s
  {
    assert [] + s == s;
    PutAllNew([], s);
  }

  lemma MergeOneKeepsValid(s: Stages, id: int, f: Fields)
    requires StagesValid(s) && DeepKeysHoldMappings(f)
    ensures StagesValid(MergeOne(s, id, f))
  {
    var found := Get(s, id);
    var v := if found.Some? then DeepMerge(found.value, f) else f;
    GotIsIn(s, id);
    PutKeys(s, id, v);
  }

  lemma {:induction false} MergeIntoKeepsValid(s: Stages, overlays: Stages)
    requires StagesValid(s) && StagesValid(overlays)
    ensures StagesValid(MergeInto(s, overlays))
    decreases |overlays|
  {
    if overlays != [] {
      ValidTail(overlays);
      MergeOneKeepsValid(s, overlays[0].0, overlays[0].1);
      MergeIntoKeepsValid(MergeOne(s, overlays[0].0, overlays[0].1), overlays[1..]);
    }
  }

  lemma ValidTail(s: Stages)
    requires s != [] && StagesValid(s)
    ensures StagesValid(s[1..]) && DeepKeysHoldMappings(s[0].1) && Get(s[1..], s[0].0).None?
  {
    assert s[0] in s;
    GetNoneIfLacks(s[1..], s[0].0);
  }

  /** Two updates of different keys commute when the first key is already there. */
  lemma {:induction false} PutsCommute<K, V>(d: Items<K, V>, k: K, v: V, j: K, w: V)
    requires k != j && Get(d, k).Some?
    ensures Put(Put(d, k, v), j, w) == Put(Put(d, j, w), k, v)
    decreases |d|
  {
    if d[0].0 == k {
      assert Put(d, k, v)[1..] == d[1..];
    } else if d[0].0 == j {
      assert Put(d, j, w)[1..] == d[1..];
    } else {
      PutsCommute(d[1..], k, v, j, w);
      assert Put(d, k, v)[1..] == Put(d[1..], k, v) && Put(d, j, w)[1..] == Put(d[1..], j, w);
    }
  }

  lemma MergeOnesCommute(d: Stages, i: int, f: Fields, j: int, g: Fields)
    requires i != j && Get(d, i).Some?
    ensures MergeOne(MergeOne(d, i, f), j, g) == MergeOne(MergeOne(d, j, g), i, f)
  {
    var v := DeepMerge(Get(d, i).value, f);
    var found := Get(d, j);
    var w := if found.Some? then DeepMerge(found.value, g) else g;
    GetPut(d, i, v, j);
    GetPut(d, j, w, i);
    PutsCommute(d, i, v, j, w);
  }

  /** Merging a stage the list has can be done before the stages of other ids. */
  lemma {:induction false} MergeOneEarlier(d: Stages, overlays: Stages, id: int, f: Fields)
    requires Get(d, id).Some? && Get(overlays, id).None?
    ensures MergeOne(MergeInto(d, overlays), id, f) == MergeInto(MergeOne(d, id, f), overlays)
    decreases |overlays|
  {
    if overlays != [] {
      var (j, g) := overlays[0];
      MergeOnesCommute(d, id, f, j, g);
      GetPut(d, j, MergeOneValue(d, j, g), id);
      MergeOneEarlier(MergeOne(d, j, g), overlays[1..], id, f);
    }
  }

  function MergeOneValue(d: Stages, id: int, f: Fields): Fields {
    var found := Get(d, id);
    if found.Some? then DeepMerge(found.value, f) else f
  }

  lemma {:induction false} PutTwice<K, V>(d: Items<K, V>, k: K, v: V, w: V)
    ensures Put(Put(d, k, v), k, w) == Put(d, k, w)
    decreases |d|
  {
    if d != [] && d[0].0 != k {
      PutTwice(d[1..], k, v, w);
      assert Put(d, k, v)[1..] == Put(d[1..], k, v);
    } else {
      assert Put(d, k, v)[0] == (k, v);
      if d != [] { assert Put(d, k, v)[1..] == d[1..]; } else { assert Put(d, k, v)[1..] == []; }
    }
  }

  /** Merging two stages of one id one after the other, or merged first. */
  lemma MergeOneTwice(d: Stages, id: int, f: Fields, g: Fields)
    requires DeepKeysHoldMappings(f)
    ensures MergeOne(MergeOne(d, id, f), id, g) == MergeOne(d, id, DeepMerge(f, g))
  {
    var found := Get(d, id);
    var v := MergeOneValue(d, id, f);
    GetPut(d, id, v, id);
    PutTwice(d, id, v, DeepMerge(v, g));
    if found.Some? { StageMergeAssociates(found.value, f, g); }
  }

  lemma {:induction false} MergeOneIntoOverlay(a: Stages, b: Stages, id: int, f: Fields)
    requires StagesValid(b)
    ensures MergeInto(a, MergeOne(b, id, f)) == MergeOne(MergeInto(a, b), id, f)
    decreases |b|
  {
    if b == [] {
      assert MergeOne(b, id, f) == [(id, f)] && [(id, f)][1..] == [];
    } else {
      var (j, g) := b[0];
      ValidTail(b);
      var next := MergeOne(a, j, g);
      if j == id {
        assert MergeOne(b, id, f) == [(id, DeepMerge(g, f))] + b[1..];
        assert ([(id, DeepMerge(g, f))] + b[1..])[1..] == b[1..];
        MergeOneTwice(a, id, g, f);
        GetPut(a, id, MergeOneValue(a, id, g), id);
        MergeOneEarlier(next, b[1..], id, f);
      } else {
        assert MergeOne(b, id, f) == [b[0]] + MergeOne(b[1..], id, f);
        assert ([b[0]] + MergeOne(b[1..], id, f))[1..] == MergeOne(b[1..], id, f);
        MergeOneIntoOverlay(next, b[1..], id, f);
      }
    }
  }

  lemma {:induction false} MergeIntoAssociates(a: Stages, b: Stages, c: Stages)
    requires StagesValid(b) && StagesValid(c)
    ensures MergeInto(MergeInto(a, b), c) == MergeInto(a, MergeInto(b, c))
    decreases |c|
  {
    if c != [] {
      var (id, f) := c[0];
      ValidTail(c);
      MergeOneIntoOverlay(a, b, id, f);
      MergeOneKeepsValid(b, id, f);
      MergeIntoAssociates(a, MergeOne(b, id, f), c[1..]);
    }
  }

  /** Merging lists of stages is associative, the order of the stages included. */
  lemma StageListsAssociate(a: Stages, b: Stages, c: Stages)
    requires StagesValid(a) && StagesValid(b) && StagesValid(c)
    ensures MergeLists(MergeLists(a, b), c) == MergeLists(a, MergeLists(b, c))
    ensures StagesValid(MergeLists(a, b))
  {
    MergeIntoKeepsValid(a, b);
    MergeIntoKeepsValid(b, c);
    ListIsItsOwnDict(a);
    ListIsItsOwnDict(b);
    ListIsItsOwnDict(MergeInto(a, b));
    MergeIntoAssociates(a, b, c);
  }

  lemma {:induction false} MergedIntoAt(d: Stages, overlays: Stages, id: int)
    requires Unique(overlays)
    ensures var below, above := Get(d, id), Get(overlays, id);
            Get(MergeInto(d, overlays), id)
            == if above.None? then below else if below.None? then above else Some(DeepMerge(below.value, above.value))
    decreases |overlays|
  {
    if overlays != [] {
      var (j, f) := overlays[0];
      GetNoneIfLacks(overlays[1..], j);
      GetPut(d, j, MergeOneValue(d, j, f), id);
      MergedIntoAt(MergeOne(d, j, f), overlays[1..], id);
    }
  }

  /** A merged list has the stages of both, those of one id merged. */
  lemma MergedListAt(base: Stages, overlays: Stages, id: int)
    requires Unique(base) && Unique(overlays)
    ensures var below, above := Get(base, id), Get(overlays, id);
            Get(MergeLists(base, overlays), id)
            == if above.None? then below else if below.None? then above else Some(DeepMerge(below.value, above.value))
  {
    ListIsItsOwnDict(base);
    MergedIntoAt(base, overlays, id);
  }

  // ---- Platforms and whole configurations ----

  /** One entry of `platforms:`; its `stages` apart from its other fields. */
  datatype Platform = Platform(fields: Fields, stages: Stages)
  type Platforms = map<string, Platform>

  const NO_PLATFORM: Platform := Platform(map[], [])

  function PlatformAt(ps: Platforms, name: string): Platform {
    if name in ps then ps[name] else NO_PLATFORM
  }

  function MergePlatform(base: Platform, overlay: Platform): Platform {
    Platform(base.fields + overlay.fields, MergeLists(base.stages, overlay.stages))
  }

  /** `_merge_platforms`; None stands for no platforms. */
  function MergePlatforms(base: Platforms, overlay: Platforms): Platforms {
    map p | p in base.Keys + overlay.Keys :: MergePlatform(PlatformAt(base, p), PlatformAt(overlay, p))
  }

  /** A deploy file: its scalar fields, its stages and its platforms. */
  datatype Deploy = Deploy(fields: Fields, stages: Stages, platforms: Platforms)

  function Overlay(base: Deploy, overlay: Deploy): Deploy {
    Deploy(base.fields + overlay.fields, MergeLists(base.stages, overlay.stages),
           MergePlatforms(base.platforms, overlay.platforms))
  }

  /** `resolve_deploy_yaml` on a file followed by its chain of base configurations. */
  function Resolve(chain: seq<Deploy>): Deploy
    requires chain != []
    decreases |chain|
  {
    if |chain| == 1 then chain[0] else Overlay(Resolve(chain[1..]), chain[0])
  }

  ghost predicate DeployValid(d: Deploy) {
    StagesValid(d.stages) && forall p :: p in d.platforms ==> StagesValid(d.platforms[p].stages)
  }

  lemma PlatformAtValid(d: Deploy, name: string)
    requires DeployValid(d)
    ensures StagesValid(PlatformAt(d.platforms, name).stages)
  {
  }

  lemma OverlayKeepsValid(a: Deploy, b: Deploy)
    requires DeployValid(a) && DeployValid(b)
    ensures DeployValid(Overlay(a, b))
  {
    MergeListsKeepsValid(a.stages, b.stages);
    var all := Overlay(a, b).platforms;
    forall p | p in all ensures StagesValid(all[p].stages) {
      PlatformAtValid(a, p);
      PlatformAtValid(b, p);
      MergeListsKeepsValid(PlatformAt(a.platforms, p).stages, PlatformAt(b.platforms, p).stages);
    }
  }

  lemma MergeListsKeepsValid(a: Stages, b: Stages)
    requires StagesValid(a) && StagesValid(b)
    ensures StagesValid(MergeLists(a, b))
  {
    ListIsItsOwnDict(a);
    MergeIntoKeepsValid(a, b);
  }

  lemma MergedPlatformAt(a: Platforms, b: Platforms, name: string)
    ensures PlatformAt(MergePlatforms(a, b), name) == MergePlatform(PlatformAt(a, name), PlatformAt(b, name))
  {
    assert MergePlatform(NO_PLATFORM, NO_PLATFORM) == NO_PLATFORM;
  }

  lemma MapsAssociate<K, V>(a: map<K, V>, b: map<K, V>, c: map<K, V>)
    ensures (a + b) + c == a + (b + c)
  {
  }

  lemma PlatformAssociates(x: Platform, y: Platform, z: Platform)
    requires StagesValid(x.stages) && StagesValid(y.stages) && StagesValid(z.stages)
    ensures MergePlatform(MergePlatform(x, y), z) == MergePlatform(x, MergePlatform(y, z))
  {
    StageListsAssociate(x.stages, y.stages, z.stages);
    MapsAssociate(x.fields, y.fields, z.fields);
  }

  lemma PlatformAssociatesAt(a: Deploy, b: Deploy, c: Deploy, p: string)
    requires DeployValid(a) && DeployValid(b) && DeployValid(c)
    ensures PlatformAt(MergePlatforms(MergePlatforms(a.platforms, b.platforms), c.platforms), p)
            == PlatformAt(MergePlatforms(a.platforms, MergePlatforms(b.platforms, c.platforms)), p)
  {
    PlatformAtValid(a, p);
    PlatformAtValid(b, p);
    PlatformAtValid(c, p);
    MergedPlatformAt(a.platforms, b.platforms, p);
    MergedPlatformAt(b.platforms, c.platforms, p);
    MergedPlatformAt(MergePlatforms(a.platforms, b.platforms), c.platforms, p);
    MergedPlatformAt(a.platforms, MergePlatforms(b.platforms, c.platforms), p);
    hide MergePlatforms, PlatformAt, MergePlatform;
    PlatformAssociates(PlatformAt(a.platforms, p), PlatformAt(b.platforms, p), PlatformAt(c.platforms, p));
  }

  lemma PlatformsAssociate(a: Deploy, b: Deploy, c: Deploy)
    requires DeployValid(a) && DeployValid(b) && DeployValid(c)
    ensures MergePlatforms(MergePlatforms(a.platforms, b.platforms), c.platforms)
            == MergePlatforms(a.platforms, MergePlatforms(b.platforms, c.platforms))
  {
    hide MergePlatform, DeployValid;
    var left := MergePlatforms(MergePlatforms(a.platforms, b.platforms), c.platforms);
    var right := MergePlatforms(a.platforms, MergePlatforms(b.platforms, c.platforms));
    assert left.Keys == right.Keys;
    forall p | p in left ensures left[p] == right[p] {
      PlatformAssociatesAt(a, b, c, p);
    }
  }

  /** Overlaying configurations is associative. */
  lemma OverlayAssociates(a: Deploy, b: Deploy, c: Deploy)
    requires DeployValid(a) && DeployValid(b) && DeployValid(c)
    ensures Overlay(Overlay(a, b), c) == Overlay(a, Overlay(b, c))
  {
    StageListsAssociate(a.stages, b.stages, c.stages);
    PlatformsAssociate(a, b, c);
    MapsAssociate(a.fields, b.fields, c.fields);
  }

  ghost function StageIn(stages: Stages, id: int): Fields {
    var f := Get(stages, id);
    if f.Some? then f.value else map[]
  }

  /** What a platform has in an overlaid configuration: the overlay's fields over the base's, and
      the stages of both, those of one id merged. */
  lemma OverlaidPlatform(base: Deploy, overlay: Deploy, name: string, id: int)
    requires DeployValid(base) && DeployValid(overlay)
    ensures var ps, below, above := Overlay(base, overlay).platforms, base.platforms, overlay.platforms;
            && (name in ps <==> name in below || name in above)
            && (name in above ==>
                  forall k :: k in above[name].fields ==>
                    k in ps[name].fields && ps[name].fields[k] == above[name].fields[k])
            && (name in below ==>
                  forall k :: k in below[name].fields && !(name in above && k in above[name].fields) ==>
                    k in ps[name].fields && ps[name].fields[k] == below[name].fields[k])
            && (name in ps ==>
                  StageIn(ps[name].stages, id)
                  == DeepMerge(if name in below then StageIn(below[name].stages, id) else map[],
                               if name in above then StageIn(above[name].stages, id) else map[]))
  {
    PlatformAtValid(base, name);
    PlatformAtValid(overlay, name);
    var x, y := PlatformAt(base.platforms, name).stages, PlatformAt(overlay.platforms, name).stages;
    MergedListAt(x, y, id);
    MergedStageIn(x, y, id);
    hide DeepMerge, MergeLists;
  }

  lemma MergedStageIn(base: Stages, overlays: Stages, id: int)
    requires Unique(base) && Unique(overlays)
    ensures StageIn(MergeLists(base, overlays), id) == DeepMerge(StageIn(base, id), StageIn(overlays, id))
  {
    MergedListAt(base, overlays, id);
    MergedWithNothing(StageIn(base, id));
    MergedWithNothing(StageIn(overlays, id));
    hide MergeLists, DeepMerge;
  }

  lemma MergedWithNothing(f: Fields)
    ensures DeepMerge(f, map[]) == f && DeepMerge(map[], f) == f
  {
  }

  ghost predicate ChainValid(chain: seq<Deploy>) {
    forall d :: d in chain ==> DeployValid(d)
  }

  lemma ChainParts(chain: seq<Deploy>)
    requires |chain| > 1 && ChainValid(chain)
    ensures ChainValid(chain[1..]) && DeployValid(chain[0])
  {
    assert chain[0] in chain;
  }

  /** Of the files of a chain the first one that has a top-level field decides it. */
  lemma {:induction false} FirstFileWins(chain: seq<Deploy>, k: string, i: nat)
    requires i < |chain| && forall j :: 0 <= j < i ==> k !in chain[j].fields
    ensures var d := Resolve(chain);
            && (k in chain[i].fields ==> k in d.fields && d.fields[k] == chain[i].fields[k])
            && (i == |chain| - 1 && k !in chain[i].fields ==> k !in d.fields)
    decreases |chain|
  {
    if |chain| > 1 && i > 0 {
      FirstFileWins(chain[1..], k, i - 1);
    }
  }

  /** The same for a key of one stage that is no deep-merge key, and for a field below one that is:
      the first file that has it there decides. */
  lemma {:induction false} FirstStageWins(chain: seq<Deploy>, id: int, k: string, i: nat)
    requires i < |chain| && ChainValid(chain)
    requires k !in {"default_sampling_params", "subtalker_sampling_params", "engine_extras", "engine_args"}
    requires forall j :: 0 <= j < i ==> k !in StageIn(chain[j].stages, id)
    ensures var f, at := StageIn(Resolve(chain).stages, id), StageIn(chain[i].stages, id);
            && (k in at ==> k in f && f[k] == at[k])
            && (i == |chain| - 1 && k !in at ==> k !in f)
    decreases |chain|
  {
    if |chain| > 1 {
      ChainParts(chain);
      ResolveIsValid(chain[1..]);
      var below, above := Resolve(chain[1..]), chain[0];
      MergedStageIn(below.stages, above.stages, id);
      MergedKeyByKey(StageIn(below.stages, id), StageIn(above.stages, id), k);
      hide DeepMerge, StageIn, MergeLists;
      if i > 0 { FirstStageWins(chain[1..], id, k, i - 1); }
    }
  }

  ghost predicate HasBelow(d: Deploy, id: int, k: string, s: string) {
    var f := StageIn(d.stages, id);
    k in f && f[k].Mapping? && s in f[k].fields
  }

  lemma DeepKeyHoldsMapping(d: Deploy, id: int, k: string)
    requires DeployValid(d) && IsDeepKey(k)
    ensures k in StageIn(d.stages, id) ==> StageIn(d.stages, id)[k].Mapping?
  {
    GotIsIn(d.stages, id);
  }

  lemma {:induction false} FirstBelowWins(chain: seq<Deploy>, id: int, k: string, s: string, i: nat)
    requires i < |chain| && ChainValid(chain)
    requires k in {"default_sampling_params", "subtalker_sampling_params", "engine_extras", "engine_args"}
    requires forall j :: 0 <= j < i ==> !HasBelow(chain[j], id, k, s)
    ensures var d := Resolve(chain);
            && (HasBelow(chain[i], id, k, s) ==>
                  && HasBelow(d, id, k, s)
                  && StageIn(d.stages, id)[k].fields[s] == StageIn(chain[i].stages, id)[k].fields[s])
            && (i == |chain| - 1 && !HasBelow(chain[i], id, k, s) ==> !HasBelow(d, id, k, s))
    decreases |chain|
  {
    if |chain| > 1 {
      ChainParts(chain);
      ResolveIsValid(chain[1..]);
      var below, above := Resolve(chain[1..]), chain[0];
      MergedStageIn(below.stages, above.stages, id);
      MergedKeyByKey(StageIn(below.stages, id), StageIn(above.stages, id), k);
      DeepKeyHoldsMapping(below, id, k);
      DeepKeyHoldsMapping(above, id, k);
      hide DeepMerge, StageIn, MergeLists;
      if i > 0 { FirstBelowWins(chain[1..], id, k, s, i - 1); }
    }
  }

  lemma {:induction false} ResolveIsValid(chain: seq<Deploy>)
    requires chain != [] && ChainValid(chain)
    ensures DeployValid(Resolve(chain))
    decreases |chain|
  {
    assert chain[0] in chain;
    if |chain| > 1 {
      ResolveIsValid(chain[1..]);
      OverlayKeepsValid(Resolve(chain[1..]), chain[0]);
    }
  }

  /** A chain can be cut anywhere: the files above the cut, resolved among themselves, are
      one overlay over the files below it. */
  lemma {:induction false} ResolveSplits(upper: seq<Deploy>, lower: seq<Deploy>)
    requires upper != [] && lower != [] && ChainValid(upper) && ChainValid(lower)
    ensures Resolve(upper + lower) == Overlay(Resolve(lower), Resolve(upper))
    decreases |upper|
  {
    var chain := upper + lower;
    assert chain[0] == upper[0] && chain[1..] == upper[1..] + lower;
    if |upper| == 1 {
      assert chain[1..] == lower;
    } else {
      ResolveSplits(upper[1..], lower);
      assert upper[0] in upper;
      ResolveIsValid(upper[1..]);
      ResolveIsValid(lower);
      OverlayAssociates(Resolve(lower), Resolve(upper[1..]), upper[0]);
    }
  }

  /** Overlays applied one after the other, the lowest first. */
  function Layered(base: Deploy, overlays: seq<Deploy>): Deploy
    decreases |overlays|
  {
    if overlays == [] then base else Layered(Overlay(base, overlays[0]), overlays[1..])
  }

  function Upwards(chain: seq<Deploy>): seq<Deploy> {
    if chain == [] then [] else Upwards(chain[1..]) + [chain[0]]
  }

  lemma {:induction false} LayeredOneMore(base: Deploy, overlays: seq<Deploy>, top: Deploy)
    ensures Layered(base, overlays + [top]) == Overlay(Layered(base, overlays), top)
    decreases |overlays|
  {
    if overlays == [] {
      assert [top][1..] == [] && overlays + [top] == [top];
    } else {
      assert (overlays + [top])[1..] == overlays[1..] + [top];
      LayeredOneMore(Overlay(base, overlays[0]), overlays[1..], top);
    }
  }

  /** Resolving from the top is layering from the bottom. */
  lemma {:induction false} ResolveIsLeftFold(chain: seq<Deploy>, base: Deploy)
    ensures Resolve(chain + [base]) == Layered(base, Upwards(chain))
    decreases |chain|
  {
    if chain == [] {
      assert chain + [base] == [base];
    } else {
      assert (chain + [base])[1..] == chain[1..] + [base];
      ResolveIsLeftFold(chain[1..], base);
      LayeredOneMore(base, Upwards(chain[1..]), chain[0]);
    }
  }

  // ---- Runtime overrides of one stage ----

  function DigitRun(s: string): (n: nat)
    ensures n <= |s| && (forall i :: 0 <= i < n ==> IsDigit(s[i])) && (n < |s| ==> !IsDigit(s[n]))
  {
    if s != "" && IsDigit(s[0]) then 1 + DigitRun(s[1..]) else 0
  }

  const STAGE: string := "stage_"

  /** A key of the form stage_<digits>_<name>. */
  function StageKey(key: string): Option<(nat, string)> {
    if |key| < |STAGE| || key[..|STAGE|] != STAGE then None
    else
      var rest := key[|STAGE|..];
      var n := DigitRun(rest);
      var id := DigitsValue(rest[..n], 0, false);
      if id.None? || n == |rest| || rest[n] != '_' || n + 1 == |rest| || '\n' in rest[n + 1..] then None
      else Some((id.value, rest[n + 1..]))
  }

  /** The parameter of the stage an override sets, if any. */
  function Applies(stage: nat, internal: set<string>, key: string): Option<string> {
    if key in internal then None
    else
      var s := StageKey(key);
      if s.None? then Some(key)
      else if s.value.0 == stage && s.value.1 !in internal then Some(s.value.1)
      else None
  }

  type Overrides = Items<string, Option<int>>

  function BuildFrom(result: Items<string, int>, stage: nat, overrides: Overrides,
                     internal: set<string>): Items<string, int>
    decreases |overrides|
  {
    if overrides == [] then result
    else
      var (key, value) := overrides[0];
      var param := Applies(stage, internal, key);
      BuildFrom(if value.Some? && param.Some? then Put(result, param.value, value.value) else result,
                stage, overrides[1..], internal)
  }

  method BuildStageRuntimeOverrides(stage: nat, overrides: Overrides, internal: set<string>)
    returns (result: Items<string, int>)
    ensures result == BuildFrom([], stage, overrides, internal)
  {
    result := [];
    assert overrides[0..] == overrides;
    for i := 0 to |overrides|
      invariant BuildFrom([], stage, overrides, internal) == BuildFrom(result, stage, overrides[i..], internal)
    {
      var (key, value) := overrides[i];
      assert overrides[i..][1..] == overrides[i + 1..];
      if value.None? || key in internal {
        continue;
      }
      var m := StageKey(key);
      if m.Some? {
        var (overrideStageId, paramName) := m.value;
        if overrideStageId == stage && paramName !in internal {
          result := Put(result, paramName, value.value);
        }
        continue;
      }
      result := Put(result, key, value.value);
    }
    assert overrides[|overrides|..] == [];
  }

  /** An override sets the parameter it names, for every stage or for the one named in its key;
      internal keys and parameters are never set. */
  ghost predicate Sets(stage: nat, internal: set<string>, key: string, param: string) {
    && key !in internal && param !in internal
    && match StageKey(key)
       case None => param == key
       case Some(k) => k == (stage, param)
  }

  lemma AppliesIfSets(stage: nat, internal: set<string>, key: string, param: string)
    ensures Applies(stage, internal, key) == Some(param) <==> Sets(stage, internal, key, param)
  {
  }

  /** The value of the last override, in order, that sets a parameter of the stage. */
  ghost function LastApplicable(stage: nat, overrides: Overrides, internal: set<string>, param: string): Option<int>
    decreases |overrides|
  {
    if overrides == [] then None
    else
      var (key, value) := overrides[|overrides| - 1];
      if value.Some? && Sets(stage, internal, key, param) then value
      else LastApplicable(stage, overrides[..|overrides| - 1], internal, param)
  }

  lemma {:induction false} BuildOneMore(result: Items<string, int>, stage: nat, overrides: Overrides,
                                        last: (string, Option<int>), internal: set<string>)
    ensures var before := BuildFrom(result, stage, overrides, internal);
            var param := Applies(stage, internal, last.0);
            BuildFrom(result, stage, overrides + [last], internal)
            == if last.1.Some? && param.Some? then Put(before, param.value, last.1.value) else before
    decreases |overrides|
  {
    if overrides == [] {
      assert overrides + [last] == [last] && [last][1..] == [];
    } else {
      var (key, value) := overrides[0];
      var param := Applies(stage, internal, key);
      assert (overrides + [last])[1..] == overrides[1..] + [last];
      BuildOneMore(if value.Some? && param.Some? then Put(result, param.value, value.value) else result,
                   stage, overrides[1..], last, internal);
    }
  }

  /** Each parameter has the value of the last applicable override, whether that one is for
      all stages or for this stage. */
  lemma {:induction false} LastApplicableWins(stage: nat, overrides: Overrides, internal: set<string>, param: string)
    ensures Get(BuildFrom([], stage, overrides, internal), param) == LastApplicable(stage, overrides, internal, param)
    decreases |overrides|
  {
    if overrides != [] {
      var n := |overrides| - 1;
      var (key, value) := overrides[n];
      assert overrides[..n] + [overrides[n]] == overrides;
      BuildOneMore([], stage, overrides[..n], overrides[n], internal);
      LastApplicableWins(stage, overrides[..n], internal, param);
      var p := Applies(stage, internal, key);
      AppliesIfSets(stage, internal, key, param);
      if value.Some? && p.Some? {
        GetPut(BuildFrom([], stage, overrides[..n], internal), p.value, value.value, param);
      }
    }
  }

  /** The overrides without those that name another stage. */
  function ForStage(stage: nat, overrides: Overrides): Overrides {
    if overrides == [] then []
    else
      var s := StageKey(overrides[0].0);
      (if s.Some? && s.value.0 != stage then [] else [overrides[0]]) + ForStage(stage, overrides[1..])
  }

  /** Overrides of other stages change nothing. */
  lemma {:induction false} OtherStagesDoNotMatter(result: Items<string, int>, stage: nat, overrides: Overrides,
                                                  internal: set<string>)
    ensures BuildFrom(result, stage, ForStage(stage, overrides), internal)
              == BuildFrom(result, stage, overrides, internal)
    decreases |overrides|
  {
    if overrides != [] {
      var (key, value) := overrides[0];
      var param := Applies(stage, internal, key);
      var next := if value.Some? && param.Some? then Put(result, param.value, value.value) else result;
      OtherStagesDoNotMatter(next, stage, overrides[1..], internal);
      var s := StageKey(key);
      if s.Some? && s.value.0 != stage {
        assert ForStage(stage, overrides) == ForStage(stage, overrides[1..]);
      } else {
        assert ForStage(stage, overrides)[1..] == ForStage(stage, overrides[1..]);
      }
    }
  }

  /** A key of the form stage_<digits>_<parameter>. */
  ghost predicate NamesStage(key: string, digits: string, param: string) {
    && key == "stage_" + digits + "_" + param
    && digits != "" && (forall i :: 0 <= i < |digits| ==> '0' <= digits[i] <= '9')
    && param != "" && '\n' !in param
  }

  /** Exactly such a key is read as a stage's, and then as that stage's and that parameter's. */
  lemma StageKeyReads(key: string)
    ensures StageKey(key).Some? <==> exists digits, param :: NamesStage(key, digits, param)
    ensures forall digits, param :: NamesStage(key, digits, param) ==>
              DigitsValue(digits, 0, false).Some?
              && StageKey(key) == Some((DigitsValue(digits, 0, false).value, param))
  {
    forall digits, param | NamesStage(key, digits, param)
      ensures DigitsValue(digits, 0, false).Some?
      ensures StageKey(key) == Some((DigitsValue(digits, 0, false).value, param))
    {
      NamedStageKey(digits, param);
    }
    if StageKey(key).Some? { KeyOfStage(key); }
  }

  lemma NamedStageKey(digits: string, param: string)
    requires NamesStage("stage_" + digits + "_" + param, digits, param)
    ensures DigitsValue(digits, 0, false).Some?
    ensures StageKey("stage_" + digits + "_" + param) == Some((DigitsValue(digits, 0, false).value, param))
  {
    var rest := digits + "_" + param;
    AllDigitsHaveValue(digits, 0, false);
    hide DigitsValue;
    StagePrefix(digits, param);
    DigitsEndAtUnderscore(digits, param);
    assert rest[..|digits|] == digits && rest[|digits| + 1..] == param;
  }

  lemma {:induction false} AllDigitsHaveValue(s: string, acc: nat, after: bool)
    requires forall i :: 0 <= i < |s| ==> IsDigit(s[i])
    ensures DigitsValue(s, acc, after).Some? <==> s != "" || after
    decreases |s|
  {
    if s != "" { AllDigitsHaveValue(s[1..], acc * 10 + (s[0] - '0') as nat, true); }
  }

  lemma KeyOfStage(key: string)
    requires StageKey(key).Some?
    ensures exists digits, param :: NamesStage(key, digits, param)
  {
    var rest := key[6..];
    var n := DigitRun(rest);
    AllDigitsHaveValue(rest[..n], 0, false);
    hide DigitsValue, DigitRun;
    assert rest == rest[..n] + "_" + rest[n + 1..];
    assert key == "stage_" + rest;
    ConcatAssociates("stage_", rest[..n] + "_", rest[n + 1..]);
    ConcatAssociates("stage_", rest[..n], "_");
    assert NamesStage(key, rest[..n], rest[n + 1..]);
  }

  /** The key printed for a stage is read as that stage's. */
  lemma PrintedStageKey(stage: nat, param: string)
    requires param != "" && '\n' !in param
    ensures StageKey("stage_" + NatText(stage) + "_" + param) == Some((stage, param))
  {
    NatTextIsDigits(stage);
    NatTextValue(stage);
    NamedStageKey(NatText(stage), param);
  }

  lemma StagePrefix(digits: string, param: string)
    ensures var key := STAGE + digits + "_" + param;
            |key| >= |STAGE| && key[..|STAGE|] == STAGE && key[|STAGE|..] == digits + "_" + param
  {
  }

  lemma {:induction false} DigitsEndAtUnderscore(digits: string, rest: string)
    requires forall i :: 0 <= i < |digits| ==> IsDigit(digits[i])
    ensures DigitRun(digits + "_" + rest) == |digits| && (digits + "_" + rest)[|digits|] == '_'
    decreases |digits|
  {
    var s := digits + "_" + rest;
    assert s == digits + ("_" + rest) && s[|digits|] == ("_" + rest)[0] == '_';
    if digits != [] {
      assert (digits + "_" + rest)[1..] == digits[1..] + "_" + rest;
      DigitsEndAtUnderscore(digits[1..], rest);
    }
  }
}
