/** `Schema`: the entity models reachable from a list of roots, merged so that every
    entity holder targets the one registered model of its target's name.

    The registry (`entityModelsByName`) is an insertion-ordered map from names to ids.
    It starts with the roots; every name met for the first time is registered before
    the holders of its model are merged, and a registered name is never re-assigned,
    so the merge terminates on cyclic reference graphs. */
module Schemas {
  import opened Seqs
  import opened OrderedMaps
  import opened Kotlin
  import opened Model

  /** A model as merging sees it: its name, its properties, its holders with their
      targets erased, and the name of each holder's target. */
  datatype Shape = Shape(name: string, properties: seq<Property>, holders: seq<EntityHolder>,
                         targetNames: seq<string>)

  /** The name of the model `h` targets. */
  function TargetName(models: map<Id, EntityModel>, h: EntityHolder): string {
    if h.target in models then models[h.target].name else ""
  }

  function ShapeOf(models: map<Id, EntityModel>, m: EntityModel): Shape {
    var hs := m.entityHolders;
    Shape(m.name, m.properties,
          seq(|hs|, k requires 0 <= k < |hs| => hs[k].(target := 0)),
          seq(|hs|, k requires 0 <= k < |hs| => TargetName(models, hs[k])))
  }

  /** What merging never changes: the ids and the shape of every model. A merge may
      only point a holder at another model of its target's name. */
  function Skeleton(models: map<Id, EntityModel>): map<Id, Shape> {
    map id | id in models :: ShapeOf(models, models[id])
  }

  /** The names of the models of a skeleton. */
  function NamesOf(skeleton: map<Id, Shape>): set<string> {
    set id | id in skeleton :: skeleton[id].name
  }

  /** Replacing a model by one of the same shape keeps the skeleton. */
  lemma SkeletonUpdate(models: map<Id, EntityModel>, id: Id, m: EntityModel)
    requires id in models && ShapeOf(models, m) == ShapeOf(models, models[id])
    ensures Skeleton(models[id := m]) == Skeleton(models)
  {
    var models' := models[id := m];
    assert m.name == ShapeOf(models, m).name;
    forall x | x in models
      ensures ShapeOf(models', models'[x]) == ShapeOf(models, models'[x])
    {
      var hs := models'[x].entityHolders;
      forall k | 0 <= k < |hs|
        ensures TargetName(models', hs[k]) == TargetName(models, hs[k])
      {
      }
    }
  }

  /** Equal skeletons agree on every model's name, properties and number of holders,
      and holder for holder on everything but the target, whose name they share. */
  lemma SkeletonHolders(models: map<Id, EntityModel>, models': map<Id, EntityModel>, id: Id)
    requires Closed(models) && Closed(models') && Skeleton(models') == Skeleton(models) && id in models
    ensures id in models' && models'[id].properties == models[id].properties
    ensures |models'[id].entityHolders| == |models[id].entityHolders|
    ensures forall k :: 0 <= k < |models[id].entityHolders| ==>
      var h, h' := models[id].entityHolders[k], models'[id].entityHolders[k];
      h' == h.(target := h'.target) && models'[h'.target].name == models[h.target].name
  {
    var hs, hs' := models[id].entityHolders, models'[id].entityHolders;
    assert Skeleton(models')[id] == Skeleton(models)[id];
    forall k | 0 <= k < |hs|
      ensures hs'[k] == hs[k].(target := hs'[k].target) && models'[hs'[k].target].name == models[hs[k].target].name
    {
      assert ShapeOf(models', models'[id]).holders[k] == ShapeOf(models, models[id]).holders[k];
      assert ShapeOf(models', models'[id]).targetNames[k] == ShapeOf(models, models[id]).targetNames[k];
    }
  }

  /** The registry maps every registered name to a model of that name. */
  predicate Consistent(models: map<Id, EntityModel>, registry: OrderedMap<Id>) {
    && registry.Valid()
    && forall n :: n in registry.values ==>
         registry.values[n] in models && models[registry.values[n]].name == n
  }

  /** Holder `k` of model `id` targets the model registered under its target's name. */
  predicate Canonical(models: map<Id, EntityModel>, registry: OrderedMap<Id>, id: Id, k: nat)
    requires id in models && k < |models[id].entityHolders|
  {
    var t := models[id].entityHolders[k].target;
    t in models && models[t].name in registry.values && registry.values[models[t].name] == t
  }

  /** Every holder of model `id` is canonical. */
  predicate AllCanonical(models: map<Id, EntityModel>, registry: OrderedMap<Id>, id: Id)
    requires id in models
  {
    forall k :: 0 <= k < |models[id].entityHolders| ==> Canonical(models, registry, id, k)
  }

  /** `after` is `before` with entries added at the end; no registered name changes. */
  predicate Extends(before: OrderedMap<Id>, after: OrderedMap<Id>) {
    && |before.keys| <= |after.keys| && after.keys[..|before.keys|] == before.keys
    && forall n :: n in before.values ==> n in after.values && after.values[n] == before.values[n]
  }

  lemma ExtendsTransitive(a: OrderedMap<Id>, b: OrderedMap<Id>, c: OrderedMap<Id>)
    requires Extends(a, b) && Extends(b, c)
    ensures Extends(a, c)
  {
    assert c.keys[..|a.keys|] == c.keys[..|b.keys|][..|a.keys|];
  }

  /** Model `id`, named `name`, was registered between `before` and `after`. */
  predicate NewlyRegistered(before: OrderedMap<Id>, after: OrderedMap<Id>, id: Id, name: string) {
    name !in before.values && name in after.values && after.values[name] == id
  }

  /** Equal skeletons agree on every model's name and number of holders. */
  lemma SkeletonAt(models: map<Id, EntityModel>, models': map<Id, EntityModel>, id: Id)
    requires Skeleton(models') == Skeleton(models) && id in models
    ensures id in models' && models'[id].name == models[id].name
    ensures |models'[id].entityHolders| == |models[id].entityHolders|
  {
    assert Skeleton(models')[id] == Skeleton(models)[id];
    assert |ShapeOf(models, models[id]).holders| == |models[id].entityHolders|;
  }

  /** Holder `k` of `id` once canonical stays canonical while the holder is untouched
      and the registry only grows. */
  lemma CanonicalKept(models: map<Id, EntityModel>, registry: OrderedMap<Id>,
                      models': map<Id, EntityModel>, registry': OrderedMap<Id>, id: Id, k: nat)
    requires id in models && k < |models[id].entityHolders| && Canonical(models, registry, id, k)
    requires id in models' && k < |models'[id].entityHolders|
    requires models'[id].entityHolders[k] == models[id].entityHolders[k]
    requires Skeleton(models') == Skeleton(models) && Extends(registry, registry')
    ensures Canonical(models', registry', id, k)
  {
    SkeletonAt(models, models', models[id].entityHolders[k].target);
  }

  /** A model left as it was stays canonical. */
  lemma AllCanonicalKept(models: map<Id, EntityModel>, registry: OrderedMap<Id>,
                         models': map<Id, EntityModel>, registry': OrderedMap<Id>, id: Id)
    requires id in models && AllCanonical(models, registry, id)
    requires id in models' && models'[id] == models[id]
    requires Skeleton(models') == Skeleton(models) && Extends(registry, registry')
    ensures AllCanonical(models', registry', id)
  {
    forall k | 0 <= k < |models'[id].entityHolders|
      ensures Canonical(models', registry', id, k)
    {
      CanonicalKept(models, registry, models', registry', id, k);
    }
  }

  /** Only `owner` and the models registered between `registry0` and `registry` changed. */
  ghost predicate Framed(models0: map<Id, EntityModel>, registry0: OrderedMap<Id>,
                         models: map<Id, EntityModel>, registry: OrderedMap<Id>, owner: Id)
  {
    forall x :: x in models0 && x != owner && !NewlyRegistered(registry0, registry, x, models0[x].name) ==>
      x in models && models[x] == models0[x]
  }

  /** Every model registered since `registry0` has only canonical holders. */
  ghost predicate FreshCanonical(registry0: OrderedMap<Id>, models: map<Id, EntityModel>, registry: OrderedMap<Id>)
  {
    forall x :: x in models && NewlyRegistered(registry0, registry, x, models[x].name) ==>
      AllCanonical(models, registry, x)
  }

  /** What a merge starting from `models0`, `registry0` on behalf of model `owner` leaves:
      a valid arena of the same skeleton (every holder keeps all but its target, and its
      new target has the old one's name) and a registry that only grew; `owner` keeps all
      but its holders; a model other than `owner` changes only if it was registered
      during the merge, and then all its holders are canonical. */
  ghost predicate MergedFrom(models0: map<Id, EntityModel>, registry0: OrderedMap<Id>,
                             models: map<Id, EntityModel>, registry: OrderedMap<Id>, owner: Id)
  {
    && Closed(models) && Consistent(models, registry)
    && Skeleton(models) == Skeleton(models0) && Extends(registry0, registry)
    && owner in models0 && owner in models
    && models[owner] == models0[owner].(entityHolders := models[owner].entityHolders)
    && Framed(models0, registry0, models, registry, owner)
    && FreshCanonical(registry0, models, registry)
  }

  /** The target names of the holders of the models `ids`. */
  function TargetNames(models: map<Id, EntityModel>, ids: set<Id>): set<string> {
    set x, k | x in ids && x in models && 0 <= k < |models[x].entityHolders| :: TargetName(models, models[x].entityHolders[k])
  }

  /** The models registered between `before` and `after`. */
  function RegisteredBetween(models: map<Id, EntityModel>, before: OrderedMap<Id>, after: OrderedMap<Id>): set<Id> {
    set x | x in models && NewlyRegistered(before, after, x, models[x].name)
  }

  /** Every name registered between `registry0` and `registry` is the target name of a
      holder of one of `sources` or of a model registered in between: a merge registers
      only names it reaches through holders. */
  ghost predicate Sourced(models0: map<Id, EntityModel>, registry0: OrderedMap<Id>, registry: OrderedMap<Id>,
                          sources: set<Id>)
  {
    registry.values.Keys - registry0.values.Keys
      <= TargetNames(models0, sources + RegisteredBetween(models0, registry0, registry))
  }

  /** Equal skeletons give every holder the same target name. */
  lemma SkeletonTargetName(models: map<Id, EntityModel>, models': map<Id, EntityModel>, x: Id, k: nat)
    requires Skeleton(models') == Skeleton(models) && x in models && k < |models[x].entityHolders|
    ensures x in models' && k < |models'[x].entityHolders|
    ensures TargetName(models', models'[x].entityHolders[k]) == TargetName(models, models[x].entityHolders[k])
  {
    SkeletonAt(models, models', x);
    assert Skeleton(models')[x].targetNames[k] == Skeleton(models)[x].targetNames[k];
  }

  /** Two merges, each registering only names it reaches, make one that registers only
      names reached from either's sources. */
  lemma SourcedTransitive(m0: map<Id, EntityModel>, r0: OrderedMap<Id>, m1: map<Id, EntityModel>,
                          r1: OrderedMap<Id>, r2: OrderedMap<Id>, s1: set<Id>, s2: set<Id>)
    requires Skeleton(m1) == Skeleton(m0) && Extends(r0, r1) && Extends(r1, r2)
    requires Sourced(m0, r0, r1, s1) && Sourced(m1, r1, r2, s2)
    ensures Sourced(m0, r0, r2, s1 + s2)
  {
    var sources := s1 + s2 + RegisteredBetween(m0, r0, r2);
    forall n | n in r2.values && n !in r0.values
      ensures n in TargetNames(m0, sources)
    {
      if n in r1.values {
        assert n in TargetNames(m0, s1 + RegisteredBetween(m0, r0, r1));
        var x, k :| x in s1 + RegisteredBetween(m0, r0, r1) && x in m0
          && 0 <= k < |m0[x].entityHolders| && TargetName(m0, m0[x].entityHolders[k]) == n;
        assert x in sources;
      } else {
        assert n in TargetNames(m1, s2 + RegisteredBetween(m1, r1, r2));
        var x, k :| x in s2 + RegisteredBetween(m1, r1, r2) && x in m1
          && 0 <= k < |m1[x].entityHolders| && TargetName(m1, m1[x].entityHolders[k]) == n;
        SkeletonTargetName(m1, m0, x, k);
        SkeletonAt(m1, m0, x);
        assert x in sources;
      }
    }
  }

  /** Registering the target of holder `k` of `owner` and then merging the target: the
      target's name comes right after the names registered before, and every name is
      reached from `owner`. */
  lemma RegisteredSourced(m0: map<Id, EntityModel>, r0: OrderedMap<Id>, r1: OrderedMap<Id>,
                          r2: OrderedMap<Id>, owner: Id, k: nat, t: Id)
    requires owner in m0 && k < |m0[owner].entityHolders| && m0[owner].entityHolders[k].target == t && t in m0
    requires m0[t].name !in r0.values && r1 == r0.Put(m0[t].name, t) && Extends(r1, r2)
    requires Sourced(m0, r1, r2, {t})
    ensures |r0.keys| < |r2.keys| && r2.keys[|r0.keys|] == m0[t].name
    ensures Sourced(m0, r0, r2, {owner})
  {
    var name := m0[t].name;
    assert r2.keys[|r0.keys|] == r2.keys[..|r1.keys|][|r0.keys|];
    var sources := {owner} + RegisteredBetween(m0, r0, r2);
    forall n | n in r2.values && n !in r0.values
      ensures n in TargetNames(m0, sources)
    {
      if n == name {
        assert TargetName(m0, m0[owner].entityHolders[k]) == n;
      } else {
        assert n in TargetNames(m0, {t} + RegisteredBetween(m0, r1, r2));
        var x, j :| x in {t} + RegisteredBetween(m0, r1, r2) && x in m0
          && 0 <= j < |m0[x].entityHolders| && TargetName(m0, m0[x].entityHolders[j]) == n;
        assert x in sources;
      }
    }
  }

  /** Two merges on behalf of the same registered owner make one. */
  lemma MergedTransitive(m0: map<Id, EntityModel>, r0: OrderedMap<Id>, m1: map<Id, EntityModel>,
                         r1: OrderedMap<Id>, m2: map<Id, EntityModel>, r2: OrderedMap<Id>, owner: Id)
    requires MergedFrom(m0, r0, m1, r1, owner) && MergedFrom(m1, r1, m2, r2, owner)
    requires m0[owner].name in r0.values
    ensures MergedFrom(m0, r0, m2, r2, owner)
  {
    ExtendsTransitive(r0, r1, r2);
    forall x | x in m0 && x != owner && !NewlyRegistered(r0, r2, x, m0[x].name)
      ensures x in m2 && m2[x] == m0[x]
    {
      SkeletonAt(m0, m1, x);
    }
    forall x | x in m2 && NewlyRegistered(r0, r2, x, m2[x].name)
      ensures AllCanonical(m2, r2, x)
    {
      SkeletonAt(m2, m1, x);
      SkeletonAt(m2, m0, x);
      SkeletonAt(m0, m1, owner);
      var name := m2[x].name;
      if name in r1.values {
        assert NewlyRegistered(r0, r1, x, m1[x].name);
        AllCanonicalKept(m1, r1, m2, r2, x);
      }
    }
  }

  /** `associateBy { it.name }` over the roots: each root under its name in order of
      first appearance; of several roots with one name the last one stays. */
  function InitialRegistry(models: map<Id, EntityModel>, roots: seq<Id>): (r: OrderedMap<Id>)
    requires forall i :: 0 <= i < |roots| ==> roots[i] in models
    ensures r.Valid()
  {
    PutAll(Empty(), seq(|roots|, i requires 0 <= i < |roots| => (models[roots[i]].name, roots[i])))
  }

  /** A root no later root shares a name with is the registered model of its name. */
  lemma InitialRegistryLastWins(models: map<Id, EntityModel>, roots: seq<Id>, i: nat)
    requires forall j :: 0 <= j < |roots| ==> roots[j] in models
    requires i < |roots|
    requires forall j :: i < j < |roots| ==> models[roots[j]].name != models[roots[i]].name
    ensures models[roots[i]].name in InitialRegistry(models, roots).values
    ensures InitialRegistry(models, roots).values[models[roots[i]].name] == roots[i]
  {
    var entries := seq(|roots|, j requires 0 <= j < |roots| => (models[roots[j]].name, roots[j]));
    assert entries[i].0 == models[roots[i]].name;
    LastEntry(entries, i);
  }

  /** The registry starts with a model of every root's name, each under its own name. */
  lemma InitialRegistryConsistent(models: map<Id, EntityModel>, roots: seq<Id>)
    requires forall j :: 0 <= j < |roots| ==> roots[j] in models
    ensures Consistent(models, InitialRegistry(models, roots))
    ensures forall j :: 0 <= j < |roots| ==> models[roots[j]].name in InitialRegistry(models, roots).values
    ensures forall n :: n in InitialRegistry(models, roots).values ==> InitialRegistry(models, roots).values[n] in roots
  {
    var entries := seq(|roots|, j requires 0 <= j < |roots| => (models[roots[j]].name, roots[j]));
    var r := InitialRegistry(models, roots);
    forall n | n in r.values
      ensures r.values[n] in models && models[r.values[n]].name == n && r.values[n] in roots
    {
      LastValueNamed(models, roots, entries, n);
    }
    forall j | 0 <= j < |roots|
      ensures models[roots[j]].name in r.values
    {
      assert entries[j].0 == models[roots[j]].name;
    }
  }

  /** The value kept for a name is a model of that name. */
  lemma {:induction false} LastValueNamed(models: map<Id, EntityModel>, roots: seq<Id>, entries: seq<(string, Id)>, n: string)
    requires forall j :: 0 <= j < |entries| ==>
      entries[j].1 in models && models[entries[j].1].name == entries[j].0 && entries[j].1 in roots
    requires n in KeysOf(entries)
    ensures LastValue(entries, n) in models && models[LastValue(entries, n)].name == n && LastValue(entries, n) in roots
  {
    var last := entries[|entries| - 1];
    if last.0 != n {
      var init := entries[..|entries| - 1];
      assert n in KeysOf(init) by {
        var i :| 0 <= i < |entries| && entries[i].0 == n;
        assert init[i] == entries[i];
      }
      LastValueNamed(models, roots, init, n);
    }
  }

  class Schema {
    /** Every entity model reachable from the roots, whether registered or not. */
    var models: map<Id, EntityModel>
    /** `entityModelsByName`. */
    var registry: OrderedMap<Id>

    /** The arena is closed and every registered name maps to a model of that name. */
    ghost predicate Valid()
      reads this
    {
      Closed(models) && Consistent(models, registry)
    }

    /** `entityModels`: the registered models in registration order, one per name, so
        no model is listed twice. */
    function EntityModels(): (r: seq<Id>)
      reads this
      requires Valid()
      ensures |r| == |registry.keys|
      ensures forall i :: 0 <= i < |r| ==> r[i] in models && models[r[i]].name == registry.keys[i]
      ensures NoDup(r)
    {
      ValueList(registry)
    }

    /** `dataClasses`: the data class of every registered model, in registration order. */
    function DataClasses(): (r: seq<KotlinModel>)
      reads this
      requires Valid()
      ensures |r| == |registry.keys|
      ensures forall i :: 0 <= i < |r| ==> r[i].DataClassRef? && r[i].id == EntityModels()[i]
    {
      var ids := EntityModels();
      seq(|ids|, i requires 0 <= i < |ids| => DataClassRef(ids[i]))
    }

    /** `Schema(entityModels)`: the registry starts as `associateBy { it.name }` over the
        roots; then every root is merged, and afterwards every root's data class is
        populated. In the end every registered model and every root has only canonical
        holders, and the data-class maps of exactly the roots are populated. */
    constructor (models: map<Id, EntityModel>, roots: seq<Id>, dataClasses: DataClassStore)
      requires Closed(models)
      requires forall j :: 0 <= j < |roots| ==> roots[j] in models && roots[j] in dataClasses.properties
      modifies dataClasses
      ensures Valid() && Skeleton(this.models) == Skeleton(models)
      ensures Extends(InitialRegistry(models, roots), registry)
      ensures forall n :: n in registry.values ==> AllCanonical(this.models, registry, registry.values[n])
      ensures forall j :: 0 <= j < |roots| ==> roots[j] in this.models && AllCanonical(this.models, registry, roots[j])
      ensures Sourced(models, InitialRegistry(models, roots), registry, Elements(roots))
      ensures dataClasses.properties
           == PopulatedAll(old(dataClasses.properties), this.models, Elements(roots))
    {
      this.models := models;
      this.registry := InitialRegistry(models, roots);
      new;
      InitialRegistryConsistent(models, roots);
      MergeRoots(roots);
      dataClasses.PopulateDataClasses(this.models, roots);
    }

    /** `entityModels.onEach { mergeEntityModel(it) }`. Every root's name is registered
        and every registered model is a root, as `associateBy` leaves them. */
    method MergeRoots(roots: seq<Id>)
      requires Valid()
      requires forall j :: 0 <= j < |roots| ==> roots[j] in models && models[roots[j]].name in registry.values
      requires forall n :: n in registry.values ==> registry.values[n] in roots
      modifies this
      ensures Valid() && Skeleton(models) == Skeleton(old(models)) && Extends(old(registry), registry)
      ensures forall n :: n in registry.values ==> AllCanonical(models, registry, registry.values[n])
      ensures forall j :: 0 <= j < |roots| ==> roots[j] in models && AllCanonical(models, registry, roots[j])
      ensures Sourced(old(models), old(registry), registry, Elements(roots))
    {
      RootsStart(models, registry, roots);
      var i := 0;
      while i < |roots|
        invariant i <= |roots| && Valid()
        invariant RootsProgress(old(models), old(registry), models, registry, roots, i)
      {
        ghost var models1, registry1 := models, registry;
        MergeEntityModel(roots[i]);
        RootsStep(old(models), old(registry), models1, registry1, models, registry, roots, i);
        i := i + 1;
      }
      RootsDone(old(models), old(registry), models, registry, roots);
    }

    /** The names of the arena not registered yet; merging a holder shrinks this set or
        leaves it alone, which bounds the recursion. */
    ghost function Unregistered(): set<string>
      reads this
    {
      NamesOf(Skeleton(models)) - registry.values.Keys
    }

    /** `mergeEntityHolder`: a holder whose target's name is registered is redirected to the
        registered model and the merge stops there; otherwise the target is registered
        under its name and its own holders are merged. */
    method MergeEntityHolder(owner: Id, k: nat)
      requires Valid() && owner in models && k < |models[owner].entityHolders|
      requires models[owner].name in registry.values
      modifies this
      ensures MergedFrom(old(models), old(registry), models, registry, owner)
      ensures k < |models[owner].entityHolders| && Canonical(models, registry, owner, k)
      ensures models[owner].entityHolders
           == old(models)[owner].entityHolders[k := models[owner].entityHolders[k]]
      ensures var h := old(models)[owner].entityHolders[k];
        var name := old(models)[h.target].name;
        if name in old(registry).values then
          registry == old(registry) && models[owner].entityHolders[k] == h.(target := registry.values[name])
        else
          && models[owner].entityHolders[k] == h && NewlyRegistered(old(registry), registry, h.target, name)
          && |old(registry).keys| < |registry.keys|
          && registry.keys[|old(registry).keys|] == name
          && Sourced(old(models), old(registry).Put(name, h.target), registry, {h.target})
      ensures Sourced(old(models), old(registry), registry, {owner})
      ensures Canonical(old(models), old(registry), owner, k) ==> models == old(models) && registry == old(registry)
      decreases |Unregistered()|, 1
    {
      var h := models[owner].entityHolders[k];
      if models[h.target].name in registry.values {
        RedirectHolder(owner, k);
        if Canonical(old(models), old(registry), owner, k) {
          assert models[owner].entityHolders == old(models)[owner].entityHolders;
          MergedIdle(old(models), registry, models, owner);
        }
      } else {
        RegisterTarget(owner, k);
      }
    }

    /** The registered case: `entHolder.entity.model = it`. */
    method RedirectHolder(owner: Id, k: nat)
      requires Valid() && owner in models && k < |models[owner].entityHolders|
      requires models[owner].name in registry.values
      requires models[models[owner].entityHolders[k].target].name in registry.values
      modifies this
      ensures MergedFrom(old(models), old(registry), models, registry, owner)
      ensures k < |models[owner].entityHolders| && Canonical(models, registry, owner, k)
      ensures models[owner].entityHolders
           == old(models)[owner].entityHolders[k := models[owner].entityHolders[k]]
      ensures registry == old(registry)
      ensures var h := old(models)[owner].entityHolders[k];
        models[owner].entityHolders[k] == h.(target := registry.values[old(models)[h.target].name])
    {
      var h := models[owner].entityHolders[k];
      var name := models[h.target].name;
      RedirectMerged(models, registry, owner, k);
      models := models[owner := Redirected(models[owner], k, registry.values[name])];
    }

    /** The new-name case: the target is registered under its name, then merged. */
    method RegisterTarget(owner: Id, k: nat)
      requires Valid() && owner in models && k < |models[owner].entityHolders|
      requires models[owner].name in registry.values
      requires models[models[owner].entityHolders[k].target].name !in registry.values
      modifies this
      ensures MergedFrom(old(models), old(registry), models, registry, owner)
      ensures k < |models[owner].entityHolders| && Canonical(models, registry, owner, k)
      ensures models[owner].entityHolders
           == old(models)[owner].entityHolders[k := models[owner].entityHolders[k]]
      ensures var h := old(models)[owner].entityHolders[k];
        var name := old(models)[h.target].name;
        && models[owner].entityHolders[k] == h && NewlyRegistered(old(registry), registry, h.target, name)
        && |old(registry).keys| < |registry.keys|
        && registry.keys[|old(registry).keys|] == name
        && Sourced(old(models), old(registry).Put(name, h.target), registry, {h.target})
      ensures Sourced(old(models), old(registry), registry, {owner})
      decreases |Unregistered()|, 0
    {
      var h := models[owner].entityHolders[k];
      var name := models[h.target].name;
      ghost var models0, registry0, before := models, registry, Unregistered();
      assert Skeleton(models)[h.target].name == name;
      registry := registry.Put(name, h.target);
      assert Unregistered() == before - {name};
      ghost var registry1 := registry;
      MergeEntityModel(h.target);
      RegisteredTarget(models0, registry0, registry1, models, registry, owner, k);
    }

    /** `mergeEntityModel`: merges the holders of a registered model one after the other. */
    method MergeEntityModel(id: Id)
      requires Valid() && id in models && models[id].name in registry.values
      modifies this
      ensures MergedFrom(old(models), old(registry), models, registry, id)
      ensures AllCanonical(models, registry, id)
      ensures AllCanonical(old(models), old(registry), id) ==> models == old(models) && registry == old(registry)
      ensures Sourced(old(models), old(registry), registry, {id})
      decreases |Unregistered()|, 3
    {
      MergedFromItself(models, registry, id);
      ghost var unregistered := |Unregistered()|;
      var i := 0;
      while i < |models[id].entityHolders|
        invariant MergedFrom(old(models), old(registry), models, registry, id)
        invariant |models[id].entityHolders| == |old(models)[id].entityHolders| && i <= |models[id].entityHolders|
        invariant forall j :: 0 <= j < i ==> Canonical(models, registry, id, j)
        invariant |Unregistered()| <= unregistered
        invariant AllCanonical(old(models), old(registry), id) ==> models == old(models) && registry == old(registry)
        invariant Sourced(old(models), old(registry), registry, {id})
      {
        MergeHolderStep(id, i, old(models), old(registry));
        i := i + 1;
      }
    }

    /** One pass of the loop of `mergeEntityModel`: holder `i` is merged, and the holders
        before it stay canonical. */
    method MergeHolderStep(id: Id, i: nat, ghost models0: map<Id, EntityModel>, ghost registry0: OrderedMap<Id>)
      requires MergedFrom(models0, registry0, models, registry, id) && models0[id].name in registry0.values
      requires i < |models[id].entityHolders|
      requires forall j :: 0 <= j < i ==> Canonical(models, registry, id, j)
      requires Sourced(models0, registry0, registry, {id})
      modifies this
      ensures MergedFrom(models0, registry0, models, registry, id)
      ensures Sourced(models0, registry0, registry, {id})
      ensures |models[id].entityHolders| == old(|models[id].entityHolders|)
      ensures forall j :: 0 <= j <= i ==> Canonical(models, registry, id, j)
      ensures |Unregistered()| <= old(|Unregistered()|)
      ensures Canonical(old(models), old(registry), id, i) ==> models == old(models) && registry == old(registry)
      decreases |Unregistered()|, 2
    {
      SkeletonAt(models0, models, id);
      ghost var models1, registry1 := models, registry;
      MergeEntityHolder(id, i);
      HolderStep(models0, registry0, models1, registry1, models, registry, id, i);
      SourcedTransitive(models0, registry0, models1, registry1, registry, {id}, {id});
      assert {id} + {id} == {id};
    }
  }

  /** What one pass of the loop of `mergeEntityModel` keeps. */
  lemma HolderStep(m0: map<Id, EntityModel>, r0: OrderedMap<Id>, m1: map<Id, EntityModel>, r1: OrderedMap<Id>,
                   m2: map<Id, EntityModel>, r2: OrderedMap<Id>, id: Id, i: nat)
    requires MergedFrom(m0, r0, m1, r1, id) && m0[id].name in r0.values
    requires i < |m1[id].entityHolders|
    requires forall j :: 0 <= j < i ==> Canonical(m1, r1, id, j)
    requires MergedFrom(m1, r1, m2, r2, id)
    requires i < |m2[id].entityHolders| && Canonical(m2, r2, id, i)
    requires m2[id].entityHolders == m1[id].entityHolders[i := m2[id].entityHolders[i]]
    ensures MergedFrom(m0, r0, m2, r2, id)
    ensures |m2[id].entityHolders| == |m1[id].entityHolders|
    ensures forall j :: 0 <= j <= i ==> Canonical(m2, r2, id, j)
    ensures |NamesOf(Skeleton(m2)) - r2.values.Keys| <= |NamesOf(Skeleton(m1)) - r1.values.Keys|
  {
    MergedTransitive(m0, r0, m1, r1, m2, r2, id);
    CanonicalPrefixKept(m1, r1, m2, r2, id, i);
    UnregisteredShrinks(m1, r1, m2, r2);
  }

  /** Redirecting holder `i` leaves the holders before it canonical. */
  lemma CanonicalPrefixKept(m1: map<Id, EntityModel>, r1: OrderedMap<Id>, m2: map<Id, EntityModel>,
                            r2: OrderedMap<Id>, id: Id, i: nat)
    requires id in m1 && id in m2 && i < |m1[id].entityHolders| && i < |m2[id].entityHolders|
    requires forall j :: 0 <= j < i ==> Canonical(m1, r1, id, j)
    requires Skeleton(m2) == Skeleton(m1) && Extends(r1, r2)
    requires m2[id].entityHolders == m1[id].entityHolders[i := m2[id].entityHolders[i]]
    ensures forall j :: 0 <= j < i ==> Canonical(m2, r2, id, j)
  {
    forall j | 0 <= j < i
      ensures Canonical(m2, r2, id, j)
    {
      CanonicalKept(m1, r1, m2, r2, id, j);
    }
  }

  /** With the skeleton kept and the registry grown, no name becomes unregistered. */
  lemma UnregisteredShrinks(m0: map<Id, EntityModel>, r0: OrderedMap<Id>, m1: map<Id, EntityModel>, r1: OrderedMap<Id>)
    requires Skeleton(m1) == Skeleton(m0) && Extends(r0, r1)
    ensures |NamesOf(Skeleton(m1)) - r1.values.Keys| <= |NamesOf(Skeleton(m0)) - r0.values.Keys|
  {
    SubsetCardinality(NamesOf(Skeleton(m1)) - r1.values.Keys, NamesOf(Skeleton(m0)) - r0.values.Keys);
  }

  lemma SubsetCardinality<T>(a: set<T>, b: set<T>)
    requires a <= b
    ensures |a| <= |b|
  {
    assert b == a + (b - a);
  }

  /** A merge that registered nothing and left its owner alone changed nothing. */
  lemma MergedIdle(m0: map<Id, EntityModel>, registry: OrderedMap<Id>, m: map<Id, EntityModel>, owner: Id)
    requires MergedFrom(m0, registry, m, registry, owner) && m[owner] == m0[owner]
    ensures m == m0
  {
    assert m.Keys == Skeleton(m).Keys == Skeleton(m0).Keys == m0.Keys;
  }

  /** A merge that has not started yet. */
  lemma MergedFromItself(models: map<Id, EntityModel>, registry: OrderedMap<Id>, owner: Id)
    requires Closed(models) && Consistent(models, registry) && owner in models
    ensures MergedFrom(models, registry, models, registry, owner)
  {
    assert registry.keys[..|registry.keys|] == registry.keys;
  }

  /** `m` with holder `k` pointed at `target`. */
  function Redirected(m: EntityModel, k: nat, target: Id): (r: EntityModel)
    requires k < |m.entityHolders|
    ensures r.name == m.name && |r.entityHolders| == |m.entityHolders|
  {
    m.(entityHolders := m.entityHolders[k := m.entityHolders[k].(target := target)])
  }

  /** Pointing a holder at another model of its target's name keeps the shape. */
  lemma RedirectedShape(models: map<Id, EntityModel>, m: EntityModel, k: nat, target: Id)
    requires k < |m.entityHolders| && target in models
    requires models[target].name == TargetName(models, m.entityHolders[k])
    ensures ShapeOf(models, Redirected(m, k, target)) == ShapeOf(models, m)
  {
    var hs, hs' := m.entityHolders, Redirected(m, k, target).entityHolders;
    assert forall j :: 0 <= j < |hs| ==> hs'[j].(target := 0) == hs[j].(target := 0);
    assert forall j :: 0 <= j < |hs| ==> TargetName(models, hs'[j]) == TargetName(models, hs[j]);
  }

  /** Redirecting a holder to the registered model of its target's name is a merge on
      behalf of the holder's owner that makes the holder canonical. */
  lemma RedirectMerged(models: map<Id, EntityModel>, registry: OrderedMap<Id>, owner: Id, k: nat)
    requires Closed(models) && Consistent(models, registry) && owner in models
    requires k < |models[owner].entityHolders|
    requires models[models[owner].entityHolders[k].target].name in registry.values
    ensures var name := models[models[owner].entityHolders[k].target].name;
      var models' := models[owner := Redirected(models[owner], k, registry.values[name])];
      MergedFrom(models, registry, models', registry, owner) && Canonical(models', registry, owner, k)
  {
    var name := models[models[owner].entityHolders[k].target].name;
    var redirected := Redirected(models[owner], k, registry.values[name]);
    var models' := models[owner := redirected];
    RedirectedShape(models, models[owner], k, registry.values[name]);
    SkeletonUpdate(models, owner, redirected);
    MergedFromItself(models, registry, owner);
    assert Closed(models') by {
      forall id, j | id in models' && 0 <= j < |models'[id].entityHolders|
        ensures models'[id].entityHolders[j].target in models'
      {
        if id != owner || j != k {
          assert models'[id].entityHolders[j] == models[id].entityHolders[j];
        }
      }
    }
    SkeletonAt(models, models', registry.values[name]);
  }

  /** A merge that registered `target` first, then merged the target's holders, is a
      merge on behalf of the holder's owner that leaves the owner as it was. */
  lemma RegisteredMerge(m0: map<Id, EntityModel>, r0: OrderedMap<Id>, r1: OrderedMap<Id>,
                        m2: map<Id, EntityModel>, r2: OrderedMap<Id>, owner: Id, target: Id)
    requires Closed(m0) && Consistent(m0, r0) && owner in m0 && m0[owner].name in r0.values
    requires target in m0 && m0[target].name !in r0.values
    requires r1 == r0.Put(m0[target].name, target)
    requires MergedFrom(m0, r1, m2, r2, target) && AllCanonical(m2, r2, target)
    ensures MergedFrom(m0, r0, m2, r2, owner)
    ensures m2[owner] == m0[owner]
    ensures NewlyRegistered(r0, r2, target, m0[target].name)
  {
    RegisteredExtends(r0, r1, r2, m0[target].name, target);
    SkeletonAt(m0, m2, owner);
    SkeletonAt(m0, m2, target);
    assert !NewlyRegistered(r1, r2, owner, m0[owner].name);
    assert m2[owner] == m0[owner];
    RegisteredMergeFramed(m0, r0, r1, m2, r2, owner, target);
    RegisteredMergeCanonical(m0, r0, r1, m2, r2, target);
  }

  /** What `RegisterTarget` leaves: registering the target of holder `k` of `owner` and
      then merging the target is a merge on behalf of `owner`; the holder is left as it
      was and is canonical, and the target's name is registered right after the names
      registered before it, followed only by names reached from the target. */
  lemma RegisteredTarget(m0: map<Id, EntityModel>, r0: OrderedMap<Id>, r1: OrderedMap<Id>,
                         m2: map<Id, EntityModel>, r2: OrderedMap<Id>, owner: Id, k: nat)
    requires Closed(m0) && Consistent(m0, r0) && owner in m0 && m0[owner].name in r0.values
    requires k < |m0[owner].entityHolders|
    requires var t := m0[owner].entityHolders[k].target;
      && t in m0 && m0[t].name !in r0.values && r1 == r0.Put(m0[t].name, t)
      && MergedFrom(m0, r1, m2, r2, t) && AllCanonical(m2, r2, t) && Sourced(m0, r1, r2, {t})
    ensures MergedFrom(m0, r0, m2, r2, owner)
    ensures k < |m2[owner].entityHolders| && Canonical(m2, r2, owner, k)
    ensures m2[owner].entityHolders == m0[owner].entityHolders[k := m2[owner].entityHolders[k]]
    ensures var h := m0[owner].entityHolders[k];
      var name := m0[h.target].name;
      && m2[owner].entityHolders[k] == h && NewlyRegistered(r0, r2, h.target, name)
      && |r0.keys| < |r2.keys|
      && r2.keys[|r0.keys|] == name
      && Sourced(m0, r0.Put(name, h.target), r2, {h.target})
    ensures Sourced(m0, r0, r2, {owner})
  {
    var t := m0[owner].entityHolders[k].target;
    RegisteredMerge(m0, r0, r1, m2, r2, owner, t);
    RegisteredHolder(m0, m2, r2, owner, k);
    RegisteredSourced(m0, r0, r1, r2, owner, k, t);
  }

  /** Registering a new name and then growing the registry extends the registry and
      keeps the new name's model. */
  lemma RegisteredExtends(r0: OrderedMap<Id>, r1: OrderedMap<Id>, r2: OrderedMap<Id>, name: string, target: Id)
    requires r0.Valid() && name !in r0.values && r1 == r0.Put(name, target) && Extends(r1, r2)
    ensures Extends(r0, r1) && Extends(r0, r2) && NewlyRegistered(r0, r2, target, name)
  {
    assert Extends(r0, r1);
    ExtendsTransitive(r0, r1, r2);
  }

  /** The holder that led to the registration is left as it was and is canonical. */
  lemma RegisteredHolder(m0: map<Id, EntityModel>, m2: map<Id, EntityModel>, r2: OrderedMap<Id>, owner: Id, k: nat)
    requires owner in m0 && k < |m0[owner].entityHolders| && owner in m2 && m2[owner] == m0[owner]
    requires var t := m0[owner].entityHolders[k].target;
      t in m0 && Skeleton(m2) == Skeleton(m0) && m0[t].name in r2.values && r2.values[m0[t].name] == t
    ensures k < |m2[owner].entityHolders| && Canonical(m2, r2, owner, k)
    ensures m2[owner].entityHolders == m0[owner].entityHolders[k := m2[owner].entityHolders[k]]
  {
    SkeletonAt(m0, m2, m0[owner].entityHolders[k].target);
    assert m0[owner].entityHolders[k := m0[owner].entityHolders[k]] == m0[owner].entityHolders;
  }

  lemma RegisteredMergeFramed(m0: map<Id, EntityModel>, r0: OrderedMap<Id>, r1: OrderedMap<Id>,
                              m2: map<Id, EntityModel>, r2: OrderedMap<Id>, owner: Id, target: Id)
    requires target in m0 && NewlyRegistered(r0, r2, target, m0[target].name)
    requires Framed(m0, r1, m2, r2, target) && Extends(r0, r1)
    ensures Framed(m0, r0, m2, r2, owner)
  {
    forall x | x in m0 && x != owner && !NewlyRegistered(r0, r2, x, m0[x].name)
      ensures x in m2 && m2[x] == m0[x]
    {
      assert !NewlyRegistered(r1, r2, x, m0[x].name);
    }
  }

  lemma RegisteredMergeCanonical(m0: map<Id, EntityModel>, r0: OrderedMap<Id>, r1: OrderedMap<Id>,
                                 m2: map<Id, EntityModel>, r2: OrderedMap<Id>, target: Id)
    requires target in m2 && AllCanonical(m2, r2, target)
    requires target in m0 && m2[target].name == m0[target].name
    requires r1 == r0.Put(m0[target].name, target) && Extends(r1, r2)
    requires FreshCanonical(r1, m2, r2)
    ensures FreshCanonical(r0, m2, r2)
  {
    forall x | x in m2 && NewlyRegistered(r0, r2, x, m2[x].name)
      ensures AllCanonical(m2, r2, x)
    {
      if x != target {
        assert NewlyRegistered(r1, r2, x, m2[x].name);
      }
    }
  }

  /** Roots before `i` have been merged; a registered model that is not fully canonical
      yet is a root still to be merged. */
  ghost predicate RootsMerged(models: map<Id, EntityModel>, registry: OrderedMap<Id>, roots: seq<Id>, i: nat)
    requires i <= |roots|
  {
    && (forall j :: 0 <= j < |roots| ==> roots[j] in models && models[roots[j]].name in registry.values)
    && (forall j :: 0 <= j < i ==> AllCanonical(models, registry, roots[j]))
    && (forall n :: n in registry.values ==>
          registry.values[n] in models &&
          (AllCanonical(models, registry, registry.values[n]) || registry.values[n] in roots[i..]))
  }

  /** Where the loop over the roots stands after `i` roots, starting from `m0` and `r0`:
      the skeleton is kept, the registry only grew, the first `i` roots are merged, and
      only names reached from them were registered. */
  ghost predicate RootsProgress(m0: map<Id, EntityModel>, r0: OrderedMap<Id>, m: map<Id, EntityModel>,
                                r: OrderedMap<Id>, roots: seq<Id>, i: nat)
    requires i <= |roots|
  {
    && Skeleton(m) == Skeleton(m0) && Extends(r0, r)
    && RootsMerged(m, r, roots, i) && Sourced(m0, r0, r, Elements(roots[..i]))
  }

  /** Before the loop over the roots nothing is merged and nothing registered. */
  lemma RootsStart(m0: map<Id, EntityModel>, r0: OrderedMap<Id>, roots: seq<Id>)
    requires forall j :: 0 <= j < |roots| ==> roots[j] in m0 && m0[roots[j]].name in r0.values
    requires forall n :: n in r0.values ==> r0.values[n] in roots
    ensures RootsProgress(m0, r0, m0, r0, roots, 0)
  {
    assert r0.keys[..|r0.keys|] == r0.keys;
    assert roots[0..] == roots;
  }

  /** After the loop over the roots every root and every registered model is merged, and
      only names reached from the roots were registered. */
  lemma RootsDone(m0: map<Id, EntityModel>, r0: OrderedMap<Id>, m: map<Id, EntityModel>,
                  r: OrderedMap<Id>, roots: seq<Id>)
    requires RootsProgress(m0, r0, m, r, roots, |roots|)
    ensures Skeleton(m) == Skeleton(m0) && Extends(r0, r)
    ensures forall n :: n in r.values ==> AllCanonical(m, r, r.values[n])
    ensures forall j :: 0 <= j < |roots| ==> roots[j] in m && AllCanonical(m, r, roots[j])
    ensures Sourced(m0, r0, r, Elements(roots))
  {
    assert roots[..|roots|] == roots;
  }

  /** One pass of the loop over the roots: the merge of root `i` added to those before. */
  lemma RootsStep(m0: map<Id, EntityModel>, r0: OrderedMap<Id>, m1: map<Id, EntityModel>, r1: OrderedMap<Id>,
                  m2: map<Id, EntityModel>, r2: OrderedMap<Id>, roots: seq<Id>, i: nat)
    requires i < |roots| && RootsProgress(m0, r0, m1, r1, roots, i)
    requires MergedFrom(m1, r1, m2, r2, roots[i]) && AllCanonical(m2, r2, roots[i])
    requires Sourced(m1, r1, r2, {roots[i]})
    ensures Closed(m2) && Consistent(m2, r2) && RootsProgress(m0, r0, m2, r2, roots, i + 1)
  {
    RootStep(m1, r1, m2, r2, roots, i);
    SourcedTransitive(m0, r0, m1, r1, r2, Elements(roots[..i]), {roots[i]});
    ExtendsTransitive(r0, r1, r2);
    ElementsPrefix(roots, i);
  }

  /** Merging root `i` keeps the earlier roots canonical and makes root `i` canonical. */
  lemma RootStep(m1: map<Id, EntityModel>, r1: OrderedMap<Id>, m2: map<Id, EntityModel>, r2: OrderedMap<Id>,
                 roots: seq<Id>, i: nat)
    requires i < |roots| && RootsMerged(m1, r1, roots, i)
    requires MergedFrom(m1, r1, m2, r2, roots[i]) && AllCanonical(m2, r2, roots[i])
    ensures RootsMerged(m2, r2, roots, i + 1)
  {
    forall j | 0 <= j < |roots|
      ensures roots[j] in m2 && m2[roots[j]].name in r2.values
    {
      SkeletonAt(m1, m2, roots[j]);
    }
    forall j | 0 <= j < i
      ensures AllCanonical(m2, r2, roots[j])
    {
      if roots[j] != roots[i] {
        assert !NewlyRegistered(r1, r2, roots[j], m1[roots[j]].name);
        AllCanonicalKept(m1, r1, m2, r2, roots[j]);
      }
    }
    assert roots[i..] == [roots[i]] + roots[i + 1..];
    forall n | n in r2.values
      ensures r2.values[n] in m2
      ensures AllCanonical(m2, r2, r2.values[n]) || r2.values[n] in roots[i + 1..]
    {
      var x := r2.values[n];
      if n in r1.values && x != roots[i] && x !in roots[i + 1..] {
        assert !NewlyRegistered(r1, r2, x, m1[x].name);
        AllCanonicalKept(m1, r1, m2, r2, x);
      }
    }
  }

  /** Every data-class map of `p` populated from its model. */
  function Populations(p: Properties, models: map<Id, EntityModel>): Properties {
    map x | x in p && x in models :: Populated(p[x], models[x])
  }

  /** The data-class maps `p` with those in `ids` replaced by their entry in `q`. */
  function Replaced(p: Properties, q: Properties, ids: set<Id>): (r: Properties)
  {
    map x | x in p :: if x in ids && x in q then q[x] else p[x]
  }

  /** The data-class maps `p` with those of the models in `ids` populated. */
  function PopulatedAll(p: Properties, models: map<Id, EntityModel>, ids: set<Id>): Properties {
    Replaced(p, Populations(p, models), ids)
  }

  /** Populating one set of data classes and then another is populating their union. */
  lemma ReplacedUnion(p: Properties, q: Properties, a: set<Id>, b: set<Id>, c: set<Id>)
    requires c == a + b
    ensures Replaced(Replaced(p, q, a), q, b) == Replaced(p, q, c)
  {
  }

  /** Populating a data class again changes nothing: every map populated so far is
      already its own population. */
  lemma PopulationsStable(p: Properties, models: map<Id, EntityModel>, ids: set<Id>)
    ensures Populations(PopulatedAll(p, models, ids), models) == Populations(p, models)
  {
    var q := Populations(p, models);
    var cur := Replaced(p, q, ids);
    forall x | x in p && x in models
      ensures Populations(cur, models)[x] == q[x]
    {
      PopulatedTwice(p[x], models[x]);
    }
  }

  /** Populating one data class replaces its map and nothing else. */
  lemma PopulatedSingle(p: Properties, models: map<Id, EntityModel>, id: Id)
    requires id in p && id in models
    ensures p[id := Populated(p[id], models[id])] == PopulatedAll(p, models, {id})
  {
  }

  /** Populating a data class tree from a partly populated state. */
  lemma PopulatedAllUnion(p: Properties, models: map<Id, EntityModel>, a: set<Id>, b: set<Id>, c: set<Id>)
    requires c == a + b
    ensures PopulatedAll(PopulatedAll(p, models, a), models, b) == PopulatedAll(p, models, c)
  {
    PopulationsStable(p, models, a);
    ReplacedUnion(p, Populations(p, models), a, b, c);
  }

  /** After the constructor every root's data-class map holds one entry per attribute
      name of its model, beside what it held before. */
  lemma RootDataClassFields(p: Properties, models: map<Id, EntityModel>, roots: seq<Id>, j: nat)
    requires j < |roots| && roots[j] in p && roots[j] in models && p[roots[j]].Valid()
    ensures roots[j] in PopulatedAll(p, models, Elements(roots))
    ensures var q := PopulatedAll(p, models, Elements(roots))[roots[j]];
      && q.Valid()
      && q.values.Keys == p[roots[j]].values.Keys + (set a | a in Attributes(models[roots[j]]) :: a.Name())
  {
    var x := roots[j];
    assert x in Elements(roots);
    assert PopulatedAll(p, models, Elements(roots))[x] == Populated(p[x], models[x]);
    PopulatedKeys(p[x], models[x]);
  }

  /** The models reachable from `id` through holders, `id` included. */
  function Reach(models: map<Id, EntityModel>, ghost rank: map<Id, nat>, id: Id): (r: set<Id>)
    requires Ranked(models, rank) && id in models
    ensures id in r
    decreases rank[id], 1
  {
    ReachFrom(models, rank, id, |models[id].entityHolders|)
  }

  /** `id` and the models reachable through its first `k` holders. */
  function ReachFrom(models: map<Id, EntityModel>, ghost rank: map<Id, nat>, id: Id, k: nat): (r: set<Id>)
    requires Ranked(models, rank) && id in models && k <= |models[id].entityHolders|
    ensures id in r
    decreases rank[id], 0, k
  {
    if k == 0 then {id}
    else ReachFrom(models, rank, id, k - 1) + Reach(models, rank, models[id].entityHolders[k - 1].target)
  }

  lemma {:induction false} ReachFromContains(models: map<Id, EntityModel>, rank: map<Id, nat>, id: Id, k: nat, j: nat)
    requires Ranked(models, rank) && id in models && j < k <= |models[id].entityHolders|
    ensures Reach(models, rank, models[id].entityHolders[j].target) <= ReachFrom(models, rank, id, k)
    decreases k
  {
    if j < k - 1 {
      ReachFromContains(models, rank, id, k - 1, j);
    }
  }

  /** What `populateDataClassTree` populates is closed under holders: the target of every
      holder of a reached model is reached too. */
  lemma {:induction false} ReachClosed(models: map<Id, EntityModel>, rank: map<Id, nat>, id: Id, x: Id, k: nat)
    requires Ranked(models, rank) && id in models
    requires x in Reach(models, rank, id) && x in models && k < |models[x].entityHolders|
    ensures models[x].entityHolders[k].target in Reach(models, rank, id)
    decreases rank[id]
  {
    var hs := models[id].entityHolders;
    if x == id {
      ReachFromContains(models, rank, id, |hs|, k);
    } else {
      var j := ReachFromWitness(models, rank, id, |hs|, x);
      ReachClosed(models, rank, hs[j].target, x, k);
      ReachFromContains(models, rank, id, |hs|, j);
    }
  }

  /** A holder through which a model other than `id` reached by the first `k` holders
      is reached. */
  lemma {:induction false} ReachFromWitness(models: map<Id, EntityModel>, rank: map<Id, nat>, id: Id, k: nat, x: Id)
      returns (j: nat)
    requires Ranked(models, rank) && id in models && k <= |models[id].entityHolders|
    requires x in ReachFrom(models, rank, id, k) && x != id
    ensures j < k && x in Reach(models, rank, models[id].entityHolders[j].target)
    decreases k
  {
    if x in Reach(models, rank, models[id].entityHolders[k - 1].target) {
      j := k - 1;
    } else {
      j := ReachFromWitness(models, rank, id, k - 1, x);
    }
  }

  /** The loop of `populateDataClass` on one data-class map. */
  method PopulateMap(p: OrderedMap<KotlinModel>, attrs: seq<Attribute>) returns (r: OrderedMap<KotlinModel>)
    ensures r == PopulateWith(p, attrs)
  {
    r := p;
    var i := 0;
    while i < |attrs|
      invariant i <= |attrs|
      invariant r == PopulateWith(p, attrs[..i])
    {
      var a := attrs[i];
      assert attrs[..i + 1][..i] == attrs[..i];
      r := r.Put(a.Name(), KotlinModelOf(a));
      i := i + 1;
    }
    assert attrs[..|attrs|] == attrs;
  }

  /** The data-class maps of the arena (each model's `dataClassProperties`), by model id. */
  class DataClassStore {
    var properties: Properties

    constructor (properties: Properties)
      ensures this.properties == properties
    {
      this.properties := properties;
    }

    /** `populateDataClass`: every attribute's `kotlinModel` is stored under its name. */
    method PopulateDataClass(models: map<Id, EntityModel>, id: Id)
      requires id in models && id in properties
      modifies this
      ensures properties == PopulatedAll(old(properties), models, {id})
      ensures properties.Keys == old(properties).Keys
    {
      var p := PopulateMap(properties[id], Attributes(models[id]));
      properties := properties[id := p];
      PopulatedSingle(old(properties), models, id);
    }

    /** `forEach { it.populateDataClass() }` over the roots. */
    method PopulateDataClasses(models: map<Id, EntityModel>, roots: seq<Id>)
      requires forall j :: 0 <= j < |roots| ==> roots[j] in models && roots[j] in properties
      modifies this
      ensures properties == PopulatedAll(old(properties), models, Elements(roots))
    {
      var i := 0;
      while i < |roots|
        invariant i <= |roots|
        invariant properties == PopulatedAll(old(properties), models, Elements(roots[..i]))
      {
        assert Elements(roots[..i + 1]) == Elements(roots[..i]) + {roots[i]} by {
          assert roots[..i + 1][..i] == roots[..i];
        }
        PopulateDataClass(models, roots[i]);
        PopulatedAllUnion(old(properties), models, Elements(roots[..i]), {roots[i]}, Elements(roots[..i + 1]));
        i := i + 1;
      }
      assert roots[..i] == roots;
    }

    /** `populateDataClassTree`: the model's own data class, then the tree behind every
        holder; in the end exactly the models reachable from `id` are populated. */
    method PopulateDataClassTree(models: map<Id, EntityModel>, id: Id, ghost rank: map<Id, nat>)
      requires Ranked(models, rank) && id in models
      requires models.Keys <= properties.Keys
      modifies this
      ensures properties == PopulatedAll(old(properties), models, Reach(models, rank, id))
      ensures properties.Keys == old(properties).Keys
      decreases rank[id], 1
    {
      PopulateDataClass(models, id);
      var k := 0;
      while k < |models[id].entityHolders|
        invariant k <= |models[id].entityHolders|
        invariant properties == PopulatedAll(old(properties), models, ReachFrom(models, rank, id, k))
        invariant properties.Keys == old(properties).Keys
      {
        PopulateHolderTree(models, id, k, rank, old(properties));
        k := k + 1;
      }
    }

    /** One pass of the loop over the holders: the tree behind holder `k` is populated. */
    method PopulateHolderTree(models: map<Id, EntityModel>, id: Id, k: nat, ghost rank: map<Id, nat>,
                              ghost properties0: Properties)
      requires Ranked(models, rank) && id in models && k < |models[id].entityHolders|
      requires models.Keys <= properties.Keys
      requires properties == PopulatedAll(properties0, models, ReachFrom(models, rank, id, k))
      modifies this
      ensures properties == PopulatedAll(properties0, models, ReachFrom(models, rank, id, k + 1))
      ensures properties.Keys == old(properties).Keys
      decreases rank[id], 0
    {
      var target := models[id].entityHolders[k].target;
      PopulateDataClassTree(models, target, rank);
      PopulatedAllUnion(properties0, models, ReachFrom(models, rank, id, k), Reach(models, rank, target),
                        ReachFrom(models, rank, id, k + 1));
    }
  }
}
