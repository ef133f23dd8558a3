/** The Kotlin side: the `KotlinModel` sum type, the data classes it refers to, the
    type notion of a field, the pre-order collection of data classes, the renaming
    of data classes after their ancestry and the data-class source text.

    A `DataClass` is an object of the source shared by every type that refers to it,
    with a mutable name and a fixed property map. Here data classes are keyed by the id
    of their entity model: `properties[id]` holds the property map of data class `id`,
    `names[id]` its current name, and `DataClassRef(id)` refers to it. */
module Kotlin {
  import opened Seqs
  import opened OrderedMaps
  import opened IndentedString

  type Id = nat

  datatype KotlinModel =
    | DataClassRef(id: Id)
    | Maybe(inner: KotlinModel)
    | Multiple(element: KotlinModel)
    | Primitive(qualifiedName: string)
  {
    /** The data class or primitive under all `Maybe`/`Multiple` wrappers. */
    function Base(): (r: KotlinModel)
      ensures r.DataClassRef? || r.Primitive?
    {
      match this
      case Maybe(t) => t.Base()
      case Multiple(t) => t.Base()
      case _ => this
    }
  }

  /** The property maps of the data classes, each a name-to-type map in insertion order. */
  type Properties = map<Id, OrderedMap<KotlinModel>>

  /** The data class a type refers to, if any, is a key of `m`. */
  predicate RefIn<V>(m: map<Id, V>, t: KotlinModel) {
    t.Base().DataClassRef? ==> t.Base().id in m
  }

  /** `notion()`: how a field of type `t` is declared. */
  function Notion(names: map<Id, string>, t: KotlinModel): string
    requires RefIn(names, t)
  {
    match t
    case DataClassRef(id) => names[id]
    case Maybe(inner) => Notion(names, inner) + "?"
    case Multiple(element) => "List<" + Notion(names, element) + ">"
    case Primitive(qualifiedName) => qualifiedName
  }

  /** The number of `List<` wrappers on the way down to the base type. */
  function Lists(t: KotlinModel): nat {
    match t
    case Maybe(inner) => Lists(inner)
    case Multiple(element) => 1 + Lists(element)
    case _ => 0
  }

  /** The marks that close the wrappers, innermost first: `?` for a nullable, `>` for a list. */
  function Closing(t: KotlinModel): string {
    match t
    case Maybe(inner) => Closing(inner) + "?"
    case Multiple(element) => Closing(element) + ">"
    case _ => ""
  }

  /** A notion is the base type's name with one `List<` in front per list wrapper and
      the closing marks behind it. */
  lemma {:induction false} NotionShape(names: map<Id, string>, t: KotlinModel)
    requires RefIn(names, t)
    ensures Notion(names, t) == Repeat("List<", Lists(t)) + Notion(names, t.Base()) + Closing(t)
  {
    match t
    case Maybe(inner) =>
      NotionShape(names, inner);
      AppendThree(Repeat("List<", Lists(inner)), Notion(names, inner.Base()), Closing(inner), "?");
    case Multiple(element) =>
      var prefix := Repeat("List<", Lists(element));
      var base := Notion(names, element.Base());
      calc {
        Notion(names, t);
        "List<" + Notion(names, element) + ">";
        { NotionShape(names, element); }
        "List<" + (prefix + base + Closing(element)) + ">";
        { AppendThree("List<", prefix, base, Closing(element)); }
        "List<" + prefix + base + Closing(element) + ">";
        { AppendThree("List<" + prefix, base, Closing(element), ">"); }
        ("List<" + prefix) + base + (Closing(element) + ">");
        Repeat("List<", Lists(t)) + base + Closing(t);
      }
    case _ =>
  }

  /** The value stored under the `i`-th key. */
  function ValueAt<V>(m: OrderedMap<V>, i: nat): V
    requires m.Valid() && i < |m.keys|
  {
    m.values[m.keys[i]]
  }

  function RankOf(rank: map<Id, nat>, t: KotlinModel): nat {
    if t.Base().DataClassRef? && t.Base().id in rank then rank[t.Base().id] else 0
  }

  /** Every data class is well formed, and the data classes its properties refer to are
      all present and of lower rank: following properties always descends, so the
      recursive traversals of the source terminate. */
  ghost predicate ClassRanked(properties: Properties, rank: map<Id, nat>) {
    forall id :: id in properties ==>
      && id in rank
      && properties[id].Valid()
      && forall k :: k in properties[id].values ==>
           var t := properties[id].values[k];
           RefIn(properties, t) && RankOf(rank, t) < rank[id]
  }

  lemma PropertyBelow(properties: Properties, rank: map<Id, nat>, id: Id, i: nat)
    requires ClassRanked(properties, rank) && id in properties && i < |properties[id].keys|
    ensures properties[id].keys[i] in properties[id].values
    ensures RefIn(properties, ValueAt(properties[id], i))
    ensures RankOf(rank, ValueAt(properties[id], i)) < rank[id]
  {
    assert properties[id].keys[i] in properties[id].keys;
  }

  /** `dataClasses()`: the data class itself, then the data properties of its properties'
      types in property order, without removing repeats; wrappers are transparent and a
      primitive has none. */
  function DataClasses(properties: Properties, ghost rank: map<Id, nat>, t: KotlinModel): (r: seq<Id>)
    requires ClassRanked(properties, rank) && RefIn(properties, t)
    ensures forall x :: x in r ==> x in properties
    ensures t.Base().Primitive? ==> r == []
    ensures t.Base().DataClassRef? ==> |r| >= 1 && r[0] == t.Base().id
    decreases RankOf(rank, t), 1, t
  {
    match t
    case DataClassRef(id) => [id] + PropertyClasses(properties, rank, id, |properties[id].keys|)
    case Maybe(inner) => DataClasses(properties, rank, inner)
    case Multiple(element) => DataClasses(properties, rank, element)
    case Primitive(_) => []
  }

  /** The data properties of the first `count` properties of data class `id`, in order. */
  function PropertyClasses(properties: Properties, ghost rank: map<Id, nat>, id: Id, count: nat): (r: seq<Id>)
    requires ClassRanked(properties, rank) && id in properties && count <= |properties[id].keys|
    ensures forall x :: x in r ==> x in properties
    decreases rank[id], 0, count
  {
    if count == 0 then []
    else
      PropertyBelow(properties, rank, id, count - 1);
      PropertyClasses(properties, rank, id, count - 1)
      + DataClasses(properties, rank, ValueAt(properties[id], count - 1))
  }

  /** Data class `x` can be reached from `t` by following property types. */
  ghost predicate Reaches(properties: Properties, rank: map<Id, nat>, t: KotlinModel, x: Id)
    requires ClassRanked(properties, rank) && RefIn(properties, t)
    decreases RankOf(rank, t)
  {
    var base := t.Base();
    base.DataClassRef? &&
    (base.id == x ||
     exists k :: k in properties[base.id].values &&
       Reaches(properties, rank, properties[base.id].values[k], x))
  }

  /** The collected list holds exactly the data properties reachable from `t`. */
  lemma {:induction false} DataClassesReachable(properties: Properties, rank: map<Id, nat>,
                                                t: KotlinModel, x: Id)
    requires ClassRanked(properties, rank) && RefIn(properties, t)
    ensures x in DataClasses(properties, rank, t) <==> Reaches(properties, rank, t, x)
    decreases RankOf(rank, t), 1, t
  {
    match t
    case DataClassRef(id) =>
      PropertyClassesReachable(properties, rank, id, |properties[id].keys|, x);
      var p := properties[id];
      if exists k :: k in p.values && Reaches(properties, rank, p.values[k], x) {
        var k :| k in p.values && Reaches(properties, rank, p.values[k], x);
        var i :| 0 <= i < |p.keys| && p.keys[i] == k;
        assert PropertyReaches(properties, rank, id, i, x);
      }
      if exists i :: 0 <= i < |p.keys| && PropertyReaches(properties, rank, id, i, x) {
        var i :| 0 <= i < |p.keys| && PropertyReaches(properties, rank, id, i, x);
        PropertyBelow(properties, rank, id, i);
        assert p.keys[i] in p.values && Reaches(properties, rank, p.values[p.keys[i]], x);
      }
    case Maybe(inner) =>
      DataClassesReachable(properties, rank, inner, x);
    case Multiple(element) =>
      DataClassesReachable(properties, rank, element, x);
    case Primitive(_) =>
  }

  lemma {:induction false} PropertyClassesReachable(properties: Properties, rank: map<Id, nat>,
                                                    id: Id, count: nat, x: Id)
    requires ClassRanked(properties, rank) && id in properties && count <= |properties[id].keys|
    ensures x in PropertyClasses(properties, rank, id, count)
        <==> exists i :: 0 <= i < count && PropertyReaches(properties, rank, id, i, x)
    decreases rank[id], 0, count
  {
    if count > 0 {
      PropertyBelow(properties, rank, id, count - 1);
      var v := ValueAt(properties[id], count - 1);
      PropertyClassesReachable(properties, rank, id, count - 1, x);
      DataClassesReachable(properties, rank, v, x);
      assert PropertyClasses(properties, rank, id, count)
          == PropertyClasses(properties, rank, id, count - 1) + DataClasses(properties, rank, v);
      if x in PropertyClasses(properties, rank, id, count) {
        if x in PropertyClasses(properties, rank, id, count - 1) {
          var i :| 0 <= i < count - 1 && PropertyReaches(properties, rank, id, i, x);
          assert 0 <= i < count && PropertyReaches(properties, rank, id, i, x);
        } else {
          assert PropertyReaches(properties, rank, id, count - 1, x);
        }
      } else {
        forall i | 0 <= i < count ensures !PropertyReaches(properties, rank, id, i, x) {
        }
      }
    }
  }

  /** Data class `x` can be reached through the `i`-th property of data class `id`. */
  ghost predicate PropertyReaches(properties: Properties, rank: map<Id, nat>, id: Id, i: nat, x: Id)
    requires ClassRanked(properties, rank) && id in properties && i < |properties[id].keys|
  {
    PropertyBelow(properties, rank, id, i);
    Reaches(properties, rank, ValueAt(properties[id], i), x)
  }

  /** `indexOf`: the position of the first occurrence of `x`. */
  function FirstIndex(path: seq<string>, x: string): (r: nat)
    requires x in path
    ensures r < |path| && path[r] == x && x !in path[..r]
  {
    if path[0] == x then 0
    else
      assert path[1..][..FirstIndex(path[1..], x)] == path[1..1 + FirstIndex(path[1..], x)];
      1 + FirstIndex(path[1..], x)
  }

  /** The greatest first-occurrence position over the names of `path` (the `unneeded`
      count of `generateConcatenatedNames`). */
  function Cut(path: seq<string>): (cut: nat)
    requires path != []
    ensures cut < |path| && path[cut] !in path[..cut]
    ensures forall i :: 0 <= i < |path| ==> FirstIndex(path, path[i]) <= cut
  {
    var last := path[|path| - 1];
    if |path| == 1 then 0
    else
      var init := path[..|path| - 1];
      var c := Cut(init);
      FirstIndicesPrefix(path);
      assert init[..c] == path[..c];
      var f := FirstIndex(path, last);
      if c < f then f else c
  }

  /** Dropping the last name keeps the first occurrence of every other name. */
  lemma FirstIndicesPrefix(path: seq<string>)
    requires |path| > 1
    ensures forall i :: 0 <= i < |path| - 1 ==>
      path[i] in path[..|path| - 1] && FirstIndex(path, path[i]) == FirstIndex(path[..|path| - 1], path[i])
  {
    forall i | 0 <= i < |path| - 1
      ensures path[i] in path[..|path| - 1] && FirstIndex(path, path[i]) == FirstIndex(path[..|path| - 1], path[i])
    {
      assert path[..|path| - 1][i] == path[i];
      FirstIndexPrefix(path, path[..|path| - 1], path[i]);
    }
  }

  lemma {:induction false} FirstIndexPrefix(path: seq<string>, init: seq<string>, x: string)
    requires x in init && |init| <= |path| && init == path[..|init|]
    ensures x in path && FirstIndex(path, x) == FirstIndex(init, x)
  {
    assert path[FirstIndex(init, x)] == x;
    if init[0] != x {
      assert init[1..] == path[1..][..|init| - 1];
      FirstIndexPrefix(path[1..], init[1..], x);
    }
  }

  /** The new name of a data class whose ancestry, itself included, is `path`: the names
      from the cut on, joined. */
  function ConcatenatedName(path: seq<string>): (r: string)
    requires path != []
    ensures EndsWith(r, path[|path| - 1])
  {
    Concat(path[Cut(path)..])
  }

  /** A name that does not occur among its ancestors is kept. */
  lemma ConcatenatedNameKept(path: seq<string>)
    requires path != [] && path[|path| - 1] !in path[..|path| - 1]
    ensures ConcatenatedName(path) == path[|path| - 1]
  {
    var last := path[|path| - 1];
    assert FirstIndex(path, last) == |path| - 1;
    assert path[Cut(path)..] == [last];
    assert Concat([last]) == Concat([]) + last;
  }

  /** When every name is non-empty, a name that occurs among its ancestors is extended
      by at least one of them. */
  lemma ConcatenatedNameExtended(path: seq<string>)
    requires path != [] && path[|path| - 1] in path[..|path| - 1]
    requires forall i :: 0 <= i < |path| ==> path[i] != ""
    ensures |ConcatenatedName(path)| > |path[|path| - 1]|
  {
    var last := path[|path| - 1];
    var cut := Cut(path);
    var k :| 0 <= k < |path| - 1 && path[k] == last;
    forall j | 0 <= j < |path| ensures FirstIndex(path, path[j]) < |path| - 1 {
      if path[j] == last {
        assert FirstIndex(path, last) <= k;
      }
    }
    var parts := path[cut..];
    var init := parts[..|parts| - 1];
    assert Concat(init) == Concat(init[..|init| - 1]) + init[|init| - 1];
  }

  /** The ancestry `A, B` above `A` names it `BA`: the cut starts at the first `B`. */
  lemma ConcatenatedNameRepeated()
    ensures ConcatenatedName(["A", "B", "A"]) == "BA"
  {
    var aba: seq<string> := ["A", "B", "A"];
    var ab: seq<string> := ["A", "B"];
    assert Cut(ab) == 1 by {
      assert ab[..1] == ["A"];
      assert FirstIndex(ab, "B") == 1 by { assert ab[1..] == ["B"]; }
    }
    assert Cut(aba) == 1 by {
      assert aba[..2] == ab;
      assert FirstIndex(aba, "A") == 0;
    }
    var ba: seq<string> := ["B", "A"];
    assert aba[1..] == ba;
    assert Concat(ba) == "BA" by {
      assert ba[..1] == ["B"];
      assert ["B"][..0] == [];
      assert Concat(["B"]) == Concat([]) + "B";
    }
  }

  /** `A` directly under `A` becomes `AA`. */
  lemma ConcatenatedNameDoubled()
    ensures ConcatenatedName(["A", "A"]) == "AA"
  {
    var aa: seq<string> := ["A", "A"];
    assert Cut(aa) == 0 by {
      assert FirstIndex(aa, "A") == 0;
    }
    assert Concat(aa) == "AA" by {
      assert aa[..1] == ["A"];
      assert Concat(["A"]) == Concat([]) + "A";
    }
    assert aa[0..] == aa;
  }

  /** A name new to its ancestry stays as it is. */
  lemma ConcatenatedNameFresh()
    ensures ConcatenatedName(["A", "B", "C"]) == "C"
  {
    var abc: seq<string> := ["A", "B", "C"];
    assert FirstIndex(abc, "C") == 2;
    assert Cut(abc) == 2;
    assert abc[2..] == ["C"];
  }

  /** The names after `generateConcatenatedNames(prefixes)` on `t`: a data class is renamed
      after its path, then its properties' types are renamed in order, each with the path
      that ends in the name the data class had before. A data class reached twice is
      renamed twice, the second time starting from its new name. A data class without a
      name is left alone; in the source every data class carries one. */
  function Renamed(names: map<Id, string>, properties: Properties, ghost rank: map<Id, nat>,
                   t: KotlinModel, prefixes: seq<string>): map<Id, string>
    requires ClassRanked(properties, rank) && RefIn(properties, t)
    decreases RankOf(rank, t), 1, t
  {
    match t
    case DataClassRef(id) =>
      if id !in names then names
      else
        var path := prefixes + [names[id]];
        RenamedProperties(names[id := ConcatenatedName(path)], properties, rank, id, |properties[id].keys|, path)
    case Maybe(inner) => Renamed(names, properties, rank, inner, prefixes)
    case Multiple(element) => Renamed(names, properties, rank, element, prefixes)
    case Primitive(_) => names
  }

  /** The names after renaming the types of the first `count` properties of `id` with `path`. */
  function RenamedProperties(names: map<Id, string>, properties: Properties, ghost rank: map<Id, nat>,
                             id: Id, count: nat, path: seq<string>): map<Id, string>
    requires ClassRanked(properties, rank) && id in properties && count <= |properties[id].keys|
    decreases rank[id], 0, count
  {
    if count == 0 then names
    else
      PropertyBelow(properties, rank, id, count - 1);
      Renamed(RenamedProperties(names, properties, rank, id, count - 1, path), properties, rank,
              ValueAt(properties[id], count - 1), path)
  }

  /** One more property renamed. */
  lemma RenamedPropertiesStep(names: map<Id, string>, properties: Properties, rank: map<Id, nat>,
                              id: Id, i: nat, path: seq<string>)
    requires ClassRanked(properties, rank) && id in properties && i < |properties[id].keys|
    ensures RenamedProperties(names, properties, rank, id, i + 1, path)
         == Renamed(RenamedProperties(names, properties, rank, id, i, path), properties, rank,
                    ValueAt(properties[id], i), path)
  {
    PropertyBelow(properties, rank, id, i);
  }

  /** Renaming keeps every data class named, and each new name ends with the name before:
      every renaming of a data class keeps its current name at the end. */
  lemma {:induction false} RenamedEndsWith(names: map<Id, string>, properties: Properties, rank: map<Id, nat>,
                                           t: KotlinModel, prefixes: seq<string>, x: Id)
    requires ClassRanked(properties, rank) && RefIn(properties, t) && x in names
    ensures x in Renamed(names, properties, rank, t, prefixes)
    ensures EndsWith(Renamed(names, properties, rank, t, prefixes)[x], names[x])
    decreases RankOf(rank, t), 1, t
  {
    match t
    case DataClassRef(id) =>
      if id in names {
        var path := prefixes + [names[id]];
        var named := names[id := ConcatenatedName(path)];
        RenamedPropertiesEndsWith(named, properties, rank, id, |properties[id].keys|, path, x);
        if x != id {
          EndsWithItself(names[x]);
        }
        EndsWithTransitive(Renamed(names, properties, rank, t, prefixes)[x], named[x], names[x]);
      } else {
        EndsWithItself(names[x]);
      }
    case Maybe(inner) =>
      RenamedEndsWith(names, properties, rank, inner, prefixes, x);
    case Multiple(element) =>
      RenamedEndsWith(names, properties, rank, element, prefixes, x);
    case Primitive(_) =>
      EndsWithItself(names[x]);
  }

  lemma {:induction false} RenamedPropertiesEndsWith(names: map<Id, string>, properties: Properties,
                                                     rank: map<Id, nat>, id: Id, count: nat,
                                                     path: seq<string>, x: Id)
    requires ClassRanked(properties, rank) && id in properties && count <= |properties[id].keys|
    requires x in names
    ensures x in RenamedProperties(names, properties, rank, id, count, path)
    ensures EndsWith(RenamedProperties(names, properties, rank, id, count, path)[x], names[x])
    decreases rank[id], 0, count
  {
    if count == 0 {
      EndsWithItself(names[x]);
    } else {
      PropertyBelow(properties, rank, id, count - 1);
      var before := RenamedProperties(names, properties, rank, id, count - 1, path);
      var t := ValueAt(properties[id], count - 1);
      RenamedPropertiesEndsWith(names, properties, rank, id, count - 1, path, x);
      RenamedEndsWith(before, properties, rank, t, path, x);
      EndsWithTransitive(Renamed(before, properties, rank, t, path)[x], before[x], names[x]);
    }
  }

  /** Every data class collected from `t` ranks no higher than `t`'s own data class. */
  lemma {:induction false} DataClassesRanked(properties: Properties, rank: map<Id, nat>, t: KotlinModel, x: Id)
    requires ClassRanked(properties, rank) && RefIn(properties, t) && x in DataClasses(properties, rank, t)
    ensures x in rank && rank[x] <= RankOf(rank, t)
    decreases RankOf(rank, t), 1, t
  {
    match t
    case DataClassRef(id) =>
      if x != id {
        PropertyClassesRanked(properties, rank, id, |properties[id].keys|, x);
      }
    case Maybe(inner) => DataClassesRanked(properties, rank, inner, x);
    case Multiple(element) => DataClassesRanked(properties, rank, element, x);
  }

  lemma {:induction false} PropertyClassesRanked(properties: Properties, rank: map<Id, nat>, id: Id, count: nat, x: Id)
    requires ClassRanked(properties, rank) && id in properties && count <= |properties[id].keys|
    requires x in PropertyClasses(properties, rank, id, count)
    ensures x in rank && rank[x] < rank[id]
    decreases rank[id], 0, count
  {
    PropertyBelow(properties, rank, id, count - 1);
    if x in PropertyClasses(properties, rank, id, count - 1) {
      PropertyClassesRanked(properties, rank, id, count - 1, x);
    } else {
      DataClassesRanked(properties, rank, ValueAt(properties[id], count - 1), x);
    }
  }

  /** Renaming touches only the data classes `dataClasses()` collects. */
  lemma {:induction false} RenamedOnlyReached(names: map<Id, string>, properties: Properties, rank: map<Id, nat>,
                                              t: KotlinModel, prefixes: seq<string>, x: Id)
    requires ClassRanked(properties, rank) && RefIn(properties, t) && x in names
    requires x !in DataClasses(properties, rank, t)
    ensures x in Renamed(names, properties, rank, t, prefixes)
    ensures Renamed(names, properties, rank, t, prefixes)[x] == names[x]
    decreases RankOf(rank, t), 1, t
  {
    match t
    case DataClassRef(id) =>
      if id in names {
        var path := prefixes + [names[id]];
        RenamedPropertiesOnlyReached(names[id := ConcatenatedName(path)], properties, rank, id,
                                     |properties[id].keys|, path, x);
      }
    case Maybe(inner) =>
      RenamedOnlyReached(names, properties, rank, inner, prefixes, x);
    case Multiple(element) =>
      RenamedOnlyReached(names, properties, rank, element, prefixes, x);
    case Primitive(_) =>
  }

  lemma {:induction false} RenamedPropertiesOnlyReached(names: map<Id, string>, properties: Properties,
                                                        rank: map<Id, nat>, id: Id, count: nat,
                                                        path: seq<string>, x: Id)
    requires ClassRanked(properties, rank) && id in properties && count <= |properties[id].keys|
    requires x in names && x !in PropertyClasses(properties, rank, id, count)
    ensures x in RenamedProperties(names, properties, rank, id, count, path)
    ensures RenamedProperties(names, properties, rank, id, count, path)[x] == names[x]
    decreases rank[id], 0, count
  {
    if count > 0 {
      PropertyBelow(properties, rank, id, count - 1);
      var before := RenamedProperties(names, properties, rank, id, count - 1, path);
      RenamedPropertiesOnlyReached(names, properties, rank, id, count - 1, path, x);
      RenamedOnlyReached(before, properties, rank, ValueAt(properties[id], count - 1), path, x);
    }
  }

  /** Renaming from a data class with no prefixes leaves that data class's own name as it
      was: it has no ancestors, and no acyclic graph leads back to it. */
  lemma RootKeepsName(names: map<Id, string>, properties: Properties, rank: map<Id, nat>, id: Id)
    requires ClassRanked(properties, rank) && id in properties && id in names
    ensures id in Renamed(names, properties, rank, DataClassRef(id), [])
    ensures Renamed(names, properties, rank, DataClassRef(id), [])[id] == names[id]
  {
    var path := [] + [names[id]];
    ConcatenatedNameKept(path);
    if id in PropertyClasses(properties, rank, id, |properties[id].keys|) {
      PropertyClassesRanked(properties, rank, id, |properties[id].keys|, id);
    }
    RenamedPropertiesOnlyReached(names[id := ConcatenatedName(path)], properties, rank, id,
                                 |properties[id].keys|, path, id);
  }

  /** The property types of `p` only refer to named data classes. */
  predicate NamesCover(names: map<Id, string>, p: OrderedMap<KotlinModel>) {
    forall k :: k in p.values ==> RefIn(names, p.values[k])
  }

  /** `appendCode` can run on data class `id`. */
  predicate Printable(names: map<Id, string>, properties: Properties, id: Id) {
    id in names && id in properties && properties[id].Valid() && NamesCover(names, properties[id])
  }

  /** With every data class named, every data class can be printed. */
  lemma AllPrintable(names: map<Id, string>, properties: Properties, rank: map<Id, nat>, id: Id)
    requires ClassRanked(properties, rank) && id in properties
    requires forall x :: x in properties ==> x in names
    ensures Printable(names, properties, id)
  {
  }

  /** The line `appendCode` writes for a property: `val <name>: <notion>,`. */
  function Declaration(names: map<Id, string>, k: string, t: KotlinModel): string
    requires RefIn(names, t)
  {
    "val " + k + ": " + Notion(names, t) + ","
  }

  /** The first `count` property lines, each on a new line one level deeper than `depth`. */
  function FieldsText(names: map<Id, string>, p: OrderedMap<KotlinModel>, count: nat, tab: string, depth: nat): string
    requires p.Valid() && NamesCover(names, p) && count <= |p.keys|
  {
    if count == 0 then ""
    else
      assert p.keys[count - 1] in p.keys;
      FieldsText(names, p, count - 1, tab, depth) + NewlineText(tab, depth + 1)
      + Declaration(names, p.keys[count - 1], ValueAt(p, count - 1))
  }

  /** What `appendCode` writes for a data class named `name` with property map `p` when the
      builder stands at indentation `depth`. */
  function CodeText(names: map<Id, string>, p: OrderedMap<KotlinModel>, name: string, tab: string, depth: nat): string
    requires p.Valid() && NamesCover(names, p)
  {
    "data class " + name + "(" + FieldsText(names, p, |p.keys|, tab, depth) + NewlineText(tab, depth) + ")"
  }

  /** What `dataClassTreeCode` writes for the collected data classes `ids`, in order: each
      data class's code between two line breaks, at indentation 0. */
  function TreeCode(names: map<Id, string>, properties: Properties, ids: seq<Id>, tab: string): string
    requires forall x :: x in ids ==> Printable(names, properties, x)
  {
    if ids == [] then ""
    else
      var id := ids[|ids| - 1];
      assert id in ids && Printable(names, properties, id);
      TreeCode(names, properties, ids[..|ids| - 1], tab)
      + NewlineText(tab, 0) + CodeText(names, properties[id], names[id], tab, 0) + NewlineText(tab, 0)
  }

  /** No type notion breaks a line when no name does. */
  lemma {:induction false} NotionLineFree(names: map<Id, string>, t: KotlinModel)
    requires RefIn(names, t)
    requires forall x :: x in names ==> '\n' !in names[x]
    requires t.Base().Primitive? ==> '\n' !in t.Base().qualifiedName
    ensures '\n' !in Notion(names, t)
  {
    match t
    case Maybe(inner) => NotionLineFree(names, inner);
    case Multiple(element) => NotionLineFree(names, element);
    case _ =>
  }

  /** Nothing in a data class's code breaks a line except the line starts: the text has
      one line break per property plus the one before the closing parenthesis. */
  lemma {:induction false} CodeLineBreaks(names: map<Id, string>, p: OrderedMap<KotlinModel>, name: string,
                                          tab: string, depth: nat)
    requires p.Valid() && NamesCover(names, p)
    requires '\n' !in name && '\n' !in tab
    requires forall i :: 0 <= i < |p.keys| ==> '\n' !in Declaration(names, p.keys[i], ValueAt(p, i))
    ensures Count(CodeText(names, p, name, tab, depth), '\n') == |p.keys| + 1
  {
    var head := "data class " + name + "(";
    var fields := FieldsText(names, p, |p.keys|, tab, depth);
    FieldsLineBreaks(names, p, |p.keys|, tab, depth);
    NewlineLineBreaks(tab, depth);
    CountAbsent(head, '\n');
    CountAppend(head, fields, '\n');
    CountAppend(head + fields, NewlineText(tab, depth), '\n');
    CountAppend(head + fields + NewlineText(tab, depth), ")", '\n');
  }

  lemma {:induction false} FieldsLineBreaks(names: map<Id, string>, p: OrderedMap<KotlinModel>, count: nat,
                                            tab: string, depth: nat)
    requires p.Valid() && NamesCover(names, p) && count <= |p.keys| && '\n' !in tab
    requires forall i :: 0 <= i < |p.keys| ==> '\n' !in Declaration(names, p.keys[i], ValueAt(p, i))
    ensures Count(FieldsText(names, p, count, tab, depth), '\n') == count
  {
    if count > 0 {
      var before := FieldsText(names, p, count - 1, tab, depth);
      var line := Declaration(names, p.keys[count - 1], ValueAt(p, count - 1));
      FieldsLineBreaks(names, p, count - 1, tab, depth);
      NewlineLineBreaks(tab, depth + 1);
      CountAbsent(line, '\n');
      CountAppend(before, NewlineText(tab, depth + 1), '\n');
      CountAppend(before + NewlineText(tab, depth + 1), line, '\n');
    }
  }

  lemma NewlineLineBreaks(tab: string, depth: nat)
    requires '\n' !in tab
    ensures Count(NewlineText(tab, depth), '\n') == 1
  {
    CountAbsent(Repeat(tab, depth), '\n');
    CountAppend("\n", Repeat(tab, depth), '\n');
  }

  /** The objects `generateConcatenatedNames` renames in place: the data classes' names
      change, their property maps never do. */
  class DataClassGraph {
    const properties: Properties
    var names: map<Id, string>

    constructor (names: map<Id, string>, properties: Properties)
      ensures this.names == names && this.properties == properties
    {
      this.names := names;
      this.properties := properties;
    }

    /** `generateConcatenatedNames(prefixes)` on `t`. */
    method GenerateConcatenatedNames(t: KotlinModel, prefixes: seq<string>, ghost rank: map<Id, nat>)
      requires ClassRanked(properties, rank) && RefIn(properties, t)
      modifies this
      ensures names == Renamed(old(names), properties, rank, t, prefixes)
      decreases RankOf(rank, t), 1, t
    {
      match t
      case DataClassRef(id) =>
        RenameDataClass(id, prefixes, rank);
      case Maybe(inner) =>
        GenerateConcatenatedNames(inner, prefixes, rank);
      case Multiple(element) =>
        GenerateConcatenatedNames(element, prefixes, rank);
      case Primitive(_) =>
    }

    /** The `DataClass` case: the name is reassigned, then every property type is renamed
        with the path that ends in the former name. */
    method RenameDataClass(id: Id, prefixes: seq<string>, ghost rank: map<Id, nat>)
      requires ClassRanked(properties, rank) && id in properties
      modifies this
      ensures names == Renamed(old(names), properties, rank, DataClassRef(id), prefixes)
      decreases rank[id], 0, 2
    {
      if id !in names { return; }
      var newPrefixes := prefixes + [names[id]];
      names := names[id := ConcatenatedName(newPrefixes)];
      GeneratePropertyNames(id, newPrefixes, rank);
    }

    /** `properties.values.forEach { it.generateConcatenatedNames(newPrefixes) }`. */
    method GeneratePropertyNames(id: Id, path: seq<string>, ghost rank: map<Id, nat>)
      requires ClassRanked(properties, rank) && id in properties
      modifies this
      ensures names == RenamedProperties(old(names), properties, rank, id, |properties[id].keys|, path)
      decreases rank[id], 0, 1
    {
      ghost var start := names;
      var i := 0;
      while i < |properties[id].keys|
        invariant i <= |properties[id].keys|
        invariant names == RenamedProperties(start, properties, rank, id, i, path)
      {
        RenamePropertyType(id, i, path, rank, start);
        i := i + 1;
      }
    }

    /** The loop body: the type of the `i`-th property is renamed. */
    method RenamePropertyType(id: Id, i: nat, path: seq<string>, ghost rank: map<Id, nat>,
                              ghost start: map<Id, string>)
      requires ClassRanked(properties, rank)
      requires id in properties && i < |properties[id].keys|
      requires names == RenamedProperties(start, properties, rank, id, i, path)
      modifies this
      ensures names == RenamedProperties(start, properties, rank, id, i + 1, path)
      decreases rank[id], 0, 0
    {
      PropertyBelow(properties, rank, id, i);
      GenerateConcatenatedNames(ValueAt(properties[id], i), path, rank);
      RenamedPropertiesStep(start, properties, rank, id, i, path);
    }

    /** `appendCode`: the header, every property on its own line one level deeper, then
        the closing parenthesis on a new line at the original level. */
    method AppendCode(b: IndentedStringBuilder, id: Id)
      requires Printable(names, properties, id)
      modifies b
      ensures b.buffer == old(b.buffer) + CodeText(names, properties[id], names[id], b.tab, old(b.indentation))
      ensures b.indentation == old(b.indentation)
    {
      ghost var depth := b.indentation;
      var p := properties[id];
      var header := "data class " + names[id] + "(";
      b.Append(header);
      b.BeginIndented();
      AppendFields(b, p, depth);
      b.EndIndented();
      ghost var fields := FieldsText(names, p, |p.keys|, b.tab, depth);
      b.Newline();
      b.Append(")");
      AppendThree(old(b.buffer), header, fields, NewlineText(b.tab, depth));
    }

    /** The `indented` block of `appendCode`: a new line and a declaration per property. */
    method AppendFields(b: IndentedStringBuilder, p: OrderedMap<KotlinModel>, ghost depth: nat)
      requires p.Valid() && NamesCover(names, p) && b.indentation == depth + 1
      modifies b
      ensures b.buffer == old(b.buffer) + FieldsText(names, p, |p.keys|, b.tab, depth)
      ensures b.indentation == old(b.indentation)
    {
      var i := 0;
      while i < |p.keys|
        invariant i <= |p.keys|
        invariant b.indentation == depth + 1
        invariant b.buffer == old(b.buffer) + FieldsText(names, p, i, b.tab, depth)
      {
        ghost var done := FieldsText(names, p, i, b.tab, depth);
        assert p.keys[i] in p.keys;
        b.Newline();
        b.Append(Declaration(names, p.keys[i], p.values[p.keys[i]]));
        AppendThree(old(b.buffer), done, NewlineText(b.tab, depth + 1), Declaration(names, p.keys[i], ValueAt(p, i)));
        i := i + 1;
      }
    }

    /** `dataClassTreeCode()`: on a new builder with the default tab, the data classes under
        `t` are renamed first; then the code of every collected data class, repeats
        included, is written between two line breaks. */
    method DataClassTreeCode(t: KotlinModel, ghost rank: map<Id, nat>) returns (b: IndentedStringBuilder)
      requires ClassRanked(properties, rank) && RefIn(properties, t)
      requires forall x :: x in properties ==> x in names
      modifies this
      ensures names == Renamed(old(names), properties, rank, t, [])
      ensures forall x :: x in properties ==> x in names
      ensures fresh(b) && b.tab == DefaultTab && b.indentation == 0
      ensures b.ToString() == TreeCode(names, properties, DataClasses(properties, rank, t), DefaultTab)
    {
      b := new IndentedStringBuilder(DefaultTab);
      GenerateConcatenatedNames(t, [], rank);
      forall x | x in properties
        ensures x in names
      {
        RenamedEndsWith(old(names), properties, rank, t, [], x);
      }
      var dataClasses := DataClasses(properties, rank, t);
      forall x | x in dataClasses
        ensures Printable(names, properties, x)
      {
        AllPrintable(names, properties, rank, x);
      }
      AppendDataClasses(b, dataClasses);
    }

    /** The `forEach` of `dataClassTreeCode`, on a builder that is still empty. */
    method AppendDataClasses(b: IndentedStringBuilder, ids: seq<Id>)
      requires forall x :: x in ids ==> Printable(names, properties, x)
      requires b.buffer == "" && b.indentation == 0
      modifies b
      ensures b.buffer == TreeCode(names, properties, ids, b.tab) && b.indentation == 0
    {
      var i := 0;
      while i < |ids|
        invariant i <= |ids| && b.indentation == 0
        invariant b.buffer == TreeCode(names, properties, ids[..i], b.tab)
      {
        b.Newline();
        AppendCode(b, ids[i]);
        b.Newline();
        assert ids[..i + 1][..i] == ids[..i];
        i := i + 1;
      }
      assert ids[..i] == ids;
    }
  }
}
