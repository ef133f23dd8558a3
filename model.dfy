/** The entity model of a graph schema: properties, the three kinds of entity
    holders, entity models and the Kotlin type each attribute stands for.
    Entity models live in an arena keyed by `Id`; a holder names its target
    entity model by id, where the source holds an object reference. */
module Model {
  import opened OrderedMaps
  import opened Kotlin

  datatype RelationshipDirection = Incoming | Outgoing {
    function ArrowStart(): string {
      match this
      case Incoming => "<-["
      case Outgoing => "-["
    }
    function ArrowEnd(): string {
      match this
      case Incoming => "]-"
      case Outgoing => "]->"
    }
  }

  datatype RelationshipRole = Start | End {
    /** The enum constant's `name`. */
    function Name(): string {
      match this
      case Start => "START"
      case End => "END"
    }
  }

  datatype Multiplicity = One | OneOrZero | Many

  /** A property's `KClass`, reduced to the two names the generators print. */
  datatype ValueType = ValueType(simpleName: string, qualifiedName: string)

  datatype Property = Property(name: string, valueType: ValueType, isNullable: bool)

  datatype EntityHolder =
    | NodeOfNode(name: string, relationshipType: string, multiplicity: Multiplicity,
                 target: Id, direction: RelationshipDirection)
    | RelationshipOfNode(name: string, multiplicity: Multiplicity, target: Id,
                         direction: RelationshipDirection)
    | NodeOfRelationship(name: string, target: Id, role: RelationshipRole)
  {
    /** The holder's multiplicity; the endpoint of a relationship is always exactly one. */
    function HolderMultiplicity(): (m: Multiplicity)
      ensures NodeOfRelationship? ==> m == One
      ensures !NodeOfRelationship? ==> m == multiplicity
    {
      if NodeOfRelationship? then One else multiplicity
    }
  }

  /** One element of `attributes`: a property or an entity holder. */
  datatype Attribute = PropertyAttribute(property: Property) | HolderAttribute(holder: EntityHolder) {
    function Name(): string {
      match this
      case PropertyAttribute(p) => p.name
      case HolderAttribute(h) => h.name
    }
  }

  /** `withMultiplicity`: exactly one leaves the type alone, one-or-zero makes it
      nullable, many makes it a list. */
  function WithMultiplicity(t: KotlinModel, m: Multiplicity): KotlinModel {
    match m
    case One => t
    case OneOrZero => Maybe(t)
    case Many => Multiple(t)
  }

  /** The `kotlinModel` of an attribute: a property is its primitive type, nullable if
      the property is; a holder refers to its target's data class with the holder's
      multiplicity. */
  function KotlinModelOf(a: Attribute): KotlinModel {
    match a
    case PropertyAttribute(p) =>
      var primitive := Primitive(p.valueType.qualifiedName);
      if p.isNullable then Maybe(primitive) else primitive
    case HolderAttribute(h) =>
      WithMultiplicity(DataClassRef(h.target), h.HolderMultiplicity())
  }

  /** How the generated data class declares an attribute: a property by its qualified
      type name, with `?` when nullable; a holder by its target's data-class name, with
      `?` when optional and inside `List<...>` when it holds many. */
  lemma AttributeNotion(names: map<Id, string>, a: Attribute)
    requires a.HolderAttribute? ==> a.holder.target in names
    ensures RefIn(names, KotlinModelOf(a))
    ensures a.PropertyAttribute? ==>
      Notion(names, KotlinModelOf(a)) == a.property.valueType.qualifiedName + (if a.property.isNullable then "?" else "")
    ensures a.HolderAttribute? ==>
      var n := names[a.holder.target];
      Notion(names, KotlinModelOf(a)) ==
        match a.holder.HolderMultiplicity()
        case One => n
        case OneOrZero => n + "?"
        case Many => "List<" + n + ">"
  {
    if a.PropertyAttribute? && !a.property.isNullable {
      assert a.property.valueType.qualifiedName + "" == a.property.valueType.qualifiedName;
    }
  }

  /** An entity model. Its data-class map (`dataClassProperties` in the source)
      is kept beside the arena, keyed by the model's id; see `Schemas.Schema`. */
  datatype EntityModel = EntityModel(
    name: string,
    properties: seq<Property>,
    entityHolders: seq<EntityHolder>)

  /** `attributes`: the properties first, then the entity holders, each in insertion order. */
  function Attributes(m: EntityModel): (r: seq<Attribute>)
    ensures |r| == |m.properties| + |m.entityHolders|
    ensures forall i :: 0 <= i < |m.properties| ==> r[i] == PropertyAttribute(m.properties[i])
    ensures forall j :: 0 <= j < |m.entityHolders| ==>
      r[|m.properties| + j] == HolderAttribute(m.entityHolders[j])
  {
    seq(|m.properties|, i requires 0 <= i < |m.properties| => PropertyAttribute(m.properties[i]))
    + seq(|m.entityHolders|, j requires 0 <= j < |m.entityHolders| => HolderAttribute(m.entityHolders[j]))
  }

  /** What `populateDataClass` stores: each attribute's name with its `kotlinModel`. */
  function FieldEntries(attrs: seq<Attribute>): (r: seq<(string, KotlinModel)>)
    ensures |r| == |attrs|
    ensures forall i :: 0 <= i < |attrs| ==> r[i] == (attrs[i].Name(), KotlinModelOf(attrs[i]))
  {
    seq(|attrs|, i requires 0 <= i < |attrs| => (attrs[i].Name(), KotlinModelOf(attrs[i])))
  }

  /** The data-class map `p` after `dataClassProperties[it.name] = it.kotlinModel` for
      every attribute of `attrs` in order. */
  function PopulateWith(p: OrderedMap<KotlinModel>, attrs: seq<Attribute>): OrderedMap<KotlinModel> {
    if attrs == [] then p
    else
      var a := attrs[|attrs| - 1];
      PopulateWith(p, attrs[..|attrs| - 1]).Put(a.Name(), KotlinModelOf(a))
  }

  /** The data-class map `p` of `m` after `populateDataClass`. */
  function Populated(p: OrderedMap<KotlinModel>, m: EntityModel): OrderedMap<KotlinModel> {
    PopulateWith(p, Attributes(m))
  }

  /** Populating stores the attributes' entries one after another. */
  lemma {:induction false} PopulateWithEntries(p: OrderedMap<KotlinModel>, attrs: seq<Attribute>)
    ensures PopulateWith(p, attrs) == PutAll(p, FieldEntries(attrs))
  {
    if attrs != [] {
      var init, a := attrs[..|attrs| - 1], attrs[|attrs| - 1];
      var entries := FieldEntries(attrs);
      calc {
        PopulateWith(p, attrs);
        PopulateWith(p, init).Put(a.Name(), KotlinModelOf(a));
        { PopulateWithEntries(p, init); }
        PutAll(p, FieldEntries(init)).Put(a.Name(), KotlinModelOf(a));
        { assert entries[..|entries| - 1] == FieldEntries(init); }
        PutAll(p, entries[..|entries| - 1]).Put(entries[|entries| - 1].0, entries[|entries| - 1].1);
        PutAll(p, entries);
      }
    }
  }

  /** After `populateDataClass` the data-class map is still well formed and holds one
      entry per attribute name beside what it held before. */
  lemma PopulatedKeys(p: OrderedMap<KotlinModel>, m: EntityModel)
    requires p.Valid()
    ensures Populated(p, m).Valid()
    ensures Populated(p, m).values.Keys == p.values.Keys + (set a | a in Attributes(m) :: a.Name())
  {
    PopulateWithEntries(p, Attributes(m));
    FieldEntryKeys(Attributes(m));
  }

  /** The keys stored are the attributes' names. */
  lemma FieldEntryKeys(attrs: seq<Attribute>)
    ensures KeysOf(FieldEntries(attrs)) == set a | a in attrs :: a.Name()
  {
    var entries := FieldEntries(attrs);
    var names := set a | a in attrs :: a.Name();
    forall k | k in names ensures k in KeysOf(entries) {
      var a :| a in attrs && a.Name() == k;
      var i :| 0 <= i < |attrs| && attrs[i] == a;
      assert entries[i].0 == k;
    }
    forall k | k in KeysOf(entries) ensures k in names {
      var i :| 0 <= i < |entries| && entries[i].0 == k;
      assert attrs[i] in attrs;
    }
  }

  /** An attribute's entry is the `kotlinModel` of the last attribute of that name. */
  lemma PopulatedField(p: OrderedMap<KotlinModel>, m: EntityModel, i: nat)
    requires i < |Attributes(m)|
    requires forall j :: i < j < |Attributes(m)| ==> Attributes(m)[j].Name() != Attributes(m)[i].Name()
    ensures Attributes(m)[i].Name() in Populated(p, m).values
    ensures Populated(p, m).values[Attributes(m)[i].Name()] == KotlinModelOf(Attributes(m)[i])
  {
    var entries := FieldEntries(Attributes(m));
    assert entries[i].0 == Attributes(m)[i].Name();
    LastEntry(entries, i);
    PopulateWithEntries(p, Attributes(m));
  }

  /** Populating a second time changes nothing. */
  lemma PopulatedTwice(p: OrderedMap<KotlinModel>, m: EntityModel)
    ensures Populated(Populated(p, m), m) == Populated(p, m)
  {
    PopulateWithEntries(p, Attributes(m));
    PopulateWithEntries(Populated(p, m), Attributes(m));
    PutAllTwice(p, FieldEntries(Attributes(m)));
  }

  /** Every holder of the arena targets an entity model of the arena. */
  predicate Closed(models: map<Id, EntityModel>) {
    forall id, k :: id in models && 0 <= k < |models[id].entityHolders| ==>
      models[id].entityHolders[k].target in models
  }

  /** `rank` witnesses that following holders always descends: the holder graph has
      no cycle. The recursive generators only terminate on such arenas. */
  ghost predicate Ranked(models: map<Id, EntityModel>, rank: map<Id, nat>) {
    && Closed(models)
    && models.Keys <= rank.Keys
    && forall id, k :: id in models && 0 <= k < |models[id].entityHolders| ==>
         rank[models[id].entityHolders[k].target] < rank[id]
  }

  /** The holders of `attrs` all point below `rank[id]`. */
  ghost predicate Below(models: map<Id, EntityModel>, rank: map<Id, nat>, id: Id, attrs: seq<Attribute>)
    requires Ranked(models, rank) && id in models
  {
    forall i :: 0 <= i < |attrs| && attrs[i].HolderAttribute? ==>
      attrs[i].holder.target in models && rank[attrs[i].holder.target] < rank[id]
  }

  lemma AttributesBelow(models: map<Id, EntityModel>, rank: map<Id, nat>, id: Id)
    requires Ranked(models, rank) && id in models
    ensures Below(models, rank, id, Attributes(models[id]))
  {
    var m := models[id];
    forall i | 0 <= i < |Attributes(m)| && Attributes(m)[i].HolderAttribute?
      ensures Attributes(m)[i].holder.target in models && rank[Attributes(m)[i].holder.target] < rank[id]
    {
      assert Attributes(m)[i] == HolderAttribute(m.entityHolders[i - |m.properties|]);
    }
  }
}
