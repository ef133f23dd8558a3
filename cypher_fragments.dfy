/** `appendCypher`: the Cypher map projection of an entity model, with a
    pattern comprehension for every entity holder, each binding a fresh variable.

    The fragment functions say what the emitter writes when the builder's counter
    stands at `n`; they return the text, the counter afterwards and whether the
    emission completed. An emission that meets a relationship's endpoint holder
    fails (`TODO()` throws), and its text is then what was written before the throw. */
module CypherFragments {
  import opened Model
  import opened Kotlin
  import opened Cypher
  import opened IndentedString
  import opened Seqs
  import opened OrderedMaps

  datatype Emitted = Emitted(text: string, next: nat, ok: bool)

  /** `rank` witnesses that the emitter's descent terminates: it strictly decreases
      along every holder the emitter follows. A relationship's endpoint holder is never
      followed, since its `appendCypher` throws at once, so it only has to point into the
      arena. A merged schema, where a relationship's endpoint leads back to the node that
      holds the relationship, is ranked this way, although it is not `Ranked`. */
  ghost predicate TraversalRanked(models: map<Id, EntityModel>, rank: map<Id, nat>) {
    && Closed(models)
    && models.Keys <= rank.Keys
    && forall id, k ::
         id in models && 0 <= k < |models[id].entityHolders| && !models[id].entityHolders[k].NodeOfRelationship?
         ==> rank[models[id].entityHolders[k].target] < rank[id]
  }

  /** The holders among `attrs` point into the arena, and the ones the emitter follows
      point below `rank[id]`. */
  ghost predicate TraversedBelow(models: map<Id, EntityModel>, rank: map<Id, nat>, id: Id, attrs: seq<Attribute>)
    requires TraversalRanked(models, rank) && id in models
  {
    forall i :: 0 <= i < |attrs| && attrs[i].HolderAttribute? ==>
      attrs[i].holder.target in models && (attrs[i].holder.NodeOfRelationship? || rank[attrs[i].holder.target] < rank[id])
  }

  lemma AttributesTraversedBelow(models: map<Id, EntityModel>, rank: map<Id, nat>, id: Id)
    requires TraversalRanked(models, rank) && id in models
    ensures TraversedBelow(models, rank, id, Attributes(models[id]))
  {
    var m := models[id];
    forall i | 0 <= i < |Attributes(m)| && Attributes(m)[i].HolderAttribute?
      ensures Attributes(m)[i].holder.target in models
      ensures Attributes(m)[i].holder.NodeOfRelationship? || rank[Attributes(m)[i].holder.target] < rank[id]
    {
      assert Attributes(m)[i] == HolderAttribute(m.entityHolders[i - |m.properties|]);
    }
  }

  /** A merged relationship: the node `Person` (id 0) holds `likes`, the relationship
      `Likes` (id 1), whose `start` endpoint leads back to `Person`. */
  function PersonLikes(): map<Id, EntityModel> {
    map[0 := EntityModel("Person", [], [RelationshipOfNode("likes", Many, 1, Outgoing)]),
        1 := EntityModel("Likes", [], [NodeOfRelationship("start", 0, Start)])]
  }

  /** Its holders form a cycle, so no rank descends along all of them... */
  lemma PersonLikesUnranked(rank: map<Id, nat>)
    ensures !Ranked(PersonLikes(), rank)
  {
    var models := PersonLikes();
    assert models[0].entityHolders[0].target == 1 && models[1].entityHolders[0].target == 0;
  }

  /** ...but the emitter's descent is ranked: only `likes` has to descend. */
  lemma PersonLikesRanked()
    ensures TraversalRanked(PersonLikes(), map[0 := 1, 1 := 0])
  {
    var models := PersonLikes();
    assert models[0].entityHolders == [RelationshipOfNode("likes", Many, 1, Outgoing)];
    assert models[1].entityHolders == [NodeOfRelationship("start", 0, Start)];
  }

  /** The relationship's own fragment: `{`, then its endpoint holder throws. */
  lemma LikesFragment()
    ensures TraversalRanked(PersonLikes(), map[0 := 1, 1 := 0])
    ensures EntityFragment(PersonLikes(), map[0 := 1, 1 := 0], 1, "v0", 1) == Emitted("{", 1, false)
  {
    PersonLikesRanked();
    var likes := PersonLikes()[1];
    assert Attributes(likes) == [HolderAttribute(likes.entityHolders[0])];
  }

  /** The emitter writes the comprehension's head and the relationship's `{`, then the
      endpoint holder throws. */
  lemma PersonLikesFragment()
    ensures TraversalRanked(PersonLikes(), map[0 := 1, 1 := 0])
    ensures EntityFragment(PersonLikes(), map[0 := 1, 1 := 0], 0, "n", 0) == Emitted("{`likes`:[(n) ()|{", 1, false)
  {
    LikesFragment();
    var models, rank := PersonLikes(), map[0 := 1, 1 := 0];
    var person := models[0];
    assert Attributes(person) == [HolderAttribute(person.entityHolders[0])];
    assert VariableName(0) == "v0" by { assert DecimalString(0) == "0"; }
    assert "{" + TraversalHead("likes", RelationshipPattern("n")) + "{" == "{`likes`:[(n) ()|{";
  }

  /** The endpoint holder is reachable from `Person`, so by `EntityFragmentOk` its
      emission could not have completed. */
  lemma PersonLikesEndpoint()
    ensures TraversalRanked(PersonLikes(), map[0 := 1, 1 := 0])
    ensures EndpointReachable(PersonLikes(), map[0 := 1, 1 := 0], 0)
  {
    PersonLikesRanked();
    var models, rank := PersonLikes(), map[0 := 1, 1 := 0];
    assert EndpointReachable(models, rank, 1) by {
      assert models[1].entityHolders[0].NodeOfRelationship?;
    }
    assert !models[0].entityHolders[0].NodeOfRelationship? && models[0].entityHolders[0].target == 1;
  }

  /** Every arena whose holders all descend is also ranked for the emitter. */
  lemma RankedTraversals(models: map<Id, EntityModel>, rank: map<Id, nat>)
    requires Ranked(models, rank)
    ensures TraversalRanked(models, rank)
  {
  }

  /** `` `name`:var.name ``: a property read straight off the bound variable. */
  function PropertyFragment(p: Property, varName: string): string {
    "`" + p.name + "`:" + varName + "." + p.name
  }

  /** `EntityModel.appendCypher`: `{`, the attributes' fragments separated by `,`, `}`. */
  ghost function EntityFragment(models: map<Id, EntityModel>, rank: map<Id, nat>, id: Id,
                                varName: string, n: nat): (e: Emitted)
    requires TraversalRanked(models, rank) && id in models
    ensures e.next >= n
    ensures |e.text| >= 1 && e.text[0] == '{'
    ensures e.ok ==> e.text[|e.text| - 1] == '}'
    decreases rank[id], 2
  {
    var body := AttributesFragment(models, rank, id, |Attributes(models[id])|, varName, n);
    if body.ok then Emitted("{" + body.text + "}", body.next, true)
    else Emitted("{" + body.text, body.next, false)
  }

  /** The fragments of the first `count` attributes of the entity model, each but the
      last followed by `,`; the emission stops at the first fragment that fails. */
  ghost function AttributesFragment(models: map<Id, EntityModel>, rank: map<Id, nat>, id: Id,
                                    count: nat, varName: string, n: nat): (e: Emitted)
    requires TraversalRanked(models, rank) && id in models && count <= |Attributes(models[id])|
    ensures e.next >= n
    decreases rank[id], 1, count
  {
    AttributesTraversedBelow(models, rank, id);
    var attrs := Attributes(models[id]);
    if count == 0 then Emitted("", n, true)
    else if count == 1 then AttributeFragment(models, rank, id, attrs[0], varName, n)
    else
      var init := AttributesFragment(models, rank, id, count - 1, varName, n);
      if !init.ok then init
      else
        var last := AttributeFragment(models, rank, id, attrs[count - 1], varName, init.next);
        Emitted(init.text + "," + last.text, last.next, last.ok)
  }

  /** One attribute's fragment, bound to `varName`. */
  ghost function AttributeFragment(models: map<Id, EntityModel>, rank: map<Id, nat>, id: Id,
                                   a: Attribute, varName: string, n: nat): (e: Emitted)
    requires TraversalRanked(models, rank) && id in models
    requires a.HolderAttribute? ==> a.holder.target in models && (a.holder.NodeOfRelationship? || rank[a.holder.target] < rank[id])
    ensures e.next >= n
    ensures a.PropertyAttribute? ==> e == Emitted(PropertyFragment(a.property, varName), n, true)
    ensures a.HolderAttribute? && !a.holder.NodeOfRelationship? ==> e.next > n
    decreases rank[id], 0
  {
    match a
    case PropertyAttribute(p) => Emitted(PropertyFragment(p, varName), n, true)
    case HolderAttribute(h) =>
      match h
      case NodeOfRelationship(_, _, _) => Emitted("", n, false)
      case NodeOfNode(name, relationshipType, _, target, direction) =>
        var nodeVarName := VariableName(n);
        Traversal(name, NodePattern(varName, relationshipType, direction, nodeVarName),
                  EntityFragment(models, rank, target, nodeVarName, n + 1))
      case RelationshipOfNode(name, _, target, _) =>
        var relVarName := VariableName(n);
        Traversal(name, RelationshipPattern(varName),
                  EntityFragment(models, rank, target, relVarName, n + 1))
  }

  /** `(var)<arrowStart>:TYPE<arrowEnd>(nodeVar)`: the relationship path to the bound node. */
  function NodePattern(varName: string, relationshipType: string, direction: RelationshipDirection,
                       nodeVarName: string): string
  {
    "(" + varName + ")" + direction.ArrowStart() + ":" + relationshipType + direction.ArrowEnd()
    + "(" + nodeVarName + ")"
  }

  /** `(var) ()`: the pattern a relationship holder writes; it names neither the
      relationship type nor the fresh variable. */
  function RelationshipPattern(varName: string): string {
    "(" + varName + ") ()"
  }

  /** The text of a pattern comprehension up to and including `|`. */
  function TraversalHead(name: string, pattern: string): string {
    "`" + name + "`:" + "[" + pattern + "|"
  }

  /** A pattern comprehension: the head, the nested fragment, and `]` once the nested
      fragment is complete. */
  function Traversal(name: string, pattern: string, inner: Emitted): (e: Emitted)
    ensures e.next == inner.next && e.ok == inner.ok
  {
    Emitted(TraversalHead(name, pattern) + inner.text + (if inner.ok then "]" else ""), inner.next, inner.ok)
  }

  /** `appendCypher` of an entity model, bound to `varName`; `ok` is false where the
      source throws. */
  method AppendEntityCypher(b: CypherStringBuilder, models: map<Id, EntityModel>, ghost rank: map<Id, nat>,
                            id: Id, varName: string) returns (ok: bool)
    requires TraversalRanked(models, rank) && id in models
    modifies b, b.text
    ensures var e := EntityFragment(models, rank, id, varName, old(b.varNumber));
      b.text.buffer == old(b.text.buffer) + e.text && b.varNumber == e.next && ok == e.ok
    ensures b.text.indentation == old(b.text.indentation)
    decreases rank[id], 2
  {
    ghost var start := b.text.buffer;
    b.text.Append("{");
    ok := AppendAttributesCypher(b, models, rank, id, varName);
    ghost var body := AttributesFragment(models, rank, id, |Attributes(models[id])|, varName, old(b.varNumber));
    if ok {
      b.text.Append("}");
      AppendThree(start, "{", body.text, "}");
    } else {
      assert start + "{" + body.text == start + ("{" + body.text);
    }
  }

  /** The attribute loop of `EntityModel.appendCypher`: every attribute but the last
      followed by `,`, then the last one. */
  method AppendAttributesCypher(b: CypherStringBuilder, models: map<Id, EntityModel>, ghost rank: map<Id, nat>,
                                id: Id, varName: string) returns (ok: bool)
    requires TraversalRanked(models, rank) && id in models
    modifies b, b.text
    ensures var e := AttributesFragment(models, rank, id, |Attributes(models[id])|, varName, old(b.varNumber));
      b.text.buffer == old(b.text.buffer) + e.text && b.varNumber == e.next && ok == e.ok
    ensures b.text.indentation == old(b.text.indentation)
    decreases rank[id], 1, 1
  {
    var count := |Attributes(models[id])|;
    if count == 0 {
      return true;
    }
    ghost var n := b.varNumber;
    ghost var start := b.text.buffer;
    var i;
    ghost var done;
    ok, i, done := AppendLeadingAttributes(b, models, rank, id, varName);
    if ok {
      ok, done := AppendListedAttribute(b, models, rank, id, i, varName, n, start, done);
    }
  }

  /** `attrsList.dropLast(1).forEach { appendCypher; append(',') }`: on success the
      buffer holds all but the last fragment, each followed by `,`; on failure it holds
      what the whole list writes before the throw. */
  method AppendLeadingAttributes(b: CypherStringBuilder, models: map<Id, EntityModel>, ghost rank: map<Id, nat>,
                                 id: Id, varName: string) returns (ok: bool, i: nat, ghost done: Emitted)
    requires TraversalRanked(models, rank) && id in models && 0 < |Attributes(models[id])|
    modifies b, b.text
    ensures ok ==>
      && i == |Attributes(models[id])| - 1
      && done == AttributesFragment(models, rank, id, i, varName, old(b.varNumber)) && done.ok
      && b.varNumber == done.next && b.text.buffer == old(b.text.buffer) + done.text + Separator(i)
    ensures !ok ==> var e := AttributesFragment(models, rank, id, |Attributes(models[id])|, varName, old(b.varNumber));
      !e.ok && b.varNumber == e.next && b.text.buffer == old(b.text.buffer) + e.text
    ensures b.text.indentation == old(b.text.indentation)
    decreases rank[id], 1, 0, 1
  {
    ghost var n := b.varNumber;
    ghost var start := b.text.buffer;
    var count := |Attributes(models[id])|;
    done := AttributesFragment(models, rank, id, 0, varName, n);
    ok := true;
    i := 0;
    while i < count - 1
      invariant 0 <= i <= count - 1
      invariant done == AttributesFragment(models, rank, id, i, varName, n) && done.ok
      invariant b.varNumber == done.next
      invariant b.text.buffer == start + done.text + Separator(i)
      invariant b.text.indentation == old(b.text.indentation)
    {
      ok, done := AppendListedAttribute(b, models, rank, id, i, varName, n, start, done);
      if !ok {
        FailureStays(models, rank, id, varName, n, i + 1);
        return;
      }
      b.text.Append(",");
      i := i + 1;
    }
  }

  /** The `i`-th attribute's `appendCypher` inside the loop: with the first `i` fragments
      written after `start`, the buffer afterwards holds the first `i + 1`. */
  method AppendListedAttribute(b: CypherStringBuilder, models: map<Id, EntityModel>, ghost rank: map<Id, nat>,
                               id: Id, i: nat, varName: string, ghost n: nat, ghost start: string,
                               ghost done: Emitted)
    returns (ok: bool, ghost next: Emitted)
    requires TraversalRanked(models, rank) && id in models && i < |Attributes(models[id])|
    requires done == AttributesFragment(models, rank, id, i, varName, n) && done.ok
    requires b.varNumber == done.next && b.text.buffer == start + done.text + Separator(i)
    modifies b, b.text
    ensures next == AttributesFragment(models, rank, id, i + 1, varName, n)
    ensures ok == next.ok && b.varNumber == next.next && b.text.buffer == start + next.text
    ensures b.text.indentation == old(b.text.indentation)
    decreases rank[id], 1, 0, 0
  {
    AttributesTraversedBelow(models, rank, id);
    ghost var before := b.text.buffer;
    ok := AppendAttributeCypher(b, models, rank, id, Attributes(models[id])[i], varName);
    next := AttributesStep(models, rank, id, varName, n, i, done, start, before, b.text.buffer);
  }

  /** What stands between the fragments already written and the next one. */
  function Separator(i: nat): string {
    if i > 0 then "," else ""
  }

  /** Emitting one more attribute: after the first, a `,` comes before its fragment.
      With the text so far written after `start`, the buffer then holds the longer list. */
  lemma AttributesStep(models: map<Id, EntityModel>, rank: map<Id, nat>, id: Id,
                       varName: string, n: nat, i: nat, done: Emitted,
                       start: string, before: string, after: string) returns (next: Emitted)
    requires TraversalRanked(models, rank) && id in models && i < |Attributes(models[id])|
    requires done == AttributesFragment(models, rank, id, i, varName, n) && done.ok
    requires before == start + done.text + Separator(i)
    requires TraversedBelow(models, rank, id, Attributes(models[id]))
    requires after == before + AttributeFragment(models, rank, id, Attributes(models[id])[i], varName, done.next).text
    ensures next == AttributesFragment(models, rank, id, i + 1, varName, n)
    ensures var a := AttributeFragment(models, rank, id, Attributes(models[id])[i], varName, done.next);
      next.next == a.next && next.ok == a.ok
    ensures after == start + next.text
  {
    AttributesTraversedBelow(models, rank, id);
    next := AttributesFragment(models, rank, id, i + 1, varName, n);
    var a := AttributeFragment(models, rank, id, Attributes(models[id])[i], varName, done.next);
    assert next == Emitted(done.text + Separator(i) + a.text, a.next, a.ok);
    AppendThree(start, done.text, Separator(i), a.text);
  }

  /** Once the first `count` attributes fail, the whole list fails with the same text. */
  lemma {:induction false} FailureStays(models: map<Id, EntityModel>, rank: map<Id, nat>, id: Id,
                                        varName: string, n: nat, count: nat)
    requires TraversalRanked(models, rank) && id in models && 0 < count <= |Attributes(models[id])|
    requires !AttributesFragment(models, rank, id, count, varName, n).ok
    ensures AttributesFragment(models, rank, id, |Attributes(models[id])|, varName, n)
         == AttributesFragment(models, rank, id, count, varName, n)
    decreases |Attributes(models[id])| - count
  {
    if count < |Attributes(models[id])| {
      FailureStays(models, rank, id, varName, n, count + 1);
    }
  }

  /** `appendCypher` of one attribute. */
  method AppendAttributeCypher(b: CypherStringBuilder, models: map<Id, EntityModel>, ghost rank: map<Id, nat>,
                               id: Id, a: Attribute, varName: string) returns (ok: bool)
    requires TraversalRanked(models, rank) && id in models
    requires a.HolderAttribute? ==> a.holder.target in models && (a.holder.NodeOfRelationship? || rank[a.holder.target] < rank[id])
    modifies b, b.text
    ensures var e := AttributeFragment(models, rank, id, a, varName, old(b.varNumber));
      b.text.buffer == old(b.text.buffer) + e.text && b.varNumber == e.next && ok == e.ok
    ensures b.text.indentation == old(b.text.indentation)
    decreases rank[id], 0, 1
  {
    match a
    case PropertyAttribute(p) =>
      b.text.Append(PropertyFragment(p, varName));
      ok := true;
    case HolderAttribute(h) =>
      match h
      case NodeOfRelationship(_, _, _) =>
        ok := false;
      case NodeOfNode(name, relationshipType, _, target, direction) =>
        var nodeVarName := b.Variable();
        ok := AppendTraversal(b, models, rank, id, target, name,
                              NodePattern(varName, relationshipType, direction, nodeVarName), nodeVarName);
      case RelationshipOfNode(name, _, target, _) =>
        var relVarName := b.Variable();
        ok := AppendTraversal(b, models, rank, id, target, name, RelationshipPattern(varName), relVarName);
  }

  /** The part of a holder's `appendCypher` after the fresh variable is taken: the
      comprehension's head, the target's fragment bound to the variable, then `]`. */
  method AppendTraversal(b: CypherStringBuilder, models: map<Id, EntityModel>, ghost rank: map<Id, nat>,
                         id: Id, target: Id, name: string, pattern: string, boundVar: string)
    returns (ok: bool)
    requires TraversalRanked(models, rank) && id in models && target in models && rank[target] < rank[id]
    modifies b, b.text
    ensures var e := Traversal(name, pattern, EntityFragment(models, rank, target, boundVar, old(b.varNumber)));
      b.text.buffer == old(b.text.buffer) + e.text && b.varNumber == e.next && ok == e.ok
    ensures b.text.indentation == old(b.text.indentation)
    decreases rank[id], 0, 0
  {
    b.text.Append("`" + name + "`:");
    b.text.Append("[");
    b.text.Append(pattern);
    b.text.Append("|");
    ghost var head := TraversalHead(name, pattern);
    assert b.text.buffer == old(b.text.buffer) + head;
    ghost var inner := EntityFragment(models, rank, target, boundVar, old(b.varNumber));
    ok := AppendEntityCypher(b, models, rank, target, boundVar);
    if ok {
      b.text.Append("]");
      AppendThree(old(b.text.buffer), head, inner.text, "]");
    } else {
      AppendThree(old(b.text.buffer), head, inner.text, "");
    }
  }

  /** Strings joined with `,` between neighbours, written from the front: none before the
      first and none after the last (Kotlin's `joinToString(",")`). */
  function JoinedWithCommas(parts: seq<string>): string {
    if parts == [] then ""
    else if |parts| == 1 then parts[0]
    else parts[0] + "," + JoinedWithCommas(parts[1..])
  }

  lemma {:induction false} JoinedSnoc(parts: seq<string>, p: string)
    ensures JoinedWithCommas(parts + [p]) == if parts == [] then p else JoinedWithCommas(parts) + "," + p
  {
    if |parts| >= 2 {
      assert (parts + [p])[1..] == parts[1..] + [p];
      JoinedSnoc(parts[1..], p);
    } else if |parts| == 1 {
      assert (parts + [p])[1..] == [p];
    }
  }

  /** The fragments of an entity model's properties, in order. */
  function PropertyFragments(ps: seq<Property>, varName: string): (r: seq<string>)
    ensures |r| == |ps|
    ensures forall i :: 0 <= i < |ps| ==> r[i] == PropertyFragment(ps[i], varName)
  {
    seq(|ps|, i requires 0 <= i < |ps| => PropertyFragment(ps[i], varName))
  }

  /** An entity model without holders emits its properties' fragments joined by `,`
      inside braces, completes, and takes no fresh variable. */
  lemma PropertiesOnlyFragment(models: map<Id, EntityModel>, rank: map<Id, nat>, id: Id,
                               varName: string, n: nat)
    requires TraversalRanked(models, rank) && id in models && models[id].entityHolders == []
    ensures EntityFragment(models, rank, id, varName, n)
         == Emitted("{" + JoinedWithCommas(PropertyFragments(models[id].properties, varName)) + "}", n, true)
  {
    PropertiesPrefix(models, rank, id, varName, n, |models[id].properties|);
    assert PropertyFragments(models[id].properties, varName)[..|models[id].properties|]
        == PropertyFragments(models[id].properties, varName);
  }

  lemma {:induction false} PropertiesPrefix(models: map<Id, EntityModel>, rank: map<Id, nat>, id: Id,
                                            varName: string, n: nat, count: nat)
    requires TraversalRanked(models, rank) && id in models && models[id].entityHolders == []
    requires count <= |models[id].properties|
    ensures AttributesFragment(models, rank, id, count, varName, n)
         == Emitted(JoinedWithCommas(PropertyFragments(models[id].properties, varName)[..count]), n, true)
  {
    var frags := PropertyFragments(models[id].properties, varName);
    if count > 0 {
      PropertiesPrefix(models, rank, id, varName, n, count - 1);
      assert frags[..count] == frags[..count - 1] + [frags[count - 1]];
      JoinedSnoc(frags[..count - 1], frags[count - 1]);
    }
  }

  /** An entity model with no attributes emits `{}`. */
  lemma EmptyEntityFragment(models: map<Id, EntityModel>, rank: map<Id, nat>, id: Id, varName: string, n: nat)
    requires TraversalRanked(models, rank) && id in models
    requires models[id].properties == [] && models[id].entityHolders == []
    ensures EntityFragment(models, rank, id, varName, n) == Emitted("{}", n, true)
  {
    PropertiesOnlyFragment(models, rank, id, varName, n);
  }

  /** Some entity model reachable from `id` along holders has a relationship endpoint
      holder, whose `appendCypher` is not implemented. */
  ghost predicate EndpointReachable(models: map<Id, EntityModel>, rank: map<Id, nat>, id: Id)
    requires TraversalRanked(models, rank) && id in models
    decreases rank[id]
  {
    exists k :: 0 <= k < |models[id].entityHolders| &&
      (models[id].entityHolders[k].NodeOfRelationship? ||
       EndpointReachable(models, rank, models[id].entityHolders[k].target))
  }

  /** An attribute whose fragment completes. */
  ghost predicate Emittable(models: map<Id, EntityModel>, rank: map<Id, nat>, a: Attribute)
    requires TraversalRanked(models, rank)
  {
    a.PropertyAttribute? ||
    (!a.holder.NodeOfRelationship? && a.holder.target in models && !EndpointReachable(models, rank, a.holder.target))
  }

  /** The Cypher of an entity model is emitted completely exactly when no relationship
      endpoint holder can be reached from it; otherwise the emission throws. */
  lemma {:induction false} EntityFragmentOk(models: map<Id, EntityModel>, rank: map<Id, nat>, id: Id,
                                            varName: string, n: nat)
    requires TraversalRanked(models, rank) && id in models
    ensures EntityFragment(models, rank, id, varName, n).ok <==> !EndpointReachable(models, rank, id)
    decreases rank[id], 2
  {
    var m := models[id];
    var attrs := Attributes(m);
    AttributesFragmentOk(models, rank, id, varName, n, |attrs|);
    if EndpointReachable(models, rank, id) {
      var k :| 0 <= k < |m.entityHolders| &&
        (m.entityHolders[k].NodeOfRelationship? || EndpointReachable(models, rank, m.entityHolders[k].target));
      assert attrs[|m.properties| + k] == HolderAttribute(m.entityHolders[k]);
      assert !Emittable(models, rank, attrs[|m.properties| + k]);
    } else {
      forall j | 0 <= j < |attrs| ensures Emittable(models, rank, attrs[j]) {
        if j >= |m.properties| {
          var k := j - |m.properties|;
          assert attrs[j] == HolderAttribute(m.entityHolders[k]);
        }
      }
    }
  }

  /** The first `count` attributes all emit completely. */
  ghost predicate PrefixEmittable(models: map<Id, EntityModel>, rank: map<Id, nat>, id: Id, count: nat)
    requires TraversalRanked(models, rank) && id in models && count <= |Attributes(models[id])|
  {
    forall j :: 0 <= j < count ==> Emittable(models, rank, Attributes(models[id])[j])
  }

  lemma PrefixEmittableStep(models: map<Id, EntityModel>, rank: map<Id, nat>, id: Id, count: nat)
    requires TraversalRanked(models, rank) && id in models && 0 < count <= |Attributes(models[id])|
    ensures PrefixEmittable(models, rank, id, count)
        <==> PrefixEmittable(models, rank, id, count - 1) && Emittable(models, rank, Attributes(models[id])[count - 1])
  {
  }

  lemma {:induction false} AttributesFragmentOk(models: map<Id, EntityModel>, rank: map<Id, nat>, id: Id,
                                                varName: string, n: nat, count: nat)
    requires TraversalRanked(models, rank) && id in models && count <= |Attributes(models[id])|
    ensures AttributesFragment(models, rank, id, count, varName, n).ok <==> PrefixEmittable(models, rank, id, count)
    decreases rank[id], 1, count
  {
    AttributesTraversedBelow(models, rank, id);
    var attrs := Attributes(models[id]);
    if count > 0 {
      var init := AttributesFragment(models, rank, id, count - 1, varName, n);
      AttributesFragmentOk(models, rank, id, varName, n, count - 1);
      AttributeFragmentOk(models, rank, id, attrs[count - 1], varName, init.next);
      AttributesOkStep(models, rank, id, varName, n, count);
      PrefixEmittableStep(models, rank, id, count);
    }
  }

  /** The list emits completely when its shorter prefix does and then its last attribute does. */
  lemma AttributesOkStep(models: map<Id, EntityModel>, rank: map<Id, nat>, id: Id,
                         varName: string, n: nat, count: nat)
    requires TraversalRanked(models, rank) && id in models && 0 < count <= |Attributes(models[id])|
    ensures TraversedBelow(models, rank, id, Attributes(models[id]))
    ensures var init := AttributesFragment(models, rank, id, count - 1, varName, n);
      AttributesFragment(models, rank, id, count, varName, n).ok
        == (init.ok && AttributeFragment(models, rank, id, Attributes(models[id])[count - 1], varName, init.next).ok)
  {
    AttributesTraversedBelow(models, rank, id);
  }

  lemma {:induction false} AttributeFragmentOk(models: map<Id, EntityModel>, rank: map<Id, nat>, id: Id,
                                               a: Attribute, varName: string, n: nat)
    requires TraversalRanked(models, rank) && id in models
    requires a.HolderAttribute? ==> a.holder.target in models && (a.holder.NodeOfRelationship? || rank[a.holder.target] < rank[id])
    ensures AttributeFragment(models, rank, id, a, varName, n).ok <==> Emittable(models, rank, a)
    decreases rank[id], 0
  {
    if a.HolderAttribute? && !a.holder.NodeOfRelationship? {
      EntityFragmentOk(models, rank, a.holder.target, VariableName(n), n + 1);
    }
  }

  /** The fresh variables taken below `id`: one per holder, plus those its target takes. */
  ghost function TraversalCount(models: map<Id, EntityModel>, rank: map<Id, nat>, id: Id): nat
    requires TraversalRanked(models, rank) && id in models
    decreases rank[id], 2
  {
    AttributesTraversalCount(models, rank, id, |Attributes(models[id])|)
  }

  /** The fresh variables taken by the first `count` attributes of `id`. */
  ghost function AttributesTraversalCount(models: map<Id, EntityModel>, rank: map<Id, nat>, id: Id, count: nat): nat
    requires TraversalRanked(models, rank) && id in models && count <= |Attributes(models[id])|
    decreases rank[id], 1, count
  {
    AttributesTraversedBelow(models, rank, id);
    if count == 0 then 0
    else AttributesTraversalCount(models, rank, id, count - 1)
         + AttributeTraversals(models, rank, id, Attributes(models[id])[count - 1])
  }

  /** The fresh variables one attribute takes: none for a property, one for a holder
      plus those its target takes. */
  ghost function AttributeTraversals(models: map<Id, EntityModel>, rank: map<Id, nat>, id: Id, a: Attribute): nat
    requires TraversalRanked(models, rank) && id in models
    requires a.HolderAttribute? ==> a.holder.target in models && (a.holder.NodeOfRelationship? || rank[a.holder.target] < rank[id])
    decreases rank[id], 0
  {
    if a.PropertyAttribute? || a.holder.NodeOfRelationship? then 0
    else 1 + TraversalCount(models, rank, a.holder.target)
  }

  /** A complete emission takes exactly one fresh variable per traversal it writes, so
      the counter ends `TraversalCount` past where it started. */
  lemma {:induction false} EntityFragmentNext(models: map<Id, EntityModel>, rank: map<Id, nat>, id: Id,
                                              varName: string, n: nat)
    requires TraversalRanked(models, rank) && id in models
    requires EntityFragment(models, rank, id, varName, n).ok
    ensures EntityFragment(models, rank, id, varName, n).next == n + TraversalCount(models, rank, id)
    decreases rank[id], 2
  {
    AttributesFragmentNext(models, rank, id, varName, n, |Attributes(models[id])|);
  }

  lemma {:induction false} AttributesFragmentNext(models: map<Id, EntityModel>, rank: map<Id, nat>, id: Id,
                                                  varName: string, n: nat, count: nat)
    requires TraversalRanked(models, rank) && id in models && count <= |Attributes(models[id])|
    requires AttributesFragment(models, rank, id, count, varName, n).ok
    ensures AttributesFragment(models, rank, id, count, varName, n).next
         == n + AttributesTraversalCount(models, rank, id, count)
    decreases rank[id], 1, count
  {
    if count > 0 {
      AttributesOkStep(models, rank, id, varName, n, count);
      AttributesFragmentNext(models, rank, id, varName, n, count - 1);
      LastAttributeNext(models, rank, id, varName, n, count);
    }
  }

  /** The counter after attribute `count - 1` moves on by the variables it takes. */
  lemma LastAttributeNext(models: map<Id, EntityModel>, rank: map<Id, nat>, id: Id,
                          varName: string, n: nat, count: nat)
    requires TraversalRanked(models, rank) && id in models && 0 < count <= |Attributes(models[id])|
    requires AttributesFragment(models, rank, id, count, varName, n).ok
    requires AttributesFragment(models, rank, id, count - 1, varName, n).ok
    ensures TraversedBelow(models, rank, id, Attributes(models[id]))
    ensures AttributesFragment(models, rank, id, count, varName, n).next
         == AttributesFragment(models, rank, id, count - 1, varName, n).next
            + AttributeTraversals(models, rank, id, Attributes(models[id])[count - 1])
    decreases rank[id], 0
  {
    AttributesTraversedBelow(models, rank, id);
    var a := Attributes(models[id])[count - 1];
    var init := AttributesFragment(models, rank, id, count - 1, varName, n);
    AttributesNextStep(models, rank, id, varName, n, count);
    AttributesOkStep(models, rank, id, varName, n, count);
    if a.HolderAttribute? {
      HolderFragment(models, rank, id, a.holder, varName, init.next);
      if !a.holder.NodeOfRelationship? {
        EntityFragmentNext(models, rank, a.holder.target, VariableName(init.next), init.next + 1);
      }
    }
  }

  /** A holder's fragment: a relationship endpoint fails at once and writes nothing; a
      traversal takes the fresh variable `v<n>`, writes `` `name`:[ ``, its path pattern
      from `varName` and `|`, then its target's fragment bound to the fresh variable,
      and `]` once that completes; it completes and leaves the counter as the target's
      fragment does. */
  lemma HolderFragment(models: map<Id, EntityModel>, rank: map<Id, nat>, id: Id, h: EntityHolder,
                       varName: string, n: nat)
    requires TraversalRanked(models, rank) && id in models
    requires h.target in models && (h.NodeOfRelationship? || rank[h.target] < rank[id])
    ensures h.NodeOfRelationship? ==> AttributeFragment(models, rank, id, HolderAttribute(h), varName, n) == Emitted("", n, false)
    ensures !h.NodeOfRelationship? ==>
      var e := AttributeFragment(models, rank, id, HolderAttribute(h), varName, n);
      var inner := EntityFragment(models, rank, h.target, VariableName(n), n + 1);
      var close := if inner.ok then "]" else "";
      && e.ok == inner.ok && e.next == inner.next
      && (h.NodeOfNode? ==>
            e.text == "`" + h.name + "`:" + "["
                      + ("(" + varName + ")" + h.direction.ArrowStart() + ":" + h.relationshipType
                         + h.direction.ArrowEnd() + "(" + VariableName(n) + ")")
                      + "|" + inner.text + close)
      && (h.RelationshipOfNode? ==>
            e.text == "`" + h.name + "`:" + "[" + ("(" + varName + ") ()") + "|" + inner.text + close)
  {
  }

  /** The counter before attribute `count` of `id`: each attribute's fragment starts where
      the one before it left the counter. */
  ghost function AttributesCounter(models: map<Id, EntityModel>, rank: map<Id, nat>, id: Id,
                                   count: nat, varName: string, n: nat): nat
    requires TraversalRanked(models, rank) && id in models && count <= |Attributes(models[id])|
  {
    AttributesTraversedBelow(models, rank, id);
    if count == 0 then n
    else AttributeFragment(models, rank, id, Attributes(models[id])[count - 1], varName,
                           AttributesCounter(models, rank, id, count - 1, varName, n)).next
  }

  /** The fragments of the first `count` attributes of `id`, each written at the counter
      its predecessors leave. */
  ghost function AttributeTexts(models: map<Id, EntityModel>, rank: map<Id, nat>, id: Id,
                                count: nat, varName: string, n: nat): seq<string>
    requires TraversalRanked(models, rank) && id in models && count <= |Attributes(models[id])|
  {
    AttributesTraversedBelow(models, rank, id);
    if count == 0 then []
    else AttributeTexts(models, rank, id, count - 1, varName, n)
         + [AttributeFragment(models, rank, id, Attributes(models[id])[count - 1], varName,
                              AttributesCounter(models, rank, id, count - 1, varName, n)).text]
  }

  /** A completed attribute list is its fragments joined by `,`, with no comma after the
      last, and leaves the counter where the last fragment does. */
  lemma {:induction false} AttributesFragmentJoined(models: map<Id, EntityModel>, rank: map<Id, nat>, id: Id,
                                                    count: nat, varName: string, n: nat)
    requires TraversalRanked(models, rank) && id in models && count <= |Attributes(models[id])|
    requires AttributesFragment(models, rank, id, count, varName, n).ok
    ensures AttributesFragment(models, rank, id, count, varName, n).text
         == JoinedWithCommas(AttributeTexts(models, rank, id, count, varName, n))
    ensures AttributesFragment(models, rank, id, count, varName, n).next
         == AttributesCounter(models, rank, id, count, varName, n)
  {
    if count > 0 {
      var texts := AttributeTexts(models, rank, id, count - 1, varName, n);
      AttributesTraversedBelow(models, rank, id);
      var last := AttributeFragment(models, rank, id, Attributes(models[id])[count - 1], varName,
                                    AttributesCounter(models, rank, id, count - 1, varName, n)).text;
      AttributesOkStep(models, rank, id, varName, n, count);
      AttributesFragmentJoined(models, rank, id, count - 1, varName, n);
      AttributesNextStep(models, rank, id, varName, n, count);
      JoinedSnoc(texts, last);
    }
  }

  /** A completed entity fragment is `{`, its attributes' fragments joined by `,`, then `}`;
      each attribute's fragment is written at the counter the ones before it leave. */
  lemma EntityFragmentText(models: map<Id, EntityModel>, rank: map<Id, nat>, id: Id, varName: string, n: nat)
    requires TraversalRanked(models, rank) && id in models
    requires EntityFragment(models, rank, id, varName, n).ok
    ensures var count := |Attributes(models[id])|;
      && EntityFragment(models, rank, id, varName, n).text
         == "{" + JoinedWithCommas(AttributeTexts(models, rank, id, count, varName, n)) + "}"
      && EntityFragment(models, rank, id, varName, n).next == AttributesCounter(models, rank, id, count, varName, n)
  {
    AttributesFragmentJoined(models, rank, id, |Attributes(models[id])|, varName, n);
  }

  /** The counter after one more attribute is the one its fragment leaves. */
  lemma AttributesNextStep(models: map<Id, EntityModel>, rank: map<Id, nat>, id: Id,
                           varName: string, n: nat, count: nat)
    requires TraversalRanked(models, rank) && id in models && 0 < count <= |Attributes(models[id])|
    requires AttributesFragment(models, rank, id, count - 1, varName, n).ok
    ensures TraversedBelow(models, rank, id, Attributes(models[id]))
    ensures var init := AttributesFragment(models, rank, id, count - 1, varName, n);
      AttributesFragment(models, rank, id, count, varName, n).next
        == AttributeFragment(models, rank, id, Attributes(models[id])[count - 1], varName, init.next).next
  {
    AttributesTraversedBelow(models, rank, id);
  }
}
