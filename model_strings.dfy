/** `appendString`: the human-readable outline of an entity model. Every attribute
    takes one line of its own, one level deeper than the model that owns it, and an
    entity holder's line is followed by the outline of the model it targets.

    The text functions say what the printers write when the builder stands at
    indentation `depth`; the attribute tree functions restate the outline as a tree
    of lines, which is what the generic `treeString` prints. */
module ModelStrings {
  import opened Model
  import opened Kotlin
  import opened IndentedString
  import opened Seqs

  /** `Char.toLowerCase` on the ASCII letters; any other character is left alone. */
  function LowerCase(c: char): (r: char)
    ensures 'A' <= c <= 'Z' ==> 'a' <= r <= 'z' && r as int - 'a' as int == c as int - 'A' as int
    ensures !('A' <= c <= 'Z') ==> r == c
  {
    if 'A' <= c <= 'Z' then (c as int - 'A' as int + 'a' as int) as char else c
  }

  /** What an attribute's `appendString` appends before its target's outline:
      `p name: Type`, `n name: <-[TYPE]-`, `r name: -[[Rel]]->`, or the first letter of
      the endpoint's role, upper then lower case, as in `S s name: `. */
  function AttributeHead(models: map<Id, EntityModel>, a: Attribute): string
    requires a.HolderAttribute? ==> a.holder.target in models
  {
    match a
    case PropertyAttribute(p) => "p " + p.name + ": " + p.valueType.simpleName
    case HolderAttribute(h) =>
      match h
      case NodeOfNode(name, relationshipType, _, _, direction) =>
        "n " + name + ": " + direction.ArrowStart() + relationshipType + direction.ArrowEnd()
      case RelationshipOfNode(name, _, target, direction) =>
        "r " + name + ": " + direction.ArrowStart() + "[" + models[target].name + "]" + direction.ArrowEnd()
      case NodeOfRelationship(name, _, role) =>
        var initial := role.Name()[0];
        [initial] + " " + [LowerCase(initial)] + " " + name + ": "
  }

  /** `EntityModel.appendString` at indentation `depth`: every attribute on a new line
      one level deeper. */
  ghost function EntityText(models: map<Id, EntityModel>, rank: map<Id, nat>, id: Id,
                            tab: string, depth: nat): string
    requires Ranked(models, rank) && id in models
    decreases rank[id], 2
  {
    AttributesText(models, rank, id, |Attributes(models[id])|, tab, depth + 1)
  }

  /** The lines of the first `count` attributes of the model, at indentation `depth`. */
  ghost function AttributesText(models: map<Id, EntityModel>, rank: map<Id, nat>, id: Id,
                                count: nat, tab: string, depth: nat): string
    requires Ranked(models, rank) && id in models && count <= |Attributes(models[id])|
    decreases rank[id], 1, count
  {
    AttributesBelow(models, rank, id);
    if count == 0 then ""
    else
      AttributesText(models, rank, id, count - 1, tab, depth)
      + NewlineText(tab, depth) + AttributeText(models, rank, id, Attributes(models[id])[count - 1], tab, depth)
  }

  /** An attribute's `appendString`: its head, then for a holder the outline of its target. */
  ghost function AttributeText(models: map<Id, EntityModel>, rank: map<Id, nat>, id: Id,
                               a: Attribute, tab: string, depth: nat): string
    requires Ranked(models, rank) && id in models
    requires a.HolderAttribute? ==> a.holder.target in models && rank[a.holder.target] < rank[id]
    decreases rank[id], 0
  {
    AttributeHead(models, a)
    + if a.HolderAttribute? then EntityText(models, rank, a.holder.target, tab, depth) else ""
  }

  /** `EntityModel.appendString`: the attributes in order inside one `indented` block. */
  method AppendEntityString(b: IndentedStringBuilder, models: map<Id, EntityModel>, ghost rank: map<Id, nat>, id: Id)
    requires Ranked(models, rank) && id in models
    modifies b
    ensures b.buffer == old(b.buffer) + EntityText(models, rank, id, b.tab, old(b.indentation))
    ensures b.indentation == old(b.indentation)
    decreases rank[id], 2
  {
    ghost var start := b.buffer;
    ghost var text := EntityText(models, rank, id, b.tab, b.indentation);
    assert text == AttributesText(models, rank, id, |Attributes(models[id])|, b.tab, b.indentation + 1);
    b.BeginIndented();
    AppendAttributeLines(b, models, rank, id);
    assert b.buffer == start + text;
    b.EndIndented();
  }

  /** The body of the `indented` block: a new line, then the attribute, for every attribute. */
  method AppendAttributeLines(b: IndentedStringBuilder, models: map<Id, EntityModel>, ghost rank: map<Id, nat>, id: Id)
    requires Ranked(models, rank) && id in models
    modifies b
    ensures b.buffer == old(b.buffer) + AttributesText(models, rank, id, |Attributes(models[id])|, b.tab, old(b.indentation))
    ensures b.indentation == old(b.indentation)
    decreases rank[id], 1
  {
    var attrs := Attributes(models[id]);
    ghost var start := b.buffer;
    var i := 0;
    while i < |attrs|
      invariant i <= |attrs|
      invariant b.indentation == old(b.indentation)
      invariant b.buffer == start + AttributesText(models, rank, id, i, b.tab, b.indentation)
    {
      ghost var done := AttributesText(models, rank, id, i, b.tab, b.indentation);
      b.Newline();
      AttributeBelow(models, rank, id, i);
      AppendAttributeString(b, models, rank, id, attrs[i]);
      AppendThree(start, done, NewlineText(b.tab, b.indentation), AttributeText(models, rank, id, attrs[i], b.tab, b.indentation));
      i := i + 1;
    }
  }

  /** The `appendString` of a property or an entity holder. */
  method AppendAttributeString(b: IndentedStringBuilder, models: map<Id, EntityModel>, ghost rank: map<Id, nat>,
                               id: Id, a: Attribute)
    requires Ranked(models, rank) && id in models
    requires a.HolderAttribute? ==> a.holder.target in models && rank[a.holder.target] < rank[id]
    modifies b
    ensures b.buffer == old(b.buffer) + AttributeText(models, rank, id, a, b.tab, old(b.indentation))
    ensures b.indentation == old(b.indentation)
    decreases rank[id], 0
  {
    b.Append(AttributeHead(models, a));
    if a.HolderAttribute? {
      AppendEntityString(b, models, rank, a.holder.target);
    }
  }

  /** The holder at position `i` of the attributes points below the model. */
  lemma AttributeBelow(models: map<Id, EntityModel>, rank: map<Id, nat>, id: Id, i: nat)
    requires Ranked(models, rank) && id in models && i < |Attributes(models[id])|
    ensures var a := Attributes(models[id])[i];
      a.HolderAttribute? ==> a.holder.target in models && rank[a.holder.target] < rank[id]
  {
    AttributesBelow(models, rank, id);
  }

  /** `treeString`'s default node printer `{ it.toString() }`: a string prints as itself. */
  function AsString(s: string): string {
    s
  }

  /** The outline as a tree: an attribute's head line with, below it, the trees of its
      target's attributes. */
  ghost function AttributeTree(models: map<Id, EntityModel>, rank: map<Id, nat>, id: Id, a: Attribute): Tree<string>
    requires Ranked(models, rank) && id in models
    requires a.HolderAttribute? ==> a.holder.target in models && rank[a.holder.target] < rank[id]
    decreases rank[id], 0
  {
    Tree(AttributeHead(models, a),
         if a.HolderAttribute?
         then AttributeForest(models, rank, a.holder.target, |Attributes(models[a.holder.target])|)
         else [])
  }

  /** The trees of the first `count` attributes of the model. */
  ghost function AttributeForest(models: map<Id, EntityModel>, rank: map<Id, nat>, id: Id, count: nat): (r: seq<Tree<string>>)
    requires Ranked(models, rank) && id in models && count <= |Attributes(models[id])|
    ensures |r| == count
    decreases rank[id], 1, count
  {
    AttributesBelow(models, rank, id);
    if count == 0 then []
    else AttributeForest(models, rank, id, count - 1) + [AttributeTree(models, rank, id, Attributes(models[id])[count - 1])]
  }

  /** The outline is what `treeString` prints for the attribute tree: an attribute's text
      is its tree's text, and a model's attributes are printed as that many children. */
  lemma {:induction false} AttributeTextIsTree(models: map<Id, EntityModel>, rank: map<Id, nat>, id: Id,
                                               a: Attribute, tab: string, depth: nat)
    requires Ranked(models, rank) && id in models
    requires a.HolderAttribute? ==> a.holder.target in models && rank[a.holder.target] < rank[id]
    ensures AttributeText(models, rank, id, a, tab, depth) == TreeText(AttributeTree(models, rank, id, a), AsString, tab, depth)
    decreases rank[id], 0
  {
    if a.HolderAttribute? {
      var target := a.holder.target;
      AttributesTextIsForest(models, rank, target, |Attributes(models[target])|, tab, depth + 1);
    }
  }

  lemma {:induction false} AttributesTextIsForest(models: map<Id, EntityModel>, rank: map<Id, nat>, id: Id,
                                                  count: nat, tab: string, depth: nat)
    requires Ranked(models, rank) && id in models && count <= |Attributes(models[id])|
    ensures AttributesText(models, rank, id, count, tab, depth)
         == ChildrenText(AttributeForest(models, rank, id, count), AsString, tab, depth)
    decreases rank[id], 1, count
  {
    if count > 0 {
      AttributesBelow(models, rank, id);
      var forest := AttributeForest(models, rank, id, count);
      assert forest[..count - 1] == AttributeForest(models, rank, id, count - 1);
      AttributesTextIsForest(models, rank, id, count - 1, tab, depth);
      AttributeTextIsTree(models, rank, id, Attributes(models[id])[count - 1], tab, depth);
    }
  }

  /** No name the outline prints breaks a line. */
  ghost predicate SingleLineNames(models: map<Id, EntityModel>) {
    forall id :: id in models ==> '\n' !in models[id].name && SingleLineAttributes(Attributes(models[id]))
  }

  ghost predicate SingleLineAttributes(attrs: seq<Attribute>) {
    forall i :: 0 <= i < |attrs| ==> SingleLineAttribute(attrs[i])
  }

  ghost predicate SingleLineAttribute(a: Attribute) {
    match a
    case PropertyAttribute(p) => '\n' !in p.name && '\n' !in p.valueType.simpleName
    case HolderAttribute(h) => '\n' !in h.name && (h.NodeOfNode? ==> '\n' !in h.relationshipType)
  }

  /** With single-line names every head is a single line. */
  lemma HeadSingleLine(models: map<Id, EntityModel>, a: Attribute)
    requires SingleLineNames(models) && SingleLineAttribute(a)
    requires a.HolderAttribute? ==> a.holder.target in models
    ensures '\n' !in AttributeHead(models, a)
  {
    if a.HolderAttribute? && a.holder.NodeOfRelationship? {
      var initial := a.holder.role.Name()[0];
      assert initial == 'S' || initial == 'E';
    }
  }

  lemma {:induction false} TreeSingleLine(models: map<Id, EntityModel>, rank: map<Id, nat>, id: Id, a: Attribute)
    requires Ranked(models, rank) && id in models && SingleLineNames(models) && SingleLineAttribute(a)
    requires a.HolderAttribute? ==> a.holder.target in models && rank[a.holder.target] < rank[id]
    ensures SingleLineNodes(AttributeTree(models, rank, id, a), AsString)
    decreases rank[id], 0
  {
    HeadSingleLine(models, a);
    if a.HolderAttribute? {
      var target := a.holder.target;
      ForestSingleLine(models, rank, target, |Attributes(models[target])|);
    }
  }

  lemma {:induction false} ForestSingleLine(models: map<Id, EntityModel>, rank: map<Id, nat>, id: Id, count: nat)
    requires Ranked(models, rank) && id in models && SingleLineNames(models)
    requires count <= |Attributes(models[id])|
    ensures SingleLineForest(AttributeForest(models, rank, id, count), AsString)
    decreases rank[id], 1, count
  {
    if count > 0 {
      AttributesBelow(models, rank, id);
      var forest := AttributeForest(models, rank, id, count);
      assert forest[..count - 1] == AttributeForest(models, rank, id, count - 1);
      ForestSingleLine(models, rank, id, count - 1);
      TreeSingleLine(models, rank, id, Attributes(models[id])[count - 1]);
    }
  }

  /** Every attribute reached from the model takes exactly one line: the outline holds
      one line break per node of the attribute tree. */
  lemma OutlineLineBreaks(models: map<Id, EntityModel>, rank: map<Id, nat>, id: Id, tab: string, depth: nat)
    requires Ranked(models, rank) && id in models && SingleLineNames(models) && '\n' !in tab
    ensures var forest := AttributeForest(models, rank, id, |Attributes(models[id])|);
      Count(EntityText(models, rank, id, tab, depth), '\n') == ForestSize(forest)
  {
    var count := |Attributes(models[id])|;
    AttributesTextIsForest(models, rank, id, count, tab, depth + 1);
    ForestSingleLine(models, rank, id, count);
    ForestLineBreaks(AttributeForest(models, rank, id, count), AsString, tab, depth + 1);
  }
}
