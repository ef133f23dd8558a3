# neo4j-kotlin-generator, modelled in Dafny

This project models the core of a Kotlin code generator for Neo4j graph schemas.

- An **entity model** describes a node or relationship type: a name, a set of
  **properties** and a list of **entity holders**.
- There are three kinds of holder:
  - a node's link to a node over a typed relationship (`NodeOfNode`);
  - a node's link to a relationship (`RelationshipOfNode`);
  - a relationship's start or end node (`NodeOfRelationship`).
- A **schema** takes a list of root models and merges every model it reaches into a
  registry keyed by name. It redirects each holder to the one model registered
  under its target's name. Then it fills each root's **data class**: a
  name-to-`KotlinModel` map.
- The Kotlin side computes:
  - how each field type is written (its `notion`);
  - the pre-order list of data classes under a type;
  - the renaming of data classes after their ancestry (`generateConcatenatedNames`);
  - the source text of the data classes (`appendCode`, `dataClassTreeCode`).
- The Cypher side writes a map projection of an entity model. Each holder becomes a
  pattern comprehension bound to a fresh variable `v0`, `v1`, … that a counter hands
  out.
- `appendString` writes a human-readable outline of a model.
- Both generators write through an indentation-aware string builder.

How the model is arranged:

- Entity models live in an arena `map<Id, EntityModel>`. A holder stores the id of
  its target model where the source stores an object reference. The merge
  reassigns those ids in place.
- Data classes are keyed by the id of their entity model:
  - `Kotlin.DataClassGraph.names` holds their mutable names;
  - `Schemas.DataClassStore.properties` holds their property maps.
- The builders are classes:
  - `IndentedStringBuilder` has a `buffer` and an `indentation`;
  - `CypherStringBuilder` has an indented builder and a `varNumber` counter.
- Every operation that writes into a builder, changes the registry or renames data
  classes is a method. It is proved against a function that says what it writes or
  what the new state is. Lemmas then prove what the source promises about those
  functions.
- The recursive generators follow holders, or property types, without a visited set.
  They terminate only where the holders they follow form no cycle. The model carries
  a ghost `rank` that strictly decreases along every holder (`Model.Ranked`, for
  `appendString`), along every holder `appendCypher` follows, i.e. every holder but a
  relationship's start or end node (`CypherFragments.TraversalRanked`), or along every
  property type (`Kotlin.ClassRanked`). `appendCypher` stops at a relationship's
  endpoint with `TODO()`, so its rank admits cycles through those holders.
- The merge itself needs no such rank. It terminates on cyclic graphs, because every
  recursive step registers a name that was not registered before.

Files:

- `seqs.dfy`: sequence helpers.
- `ordered_map.dfy`: insertion-ordered maps, i.e. Kotlin's `LinkedHashMap`.
- `indented_string.dfy`: the builder and `treeString`.
- `cypher.dfy`: the variable counter.
- `model.kt` is modelled in four files:
  - `model.dfy`: entities, attributes, `kotlinModel`, `populateDataClass`;
  - `cypher_fragments.dfy`: `appendCypher`;
  - `model_strings.dfy`: `appendString`;
  - `schema.dfy`: `Schema`, the merge, and populating the data classes.
- `kotlin.dfy`: `KotlinModel`.

## Model

| member | source | states |
|---|---|---|
| IndentedString.IndentedStringBuilder.constructor | src/main/kotlin/dev/latantal/neo4j/generator/util/IndentedString.kt:3-5 | a new builder keeps its tab, has empty text and indentation 0 |
| IndentedString.IndentedStringBuilder.Append | src/main/kotlin/dev/latantal/neo4j/generator/util/IndentedString.kt:6-8 | the text gains exactly `s` at the end; the indentation is unchanged |
| IndentedString.IndentedStringBuilder.Newline | src/main/kotlin/dev/latantal/neo4j/generator/util/IndentedString.kt:9-12 | the text gains `\n` followed by the tab repeated `indentation` times; the indentation is unchanged |
| IndentedString.IndentedStringBuilder.BeginIndented | src/main/kotlin/dev/latantal/neo4j/generator/util/IndentedString.kt:13-14 | entering `indented` raises the indentation by one and writes nothing |
| IndentedString.IndentedStringBuilder.EndIndented | src/main/kotlin/dev/latantal/neo4j/generator/util/IndentedString.kt:16 | leaving `indented` lowers the indentation back by one and writes nothing |
| IndentedString.IndentedStringBuilder.ToString | src/main/kotlin/dev/latantal/neo4j/generator/util/IndentedString.kt:18 | `toString` is exactly the accumulated text |
| IndentedString.Repeat | src/main/kotlin/dev/latantal/neo4j/generator/util/IndentedString.kt:11 | `tab.repeat(n)` has `n` times the tab's length and holds only the tab's characters |
| IndentedString.AppendTree | src/main/kotlin/dev/latantal/neo4j/generator/util/IndentedString.kt:30-38 | the local `append(node)` writes the node's string, then each child on a new line one level deeper, and ends at the indentation it started at |
| IndentedString.TreeString | src/main/kotlin/dev/latantal/neo4j/generator/util/IndentedString.kt:21-40 | `treeString` as written returns a fresh builder at indentation 0 that indents with the two-space default whatever `tab` it is given: the `tab` parameter never reaches `buildIndentedString`. Its text is empty for a null root, else the tree's text from depth 0 |
| IndentedString.TreeStringWithTab | src/main/kotlin/dev/latantal/neo4j/generator/util/IndentedString.kt:21-29 | the intended `treeString`: the same text, indented with the given tab |
| IndentedString.TreeStringIgnoresTab | src/main/kotlin/dev/latantal/neo4j/generator/util/IndentedString.kt:21-29 | for a root with one child and the tab `\t`, `treeString` as written gives `root\n  child`, where the given tab gives `root\n\tchild` |
| IndentedString.TreeLineBreaks | src/main/kotlin/dev/latantal/neo4j/generator/util/IndentedString.kt:30-38 | when no node string and not the tab contains a line break, the tree text has one line break per node below the root: every child starts a line of its own |
| IndentedString.ForestLineBreaks | src/main/kotlin/dev/latantal/neo4j/generator/util/IndentedString.kt:33-36 | the children's text has one line break per node of the children's subtrees |
| Cypher.CypherStringBuilder.constructor | src/main/kotlin/dev/latantal/neo4j/generator/cypher.kt:5-6 | a new Cypher builder is an indented builder with the two-space tab, empty text and indentation 0, and its counter starts at 0 |
| Cypher.CypherStringBuilder.Variable | src/main/kotlin/dev/latantal/neo4j/generator/cypher.kt:7 | `variable()` returns `v` followed by the counter's decimal digits, then raises the counter by exactly one |
| Cypher.FirstVariables | src/main/kotlin/dev/latantal/neo4j/generator/cypher.kt:5-7 | the first two calls on a new builder return `v0` and `v1` |
| Cypher.DecimalString | src/main/kotlin/dev/latantal/neo4j/generator/cypher.kt:7 | `Int.toString()` of a non-negative counter is non-empty and all digits, with one digit exactly below 10 |
| Cypher.Digit | src/main/kotlin/dev/latantal/neo4j/generator/cypher.kt:7 | the character written for a digit `d` below 10 is a decimal digit whose value is `d` |
| Cypher.DecimalStringValue | src/main/kotlin/dev/latantal/neo4j/generator/cypher.kt:7 | the digits written for `n` denote `n`, read most significant digit first |
| Cypher.DecimalStringInjective | src/main/kotlin/dev/latantal/neo4j/generator/cypher.kt:7 | different counter values are written differently |
| Cypher.VariableNamesDistinct | src/main/kotlin/dev/latantal/neo4j/generator/cypher.kt:6-7 | names handed out at different counter values differ, so one builder never repeats a name |
| OrderedMaps.OrderedMap.Put | src/main/kotlin/dev/latantal/neo4j/generator/model.kt:145 | `map[k] = v` stores `v` under `k`. A new key goes to the end of the iteration order and an existing key keeps its place. Well-formedness is kept |
| OrderedMaps.PutAll | src/main/kotlin/dev/latantal/neo4j/generator/model.kt:145 | storing a list of entries in order leaves the old keys plus the entries' keys, each under the last value given for it |
| OrderedMaps.PutAllTwice | src/main/kotlin/dev/latantal/neo4j/generator/model.kt:145 | storing the same entries a second time changes nothing |
| OrderedMaps.LastEntry | src/main/kotlin/dev/latantal/neo4j/generator/model.kt:145 | an entry that no later entry shares a key with carries the value kept for its key |
| OrderedMaps.ValueList | src/main/kotlin/dev/latantal/neo4j/generator/model.kt:231 | `values.toList()` lists the value of every key in iteration order |
| Model.EntityHolder.HolderMultiplicity | src/main/kotlin/dev/latantal/neo4j/generator/model.kt:124 | a relationship's endpoint holder always has multiplicity ONE; the other holders have the one they were given |
| Model.RelationshipDirection.ArrowStart | src/main/kotlin/dev/latantal/neo4j/generator/model.kt:19-21 | the opening arrow: `<-[` for INCOMING, `-[` for OUTGOING |
| Model.RelationshipDirection.ArrowEnd | src/main/kotlin/dev/latantal/neo4j/generator/model.kt:19-21 | the closing arrow: `]-` for INCOMING, `]->` for OUTGOING |
| Model.WithMultiplicity | src/main/kotlin/dev/latantal/neo4j/generator/kotlin.kt:52-56 | `withMultiplicity`: ONE leaves the type, ONE_OR_ZERO wraps it in `Maybe`, MANY in `Multiple` |
| Model.KotlinModelOf | src/main/kotlin/dev/latantal/neo4j/generator/model.kt:47-54 | an attribute's `kotlinModel`: a property's primitive type, in `Maybe` when nullable; a holder's target data class with the holder's multiplicity |
| Model.AttributeNotion | src/main/kotlin/dev/latantal/neo4j/generator/model.kt:47-54 | the `kotlinModel` of an attribute, with `withMultiplicity` (kotlin.kt:52-56), as written in a data class. A property is its qualified type name, followed by `?` exactly when nullable. A holder is its target data class's name: bare for ONE, followed by `?` for ONE_OR_ZERO, inside `List<…>` for MANY |
| Model.Attributes | src/main/kotlin/dev/latantal/neo4j/generator/model.kt:140 | `attributes` lists every property first, then every entity holder, each in insertion order, and nothing else |
| Model.FieldEntries | src/main/kotlin/dev/latantal/neo4j/generator/model.kt:145 | the entries `populateDataClass` stores: one per attribute in order, its name with its `kotlinModel` |
| Model.PopulateWith | src/main/kotlin/dev/latantal/neo4j/generator/model.kt:145 | the `forEach` of `populateDataClass`: each attribute in order stores its `kotlinModel` under its name |
| Model.Populated | src/main/kotlin/dev/latantal/neo4j/generator/model.kt:145 | `populateDataClass`: the data-class map populated with the model's attributes |
| Model.PopulateWithEntries | src/main/kotlin/dev/latantal/neo4j/generator/model.kt:145 | the `forEach` that populates a data class stores the attributes' entries one after another |
| Model.PopulatedKeys | src/main/kotlin/dev/latantal/neo4j/generator/model.kt:145 | after `populateDataClass` the map is still well formed and holds its old keys plus exactly one key per attribute name |
| Model.PopulatedField | src/main/kotlin/dev/latantal/neo4j/generator/model.kt:145 | an attribute that no later attribute shares a name with is stored with its own `kotlinModel` |
| Model.PopulatedTwice | src/main/kotlin/dev/latantal/neo4j/generator/model.kt:145 | populating a data class a second time changes nothing |
| Model.FieldEntryKeys | src/main/kotlin/dev/latantal/neo4j/generator/model.kt:145 | the keys stored are exactly the attributes' names |
| Model.AttributesBelow | src/main/kotlin/dev/latantal/neo4j/generator/model.kt:148 | on a ranked arena every holder among the attributes targets a model of lower rank, so recursing into targets terminates |
| CypherFragments.EntityFragment | src/main/kotlin/dev/latantal/neo4j/generator/model.kt:160-171 | an entity's fragment starts with `{` and, when it completes, ends with `}`; the counter never goes back. `EntityFragmentText` states its exact text. It is defined on every arena whose traversals (holders other than relationship endpoints) rank downwards, so cycles through a relationship's endpoint are included |
| CypherFragments.AttributesFragment | src/main/kotlin/dev/latantal/neo4j/generator/model.kt:163-168 | what the attribute loop writes: each fragment but the last followed by `,`, stopping at the first fragment that fails |
| CypherFragments.PropertyFragment | src/main/kotlin/dev/latantal/neo4j/generator/model.kt:44-46 | a property's fragment `` `name`:var.name `` |
| CypherFragments.NodePattern | src/main/kotlin/dev/latantal/neo4j/generator/model.kt:87 | the path pattern of a `NodeOfNode` holder, `(var)<arrowStart>:TYPE<arrowEnd>(nodeVar)` |
| CypherFragments.RelationshipPattern | src/main/kotlin/dev/latantal/neo4j/generator/model.kt:111 | the pattern of a `RelationshipOfNode` holder, `(var) ()` |
| CypherFragments.AttributesCounter | src/main/kotlin/dev/latantal/neo4j/generator/model.kt:164-168 | the counter each attribute's fragment starts at: where the attribute before it left the counter |
| CypherFragments.AttributeTexts | src/main/kotlin/dev/latantal/neo4j/generator/model.kt:164-168 | the fragments of the first `count` attributes, each written at the counter its predecessors leave |
| CypherFragments.AttributesFragmentJoined | src/main/kotlin/dev/latantal/neo4j/generator/model.kt:163-168 | a completed attribute list is exactly its fragments joined by `,`, with no comma after the last, and leaves the counter where the last fragment does |
| CypherFragments.EntityFragmentText | src/main/kotlin/dev/latantal/neo4j/generator/model.kt:160-171 | a completed entity fragment is exactly `{`, the attributes' fragments joined by `,`, then `}` |
| CypherFragments.AttributeFragment | src/main/kotlin/dev/latantal/neo4j/generator/model.kt:44-46 | a property's fragment is exactly `` `name`:var.name ``, completes and takes no variable. A traversal holder always takes at least one fresh variable |
| CypherFragments.AppendEntityCypher | src/main/kotlin/dev/latantal/neo4j/generator/model.kt:160-171 | `appendCypher` of an entity model writes exactly its fragment and leaves the counter where the fragment does. It reports failure exactly where the source throws. The indentation is untouched |
| CypherFragments.AppendAttributesCypher | src/main/kotlin/dev/latantal/neo4j/generator/model.kt:163-168 | the attribute loop writes all attributes' fragments separated by `,`, with no trailing comma, or what they write up to the failing one |
| CypherFragments.AppendLeadingAttributes | src/main/kotlin/dev/latantal/neo4j/generator/model.kt:164-167 | `dropLast(1).forEach`: on success every attribute but the last is written, each followed by `,`. On failure the text is what the whole list writes before the throw |
| CypherFragments.AppendAttributeCypher | src/main/kotlin/dev/latantal/neo4j/generator/model.kt:44-46 | one attribute's `appendCypher` writes exactly its fragment and moves the counter as the fragment says |
| CypherFragments.AppendListedAttribute | src/main/kotlin/dev/latantal/neo4j/generator/model.kt:165 | the `i`-th attribute written inside the loop: the buffer then holds the first `i + 1` fragments, and the counter is where they leave it |
| CypherFragments.AppendTraversal | src/main/kotlin/dev/latantal/neo4j/generator/model.kt:84-91 | a holder's comprehension: `` `name`:[pattern| ``, then the target's fragment bound to the fresh variable, then `]` once the target completes |
| CypherFragments.HolderFragment | src/main/kotlin/dev/latantal/neo4j/generator/model.kt:82-132 | a relationship-endpoint holder writes nothing, takes no variable and fails (`TODO()`), whatever its target and that target's rank. A `NodeOfNode` holder writes exactly `` `name`:[(var)<arrowStart>:TYPE<arrowEnd>(vN)| `` with `vN` the fresh variable, then its target's fragment bound to `vN`, then `]` once that completes. A `RelationshipOfNode` holder does the same with `` `name`:[(var) ()| ``. Both complete, and leave the counter, as the target's fragment does |
| CypherFragments.Traversal | src/main/kotlin/dev/latantal/neo4j/generator/model.kt:84-91 | the comprehension completes, and leaves the counter, as its nested fragment does |
| CypherFragments.PropertiesOnlyFragment | src/main/kotlin/dev/latantal/neo4j/generator/model.kt:160-171 | an entity model without holders emits `{`, its properties' fragments joined by `,`, then `}`. It completes and takes no fresh variable |
| CypherFragments.PropertiesPrefix | src/main/kotlin/dev/latantal/neo4j/generator/model.kt:163-168 | the first `count` property fragments are joined with `,` and take no variable |
| CypherFragments.EmptyEntityFragment | src/main/kotlin/dev/latantal/neo4j/generator/model.kt:160-171 | an entity model with no attributes emits `{}` |
| CypherFragments.JoinedSnoc | src/main/kotlin/dev/latantal/neo4j/generator/model.kt:163-168 | joining with `,` and then adding one more part puts exactly one `,` before it, and none before the first part |
| CypherFragments.PropertyFragments | src/main/kotlin/dev/latantal/neo4j/generator/model.kt:45 | one property fragment per property, in order |
| CypherFragments.EntityFragmentOk | src/main/kotlin/dev/latantal/neo4j/generator/model.kt:130-132 | an entity model's Cypher is emitted completely exactly when no relationship endpoint holder can be reached from it; otherwise the emission throws |
| CypherFragments.AttributesTraversedBelow | src/main/kotlin/dev/latantal/neo4j/generator/model.kt:160-168 | every traversal among a model's attributes targets a model of the arena ranked below it, and every holder attribute targets a model of the arena |
| CypherFragments.RankedTraversals | src/main/kotlin/dev/latantal/neo4j/generator/model.kt:82-132 | a rank that decreases along every holder also decreases along every traversal, so the Cypher model covers every arena the outline model covers |
| CypherFragments.PersonLikesUnranked | src/main/kotlin/dev/latantal/neo4j/generator/model.kt:106-132 | a node `Person` with a relationship holder `likes` to `Likes`, whose start node is `Person`, is a cycle: no rank decreases along all its holders |
| CypherFragments.PersonLikesRanked | src/main/kotlin/dev/latantal/neo4j/generator/model.kt:106-132 | the same arena does have a rank that decreases along its traversals, because the cycle closes through a relationship endpoint |
| CypherFragments.LikesFragment | src/main/kotlin/dev/latantal/neo4j/generator/model.kt:130-132 | the relationship `Likes` writes `{` and then fails at its start-node holder (`TODO()`), without taking a variable |
| CypherFragments.PersonLikesFragment | src/main/kotlin/dev/latantal/neo4j/generator/model.kt:106-116 | `Person`'s Cypher is exactly ``{`likes`:[(n) ()|{``, with one variable taken, and then fails: the text written before the throw |
| CypherFragments.PersonLikesEndpoint | src/main/kotlin/dev/latantal/neo4j/generator/model.kt:130-132 | a relationship endpoint can be reached from `Person`, which is why its emission fails |
| CypherFragments.AttributesFragmentOk | src/main/kotlin/dev/latantal/neo4j/generator/model.kt:163-168 | the attribute list completes exactly when each of its attributes completes |
| CypherFragments.AttributeFragmentOk | src/main/kotlin/dev/latantal/neo4j/generator/model.kt:82-132 | one attribute completes exactly when it is a property, or a traversal holder whose target completes |
| CypherFragments.AttributesOkStep | src/main/kotlin/dev/latantal/neo4j/generator/model.kt:164-168 | one more attribute completes the list exactly when the shorter list and the new attribute both complete |
| CypherFragments.PrefixEmittableStep | src/main/kotlin/dev/latantal/neo4j/generator/model.kt:164-168 | the first `count` attributes can all be emitted exactly when the first `count - 1` can and the last one can |
| CypherFragments.FailureStays | src/main/kotlin/dev/latantal/neo4j/generator/model.kt:164-168 | once a prefix of the attributes fails, the whole list fails with the same text: nothing is written after the throw |
| CypherFragments.AttributesStep | src/main/kotlin/dev/latantal/neo4j/generator/model.kt:164-168 | writing one more attribute after the `,` extends the buffer to the longer list's text |
| CypherFragments.EntityFragmentNext | src/main/kotlin/dev/latantal/neo4j/generator/model.kt:82-116 | a complete emission takes exactly one fresh variable per traversal it writes, nested ones included |
| CypherFragments.AttributesFragmentNext | src/main/kotlin/dev/latantal/neo4j/generator/model.kt:163-168 | a complete attribute list moves the counter by the sum of its attributes' traversal counts |
| CypherFragments.LastAttributeNext | src/main/kotlin/dev/latantal/neo4j/generator/model.kt:163-168 | the last attribute moves the counter by its own traversal count |
| CypherFragments.AttributesNextStep | src/main/kotlin/dev/latantal/neo4j/generator/model.kt:163-168 | the counter after one more attribute is the one that attribute's fragment leaves |
| ModelStrings.LowerCase | src/main/kotlin/dev/latantal/neo4j/generator/model.kt:126 | `toLowerCase` maps an ASCII capital to the small letter at the same place in the alphabet and leaves other characters alone |
| ModelStrings.AttributeHead | src/main/kotlin/dev/latantal/neo4j/generator/model.kt:43-126 | what an attribute's `appendString` writes before its target's outline: `p name: Type`, `n name: <arrow>TYPE<arrow>`, `r name: <arrow>[Rel]<arrow>`, or `S s name: ` / `E e name: ` |
| ModelStrings.EntityText | src/main/kotlin/dev/latantal/neo4j/generator/model.kt:151-158 | `EntityModel.appendString`'s text: every attribute on a new line one level deeper |
| ModelStrings.AttributeText | src/main/kotlin/dev/latantal/neo4j/generator/model.kt:78-81 | an attribute's `appendString` text: its head, then for a holder its target's outline |
| ModelStrings.AppendEntityString | src/main/kotlin/dev/latantal/neo4j/generator/model.kt:151-158 | `EntityModel.appendString` writes exactly the model's outline at the builder's indentation and restores the indentation |
| ModelStrings.AppendAttributeLines | src/main/kotlin/dev/latantal/neo4j/generator/model.kt:153-156 | the body of the `indented` block writes a new line and then the attribute, for every attribute in order |
| ModelStrings.AppendAttributeString | src/main/kotlin/dev/latantal/neo4j/generator/model.kt:43-127 | each attribute writes its head: `p name: Type`, `n name: <arrow>TYPE<arrow>`, `r name: <arrow>[Rel]<arrow>`, or `S s name: ` / `E e name: `. A holder then writes its target's outline |
| ModelStrings.AttributeBelow | src/main/kotlin/dev/latantal/neo4j/generator/model.kt:80 | the holder printed at position `i` targets a model of lower rank |
| ModelStrings.AttributeForest | src/main/kotlin/dev/latantal/neo4j/generator/model.kt:153-156 | the outline tree of a model has one subtree per attribute |
| ModelStrings.AttributeTextIsTree | src/main/kotlin/dev/latantal/neo4j/generator/model.kt:78-81 | an attribute's outline is exactly what `treeString` prints for its tree: its head, then its target's attributes one level deeper |
| ModelStrings.AttributesTextIsForest | src/main/kotlin/dev/latantal/neo4j/generator/model.kt:151-158 | a model's outline is exactly the `treeString` text of its attributes' trees as children |
| ModelStrings.HeadSingleLine | src/main/kotlin/dev/latantal/neo4j/generator/model.kt:43-126 | with single-line names every head is a single line |
| ModelStrings.TreeSingleLine | src/main/kotlin/dev/latantal/neo4j/generator/model.kt:78-81 | with single-line names no line of an attribute's tree breaks |
| ModelStrings.ForestSingleLine | src/main/kotlin/dev/latantal/neo4j/generator/model.kt:151-158 | with single-line names no line of a model's outline tree breaks |
| ModelStrings.OutlineLineBreaks | src/main/kotlin/dev/latantal/neo4j/generator/model.kt:151-158 | every attribute reached from the model takes exactly one line: the outline has one line break per node of the attribute tree |
| Kotlin.KotlinModel.Base | src/main/kotlin/dev/latantal/neo4j/generator/kotlin.kt:36-50 | under all `Maybe`/`Multiple` wrappers lies a data class or a primitive |
| Kotlin.NotionShape | src/main/kotlin/dev/latantal/neo4j/generator/kotlin.kt:13-47 | a notion is the base type's name (a data class's name, a primitive's qualified name), with one `List<` in front per `Multiple`. Behind it are the closing marks, innermost first: `?` per `Maybe`, `>` per `Multiple` |
| Kotlin.Notion | src/main/kotlin/dev/latantal/neo4j/generator/kotlin.kt:13-47 | `notion()`: a data class by its name, `Maybe` with `?` behind, `Multiple` inside `List<...>`, a primitive by its qualified name |
| Kotlin.DataClasses | src/main/kotlin/dev/latantal/neo4j/generator/kotlin.kt:14-15 | `dataClasses()` of a data class starts with that data class; a primitive has none; wrappers are transparent (kotlin.kt:38, 43, 48) |
| Kotlin.PropertyClasses | src/main/kotlin/dev/latantal/neo4j/generator/kotlin.kt:15 | the collected data classes of the properties are all known data classes |
| Kotlin.DataClassesReachable | src/main/kotlin/dev/latantal/neo4j/generator/kotlin.kt:14-15 | a data class is in the collected list exactly when it can be reached from the type by following property types |
| Kotlin.PropertyClassesReachable | src/main/kotlin/dev/latantal/neo4j/generator/kotlin.kt:15 | the collected list of the first `count` properties holds exactly the data classes reachable through one of them |
| Kotlin.DataClassesRanked | src/main/kotlin/dev/latantal/neo4j/generator/kotlin.kt:14-15 | every collected data class ranks no higher than the type it was collected from |
| Kotlin.PropertyClassesRanked | src/main/kotlin/dev/latantal/neo4j/generator/kotlin.kt:15 | every data class collected through the properties ranks strictly lower than their owner |
| Kotlin.PropertyBelow | src/main/kotlin/dev/latantal/neo4j/generator/kotlin.kt:15 | on a ranked graph every property type refers to a known data class of lower rank |
| Kotlin.FirstIndex | src/main/kotlin/dev/latantal/neo4j/generator/kotlin.kt:18 | `indexOf` finds `x` at a position before which it does not occur |
| Kotlin.Cut | src/main/kotlin/dev/latantal/neo4j/generator/kotlin.kt:18 | `unneeded` is the first position of some name and no smaller than the first position of any name of the path |
| Kotlin.FirstIndexPrefix | src/main/kotlin/dev/latantal/neo4j/generator/kotlin.kt:18 | extending a path leaves the first position of names already in it unchanged |
| Kotlin.FirstIndicesPrefix | src/main/kotlin/dev/latantal/neo4j/generator/kotlin.kt:18 | dropping the last name of a path leaves the first position of every other name unchanged |
| Kotlin.ConcatenatedName | src/main/kotlin/dev/latantal/neo4j/generator/kotlin.kt:17-19 | the new name always ends with the data class's own name, because the cut is at most the last index |
| Kotlin.ConcatenatedNameKept | src/main/kotlin/dev/latantal/neo4j/generator/kotlin.kt:17-19 | a name that does not occur among its ancestors is kept unchanged |
| Kotlin.ConcatenatedNameExtended | src/main/kotlin/dev/latantal/neo4j/generator/kotlin.kt:17-19 | when names are non-empty, a name that repeats an ancestor's is strictly extended |
| Kotlin.ConcatenatedNameRepeated | src/main/kotlin/dev/latantal/neo4j/generator/kotlin.kt:17-19 | the path `A, B, A` gives `BA` |
| Kotlin.ConcatenatedNameDoubled | src/main/kotlin/dev/latantal/neo4j/generator/kotlin.kt:17-19 | the path `A, A` gives `AA` |
| Kotlin.ConcatenatedNameFresh | src/main/kotlin/dev/latantal/neo4j/generator/kotlin.kt:17-19 | the path `A, B, C` leaves `C` |
| Kotlin.RenamedPropertiesStep | src/main/kotlin/dev/latantal/neo4j/generator/kotlin.kt:20 | the properties are renamed one after another, each with the same path |
| Kotlin.RenamedEndsWith | src/main/kotlin/dev/latantal/neo4j/generator/kotlin.kt:16-49 | renaming keeps every data class named, and every new name ends with the name it had before, even for a data class renamed twice |
| Kotlin.RenamedPropertiesEndsWith | src/main/kotlin/dev/latantal/neo4j/generator/kotlin.kt:20 | renaming through the properties keeps every name as a suffix of the new one |
| Kotlin.RenamedOnlyReached | src/main/kotlin/dev/latantal/neo4j/generator/kotlin.kt:16-49 | renaming touches only the data classes that `dataClasses()` collects from the same type |
| Kotlin.RenamedPropertiesOnlyReached | src/main/kotlin/dev/latantal/neo4j/generator/kotlin.kt:20 | renaming through the properties touches only the data classes collected through them |
| Kotlin.RootKeepsName | src/main/kotlin/dev/latantal/neo4j/generator/kotlin.kt:60-63 | renaming from a data class with no prefixes leaves that data class's own name unchanged |
| Kotlin.Renamed | src/main/kotlin/dev/latantal/neo4j/generator/kotlin.kt:16-21 | `generateConcatenatedNames` as a function of the names: the data class renamed after its path, then its property types with the path ending in its former name; wrappers pass the path through (kotlin.kt:39, 44) |
| Kotlin.RenamedProperties | src/main/kotlin/dev/latantal/neo4j/generator/kotlin.kt:20 | the renaming of the first `count` property types of a data class, one after another, with the same path |
| Kotlin.DataClassGraph.constructor | src/main/kotlin/dev/latantal/neo4j/generator/kotlin.kt:9-12 | a data-class graph starts with the given names and property maps |
| Kotlin.DataClassGraph.GenerateConcatenatedNames | src/main/kotlin/dev/latantal/neo4j/generator/kotlin.kt:16-49 | `generateConcatenatedNames` leaves exactly the names given by the renaming rule; the property maps never change |
| Kotlin.DataClassGraph.RenameDataClass | src/main/kotlin/dev/latantal/neo4j/generator/kotlin.kt:16-21 | the data class is renamed after its path, then its property types with the path ending in its former name |
| Kotlin.DataClassGraph.GeneratePropertyNames | src/main/kotlin/dev/latantal/neo4j/generator/kotlin.kt:20 | the loop over the property types leaves the names the properties' renaming gives |
| Kotlin.DataClassGraph.RenamePropertyType | src/main/kotlin/dev/latantal/neo4j/generator/kotlin.kt:20 | one pass of the loop over the property types: the names become the renaming of the first `i + 1` of them |
| Kotlin.DataClassGraph.AppendCode | src/main/kotlin/dev/latantal/neo4j/generator/kotlin.kt:22-34 | `appendCode` writes `data class N(`, then one line `val k: <notion>,` per property in map order, one level deeper, trailing comma included. Then a new line at the original level and `)`. The indentation is restored |
| Kotlin.DataClassGraph.AppendFields | src/main/kotlin/dev/latantal/neo4j/generator/kotlin.kt:25-30 | the `indented` block writes one new line and one declaration per property, in map order |
| Kotlin.DataClassGraph.DataClassTreeCode | src/main/kotlin/dev/latantal/neo4j/generator/kotlin.kt:62-70 | `dataClassTreeCode` renames the whole tree first. It then writes every collected data class in `dataClasses()` order, repeats included, between a leading and a trailing line break, on a fresh builder with the two-space tab |
| Kotlin.DataClassGraph.AppendDataClasses | src/main/kotlin/dev/latantal/neo4j/generator/kotlin.kt:65-69 | the `forEach` writes each data class's code between two line breaks, in order |
| Kotlin.CodeText | src/main/kotlin/dev/latantal/neo4j/generator/kotlin.kt:22-34 | `appendCode`'s text: `data class N(`, the field lines, a new line and `)` |
| Kotlin.FieldsText | src/main/kotlin/dev/latantal/neo4j/generator/kotlin.kt:25-30 | the text of the first `count` fields: each on a new line as `val k: <notion>,` |
| Kotlin.TreeCode | src/main/kotlin/dev/latantal/neo4j/generator/kotlin.kt:65-69 | the text of the `forEach` in `dataClassTreeCode`: each data class's code between two new lines, in order |
| Kotlin.NotionLineFree | src/main/kotlin/dev/latantal/neo4j/generator/kotlin.kt:13-47 | no notion breaks a line when no name does |
| Kotlin.CodeLineBreaks | src/main/kotlin/dev/latantal/neo4j/generator/kotlin.kt:22-34 | a data class's code has one line break per property plus the one before `)` |
| Kotlin.FieldsLineBreaks | src/main/kotlin/dev/latantal/neo4j/generator/kotlin.kt:25-30 | the property lines have one line break each |
| Kotlin.NewlineLineBreaks | src/main/kotlin/dev/latantal/neo4j/generator/util/IndentedString.kt:9-12 | a `newline()` with a single-line tab writes exactly one line break |
| Kotlin.AllPrintable | src/main/kotlin/dev/latantal/neo4j/generator/kotlin.kt:22-34 | with every data class named, every data class of a ranked graph can be printed |
| Schemas.InitialRegistry | src/main/kotlin/dev/latantal/neo4j/generator/model.kt:230 | `associateBy { it.name }` gives a well-formed insertion-ordered registry |
| Schemas.InitialRegistryLastWins | src/main/kotlin/dev/latantal/neo4j/generator/model.kt:230 | a root that no later root shares a name with is the model registered under its name: on duplicate names the last one wins |
| Schemas.InitialRegistryConsistent | src/main/kotlin/dev/latantal/neo4j/generator/model.kt:230 | the starting registry maps each name to a root of that name, every root's name is registered, and only roots are registered |
| Schemas.LastValueNamed | src/main/kotlin/dev/latantal/neo4j/generator/model.kt:230 | the value kept for a name is a root of that name |
| Schemas.Schema.EntityModels | src/main/kotlin/dev/latantal/neo4j/generator/model.kt:231 | `entityModels` lists the registered models in registration order, each under its own name, none twice |
| Schemas.Schema.DataClasses | src/main/kotlin/dev/latantal/neo4j/generator/model.kt:232 | `dataClasses` is the data class of every registered model, in the same order |
| Schemas.Schema.constructor | src/main/kotlin/dev/latantal/neo4j/generator/model.kt:229-237 | `Schema(entityModels)` starts from the roots' registry, which it only extends. The ids and every model's skeleton are kept: its name, its properties, and each holder but for its target, whose new target has the old one's name. Every registered model and every root ends with only canonical holders (each targets the registered model of its target's name), and the data-class maps of exactly the roots are populated. Every name it registers beyond the roots' is the target name of a holder of a root or of a model it registered, so models nothing reaches are never registered |
| Schemas.Schema.MergeRoots | src/main/kotlin/dev/latantal/neo4j/generator/model.kt:235 | merging every root in order keeps the skeleton, leaves all roots and all registered models with only canonical holders, and only grows the registry, with names reached through holders from the roots or from models it registered |
| Schemas.Schema.MergeEntityModel | src/main/kotlin/dev/latantal/neo4j/generator/model.kt:239-242 | `mergeEntityModel` makes every holder of the model canonical. It keeps the skeleton: a holder only changes its target, to a model of the same name. Only the model's holders and newly registered models change, and the latter are fully canonical. Merging a model whose holders are all canonical changes nothing. Every name it registers is reached through holders from the model or from a model it registered |
| Schemas.Schema.MergeHolderStep | src/main/kotlin/dev/latantal/neo4j/generator/model.kt:241 | one pass of the holder loop makes holder `i` canonical, keeps the earlier ones canonical and the skeleton, never grows the set of unregistered names, and changes nothing when holder `i` was canonical. The names registered so far stay reached from the model |
| Schemas.Schema.MergeEntityHolder | src/main/kotlin/dev/latantal/neo4j/generator/model.kt:244-253 | a holder whose target's name is registered is redirected to the registered model, with the registry unchanged. Otherwise the target is registered under its name, the holder is kept, and the target's holders are merged. In that case the target's name comes right after the names registered before, and every later name is reached from the target. The skeleton is kept either way, every registered name is reached from the owner, and merging a canonical holder changes nothing |
| Schemas.Schema.RedirectHolder | src/main/kotlin/dev/latantal/neo4j/generator/model.kt:247-249 | the registered case: `entity.model = it` points the holder at the registered model and stops |
| Schemas.Schema.RegisterTarget | src/main/kotlin/dev/latantal/neo4j/generator/model.kt:251-252 | the new-name case: the target is registered under its name before its own holders are merged, so its name comes right after the names registered before, followed only by names reached from the target; the holder is kept and the skeleton too |
| Schemas.HolderStep | src/main/kotlin/dev/latantal/neo4j/generator/model.kt:241 | merging one more holder composes with the merge so far, and keeps the earlier holders canonical |
| Schemas.CanonicalPrefixKept | src/main/kotlin/dev/latantal/neo4j/generator/model.kt:241 | redirecting holder `i` leaves the holders before it canonical |
| Schemas.MergedTransitive | src/main/kotlin/dev/latantal/neo4j/generator/model.kt:239-253 | two merges on behalf of the same registered owner make one merge |
| Schemas.ExtendsTransitive | src/main/kotlin/dev/latantal/neo4j/generator/model.kt:251 | a registry that only grew twice only grew: registered entries are never overwritten |
| Schemas.RedirectMerged | src/main/kotlin/dev/latantal/neo4j/generator/model.kt:247-249 | redirecting a holder to the registered model of its target's name is a merge that makes the holder canonical |
| Schemas.RegisteredMerge | src/main/kotlin/dev/latantal/neo4j/generator/model.kt:251-252 | registering the target and then merging it is a merge on behalf of the owner, and the target is newly registered |
| Schemas.RegisteredHolder | src/main/kotlin/dev/latantal/neo4j/generator/model.kt:251-252 | the holder that led to the registration is left as it was, and is canonical |
| Schemas.RegisteredMergeFramed | src/main/kotlin/dev/latantal/neo4j/generator/model.kt:251-252 | after a registration only the owner and newly registered models have changed |
| Schemas.RegisteredMergeCanonical | src/main/kotlin/dev/latantal/neo4j/generator/model.kt:251-252 | every model registered during the merge is fully canonical |
| Schemas.MergedFromItself | src/main/kotlin/dev/latantal/neo4j/generator/model.kt:239-241 | a merge that has not started yet changes nothing |
| Schemas.RootStep | src/main/kotlin/dev/latantal/neo4j/generator/model.kt:235 | merging root `i` keeps the earlier roots canonical and makes root `i` canonical |
| Schemas.UnregisteredShrinks | src/main/kotlin/dev/latantal/neo4j/generator/model.kt:251 | as the registry grows over the same names, the set of unregistered names can only shrink: this bounds the merge on cyclic graphs |
| Schemas.SkeletonUpdate | src/main/kotlin/dev/latantal/neo4j/generator/model.kt:248 | replacing a model by one of the same shape keeps the skeleton, because no model changes its name |
| Schemas.SkeletonAt | src/main/kotlin/dev/latantal/neo4j/generator/model.kt:248 | equal skeletons agree on each model's name and number of holders |
| Schemas.Skeleton | src/main/kotlin/dev/latantal/neo4j/generator/model.kt:244-253 | what merging never changes: the ids and every model's shape, i.e. its name, properties, holders with their targets erased, and the names of the holders' targets |
| Schemas.SkeletonHolders | src/main/kotlin/dev/latantal/neo4j/generator/model.kt:247-249 | equal skeletons mean each model keeps its properties and holder count, and each holder equals its old self but for the target, whose new target has the old target's name |
| Schemas.RedirectedShape | src/main/kotlin/dev/latantal/neo4j/generator/model.kt:248 | pointing a holder at another model of its target's name keeps the model's shape |
| Schemas.MergedIdle | src/main/kotlin/dev/latantal/neo4j/generator/model.kt:244-249 | a merge that registered nothing and left its owner alone changed nothing |
| Schemas.RegisteredExtends | src/main/kotlin/dev/latantal/neo4j/generator/model.kt:251 | registering a new name and then growing the registry extends the starting registry and keeps the new name's model |
| Schemas.SkeletonTargetName | src/main/kotlin/dev/latantal/neo4j/generator/model.kt:248 | equal skeletons give every holder the same target name |
| Schemas.SourcedTransitive | src/main/kotlin/dev/latantal/neo4j/generator/model.kt:239-253 | two merges, each registering only names reached from its sources, make one that registers only names reached from the sources of either |
| Schemas.RegisteredSourced | src/main/kotlin/dev/latantal/neo4j/generator/model.kt:251-252 | registering a holder's target and then merging it puts the target's name right after the names registered before, and registers only names reached from the holder's owner |
| Schemas.RegisteredTarget | src/main/kotlin/dev/latantal/neo4j/generator/model.kt:251-252 | what the new-name case leaves: a merge on behalf of the owner, the holder unchanged and canonical, the target's name next in the registry order, and only names reached from the owner |
| Schemas.RootsStep | src/main/kotlin/dev/latantal/neo4j/generator/model.kt:235 | one pass of the roots loop: the skeleton is kept, the registry only grows, roots up to `i` are canonical, and only names reached from them were registered |
| Schemas.RootsStart | src/main/kotlin/dev/latantal/neo4j/generator/model.kt:231-235 | before the loop over the roots, the registry `associateBy` builds holds every root's name and only roots, and nothing is merged or newly registered yet |
| Schemas.RootsDone | src/main/kotlin/dev/latantal/neo4j/generator/model.kt:235 | after the loop every root and every registered model has only canonical holders, the skeleton is kept, the registry only grew, and only names reached from the roots were registered |
| Schemas.CanonicalKept | src/main/kotlin/dev/latantal/neo4j/generator/model.kt:248-251 | a canonical holder stays canonical while it is untouched and the registry only grows |
| Schemas.AllCanonicalKept | src/main/kotlin/dev/latantal/neo4j/generator/model.kt:248-251 | a model left as it was stays fully canonical |
| Schemas.Redirected | src/main/kotlin/dev/latantal/neo4j/generator/model.kt:248 | redirecting a holder keeps the model's name and its number of holders |
| Schemas.PopulateMap | src/main/kotlin/dev/latantal/neo4j/generator/model.kt:145 | the `forEach` of `populateDataClass` leaves exactly the populated map |
| Schemas.DataClassStore.constructor | src/main/kotlin/dev/latantal/neo4j/generator/model.kt:143-144 | the store starts with the given data-class maps |
| Schemas.DataClassStore.PopulateDataClass | src/main/kotlin/dev/latantal/neo4j/generator/model.kt:145 | `populateDataClass` replaces the model's own data-class map by its population and leaves every other one alone |
| Schemas.DataClassStore.PopulateDataClasses | src/main/kotlin/dev/latantal/neo4j/generator/model.kt:236 | `forEach { it.populateDataClass() }` over the roots populates exactly the roots' data classes |
| Schemas.DataClassStore.PopulateDataClassTree | src/main/kotlin/dev/latantal/neo4j/generator/model.kt:146-149 | `populateDataClassTree` populates exactly the data classes of the models reachable from the model, itself included, and no others |
| Schemas.DataClassStore.PopulateHolderTree | src/main/kotlin/dev/latantal/neo4j/generator/model.kt:148 | one pass of the holder loop of `populateDataClassTree`: the data classes reachable through holder `k` are populated as well |
| Schemas.RootDataClassFields | src/main/kotlin/dev/latantal/neo4j/generator/model.kt:234-237 | after construction each root's data-class map holds one entry per attribute name of its model, beside what it held before |
| Schemas.PopulatedAllUnion | src/main/kotlin/dev/latantal/neo4j/generator/model.kt:146-149 | populating one set of data classes and then another is populating their union |
| Schemas.PopulationsStable | src/main/kotlin/dev/latantal/neo4j/generator/model.kt:145 | populating again changes nothing |
| Schemas.PopulatedSingle | src/main/kotlin/dev/latantal/neo4j/generator/model.kt:145 | populating one data class replaces its map and nothing else |
| Schemas.ReplacedUnion | src/main/kotlin/dev/latantal/neo4j/generator/model.kt:146-149 | replacing maps over one set of ids and then another is replacing them over the union |
| Schemas.Reach | src/main/kotlin/dev/latantal/neo4j/generator/model.kt:146-149 | the models `populateDataClassTree` visits include the model itself |
| Schemas.ReachFrom | src/main/kotlin/dev/latantal/neo4j/generator/model.kt:148 | the models visited through the first `k` holders include the model itself |
| Schemas.ReachFromContains | src/main/kotlin/dev/latantal/neo4j/generator/model.kt:148 | everything visited behind holder `j` is visited when the loop has passed `j` |
| Schemas.ReachFromWitness | src/main/kotlin/dev/latantal/neo4j/generator/model.kt:148 | every visited model other than the starting one is visited behind one of its holders |
| Schemas.ReachClosed | src/main/kotlin/dev/latantal/neo4j/generator/model.kt:146-149 | what `populateDataClassTree` visits is closed under holders: the target of every holder of a visited model is visited too |

## Left out

- Authoring layer: `DomainEntity`, `DomainNode`, `DomainRelationship` and their `property`, `relationship`, `start` and `end` helpers (model.kt:175-224) are not modelled. The same goes for `util/delegates.kt`. They are Kotlin property delegation and reflection. Entity models arrive here with their attributes already in place.
- `attributeFactories`: their calls in the merge (model.kt:240, 246) are assumed to do nothing: entity models arrive with their attributes already created. Running them would re-add properties to a set, which changes nothing, but every holder factory appends a new holder, with a fresh target model, to `entityHolders` (model.kt:190, 196, 214), so the source merges models whose holder lists hold such duplicates.
- Reflection: `KClass` reflection and the enum `toString` of a relationship type are plain strings. `ValueType` carries `simpleName` and `qualifiedName`, and `relationshipType` is the type's name.
- Holder setters: their unchecked casts (model.kt:60, 67) are a JVM typing detail and are not modelled.
- Attribute sets: `properties` is a set and `attributes` is a set union. The model takes each entity model's properties as a sequence and lists holders after them, without removing equal elements. That the sequence of properties has no repeats is assumed, not required: a repeated property would be listed twice, where the source's set holds it once.
- Entity model equality: `EntityModel` is a data class whose equality is by name. The model tells entity models apart by id and never compares them.
- Cycles: `dataClasses()`, `generateConcatenatedNames`, `populateDataClassTree` and `appendString` recurse without a visited set and diverge on cyclic graphs. `appendCypher` diverges only on cycles of node-to-node and node-to-relationship holders. On a cycle that passes through a relationship's start or end node it stops at `TODO()` (model.kt:130-132), and the model covers that case through `CypherFragments.TraversalRanked`. The model covers the cycles on which a generator diverges only through the ghost `rank`, and claims no termination on them. The merge is modelled on cyclic arenas too.
- Model.Ranked: it carries no witness that a `rank` exists for every acyclic arena. Callers supply it. The same holds for `CypherFragments.TraversalRanked`.
- NodeOfRelationship Cypher: its `appendCypher` is `TODO()` (model.kt:130-132). The model marks the emission as failed (`ok == false`) and keeps the text written before the throw. Exception propagation itself is not modelled.
- Cypher.CypherStringBuilder.Variable: the counter is an unbounded `nat`. The source's `Int` wraps after 2^31 - 1 calls; that is not modelled.
- Builder sharing: `CypherStringBuilder` extends `IndentedStringBuilder` in the source. The model holds the indented builder in a field, because Dafny classes do not inherit.
- IndentedString.IndentedStringBuilder.BeginIndented: `indented { … }` is split into `BeginIndented` and `EndIndented` around the action, because Dafny methods take no closures.
- IndentedString.IndentedStringBuilder.EndIndented: requires a positive indentation. The source's `Int` could go negative, but every call of it follows a `BeginIndented`.
- buildIndentedString: it is inlined at its callers (`TreeString`, `DataClassTreeCode`), which create a fresh builder with the two-space tab and run the build steps on it.
- IndentedString.TreeString: the `children` function is given as a finite `Tree` value, and a node's string as a function on values. A `children` function that yields an infinite tree is not modelled.
- ModelStrings.LowerCase: `Char.toLowerCase` is modelled for ASCII only. It is applied only to the first letter of `START` or `END`.
- Kotlin.Renamed: a data class without an entry in `names` is left alone. In the source every data class has a name.
- Data-class maps: each `EntityModel` of the source owns its `dataClassProperties` map. The model keeps all maps in one `DataClassStore` keyed by model id.
- Schemas.DataClassStore.PopulateDataClassTree: it requires the maps of every model of the arena to exist, as every `EntityModel` of the source has one.

## Findings

| source | as written | input that shows it | evidently intended | confidence | as-written member | corrected member |
|---|---|---|---|---|---|---|
| src/main/kotlin/dev/latantal/neo4j/generator/util/IndentedString.kt:21-29 | `treeString` declares a `tab` parameter but calls `buildIndentedString` without it, so the tree is always indented with two spaces | a root `root` with one child `child`, `tab = "\t"`: the text is `root\n  child` (`IndentedString.TreeStringIgnoresTab`) | the child indented with the given tab: `root\n\tchild` | medium, not executed | IndentedString.TreeString | IndentedString.TreeStringWithTab |
