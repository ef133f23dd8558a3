/** The indentation-aware text builder both generators write into, and the
    generic tree printer built on it. */
module IndentedString {
  import opened Seqs

  /** The tab `buildIndentedString` and `treeString` use when none is given. */
  const DefaultTab: string := "  "

  /** `s` written `n` times in a row (Kotlin's `String.repeat`). */
  function Repeat(s: string, n: nat): (r: string)
    ensures |r| == |s| * n
    ensures forall c :: c in r ==> c in s
  {
    if n == 0 then "" else s + Repeat(s, n - 1)
  }

  /** What `newline()` writes at indentation `depth`. */
  function NewlineText(tab: string, depth: nat): string {
    "\n" + Repeat(tab, depth)
  }

  class IndentedStringBuilder {
    const tab: string
    /** The text written so far (the private StringBuilder). */
    var buffer: string
    var indentation: nat

    constructor (tab: string)
      ensures this.tab == tab && buffer == "" && indentation == 0
    {
      this.tab := tab;
      buffer := "";
      indentation := 0;
    }

    /** Adds the string form of an object at the end; the indentation is untouched. */
    method Append(s: string)
      modifies this
      ensures buffer == old(buffer) + s
      ensures indentation == old(indentation)
    {
      buffer := buffer + s;
    }

    /** Starts a new line indented by `indentation` tabs. */
    method Newline()
      modifies this
      ensures buffer == old(buffer) + NewlineText(tab, indentation)
      ensures indentation == old(indentation)
    {
      Append("\n");
      Append(Repeat(tab, indentation));
    }

    /** The opening half of `indented { … }`: the block runs one level deeper. */
    method BeginIndented()
      modifies this
      ensures indentation == old(indentation) + 1
      ensures buffer == old(buffer)
    {
      indentation := indentation + 1;
    }

    /** The closing half of `indented { … }`: back to the level before the block. */
    method EndIndented()
      requires indentation > 0
      modifies this
      ensures indentation == old(indentation) - 1
      ensures buffer == old(buffer)
    {
      indentation := indentation - 1;
    }

    /** The accumulated text, exactly. */
    function ToString(): (s: string)
      reads this
      ensures s == buffer
    {
      buffer
    }
  }

  /** A finite tree: the root handed to `treeString` together with what its
      `children` function yields, level after level. */
  datatype Tree<T> = Tree(value: T, children: seq<Tree<T>>)

  function Size<T>(t: Tree<T>): nat
    decreases t, 1
  {
    1 + ForestSize(t.children)
  }

  function ForestSize<T>(ts: seq<Tree<T>>): nat
    decreases ts, 0
  {
    if ts == [] then 0 else ForestSize(ts[..|ts| - 1]) + Size(ts[|ts| - 1])
  }

  /** What `treeString` writes for `t` when the builder stands at indentation `depth`:
      the node's string, then every child on a new line one level deeper. */
  function TreeText<T>(t: Tree<T>, str: T -> string, tab: string, depth: nat): string
    decreases t, 1
  {
    str(t.value) + ChildrenText(t.children, str, tab, depth + 1)
  }

  function ChildrenText<T>(ts: seq<Tree<T>>, str: T -> string, tab: string, depth: nat): string
    decreases ts, 0
  {
    if ts == [] then ""
    else ChildrenText(ts[..|ts| - 1], str, tab, depth)
         + NewlineText(tab, depth) + TreeText(ts[|ts| - 1], str, tab, depth)
  }

  /** No node's string breaks a line. */
  predicate SingleLineNodes<T>(t: Tree<T>, str: T -> string)
    decreases t, 1
  {
    '\n' !in str(t.value) && SingleLineForest(t.children, str)
  }

  predicate SingleLineForest<T>(ts: seq<Tree<T>>, str: T -> string)
    decreases ts, 0
  {
    ts != [] ==> SingleLineForest(ts[..|ts| - 1], str) && SingleLineNodes(ts[|ts| - 1], str)
  }

  /** Appends the tree below the current position (the local `append` of `treeString`). */
  method AppendTree<T>(b: IndentedStringBuilder, t: Tree<T>, str: T -> string)
    modifies b
    ensures b.buffer == old(b.buffer) + TreeText(t, str, b.tab, old(b.indentation))
    ensures b.indentation == old(b.indentation)
    decreases t
  {
    ghost var depth := b.indentation;
    b.Append(str(t.value));
    ghost var prefix := b.buffer;
    b.BeginIndented();
    var i := 0;
    while i < |t.children|
      invariant 0 <= i <= |t.children|
      invariant b.indentation == depth + 1
      invariant b.buffer == prefix + ChildrenText(t.children[..i], str, b.tab, depth + 1)
    {
      ghost var done := ChildrenText(t.children[..i], str, b.tab, depth + 1);
      b.Newline();
      AppendTree(b, t.children[i], str);
      assert t.children[..i + 1][..i] == t.children[..i];
      AppendThree(prefix, done, NewlineText(b.tab, depth + 1), TreeText(t.children[i], str, b.tab, depth + 1));
      i := i + 1;
    }
    assert t.children[..i] == t.children;
    b.EndIndented();
  }

  /** `treeString` as written: an empty text for a missing root, else the whole tree from
      indentation 0. The `tab` parameter is accepted but never handed to the builder, so
      the tree is always indented with `DefaultTab`. */
  method TreeString<T>(root: Option<Tree<T>>, str: T -> string, tab: string) returns (b: IndentedStringBuilder)
    ensures fresh(b) && b.tab == DefaultTab && b.indentation == 0
    ensures b.ToString() == if root.None? then "" else TreeText(root.value, str, DefaultTab, 0)
  {
    b := new IndentedStringBuilder(DefaultTab);
    if root.Some? {
      AppendTree(b, root.value, str);
    }
  }

  /** `treeString` as its signature intends: the tree indented with the given `tab`. */
  method TreeStringWithTab<T>(root: Option<Tree<T>>, str: T -> string, tab: string) returns (b: IndentedStringBuilder)
    ensures fresh(b) && b.tab == tab && b.indentation == 0
    ensures b.ToString() == if root.None? then "" else TreeText(root.value, str, tab, 0)
  {
    b := new IndentedStringBuilder(tab);
    if root.Some? {
      AppendTree(b, root.value, str);
    }
  }

  /** A root with one child, asked for with a tab character: `treeString` writes the child
      after two spaces, where the given tab would put a tab character. */
  lemma TreeStringIgnoresTab()
    ensures var t := Tree("root", [Tree("child", [])]);
      && TreeText(t, (s: string) => s, DefaultTab, 0) == "root\n  child"
      && TreeText(t, (s: string) => s, "\t", 0) == "root\n\tchild"
  {
    var leaf := Tree("child", []);
    var t := Tree("root", [leaf]);
    var str := (s: string) => s;
    assert [leaf][..0] == [];
    assert Repeat(DefaultTab, 1) == "  " by { assert Repeat(DefaultTab, 0) == ""; }
    assert Repeat("\t", 1) == "\t" by { assert Repeat("\t", 0) == ""; }
    assert TreeText(leaf, str, DefaultTab, 1) == "child";
    assert TreeText(leaf, str, "\t", 1) == "child";
  }

  datatype Option<T> = None | Some(value: T)

  /** Every node but the root starts a line of its own: the text holds one line break
      per node below the root, provided no node string and not the tab breaks a line. */
  lemma {:induction false} TreeLineBreaks<T>(t: Tree<T>, str: T -> string, tab: string, depth: nat)
    requires SingleLineNodes(t, str) && '\n' !in tab
    ensures Count(TreeText(t, str, tab, depth), '\n') == Size(t) - 1
    decreases t, 1
  {
    CountAbsent(str(t.value), '\n');
    ForestLineBreaks(t.children, str, tab, depth + 1);
    CountAppend(str(t.value), ChildrenText(t.children, str, tab, depth + 1), '\n');
  }

  lemma {:induction false} ForestLineBreaks<T>(ts: seq<Tree<T>>, str: T -> string, tab: string, depth: nat)
    requires SingleLineForest(ts, str) && '\n' !in tab
    ensures Count(ChildrenText(ts, str, tab, depth), '\n') == ForestSize(ts)
    decreases ts, 0
  {
    if ts != [] {
      var init, last := ts[..|ts| - 1], ts[|ts| - 1];
      ForestLineBreaks(init, str, tab, depth);
      TreeLineBreaks(last, str, tab, depth);
      var nl := NewlineText(tab, depth);
      CountAbsent(Repeat(tab, depth), '\n');
      CountAppend("\n", Repeat(tab, depth), '\n');
      CountAppend(ChildrenText(init, str, tab, depth), nl, '\n');
      CountAppend(ChildrenText(init, str, tab, depth) + nl, TreeText(last, str, tab, depth), '\n');
    }
  }
}
