/**
 * The node visitor Twig calls while it walks a template's syntax tree: on
 * entering a module it records the template and its constant parent, on
 * entering a block it pushes the block, on entering a hidden comment it
 * hands the text to the collection, and on leaving it undoes the module and
 * block steps. Its collection is the older (Shopware) revision.
 */
module NodeVisitor {
  import opened Common
  import opened Collections

  /** The module's `parent` node: absent, a constant name, or any other expression. */
  datatype ParentExpr = NoParent | ConstantParent(value: string) | DynamicParent

  /** The node kinds the visitor tells apart; every other node is `OtherNode`. */
  datatype Node =
    | ModuleNode(templateName: Option<string>, parent: ParentExpr, body: seq<Node>)
    | BlockNode(name: string, lineStart: int, lineEnd: int, body: seq<Node>)
    | CommentNode(text: string, exposed: bool)
    | OtherNode(body: seq<Node>)
  {
    function Children(): seq<Node> {
      if CommentNode? then [] else body
    }
  }

  function Size(n: Node): nat
    decreases n
  {
    if n.CommentNode? then 1 else 1 + SizeAll(n.body)
  }

  function SizeAll(ns: seq<Node>): nat
    decreases ns
  {
    if ns == [] then 0 else SizeAll(ns[..|ns| - 1]) + Size(ns[|ns| - 1]) + 1
  }

  /** Every node of a list is smaller than the list. */
  lemma {:induction false} SizeElement(ns: seq<Node>, i: nat)
    requires i < |ns|
    ensures Size(ns[i]) < SizeAll(ns)
    decreases |ns|
  {
    if i < |ns| - 1 {
      SizeElement(ns[..|ns| - 1], i);
    }
  }

  /** No module node anywhere in the tree. */
  predicate ModuleFree(n: Node)
    decreases n
  {
    match n
    case ModuleNode(_, _, _) => false
    case CommentNode(_, _) => true
    case BlockNode(_, _, _, body) => forall c | c in body :: ModuleFree(c)
    case OtherNode(body) => forall c | c in body :: ModuleFree(c)
  }

  /** The collection's contents: the block stack and the accepted comments. */
  datatype VisitState = VisitState(stack: Stack, comments: seq<Comment>)

  const EmptyState := VisitState(EmptyStack, [])

  /** `enterNode`'s effect on the collection. */
  function Enter(s: VisitState, node: Node, ext: Extension, defaultVersion: Option<string>): (r: Result<VisitState>)
    ensures node.ModuleNode? ==>
      && r.Ok? && r.value.comments == s.comments
      && r.value.stack.template == node.templateName
      && r.value.stack.parentTemplate == (if node.parent.ConstantParent? then Some(node.parent.value) else s.stack.parentTemplate)
      && r.value.stack.names == s.stack.names && r.value.stack.lines == s.stack.lines
      && r.value.stack.blocks == s.stack.blocks
    ensures node.BlockNode? ==>
      && r.Ok? && r.value.comments == s.comments
      && r.value.stack == Pushed(s.stack, node.name, node.lineStart, node.lineEnd)
    ensures node.CommentNode? && !node.exposed ==>
      var c := ShopwareComment(s.stack, ext, node.text, defaultVersion);
      && (c.Err? ==> r == Err(c.error))
      && (c.Ok? && c.value.None? ==> r == Ok(s))
      && (c.Ok? && c.value.Some? ==> r == Ok(s.(comments := s.comments + [c.value.value])))
    ensures node.OtherNode? || (node.CommentNode? && node.exposed) ==> r == Ok(s)
    ensures r.Err? ==> r.error == TypeError
  {
    match node
    case ModuleNode(t, parent, _) =>
      var st := if parent.ConstantParent? then s.stack.(parentTemplate := Some(parent.value)) else s.stack;
      Ok(s.(stack := st.(template := t)))
    case BlockNode(name, start, end, _) =>
      Ok(s.(stack := Pushed(s.stack, name, start, end)))
    case CommentNode(text, exposed) =>
      if exposed then Ok(s)
      else (
        match ShopwareComment(s.stack, ext, text, defaultVersion)
        case Err(e) => Err(e)
        case Ok(None) => Ok(s)
        case Ok(Some(c)) => Ok(s.(comments := s.comments + [c])))
    case OtherNode(_) => Ok(s)
  }

  /** `leaveNode`'s effect on the collection. */
  function Leave(s: VisitState, node: Node): (r: VisitState)
    requires node.BlockNode? ==> StackValid(s.stack) && s.stack.names != []
    ensures r.comments == s.comments
    ensures node.ModuleNode? ==> r.stack == s.stack.(template := None, parentTemplate := None)
    ensures node.BlockNode? ==> r.stack == Popped(s.stack)
    ensures !node.ModuleNode? && !node.BlockNode? ==> r == s
  {
    match node
    case ModuleNode(_, _, _) => s.(stack := s.stack.(template := None, parentTemplate := None))
    case BlockNode(_, _, _, _) => s.(stack := Popped(s.stack))
    case _ => s
  }

  /**
   * What a visit leaves behind: the open blocks are as before, the stack is
   * still consistent, and records and comments were only appended.
   */
  predicate Extends(s: VisitState, r: VisitState) {
    && StackValid(r.stack)
    && r.stack.names == s.stack.names
    && r.stack.lines.GetOr([]) == s.stack.lines.GetOr([])
    && |s.stack.blocks| <= |r.stack.blocks| && r.stack.blocks[..|s.stack.blocks|] == s.stack.blocks
    && |s.comments| <= |r.comments| && r.comments[..|s.comments|] == s.comments
  }

  lemma ExtendsTrans(a: VisitState, b: VisitState, c: VisitState)
    requires Extends(a, b) && Extends(b, c)
    ensures Extends(a, c)
  {
    assert c.stack.blocks[..|a.stack.blocks|] == c.stack.blocks[..|b.stack.blocks|][..|a.stack.blocks|];
    assert c.comments[..|a.comments|] == c.comments[..|b.comments|][..|a.comments|];
  }

  /**
   * Twig's depth-first walk: enter the node, visit its children in order,
   * leave it. The first `TypeError` aborts the walk. Enter and leave are
   * balanced, so the block stack comes back as it was; a block node's own
   * record is emitted last, after those of the blocks nested in it.
   */
  function Visit(s: VisitState, node: Node, ext: Extension, defaultVersion: Option<string>): (r: Result<VisitState>)
    requires StackValid(s.stack)
    ensures r.Err? ==> r.error == TypeError
    ensures r.Ok? ==> Extends(s, r.value)
    ensures r.Ok? && node.BlockNode? ==>
      var bs := r.value.stack.blocks;
      && |bs| > |s.stack.blocks|
      && bs[|bs| - 1].name == node.name
      && bs[|bs| - 1].lines == LineRange(node.lineStart, node.lineEnd)
      && bs[|bs| - 1].level == |bs| - 1
    ensures r.Ok? && node.ModuleNode? ==> r.value.stack.template.None? && r.value.stack.parentTemplate.None?
    ensures r.Ok? && ModuleFree(node) ==>
      r.value.stack.template == s.stack.template && r.value.stack.parentTemplate == s.stack.parentTemplate
    decreases Size(node), 1
  {
    match Enter(s, node, ext, defaultVersion)
    case Err(e) => Err(e)
    case Ok(s1) =>
      assert SizeAll(node.Children()) < Size(node);
      match VisitAll(s1, node.Children(), ext, defaultVersion)
      case Err(e) => Err(e)
      case Ok(s2) =>
        var r := Leave(s2, node);
        assert Extends(s, r) by {
          if node.BlockNode? {
            assert s2.stack.names == s.stack.names + [node.name];
            assert s2.stack.lines.value == s.stack.lines.GetOr([]) + [LineRange(node.lineStart, node.lineEnd)];
            assert r.stack.blocks[..|s2.stack.blocks|] == s2.stack.blocks;
            assert r.stack.blocks[..|s.stack.blocks|] == s2.stack.blocks[..|s.stack.blocks|];
          }
        }
        Ok(r)
  }

  /** The children of one node, visited left to right. */
  function VisitAll(s: VisitState, nodes: seq<Node>, ext: Extension, defaultVersion: Option<string>): (r: Result<VisitState>)
    requires StackValid(s.stack)
    ensures r.Err? ==> r.error == TypeError
    ensures r.Ok? ==> Extends(s, r.value)
    ensures r.Ok? && (forall n | n in nodes :: ModuleFree(n)) ==>
      r.value.stack.template == s.stack.template && r.value.stack.parentTemplate == s.stack.parentTemplate
    decreases SizeAll(nodes), 0
  {
    if nodes == [] then
      assert Extends(s, s) by { assert s.stack.blocks[..|s.stack.blocks|] == s.stack.blocks; assert s.comments[..|s.comments|] == s.comments; }
      Ok(s)
    else
      var init, last := nodes[..|nodes| - 1], nodes[|nodes| - 1];
      assert forall n | n in init :: n in nodes;
      match VisitAll(s, init, ext, defaultVersion)
      case Err(e) => Err(e)
      case Ok(s1) =>
        match Visit(s1, last, ext, defaultVersion)
        case Err(e) => Err(e)
        case Ok(s2) =>
          ExtendsTrans(s, s1, s2);
          Ok(s2)
  }

  /**
   * Before the first block is pushed the stack's `lines` is still null, so an
   * accepted comment ahead of every block makes `peekLines` throw and the
   * walk aborts.
   */
  lemma {:induction false} CommentBeforeFirstBlockFails(text: string, ext: Extension, defaultVersion: Option<string>, t: Option<string>, parent: ParentExpr)
    requires ext.matchComment(text).Some?
    ensures Visit(EmptyState, ModuleNode(t, parent, [CommentNode(text, false)]), ext, defaultVersion) == Err(TypeError)
  {
    var tree := ModuleNode(t, parent, [CommentNode(text, false)]);
    var s1 := Enter(EmptyState, tree, ext, defaultVersion).value;
    assert s1.stack.lines.None?;
    assert [CommentNode(text, false)][..0] == [];
    assert VisitAll(s1, [], ext, defaultVersion) == Ok(s1);
    assert Enter(s1, CommentNode(text, false), ext, defaultVersion) == Err(TypeError);
    assert Visit(s1, CommentNode(text, false), ext, defaultVersion) == Err(TypeError);
    assert VisitAll(s1, tree.Children(), ext, defaultVersion) == Err(TypeError);
  }

  /** A failure while visiting some children is the failure of visiting all of them. */
  lemma {:induction false} VisitAllPrefixErr(s: VisitState, nodes: seq<Node>, i: nat, ext: Extension, defaultVersion: Option<string>)
    requires StackValid(s.stack) && i <= |nodes|
    requires VisitAll(s, nodes[..i], ext, defaultVersion).Err?
    ensures VisitAll(s, nodes, ext, defaultVersion).Err?
    decreases |nodes|
  {
    if i < |nodes| {
      var init := nodes[..|nodes| - 1];
      assert init[..i] == nodes[..i];
      VisitAllPrefixErr(s, init, i, ext, defaultVersion);
    } else {
      assert nodes[..i] == nodes;
    }
  }

  /** The visitor: its collection and the default version it hands to `addComment`. */
  class BlockNodeVisitor {
    var collection: ShopwareBlockCollection
    var defaultVersion: Option<string>
    const ext: Extension

    function State(): VisitState
      reads this, collection, collection.stack
    {
      VisitState(collection.stack.State(), collection.comments)
    }

    /** A missing collection is replaced by a fresh one. */
    constructor (collection: Option<ShopwareBlockCollection>, defaultVersion: Option<string>, ext: Extension)
      ensures collection.Some? ==> this.collection == collection.value
      ensures collection.None? ==> fresh(this.collection) && State() == EmptyState
      ensures this.defaultVersion == defaultVersion && this.ext == ext
    {
      if collection.Some? {
        this.collection := collection.value;
      } else {
        var c := new ShopwareBlockCollection();
        this.collection := c;
      }
      this.defaultVersion := defaultVersion;
      this.ext := ext;
    }

    /** `enterNode`: returns the node it was given; the collection's `TypeError` escapes. */
    method EnterNode(node: Node) returns (r: Node, err: Option<Error>)
      modifies collection, collection.stack
      ensures r == node
      ensures var e := Enter(old(State()), node, ext, defaultVersion);
        && (e.Ok? ==> err.None? && State() == e.value)
        && (e.Err? ==> err == Some(e.error))
    {
      r := node;
      err := None;
      match node {
        case ModuleNode(t, parent, _) =>
          if parent.ConstantParent? {
            collection.stack.SetParentTemplate(Some(parent.value));
          }
          collection.stack.SetTemplate(t);
        case BlockNode(name, start, end, _) =>
          collection.stack.PushBlockStack(name, start, end);
        case CommentNode(text, exposed) =>
          if !exposed {
            err := collection.AddComment(text, ext, defaultVersion);
          }
        case OtherNode(_) =>
      }
    }

    /** `leaveNode`: returns the node it was given. */
    method LeaveNode(node: Node) returns (r: Node)
      requires node.BlockNode? ==> StackValid(State().stack) && State().stack.names != []
      modifies collection.stack
      ensures r == node
      ensures State() == Leave(old(State()), node)
    {
      r := node;
      match node {
        case ModuleNode(_, _, _) =>
          collection.stack.SetTemplate(None);
          collection.stack.SetParentTemplate(None);
        case BlockNode(_, _, _, _) =>
          collection.stack.PopBlockStack();
        case _ =>
      }
    }

    /** Twig's walk over one tree with this visitor, enter and leave around the children. */
    method Traverse(node: Node) returns (err: Option<Error>)
      requires StackValid(State().stack)
      modifies collection, collection.stack
      ensures var v := Visit(old(State()), node, ext, defaultVersion);
        && (v.Ok? ==> err.None? && State() == v.value)
        && (v.Err? ==> err == Some(v.error))
      decreases Size(node), 1
    {
      ghost var s0 := State();
      var n;
      n, err := EnterNode(node);
      if err.Some? {
        return;
      }
      ghost var s1 := State();
      assert Enter(s0, node, ext, defaultVersion) == Ok(s1);
      err := TraverseChildren(node.Children());
      if err.Some? {
        return;
      }
      ghost var s2 := State();
      n := LeaveNode(node);
      assert Visit(s0, node, ext, defaultVersion) == Ok(Leave(s2, node));
    }

    /** The children of one node, left to right; the first error stops the walk. */
    method TraverseChildren(children: seq<Node>) returns (err: Option<Error>)
      requires StackValid(State().stack)
      modifies collection, collection.stack
      ensures var v := VisitAll(old(State()), children, ext, defaultVersion);
        && (v.Ok? ==> err.None? && State() == v.value)
        && (v.Err? ==> err == Some(v.error))
      decreases SizeAll(children), 0
    {
      ghost var s1 := State();
      err := None;
      var i := 0;
      assert children[..0] == [];
      while i < |children|
        invariant 0 <= i <= |children|
        invariant VisitAll(s1, children[..i], ext, defaultVersion) == Ok(State())
        invariant err.None?
      {
        assert children[..i + 1][..i] == children[..i];
        SizeElement(children, i);
        ghost var before := State();
        err := Traverse(children[i]);
        assert children[..i + 1][i] == children[i];
        assert VisitAll(s1, children[..i + 1], ext, defaultVersion) == Visit(before, children[i], ext, defaultVersion);
        if err.Some? {
          VisitAllPrefixErr(s1, children, i + 1, ext, defaultVersion);
          return;
        }
        i := i + 1;
      }
      assert children[..i] == children;
    }

    /** `resetCollection`: hands back the filled collection and starts an empty one. */
    method ResetCollection() returns (previous: ShopwareBlockCollection)
      modifies this
      ensures previous == old(collection)
      ensures fresh(collection) && State() == EmptyState
      ensures defaultVersion == old(defaultVersion)
    {
      previous := collection;
      collection := new ShopwareBlockCollection();
    }

    /** `getDefaultVersion`. */
    function GetDefaultVersion(): Option<string>
      reads this
    {
      defaultVersion
    }

    /** `setDefaultVersion`: the getter then returns the value set. */
    method SetDefaultVersion(v: Option<string>)
      modifies this
      ensures GetDefaultVersion() == v && collection == old(collection)
    {
      defaultVersion := v;
    }
  }
}
