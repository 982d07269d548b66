/**
 * The collection nodes the node visitor fills while Twig compiles a template:
 * a block stack that emits one block record each time a block is left, and
 * two revisions of a comment collection that attach a parsed hash and
 * version to the block on top of the stack.
 */
module Collections {
  import opened Common

  /**
   * The block stack's fields: the current template and parent (set by the
   * visitor), the names and line ranges of the open blocks, and the records
   * emitted so far. `lines` is null until the first push.
   */
  datatype Stack = Stack(
    template: Option<string>,
    parentTemplate: Option<string>,
    names: seq<string>,
    lines: Option<seq<LineRange>>,
    blocks: seq<Block>)

  const EmptyStack := Stack(None, None, [], None, [])

  /**
   * What every push and pop keeps: one line range per open block name, and
   * each record's level is the number of records emitted before it.
   */
  predicate StackValid(s: Stack) {
    && (s.lines.None? ==> s.names == [])
    && (s.lines.Some? ==> |s.lines.value| == |s.names|)
    && (forall i :: 0 <= i < |s.blocks| ==> s.blocks[i].level == i)
  }

  /** `peekBlockStack`: the innermost open block, null at root level. */
  function PeekName(s: Stack): (r: Option<string>)
    ensures r.None? <==> s.names == []
    ensures r.Some? ==> r.value == s.names[|s.names| - 1]
  {
    if s.names == [] then None else Some(s.names[|s.names| - 1])
  }

  /**
   * `peekLines`: the innermost open block's range, null on an empty stack;
   * before the first push `count(null)` throws PHP 8's `TypeError`.
   */
  function PeekLines(s: Stack): (r: Result<Option<LineRange>>)
    ensures s.lines.None? <==> r == Err(TypeError)
    ensures s.lines.Some? ==> r.Ok? && (r.value.None? <==> s.lines.value == [])
    ensures s.lines.Some? && s.lines.value != [] ==> r == Ok(Some(s.lines.value[|s.lines.value| - 1]))
  {
    match s.lines
    case None => Err(TypeError)
    case Some(ls) => Ok(if ls == [] then None else Some(ls[|ls| - 1]))
  }

  /** `pushBlockStack`: the name and range go on top, and the peeks return exactly them. */
  function Pushed(s: Stack, name: string, start: int, end: int): (r: Stack)
    ensures StackValid(s) ==> StackValid(r)
    ensures PeekName(r) == Some(name) && PeekLines(r) == Ok(Some(LineRange(start, end)))
    ensures |r.names| == |s.names| + 1 && r.names[..|s.names|] == s.names
    ensures r.lines.Some? && r.lines.value[..|r.lines.value| - 1] == s.lines.GetOr([])
    ensures r.blocks == s.blocks && r.template == s.template && r.parentTemplate == s.parentTemplate
  {
    s.(names := s.names + [name], lines := Some(s.lines.GetOr([]) + [LineRange(start, end)]))
  }

  /**
   * `popBlockStack`: the top name and range come off, and exactly one record
   * is appended with them, the current template and parent, and as level the
   * number of records already emitted; the entries below the top stay.
   */
  function Popped(s: Stack): (r: Stack)
    requires StackValid(s) && s.names != []
    ensures StackValid(r)
    ensures r.names == s.names[..|s.names| - 1] && r.lines == Some(s.lines.value[..|s.names| - 1])
    ensures |r.blocks| == |s.blocks| + 1 && r.blocks[..|s.blocks|] == s.blocks
    ensures r.blocks[|s.blocks|] ==
      Block(s.template, s.parentTemplate, s.names[|s.names| - 1], s.lines.value[|s.names| - 1], |s.blocks|)
    ensures r.template == s.template && r.parentTemplate == s.parentTemplate
  {
    var n := |s.names| - 1;
    var record := Block(s.template, s.parentTemplate, s.names[n], s.lines.value[n], |s.blocks|);
    Stack(s.template, s.parentTemplate, s.names[..n], Some(s.lines.value[..n]), s.blocks + [record])
  }

  /** A pop undoes a push on the stack itself, and emits the pushed block. */
  lemma PopAfterPush(s: Stack, name: string, start: int, end: int)
    requires StackValid(s)
    ensures var r := Popped(Pushed(s, name, start, end));
      && r.names == s.names && r.lines == Some(s.lines.GetOr([]))
      && r.blocks == s.blocks + [Block(s.template, s.parentTemplate, name, LineRange(start, end), |s.blocks|)]
  {
    var p := Pushed(s, name, start, end);
    assert p.names[..|s.names|] == s.names;
    assert p.lines.value[..|s.names|] == s.lines.GetOr([]);
  }

  /** The stack trait's fields, updated in place. */
  class BlockStack {
    var template: Option<string>
    var parentTemplate: Option<string>
    var names: seq<string>
    var lines: Option<seq<LineRange>>
    var blocks: seq<Block>

    function State(): Stack
      reads this
    {
      Stack(template, parentTemplate, names, lines, blocks)
    }

    constructor ()
      ensures State() == EmptyStack
    {
      template := None;
      parentTemplate := None;
      names := [];
      lines := None;
      blocks := [];
    }

    /** `setTemplate`. */
    method SetTemplate(t: Option<string>)
      modifies this
      ensures State() == old(State()).(template := t)
    {
      template := t;
    }

    /** `setParentTemplate`. */
    method SetParentTemplate(t: Option<string>)
      modifies this
      ensures State() == old(State()).(parentTemplate := t)
    {
      parentTemplate := t;
    }

    /** `pushBlockStack`. */
    method PushBlockStack(name: string, start: int, end: int)
      modifies this
      ensures State() == Pushed(old(State()), name, start, end)
    {
      names := names + [name];
      lines := Some(lines.GetOr([]) + [LineRange(start, end)]);
    }

    /** `popBlockStack`: its assertions demand an open block. */
    method PopBlockStack()
      requires StackValid(State()) && names != []
      modifies this
      ensures State() == Popped(old(State()))
    {
      var n := |names| - 1;
      var name := names[n];
      var range := lines.value[n];
      names := names[..n];
      lines := Some(lines.value[..n]);
      blocks := blocks + [Block(template, parentTemplate, name, range, |blocks|)];
    }
  }

  /**
   * The newer revision's `addComment` record, built by `createComment`: a
   * rejected comment gets a null hash and version and is kept all the same;
   * the version falls back to the default; the block and range are the
   * stack's top; the raw text is kept. Only `peekLines` can throw.
   */
  function CollectedComment(s: Stack, ext: Extension, text: string, defaultVersion: Option<string>): (r: Result<Comment>)
    ensures s.lines.None? <==> r.Err?
    ensures r.Err? ==> r.error == TypeError
    ensures r.Ok? ==> var c := r.value;
      && c.template == s.template && c.parentTemplate == s.parentTemplate
      && c.block == PeekName(s) && c.lines == PeekLines(s).value
      && c.raw == Some(text)
      && (ext.matchComment(text).None? ==> c.hash.None? && c.version == defaultVersion)
      && (ext.matchComment(text).Some? ==>
            c.hash == ext.matchComment(text).value.hash
            && c.version == (if ext.matchComment(text).value.version.Some? then ext.matchComment(text).value.version else defaultVersion))
  {
    var parsed := ext.matchComment(text).GetOr(CommentMatch(None, None));
    match PeekLines(s)
    case Err(e) => Err(e)
    case Ok(range) =>
      Ok(Comment(s.template, s.parentTemplate, PeekName(s), range, parsed.hash,
                 if parsed.version.Some? then parsed.version else defaultVersion, Some(text)))
  }

  /**
   * The older revision's `addComment` record: a rejected comment is dropped
   * (`None`); otherwise the same record without the raw text.
   */
  function ShopwareComment(s: Stack, ext: Extension, text: string, defaultVersion: Option<string>): (r: Result<Option<Comment>>)
    ensures ext.matchComment(text).None? ==> r == Ok(None)
    ensures ext.matchComment(text).Some? && s.lines.None? ==> r == Err(TypeError)
    ensures ext.matchComment(text).Some? && s.lines.Some? ==> r.Ok? && r.value.Some?
    ensures r.Ok? && r.value.Some? ==>
      var c, m := r.value.value, ext.matchComment(text).value;
      && ext.matchComment(text).Some? && s.lines.Some?
      && c.template == s.template && c.parentTemplate == s.parentTemplate
      && c.block == PeekName(s) && c.lines == PeekLines(s).value
      && c.hash == m.hash && c.version == (if m.version.Some? then m.version else defaultVersion)
      && c.raw.None?
  {
    match ext.matchComment(text)
    case None => Ok(None)
    case Some(m) =>
      match PeekLines(s)
      case Err(e) => Err(e)
      case Ok(range) =>
        Ok(Some(Comment(s.template, s.parentTemplate, PeekName(s), range, m.hash,
                        if m.version.Some? then m.version else defaultVersion, None)))
  }

  /** `CommentCollectionNode`: the block stack and the comments, in insertion order. */
  class CommentCollection {
    const stack: BlockStack
    var comments: seq<Comment>

    constructor ()
      ensures fresh(stack) && stack.State() == EmptyStack && comments == []
    {
      stack := new BlockStack();
      comments := [];
    }

    /**
     * `addComment`: exactly one record is appended, whether or not the
     * comment parses; the `TypeError` of `peekLines` escapes.
     */
    method AddComment(text: string, ext: Extension, defaultVersion: Option<string>) returns (err: Option<Error>)
      modifies this
      ensures var r := CollectedComment(stack.State(), ext, text, defaultVersion);
        && (r.Ok? ==> err.None? && comments == old(comments) + [r.value])
        && (r.Err? ==> err == Some(r.error) && comments == old(comments))
    {
      var r := CollectedComment(stack.State(), ext, text, defaultVersion);
      if r.Err? {
        return Some(r.error);
      }
      comments := comments + [r.value];
      return None;
    }
  }

  /** `ShopwareBlockCollectionNode`: the block stack and the accepted comments, in insertion order. */
  class ShopwareBlockCollection {
    const stack: BlockStack
    var comments: seq<Comment>

    constructor ()
      ensures fresh(stack) && stack.State() == EmptyStack && comments == []
    {
      stack := new BlockStack();
      comments := [];
    }

    /** `addComment`: a rejected comment leaves the collection unchanged, an accepted one appends one record. */
    method AddComment(text: string, ext: Extension, defaultVersion: Option<string>) returns (err: Option<Error>)
      modifies this
      ensures var r := ShopwareComment(stack.State(), ext, text, defaultVersion);
        && (r.Ok? && r.value.Some? ==> err.None? && comments == old(comments) + [r.value.value])
        && (r.Ok? && r.value.None? ==> err.None? && comments == old(comments))
        && (r.Err? ==> err == Some(r.error) && comments == old(comments))
    {
      var r := ShopwareComment(stack.State(), ext, text, defaultVersion);
      if r.Err? {
        return Some(r.error);
      }
      if r.value.Some? {
        comments := comments + [r.value.value];
      }
      return None;
    }
  }
}
