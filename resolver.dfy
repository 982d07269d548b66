/**
 * Ancestor resolution and block-content extraction: a block is looked up in
 * its template's name-keyed block table, its `parent_template` links are
 * followed to the top-most ancestor that re-declares it, and that ancestor's
 * text is cut out of the template source between the block's tags.
 */
module Resolver {
  import opened Common
  import opened Text
  import opened TagMatch
  import opened Environment

  /** `resolveBlock`: the block stored under `name` in the template's table, if any. */
  function ResolveBlock(store: Store, template: string, name: string): (r: Result<Option<Block>>)
    ensures template !in store ==> r == Err(TemplateNotFound(template))
    ensures template in store ==> r.Ok?
    ensures template in store ==>
      (r.value.Some? <==> exists i :: 0 <= i < |store[template].blocks| && store[template].blocks[i].name == name)
    ensures r.Ok? && r.value.Some? ==> r.value.value.name == name && r.value.value in store[template].blocks
  {
    if template !in store then Err(TemplateNotFound(template))
    else
      BlockMapNames(store[template].blocks);
      var table := BlockMap(store[template].blocks);
      Ok(if name in table then Some(table[name]) else None)
  }

  function Elements(s: seq<string>): set<string> {
    set x | x in s
  }

  /** Moving to a template not yet visited shrinks the set of unvisited templates, or leaves the store. */
  lemma {:induction false} ShrinkUnvisited(keys: set<string>, visited: seq<string>, p: string)
    requires p !in visited
    ensures p in keys ==> |keys - Elements(visited + [p])| < |keys - Elements(visited)|
    ensures |keys - Elements(visited + [p])| <= |keys - Elements(visited)|
  {
    assert keys - Elements(visited + [p]) == (keys - Elements(visited)) - {p};
  }

  /**
   * The walk `resolveParentBlock` performs from `template`, with `visited`
   * the templates entered so far (the start template is never among them).
   */
  function Walk(store: Store, template: string, name: string, visited: seq<string>): Result<Option<Block>>
    decreases |store.Keys - Elements(visited)|, if template in store then 1 else 0
  {
    match ResolveBlock(store, template, name)
    case Err(e) => Err(e)
    case Ok(None) => Ok(None)
    case Ok(Some(b)) =>
      if b.parentTemplate.None? || b.parentTemplate.value == template then Ok(Some(b))
      else
        var p := b.parentTemplate.value;
        if p in visited then Err(RecursionError(p, visited))
        else
          ShrinkUnvisited(store.Keys, visited, p);
          Walk(store, p, name, visited + [p])
  }

  /** `resolveParentBlock`, as the source's loop. */
  method ResolveParentBlock(store: Store, template: string, name: string) returns (r: Result<Option<Block>>)
    ensures r == Walk(store, template, name, [])
  {
    var templates: seq<string> := [];
    var current := template;
    while true
      invariant Walk(store, current, name, templates) == Walk(store, template, name, [])
      decreases |store.Keys - Elements(templates)|, if current in store then 1 else 0
    {
      var block := ResolveBlock(store, current, name);
      if block.Err? {
        return Err(block.error);
      }
      if block.value.None? || block.value.value.parentTemplate.None? {
        return block;
      }
      var parent := block.value.value.parentTemplate.value;
      if current == parent {
        return block;
      }
      if parent in templates {
        return Err(RecursionError(parent, templates));
      }
      ShrinkUnvisited(store.Keys, templates, parent);
      current := parent;
      templates := templates + [current];
    }
  }

  /** The next template on the walk: the parent the block names, unless the walk stops here. */
  function Parent(store: Store, template: string, name: string): Option<string> {
    match ResolveBlock(store, template, name)
    case Ok(Some(b)) =>
      if b.parentTemplate.Some? && b.parentTemplate.value != template then b.parentTemplate else None
    case _ => None
  }

  /** The template reached after `n` parent links, an independent description of the walk without its visited list. */
  function Follow(store: Store, template: string, name: string, n: nat): Option<string>
    decreases n
  {
    if n == 0 then Some(template)
    else match Parent(store, template, name)
      case None => None
      case Some(p) => Follow(store, p, name, n - 1)
  }

  /** The chain from `template` ends after `n` links at a template whose block `b` names no further parent. */
  predicate EndsAtBlock(store: Store, template: string, name: string, n: nat, b: Block) {
    && Follow(store, template, name, n).Some?
    && ResolveBlock(store, Follow(store, template, name, n).value, name) == Ok(Some(b))
    && Parent(store, Follow(store, template, name, n).value, name).None?
  }

  /** The chain from `template` reaches, after `n` links, a template that does not declare the block. */
  predicate EndsAtMissingBlock(store: Store, template: string, name: string, n: nat) {
    && Follow(store, template, name, n).Some?
    && ResolveBlock(store, Follow(store, template, name, n).value, name) == Ok(None)
  }

  /** One parent link from `template` to `p` shifts the chain by one. */
  lemma {:induction false} FollowShift(store: Store, template: string, name: string, p: string, n: nat)
    requires Parent(store, template, name) == Some(p)
    ensures Follow(store, template, name, n + 1) == Follow(store, p, name, n)
  {
  }

  /** The same step, counted from the far end. */
  lemma {:induction false} FollowStep(store: Store, template: string, name: string, p: string, n: nat)
    requires Parent(store, template, name) == Some(p) && n > 0
    ensures Follow(store, template, name, n) == Follow(store, p, name, n - 1)
  {
  }

  /**
   * What the walk returns is where the parent chain ends: a block that names
   * no parent or itself, a template that does not re-declare the block (the
   * walk never skips to a grandparent), or a missing template; a recursion
   * error names a template already in the visited list.
   */
  lemma {:induction false} WalkSound(store: Store, template: string, name: string, visited: seq<string>)
    ensures var r := Walk(store, template, name, visited);
      && (r.Ok? && r.value.Some? ==> exists n: nat :: EndsAtBlock(store, template, name, n, r.value.value))
      && (r.Ok? && r.value.None? ==> exists n: nat :: EndsAtMissingBlock(store, template, name, n))
      && (r.Err? ==> r.error.TemplateNotFound? || (r.error.RecursionError? && r.error.template in r.error.visited))
      && (r.Err? && r.error.TemplateNotFound? ==>
            r.error.name !in store && exists n: nat :: Follow(store, template, name, n) == Some(r.error.name))
    decreases |store.Keys - Elements(visited)|, if template in store then 1 else 0
  {
    var r := Walk(store, template, name, visited);
    var rb := ResolveBlock(store, template, name);
    if rb.Ok? && rb.value.Some? {
      var b := rb.value.value;
      if b.parentTemplate.None? || b.parentTemplate.value == template {
        assert EndsAtBlock(store, template, name, 0, b);
      } else {
        var p := b.parentTemplate.value;
        if p !in visited {
          ShrinkUnvisited(store.Keys, visited, p);
          WalkSound(store, p, name, visited + [p]);
          assert r == Walk(store, p, name, visited + [p]);
          if r.Ok? && r.value.Some? {
            var n: nat :| EndsAtBlock(store, p, name, n, r.value.value);
            FollowShift(store, template, name, p, n);
            assert EndsAtBlock(store, template, name, n + 1, r.value.value);
          } else if r.Ok? {
            var n: nat :| EndsAtMissingBlock(store, p, name, n);
            FollowShift(store, template, name, p, n);
            assert EndsAtMissingBlock(store, template, name, n + 1);
          } else if r.error.TemplateNotFound? {
            var n: nat :| Follow(store, p, name, n) == Some(r.error.name);
            FollowShift(store, template, name, p, n);
          }
        }
      }
    } else if rb.Ok? {
      assert EndsAtMissingBlock(store, template, name, 0);
    } else {
      assert Follow(store, template, name, 0) == Some(template);
    }
  }

  /** One more link extends the chain by the parent of the template it reached. */
  lemma {:induction false} FollowLast(store: Store, template: string, name: string, n: nat)
    ensures Follow(store, template, name, n + 1) ==
      match Follow(store, template, name, n)
      case None => None
      case Some(u) => Parent(store, u, name)
    decreases n
  {
    if n > 0 {
      match Parent(store, template, name)
      case None =>
      case Some(p) => FollowLast(store, p, name, n - 1);
    }
  }

  /** Following `a + b` links is following `a` links, then `b` more. */
  lemma {:induction false} FollowAdd(store: Store, template: string, name: string, a: nat, b: nat)
    ensures Follow(store, template, name, a).None? ==> Follow(store, template, name, a + b).None?
    ensures Follow(store, template, name, a).Some? ==>
      Follow(store, template, name, a + b) == Follow(store, Follow(store, template, name, a).value, name, b)
    decreases a
  {
    if a == 0 {
      assert Follow(store, template, name, a) == Some(template);
      assert Follow(store, template, name, a + b) == Follow(store, template, name, b);
    } else {
      match Parent(store, template, name)
      case None =>
        assert Follow(store, template, name, a) == None;
        assert Follow(store, template, name, a + b) == None;
      case Some(p) =>
        FollowAdd(store, p, name, a - 1, b);
        FollowStep(store, template, name, p, a);
        FollowStep(store, template, name, p, a + b);
        assert Follow(store, template, name, a + b) == Follow(store, p, name, a - 1 + b);
    }
  }

  /** A template the chain returns to after `len` links starts a chain that never ends. */
  lemma {:induction false} CycleNeverEnds(store: Store, template: string, name: string, len: nat, n: nat)
    requires len > 0 && Follow(store, template, name, len) == Some(template)
    ensures Follow(store, template, name, n).Some?
    decreases n
  {
    if n < len {
      FollowAdd(store, template, name, n, len - n);
    } else {
      FollowAdd(store, template, name, len, n - len);
      CycleNeverEnds(store, template, name, len, n - len);
    }
  }

  /** A parent already on the path closes a cycle through `template`. */
  lemma {:induction false} RevisitIsCycle(store: Store, template: string, name: string, visited: seq<string>, p: string)
    requires forall i :: 0 <= i < |visited| ==> Follow(store, visited[i], name, |visited| - 1 - i) == Some(template)
    requires Parent(store, template, name) == Some(p) && p in visited
    ensures forall n: nat :: Follow(store, template, name, n).Some?
  {
    var i :| 0 <= i < |visited| && visited[i] == p;
    FollowShift(store, template, name, p, |visited| - 1 - i);
    forall n: nat ensures Follow(store, template, name, n).Some? {
      CycleNeverEnds(store, template, name, |visited| - i, n);
    }
  }

  /** Stepping to the parent keeps the path's distances exact. */
  lemma {:induction false} VisitParent(store: Store, template: string, name: string, visited: seq<string>, p: string)
    requires forall i :: 0 <= i < |visited| ==> Follow(store, visited[i], name, |visited| - 1 - i) == Some(template)
    requires Parent(store, template, name) == Some(p)
    ensures var next := visited + [p];
      forall i :: 0 <= i < |next| ==> Follow(store, next[i], name, |next| - 1 - i) == Some(p)
  {
    var next := visited + [p];
    forall i | 0 <= i < |next| ensures Follow(store, next[i], name, |next| - 1 - i) == Some(p) {
      if i < |visited| {
        FollowAdd(store, visited[i], name, |visited| - 1 - i, 1);
      } else {
        assert Follow(store, p, name, 0) == Some(p);
      }
    }
  }

  /**
   * With `visited` the templates the walk passed through on its way to
   * `template` (each reaches `template` in as many links as entries follow
   * it), a recursion error means the parent chain from `template` never ends.
   */
  lemma {:induction false} WalkRecursionIsCycle(store: Store, template: string, name: string, visited: seq<string>)
    requires forall i :: 0 <= i < |visited| ==> Follow(store, visited[i], name, |visited| - 1 - i) == Some(template)
    ensures var r := Walk(store, template, name, visited);
      r.Err? && r.error.RecursionError? ==> forall n: nat :: Follow(store, template, name, n).Some?
    decreases |store.Keys - Elements(visited)|, if template in store then 1 else 0
  {
    var r := Walk(store, template, name, visited);
    var rb := ResolveBlock(store, template, name);
    if rb.Ok? && rb.value.Some? {
      var b := rb.value.value;
      if b.parentTemplate.Some? && b.parentTemplate.value != template {
        var p := b.parentTemplate.value;
        assert Parent(store, template, name) == Some(p);
        if p in visited {
          RevisitIsCycle(store, template, name, visited, p);
        } else {
          var next := visited + [p];
          VisitParent(store, template, name, visited, p);
          ShrinkUnvisited(store.Keys, visited, p);
          WalkRecursionIsCycle(store, p, name, next);
          if r.Err? && r.error.RecursionError? {
            forall n: nat ensures Follow(store, template, name, n).Some? {
              if n > 0 {
                FollowShift(store, template, name, p, n - 1);
              }
            }
          }
        }
      }
    }
  }

  /**
   * `resolveParentBlock` reports a recursion exactly when the parent chain
   * from the start template never ends: every other outcome is where the
   * chain stops.
   */
  lemma {:induction false} RecursionIffCycle(store: Store, template: string, name: string)
    ensures var r := Walk(store, template, name, []);
      r.Err? && r.error.RecursionError? <==> forall n: nat :: Follow(store, template, name, n).Some?
  {
    var r := Walk(store, template, name, []);
    WalkRecursionIsCycle(store, template, name, []);
    WalkSound(store, template, name, []);
    if r.Ok? && r.value.Some? {
      var n: nat :| EndsAtBlock(store, template, name, n, r.value.value);
      FollowLast(store, template, name, n);
    } else if r.Ok? {
      var n: nat :| EndsAtMissingBlock(store, template, name, n);
      FollowLast(store, template, name, n);
    } else if r.error.TemplateNotFound? {
      var n: nat :| Follow(store, template, name, n) == Some(r.error.name);
      FollowLast(store, template, name, n);
    }
  }

  /** A block that names no parent, or its own template, is itself the answer. */
  lemma {:induction false} WalkStopsAtRoot(store: Store, template: string, name: string, visited: seq<string>, b: Block)
    requires ResolveBlock(store, template, name) == Ok(Some(b))
    requires b.parentTemplate.None? || b.parentTemplate == Some(template)
    ensures Walk(store, template, name, visited) == Ok(Some(b))
  {
  }

  /** `A -> B -> A`: the start template is not in the visited list, so the error comes when `B` is met again. */
  lemma CycleExample(a: Block, b: Block)
    requires a.name == "x" && a.parentTemplate == Some("B")
    requires b.name == "x" && b.parentTemplate == Some("A")
    ensures var store := map["A" := Template([a], [], ""), "B" := Template([b], [], "")];
      Walk(store, "A", "x", []) == Err(RecursionError("B", ["B", "A"]))
  {
    var store := map["A" := Template([a], [], ""), "B" := Template([b], [], "")];
    assert BlockMap([a]) == map["x" := a];
    assert BlockMap([b]) == map["x" := b];
    assert ResolveBlock(store, "A", "x") == Ok(Some(a));
    assert ResolveBlock(store, "B", "x") == Ok(Some(b));
    assert Walk(store, "A", "x", ["B", "A"]) == Err(RecursionError("B", ["B", "A"]));
    assert ["B"] + ["A"] == ["B", "A"];
    assert Walk(store, "B", "x", ["B"]) == Walk(store, "A", "x", ["B", "A"]);
    assert [] + ["B"] == ["B"];
  }

  /**
   * The lines `getBlockContent` works on: `end - start` lines from 1-based
   * line `start`, with PHP's `array_slice` clamping.
   */
  function BlockLines(source: string, range: LineRange): seq<string> {
    Slice(Split(source), range.start - 1, range.end - range.start)
  }

  /**
   * The slice-and-cut rule of `getBlockContent` on a template's source. A
   * missing first or last line is PHP's `null`, which `preg_match` rejects
   * with a `TypeError` under strict types; the tag errors carry the 0-based
   * line the source reports.
   */
  function CutContent(source: string, name: string, range: LineRange, opts: LexerOptions): Result<string> {
    var start := range.start - 1;
    var count := range.end - range.start;
    var ls := BlockLines(source, range);
    if |ls| == 0 then Err(TypeError)
    else match MatchStartTag(ls[0], opts.blockOpen, name, opts.blockClose)
      case None => Err(StartTagNotFound(name, start))
      case Some(first) =>
        if count - 1 < 0 || count - 1 >= |ls| then Err(TypeError)
        else match MatchEndTag(ls[count - 1], opts.blockOpen, name, opts.blockClose)
          case None => Err(EndTagNotFound(name, start + count))
          case Some(last) =>
            Ok(Join(CutLines(ls, first, last)))
  }

  /**
   * The two by-reference edits: the first line is cut at `first`, then the
   * last line, which is the same element when there is one line, at `last`.
   */
  function CutLines(ls: seq<string>, first: nat, last: nat): (r: seq<string>)
    requires |ls| >= 1
    ensures |r| == |ls|
    ensures forall i :: 0 < i < |ls| - 1 ==> r[i] == ls[i]
    ensures |ls| >= 2 ==> r[0] == SubstrFrom(ls[0], first) && r[|ls| - 1] == SubstrFrom(ls[|ls| - 1], last)
    ensures |ls| == 1 ==> r[0] == SubstrFrom(SubstrFrom(ls[0], first), last)
    ensures NoNewline(ls) ==> NoNewline(r)
  {
    var cut := ls[0 := SubstrFrom(ls[0], first)];
    CutLinesNoNewline(ls, 0, first);
    CutLinesNoNewline(cut, |ls| - 1, last);
    cut[|ls| - 1 := SubstrFrom(cut[|ls| - 1], last)]
  }

  /** The cut lines never hold a line feed. */
  lemma {:induction false} CutLinesNoNewline(ls: seq<string>, i: nat, offset: nat)
    requires i < |ls|
    ensures NoNewline(ls) ==> NoNewline(ls[i := SubstrFrom(ls[i], offset)])
  {
    var s := SubstrFrom(ls[i], offset);
    assert NoNewline(ls) ==> '\n' !in s by {
      if NoNewline(ls) && offset <= |ls[i]| {
        forall k | 0 <= k < |s| ensures s[k] != '\n' { assert s[k] == ls[i][offset + k]; }
      }
    }
  }

  /**
   * For a range inside the template the content is found exactly when the
   * start tag matches the first line and the end tag the last line; otherwise
   * the error names the missing tag and the 0-based line the source reports.
   */
  lemma {:induction false} CutContentErrors(source: string, name: string, range: LineRange, opts: LexerOptions)
    requires 1 <= range.start < range.end
    requires range.end - 1 <= |Split(source)|
    ensures var all, s := Split(source), range.start - 1;
      var first := MatchStartTag(all[s], opts.blockOpen, name, opts.blockClose);
      var last := MatchEndTag(all[range.end - 2], opts.blockOpen, name, opts.blockClose);
      var r := CutContent(source, name, range, opts);
      && (first.None? ==> r == Err(StartTagNotFound(name, s)))
      && (first.Some? && last.None? ==> r == Err(EndTagNotFound(name, range.end - 1)))
      && (r.Ok? <==> first.Some? && last.Some?)
  {
    var all, s, count := Split(source), range.start - 1, range.end - range.start;
    var ls := BlockLines(source, range);
    assert ls == all[s..s + count];
    assert ls[0] == all[s] && ls[count - 1] == all[range.end - 2];
  }

  /**
   * With the start tag matched at `first` on the block's first line and the
   * end tag at `last` on its last line, content is found and splits back
   * into the block's `end - start` lines with the two cuts applied (see
   * `CutLines`); the interior lines are copied verbatim from the source (see
   * `SliceInRange`).
   */
  lemma {:induction false} CutContentLines(source: string, name: string, range: LineRange, opts: LexerOptions, first: nat, last: nat)
    requires 1 <= range.start < range.end
    requires range.end - 1 <= |Split(source)|
    requires MatchStartTag(BlockLines(source, range)[0], opts.blockOpen, name, opts.blockClose) == Some(first)
    requires MatchEndTag(BlockLines(source, range)[range.end - range.start - 1], opts.blockOpen, name, opts.blockClose) == Some(last)
    ensures |BlockLines(source, range)| == range.end - range.start
    ensures CutContent(source, name, range, opts).Ok?
    ensures Split(CutContent(source, name, range, opts).value) == CutLines(BlockLines(source, range), first, last)
  {
    var cut := CutLines(BlockLines(source, range), first, last);
    SliceInRange(source, range);
    CutContentIsJoin(source, name, range, opts, first, last);
    SplitJoin(cut);
  }

  /** Inside the template, the block's lines are the source lines from `start`. */
  lemma {:induction false} SliceInRange(source: string, range: LineRange)
    requires 1 <= range.start < range.end
    requires range.end - 1 <= |Split(source)|
    ensures var all, s, count := Split(source), range.start - 1, range.end - range.start;
      var ls := BlockLines(source, range);
      && |ls| == count && NoNewline(ls)
      && (forall i :: 0 <= i < count ==> ls[i] == all[s + i])
  {
  }

  /** Found content needs a start tag on the first line and an end tag on the last. */
  lemma {:induction false} CutContentTags(source: string, name: string, range: LineRange, opts: LexerOptions)
    requires 1 <= range.start < range.end
    requires range.end - 1 <= |Split(source)|
    requires CutContent(source, name, range, opts).Ok?
    ensures var ls := BlockLines(source, range);
      && |ls| == range.end - range.start
      && MatchStartTag(ls[0], opts.blockOpen, name, opts.blockClose).Some?
      && MatchEndTag(ls[|ls| - 1], opts.blockOpen, name, opts.blockClose).Some?
  {
    var ls := BlockLines(source, range);
    assert |ls| == range.end - range.start;
  }

  /** With both tags found, the content is the join of the cut lines. */
  lemma {:induction false} CutContentIsJoin(source: string, name: string, range: LineRange, opts: LexerOptions, first: nat, last: nat)
    requires 1 <= range.start < range.end
    requires range.end - 1 <= |Split(source)|
    requires MatchStartTag(BlockLines(source, range)[0], opts.blockOpen, name, opts.blockClose) == Some(first)
    requires MatchEndTag(BlockLines(source, range)[range.end - range.start - 1], opts.blockOpen, name, opts.blockClose) == Some(last)
    ensures CutContent(source, name, range, opts) == Ok(Join(CutLines(BlockLines(source, range), first, last)))
  {
  }

  /** `getBlockContent(block)`: the block's own template, sliced and cut. */
  function GetBlockContent(store: Store, opts: LexerOptions, block: Block): (r: Result<string>)
    ensures block.template.None? ==> r == Err(TypeError)
    ensures block.template.Some? && block.template.value !in store ==> r == Err(TemplateNotFound(block.template.value))
    ensures block.template.Some? && block.template.value in store ==>
      r == CutContent(store[block.template.value].source, block.name, block.lines, opts)
  {
    match block.template
    case None => Err(TypeError)
    case Some(t) =>
      if t !in store then Err(TemplateNotFound(t))
      else CutContent(store[t].source, block.name, block.lines, opts)
  }

  /**
   * `getSourceHash`: the hash of the top-most ancestor's content; a loader
   * error during the walk (a missing template, a recursion) or a missing
   * block gives no hash, while errors extracting the content propagate.
   */
  function GetSourceHash(store: Store, opts: LexerOptions, ext: Extension, template: string, name: string): Result<Option<string>> {
    match Walk(store, template, name, [])
    case Err(e) => Ok(None)
    case Ok(None) => Ok(None)
    case Ok(Some(b)) =>
      match GetBlockContent(store, opts, b)
      case Err(e) => Err(e)
      case Ok(code) => Ok(Some(ext.hash(code)))
  }

  /**
   * No hash when the walk fails or finds no block; otherwise the outcome of
   * extracting the content of the block where the parent chain ends, hashed.
   */
  lemma {:induction false} SourceHashOfTop(store: Store, opts: LexerOptions, ext: Extension, template: string, name: string)
    ensures var r, w := GetSourceHash(store, opts, ext, template, name), Walk(store, template, name, []);
      && (w.Err? || w == Ok(None) ==> r == Ok(None))
      && (w.Ok? && w.value.Some? ==>
            var b := w.value.value;
            && (GetBlockContent(store, opts, b).Ok? ==> r == Ok(Some(ext.hash(GetBlockContent(store, opts, b).value))))
            && (GetBlockContent(store, opts, b).Err? ==> r == Err(GetBlockContent(store, opts, b).error)))
      && (r.Ok? && r.value.Some? ==>
            exists n: nat, b: Block :: EndsAtBlock(store, template, name, n, b) && GetBlockContent(store, opts, b).Ok?
              && r.value.value == ext.hash(GetBlockContent(store, opts, b).value))
  {
    WalkSound(store, template, name, []);
  }

  /** A recursion in the ancestry never escapes `getSourceHash`: every error left is about the content. */
  lemma {:induction false} SourceHashErrors(store: Store, opts: LexerOptions, ext: Extension, template: string, name: string)
    ensures var r := GetSourceHash(store, opts, ext, template, name);
      r.Err? ==> r.error.TypeError? || r.error.TemplateNotFound? || r.error.StartTagNotFound? || r.error.EndTagNotFound?
  {
  }

  const DefaultLexer := LexerOptions("{%", "%}", "{#", "#}")

  /** A one-line block with the one-character body `c`. */
  function OneLine(c: char): string {
    "{% block a %}" + [c] + "{% endblock %}"
  }

  lemma OneLineStartTag(c: char)
    ensures MatchStartTag(OneLine(c), "{%", "a", "%}") == Some(0)
  {
    var s := OneLine(c);
    assert SkipSpace(s, 2) == 3 by { assert IsSpace(s[2]) && !IsSpace(s[3]); assert SkipSpace(s, 3) == 3; }
    assert StartsAt(s, 3, "block") by { assert s[3..8] == "block"; }
    assert SkipSpace(s, 8) == 9 by { assert IsSpace(s[8]) && !IsSpace(s[9]); assert SkipSpace(s, 9) == 9; }
    assert SkipSpace(s, 10) == 11 by { assert IsSpace(s[10]) && !IsSpace(s[11]); assert SkipSpace(s, 11) == 11; }
    assert StartTagAt(s, 0, "{%", "a", "%}");
    StartTagLeftmost(s, "{%", "a", "%}");
  }

  lemma PrefixBraceFree()
    ensures forall i :: 1 <= i < 13 ==> "{% block a %}"[i] != '{'
  {
  }

  lemma OneLineEndTagAt(c: char)
    ensures EndTagAt(OneLine(c), 14, "{%", "a", "%}")
  {
    var s := OneLine(c);
    assert SkipSpace(s, 16) == 17 by { assert IsSpace(s[16]) && !IsSpace(s[17]); assert SkipSpace(s, 17) == 17; }
    assert StartsAt(s, 17, "endblock") by { assert s[17..25] == "endblock"; }
    assert SkipSpace(s, 25) == 26 by { assert IsSpace(s[25]) && !IsSpace(s[26]); assert SkipSpace(s, 26) == 26; }
  }

  lemma OneLineNoEarlierEndTag(c: char)
    requires c != '{'
    ensures forall i :: 0 <= i < 14 ==> !EndTagAt(OneLine(c), i, "{%", "a", "%}")
  {
    var s := OneLine(c);
    assert !EndTagAt(s, 0, "{%", "a", "%}") by {
      assert SkipSpace(s, 2) == 3 by { assert IsSpace(s[2]) && !IsSpace(s[3]); assert SkipSpace(s, 3) == 3; }
      assert s[4] != 'n';
    }
    PrefixBraceFree();
    forall i | 1 <= i < 14 ensures !StartsAt(s, i, "{%") {
      if i < 13 {
        assert s[i] == "{% block a %}"[i];
      } else {
        assert s[i] == c;
      }
      NoOpenAt(s, i);
    }
  }

  /** No tag opens at a character other than `{`. */
  lemma NoOpenAt(s: string, i: nat)
    requires i < |s| && s[i] != '{'
    ensures !StartsAt(s, i, "{%")
  {
    if i + 2 <= |s| {
      assert s[i..i + 2][0] == s[i];
    }
  }

  lemma OneLineEndTag(c: char)
    requires c != '{'
    ensures MatchEndTag(OneLine(c), "{%", "a", "%}") == Some(14)
  {
    OneLineEndTagAt(c);
    OneLineNoEarlierEndTag(c);
    EndTagLeftmost(OneLine(c), "{%", "a", "%}");
  }

  /**
   * For a block on one line the second cut, with its offset measured on the
   * uncut line, leaves only the end tag: a one-character body other than
   * `{` and a line feed never reaches the content, so two such blocks that
   * differ only in that character get the same hash.
   */
  lemma OneLineBodyDropped(c: char)
    requires c != '{' && c != '\n'
    ensures CutContent(OneLine(c), "a", LineRange(1, 2), DefaultLexer) == Ok("{% endblock %}")
  {
    var s := OneLine(c);
    assert '\n' !in s;
    SplitLine(s);
    assert BlockLines(s, LineRange(1, 2)) == [s];
    OneLineStartTag(c);
    OneLineEndTag(c);
    assert s[14..] == "{% endblock %}";
  }
}
