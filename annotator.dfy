/**
 * The in-place annotator: for every block that overrides an ancestor's block
 * it writes a comment line holding the ancestor's content hash and version
 * just above the block's start tag, inserting a new line (and bumping a
 * per-file line-offset ledger so later blocks of the same file still land
 * correctly) or replacing one line when the block already had a comment.
 */
module Annotator {
  import opened Common
  import opened Text
  import opened Resolver

  /** The enrichment `processBlock` gives a block: `source_hash`, `source_version`, `created`. */
  datatype Annotation = Annotation(sourceHash: Option<string>, sourceVersion: Option<string>, created: bool)

  /** What the annotator changes: the offset ledger and the template files. */
  datatype State = State(offsets: map<string, int>, files: map<string, string>)

  /** `getOffset`: a template never offset has offset 0. */
  function Offset(st: State, template: string): (r: int)
    ensures template in st.offsets ==> r == st.offsets[template]
    ensures template !in st.offsets ==> r == 0
  {
    if template in st.offsets then st.offsets[template] else 0
  }

  /** The comment line: the block line's indentation, then the comment tags around the formatted comment. */
  function CommentLine(opts: LexerOptions, ext: Extension, blockLine: string, hash: string, version: Option<string>): (r: string)
    ensures |LeadingWhitespace(blockLine)| <= |r| && r[..|LeadingWhitespace(blockLine)|] == blockLine[..|LeadingWhitespace(blockLine)|]
    ensures forall i :: 0 <= i < |LeadingWhitespace(blockLine)| ==> IsSpace(r[i])
  {
    LeadingWhitespace(blockLine) + opts.commentOpen + ext.formatComment(hash, version) + opts.commentClose
  }

  /** `start - 1 + getOffset`: the 0-based line of the template text the comment goes to. */
  function StartIndex(st: State, block: Block, sourceName: string): int {
    block.lines.start - 1 + Offset(st, sourceName)
  }

  /**
   * `annotateBlock` on the template text `code`: nothing without a hash;
   * otherwise the comment goes in at line `start - 1 + offset` (0-based),
   * inserted when `created` (and the ledger rises by one) or replacing that
   * line. A line index outside the text is PHP's `null` reaching
   * `preg_match`: a `TypeError`.
   */
  function AnnotateBlockStep(st: State, opts: LexerOptions, ext: Extension, block: Block, sourceName: string,
                             code: string, hash: Option<string>, version: Option<string>, created: bool): (r: Result<State>)
    ensures hash.None? ==> r == Ok(st)
    ensures r.Ok? ==> r.value.files.Keys == st.files.Keys + {sourceName} || hash.None?
    ensures r.Ok? ==> forall t :: t in st.files && t != sourceName ==> t in r.value.files && r.value.files[t] == st.files[t]
    ensures r.Ok? && hash.Some? ==> Offset(r.value, sourceName) == Offset(st, sourceName) + (if created then 1 else 0)
    ensures r.Ok? ==> forall t :: t != sourceName ==> Offset(r.value, t) == Offset(st, t)
    ensures r.Err? ==> r.error == TypeError
    ensures hash.Some? ==> (r.Ok? <==> 0 <= StartIndex(st, block, sourceName) < |Split(code)|)
    ensures r.Ok? && hash.Some? ==> sourceName in r.value.files
  {
    if hash.None? then Ok(st)
    else
      var lines := Split(code);
      var index := StartIndex(st, block, sourceName);
      if !(0 <= index < |lines|) then Err(TypeError)
      else
        var comment := CommentLine(opts, ext, lines[index], hash.value, version);
        var offsets := if created then st.offsets[sourceName := Offset(st, sourceName) + 1] else st.offsets;
        Ok(State(offsets, st.files[sourceName := Join(Splice(lines, index, if created then 0 else 1, comment))]))
  }

  /**
   * An insert: the written text has one line more, the comment at the block's
   * adjusted start index and every other line in its old order.
   */
  lemma {:induction false} InsertLands(lines: seq<string>, index: nat, comment: string)
    requires index < |lines| && NoNewline(lines) && '\n' !in comment
    ensures var out := Split(Join(Splice(lines, index, 0, comment)));
      && out == lines[..index] + [comment] + lines[index..]
      && |out| == |lines| + 1
      && out[index] == comment
      && out[..index] == lines[..index]
      && out[index + 1..] == lines[index..]
  {
    var spliced := Splice(lines, index, 0, comment);
    assert NoNewline(spliced) by {
      forall i | 0 <= i < |spliced| ensures '\n' !in spliced[i] {
        if i < index { assert spliced[i] == lines[i]; }
        else if i > index { assert spliced[i] == lines[i - 1]; }
      }
    }
    SplitJoin(spliced);
  }

  /**
   * A replacement: the line count stays, the element at the adjusted start
   * index (the block's own start line, as written) becomes the comment and
   * no other line changes.
   */
  lemma {:induction false} ReplaceLands(lines: seq<string>, index: nat, comment: string)
    requires index < |lines| && NoNewline(lines) && '\n' !in comment
    ensures Split(Join(Splice(lines, index, 1, comment))) == lines[index := comment]
  {
    var spliced := Splice(lines, index, 1, comment);
    assert NoNewline(spliced) by {
      forall i | 0 <= i < |spliced| ensures '\n' !in spliced[i] {
        if i != index { assert spliced[i] == lines[i]; }
      }
    }
    SplitJoin(spliced);
  }

  /**
   * What `annotateBlock` writes when the comment line holds no line feed:
   * the template's lines with the comment, indented like the block's line,
   * inserted at the adjusted start index when `created`, or put in place of
   * the line there otherwise.
   */
  lemma {:induction false} AnnotateBlockLands(st: State, opts: LexerOptions, ext: Extension, block: Block, sourceName: string,
                                             code: string, hash: Option<string>, version: Option<string>, created: bool)
    requires hash.Some? && AnnotateBlockStep(st, opts, ext, block, sourceName, code, hash, version, created).Ok?
    requires '\n' !in CommentLine(opts, ext, Split(code)[StartIndex(st, block, sourceName)], hash.value, version)
    ensures var lines, index := Split(code), StartIndex(st, block, sourceName);
      var comment := CommentLine(opts, ext, lines[index], hash.value, version);
      var out := Split(AnnotateBlockStep(st, opts, ext, block, sourceName, code, hash, version, created).value.files[sourceName]);
      && (created ==> out == lines[..index] + [comment] + lines[index..])
      && (!created ==> out == lines[index := comment])
  {
    var lines, index := Split(code), StartIndex(st, block, sourceName);
    var comment := CommentLine(opts, ext, lines[index], hash.value, version);
    if created {
      InsertLands(lines, index, comment);
    } else {
      ReplaceLands(lines, index, comment);
    }
  }

  /**
   * Repeated inserts into one file, as the ledger drives them: the `k`-th
   * comment goes in at `starts[k] - 1 + offset`, and the offset rises by one
   * after each.
   */
  function InsertAll(lines: seq<string>, starts: seq<int>, comments: seq<string>, offset: int): seq<string>
    requires |starts| == |comments|
    decreases |starts|
  {
    if starts == [] then lines
    else InsertAll(Splice(lines, starts[0] - 1 + offset, 0, comments[0]), starts[1..], comments[1..], offset + 1)
  }

  /** Start lines strictly ascending, each past line `from` and at most `n`. */
  predicate Ascending(starts: seq<int>, from: int, n: int) {
    && (forall k :: 0 <= k < |starts| ==> from < starts[k] <= n)
    && (forall k, l :: 0 <= k < l < |starts| ==> starts[k] < starts[l])
  }

  /**
   * The intended result, stated without offsets: each comment placed directly
   * above the original line `starts[k]` (1-based), from line `from` on.
   */
  function Interleave(orig: seq<string>, starts: seq<int>, comments: seq<string>, from: nat): seq<string>
    requires |starts| == |comments| && from <= |orig|
    requires Ascending(starts, from, |orig|)
    decreases |starts|
  {
    if starts == [] then orig[from..]
    else orig[from..starts[0] - 1] + [comments[0]] + Interleave(orig, starts[1..], comments[1..], starts[0] - 1)
  }

  /**
   * The ledger is what keeps later blocks right: after the inserts for blocks
   * in ascending line order, every comment sits directly above its block's
   * original start line.
   */
  lemma {:induction false} InsertAllInterleaves(orig: seq<string>, starts: seq<int>, comments: seq<string>)
    requires |starts| == |comments|
    requires Ascending(starts, 0, |orig|)
    ensures InsertAll(orig, starts, comments, 0) == Interleave(orig, starts, comments, 0)
  {
    InsertAllShifted(orig, [], starts, comments, 0);
    assert [] + orig[0..] == orig;
  }

  lemma {:induction false} InsertAllShifted(orig: seq<string>, done: seq<string>, starts: seq<int>, comments: seq<string>, from: nat)
    requires |starts| == |comments| && from <= |orig|
    requires Ascending(starts, from, |orig|)
    requires |done| >= from
    ensures InsertAll(done + orig[from..], starts, comments, |done| - from) == done + Interleave(orig, starts, comments, from)
    decreases |starts|
  {
    if starts != [] {
      var s := starts[0] - 1;
      var next := done + orig[from..s] + [comments[0]];
      TailBounded(starts, from, |orig|);
      var tail := Interleave(orig, starts[1..], comments[1..], s);
      InsertAllHead(orig, done, from, starts, comments);
      InsertAllShifted(orig, next, starts[1..], comments[1..], s);
      AppendAssoc(done, orig[from..s] + [comments[0]], tail);
      InterleaveHead(orig, starts, comments, from);
    }
  }

  lemma AppendAssoc<T>(a: seq<T>, b: seq<T>, c: seq<T>)
    ensures (a + b) + c == a + (b + c)
  {
  }

  /** The first insert of the fold, in terms of the processed prefix and the rest of the original lines. */
  lemma {:induction false} InsertAllHead(orig: seq<string>, done: seq<string>, from: nat, starts: seq<int>, comments: seq<string>)
    requires |starts| == |comments| && starts != []
    requires from <= starts[0] - 1 < |orig| && |done| >= from
    ensures var next := done + orig[from..starts[0] - 1] + [comments[0]];
      InsertAll(done + orig[from..], starts, comments, |done| - from)
        == InsertAll(next + orig[starts[0] - 1..], starts[1..], comments[1..], |next| - (starts[0] - 1))
  {
    InsertStep(orig, done, from, starts[0] - 1, comments[0], starts[0] - 1 + (|done| - from));
  }

  /** The later starts of an ascending list lie past the first one. */
  lemma {:induction false} TailBounded(starts: seq<int>, from: nat, n: nat)
    requires starts != []
    requires Ascending(starts, from, n)
    ensures from <= starts[0] - 1 < n
    ensures Ascending(starts[1..], starts[0] - 1, n)
  {
    forall k | 0 <= k < |starts[1..]| ensures starts[0] - 1 < starts[1..][k] <= n {
      assert starts[1..][k] == starts[k + 1];
    }
    forall k, l | 0 <= k < l < |starts[1..]| ensures starts[1..][k] < starts[1..][l] {
      assert starts[1..][k] == starts[k + 1] && starts[1..][l] == starts[l + 1];
    }
  }

  /** One step of `Interleave`. */
  lemma {:induction false} InterleaveHead(orig: seq<string>, starts: seq<int>, comments: seq<string>, from: nat)
    requires |starts| == |comments| && from <= |orig| && starts != []
    requires Ascending(starts, from, |orig|)
    requires Ascending(starts[1..], starts[0] - 1, |orig|)
    ensures Interleave(orig, starts, comments, from)
        == orig[from..starts[0] - 1] + [comments[0]] + Interleave(orig, starts[1..], comments[1..], starts[0] - 1)
  {
  }

  /** One insert of the fold, in terms of the already processed prefix. */
  lemma {:induction false} InsertStep(orig: seq<string>, done: seq<string>, from: nat, s: nat, c: string, index: int)
    requires from <= s < |orig| && |done| >= from && index == |done| + (s - from)
    ensures Splice(done + orig[from..], index, 0, c) == (done + orig[from..s] + [c]) + orig[s..]
    ensures |done + orig[from..s] + [c]| - s == |done| - from + 1
  {
    SpliceAfter(done, orig[from..], s - from, c);
    assert orig[from..][..s - from] == orig[from..s] && orig[from..][s - from..] == orig[s..];
  }

  /** Line `s` of the original text, seen behind a processed prefix. */
  lemma {:induction false} LineBehind(orig: seq<string>, done: seq<string>, from: nat, s: nat)
    requires from <= s < |orig|
    ensures (done + orig[from..])[|done| + (s - from)] == LineAt(orig, s)
  {
    assert (done + orig[from..])[|done| + (s - from)] == orig[from..][s - from];
  }

  /** An insert past an untouched prefix. */
  lemma {:induction false} SpliceAfter(done: seq<string>, rest: seq<string>, j: nat, x: string)
    requires j < |rest|
    ensures Splice(done + rest, |done| + j, 0, x) == (done + rest[..j] + [x]) + rest[j..]
  {
    assert (done + rest)[..|done| + j] == done + rest[..j];
    assert (done + rest)[|done| + j..] == rest[j..];
  }

  /**
   * `processBlock`: a block without a parent is enriched with no hash and the
   * default version and nothing is written; otherwise the ancestor's hash is
   * looked up (a null template is a `TypeError`), and with a hash the current
   * text of the block's template is annotated, `created` exactly when no
   * comment was grouped for the block.
   */
  function ProcessBlockStep(st: State, store: Store, opts: LexerOptions, ext: Extension, block: Block,
                            version: Option<string>, hasComment: bool): (r: (Result<Annotation>, State))
    ensures block.parentTemplate.None? ==> r == (Ok(Annotation(None, version, false)), st)
    ensures r.0.Ok? ==> r.0.value.sourceVersion == version
    ensures r.0.Ok? && r.0.value.created ==> !hasComment && r.0.value.sourceHash.Some?
    ensures r.0.Ok? && r.0.value.sourceHash.Some? ==> r.0.value.created == !hasComment
    ensures r.0.Err? || r.0.value.sourceHash.None? ==> r.1 == st
    ensures forall t :: t in st.files && Some(t) != block.template ==> t in r.1.files && r.1.files[t] == st.files[t]
    ensures block.parentTemplate.Some? && block.template.None? ==> r == (Err(TypeError), st)
    ensures block.parentTemplate.Some? && block.template.Some? ==>
      var t := block.template.value;
      var h := GetSourceHash(store, opts, ext, t, block.name);
      && (h.Err? ==> r == (Err(h.error), st))
      && (h == Ok(None) ==> r == (Ok(Annotation(None, version, false)), st))
      && (h.Ok? && h.value.Some? && t !in st.files ==> r == (Err(TemplateNotFound(t)), st))
      && (h.Ok? && h.value.Some? && t in st.files ==>
            var a := AnnotateBlockStep(st, opts, ext, block, t, st.files[t], h.value, version, !hasComment);
            && (a.Ok? ==> r == (Ok(Annotation(h.value, version, !hasComment)), a.value))
            && (a.Err? ==> r == (Err(a.error), st)))
  {
    if block.parentTemplate.None? then (Ok(Annotation(None, version, false)), st)
    else if block.template.None? then (Err(TypeError), st)
    else
      var template := block.template.value;
      match GetSourceHash(store, opts, ext, template, block.name)
      case Err(e) => (Err(e), st)
      case Ok(None) => (Ok(Annotation(None, version, false)), st)
      case Ok(Some(hash)) =>
        if template !in st.files then (Err(TemplateNotFound(template)), st)
        else match AnnotateBlockStep(st, opts, ext, block, template, st.files[template], Some(hash), version, !hasComment)
          case Err(e) => (Err(e), st)
          case Ok(next) => (Ok(Annotation(Some(hash), version, !hasComment)), next)
  }

  /** `$grouped[template][block] = comment` over the comments in order (a null key is ""). */
  function Group(comments: seq<Comment>): map<string, map<string, Comment>>
    decreases |comments|
  {
    if comments == [] then map[]
    else
      var grouped := Group(comments[..|comments| - 1]);
      var c := comments[|comments| - 1];
      var t := Key(c.template);
      grouped[t := (if t in grouped then grouped[t] else map[])[Key(c.block) := c]]
  }

  /** `$grouped[template][block] ?? null`. */
  function Lookup(grouped: map<string, map<string, Comment>>, template: string, block: string): Option<Comment> {
    if template in grouped && block in grouped[template] then Some(grouped[template][block]) else None
  }

  predicate GroupedUnder(c: Comment, template: string, block: string) {
    Key(c.template) == template && Key(c.block) == block
  }

  /** The comment grouped for a template and block is the last one for them; none when there is none. */
  lemma {:induction false} GroupLastWins(comments: seq<Comment>, template: string, block: string)
    ensures Lookup(Group(comments), template, block).None? <==>
      forall i :: 0 <= i < |comments| ==> !GroupedUnder(comments[i], template, block)
    ensures Lookup(Group(comments), template, block).Some? ==> exists i :: (0 <= i < |comments|
      && comments[i] == Lookup(Group(comments), template, block).value
      && GroupedUnder(comments[i], template, block)
      && forall j :: i < j < |comments| ==> !GroupedUnder(comments[j], template, block))
    decreases |comments|
  {
    if comments != [] {
      var init := comments[..|comments| - 1];
      GroupLastWins(init, template, block);
      var c := comments[|comments| - 1];
      if GroupedUnder(c, template, block) {
        assert comments[|comments| - 1] == c;
      } else {
        forall i | 0 <= i < |init| ensures init[i] == comments[i] { }
        if Lookup(Group(init), template, block).Some? {
          var i :| 0 <= i < |init| && init[i] == Lookup(Group(init), template, block).value
            && GroupedUnder(init[i], template, block)
            && forall j :: i < j < |init| ==> !GroupedUnder(init[j], template, block);
          assert comments[i] == init[i];
        }
      }
    }
  }

  /**
   * The `annotate` loop over the blocks from `st`: a Twig error for one block
   * is collected and the loop goes on; any other error ends the run (the
   * third component), with the state reached so far.
   */
  function AnnotateRun(st: State, store: Store, opts: LexerOptions, ext: Extension, blocks: seq<Block>,
                       grouped: map<string, map<string, Comment>>, version: Option<string>): (State, seq<Error>, Option<Error>)
    decreases |blocks|
  {
    if blocks == [] then (st, [], None)
    else
      var b := blocks[0];
      var (r, next) := ProcessBlockStep(st, store, opts, ext, b, version, Lookup(grouped, Key(b.template), b.name).Some?);
      if r.Err? && !r.error.IsTwigError() then (next, [], Some(r.error))
      else
        var (last, errors, fatal) := AnnotateRun(next, store, opts, ext, blocks[1..], grouped, version);
        ((last), (if r.Err? then [r.error] else []) + errors, fatal)
  }

  /** One step of the run: the first block is processed, then the rest from the state it leaves. */
  lemma {:induction false} AnnotateRunUnfold(st: State, store: Store, opts: LexerOptions, ext: Extension, blocks: seq<Block>,
                                            grouped: map<string, map<string, Comment>>, version: Option<string>)
    requires blocks != []
    ensures var step := ProcessBlockStep(st, store, opts, ext, blocks[0], version,
                          Lookup(grouped, Key(blocks[0].template), blocks[0].name).Some?);
      var rest := AnnotateRun(step.1, store, opts, ext, blocks[1..], grouped, version);
      AnnotateRun(st, store, opts, ext, blocks, grouped, version) ==
        if step.0.Err? && !step.0.error.IsTwigError() then (step.1, [], Some(step.0.error))
        else (rest.0, (if step.0.Err? then [step.0.error] else []) + rest.1, rest.2)
  {
  }

  /** A first block processed without error leaves the run to the rest of the blocks. */
  lemma {:induction false} AnnotateRunOkStep(st: State, store: Store, opts: LexerOptions, ext: Extension, blocks: seq<Block>,
                                            grouped: map<string, map<string, Comment>>, version: Option<string>)
    requires blocks != []
    requires ProcessBlockStep(st, store, opts, ext, blocks[0], version, Lookup(grouped, Key(blocks[0].template), blocks[0].name).Some?).0.Ok?
    ensures var step := ProcessBlockStep(st, store, opts, ext, blocks[0], version,
                          Lookup(grouped, Key(blocks[0].template), blocks[0].name).Some?);
      AnnotateRun(st, store, opts, ext, blocks, grouped, version) == AnnotateRun(step.1, store, opts, ext, blocks[1..], grouped, version)
  {
    AnnotateRunUnfold(st, store, opts, ext, blocks, grouped, version);
    var step := ProcessBlockStep(st, store, opts, ext, blocks[0], version, Lookup(grouped, Key(blocks[0].template), blocks[0].name).Some?);
    var rest := AnnotateRun(step.1, store, opts, ext, blocks[1..], grouped, version);
    assert [] + rest.1 == rest.1;
  }

  /** The run over `blocks` from `st`, appended to `errors`, ends where the whole run `final` ends. */
  predicate Remaining(st: State, store: Store, opts: LexerOptions, ext: Extension, blocks: seq<Block>,
                      grouped: map<string, map<string, Comment>>, version: Option<string>,
                      errors: seq<Error>, final: (State, seq<Error>, Option<Error>)) {
    var rest := AnnotateRun(st, store, opts, ext, blocks, grouped, version);
    rest.0 == final.0 && errors + rest.1 == final.1 && rest.2 == final.2
  }

  /** Processing the next block keeps the remaining run in step with the whole run. */
  lemma {:induction false} RemainingStep(st: State, store: Store, opts: LexerOptions, ext: Extension, blocks: seq<Block>,
                                        grouped: map<string, map<string, Comment>>, version: Option<string>,
                                        errors: seq<Error>, final: (State, seq<Error>, Option<Error>))
    requires blocks != [] && Remaining(st, store, opts, ext, blocks, grouped, version, errors, final)
    ensures var step := ProcessBlockStep(st, store, opts, ext, blocks[0], version,
                          Lookup(grouped, Key(blocks[0].template), blocks[0].name).Some?);
      && (step.0.Err? && !step.0.error.IsTwigError() ==> final == (step.1, errors, Some(step.0.error)))
      && (step.0.Err? && step.0.error.IsTwigError() ==>
            Remaining(step.1, store, opts, ext, blocks[1..], grouped, version, errors + [step.0.error], final))
      && (step.0.Ok? ==> Remaining(step.1, store, opts, ext, blocks[1..], grouped, version, errors, final))
  {
    AnnotateRunUnfold(st, store, opts, ext, blocks, grouped, version);
    var step := ProcessBlockStep(st, store, opts, ext, blocks[0], version,
                  Lookup(grouped, Key(blocks[0].template), blocks[0].name).Some?);
    var rest := AnnotateRun(step.1, store, opts, ext, blocks[1..], grouped, version);
    if step.0.Err? {
      assert errors + ([step.0.error] + rest.1) == (errors + [step.0.error]) + rest.1;
      assert errors + [] == errors;
    } else {
      assert [] + rest.1 == rest.1;
    }
  }

  /** Every collected error is a Twig error, at most one per block; what ends a run is not one. */
  lemma {:induction false} AnnotateRunErrors(st: State, store: Store, opts: LexerOptions, ext: Extension, blocks: seq<Block>,
                                            grouped: map<string, map<string, Comment>>, version: Option<string>)
    ensures var (_, errors, fatal) := AnnotateRun(st, store, opts, ext, blocks, grouped, version);
      && |errors| <= |blocks|
      && (forall i :: 0 <= i < |errors| ==> errors[i].IsTwigError())
      && (fatal.Some? ==> !fatal.value.IsTwigError())
    decreases |blocks|
  {
    if blocks != [] {
      AnnotateRunErrors(ProcessBlockStep(st, store, opts, ext, blocks[0], version,
        Lookup(grouped, Key(blocks[0].template), blocks[0].name).Some?).1, store, opts, ext, blocks[1..], grouped, version);
    }
  }

  /** Blocks that name no parent template leave every file and the ledger as they were. */
  lemma {:induction false} RootBlocksWriteNothing(st: State, store: Store, opts: LexerOptions, ext: Extension, blocks: seq<Block>,
                                                 grouped: map<string, map<string, Comment>>, version: Option<string>)
    requires forall i :: 0 <= i < |blocks| ==> blocks[i].parentTemplate.None?
    ensures AnnotateRun(st, store, opts, ext, blocks, grouped, version) == (st, [], None)
    decreases |blocks|
  {
    if blocks != [] {
      var b := blocks[0];
      assert ProcessBlockStep(st, store, opts, ext, b, version, Lookup(grouped, Key(b.template), b.name).Some?)
        == (Ok(Annotation(None, version, false)), st);
      assert forall i :: 0 <= i < |blocks[1..]| ==> blocks[1..][i].parentTemplate.None? by {
        forall i | 0 <= i < |blocks[1..]| ensures blocks[1..][i].parentTemplate.None? { assert blocks[1..][i] == blocks[i + 1]; }
      }
      RootBlocksWriteNothing(st, store, opts, ext, blocks[1..], grouped, version);
      var rest := AnnotateRun(st, store, opts, ext, blocks[1..], grouped, version);
      AnnotateRunUnfold(st, store, opts, ext, blocks, grouped, version);
      assert [] + rest.1 == rest.1;
    }
  }

  /** The hash `getSourceHash` finds for a block of `template`, or "" when there is none. */
  function AncestorHash(store: Store, opts: LexerOptions, ext: Extension, template: string, name: string): string {
    match GetSourceHash(store, opts, ext, template, name)
    case Ok(Some(h)) => h
    case _ => ""
  }

  /**
   * A block of `template` that the run annotates by inserting: it names a
   * parent, its ancestor's hash is found, and no comment was grouped for it.
   */
  predicate Inserted(store: Store, opts: LexerOptions, ext: Extension, grouped: map<string, map<string, Comment>>,
                     template: string, b: Block) {
    && b.template == Some(template) && b.parentTemplate.Some?
    && GetSourceHash(store, opts, ext, template, b.name).Ok?
    && GetSourceHash(store, opts, ext, template, b.name).value.Some?
    && Lookup(grouped, template, b.name).None?
  }

  /** The blocks' 1-based start lines. */
  function Starts(blocks: seq<Block>): (r: seq<int>)
    ensures |r| == |blocks|
    ensures forall k :: 0 <= k < |blocks| ==> r[k] == blocks[k].lines.start
    decreases |blocks|
  {
    if blocks == [] then [] else [blocks[0].lines.start] + Starts(blocks[1..])
  }

  /** The line at a 0-based index, "" outside the text. */
  function LineAt(lines: seq<string>, i: int): string {
    if 0 <= i < |lines| then lines[i] else ""
  }

  /** The comment line a block gets, indented like its start line in the original text `orig`. */
  function NewComment(store: Store, opts: LexerOptions, ext: Extension, template: string, orig: seq<string>,
                      b: Block, version: Option<string>): string {
    CommentLine(opts, ext, LineAt(orig, b.lines.start - 1), AncestorHash(store, opts, ext, template, b.name), version)
  }

  /** The blocks' comment lines, in order. */
  function NewComments(store: Store, opts: LexerOptions, ext: Extension, template: string, orig: seq<string>,
                       blocks: seq<Block>, version: Option<string>): (r: seq<string>)
    ensures |r| == |blocks|
    decreases |blocks|
  {
    if blocks == [] then []
    else
      [NewComment(store, opts, ext, template, orig, blocks[0], version)]
        + NewComments(store, opts, ext, template, orig, blocks[1..], version)
  }

  /**
   * One inserting block: its comment goes in at the adjusted start index of
   * the current text, which gives `expected`, and the ledger rises by one.
   */
  lemma {:induction false} InsertedStep(st: State, store: Store, opts: LexerOptions, ext: Extension,
                                       grouped: map<string, map<string, Comment>>, template: string, b: Block,
                                       version: Option<string>, line: string, expected: seq<string>)
    requires Inserted(store, opts, ext, grouped, template, b) && template in st.files
    requires 0 <= StartIndex(st, b, template) < |Split(st.files[template])|
    requires line == Split(st.files[template])[StartIndex(st, b, template)]
    requires '\n' !in CommentLine(opts, ext, line, AncestorHash(store, opts, ext, template, b.name), version)
    requires Splice(Split(st.files[template]), StartIndex(st, b, template), 0,
                    CommentLine(opts, ext, line, AncestorHash(store, opts, ext, template, b.name), version)) == expected
    ensures var step := ProcessBlockStep(st, store, opts, ext, b, version, Lookup(grouped, Key(b.template), b.name).Some?);
      && step.0.Ok?
      && template in step.1.files
      && Split(step.1.files[template]) == expected
      && Offset(step.1, template) == Offset(st, template) + 1
  {
    var h := AncestorHash(store, opts, ext, template, b.name);
    assert Key(b.template) == template;
    assert GetSourceHash(store, opts, ext, template, b.name) == Ok(Some(h));
    AnnotateBlockLands(st, opts, ext, b, template, st.files[template], Some(h), version, true);
  }

  /**
   * The premises of `RunInserts`: blocks of `template` that all insert, in
   * ascending line order inside the original text `orig`, each comment line
   * free of line feeds, and a text that is `done` followed by the original
   * lines from `from` on, with the ledger at the comments already in `done`.
   */
  predicate InsertRun(st: State, store: Store, opts: LexerOptions, ext: Extension, blocks: seq<Block>,
                      grouped: map<string, map<string, Comment>>, version: Option<string>,
                      template: string, orig: seq<string>, done: seq<string>, from: nat) {
    && (forall k {:trigger Inserted(store, opts, ext, grouped, template, blocks[k])} :: 0 <= k < |blocks| ==>
          Inserted(store, opts, ext, grouped, template, blocks[k]))
    && from <= |orig| && |done| >= from
    && Ascending(Starts(blocks), from, |orig|)
    && (forall k {:trigger NewComment(store, opts, ext, template, orig, blocks[k], version)} :: 0 <= k < |blocks| ==>
          '\n' !in NewComment(store, opts, ext, template, orig, blocks[k], version))
    && template in st.files && Split(st.files[template]) == done + orig[from..]
    && Offset(st, template) == |done| - from
  }

  /**
   * A comment `c` for a block starting past line `from` of the original text
   * goes in right after `done` and the original lines before the block's own.
   */
  lemma {:induction false} RunInsertsHead(st: State, template: string, b: Block, orig: seq<string>, done: seq<string>,
                                         from: nat, c: string)
    requires from < b.lines.start <= |orig|
    requires template in st.files && Split(st.files[template]) == done + orig[from..]
    requires Offset(st, template) == |done| - from && |done| >= from
    ensures var s := b.lines.start - 1;
      var next := done + orig[from..s] + [c];
      var lines, index := Split(st.files[template]), StartIndex(st, b, template);
      && 0 <= index < |lines| && lines[index] == LineAt(orig, s)
      && Splice(lines, index, 0, c) == next + orig[s..]
      && |next| - s == Offset(st, template) + 1
  {
    var s := b.lines.start - 1;
    var lines := Split(st.files[template]);
    var index := StartIndex(st, b, template);
    assert index == |done| + (s - from);
    LineBehind(orig, done, from, s);
    InsertStep(orig, done, from, s, c, index);
  }

  /** The rest of such a run meets the same premises, from the first block's line on. */
  lemma {:induction false} RunInsertsTail(st: State, next: State, store: Store, opts: LexerOptions, ext: Extension, blocks: seq<Block>,
                                         grouped: map<string, map<string, Comment>>, version: Option<string>,
                                         template: string, orig: seq<string>, done: seq<string>, from: nat)
    requires blocks != [] && InsertRun(st, store, opts, ext, blocks, grouped, version, template, orig, done, from)
    requires var s := blocks[0].lines.start - 1;
      var d := done + orig[from..s] + [NewComment(store, opts, ext, template, orig, blocks[0], version)];
      && template in next.files && Split(next.files[template]) == d + orig[s..] && Offset(next, template) == |d| - s
    ensures var s := blocks[0].lines.start - 1;
      var d := done + orig[from..s] + [NewComment(store, opts, ext, template, orig, blocks[0], version)];
      InsertRun(next, store, opts, ext, blocks[1..], grouped, version, template, orig, d, s)
  {
    var rest := blocks[1..];
    forall k | 0 <= k < |rest| ensures rest[k] == blocks[k + 1] { }
    TailBounded(Starts(blocks), from, |orig|);
    assert Starts(rest) == Starts(blocks)[1..];
  }

  /** The first block of such a run inserts without error, right above its original start line. */
  lemma {:induction false} RunInsertsFirst(st: State, store: Store, opts: LexerOptions, ext: Extension, blocks: seq<Block>,
                                          grouped: map<string, map<string, Comment>>, version: Option<string>,
                                          template: string, orig: seq<string>, done: seq<string>, from: nat)
    requires blocks != [] && InsertRun(st, store, opts, ext, blocks, grouped, version, template, orig, done, from)
    ensures var b := blocks[0];
      var step := ProcessBlockStep(st, store, opts, ext, b, version, Lookup(grouped, Key(b.template), b.name).Some?);
      var s := b.lines.start - 1;
      var next := done + orig[from..s] + [NewComment(store, opts, ext, template, orig, b, version)];
      && step.0.Ok? && template in step.1.files
      && Split(step.1.files[template]) == next + orig[s..] && Offset(step.1, template) == |next| - s
  {
    var b := blocks[0];
    var s := b.lines.start - 1;
    var c := NewComment(store, opts, ext, template, orig, b, version);
    var next := done + orig[from..s] + [c];
    assert Inserted(store, opts, ext, grouped, template, b) && '\n' !in c;
    assert Starts(blocks)[0] == b.lines.start;
    RunInsertsHead(st, template, b, orig, done, from, c);
    InsertedStep(st, store, opts, ext, grouped, template, b, version, LineAt(orig, s), next + orig[s..]);
  }

  /** ... and leaves the rest of the run with the same premises. */
  lemma {:induction false} RunInsertsStep(st: State, store: Store, opts: LexerOptions, ext: Extension, blocks: seq<Block>,
                                         grouped: map<string, map<string, Comment>>, version: Option<string>,
                                         template: string, orig: seq<string>, done: seq<string>, from: nat)
    requires blocks != [] && InsertRun(st, store, opts, ext, blocks, grouped, version, template, orig, done, from)
    ensures var b := blocks[0];
      var step := ProcessBlockStep(st, store, opts, ext, b, version, Lookup(grouped, Key(b.template), b.name).Some?);
      var s := b.lines.start - 1;
      var next := done + orig[from..s] + [NewComment(store, opts, ext, template, orig, b, version)];
      && step.0.Ok?
      && InsertRun(step.1, store, opts, ext, blocks[1..], grouped, version, template, orig, next, s)
  {
    var b := blocks[0];
    var step := ProcessBlockStep(st, store, opts, ext, b, version, Lookup(grouped, Key(b.template), b.name).Some?);
    RunInsertsFirst(st, store, opts, ext, blocks, grouped, version, template, orig, done, from);
    RunInsertsTail(st, step.1, store, opts, ext, blocks, grouped, version, template, orig, done, from);
  }

  /** Regrouping one step of `Interleave` behind a processed prefix. */
  lemma {:induction false} InterleaveBehind(orig: seq<string>, starts: seq<int>, comments: seq<string>, done: seq<string>,
                                           from: nat, s: nat, next: seq<string>)
    requires |starts| == |comments| && from <= |orig| && starts != []
    requires Ascending(starts, from, |orig|)
    requires s == starts[0] - 1 && next == done + orig[from..s] + [comments[0]]
    ensures next + Interleave(orig, starts[1..], comments[1..], s) == done + Interleave(orig, starts, comments, from)
  {
    TailBounded(starts, from, |orig|);
    var tail := Interleave(orig, starts[1..], comments[1..], s);
    assert next == done + (orig[from..s] + [comments[0]]);
    AppendAssoc(done, orig[from..s] + [comments[0]], tail);
    InterleaveHead(orig, starts, comments, from);
  }

  /**
   * The run over blocks of one template that all insert, in ascending line
   * order, from a text that is `done` followed by the original lines from
   * `from` on, with the ledger at the number of comments already in `done`:
   * no error, and every comment lands directly above its block's original
   * start line.
   */
  lemma {:induction false} RunInserts(st: State, store: Store, opts: LexerOptions, ext: Extension, blocks: seq<Block>,
                                     grouped: map<string, map<string, Comment>>, version: Option<string>,
                                     template: string, orig: seq<string>, done: seq<string>, from: nat)
    requires InsertRun(st, store, opts, ext, blocks, grouped, version, template, orig, done, from)
    ensures var run := AnnotateRun(st, store, opts, ext, blocks, grouped, version);
      && run.1 == [] && run.2 == None && template in run.0.files
      && Split(run.0.files[template])
           == done + Interleave(orig, Starts(blocks), NewComments(store, opts, ext, template, orig, blocks, version), from)
    decreases |blocks|
  {
    if blocks == [] {
      assert done + orig[from..] == done + Interleave(orig, [], [], from);
    } else {
      var b := blocks[0];
      var step := ProcessBlockStep(st, store, opts, ext, b, version, Lookup(grouped, Key(b.template), b.name).Some?);
      var s := b.lines.start - 1;
      var next := done + orig[from..s] + [NewComment(store, opts, ext, template, orig, b, version)];
      RunInsertsStep(st, store, opts, ext, blocks, grouped, version, template, orig, done, from);
      RunInserts(step.1, store, opts, ext, blocks[1..], grouped, version, template, orig, next, s);
      AnnotateRunOkStep(st, store, opts, ext, blocks, grouped, version);
      var comments := NewComments(store, opts, ext, template, orig, blocks, version);
      assert Starts(blocks)[0] == b.lines.start && comments[0] == NewComment(store, opts, ext, template, orig, b, version);
      assert Starts(blocks[1..]) == Starts(blocks)[1..];
      assert NewComments(store, opts, ext, template, orig, blocks[1..], version) == comments[1..];
      InterleaveBehind(orig, Starts(blocks), comments, done, from, s, next);
      calc {
        Split(AnnotateRun(st, store, opts, ext, blocks, grouped, version).0.files[template]);
        Split(AnnotateRun(step.1, store, opts, ext, blocks[1..], grouped, version).0.files[template]);
        next + Interleave(orig, Starts(blocks[1..]), NewComments(store, opts, ext, template, orig, blocks[1..], version), s);
        next + Interleave(orig, Starts(blocks)[1..], comments[1..], s);
        done + Interleave(orig, Starts(blocks), comments, from);
      }
    }
  }

  /**
   * The ledger at work over a whole run: from a fresh ledger, blocks of one
   * template that all insert, in ascending line order, leave the template's
   * text as the repeated inserts `InsertAll` describe, which is each comment
   * directly above its block's original start line.
   */
  lemma {:induction false} RunInsertsAll(st: State, store: Store, opts: LexerOptions, ext: Extension, blocks: seq<Block>,
                                        grouped: map<string, map<string, Comment>>, version: Option<string>, template: string)
    requires template in st.files && Offset(st, template) == 0
    requires forall k :: 0 <= k < |blocks| ==> Inserted(store, opts, ext, grouped, template, blocks[k])
    requires Ascending(Starts(blocks), 0, |Split(st.files[template])|)
    requires forall k :: 0 <= k < |blocks| ==>
      '\n' !in NewComment(store, opts, ext, template, Split(st.files[template]), blocks[k], version)
    ensures var orig, run := Split(st.files[template]), AnnotateRun(st, store, opts, ext, blocks, grouped, version);
      var comments := NewComments(store, opts, ext, template, orig, blocks, version);
      && run.1 == [] && run.2 == None && template in run.0.files
      && Split(run.0.files[template]) == InsertAll(orig, Starts(blocks), comments, 0)
      && Split(run.0.files[template]) == Interleave(orig, Starts(blocks), comments, 0)
  {
    var orig := Split(st.files[template]);
    assert [] + orig[0..] == orig;
    assert InsertRun(st, store, opts, ext, blocks, grouped, version, template, orig, [], 0);
    RunInserts(st, store, opts, ext, blocks, grouped, version, template, orig, [], 0);
    assert [] + Interleave(orig, Starts(blocks), NewComments(store, opts, ext, template, orig, blocks, version), 0)
      == Interleave(orig, Starts(blocks), NewComments(store, opts, ext, template, orig, blocks, version), 0);
    InsertAllInterleaves(orig, Starts(blocks), NewComments(store, opts, ext, template, orig, blocks, version));
  }

  /**
   * Blocks come in the order the node visitor records them, which is when
   * they close: a nested block before the block around it. For an outer
   * block on line 1 and a nested one on line 3, the nested comment goes in
   * first and raises the ledger, so the outer comment lands below the outer
   * start tag instead of above it.
   */
  lemma NestedOrderMisplaces()
    ensures InsertAll(["O", "x", "I", "y", "E", "E"], [3, 1], ["ci", "co"], 0) == ["O", "co", "x", "ci", "I", "y", "E", "E"]
  {
    var first := Splice(["O", "x", "I", "y", "E", "E"], 2, 0, "ci");
    assert first == ["O", "x", "ci", "I", "y", "E", "E"];
    assert Splice(first, 1, 0, "co") == ["O", "co", "x", "ci", "I", "y", "E", "E"];
  }

  /**
   * The annotator object: its offset ledger, and the template files it
   * rewrites. `store` is what the environment loaded (block tables and the
   * ancestors' text the hashes are taken from).
   */
  class TwigBlockAnnotator {
    var offsets: map<string, int>
    var files: map<string, string>
    const store: Store
    const opts: LexerOptions
    const ext: Extension

    function Current(): State
      reads this
    {
      State(offsets, files)
    }

    constructor (store: Store, files: map<string, string>, opts: LexerOptions, ext: Extension)
      ensures offsets == map[] && this.files == files
      ensures this.store == store && this.opts == opts && this.ext == ext
    {
      this.offsets := map[];
      this.files := files;
      this.store := store;
      this.opts := opts;
      this.ext := ext;
    }

    /** `getOffset`. */
    function GetOffset(template: string): (r: int)
      reads this
      ensures r == Offset(Current(), template)
    {
      if template in offsets then offsets[template] else 0
    }

    /** `hasOffset`: as written, true exactly when the recorded offset is 0. */
    function HasOffset(template: string): (r: bool)
      reads this
      ensures r <==> Offset(Current(), template) == 0
    {
      0 == GetOffset(template)
    }

    /** `addOffset`: only this template's entry changes, by `amount` (1 at every call site). */
    method AddOffset(template: string, amount: int)
      modifies this
      ensures offsets == old(offsets)[template := old(GetOffset(template)) + amount]
      ensures files == old(files)
    {
      var current := if template in offsets then offsets[template] else 0;
      offsets := offsets[template := current + amount];
    }

    /** `reset`: the ledger is emptied. */
    method Reset()
      modifies this
      ensures offsets == map[] && files == old(files)
    {
      offsets := map[];
    }

    /** `annotateBlock` followed by `writeTemplate`, on the template text `code`. */
    method AnnotateBlock(block: Block, sourceName: string, code: string, hash: Option<string>,
                         version: Option<string>, created: bool) returns (err: Option<Error>)
      modifies this
      ensures var r := AnnotateBlockStep(old(Current()), opts, ext, block, sourceName, code, hash, version, created);
        && (r.Ok? ==> err.None? && Current() == r.value)
        && (r.Err? ==> err == Some(r.error) && Current() == old(Current()))
    {
      ghost var st := Current();
      if hash.None? {
        assert AnnotateBlockStep(st, opts, ext, block, sourceName, code, hash, version, created) == Ok(st);
        return None;
      }
      var lines := Split(code);
      var index := block.lines.start - 1 + GetOffset(sourceName);
      assert index == StartIndex(st, block, sourceName);
      if !(0 <= index < |lines|) {
        assert AnnotateBlockStep(st, opts, ext, block, sourceName, code, hash, version, created) == Err(TypeError);
        return Some(TypeError);
      }
      var comment := CommentLine(opts, ext, lines[index], hash.value, version);
      ghost var expected := State(if created then st.offsets[sourceName := Offset(st, sourceName) + 1] else st.offsets,
                                  st.files[sourceName := Join(Splice(lines, index, if created then 0 else 1, comment))]);
      assert AnnotateBlockStep(st, opts, ext, block, sourceName, code, hash, version, created) == Ok(expected);
      if created {
        AddOffset(sourceName, 1);
      }
      assert offsets == expected.offsets;
      lines := Splice(lines, index, if created then 0 else 1, comment);
      files := files[sourceName := Join(lines)];
      assert Current() == expected;
      return None;
    }

    /** `processBlock`, returning the block's enrichment. */
    method ProcessBlock(block: Block, version: Option<string>, hasComment: bool) returns (r: Result<Annotation>)
      modifies this
      ensures (r, Current()) == ProcessBlockStep(old(Current()), store, opts, ext, block, version, hasComment)
    {
      if block.parentTemplate.None? {
        return Ok(Annotation(None, version, false));
      }
      if block.template.None? {
        return Err(TypeError);
      }
      var template := block.template.value;
      var hash := GetSourceHash(store, opts, ext, template, block.name);
      if hash.Err? {
        return Err(hash.error);
      }
      if hash.value.None? {
        return Ok(Annotation(None, version, false));
      }
      if template !in files {
        return Err(TemplateNotFound(template));
      }
      var err := AnnotateBlock(block, template, files[template], hash.value, version, !hasComment);
      if err.Some? {
        return Err(err.value);
      }
      return Ok(Annotation(hash.value, version, !hasComment));
    }

    /**
     * `annotate` over the blocks and comments the environment collected:
     * comments grouped by template and block, each block processed in turn.
     */
    method Annotate(blocks: seq<Block>, comments: seq<Comment>, version: Option<string>)
      returns (errors: seq<Error>, fatal: Option<Error>)
      modifies this
      ensures (Current(), errors, fatal) == AnnotateRun(old(Current()), store, opts, ext, blocks, Group(comments), version)
    {
      var grouped := Group(comments);
      ghost var final := AnnotateRun(Current(), store, opts, ext, blocks, grouped, version);
      errors := [];
      fatal := None;
      var i := 0;
      assert blocks[i..] == blocks;
      assert errors + final.1 == final.1;
      while i < |blocks|
        invariant 0 <= i <= |blocks|
        invariant Remaining(Current(), store, opts, ext, blocks[i..], grouped, version, errors, final)
      {
        ghost var before := Current();
        var b := blocks[i];
        var r := ProcessBlock(b, version, Lookup(grouped, Key(b.template), b.name).Some?);
        RemainingStep(before, store, opts, ext, blocks[i..], grouped, version, errors, final);
        assert blocks[i..][0] == b && blocks[i..][1..] == blocks[i + 1..];
        if r.Err? {
          if !r.error.IsTwigError() {
            fatal := Some(r.error);
            return;
          }
          errors := errors + [r.error];
        }
        i := i + 1;
      }
      assert blocks[i..] == [];
      assert errors + [] == errors;
    }
  }
}
