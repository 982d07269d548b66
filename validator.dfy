/**
 * The older validator revision: it checks each collected annotation comment
 * against the block it annotates. The block is looked up in the comment's
 * own template only, its content is cut out of that template's source, and
 * the comment is valid when its hash equals the content's hash and its
 * version satisfies `~default`.
 */
module Validator {
  import opened Common
  import opened Pathname
  import opened Namespaces
  import opened Environment
  import opened Resolver
  import opened NodeVisitor

  /** `_ValidatedComment`: the comment, the computed hash, the expected version and the verdicts. */
  datatype Validated = Validated(
    comment: Comment,
    sourceHash: string,
    sourceVersion: string,
    matchHash: bool,
    matchVersion: bool,
    valid: bool)

  /**
   * The verdict both validator revisions compute: the hash must be strictly
   * equal to the computed one (a null hash never matches), the version must
   * satisfy `~` followed by the default version, and the comment is valid
   * exactly when both hold.
   */
  function Decide(comment: Comment, sourceHash: string, defaultVersion: string, ext: Extension): (r: Validated)
    ensures r.comment == comment && r.sourceHash == sourceHash && r.sourceVersion == defaultVersion
    ensures r.matchHash <==> comment.hash == Some(sourceHash)
    ensures r.matchVersion <==> ext.satisfies(comment.version, "~" + defaultVersion)
    ensures r.valid <==> r.matchHash && r.matchVersion
  {
    var matchHash := comment.hash == Some(sourceHash);
    var matchVersion := ext.satisfies(comment.version, "~" + defaultVersion);
    Validated(comment, sourceHash, defaultVersion, matchHash, matchVersion, matchHash && matchVersion)
  }

  /**
   * The record `validateComment` leaves for `comment` under `version`: the
   * hash matches exactly when the comment carries the computed hash, the
   * version exactly when it satisfies `~version`, and the comment is valid
   * exactly when both checks pass.
   */
  predicate ValidatedAs(v: Validated, comment: Comment, version: string, ext: Extension) {
    && v.comment == comment && v.sourceVersion == version
    && (v.matchHash <==> comment.hash == Some(v.sourceHash))
    && (v.matchVersion <==> ext.satisfies(comment.version, "~" + version))
    && (v.valid <==> v.matchHash && v.matchVersion)
  }

  /**
   * `getBlockContent(template, block)`: the source of the template passed
   * in, not of the block's own template, sliced and cut by the same rule as
   * the resolver's.
   */
  function BlockContentIn(store: Store, opts: LexerOptions, template: string, block: Block): (r: Result<string>)
    ensures template !in store ==> r == Err(TemplateNotFound(template))
    ensures template in store ==> r == CutContent(store[template].source, block.name, block.lines, opts)
  {
    if template !in store then Err(TemplateNotFound(template))
    else CutContent(store[template].source, block.name, block.lines, opts)
  }

  /**
   * The two revisions read the same content exactly when the block belongs
   * to the template passed in; otherwise the older one cuts another
   * template's text.
   */
  lemma {:induction false} ContentAgreesWithResolver(store: Store, opts: LexerOptions, template: string, block: Block)
    requires block.template == Some(template)
    ensures BlockContentIn(store, opts, template, block) == GetBlockContent(store, opts, block)
  {
  }

  /** What `registerPaths` records for one pair: nothing, or the error naming it. */
  function Report(pair: (string, string), isDir: string -> bool): (r: seq<Error>)
    ensures forall e | e in r :: e == DirectoryNotFound(pair.1, pair.0) && !isDir(pair.1)
  {
    if isDir(pair.1) then [] else [DirectoryNotFound(pair.1, pair.0)]
  }

  /** `registerPaths`' error list over `(namespace, directory)` pairs: one error per missing directory, in order. */
  function Failures(pairs: seq<(string, string)>, isDir: string -> bool): (r: seq<Error>)
    ensures |r| <= |pairs|
    ensures (forall k :: 0 <= k < |pairs| ==> isDir(pairs[k].1)) ==> r == []
  {
    if pairs == [] then []
    else
      var init, last := pairs[..|pairs| - 1], pairs[|pairs| - 1];
      Failures(init, isDir) + Report(last, isDir)
  }

  /** Every recorded error names a pair of the input whose directory is missing. */
  lemma {:induction false} FailuresAreMissing(pairs: seq<(string, string)>, isDir: string -> bool)
    ensures forall e | e in Failures(pairs, isDir) :: e.DirectoryNotFound? && !isDir(e.path) && (e.namespace, e.path) in pairs
    decreases |pairs|
  {
    if pairs != [] {
      var init := pairs[..|pairs| - 1];
      FailuresAreMissing(init, isDir);
      assert forall q | q in init :: q in pairs;
    }
  }

  /** The loader's directories after `addPath` of each pair, missing ones skipped. */
  function AddAll(m: PathMap, pairs: seq<(string, string)>, isDir: string -> bool): PathMap {
    if pairs == [] then m
    else
      var init, last := pairs[..|pairs| - 1], pairs[|pairs| - 1];
      var done := AddAll(m, init, isDir);
      if isDir(last.1) then Append(done, last.0, last.1) else done
  }

  /** The directories of the pairs under `ns` that exist, in order. */
  function Existing(pairs: seq<(string, string)>, isDir: string -> bool, ns: string): (r: seq<string>)
    ensures forall p | p in r :: isDir(p) && (ns, p) in pairs
  {
    if pairs == [] then []
    else
      var init, last := pairs[..|pairs| - 1], pairs[|pairs| - 1];
      assert forall q | q in init :: q in pairs;
      Existing(init, isDir, ns) + (if last.0 == ns && isDir(last.1) then [last.1] else [])
  }

  /**
   * After registering, each namespace holds its earlier directories followed
   * by exactly the existing directories registered for it, in order: a
   * missing directory never stops the ones after it.
   */
  lemma {:induction false} AddAllLookup(m: PathMap, pairs: seq<(string, string)>, isDir: string -> bool, ns: string)
    ensures Lookup(AddAll(m, pairs, isDir), ns) == Lookup(m, ns) + Existing(pairs, isDir, ns)
    decreases |pairs|
  {
    if pairs != [] {
      AddAllLookup(m, pairs[..|pairs| - 1], isDir, ns);
    }
  }

  /** The pairs whose directory exists. */
  function Kept(pairs: seq<(string, string)>, isDir: string -> bool): (r: seq<(string, string)>)
    ensures forall q | q in r :: isDir(q.1) && q in pairs
  {
    if pairs == [] then []
    else
      var init, last := pairs[..|pairs| - 1], pairs[|pairs| - 1];
      assert forall q | q in init :: q in pairs;
      Kept(init, isDir) + (if isDir(last.1) then [last] else [])
  }

  /** Every pair is either registered or reported, never both. */
  lemma {:induction false} FailuresCount(pairs: seq<(string, string)>, isDir: string -> bool)
    ensures |Failures(pairs, isDir)| + |Kept(pairs, isDir)| == |pairs|
    decreases |pairs|
  {
    if pairs != [] {
      FailuresCount(pairs[..|pairs| - 1], isDir);
    }
  }

  /** Dropping the last pair of a concatenation. */
  lemma {:induction false} InitOfConcat(a: seq<(string, string)>, b: seq<(string, string)>)
    requires b != []
    ensures (a + b)[..|a + b| - 1] == a + b[..|b| - 1] && (a + b)[|a + b| - 1] == b[|b| - 1]
  {
  }

  /** Registering two runs of pairs one after the other: the reports concatenate. */
  lemma {:induction false} FailuresConcat(a: seq<(string, string)>, b: seq<(string, string)>, isDir: string -> bool)
    ensures Failures(a + b, isDir) == Failures(a, isDir) + Failures(b, isDir)
    decreases |b|
  {
    if b == [] {
      assert a + b == a;
    } else {
      var init, last := b[..|b| - 1], b[|b| - 1];
      FailuresConcat(a, init, isDir);
      InitOfConcat(a, b);
      calc {
        Failures(a + b, isDir);
        Failures(a + init, isDir) + Report(last, isDir);
        Failures(a, isDir) + Failures(init, isDir) + Report(last, isDir);
        Failures(a, isDir) + (Failures(init, isDir) + Report(last, isDir));
      }
    }
  }

  /** Registering two runs of pairs one after the other: the second run starts from the first one's directories. */
  lemma {:induction false} AddAllConcat(m: PathMap, a: seq<(string, string)>, b: seq<(string, string)>, isDir: string -> bool)
    ensures AddAll(m, a + b, isDir) == AddAll(AddAll(m, a, isDir), b, isDir)
    decreases |b|
  {
    if b == [] {
      assert a + b == a;
    } else {
      AddAllConcat(m, a, b[..|b| - 1], isDir);
      InitOfConcat(a, b);
    }
  }

  /** One more directory of a namespace. */
  lemma {:induction false} PairsStep(ns: string, paths: seq<string>, j: nat)
    requires j < |paths|
    ensures Pairs(ns, paths[..j + 1]) == Pairs(ns, paths[..j]) + [(ns, paths[j])]
  {
  }

  /** One more namespace's pairs. */
  lemma {:induction false} FlattenStep(order: seq<string>, m: PathMap, i: nat)
    requires i < |order|
    ensures Flatten(order[..i + 1], m) == Flatten(order[..i], m) + Pairs(order[i], Lookup(m, order[i]))
  {
    assert order[..i + 1][..i] == order[..i];
  }

  /**
   * The tail of `validateComment` once the block is resolved: the content of
   * the block in `template`'s source, hashed, and the verdict on it.
   */
  function Verdict(store: Store, opts: LexerOptions, ext: Extension, template: string, block: Block,
                   comment: Comment, defaultVersion: string): (r: Result<Validated>)
    ensures r.Ok? ==> ValidatedAs(r.value, comment, defaultVersion, ext)
    ensures r.Err? ==> r.error.TemplateNotFound? || r.error.TypeError? || r.error.StartTagNotFound? || r.error.EndTagNotFound?
  {
    match BlockContentIn(store, opts, template, block)
    case Err(e) => Err(e)
    case Ok(content) => Ok(Decide(comment, ext.hash(content), defaultVersion, ext))
  }

  /**
   * The verdict exists exactly when the content is found, and is then
   * about the content's hash: the hash matches exactly when the comment
   * claims the hash of the content cut from the template.
   */
  lemma {:induction false} VerdictOnContent(store: Store, opts: LexerOptions, ext: Extension, template: string, block: Block,
                                            comment: Comment, defaultVersion: string)
    ensures var r, content := Verdict(store, opts, ext, template, block, comment, defaultVersion), BlockContentIn(store, opts, template, block);
      && (r.Ok? <==> content.Ok?)
      && (r.Err? ==> r.error == content.error)
      && (r.Ok? ==> r.value.sourceHash == ext.hash(content.value))
      && (r.Ok? ==> (r.value.matchHash <==> comment.hash == Some(ext.hash(content.value))))
  {
  }

  /**
   * The verdict is the one on a block the comment names, its content cut
   * from the comment's own template: its source hash is the hash of that
   * content.
   */
  ghost predicate OnBlock(store: Store, opts: LexerOptions, ext: Extension, v: Validated, comment: Comment, version: string) {
    && comment.template.Some? && comment.block.Some?
    && exists b: Block {:trigger Verdict(store, opts, ext, comment.template.value, b, comment, version)} ::
         && b.name == comment.block.value
         && Verdict(store, opts, ext, comment.template.value, b, comment, version) == Ok(v)
  }

  /** One more verdict on a block its comment names. */
  lemma OnBlockStep(store: Store, opts: LexerOptions, ext: Extension, validated: seq<Validated>, comments: seq<Comment>,
                    v: Validated, version: string)
    requires |validated| < |comments|
    requires forall k :: 0 <= k < |validated| ==> OnBlock(store, opts, ext, validated[k], comments[k], version)
    requires OnBlock(store, opts, ext, v, comments[|validated|], version)
    ensures forall k :: 0 <= k < |validated| + 1 ==> OnBlock(store, opts, ext, (validated + [v])[k], comments[k], version)
  {
  }

  /**
   * `addPath($path, $namespace)` under strict types: a namespace key PHP
   * holds as an `int` fails the `string` parameter with a `TypeError`, which
   * `registerPaths` does not catch. It happens at the namespace's first
   * directory, so only a namespace with directories is rejected.
   */
  predicate Rejected(ns: string, paths: seq<string>) {
    IntegerKey(ns) && paths != []
  }

  /** The position in `order` of the first namespace `registerPaths` aborts on; `|order|` when there is none. */
  function FirstRejected(order: seq<string>, m: PathMap): (r: nat)
    ensures r <= |order|
    ensures forall k :: 0 <= k < r ==> !Rejected(order[k], Lookup(m, order[k]))
    ensures r < |order| ==> Rejected(order[r], Lookup(m, order[r]))
    decreases |order|
  {
    if order == [] then 0
    else if Rejected(order[0], Lookup(m, order[0])) then 0
    else 1 + FirstRejected(order[1..], m)
  }

  /** The position of the first path that is not a directory; `|paths|` when all are. */
  function FirstMissing(paths: seq<string>, isDir: string -> bool): (r: nat)
    ensures r <= |paths|
    ensures forall k :: 0 <= k < r ==> isDir(paths[k])
    ensures r < |paths| ==> !isDir(paths[r])
    decreases |paths|
  {
    if paths == [] then 0
    else if !isDir(paths[0]) then 0
    else 1 + FirstMissing(paths[1..], isDir)
  }

  /**
   * `(new Finder())->in($paths)` and the start of iterating it: `in` throws
   * at the first path that is not a directory, and a finder searching no
   * directory throws once iterated. `None` when the finder enumerates files.
   */
  function FinderFailure(paths: seq<string>, isDir: string -> bool): (r: Option<Error>)
    ensures r.None? <==> paths != [] && forall k :: 0 <= k < |paths| ==> isDir(paths[k])
    ensures r.Some? ==> r.value.IsFinderError()
    ensures paths == [] ==> r == Some(NoSearchDirectories)
  {
    var m := FirstMissing(paths, isDir);
    if m < |paths| then Some(SearchDirectoryNotFound(paths[m]))
    else if paths == [] then Some(NoSearchDirectories)
    else None
  }

  /** A finder over directories that are not all there names the first missing one, in list order. */
  lemma FinderNamesFirstMissing(paths: seq<string>, isDir: string -> bool, k: nat)
    requires k < |paths| && !isDir(paths[k]) && forall j :: 0 <= j < k ==> isDir(paths[j])
    ensures FinderFailure(paths, isDir) == Some(SearchDirectoryNotFound(paths[k]))
  {
  }

  /** The position in `order` of the first namespace whose finder throws; `|order|` when every one enumerates. */
  function FirstUnsearchable(order: seq<string>, m: PathMap, isDir: string -> bool): (r: nat)
    ensures r <= |order|
    ensures forall k :: 0 <= k < r ==> FinderFailure(Lookup(m, order[k]), isDir).None?
    ensures r < |order| ==> FinderFailure(Lookup(m, order[r]), isDir).Some?
    decreases |order|
  {
    if order == [] then 0
    else if FinderFailure(Lookup(m, order[0]), isDir).Some? then 0
    else 1 + FirstUnsearchable(order[1..], m, isDir)
  }

  /**
   * One namespace of `loadPaths` fails with `e`: its finder over `paths`
   * throws `e`, or the finder enumerates and one of its `files` fails to
   * load with `e`.
   */
  predicate NamespaceFails(namespace: string, paths: seq<string>, files: seq<string>, isDir: string -> bool, e: Error) {
    var f := FinderFailure(paths, isDir);
    if f.Some? then e == f.value
    else exists k :: 0 <= k < |files| && e == FileLoadFailed(files[k], namespace)
  }

  /**
   * `loadPaths` stops with `e` at the namespace in position `i`: no
   * namespace before it has a finder that throws, and this one fails with `e`.
   */
  predicate StopsAt(order: seq<string>, m: PathMap, found: string -> seq<string>, isDir: string -> bool, i: nat, e: Error)
    requires i < |order|
  {
    && i <= FirstUnsearchable(order, m, isDir)
    && NamespaceFails(order[i], Lookup(m, order[i]), found(order[i]), isDir, e)
  }

  /** Every file of `files` under `namespace` is a template the loader knows. */
  predicate AllLoadable(store: Store, loaderKey: string -> Option<string>, namespace: string, files: seq<string>) {
    forall k :: 0 <= k < |files| ==>
      var name := BuildNamespacedPathname(namespace, files[k]);
      name in store && loaderKey(name).Some?
  }

  /** Every file the finders enumerate for the first `n` namespaces is a template the loader knows. */
  predicate LoadedUpTo(store: Store, loaderKey: string -> Option<string>, order: seq<string>, found: string -> seq<string>, n: nat)
    requires n <= |order|
  {
    forall j :: 0 <= j < n ==> AllLoadable(store, loaderKey, order[j], found(order[j]))
  }

  /** One more file that loads. */
  lemma LoadableStep(store: Store, loaderKey: string -> Option<string>, namespace: string, files: seq<string>, i: nat)
    requires i < |files| && AllLoadable(store, loaderKey, namespace, files[..i])
    requires var name := BuildNamespacedPathname(namespace, files[i]); name in store && loaderKey(name).Some?
    ensures AllLoadable(store, loaderKey, namespace, files[..i + 1])
  {
    assert forall k :: 0 <= k < i ==> files[..i + 1][k] == files[..i][k];
  }

  /** One more namespace whose files all load. */
  lemma LoadedStep(store: Store, loaderKey: string -> Option<string>, order: seq<string>, found: string -> seq<string>, i: nat)
    requires i < |order| && LoadedUpTo(store, loaderKey, order, found, i)
    requires AllLoadable(store, loaderKey, order[i], found(order[i]))
    ensures LoadedUpTo(store, loaderKey, order, found, i + 1)
  {
  }

  /** A namespace whose finder enumerates adds no registration error. */
  lemma {:induction false} SearchedStep(order: seq<string>, m: PathMap, isDir: string -> bool, i: nat)
    requires i < |order| && FinderFailure(Lookup(m, order[i]), isDir).None?
    requires Failures(Flatten(order[..i], m), isDir) == []
    ensures Failures(Flatten(order[..i + 1], m), isDir) == []
  {
    var paths := Lookup(m, order[i]);
    var pairs := Pairs(order[i], paths);
    assert forall k :: 0 <= k < |pairs| ==> pairs[k].1 == paths[k] && isDir(paths[k]);
    assert Failures(pairs, isDir) == [];
    FlattenStep(order, m, i);
    FailuresConcat(Flatten(order[..i], m), pairs, isDir);
  }

  /** The older validator over its environment, the node visitor the environment feeds, and the template store. */
  class TwigBlockValidator {
    const twig: BlockValidatorEnvironment
    const visitor: BlockNodeVisitor
    const store: Store
    const opts: LexerOptions
    const ext: Extension

    constructor (twig: BlockValidatorEnvironment, visitor: BlockNodeVisitor, store: Store, opts: LexerOptions, ext: Extension)
      ensures this.twig == twig && this.visitor == visitor && this.store == store
      ensures this.opts == opts && this.ext == ext
    {
      this.twig := twig;
      this.visitor := visitor;
      this.store := store;
      this.opts := opts;
      this.ext := ext;
    }

    /**
     * `resolveParentBlock` of the older revision. Its do-while body runs at
     * most once: the block comes from the starting template's own table; a
     * missing block is a `LoaderError`; a block with a parent only makes the
     * environment load that parent, whose failure escapes.
     */
    method ResolveParentBlock(template: string, blockName: string) returns (r: Result<Block>)
      modifies twig
      ensures var cached := old(twig.CachedBlocks(template));
        && (cached.Err? ==> r == Err(cached.error) && unchanged(twig))
        && (cached.Ok? && blockName !in cached.value ==> r == Err(BlockNotFound(blockName, template)) && unchanged(twig))
        && (cached.Ok? && blockName in cached.value && cached.value[blockName].parentTemplate.None? ==>
              r == Ok(cached.value[blockName]) && unchanged(twig))
        && (cached.Ok? && blockName in cached.value && cached.value[blockName].parentTemplate.Some? ==>
              var p := cached.value[blockName].parentTemplate.value;
              && (p in store && twig.loaderKey(p).Some? ==>
                    && r == Ok(cached.value[blockName])
                    && twig.blockCache == FileOnce(old(twig.blockCache), CacheKey("blocks", twig.loaderKey(p).value), BlockMap(store[p].blocks))
                    && twig.commentCache == FileOnce(old(twig.commentCache), CacheKey("comments", twig.loaderKey(p).value), store[p].comments))
              && (p !in store || twig.loaderKey(p).None? ==> r == Err(TemplateNotFound(p)) && unchanged(twig)))
      ensures twig.paths == old(twig.paths)
      ensures old(twig.BlocksByName()) ==> twig.BlocksByName()
    {
      var current := template;
      var block: Option<Block> := None;
      var first := true;
      while first || block.None?
        invariant first ==> unchanged(twig) && block.None? && current == template
        invariant twig.paths == old(twig.paths)
        invariant !first ==> var cached := old(twig.CachedBlocks(template));
          && cached.Ok? && blockName in cached.value && block == Some(cached.value[blockName])
          && block.value.parentTemplate.Some?
          && block.value.parentTemplate.value in store && twig.loaderKey(block.value.parentTemplate.value).Some?
          && var p := block.value.parentTemplate.value;
             && twig.blockCache == FileOnce(old(twig.blockCache), CacheKey("blocks", twig.loaderKey(p).value), BlockMap(store[p].blocks))
             && twig.commentCache == FileOnce(old(twig.commentCache), CacheKey("comments", twig.loaderKey(p).value), store[p].comments)
        invariant old(twig.BlocksByName()) ==> twig.BlocksByName()
        decreases if first then 1 else 0
      {
        first := false;
        var blocks := twig.GetBlocks(current);
        if blocks.Err? {
          return Err(blocks.error);
        }
        block := if blockName in blocks.value then Some(blocks.value[blockName]) else None;
        if block.None? || block.value.parentTemplate.None? {
          break;
        }
        current := block.value.parentTemplate.value;
        var err := twig.Load(Some(current), store);
        if err.Some? {
          return Err(err.value);
        }
      }
      if block.None? {
        return Err(BlockNotFound(blockName, template));
      }
      return Ok(block.value);
    }

    /**
     * `validateComment`: a comment without template or block is rejected by
     * the string parameters; otherwise the verdict on the hash of the
     * resolved block's content. Every failure on the way escapes.
     */
    method ValidateComment(comment: Comment, defaultVersion: string) returns (r: Result<Validated>)
      modifies twig
      ensures comment.template.None? || comment.block.None? ==> r == Err(TypeError) && unchanged(twig)
      ensures r.Ok? ==> comment.template.Some? && comment.block.Some? && ValidatedAs(r.value, comment, defaultVersion, ext)
      ensures comment.template.Some? && comment.block.Some? ==>
        var t, name := comment.template.value, comment.block.value;
        var cached := old(twig.CachedBlocks(t));
        && (r.Ok? ==> cached.Ok? && name in cached.value)
        && forall block {:trigger Verdict(store, opts, ext, t, block, comment, defaultVersion)}
             | cached.Ok? && name in cached.value && block == cached.value[name] && (r.Ok? || block.parentTemplate.None?)
             :: r == Verdict(store, opts, ext, t, block, comment, defaultVersion)
      ensures r.Err? ==> r.error.TypeError? || r.error.IsTwigError()
      ensures twig.paths == old(twig.paths)
      ensures forall key | key in old(twig.blockCache) :: key in twig.blockCache && twig.blockCache[key] == old(twig.blockCache)[key]
      ensures forall key | key in old(twig.commentCache) :: key in twig.commentCache && twig.commentCache[key] == old(twig.commentCache)[key]
      ensures old(twig.BlocksByName()) ==> twig.BlocksByName()
    {
      if comment.template.None? || comment.block.None? {
        return Err(TypeError);
      }
      var template := comment.template.value;
      var parentBlock := ResolveParentBlock(template, comment.block.value);
      if parentBlock.Err? {
        return Err(parentBlock.error);
      }
      var content := BlockContentIn(store, opts, template, parentBlock.value);
      if content.Err? {
        return Err(content.error);
      }
      var sourceHash := ext.hash(content.value);
      return Ok(Decide(comment, sourceHash, defaultVersion, ext));
    }

    /**
     * The inner loop of `registerPaths`: every directory of one namespace is
     * handed to the environment in order, a missing one is recorded and the
     * rest are still added. `namespace` is the key as written; an integer
     * key reaches `addPath` as an `int` and aborts the loop with `fatal`.
     */
    method RegisterNamespace(namespace: string, paths: seq<string>) returns (errors: seq<Error>, fatal: Option<Error>)
      modifies twig
      ensures Rejected(namespace, paths) ==> fatal == Some(TypeError) && errors == [] && twig.paths == old(twig.paths)
      ensures !Rejected(namespace, paths) ==> fatal.None?
      ensures !Rejected(namespace, paths) ==> errors == Failures(Pairs(namespace, paths), twig.isDir)
      ensures !Rejected(namespace, paths) ==> twig.paths == AddAll(old(twig.paths), Pairs(namespace, paths), twig.isDir)
      ensures twig.blockCache == old(twig.blockCache) && twig.commentCache == old(twig.commentCache)
    {
      errors, fatal := [], None;
      for j := 0 to |paths|
        invariant IntegerKey(namespace) ==> j == 0
        invariant errors == Failures(Pairs(namespace, paths[..j]), twig.isDir)
        invariant twig.paths == AddAll(old(twig.paths), Pairs(namespace, paths[..j]), twig.isDir)
        invariant twig.blockCache == old(twig.blockCache) && twig.commentCache == old(twig.commentCache)
      {
        if IntegerKey(namespace) {
          fatal := Some(TypeError);
          return;
        }
        PairsStep(namespace, paths, j);
        FailuresConcat(Pairs(namespace, paths[..j]), [(namespace, paths[j])], twig.isDir);
        AddAllConcat(old(twig.paths), Pairs(namespace, paths[..j]), [(namespace, paths[j])], twig.isDir);
        var err := twig.AddPath(paths[j], namespace);
        if err.Some? {
          errors := errors + [err.value];
        }
      }
      assert paths[..|paths|] == paths;
    }

    /**
     * `registerPaths`: the namespaces in map order, each through
     * `RegisterNamespace`, up to the first one whose integer key aborts the
     * loop with a `TypeError`. `errors` are the loader errors collected on
     * the way; the console reports them only when the loop completes.
     */
    method RegisterPaths(scope: PathMap) returns (errors: seq<Error>, fatal: Option<Error>)
      modifies twig
      ensures var n := FirstRejected(scope.order, scope);
        && (fatal.Some? <==> n < |scope.order|) && (fatal.Some? ==> fatal.value == TypeError)
        && errors == Failures(Flatten(scope.order[..n], scope), twig.isDir)
        && twig.paths == AddAll(old(twig.paths), Flatten(scope.order[..n], scope), twig.isDir)
      ensures twig.blockCache == old(twig.blockCache) && twig.commentCache == old(twig.commentCache)
    {
      errors, fatal := [], None;
      ghost var n := FirstRejected(scope.order, scope);
      for i := 0 to |scope.order|
        invariant i <= n
        invariant errors == Failures(Flatten(scope.order[..i], scope), twig.isDir)
        invariant twig.paths == AddAll(old(twig.paths), Flatten(scope.order[..i], scope), twig.isDir)
        invariant twig.blockCache == old(twig.blockCache) && twig.commentCache == old(twig.commentCache)
      {
        var namespace := scope.order[i];
        FlattenStep(scope.order, scope, i);
        FailuresConcat(Flatten(scope.order[..i], scope), Pairs(namespace, Lookup(scope, namespace)), twig.isDir);
        AddAllConcat(old(twig.paths), Flatten(scope.order[..i], scope), Pairs(namespace, Lookup(scope, namespace)), twig.isDir);
        var more, abort := RegisterNamespace(namespace, Lookup(scope, namespace));
        if abort.Some? {
          assert i == n;
          fatal := abort;
          return;
        }
        errors := errors + more;
      }
      assert scope.order[..|scope.order|] == scope.order;
    }

    /**
     * The file loop of `loadPaths` with `validate`'s gathering: each file a
     * finder enumerates for `namespace` is loaded under its namespaced name,
     * a failure aborting as a `LoaderError` that names the file and the
     * namespace, and its cached comments appended.
     */
    method LoadComments(namespace: string, files: seq<string>) returns (comments: seq<Comment>, err: Option<Error>)
      modifies twig
      ensures err.Some? ==> exists k :: 0 <= k < |files| && err.value == FileLoadFailed(files[k], namespace)
      ensures err.None? ==> AllLoadable(store, twig.loaderKey, namespace, files)
      ensures twig.paths == old(twig.paths)
      ensures old(twig.BlocksByName()) ==> twig.BlocksByName()
    {
      comments, err := [], None;
      for i := 0 to |files|
        invariant twig.paths == old(twig.paths)
        invariant old(twig.BlocksByName()) ==> twig.BlocksByName()
        invariant AllLoadable(store, twig.loaderKey, namespace, files[..i])
      {
        var file := files[i];
        var name := BuildNamespacedPathname(namespace, file);
        var loadErr := twig.Load(Some(name), store);
        if loadErr.Some? {
          err := Some(FileLoadFailed(file, namespace));
          return;
        }
        LoadableStep(store, twig.loaderKey, namespace, files, i);
        var collected := twig.GetComments(name);
        // A successful load leaves the comments cached.
        assert collected.Ok?;
        comments := comments + collected.value;
      }
      assert files[..|files|] == files;
    }

    /**
     * One namespace of `loadPaths`: a finder over its directories `paths`,
     * which may throw before it yields, then the files it enumerates through
     * `LoadComments`.
     */
    method LoadNamespace(namespace: string, paths: seq<string>, files: seq<string>) returns (comments: seq<Comment>, err: Option<Error>)
      modifies twig
      ensures err.Some? ==> NamespaceFails(namespace, paths, files, twig.isDir, err.value)
      ensures err.Some? ==> err.value.IsFinderError() || err.value.FileLoadFailed?
      ensures err.None? ==> FinderFailure(paths, twig.isDir).None? && AllLoadable(store, twig.loaderKey, namespace, files)
      ensures FinderFailure(paths, twig.isDir).Some? ==> err.Some? && unchanged(twig)
      ensures twig.paths == old(twig.paths)
      ensures old(twig.BlocksByName()) ==> twig.BlocksByName()
    {
      comments := [];
      err := FinderFailure(paths, twig.isDir);
      if err.Some? {
        return;
      }
      comments, err := LoadComments(namespace, files);
    }

    /**
     * `loadPaths` with `validate`'s gathering: the scope namespaces in map
     * order, each searched by a finder over its directories and its files
     * loaded through `LoadComments`; the first failure escapes. `found(ns)`
     * stands for the relative pathnames of the `*.twig` files a finder
     * enumerates in the directories of `ns`.
     */
    method LoadPaths(scope: PathMap, found: string -> seq<string>) returns (comments: seq<Comment>, err: Option<Error>)
      modifies twig
      ensures err.Some? ==> exists i :: 0 <= i < |scope.order| && StopsAt(scope.order, scope, found, twig.isDir, i, err.value)
      ensures err.Some? ==> err.value.IsFinderError() || err.value.FileLoadFailed?
      ensures err.None? ==> FirstUnsearchable(scope.order, scope, twig.isDir) == |scope.order|
      ensures err.None? ==> Failures(Flatten(scope.order, scope), twig.isDir) == []
      ensures err.None? ==> LoadedUpTo(store, twig.loaderKey, scope.order, found, |scope.order|)
      ensures twig.paths == old(twig.paths)
      ensures old(twig.BlocksByName()) ==> twig.BlocksByName()
    {
      comments, err := [], None;
      ghost var n := FirstUnsearchable(scope.order, scope, twig.isDir);
      for i := 0 to |scope.order|
        invariant i <= n
        invariant twig.paths == old(twig.paths)
        invariant old(twig.BlocksByName()) ==> twig.BlocksByName()
        invariant Failures(Flatten(scope.order[..i], scope), twig.isDir) == []
        invariant LoadedUpTo(store, twig.loaderKey, scope.order, found, i)
      {
        var namespace := scope.order[i];
        var more, failure := LoadNamespace(namespace, Lookup(scope, namespace), found(namespace));
        if failure.Some? {
          assert StopsAt(scope.order, scope, found, twig.isDir, i, failure.value);
          err := failure;
          return;
        }
        assert i < n;
        SearchedStep(scope.order, scope, twig.isDir, i);
        LoadedStep(store, twig.loaderKey, scope.order, found, i);
        comments := comments + more;
      }
      assert scope.order[..|scope.order|] == scope.order;
    }

    /**
     * `validate`'s result loop: every comment is validated against the run's
     * version; a null version reaches `validateComment`'s string parameter,
     * and the first error escapes.
     */
    method ValidateAll(comments: seq<Comment>, version: Option<string>) returns (validated: seq<Validated>, err: Option<Error>)
      requires twig.BlocksByName()
      modifies twig
      ensures err.None? ==> (version.Some? || comments == []) && |validated| == |comments|
      ensures err.None? ==> forall i :: 0 <= i < |validated| ==> ValidatedAs(validated[i], comments[i], version.value, ext)
      ensures err.None? ==> forall i :: 0 <= i < |validated| ==> OnBlock(store, opts, ext, validated[i], comments[i], version.value)
      ensures version.None? && comments != [] ==> err == Some(TypeError)
      ensures err.Some? ==> err.value.TypeError? || err.value.IsTwigError()
      ensures twig.paths == old(twig.paths)
      ensures twig.BlocksByName()
    {
      validated, err := [], None;
      if comments == [] {
        return;
      }
      // The first call already rejects a null version.
      if version.None? {
        err := Some(TypeError);
        return;
      }
      for i := 0 to |comments|
        invariant twig.paths == old(twig.paths)
        invariant |validated| == i && forall k :: 0 <= k < i ==> ValidatedAs(validated[k], comments[k], version.value, ext)
        invariant forall k :: 0 <= k < i ==> OnBlock(store, opts, ext, validated[k], comments[k], version.value)
        invariant twig.BlocksByName()
      {
        ghost var t := if comments[i].template.Some? then comments[i].template.value else "";
        ghost var cached := twig.CachedBlocks(t);
        var r := ValidateComment(comments[i], version.value);
        if r.Err? {
          err := Some(r.error);
          return;
        }
        ghost var b := cached.value[comments[i].block.value];
        assert b.name == comments[i].block.value;
        assert r == Verdict(store, opts, ext, comments[i].template.value, b, comments[i], version.value);
        assert OnBlock(store, opts, ext, r.value, comments[i], version.value);
        OnBlockStep(store, opts, ext, validated, comments, r.value, version.value);
        validated := validated + [r.value];
      }
    }

    /**
     * `validate` once the paths are registered: the visitor's default
     * version is swapped for the run's, the scope files' comments gathered
     * and validated, and the previous default put back only when nothing
     * escaped.
     */
    method ValidateScope(scopePaths: PathMap, version: Option<string>, found: string -> seq<string>)
      returns (comments: seq<Comment>, validated: seq<Validated>, err: Option<Error>)
      requires twig.BlocksByName()
      modifies twig, visitor
      ensures visitor.defaultVersion == if err.None? then old(visitor.defaultVersion) else version
      ensures err.None? ==> (version.Some? || comments == []) && |validated| == |comments|
      ensures err.None? ==> forall i :: 0 <= i < |validated| ==> ValidatedAs(validated[i], comments[i], version.value, ext)
      ensures err.None? ==> forall i :: 0 <= i < |validated| ==> OnBlock(store, opts, ext, validated[i], comments[i], version.value)
      ensures err.None? ==> FirstUnsearchable(scopePaths.order, scopePaths, twig.isDir) == |scopePaths.order|
      ensures err.None? ==> Failures(Flatten(scopePaths.order, scopePaths), twig.isDir) == []
      ensures err.Some? && err.value.IsFinderError() ==>
        exists i :: 0 <= i < |scopePaths.order| && StopsAt(scopePaths.order, scopePaths, found, twig.isDir, i, err.value)
      ensures err.Some? ==> err.value.TypeError? || err.value.IsTwigError() || err.value.IsFinderError()
      ensures twig.paths == old(twig.paths)
      ensures twig.BlocksByName()
    {
      var previous := visitor.GetDefaultVersion();
      visitor.SetDefaultVersion(version);
      validated := [];
      comments, err := LoadPaths(scopePaths, found);
      if err.Some? {
        return;
      }
      validated, err := ValidateAll(comments, version);
      if err.Some? {
        return;
      }
      visitor.SetDefaultVersion(previous);
    }

    /**
     * `validate`: resets the environment, registers both path maps, sets
     * the visitor's default version for the run, gathers the scope files'
     * comments, validates them and puts the previous default back. A path
     * map with an integer namespace key aborts the run before the default
     * version is set; on any later escaping error the previous default is
     * not restored, a finder that throws on a scope namespace included.
     * `loaderErrors` are the registration errors the console reports;
     * `found` is the finders' enumeration, as in `LoadPaths`.
     */
    method Validate(scopePaths: PathMap, templatePaths: PathMap, version: Option<string>, found: string -> seq<string>)
      returns (comments: seq<Comment>, validated: seq<Validated>, loaderErrors: seq<Error>, err: Option<Error>)
      requires twig.BlocksByName()
      modifies twig, visitor
      ensures var ns := FirstRejected(scopePaths.order, scopePaths);
        ns < |scopePaths.order| ==>
          && err == Some(TypeError) && comments == [] && validated == [] && loaderErrors == []
          && twig.paths == AddAll(ClearNamespace(old(twig.paths), MainNamespace), Flatten(scopePaths.order[..ns], scopePaths), twig.isDir)
      ensures var ns, nt := FirstRejected(scopePaths.order, scopePaths), FirstRejected(templatePaths.order, templatePaths);
        ns == |scopePaths.order| ==>
          && twig.paths == AddAll(AddAll(ClearNamespace(old(twig.paths), MainNamespace),
               Flatten(scopePaths.order, scopePaths), twig.isDir), Flatten(templatePaths.order[..nt], templatePaths), twig.isDir)
          && (nt < |templatePaths.order| ==>
                err == Some(TypeError) && comments == [] && validated == []
                && loaderErrors == Failures(Flatten(scopePaths.order, scopePaths), twig.isDir))
          && (nt == |templatePaths.order| ==>
                loaderErrors == Failures(Flatten(scopePaths.order, scopePaths), twig.isDir)
                  + Failures(Flatten(templatePaths.order, templatePaths), twig.isDir))
      ensures var ns, nt := FirstRejected(scopePaths.order, scopePaths), FirstRejected(templatePaths.order, templatePaths);
        ns < |scopePaths.order| || nt < |templatePaths.order| ==> visitor.defaultVersion == old(visitor.defaultVersion)
      ensures var ns, nt := FirstRejected(scopePaths.order, scopePaths), FirstRejected(templatePaths.order, templatePaths);
        err.Some? && ns == |scopePaths.order| && nt == |templatePaths.order| ==> visitor.defaultVersion == version
      ensures err.None? ==> visitor.defaultVersion == old(visitor.defaultVersion)
      ensures err.None? ==> (version.Some? || comments == []) && |validated| == |comments|
      ensures err.None? ==> forall i :: 0 <= i < |validated| ==> ValidatedAs(validated[i], comments[i], version.value, ext)
      ensures err.None? ==> forall i :: 0 <= i < |validated| ==> OnBlock(store, opts, ext, validated[i], comments[i], version.value)
      ensures err.None? ==> FirstUnsearchable(scopePaths.order, scopePaths, twig.isDir) == |scopePaths.order|
      ensures err.None? ==> Failures(Flatten(scopePaths.order, scopePaths), twig.isDir) == []
      ensures err.Some? && err.value.IsFinderError() ==>
        exists i :: 0 <= i < |scopePaths.order| && StopsAt(scopePaths.order, scopePaths, found, twig.isDir, i, err.value)
      ensures err.Some? ==> err.value.TypeError? || err.value.IsTwigError() || err.value.IsFinderError()
      ensures twig.BlocksByName()
    {
      twig.Reset();
      var _ := visitor.ResetCollection();
      comments, validated, loaderErrors, err := [], [], [], None;
      var scopeErrors, fatal := RegisterPaths(scopePaths);
      if fatal.Some? {
        err := fatal;
        return;
      }
      assert scopePaths.order[..|scopePaths.order|] == scopePaths.order;
      var templateErrors;
      templateErrors, fatal := RegisterPaths(templatePaths);
      loaderErrors := scopeErrors;
      if fatal.Some? {
        err := fatal;
        return;
      }
      assert templatePaths.order[..|templatePaths.order|] == templatePaths.order;
      loaderErrors := scopeErrors + templateErrors;
      comments, validated, err := ValidateScope(scopePaths, version, found);
    }
  }
}
