/**
 * The version validator: it keeps its own caches of loaded templates and of
 * block tables per template, and checks a collected comment against the raw
 * lines of the block in the comment's parent template, without cutting at
 * the tags.
 */
module VersionValidator {
  import opened Common
  import opened Text
  import opened Resolver
  import opened Namespaces
  import opened NodeVisitor
  import opened Validator

  /** `$blockCache[$t] ?? []`. */
  function Entry(cache: map<string, map<string, Block>>, t: string): map<string, Block> {
    if t in cache then cache[t] else map[]
  }

  /**
   * `updateBlockCache`: each block in turn is stored under its template and
   * its name, a later block overwriting an earlier one.
   */
  function CacheBlocks(cache: map<string, map<string, Block>>, blocks: seq<Block>): (r: map<string, map<string, Block>>)
    ensures forall t | t in cache :: t in r
  {
    if blocks == [] then cache
    else
      var done := CacheBlocks(cache, blocks[..|blocks| - 1]);
      var b := blocks[|blocks| - 1];
      done[Key(b.template) := Entry(done, Key(b.template))[b.name := b]]
  }

  /** Two blocks land in the same cache slot when template key and name agree. */
  predicate SameSlot(a: Block, b: Block) {
    Key(a.template) == Key(b.template) && a.name == b.name
  }

  /** A block that no later block shares a slot with is the one the cache keeps. */
  lemma {:induction false} CacheBlocksLastWins(cache: map<string, map<string, Block>>, blocks: seq<Block>, i: nat)
    requires i < |blocks|
    requires forall j :: i < j < |blocks| ==> !SameSlot(blocks[j], blocks[i])
    ensures blocks[i].name in Entry(CacheBlocks(cache, blocks), Key(blocks[i].template))
    ensures Entry(CacheBlocks(cache, blocks), Key(blocks[i].template))[blocks[i].name] == blocks[i]
    decreases |blocks|
  {
    if i < |blocks| - 1 {
      var init := blocks[..|blocks| - 1];
      CacheBlocksLastWins(cache, init, i);
    }
  }

  /** A slot no block is stored in keeps what the cache held before. */
  lemma {:induction false} CacheBlocksUntouched(cache: map<string, map<string, Block>>, blocks: seq<Block>, t: string, name: string)
    requires forall j :: 0 <= j < |blocks| ==> !(Key(blocks[j].template) == t && blocks[j].name == name)
    ensures name in Entry(CacheBlocks(cache, blocks), t) <==> name in Entry(cache, t)
    ensures name in Entry(cache, t) ==> Entry(CacheBlocks(cache, blocks), t)[name] == Entry(cache, t)[name]
    decreases |blocks|
  {
    if blocks != [] {
      CacheBlocksUntouched(cache, blocks[..|blocks| - 1], t, name);
    }
  }

  /**
   * The range `validateBlock` slices: the cached block's lines, or, when the
   * parent's table or the block is missing, PHP's null, which the
   * subtractions read as 0.
   */
  function CachedRange(cache: map<string, map<string, Block>>, parent: string, block: Option<string>): LineRange {
    var entry := Entry(cache, parent);
    if Key(block) in entry then entry[Key(block)].lines else LineRange(0, 0)
  }

  /** The text `validateBlock` hashes: the block's lines of the parent source, joined, with no tag cut. */
  function VersionContent(cache: map<string, map<string, Block>>, source: string, parent: string, block: Option<string>): string {
    Join(BlockLines(source, CachedRange(cache, parent, block)))
  }

  /** A block missing from the parent's cached table is hashed as the empty text. */
  lemma {:induction false} MissingBlockIsEmpty(cache: map<string, map<string, Block>>, source: string, parent: string, block: Option<string>)
    requires Key(block) !in Entry(cache, parent)
    ensures VersionContent(cache, source, parent, block) == ""
  {
    assert BlockLines(source, LineRange(0, 0)) == [];
  }

  /**
   * A cached block inside the parent source is hashed as exactly its source
   * lines: `end - start` of them from 1-based line `start`, the tag lines
   * kept whole.
   */
  lemma {:induction false} VersionContentLines(cache: map<string, map<string, Block>>, source: string, parent: string, block: Option<string>)
    requires Key(block) in Entry(cache, parent)
    requires var range := Entry(cache, parent)[Key(block)].lines;
      1 <= range.start < range.end && range.end - 1 <= |Split(source)|
    ensures var range := Entry(cache, parent)[Key(block)].lines;
      Split(VersionContent(cache, source, parent, block)) == Split(source)[range.start - 1..range.end - 1]
  {
    var range := Entry(cache, parent)[Key(block)].lines;
    SliceInRange(source, range);
    SplitJoin(BlockLines(source, range));
  }

  /**
   * The validator's caches and its loader's directories per namespace,
   * with the node visitor it installs, the template store, the extension's
   * functions and `is_dir`.
   */
  class TwigBlockVersionValidator {
    var fileCache: map<string, string>
    var templateCache: set<string>
    var blockCache: map<string, map<string, Block>>
    var loaderPaths: PathMap
    const nodeVisitor: BlockNodeVisitor
    const store: Store
    const ext: Extension
    const isDir: string -> bool

    /** The constructor installs a fresh visitor with the given default version. */
    constructor (version: Option<string>, store: Store, ext: Extension, isDir: string -> bool)
      ensures fresh(nodeVisitor) && fresh(nodeVisitor.collection)
      ensures nodeVisitor.State() == EmptyState && nodeVisitor.GetDefaultVersion() == version
      ensures fileCache == map[] && templateCache == {} && blockCache == map[] && loaderPaths == EmptyPathMap
      ensures this.store == store && this.ext == ext && this.isDir == isDir
    {
      nodeVisitor := new BlockNodeVisitor(None, version, ext);
      fileCache := map[];
      templateCache := {};
      blockCache := map[];
      loaderPaths := EmptyPathMap;
      this.store := store;
      this.ext := ext;
      this.isDir := isDir;
    }

    /**
     * `addPaths`: the directories that exist are added to the namespace in
     * order, the rest skipped. The loader's own `is_dir` check is the same
     * predicate, so its `LoaderError` branch is never taken.
     */
    method AddPaths(paths: seq<string>, namespace: string)
      modifies this
      ensures loaderPaths == AddAll(old(loaderPaths), Pairs(namespace, paths), isDir)
      ensures fileCache == old(fileCache) && templateCache == old(templateCache) && blockCache == old(blockCache)
    {
      for j := 0 to |paths|
        invariant loaderPaths == AddAll(old(loaderPaths), Pairs(namespace, paths[..j]), isDir)
        invariant fileCache == old(fileCache) && templateCache == old(templateCache) && blockCache == old(blockCache)
      {
        PairsStep(namespace, paths, j);
        AddAllConcat(old(loaderPaths), Pairs(namespace, paths[..j]), [(namespace, paths[j])], isDir);
        if !isDir(paths[j]) {
          continue;
        }
        loaderPaths := Append(loaderPaths, namespace, paths[j]);
      }
      assert paths[..|paths|] == paths;
    }

    /** `updateBlockCache` over the blocks of a collection, in order. */
    method UpdateBlockCache(blocks: seq<Block>)
      modifies this
      ensures blockCache == CacheBlocks(old(blockCache), blocks)
      ensures fileCache == old(fileCache) && templateCache == old(templateCache) && loaderPaths == old(loaderPaths)
    {
      for i := 0 to |blocks|
        invariant blockCache == CacheBlocks(old(blockCache), blocks[..i])
        invariant fileCache == old(fileCache) && templateCache == old(templateCache) && loaderPaths == old(loaderPaths)
      {
        var block := blocks[i];
        assert blocks[..i + 1][..i] == blocks[..i];
        var t := Key(block.template);
        blockCache := blockCache[t := Entry(blockCache, t)[block.name := block]];
      }
      assert blocks[..|blocks|] == blocks;
    }

    /**
     * `validateBlock`: the parent template is loaded and its blocks cached
     * unless it already was; the block's raw lines in the parent source are
     * hashed and the verdict is taken as in the older validator. A null
     * parent reaches Twig's string parameter; a parent the store lacks is
     * a `LoaderError`.
     */
    method ValidateBlock(data: Comment, defaultVersion: string) returns (r: Result<Validated>)
      modifies this
      ensures data.parentTemplate.None? ==> r == Err(TypeError) && unchanged(this)
      ensures data.parentTemplate.Some? ==>
        var p := data.parentTemplate.value;
        && (p !in old(templateCache) && p !in store ==> r == Err(TemplateNotFound(p)) && unchanged(this))
        && (p !in old(templateCache) && p in store ==>
              templateCache == old(templateCache) + {p} && blockCache == CacheBlocks(old(blockCache), store[p].blocks))
        && (p in old(templateCache) ==> templateCache == old(templateCache) && blockCache == old(blockCache))
        && (p !in store ==> r == Err(TemplateNotFound(p)))
        && (p in store ==> r == Ok(Decide(data, ext.hash(VersionContent(blockCache, store[p].source, p, data.block)), defaultVersion, ext)))
      ensures fileCache == old(fileCache) && loaderPaths == old(loaderPaths)
    {
      if data.parentTemplate.None? {
        return Err(TypeError);
      }
      var parent := data.parentTemplate.value;
      if parent !in templateCache {
        if parent !in store {
          return Err(TemplateNotFound(parent));
        }
        templateCache := templateCache + {parent};
        UpdateBlockCache(store[parent].blocks);
      }
      if parent !in store {
        return Err(TemplateNotFound(parent));
      }
      var range := CachedRange(blockCache, parent, data.block);
      var sourceCode := Join(Slice(Split(store[parent].source), range.start - 1, range.end - range.start));
      var sourceHash := ext.hash(sourceCode);
      return Ok(Decide(data, sourceHash, defaultVersion, ext));
    }

    /**
     * `reset`: the three caches are emptied, the loader's main namespace
     * loses its directories, and the visitor gets a fresh collection.
     */
    method Reset()
      modifies this, nodeVisitor
      ensures fileCache == map[] && templateCache == {} && blockCache == map[]
      ensures loaderPaths == ClearNamespace(old(loaderPaths), MainNamespace)
      ensures fresh(nodeVisitor.collection) && nodeVisitor.State() == EmptyState
      ensures nodeVisitor.GetDefaultVersion() == old(nodeVisitor.GetDefaultVersion())
    {
      fileCache := map[];
      templateCache := {};
      blockCache := map[];
      loaderPaths := ClearNamespace(loaderPaths, MainNamespace);
      var _ := nodeVisitor.ResetCollection();
    }
  }
}
