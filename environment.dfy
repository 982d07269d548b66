/**
 * The validator's Twig environment: it loads a template once, files the
 * blocks the node visitor collected under a name-keyed map and the comments
 * under a list, both in caches keyed by a sanitised cache key, and answers
 * later block and comment queries from those caches only.
 */
module Environment {
  import opened Common
  import opened Namespaces

  /**
   * `array_combine(array_column($blocks, 'block'), $blocks)`: the blocks keyed
   * by name; on a repeated name the later block wins.
   */
  function BlockMap(blocks: seq<Block>): map<string, Block>
    decreases |blocks|
  {
    if blocks == [] then map[]
    else BlockMap(blocks[..|blocks| - 1])[blocks[|blocks| - 1].name := blocks[|blocks| - 1]]
  }

  /** The map holds exactly the names of the list, each mapped to a block of the list with that name. */
  lemma {:induction false} BlockMapNames(blocks: seq<Block>)
    ensures forall name :: name in BlockMap(blocks) <==> exists i :: 0 <= i < |blocks| && blocks[i].name == name
    ensures forall name :: name in BlockMap(blocks) ==> BlockMap(blocks)[name].name == name && BlockMap(blocks)[name] in blocks
    decreases |blocks|
  {
    if blocks != [] {
      var init := blocks[..|blocks| - 1];
      BlockMapNames(init);
      assert forall i :: 0 <= i < |init| ==> init[i] == blocks[i];
    }
  }

  /** The block a name maps to is the last block of that name. */
  lemma {:induction false} BlockMapLaterWins(blocks: seq<Block>, i: nat)
    requires i < |blocks|
    requires forall j :: i < j < |blocks| ==> blocks[j].name != blocks[i].name
    ensures blocks[i].name in BlockMap(blocks) && BlockMap(blocks)[blocks[i].name] == blocks[i]
    decreases |blocks|
  {
    if i < |blocks| - 1 {
      var init := blocks[..|blocks| - 1];
      BlockMapLaterWins(init, i);
    }
  }

  /** Symfony's `CacheItemInterface::RESERVED_CHARACTERS`. */
  const Reserved: string := "{}()/\\@:"

  predicate HasReserved(s: string) {
    exists i :: 0 <= i < |s| && s[i] in Reserved
  }

  /** `preg_replace('{[<reserved>]}', '_', s)`: replaces each reserved character by `_`. */
  function Sanitize(s: string): (r: string)
    ensures |r| == |s|
    ensures forall i :: 0 <= i < |s| ==> r[i] == (if s[i] in Reserved then '_' else s[i])
    ensures !HasReserved(r)
    decreases |s|
  {
    if s == [] then ""
    else [if s[0] in Reserved then '_' else s[0]] + Sanitize(s[1..])
  }

  /** `getCacheKey`: `prefix:loaderKey`, sanitised when it holds a reserved character. */
  function CacheKey(prefix: string, loaderKey: string): string {
    var name := prefix + ":" + loaderKey;
    if HasReserved(name) then Sanitize(name) else name
  }

  /** Sanitising leaves a text without reserved characters as it is. */
  lemma {:induction false} SanitizeIdentity(s: string)
    requires !HasReserved(s)
    ensures Sanitize(s) == s
  {
    var r := Sanitize(s);
    forall i | 0 <= i < |s| ensures r[i] == s[i] {
      assert s[i] !in Reserved;
    }
  }

  /** Sanitising distributes over concatenation. */
  lemma {:induction false} SanitizeConcat(a: string, b: string)
    ensures Sanitize(a + b) == Sanitize(a) + Sanitize(b)
  {
    var l, r := Sanitize(a + b), Sanitize(a) + Sanitize(b);
    forall i | 0 <= i < |a + b| ensures l[i] == r[i] {
      if i < |a| { assert (a + b)[i] == a[i]; } else { assert (a + b)[i] == b[i - |a|]; }
    }
  }

  /**
   * The `:` separator is itself reserved, so the sanitising branch is always
   * taken: the key is the sanitised prefix, `_`, and the sanitised loader key.
   */
  lemma CacheKeyShape(prefix: string, loaderKey: string)
    ensures HasReserved(prefix + ":" + loaderKey)
    ensures CacheKey(prefix, loaderKey) == Sanitize(prefix) + "_" + Sanitize(loaderKey)
    ensures |CacheKey(prefix, loaderKey)| == |prefix| + 1 + |loaderKey|
    ensures !HasReserved(CacheKey(prefix, loaderKey))
  {
    var name := prefix + ":" + loaderKey;
    assert name[|prefix|] == ':';
    SanitizeConcat(prefix + ":", loaderKey);
    SanitizeConcat(prefix, ":");
  }

  /** Sanitising is not injective: two loader keys can share one cache entry. */
  lemma CacheKeyCollision(prefix: string, a: string, b: string)
    ensures CacheKey(prefix, a + "/" + b) == CacheKey(prefix, a + "_" + b)
  {
    CacheKeyShape(prefix, a + "/" + b);
    CacheKeyShape(prefix, a + "_" + b);
    SanitizeConcat(a + "/", b);
    SanitizeConcat(a, "/");
    SanitizeConcat(a + "_", b);
    SanitizeConcat(a, "_");
    assert Sanitize("/") == "_" by { assert "/"[0] in Reserved; }
    assert Sanitize("_") == "_";
  }

  /**
   * The environment's two caches and its filesystem loader's directories per
   * namespace. `loaderKey` is the loader's own cache key for a template name
   * (`None` where the loader throws `LoaderError`), `isDir` is `is_dir`.
   */
  /**
   * A cache write that `load` makes only where the key is still missing:
   * an entry already there survives, and every other entry is kept.
   */
  function FileOnce<T>(cache: map<string, T>, key: string, value: T): (r: map<string, T>)
    ensures key in r && r[key] == (if key in cache then cache[key] else value)
    ensures forall k | k in cache :: k in r && r[k] == cache[k]
    ensures forall k | k in r :: k in cache || k == key
  {
    if key in cache then cache else cache[key := value]
  }

  class BlockValidatorEnvironment {
    var blockCache: map<string, map<string, Block>>
    var commentCache: map<string, seq<Comment>>
    var paths: PathMap
    const loaderKey: string -> Option<string>
    const isDir: string -> bool

    constructor (loaderKey: string -> Option<string>, isDir: string -> bool)
      ensures blockCache == map[] && commentCache == map[] && paths == EmptyPathMap
      ensures this.loaderKey == loaderKey && this.isDir == isDir
      ensures BlocksByName()
    {
      blockCache := map[];
      commentCache := map[];
      paths := EmptyPathMap;
      this.loaderKey := loaderKey;
      this.isDir := isDir;
    }

    /** Every cached block map files each block under its own name. */
    predicate BlocksByName()
      reads this
    {
      forall key, name | key in blockCache && name in blockCache[key] :: blockCache[key][name].name == name
    }

    /**
     * `addPath`: the loader appends a directory to its namespace and rejects
     * a missing one; the rejection is re-raised naming path and namespace.
     */
    method AddPath(path: string, namespace: string) returns (err: Option<Error>)
      modifies this
      ensures isDir(path) ==> err.None? && paths == Append(old(paths), namespace, path)
      ensures !isDir(path) ==> err == Some(DirectoryNotFound(path, namespace)) && paths == old(paths)
      ensures blockCache == old(blockCache) && commentCache == old(commentCache)
    {
      if !isDir(path) {
        return Some(DirectoryNotFound(path, namespace));
      }
      paths := Append(paths, namespace, path);
      return None;
    }

    /**
     * `reset`, as far as this environment's state goes: the loader's main
     * namespace loses its directories; the block and comment caches, kept in
     * the Symfony cache, survive.
     */
    method Reset()
      modifies this
      ensures paths == ClearNamespace(old(paths), MainNamespace)
      ensures blockCache == old(blockCache) && commentCache == old(commentCache)
    {
      paths := ClearNamespace(paths, MainNamespace);
    }

    /**
     * `load`: a non-string name is rejected, a name the store does not hold is
     * Twig's `LoaderError`; otherwise each cache is filled from what the
     * visitor collected, only where its key is still missing.
     */
    method Load(name: Option<string>, store: Store) returns (err: Option<Error>)
      modifies this
      ensures name.None? ==> err == Some(NonStringName) && unchanged(this)
      ensures name.Some? && name.value !in store ==> err == Some(TemplateNotFound(name.value)) && unchanged(this)
      ensures name.Some? && name.value in store && loaderKey(name.value).None? ==>
        err == Some(TemplateNotFound(name.value)) && unchanged(this)
      ensures name.Some? && name.value in store && loaderKey(name.value).Some? ==>
        var t, lk := store[name.value], loaderKey(name.value).value;
        var bk, ck := CacheKey("blocks", lk), CacheKey("comments", lk);
        && err.None? && paths == old(paths)
        && blockCache == FileOnce(old(blockCache), bk, BlockMap(t.blocks))
        && commentCache == FileOnce(old(commentCache), ck, t.comments)
      ensures old(BlocksByName()) ==> BlocksByName()
    {
      if name.None? {
        return Some(NonStringName);
      }
      var n := name.value;
      if n !in store {
        return Some(TemplateNotFound(n));
      }
      var collected := store[n];
      var lk := loaderKey(n);
      if lk.None? {
        return Some(TemplateNotFound(n));
      }
      var bk := CacheKey("blocks", lk.value);
      BlockMapNames(collected.blocks);
      if bk !in blockCache {
        blockCache := blockCache[bk := BlockMap(collected.blocks)];
      }
      var ck := CacheKey("comments", lk.value);
      if ck !in commentCache {
        commentCache := commentCache[ck := collected.comments];
      }
      return None;
    }

    /** What `getBlocks` answers: the cached name-keyed map, or `RuntimeError` on a cache miss. */
    function CachedBlocks(name: string): (r: Result<map<string, Block>>)
      reads this
      ensures loaderKey(name).None? ==> r == Err(TemplateNotFound(name))
      ensures loaderKey(name).Some? ==>
        var key := CacheKey("blocks", loaderKey(name).value);
        if key in blockCache then r == Ok(blockCache[key]) else r == Err(NotCached(name))
    {
      match loaderKey(name)
      case None => Err(TemplateNotFound(name))
      case Some(lk) =>
        var key := CacheKey("blocks", lk);
        if key in blockCache then Ok(blockCache[key]) else Err(NotCached(name))
    }

    /** `getBlocks`. */
    method GetBlocks(name: string) returns (r: Result<map<string, Block>>)
      ensures r == CachedBlocks(name)
    {
      var lk := loaderKey(name);
      if lk.None? {
        return Err(TemplateNotFound(name));
      }
      var key := CacheKey("blocks", lk.value);
      if key !in blockCache {
        return Err(NotCached(name));
      }
      return Ok(blockCache[key]);
    }

    /** `getComments`: the cached comment list, or `RuntimeError` on a cache miss. */
    method GetComments(name: string) returns (r: Result<seq<Comment>>)
      ensures loaderKey(name).None? ==> r == Err(TemplateNotFound(name))
      ensures loaderKey(name).Some? ==>
        var key := CacheKey("comments", loaderKey(name).value);
        if key in commentCache then r == Ok(commentCache[key]) else r == Err(NotCached(name))
    {
      var lk := loaderKey(name);
      if lk.None? {
        return Err(TemplateNotFound(name));
      }
      var key := CacheKey("comments", lk.value);
      if key !in commentCache {
        return Err(NotCached(name));
      }
      return Ok(commentCache[key]);
    }

    /** `render` always throws `LogicException`. */
    method Render(name: string) returns (err: Error)
      ensures err == RenderUnsupported
    {
      err := RenderUnsupported;
    }
  }

  /** Loading a template and then asking for its blocks hits the cache. */
  method LoadThenGetBlocks(env: BlockValidatorEnvironment, name: string, store: Store) returns (r: Result<map<string, Block>>)
    requires name in store && env.loaderKey(name).Some?
    modifies env
    ensures r.Ok?
    ensures CacheKey("blocks", env.loaderKey(name).value) !in old(env.blockCache) ==> r == Ok(BlockMap(store[name].blocks))
  {
    var err := env.Load(Some(name), store);
    r := env.GetBlocks(name);
  }
}
