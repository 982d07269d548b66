# twig-block-validator, modelled in Dafny

twig-block-validator checks that Twig templates which override a block still
match the block they override. It also annotates the templates with that
block's fingerprint.

Each overriding block carries a comment holding a hash and a version. The
hash is of the block's text in the top-most ancestor template that declares
it. When Twig compiles a template, a node visitor records each block and each
comment into a collection:

- a block's name, its line range, its template and parent template, and a level;
- a comment, with the hash and version parsed out of it, attached to the block
  on top of the block stack.

The environment files these records in caches. From there:

- the resolver walks `parent_template` links to the block's top-most ancestor,
  cuts the ancestor's text out between its tags, and hashes it;
- the annotator writes comment lines into the templates;
- the validators compare the claimed hash and version with the computed ones.

The model covers these parts:

- **Text** (`text.dfy`): the PHP primitives the engine depends on, with PHP's
  edge-case behaviour: `explode("\n")`, `implode("\n")`, `substr`,
  `array_slice`, `array_splice` and the `^\s*` indentation match.
- **TagMatch** (`tag_match.dfy`): a concrete matcher for the `block` and
  `endblock` tag patterns. It returns the leftmost match offset.
- **Resolver** (`resolver.dfy`): `resolveBlock`, the ancestor walk with its
  cycle check, `getBlockContent`'s slice-and-cut, and `getSourceHash`.
- **Annotator** (`annotator.dfy`): the offset ledger, and `annotateBlock`'s
  insert or replace of one line. Also `processBlock`, and the `annotate` loop
  that collects Twig errors and carries on.
- **Collections** (`collections.dfy`): the block stack, and the two revisions
  of the comment collection.
- **NodeVisitor** (`node_visitor.dfy`): the enter/leave event machine over a
  syntax tree, and its collection and default version.
- **Environment** (`environment.dfy`):
  - the name-keyed block map;
  - cache-key sanitising;
  - the loader's directories;
  - `load`, `getBlocks`, `getComments` and `reset`.
- **Pathname** (`pathname.dfy`) and **Namespaces** (`namespaces.dfy`):
  namespaced template names, and the `@namespace:path` option parser.
- **Validator** (`validator.dfy`): the older validator:
  - `validateComment`;
  - its own `resolveParentBlock` and `getBlockContent`;
  - `registerPaths`;
  - `loadPaths`, with the Symfony Finder's failures;
  - `validate`.
- **VersionValidator** (`version_validator.dfy`): the newer validator's caches,
  `addPaths`, `validateBlock` and `reset`.

External code becomes a parameter:

- **Functions as values.** `BlockValidatorExtension::hash`, `formatComment`
  and `matchComment`, and `Semver::satisfies`, are function-valued fields of
  `Extension`. The same goes for the loader's cache key, `parseName` and
  `is_dir`.
- **Templates.** Twig's compilation output is a `Store`. It maps a template
  name to the blocks and comments the visitor collected for that template, and
  to the template's source text.
- **Null arguments.** PHP's nullable fields are `Option`s. Under
  `strict_types`, passing `null` to a `string` parameter is the error
  `TypeError`.

The model keeps the source's behaviour even where that behaviour looks
unintended:

- **One-line blocks.** When a block's start and end tags are on one line, both
  cuts apply to that line. The second cut's offset is taken on the uncut line,
  so only the end tag is left and the body is dropped. This is shown for a
  one-character body other than `{` and a line feed (`OneLineBodyDropped`).
- **The replace path.** When a comment already exists, `annotateBlock`
  overwrites the element at the block's own adjusted start index. That is the
  block's start line, not the comment line above it (`ReplaceLands`).
- **Nested blocks in `annotate`.** Blocks are recorded as they close, so a
  nested block comes before the block around it. Its inserted comment raises
  the ledger first, and the outer block's comment then lands one line below
  the outer start tag instead of above it (`NestedOrderMisplaces`). In
  ascending line order every comment lands directly above its block
  (`RunInsertsAll`).
- **Integer namespace keys.** `$paths[$namespace][] = $path` stores a
  namespace such as `1` (from an entry `@1:dir`) under the int key `1`.
  `registerPaths` then hands that int to `addPath`'s `string` parameter,
  and under strict types the `TypeError` is not caught, so `validate` stops
  (`IntegerKeyExamples`, `FirstRejected`).
- **`peekLines` before the first push.** It calls `count(null)`, which is a
  `TypeError` in PHP 8. So a comment ahead of every block aborts the
  compilation (`CommentBeforeFirstBlockFails`).
- **Cache-key collisions.** Sanitising maps every reserved character to `_`,
  so two loader keys can share one cache entry (`CacheKeyCollision`).
- **The older `validate` on error.** It does not restore the visitor's
  default version when an error escapes.
- **Missing scope directories.** `registerPaths` catches a missing directory
  and lists it as a loader error, but `loadPaths` then hands the same
  directory to `Finder::in`, which throws. So a run with a missing scope
  directory always ends with the Finder's exception, after the default
  version was swapped (`LoadPaths`, `FinderFailure`).
- **The older `resolveParentBlock`.** Its loop body runs at most once.
- **`validateBlock`.** A block missing from the parent template's table is
  hashed as the empty text (`MissingBlockIsEmpty`). The tag lines are hashed
  whole, with no cut.

`TwigBlockVersionValidator::buildNamespacedPathname`
(src/Service/TwigBlockVersionValidator.php:205-208) has the same body as
`NamespacedPathnameBuilder::buildNamespacedPathname`, and is modelled by the
one function `Pathname.BuildNamespacedPathname`.

## Model

| member | source | states |
|---|---|---|
| Text.Split | src/Service/TwigBlockResolver.php:155 | `explode("\n")` never returns an empty list, and no piece holds a line feed |
| Text.JoinSplit | src/Service/TwigBlockResolver.php:155-192 | imploding the pieces of an explode gives the text back |
| Text.SplitJoin | src/Annotator/TwigBlockAnnotator.php:225-265 | exploding an implode of line-feed-free lines gives the lines back |
| Text.SplitLine | src/Service/TwigBlockResolver.php:155 | a text without a line feed explodes to itself alone |
| Text.SplitCons | src/Service/TwigBlockResolver.php:155 | a line feed after a line-feed-free prefix starts a new piece |
| Text.SubstrFrom | src/Service/TwigBlockResolver.php:187-189 | `substr(s, o)` is the suffix from `o`, or empty past the end |
| Text.ClampOffset | src/Service/TwigBlockResolver.php:155 | the start offset `array_slice`/`array_splice` use never passes the end, and is `o` itself when in range |
| Text.Slice | src/Service/TwigBlockResolver.php:155 | `array_slice` of an in-range window is exactly that window; the result is never longer than the input |
| Text.Splice | src/Annotator/TwigBlockAnnotator.php:262 | `array_splice` with length 0 inserts at the index; with length 1 it replaces that element; the new length follows |
| Text.LeadingWhitespace | src/Annotator/TwigBlockAnnotator.php:244-248 | the `^\s*` match is a prefix of the line made only of whitespace, and the maximal one |
| TagMatch.SkipSpaceMaximal | src/Service/TwigBlockResolver.php:174-180 | a `\s*` run is taken whole: every character skipped is whitespace, and the next one is not |
| TagMatch.LeftmostSpec | src/Service/TwigBlockResolver.php:175-181 | `preg_match`'s scan: the predicate holds at the offset found and at no earlier one in range; with none found it holds nowhere in range |
| TagMatch.StartTagLeftmost | src/Service/TwigBlockResolver.php:174-177 | the start tag matches at the returned offset and at no earlier one; with no result it matches nowhere |
| TagMatch.EndTagLeftmost | src/Service/TwigBlockResolver.php:180-183 | the end tag matches at the returned offset and at no earlier one; with no result it matches nowhere |
| TagMatch.NoTagInEmptyLine | src/Service/TwigBlockResolver.php:174-183 | neither tag matches an empty line |
| TagMatch.StartTagExample | src/Service/TwigBlockResolver.php:174-177 | `{% block a %}` at the head of a line matches at offset 0 |
| TagMatch.EndTagExample | src/Service/TwigBlockResolver.php:180-183 | `{% endblock %}` after one character matches at offset 1 |
| Resolver.ResolveBlock | src/Service/TwigBlockResolver.php:58-65 | a missing template is a loader error; otherwise the result is a block of that name from the template's table, present exactly when the template declares the name |
| Resolver.ResolveParentBlock | src/Service/TwigBlockResolver.php:76-101 | the do-while loop computes the walk `Walk` from the starting template with an empty visited list |
| Resolver.WalkSound | src/Service/TwigBlockResolver.php:78-100 | the walk's result is where the parent chain ends: a block naming no other parent, or a template that does not re-declare the block (never a grandparent); a missing template lies on the chain; that a recursion error comes only from a real cycle is `RecursionIffCycle` |
| Resolver.WalkStopsAtRoot | src/Service/TwigBlockResolver.php:82-89 | a block with no parent, or whose parent is its own template, is itself the result |
| Resolver.CycleExample | src/Service/TwigBlockResolver.php:78-97 | for `A -> B -> A` the recursion error comes when `B` is met a second time, with visited list `B, A` |
| Resolver.FollowLast | src/Service/TwigBlockResolver.php:91 | one more link is the parent of the template the chain reached, or nothing once it stopped |
| Resolver.FollowAdd | src/Service/TwigBlockResolver.php:78-97 | following `a + b` links is following `a`, then `b` more from there; a chain stopped at `a` stays stopped |
| Resolver.CycleNeverEnds | src/Service/TwigBlockResolver.php:78-97 | a chain that returns to its start never ends |
| Resolver.WalkRecursionIsCycle | src/Service/TwigBlockResolver.php:78-97 | with the visited list at exact distances behind the template, a recursion error means the parent chain never ends |
| Resolver.RecursionIffCycle | src/Service/TwigBlockResolver.php:76-101 | `resolveParentBlock` reports a recursion exactly when the parent chain from the start template never ends |
| Resolver.FollowShift | src/Service/TwigBlockResolver.php:91 | one parent link shifts the chain by one step |
| Resolver.CutLines | src/Service/TwigBlockResolver.php:158-189 | the first line is cut at the start-tag offset and the last at the end-tag offset; a one-line block gets both cuts in turn; interior lines are unchanged; the count is unchanged |
| Resolver.CutContentErrors | src/Service/TwigBlockResolver.php:174-183 | for a range inside the source, content is found exactly when both tags match; a missing start tag or end tag is a syntax error naming the line |
| Resolver.CutContentLines | src/Service/TwigBlockResolver.php:144-192 | with the start tag matched at `first` on the first line and the end tag at `last` on the last, content is found and splits back into exactly `end - start` lines from line `start`, the first cut at `first` and the last at `last` |
| Resolver.SliceInRange | src/Service/TwigBlockResolver.php:144-155 | inside the source, the block's lines are `end - start` source lines from 1-based line `start`, copied verbatim |
| Resolver.CutContentTags | src/Service/TwigBlockResolver.php:174-183 | found content needs a start tag on the first line and an end tag on the last |
| Resolver.CutContentIsJoin | src/Service/TwigBlockResolver.php:185-192 | with both tags matched, the content is the `"\n"`-join of the cut lines |
| Resolver.GetBlockContent | src/Service/TwigBlockResolver.php:137-193 | the block's own template is sliced and cut; a null template is a type error; a missing template is a loader error |
| Resolver.SourceHashOfTop | src/Service/TwigBlockResolver.php:110-126 | no hash when the walk fails or finds no block; otherwise the hash of the content of the block where the parent chain ends, and content errors propagate; a hash is always that of some chain end's content |
| Resolver.SourceHashErrors | src/Service/TwigBlockResolver.php:114-118 | a recursion error never escapes `getSourceHash` |
| Resolver.OneLineBodyDropped | src/Service/TwigBlockResolver.php:158-189 | a one-line block `{% block a %}c{% endblock %}` yields just `{% endblock %}`, for any one-character body `c` other than `{` and a line feed |
| Resolver.OneLineEndTag | src/Service/TwigBlockResolver.php:180-183 | on the one-line block the end tag's leftmost match is at offset 14 |
| Annotator.Offset | src/Annotator/TwigBlockAnnotator.php:74-78 | a template never offset has offset 0; otherwise its recorded offset |
| Annotator.CommentLine | src/Annotator/TwigBlockAnnotator.php:240-255 | the written comment line starts with the block line's indentation |
| Annotator.AnnotateBlockStep | src/Annotator/TwigBlockAnnotator.php:201-271 | without a hash nothing changes; otherwise it succeeds exactly when the adjusted start index is a line of the text, only the block's file changes, and the ledger rises by one exactly when `created`; other files and offsets stay; the only error is a type error |
| Annotator.AnnotateBlockLands | src/Annotator/TwigBlockAnnotator.php:225-265 | the written text is the template's lines with the comment, indented like the line at the adjusted start index, inserted there when `created` and put in place of that line otherwise |
| Annotator.InsertLands | src/Annotator/TwigBlockAnnotator.php:257-265 | an insert grows the file by one line, puts the comment at the adjusted start index, and keeps every other line in order |
| Annotator.ReplaceLands | src/Annotator/TwigBlockAnnotator.php:257-265 | a replace keeps the line count and changes only the element at the adjusted start index |
| Annotator.InsertAllInterleaves | src/Annotator/TwigBlockAnnotator.php:226-262 | after inserts in ascending block order, driven by the ledger, every comment sits directly above its block's original start line |
| Annotator.InsertAllShifted | src/Annotator/TwigBlockAnnotator.php:226-262 | the generalisation of the above to a processed prefix and a running offset |
| Annotator.InsertStep | src/Annotator/TwigBlockAnnotator.php:262 | one insert of the fold, stated on the processed prefix |
| Annotator.SpliceAfter | src/Annotator/TwigBlockAnnotator.php:262 | an insert past an untouched prefix leaves the prefix alone |
| Annotator.ProcessBlockStep | src/Annotator/TwigBlockAnnotator.php:164-193 | a block with no parent gets no hash and the default version and nothing is written; a null template is a type error; otherwise the hash is `getSourceHash`'s for the block's template, its errors escape, no hash writes nothing, and with a hash the new state is `AnnotateBlockStep` on the template's current text with `created` exactly "no grouped comment"; files of other templates are untouched |
| Annotator.InsertedStep | src/Annotator/TwigBlockAnnotator.php:164-265 | a block with a parent, a hash and no grouped comment processes without error, inserts its comment at the adjusted start index, and raises the ledger by one |
| Annotator.RunInserts | src/Annotator/TwigBlockAnnotator.php:131-140 | a run of inserting blocks in ascending line order, behind a processed prefix with the ledger at its comment count, collects no error and leaves each comment directly above its block's original start line |
| Annotator.RunInsertsAll | src/Annotator/TwigBlockAnnotator.php:119-141 | from an empty ledger, the loop over inserting blocks of one template in ascending line order writes exactly the repeated inserts `InsertAll` describes, which put each comment directly above its block's original start line |
| Annotator.NestedOrderMisplaces | src/Annotator/TwigBlockAnnotator.php:226-262 | a fact about the ledger's insert fold `InsertAll` alone: with the nested block (line 3) inserted before the outer one (line 1), the outer comment lands below the outer start tag |
| Annotator.GroupLastWins | src/Annotator/TwigBlockAnnotator.php:119-122 | a `(template, block)` pair has a grouped comment exactly when some comment is filed under it, and that comment is the last one |
| Annotator.AnnotateRunOkStep | src/Annotator/TwigBlockAnnotator.php:131-140 | a block that processes without error adds nothing to the run but its new state |
| Annotator.AnnotateRunUnfold | src/Annotator/TwigBlockAnnotator.php:131-140 | the loop processes the first block, then the rest from the state it leaves |
| Annotator.RemainingStep | src/Annotator/TwigBlockAnnotator.php:131-140 | processing the next block keeps the remaining run in step with the whole run |
| Annotator.AnnotateRunErrors | src/Annotator/TwigBlockAnnotator.php:131-140 | every collected error is a Twig error, at most one per block; the error that ends a run is not one |
| Annotator.RootBlocksWriteNothing | src/Annotator/TwigBlockAnnotator.php:171-178 | blocks that name no parent change no file and no offset and raise no error |
| Annotator.TwigBlockAnnotator.GetOffset | src/Annotator/TwigBlockAnnotator.php:74-78 | the ledger's offset, 0 for a template never offset |
| Annotator.TwigBlockAnnotator.HasOffset | src/Annotator/TwigBlockAnnotator.php:80-83 | true exactly when the recorded offset is 0 |
| Annotator.TwigBlockAnnotator.AddOffset | src/Annotator/TwigBlockAnnotator.php:85-92 | only the template's entry changes, by the amount |
| Annotator.TwigBlockAnnotator.Reset | src/Annotator/TwigBlockAnnotator.php:289-293 | the ledger is emptied and the files stay |
| Annotator.TwigBlockAnnotator.AnnotateBlock | src/Annotator/TwigBlockAnnotator.php:201-271 | the object's ledger and files end as `AnnotateBlockStep` says, and its error is that step's; the written text is the one `AnnotateBlockLands` states |
| Annotator.TwigBlockAnnotator.ProcessBlock | src/Annotator/TwigBlockAnnotator.php:164-193 | the enrichment and the new state are `ProcessBlockStep`'s: the hash is `getSourceHash`'s and the files are written by `AnnotateBlockStep` |
| Annotator.TwigBlockAnnotator.Annotate | src/Annotator/TwigBlockAnnotator.php:119-141 | the final state, the collected errors and the fatal error are those of the run over the grouped comments |
| Collections.PeekName | src/Twig/Node/TwigBlockStackTrait.php:56-59 | null exactly on an empty stack, otherwise the top name |
| Collections.PeekLines | src/Twig/Node/TwigBlockStackTrait.php:64-67 | a type error exactly before the first push; null exactly on an empty stack; otherwise the last range pushed |
| Collections.Pushed | src/Twig/Node/TwigBlockStackTrait.php:69-73 | the name and range go on top, both peeks return exactly them, the entries below stay, and the stack stays valid |
| Collections.Popped | src/Twig/Node/TwigBlockStackTrait.php:75-90 | the top name and range come off; exactly one record is appended, with them, the current template and parent, and as level the number of records before it |
| Collections.PopAfterPush | src/Twig/Node/TwigBlockStackTrait.php:69-90 | a pop after a push restores the stack and emits the pushed block |
| Collections.BlockStack.PushBlockStack | src/Twig/Node/TwigBlockStackTrait.php:69-73 | the fields become `Pushed` of the old ones |
| Collections.BlockStack.PopBlockStack | src/Twig/Node/TwigBlockStackTrait.php:75-90 | requires an open block, as its assertions do; the fields become `Popped` of the old ones |
| Collections.CollectedComment | src/Twig/Node/CommentCollectionTrait.php:47-87 | a rejected comment is kept with a null hash; an accepted one takes the parsed hash; the version is the parsed one or else the default; block and range are the stack top; the raw text is kept; the only error is `peekLines`' |
| Collections.ShopwareComment | src/Twig/Node/ShopwareBlockCollectionTrait.php:47-73 | a rejected comment gives no record; an accepted one gives a record with the parsed hash, the version or else the default, and the stack top |
| Collections.CommentCollection.AddComment | src/Twig/Node/CommentCollectionTrait.php:47-71 | exactly one record is appended unless `peekLines` throws |
| Collections.ShopwareBlockCollection.AddComment | src/Twig/Node/ShopwareBlockCollectionTrait.php:47-73 | a rejected comment leaves the list unchanged; an accepted one appends one record |
| NodeVisitor.Enter | src/Twig/NodeVisitor/BlockNodeVisitor.php:55-95 | a module sets the template, and the parent only when it is a constant; a block is pushed; a hidden comment reaches `addComment` with the default version; anything else changes nothing |
| NodeVisitor.Leave | src/Twig/NodeVisitor/BlockNodeVisitor.php:97-109 | a module clears template and parent; a block is popped; anything else changes nothing |
| NodeVisitor.Visit | src/Twig/NodeVisitor/BlockNodeVisitor.php:55-109 | a walk of a tree keeps the open blocks, only appends records and comments, and leaves a block node's own record last, after its nested ones; leaving a module clears the template |
| NodeVisitor.VisitAll | src/Twig/NodeVisitor/BlockNodeVisitor.php:55-109 | the same over a list of siblings |
| NodeVisitor.ExtendsTrans | src/Twig/NodeVisitor/BlockNodeVisitor.php:55-109 | "only appends, keeps the open blocks" composes |
| NodeVisitor.CommentBeforeFirstBlockFails | src/Twig/NodeVisitor/BlockNodeVisitor.php:88-92 | an accepted comment ahead of every block aborts the walk with a type error |
| NodeVisitor.VisitAllPrefixErr | src/Twig/NodeVisitor/BlockNodeVisitor.php:55-109 | a failure on some first children is a failure of the whole list |
| NodeVisitor.BlockNodeVisitor.constructor | src/Twig/NodeVisitor/BlockNodeVisitor.php:50-53 | a missing collection is replaced by a fresh empty one |
| NodeVisitor.BlockNodeVisitor.EnterNode | src/Twig/NodeVisitor/BlockNodeVisitor.php:55-95 | returns its node; the collection becomes `Enter`'s result, or the error escapes |
| NodeVisitor.BlockNodeVisitor.LeaveNode | src/Twig/NodeVisitor/BlockNodeVisitor.php:97-109 | returns its node; the collection becomes `Leave`'s result |
| NodeVisitor.BlockNodeVisitor.Traverse | src/Twig/NodeVisitor/BlockNodeVisitor.php:55-109 | the collection ends as `Visit` says |
| NodeVisitor.BlockNodeVisitor.ResetCollection | src/Twig/NodeVisitor/BlockNodeVisitor.php:129-134 | returns the previous collection and installs a fresh empty one |
| NodeVisitor.BlockNodeVisitor.SetDefaultVersion | src/Twig/NodeVisitor/BlockNodeVisitor.php:136-144 | the getter then returns the value set |
| Environment.BlockMapNames | src/Twig/BlockValidatorEnvironment.php:169-172 | the map is keyed by block name, holds exactly the names of the list, and each value is a block of the list with that name |
| Environment.BlockMapLaterWins | src/Twig/BlockValidatorEnvironment.php:169-172 | on a repeated name the later block wins |
| Environment.FileOnce | src/Twig/BlockValidatorEnvironment.php:164-182 | the key ends up cached, with its earlier entry when it had one and with the new value otherwise; every other entry is kept and no other key appears |
| Environment.Sanitize | src/Twig/BlockValidatorEnvironment.php:198-200 | each reserved character becomes `_`, the others stay, the length is kept, and no reserved character remains |
| Environment.SanitizeIdentity | src/Twig/BlockValidatorEnvironment.php:198 | a text with no reserved character is unchanged |
| Environment.CacheKeyShape | src/Twig/BlockValidatorEnvironment.php:192-200 | the key is the sanitised prefix, `_`, and the sanitised loader key, with no reserved character left |
| Environment.CacheKeyCollision | src/Twig/BlockValidatorEnvironment.php:192-200 | for every prefix and every `a`, `b`, the loader keys `a/b` and `a_b` share one cache key (sanitising is not injective) |
| Environment.BlockValidatorEnvironment.AddPath | src/Twig/BlockValidatorEnvironment.php:123-135 | an existing directory is appended to its namespace; a missing one is a loader error naming path and namespace, and nothing changes |
| Environment.BlockValidatorEnvironment.Reset | src/Twig/BlockValidatorEnvironment.php:284-293 | the main namespace loses its directories; the caches stay |
| Environment.BlockValidatorEnvironment.Load | src/Twig/BlockValidatorEnvironment.php:152-186 | a non-string name is rejected and an unknown template is a loader error, both changing nothing; otherwise each cache gets the template's entry only where its key is missing (`FileOnce`), and cached block maps stay keyed by block name (`BlocksByName`) |
| Environment.BlockValidatorEnvironment.CachedBlocks | src/Twig/BlockValidatorEnvironment.php:219-229 | the cached block map, a runtime error on a cache miss, a loader error for an unknown template |
| Environment.BlockValidatorEnvironment.GetBlocks | src/Twig/BlockValidatorEnvironment.php:219-229 | answers `CachedBlocks` |
| Environment.BlockValidatorEnvironment.GetComments | src/Twig/BlockValidatorEnvironment.php:246-257 | the cached comments, a runtime error on a cache miss |
| Environment.BlockValidatorEnvironment.Render | src/Twig/BlockValidatorEnvironment.php:106-109 | always fails |
| Environment.LoadThenGetBlocks | src/Twig/BlockValidatorEnvironment.php:152-229 | after a load, `getBlocks` hits the cache, and on a first load it returns the template's name-keyed block map |
| Pathname.BuildNamespacedPathname | src/Service/NamespacedPathnameBuilder.php:51-54 | the result is `@`, the namespace, `/`, the relative pathname: it starts with `@`, ends with the relative pathname, and has length `|ns| + |rel| + 2` |
| Pathname.BuildThenSplit | src/Service/NamespacedPathnameBuilder.php:51-54 | with no `/` in the namespace, reading the name back gives namespace and relative pathname |
| Pathname.IndexOf | src/Command/ConsoleCommandTrait.php:66 | the leftmost position of a character, or none when it is absent |
| Pathname.ParseNamespacedPathname | src/Service/NamespacedPathnameBuilder.php:63-70 | succeeds exactly when the loader's parse does, with its result; a failure names the pathname and the default namespace |
| Namespaces.Append | src/Command/ConsoleCommandTrait.php:80 | the directory goes at the end of its namespace's list, a new namespace at the end of the key order; nothing else changes |
| Namespaces.ClearNamespace | src/Twig/BlockValidatorEnvironment.php:288-289 | the namespace's list becomes empty; the others stay |
| Namespaces.SplitColon | src/Command/ConsoleCommandTrait.php:66 | the two segments hold no `:` |
| Namespaces.ParseEntry | src/Command/ConsoleCommandTrait.php:61-69 | an entry without `:` is a directory of the main namespace |
| Namespaces.IntegerKeyExamples | src/Command/ConsoleCommandTrait.php:80 | PHP keeps a namespace starting with neither a digit nor `-` (the main namespace among them) as a string key, but turns `1`, `-7` and `0` into int keys; `01`, `-0` and the empty text stay strings |
| Namespaces.ParseEntryRoundTrip | src/Command/ConsoleCommandTrait.php:61-66 | `@ns:path` and `ns:path`, with any further `:`-segments, read back as `ns` and `path`; one leading `@` is dropped |
| Namespaces.SplitColonRoundTrip | src/Command/ConsoleCommandTrait.php:66 | only the first two `:`-segments are used |
| Namespaces.Accepted | src/Command/ConsoleCommandTrait.php:72-80 | every accepted directory exists, and there are at most as many as entries |
| Namespaces.Resolve | src/Command/ConsoleCommandTrait.php:55-84 | the map is well formed and holds, for each namespace, exactly its accepted directories in entry order, duplicates kept |
| Namespaces.ResolveNamespaces | src/Command/ConsoleCommandTrait.php:55-84 | the loop builds `Resolve` of the entries |
| Namespaces.SkippedEntry | src/Command/ShopwareTwigBlockValidateCommand.php:114-120 | an entry that is not a directory leaves the map unchanged |
| Namespaces.Pairs | src/Validator/TwigBlockValidator.php:299 | one `(namespace, directory)` pair per directory, in order |
| Validator.Decide | src/Validator/TwigBlockValidator.php:160-186 | the hash matches exactly on strict equality with the computed hash; the version matches exactly when it satisfies `~default`; valid exactly when both |
| Validator.BlockContentIn | src/Validator/TwigBlockValidator.php:227-282 | the template passed in is sliced and cut by the resolver's rule; a missing template is a loader error |
| Validator.ContentAgreesWithResolver | src/Validator/TwigBlockValidator.php:227-282 | when the block belongs to the template passed in, both revisions read the same content |
| Validator.Report | src/Validator/TwigBlockValidator.php:299-305 | a pair reports nothing, or the error naming its missing directory |
| Validator.Failures | src/Validator/TwigBlockValidator.php:289-306 | at most one error per pair, and none when every directory exists |
| Validator.FailuresAreMissing | src/Validator/TwigBlockValidator.php:299-305 | every recorded error names a pair of the input whose directory is missing |
| Validator.Existing | src/Validator/TwigBlockValidator.php:299-305 | only existing directories of the namespace's pairs |
| Validator.AddAllLookup | src/Validator/TwigBlockValidator.php:295-306 | each namespace keeps its earlier directories, followed by exactly its existing registered ones in order; a missing one never stops the rest |
| Validator.Kept | src/Validator/TwigBlockValidator.php:299-305 | the pairs whose directory exists |
| Validator.FailuresCount | src/Validator/TwigBlockValidator.php:299-305 | every pair is either registered or reported, never both |
| Validator.FailuresConcat | src/Validator/TwigBlockValidator.php:86-87 | registering two runs one after the other concatenates their reports |
| Validator.AddAllConcat | src/Validator/TwigBlockValidator.php:86-87 | the second run starts from the first run's directories |
| Validator.Verdict | src/Validator/TwigBlockValidator.php:160-186 | a verdict is for the comment under the default version, valid exactly when both matches hold; errors are loader, type or tag errors |
| Validator.VerdictOnContent | src/Validator/TwigBlockValidator.php:160-186 | a verdict exists exactly when the content is found; its hash is the content's hash, and the hash matches exactly when the comment claims it |
| Validator.TwigBlockValidator.ResolveParentBlock | src/Validator/TwigBlockValidator.php:196-215 | the starting template's own block is returned when it exists, and a missing block is a loader error; a parent is only loaded: when it loads, the caches change exactly as `Load` files the parent (`FileOnce`); when it does not, its error escapes and nothing changes; the name-keyed cache invariant is kept |
| Validator.TwigBlockValidator.ValidateComment | src/Validator/TwigBlockValidator.php:145-187 | a null template or block is a type error; a result is the verdict on the content of the block cached under the comment's name; errors are type or Twig errors; no cached entry changes and the name-keyed cache invariant is kept |
| Validator.FirstRejected | src/Validator/TwigBlockValidator.php:295-306 | the position of the first namespace that has directories and an integer key, at which `addPath`'s string parameter throws; the length of the order when there is none |
| Validator.TwigBlockValidator.RegisterNamespace | src/Validator/TwigBlockValidator.php:299-305 | a namespace with directories and an integer key throws an uncaught type error at its first directory and changes nothing; otherwise its errors and directories are `Failures` and `AddAll` of its pairs |
| Validator.TwigBlockValidator.RegisterPaths | src/Validator/TwigBlockValidator.php:289-313 | the namespaces in map order up to the first rejected one (`FirstRejected`) are registered, with errors and directories `Failures` and `AddAll` of their pairs; a rejected namespace ends the loop with a type error |
| Validator.FirstMissing | src/Validator/TwigBlockValidator.php:329 | the position of the first path that is not a directory, every path before it being one; the length of the list when all are |
| Validator.FinderFailure | src/Validator/TwigBlockValidator.php:328-337 | a finder throws exactly when its list is empty or holds a path that is not a directory; what it throws is a Finder error, not a Twig error, and the no-directories error for an empty list |
| Validator.FinderNamesFirstMissing | src/Validator/TwigBlockValidator.php:329 | the thrown error names the first path, in list order, that is not a directory |
| Validator.FirstUnsearchable | src/Validator/TwigBlockValidator.php:325-331 | the position of the first namespace whose finder throws, every finder before it enumerating; the length of the order when there is none |
| Validator.TwigBlockValidator.LoadNamespace | src/Validator/TwigBlockValidator.php:328-350 | a finder that throws ends the namespace with its error and changes nothing; otherwise a failure is a load error naming one of the namespace's files (`NamespaceFails`); on success the finder enumerated and every file loads |
| Validator.TwigBlockValidator.LoadPaths | src/Validator/TwigBlockValidator.php:323-358 | a failure is a Finder or file-load error of one namespace, with no earlier namespace's finder throwing (`StopsAt`); on success every scope namespace has directories and all of them exist, so registering the scope reported nothing (`Failures` is empty), and every enumerated file loads |
| Validator.TwigBlockValidator.LoadComments | src/Validator/TwigBlockValidator.php:337-350 | each file a finder enumerates for one namespace is loaded under its namespaced name; a failure is a loader error naming one of the files and the namespace; on success every file is a template the loader knows (`AllLoadable`) |
| Validator.TwigBlockValidator.ValidateAll | src/Validator/TwigBlockValidator.php:111-187 | every comment gets one verdict under the run's version; that verdict is `Verdict` on a block named by the comment, its content cut from the comment's own template (`OnBlock`), so its source hash is the hash of that content (`VerdictOnContent`); its hash matches exactly when the comment claims that hash, its version matches exactly when the comment's version satisfies `~version`, and it is valid exactly when both do; a null version is a type error |
| Validator.TwigBlockValidator.ValidateScope | src/Validator/TwigBlockValidator.php:89-136 | the default version is the run's while the scope is loaded and validated, and the previous one exactly when nothing escapes; a Finder error is where `loadPaths` stops (`StopsAt`); on success no scope directory is missing and every comment has its verdict as `ValidateAll` states |
| Validator.TwigBlockValidator.Validate | src/Validator/TwigBlockValidator.php:81-137 | the main namespace is cleared and both maps registered, with their reported errors; an integer namespace key in either map aborts the run with a type error before the default version is set, after registering the namespaces ahead of it; a scope namespace with no directory or a missing one aborts with a Finder error after the default version is set; otherwise the default version is restored exactly when no error escapes, the scope reported no registration error, and every comment gets one verdict, on a block it names, with the hash, version and validity meanings `ValidateAll` states |
| VersionValidator.CacheBlocks | src/Service/TwigBlockVersionValidator.php:436-441 | no template key of the cache is lost |
| VersionValidator.CacheBlocksLastWins | src/Service/TwigBlockVersionValidator.php:436-441 | a block that no later block shares a slot with is the one the cache keeps |
| VersionValidator.CacheBlocksUntouched | src/Service/TwigBlockVersionValidator.php:436-441 | a slot no block is stored in keeps what it held |
| VersionValidator.MissingBlockIsEmpty | src/Service/TwigBlockVersionValidator.php:338-342 | a block missing from the parent's cached table is hashed as the empty text |
| VersionValidator.VersionContentLines | src/Service/TwigBlockVersionValidator.php:338-342 | a cached block inside the source is hashed as exactly its `end - start` source lines from `start`, tag lines whole |
| VersionValidator.TwigBlockVersionValidator.constructor | src/Service/TwigBlockVersionValidator.php:96-138 | a fresh visitor with the given default version and empty caches |
| VersionValidator.TwigBlockVersionValidator.AddPaths | src/Service/TwigBlockVersionValidator.php:140-159 | the existing directories are added to the namespace in order, the rest skipped |
| VersionValidator.TwigBlockVersionValidator.UpdateBlockCache | src/Service/TwigBlockVersionValidator.php:436-441 | the block cache becomes `CacheBlocks` of the old one |
| VersionValidator.TwigBlockVersionValidator.ValidateBlock | src/Service/TwigBlockVersionValidator.php:314-388 | a null parent is a type error; an uncached parent is loaded and its blocks cached; the verdict is on the hash of the block's raw lines in the parent source |
| VersionValidator.TwigBlockVersionValidator.Reset | src/Service/TwigBlockVersionValidator.php:415-429 | the three caches are emptied, the main namespace cleared, the visitor's collection replaced |

## Left out

- Console and table output, colours, and the dispatched annotate events are not modelled. They are presentation only.
- File I/O is not modelled:
  - `writeTemplate` is an update to a path-to-text map;
  - the Finder's enumeration of the `*.twig` files in a namespace's directories is the `found` parameter of `LoadPaths`, and the Finder accepts a path exactly when `is_dir` holds (glob patterns given to `Finder::in` are not modelled);
  - `is_dir` is a predicate parameter.
- The Symfony cache's ten-minute expiry, and `setCache(false)`, are not modelled. Time is outside the model.
- Twig's compilation and `BlockStackParser` are not modelled. Block line ranges and the collected blocks and comments are inputs, held in the template store.
- `CommentCollectionNode` is not part of this model. It is a Twig node shell around the trait that is modelled.
- `setTemplate` and `setParentTemplate` are plain setters. Their trait is not part of this model, so `Collections.BlockStack.SetTemplate` and `SetParentTemplate` are written from their call sites.
- The hand-off between the node visitor's collection and the caches is not modelled. `Load` and `validateBlock` take a template's blocks from the store; the collection piling up other templates' blocks, and Twig skipping a recompilation, are not modelled. The default version that compilation stamps on a comment is not tied to `validate`'s version.
- `load`'s early return on the environment's own template cache is not modelled. The Symfony caches hold the result of a repeated load anyway.
- `loadFile` re-raises a Twig error as a loader error naming the file. This is `FileLoadFailed`, and the original message text is not kept.
- The newer validator's `validate`, `loadPaths` (and the `fileCache` it fills) and `setConsole` are not modelled. They are console and Finder plumbing around the modelled `validateBlock`.
- Environment.BlockValidatorEnvironment.Reset: does not model the `resetGlobals` call (src/Twig/BlockValidatorEnvironment.php:286), since Twig's globals are outside the model, nor the node visitor's `resetCollection` call (src/Twig/BlockValidatorEnvironment.php:292); the collection is reset where `validate` and the newer validator's `reset` call the visitor directly.
- Resolver.ResolveBlock: reads a template's block table straight from the store, not through the environment's cache under its sanitised key. Stale cache entries kept by `reset`, and two templates colliding on one key (`CacheKeyCollision`), therefore do not reach the resolver, and `Walk` and `SourceHashOfTop` inherit this.
- Annotator.TwigBlockAnnotator.Annotate: `annotate` calls `registerPaths` (src/Annotator/TwigBlockAnnotator.php:102), `loadBlocks` (:114), `loadComments` (:115) and `removeCache` (:270) on its environment. The environment class it imports (src/Twig/BlockValidatorEnvironment.php) defines none of them; `registerPaths` exists only as the older validator's protected method. As written, `annotate` would stop at :102 with an undefined-method error. The model starts after those calls: `Annotate` takes the blocks and comments as inputs and starts with an empty error list.
- Because of that, these parts of `annotate` are not modelled: `twig->reset()`; the `array_unique` de-duplication of both path maps (src/Annotator/TwigBlockAnnotator.php:96-97); the loader errors `loadBlocks` and `loadComments` would append; the default-version swap (:109-110, :153); `removeCache`; and the block enrichment written back by reference after a fatal error.
- Validator.TwigBlockValidator: the older validator imports its environment from another namespace (src/Validator/TwigBlockValidator.php:33), and that class is not part of this model. The model uses the environment of src/Twig/BlockValidatorEnvironment.php in its place, including `addPath`'s `string $namespace` parameter.
- In the annotator, ancestor hashes are computed from the templates as loaded. A file written earlier in the same run does not change the ancestor text the hashes are taken from.
- Validator.TwigBlockValidator.ValidateAll: it and `Validate` require the environment's cached block maps to be keyed by block name (`BlocksByName`). The environment's constructor establishes this and its methods keep it; a Symfony cache filled by other code is not modelled.
- Validator.TwigBlockValidator.LoadComments: the comments gathered on success are not tied to the comment cache's contents, only the load of every file is stated.
- Annotator.NestedOrderMisplaces: the misplacement is shown on the insert fold `InsertAll`; the fold is tied to the annotate loop (`RunInsertsAll`) only for blocks in ascending line order, so no lemma runs `AnnotateRun` itself on a nested pair.
- Validator.TwigBlockValidator.ValidateComment: for a resolved block that names a parent, an error is stated only by its kind, not by which step raised it.
- Resolver.CutContent: the tag patterns run in extended mode; a block name holding whitespace would match differently from the concrete matcher, which takes it literally. Twig block names hold none.
