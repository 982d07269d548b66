/**
 * Records and collaborators shared by the block-inheritance engine: block and
 * comment records as the node visitor emits them, the errors the engine
 * raises, and the foreign functions it calls without seeing their code.
 */
module Common {

  datatype Option<T> = None | Some(value: T) {
    /** PHP's `$x ?? $default`. */
    function GetOr(default: T): T {
      if Some? then value else default
    }
  }

  datatype Result<T> = Ok(value: T) | Err(error: Error)

  /**
   * Every exception the core raises. The first five are Twig's `LoaderError`,
   * `NotCached` is its `RuntimeError`, the tag errors are its `SyntaxError`
   * (carrying the 0-based line the source reports); the rest are PHP's own.
   */
  datatype Error =
    | TemplateNotFound(name: string)
    | RecursionError(template: string, visited: seq<string>)
    | BlockNotFound(block: string, template: string)
    | DirectoryNotFound(path: string, namespace: string)
    | FileLoadFailed(file: string, namespace: string)
    | NotCached(name: string)
    | StartTagNotFound(block: string, line: int)
    | EndTagNotFound(block: string, line: int)
    | InvalidName(pathname: string, namespace: string)
    | NonStringName
    | RenderUnsupported
    | TypeError
    | SearchDirectoryNotFound(path: string)
    | NoSearchDirectories
  {
    predicate IsLoaderError() {
      TemplateNotFound? || RecursionError? || BlockNotFound? || DirectoryNotFound? || FileLoadFailed?
    }

    /** Subclasses of `Twig\Error\Error`. */
    predicate IsTwigError() {
      IsLoaderError() || NotCached? || StartTagNotFound? || EndTagNotFound?
    }

    /**
     * What a Symfony `Finder` throws before it yields a file: a
     * `DirectoryNotFoundException` from `in`, or the `LogicException` of a
     * finder searching no directory. Neither is a Twig error.
     */
    predicate IsFinderError() {
      SearchDirectoryNotFound? || NoSearchDirectories?
    }
  }

  /** `[line_no_start, line_no_end]`, 1-based as Twig numbers lines. */
  datatype LineRange = LineRange(start: int, end: int)

  /** One `_Block` record, emitted when the visitor leaves a block node. */
  datatype Block = Block(
    template: Option<string>,
    parentTemplate: Option<string>,
    name: string,
    lines: LineRange,
    level: nat)

  /**
   * One `_Comment` record. `raw` is the comment text, kept only by the newer
   * collection revision.
   */
  datatype Comment = Comment(
    template: Option<string>,
    parentTemplate: Option<string>,
    block: Option<string>,
    lines: Option<LineRange>,
    hash: Option<string>,
    version: Option<string>,
    raw: Option<string>)

  /** What the host engine produced for one template: the visitor's blocks in pop order, its comments, and the text. */
  datatype Template = Template(blocks: seq<Block>, comments: seq<Comment>, source: string)

  type Store = map<string, Template>

  /** The two capture groups of an accepted annotation comment (unmatched groups are null). */
  datatype CommentMatch = CommentMatch(hash: Option<string>, version: Option<string>)

  /**
   * The block-validator extension's static helpers and Composer's semver check,
   * whose code is not part of this model: they enter as uninterpreted functions.
   * `matchComment` returns `None` where the source throws `InvalidArgumentException`.
   */
  datatype Extension = Extension(
    hash: string -> string,
    formatComment: (string, Option<string>) -> string,
    matchComment: string -> Option<CommentMatch>,
    satisfies: (Option<string>, string) -> bool)

  /** The lexer's `tag_block` and `tag_comment` delimiter pairs (`{%`/`%}`, `{#`/`#}` by default). */
  datatype LexerOptions = LexerOptions(
    blockOpen: string, blockClose: string,
    commentOpen: string, commentClose: string)

  /** Twig's `FilesystemLoader::MAIN_NAMESPACE`, the namespace of names without `@`. */
  const MainNamespace: string := "__main__"

  /** PHP turns a null array key into "". */
  function Key(k: Option<string>): string {
    k.GetOr("")
  }
}
