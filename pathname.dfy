/**
 * Namespaced template names: `@namespace/relative/path`, built from a
 * namespace and a file's relative pathname, and parsed back by the Twig
 * loader, whose failure is re-raised as an invalid-argument error.
 */
module Pathname {
  import opened Common

  /** `buildNamespacedPathname`: `@`, the namespace, `/`, the relative pathname. */
  function BuildNamespacedPathname(namespace: string, relative: string): (r: string)
    ensures |r| == |namespace| + |relative| + 2
    ensures r[0] == '@' && r[|namespace| + 1] == '/'
    ensures r[1..|namespace| + 1] == namespace && r[|namespace| + 2..] == relative
  {
    "@" + namespace + "/" + relative
  }

  /** The leftmost position of `c` in `s`. */
  function IndexOf(s: string, c: char): (r: Option<nat>)
    ensures r.Some? ==> r.value < |s| && s[r.value] == c && c !in s[..r.value]
    ensures r.None? ==> c !in s
  {
    if c !in s then None
    else if s[0] == c then Some(0)
    else
      var rest := IndexOf(s[1..], c).value;
      assert s[..rest + 1] == [s[0]] + s[1..][..rest];
      Some(rest + 1)
  }

  /**
   * An independent reading of a built name: after the `@`, the namespace runs
   * up to the first `/`, the relative pathname is everything after it.
   */
  function SplitNamespaced(name: string): Option<(string, string)> {
    if |name| == 0 || name[0] != '@' then None
    else match IndexOf(name[1..], '/')
      case None => None
      case Some(i) => Some((name[1..][..i], name[1..][i + 1..]))
  }

  /**
   * Building and reading back are inverse whenever the namespace holds no
   * `/`: the relative pathname may hold any number of them.
   */
  lemma {:induction false} BuildThenSplit(namespace: string, relative: string)
    requires '/' !in namespace
    ensures SplitNamespaced(BuildNamespacedPathname(namespace, relative)) == Some((namespace, relative))
  {
    var name := BuildNamespacedPathname(namespace, relative);
    var tail := name[1..];
    assert tail == namespace + "/" + relative;
    assert tail[..|namespace|] == namespace;
    assert tail[|namespace|] == '/';
    assert IndexOf(tail, '/') == Some(|namespace|);
    assert tail[|namespace| + 1..] == relative;
  }

  /**
   * `parseNamespacedPathname`: the loader's `parseName` (`None` where it
   * throws `LoaderError`); its failure becomes an error naming the pathname
   * and the default namespace.
   */
  function ParseNamespacedPathname(parseName: (string, string) -> Option<(string, string)>, pathname: string, default: string): (r: Result<(string, string)>)
    ensures parseName(pathname, default).Some? <==> r.Ok?
    ensures r.Ok? ==> r.value == parseName(pathname, default).value
    ensures r.Err? ==> r.error == InvalidName(pathname, default)
  {
    match parseName(pathname, default)
    case None => Err(InvalidName(pathname, default))
    case Some(parsed) => Ok(parsed)
  }
}
