/**
 * The `@namespace:path` command-line option format: each entry names a
 * directory, optionally under a Twig namespace; entries that are not
 * directories are skipped, and the rest are gathered per namespace.
 */
module Namespaces {
  import opened Common
  import opened Pathname

  /**
   * `_NamespacedPathMap`: PHP's insertion-ordered array from namespace to
   * directories, as its key order and its entries.
   */
  datatype PathMap = PathMap(order: seq<string>, paths: map<string, seq<string>>)

  const EmptyPathMap := PathMap([], map[])

  /** Each key once in the order, and exactly the keys that have entries. */
  ghost predicate WellFormed(m: PathMap) {
    && (forall i, j :: 0 <= i < j < |m.order| ==> m.order[i] != m.order[j])
    && (forall ns :: ns in m.paths <==> ns in m.order)
  }

  /** `$m[$ns] ?? []`. */
  function Lookup(m: PathMap, ns: string): seq<string> {
    if ns in m.paths then m.paths[ns] else []
  }

  /** A text made of decimal digits only. */
  predicate AllDigits(s: string) {
    forall i :: 0 <= i < |s| ==> '0' <= s[i] <= '9'
  }

  /** The number a run of decimal digits denotes. */
  function DigitsValue(s: string): nat
    requires AllDigits(s)
  {
    if s == [] then 0 else DigitsValue(s[..|s| - 1]) * 10 + (s[|s| - 1] as int - '0' as int)
  }

  /** PHP's `PHP_INT_MAX` on a 64-bit build. */
  const PhpIntMax: nat := 0x7FFF_FFFF_FFFF_FFFF

  /**
   * An array key PHP stores as an `int`: a canonical decimal integer that
   * fits in `int`, so `0`, or an optional `-` and a non-zero digit followed
   * by digits. `01`, `-0` and `+1` stay strings.
   */
  predicate IntegerKey(s: string) {
    if |s| > 1 && s[0] == '-' then
      AllDigits(s[1..]) && s[1] != '0' && DigitsValue(s[1..]) <= PhpIntMax + 1
    else
      |s| > 0 && AllDigits(s) && (s[0] != '0' || |s| == 1) && DigitsValue(s) <= PhpIntMax
  }

  /**
   * A key that starts with neither a digit nor `-` stays a string, the main
   * namespace's among them; a decimal namespace such as `1` becomes an int.
   */
  lemma IntegerKeyExamples(s: string)
    requires |s| > 0 && !('0' <= s[0] <= '9') && s[0] != '-'
    ensures !IntegerKey(s) && !IntegerKey(MainNamespace)
    ensures IntegerKey("1") && IntegerKey("-7") && IntegerKey("0")
    ensures !IntegerKey("01") && !IntegerKey("-0") && !IntegerKey("")
  {
  }

  /**
   * `$m[$ns][] = $p`: the directory goes at the end of its namespace's list,
   * a new namespace at the end of the key order; nothing else changes.
   */
  function Append(m: PathMap, ns: string, p: string): (r: PathMap)
    ensures Lookup(r, ns) == Lookup(m, ns) + [p]
    ensures forall other :: other != ns ==> Lookup(r, other) == Lookup(m, other)
    ensures r.order == m.order || r.order == m.order + [ns]
    ensures WellFormed(m) ==> WellFormed(r)
  {
    if ns in m.paths then m.(paths := m.paths[ns := m.paths[ns] + [p]])
    else PathMap(m.order + [ns], m.paths[ns := [p]])
  }

  /**
   * Twig's `setPaths([], $ns)`: the namespace's list becomes empty, a new
   * namespace goes at the end of the key order; nothing else changes.
   */
  function ClearNamespace(m: PathMap, ns: string): (r: PathMap)
    ensures Lookup(r, ns) == []
    ensures forall other :: other != ns ==> Lookup(r, other) == Lookup(m, other)
    ensures WellFormed(m) ==> WellFormed(r)
  {
    if ns in m.paths then m.(paths := m.paths[ns := []])
    else PathMap(m.order + [ns], m.paths[ns := []])
  }

  /**
   * `[$namespace, $path] = explode(':', $p)`: the first two `:`-segments of
   * a text that holds a `:`.
   */
  function SplitColon(p: string): (r: (string, string))
    requires ':' in p
    ensures ':' !in r.0 && ':' !in r.1
  {
    var i := IndexOf(p, ':').value;
    var rest := p[i + 1..];
    var path := match IndexOf(rest, ':') case None => rest case Some(j) => rest[..j];
    (p[..i], path)
  }

  /**
   * One option entry read as `(namespace, directory)`. With a `:` one
   * leading `@` is dropped and the rest split at `:`; without one the entry
   * is the directory itself, under the main namespace.
   */
  function ParseEntry(entry: string): (r: (string, string))
    ensures ':' !in entry ==> r == (MainNamespace, entry)
    ensures ':' in entry ==> ':' !in r.0 && ':' !in r.1
  {
    if ':' !in entry then (MainNamespace, entry)
    else
      var p := if entry[0] == '@' then entry[1..] else entry;
      assert ':' in p by {
        var k :| 0 <= k < |entry| && entry[k] == ':';
        if entry[0] == '@' { assert p[k - 1] == ':'; }
      }
      SplitColon(p)
  }

  /** The leftmost `c` is at `i` when `s[i]` is one and none comes before. */
  lemma {:induction false} IndexOfAt(s: string, i: nat, c: char)
    requires i < |s| && s[i] == c && c !in s[..i]
    ensures IndexOf(s, c) == Some(i)
  {
  }

  /** Splitting `ns:path` followed by further `:`-segments gives back `ns` and `path`. */
  lemma {:induction false} SplitColonRoundTrip(ns: string, path: string, extra: string)
    requires ':' !in ns && ':' !in path
    requires extra == [] || extra[0] == ':'
    ensures ':' in ns + ":" + path + extra
    ensures SplitColon(ns + ":" + path + extra) == (ns, path)
  {
    var p := ns + ":" + path + extra;
    assert p[..|ns|] == ns && p[|ns|] == ':';
    IndexOfAt(p, |ns|, ':');
    var rest := p[|ns| + 1..];
    assert rest[..|path|] == path;
    if extra == [] {
      assert rest == path;
    } else {
      assert rest[|path|] == ':';
      IndexOfAt(rest, |path|, ':');
    }
  }

  /**
   * Reading back an entry written as `@namespace:path` or `namespace:path`,
   * optionally followed by further `:`-segments: the namespace and directory
   * come out as written, and the extra segments are ignored. Without the `@`
   * the namespace must not begin with one, since one `@` is always dropped.
   */
  lemma {:induction false} ParseEntryRoundTrip(ns: string, path: string, extra: string)
    requires ':' !in ns && ':' !in path
    requires extra == [] || extra[0] == ':'
    ensures ParseEntry("@" + (ns + ":" + path + extra)) == (ns, path)
    ensures ns == [] || ns[0] != '@' ==> ParseEntry(ns + ":" + path + extra) == (ns, path)
  {
    var p := ns + ":" + path + extra;
    SplitColonRoundTrip(ns, path, extra);
    assert p[|ns|] == ':';
    var entry := "@" + p;
    assert entry[1..] == p && entry[|ns| + 1] == ':';
    if ns == [] {
      assert p[0] == ':';
    } else {
      assert p[0] == ns[0];
    }
  }

  /** The reference reading: the directories accepted for `ns`, in entry order, duplicates kept. */
  function Accepted(entries: seq<string>, isDir: string -> bool, ns: string): (r: seq<string>)
    ensures forall p | p in r :: isDir(p)
    ensures |r| <= |entries|
  {
    if entries == [] then []
    else
      var parsed := ParseEntry(entries[|entries| - 1]);
      Accepted(entries[..|entries| - 1], isDir, ns) + (if parsed.0 == ns && isDir(parsed.1) then [parsed.1] else [])
  }

  /**
   * The map `resolveNamespaces` builds from the first `|entries|` entries:
   * one list per namespace, holding exactly that namespace's accepted
   * directories, in entry order.
   */
  function Resolve(entries: seq<string>, isDir: string -> bool): (m: PathMap)
    ensures WellFormed(m)
    ensures forall ns :: Lookup(m, ns) == Accepted(entries, isDir, ns)
  {
    if entries == [] then EmptyPathMap
    else
      var init := entries[..|entries| - 1];
      var parsed := ParseEntry(entries[|entries| - 1]);
      if isDir(parsed.1) then Append(Resolve(init, isDir), parsed.0, parsed.1) else Resolve(init, isDir)
  }

  /**
   * `resolveNamespaces` (ConsoleCommandTrait, and the same loop in the older
   * command): `is_dir` enters as a predicate.
   */
  method ResolveNamespaces(entries: seq<string>, isDir: string -> bool) returns (m: PathMap)
    ensures m == Resolve(entries, isDir)
  {
    m := EmptyPathMap;
    for i := 0 to |entries|
      invariant m == Resolve(entries[..i], isDir)
    {
      var parsed := ParseEntry(entries[i]);
      var namespace, path := parsed.0, parsed.1;
      assert entries[..i + 1][..i] == entries[..i];
      if !isDir(path) {
        continue;
      }
      m := Append(m, namespace, path);
    }
    assert entries[..|entries|] == entries;
  }

  /** An entry that is not a directory leaves the map unchanged. */
  lemma {:induction false} SkippedEntry(entries: seq<string>, e: string, isDir: string -> bool)
    requires !isDir(ParseEntry(e).1)
    ensures Resolve(entries + [e], isDir) == Resolve(entries, isDir)
  {
    assert (entries + [e])[..|entries|] == entries;
  }

  /** `(namespace, directory)` pairs of one list. */
  function Pairs(ns: string, paths: seq<string>): (r: seq<(string, string)>)
    ensures |r| == |paths| && forall k :: 0 <= k < |paths| ==> r[k] == (ns, paths[k])
  {
    seq(|paths|, k requires 0 <= k < |paths| => (ns, paths[k]))
  }

  /** Every `(namespace, directory)` pair of the namespaces in `order`, in that order. */
  function Flatten(order: seq<string>, m: PathMap): seq<(string, string)> {
    if order == [] then []
    else Flatten(order[..|order| - 1], m) + Pairs(order[|order| - 1], Lookup(m, order[|order| - 1]))
  }
}
