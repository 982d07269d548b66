/**
 * The PHP string and array primitives the engine leans on, with the exact
 * edge-case behaviour of the PHP runtime: `explode("\n", ...)`,
 * `implode("\n", ...)`, `substr`, `array_slice`, `array_splice` and the
 * `^\s*` indentation match.
 */
module Text {

  /** PCRE's `\s`: space, tab, line feed, vertical tab, form feed, carriage return. */
  predicate IsSpace(c: char) {
    c == ' ' || c == '\t' || c == '\n' || c == '\U{0B}' || c == '\U{0C}' || c == '\r'
  }

  /** `explode("\n", s)`: never empty, and no piece contains a line feed. */
  function Split(s: string): (r: seq<string>)
    ensures |r| >= 1
    ensures forall i :: 0 <= i < |r| ==> '\n' !in r[i]
    decreases |s|
  {
    if |s| == 0 then [""]
    else
      var rest := Split(s[1..]);
      if s[0] == '\n' then [""] + rest
      else [[s[0]] + rest[0]] + rest[1..]
  }

  /** `implode("\n", ls)`. */
  function Join(ls: seq<string>): string
    decreases |ls|
  {
    if |ls| == 0 then ""
    else if |ls| == 1 then ls[0]
    else ls[0] + "\n" + Join(ls[1..])
  }

  predicate NoNewline(ls: seq<string>) {
    forall i :: 0 <= i < |ls| ==> '\n' !in ls[i]
  }

  /** Joining the pieces of a split gives the text back. */
  lemma {:induction false} JoinSplit(s: string)
    ensures Join(Split(s)) == s
    decreases |s|
  {
    if |s| > 0 {
      var rest := Split(s[1..]);
      JoinSplit(s[1..]);
      if s[0] == '\n' {
        assert Split(s) == [""] + rest;
        assert Join([""] + rest) == "" + "\n" + Join(rest);
        assert s == [s[0]] + s[1..];
      } else {
        var head := [s[0]] + rest[0];
        if |rest| == 1 {
          assert Split(s) == [head];
        } else {
          assert Split(s) == [head] + rest[1..];
          assert Join(rest) == rest[0] + "\n" + Join(rest[1..]);
          assert Join([head] + rest[1..]) == head + "\n" + Join(rest[1..]);
        }
        assert s == [s[0]] + s[1..];
      }
    }
  }

  /** A line without a line feed splits into itself. */
  lemma {:induction false} SplitLine(a: string)
    requires '\n' !in a
    ensures Split(a) == [a]
    decreases |a|
  {
    if |a| > 0 {
      assert '\n' !in a[1..] by {
        forall k | 0 <= k < |a[1..]| ensures a[1..][k] != '\n' { assert a[1..][k] == a[k + 1]; }
      }
      SplitLine(a[1..]);
      assert [a[0]] + a[1..] == a;
    }
  }

  /** A line feed after a line-feed-free prefix starts a new piece. */
  lemma {:induction false} SplitCons(a: string, b: string)
    requires '\n' !in a
    ensures Split(a + "\n" + b) == [a] + Split(b)
    decreases |a|
  {
    var s := a + "\n" + b;
    if |a| == 0 {
      assert s[0] == '\n' && s[1..] == b;
    } else {
      assert '\n' !in a[1..] by {
        forall k | 0 <= k < |a[1..]| ensures a[1..][k] != '\n' { assert a[1..][k] == a[k + 1]; }
      }
      assert s[1..] == a[1..] + "\n" + b;
      SplitCons(a[1..], b);
      assert Split(s[1..]) == [a[1..]] + Split(b);
      assert [a[0]] + a[1..] == a;
    }
  }

  /** Splitting a join of line-feed-free lines gives the lines back. */
  lemma {:induction false} SplitJoin(ls: seq<string>)
    requires |ls| >= 1 && NoNewline(ls)
    ensures Split(Join(ls)) == ls
    decreases |ls|
  {
    if |ls| == 1 {
      SplitLine(ls[0]);
    } else {
      SplitJoin(ls[1..]);
      SplitCons(ls[0], Join(ls[1..]));
      assert [ls[0]] + ls[1..] == ls;
    }
  }

  /** `substr(s, offset)` for a non-negative offset: empty past the end. */
  function SubstrFrom(s: string, offset: nat): (r: string)
    ensures offset <= |s| ==> r == s[offset..]
    ensures offset > |s| ==> r == ""
  {
    if offset <= |s| then s[offset..] else ""
  }

  /** The offset `array_slice`/`array_splice` start at for `offset` on `n` elements. */
  function ClampOffset(n: nat, offset: int): (o: nat)
    ensures o <= n
    ensures 0 <= offset <= n ==> o == offset
  {
    if offset < 0 then (if n + offset < 0 then 0 else n + offset)
    else if offset > n then n
    else offset
  }

  /** `array_slice(a, offset, length)`, including negative offsets and lengths. */
  function Slice<T>(a: seq<T>, offset: int, length: int): (r: seq<T>)
    ensures 0 <= offset && 0 <= length && offset + length <= |a| ==> r == a[offset..offset + length]
    ensures |r| <= |a|
  {
    var start := ClampOffset(|a|, offset);
    var stop :=
      if length < 0 then (if |a| + length < start then start else |a| + length)
      else if start + length > |a| then |a|
      else start + length;
    a[start..stop]
  }

  /** `array_splice(a, offset, length, x)` with a non-negative length: the array after the call. */
  function Splice<T>(a: seq<T>, offset: int, length: nat, x: T): (r: seq<T>)
    ensures 0 <= offset < |a| && length == 0 ==> r == a[..offset] + [x] + a[offset..]
    ensures 0 <= offset < |a| && length == 1 ==> r == a[offset := x]
    ensures |r| == |a| + 1 - (if length <= |a| - ClampOffset(|a|, offset) then length else |a| - ClampOffset(|a|, offset))
  {
    var o := ClampOffset(|a|, offset);
    var removed := if length <= |a| - o then length else |a| - o;
    a[..o] + [x] + a[o + removed..]
  }

  /** The match of `^\s*` on a line: its indentation. */
  function LeadingWhitespace(s: string): (r: string)
    ensures |r| <= |s| && r == s[..|r|]
    ensures forall i :: 0 <= i < |r| ==> IsSpace(r[i])
    ensures |r| < |s| ==> !IsSpace(s[|r|])
    decreases |s|
  {
    if |s| > 0 && IsSpace(s[0]) then [s[0]] + LeadingWhitespace(s[1..]) else ""
  }
}
