/**
 * A concrete matcher for the two block-tag patterns the content extractor
 * runs with `preg_match(..., PREG_OFFSET_CAPTURE)`:
 *
 *   start tag:  open \s* block \s+ name \s* close
 *   end tag:    open \s* endblock (\s+ name)? \s* close
 *
 * It returns the offset of the leftmost match, as `$match[0][1]` does. Each
 * `\s*`/`\s+` run is taken whole; that agrees with the backtracking regex
 * whenever the block name and the closing delimiter do not begin with
 * whitespace (Twig block names never do, nor does `%}`).
 */
module TagMatch {
  import opened Text
  import opened Common

  predicate StartsAt(s: string, i: nat, p: string) {
    i + |p| <= |s| && s[i..i + |p|] == p
  }

  /** The end of the whitespace run starting at `i`. */
  function SkipSpace(s: string, i: nat): (j: nat)
    requires i <= |s|
    ensures i <= j <= |s|
    decreases |s| - i
  {
    if i < |s| && IsSpace(s[i]) then SkipSpace(s, i + 1) else i
  }

  /** A `\s*` run is taken whole: every character skipped is whitespace, and the next one is not. */
  lemma {:induction false} SkipSpaceMaximal(s: string, i: nat)
    requires i <= |s|
    ensures forall k :: i <= k < SkipSpace(s, i) ==> IsSpace(s[k])
    ensures SkipSpace(s, i) == |s| || !IsSpace(s[SkipSpace(s, i)])
    decreases |s| - i
  {
    if i < |s| && IsSpace(s[i]) {
      SkipSpaceMaximal(s, i + 1);
    }
  }

  /** `open \s* block \s+ name \s* close` matches at offset `i`. */
  predicate StartTagAt(s: string, i: nat, open: string, name: string, close: string) {
    && StartsAt(s, i, open)
    && var j := SkipSpace(s, i + |open|);
    && StartsAt(s, j, "block")
    && var k := SkipSpace(s, j + 5);
    && k > j + 5
    && StartsAt(s, k, name)
    && StartsAt(s, SkipSpace(s, k + |name|), close)
  }

  /** `open \s* endblock (\s+ name)? \s* close` matches at offset `i`. */
  predicate EndTagAt(s: string, i: nat, open: string, name: string, close: string) {
    && StartsAt(s, i, open)
    && var j := SkipSpace(s, i + |open|);
    && StartsAt(s, j, "endblock")
    && var k := SkipSpace(s, j + 8);
    && (|| StartsAt(s, k, close)
        || (k > j + 8 && StartsAt(s, k, name) && StartsAt(s, SkipSpace(s, k + |name|), close)))
  }

  /** The leftmost offset in `from..n` where `p` holds, the scan `preg_match` makes for a pattern. */
  function Leftmost(p: nat -> bool, from: nat, n: nat): (r: Option<nat>)
    requires from <= n
    ensures r.Some? ==> from <= r.value <= n
    decreases n - from
  {
    if p(from) then Some(from)
    else if from == n then None
    else Leftmost(p, from + 1, n)
  }

  /** `p` holds at the offset found and at no earlier one; with none found it holds nowhere in range. */
  lemma {:induction false} LeftmostSpec(p: nat -> bool, from: nat, n: nat)
    requires from <= n
    ensures var r := Leftmost(p, from, n);
      && (r.Some? ==> p(r.value))
      && (r.Some? ==> forall i :: from <= i < r.value ==> !p(i))
      && (r.None? ==> forall i :: from <= i <= n ==> !p(i))
    decreases n - from
  {
    if !p(from) && from < n {
      LeftmostSpec(p, from + 1, n);
    }
  }

  /** The start-tag pattern as a predicate on offsets into `line`. */
  function StartTagPattern(line: string, open: string, name: string, close: string): nat -> bool {
    (i: nat) => StartTagAt(line, i, open, name, close)
  }

  /** The end-tag pattern as a predicate on offsets into `line`. */
  function EndTagPattern(line: string, open: string, name: string, close: string): nat -> bool {
    (i: nat) => EndTagAt(line, i, open, name, close)
  }

  /** `preg_match` of the start-tag pattern on a whole line: the offset of its leftmost match. */
  function MatchStartTag(line: string, open: string, name: string, close: string): Option<nat> {
    Leftmost(StartTagPattern(line, open, name, close), 0, |line|)
  }

  /** `preg_match` of the end-tag pattern on a whole line: the offset of its leftmost match. */
  function MatchEndTag(line: string, open: string, name: string, close: string): Option<nat> {
    Leftmost(EndTagPattern(line, open, name, close), 0, |line|)
  }

  /** The start tag matches at the offset found and at no earlier one; with none found it matches nowhere. */
  lemma {:induction false} StartTagLeftmost(line: string, open: string, name: string, close: string)
    ensures var r := MatchStartTag(line, open, name, close);
      && (r.Some? ==> r.value <= |line| && StartTagAt(line, r.value, open, name, close))
      && (r.Some? ==> forall i :: 0 <= i < r.value ==> !StartTagAt(line, i, open, name, close))
      && (r.None? ==> forall i :: 0 <= i <= |line| ==> !StartTagAt(line, i, open, name, close))
  {
    var p := StartTagPattern(line, open, name, close);
    LeftmostSpec(p, 0, |line|);
    var r := Leftmost(p, 0, |line|);
    if r.Some? {
      assert p(r.value);
      forall i | 0 <= i < r.value ensures !StartTagAt(line, i, open, name, close) {
        assert !p(i);
      }
    } else {
      forall i | 0 <= i <= |line| ensures !StartTagAt(line, i, open, name, close) {
        assert !p(i);
      }
    }
  }

  /** The end tag matches at the offset found and at no earlier one; with none found it matches nowhere. */
  lemma {:induction false} EndTagLeftmost(line: string, open: string, name: string, close: string)
    ensures var r := MatchEndTag(line, open, name, close);
      && (r.Some? ==> r.value <= |line| && EndTagAt(line, r.value, open, name, close))
      && (r.Some? ==> forall i :: 0 <= i < r.value ==> !EndTagAt(line, i, open, name, close))
      && (r.None? ==> forall i :: 0 <= i <= |line| ==> !EndTagAt(line, i, open, name, close))
  {
    var p := EndTagPattern(line, open, name, close);
    LeftmostSpec(p, 0, |line|);
    var r := Leftmost(p, 0, |line|);
    if r.Some? {
      assert p(r.value);
      forall i | 0 <= i < r.value ensures !EndTagAt(line, i, open, name, close) {
        assert !p(i);
      }
    } else {
      forall i | 0 <= i <= |line| ensures !EndTagAt(line, i, open, name, close) {
        assert !p(i);
      }
    }
  }

  /** Neither tag can match an empty line: both need a keyword. */
  lemma NoTagInEmptyLine(open: string, name: string, close: string)
    ensures MatchStartTag("", open, name, close).None?
    ensures MatchEndTag("", open, name, close).None?
  {
  }

  /** A default-delimiter start tag at the head of a line. */
  lemma StartTagExample()
    ensures MatchStartTag("{% block a %}X", "{%", "a", "%}") == Some(0)
  {
    var s := "{% block a %}X";
    assert SkipSpace(s, 2) == 3 by { assert IsSpace(s[2]) && !IsSpace(s[3]); assert SkipSpace(s, 3) == 3; }
    assert StartsAt(s, 3, "block") by { assert s[3..8] == "block"; }
    assert SkipSpace(s, 8) == 9 by { assert IsSpace(s[8]) && !IsSpace(s[9]); assert SkipSpace(s, 9) == 9; }
    assert SkipSpace(s, 10) == 11 by { assert IsSpace(s[10]) && !IsSpace(s[11]); assert SkipSpace(s, 11) == 11; }
    assert StartTagAt(s, 0, "{%", "a", "%}");
    var p := StartTagPattern(s, "{%", "a", "%}");
    assert p(0);
  }

  /** The end tag is found after leading text, with its offset. */
  lemma EndTagExample()
    ensures MatchEndTag("X{% endblock %}", "{%", "a", "%}") == Some(1)
  {
    var s := "X{% endblock %}";
    assert !StartsAt(s, 0, "{%") by { assert s[0] != '{'; }
    assert SkipSpace(s, 3) == 4 by { assert IsSpace(s[3]) && !IsSpace(s[4]); assert SkipSpace(s, 4) == 4; }
    assert StartsAt(s, 4, "endblock") by { assert s[4..12] == "endblock"; }
    assert SkipSpace(s, 12) == 13 by { assert IsSpace(s[12]) && !IsSpace(s[13]); assert SkipSpace(s, 13) == 13; }
    assert EndTagAt(s, 1, "{%", "a", "%}");
    var p := EndTagPattern(s, "{%", "a", "%}");
    assert Leftmost(p, 1, |s|) == Some(1) by { assert p(1); }
    assert !p(0);
  }
}
