/**
  Substrings and Python's `str.join`: the vocabulary in which the prompt and
  the place list are described.
 */
module Text {

  /** `sub` occurs in `s` starting at index `k`. */
  predicate ContainsAt(s: string, sub: string, k: int) {
    0 <= k && k + |sub| <= |s| && s[k..k + |sub|] == sub
  }

  /** `sub` occurs somewhere in `s` (Python's `sub in s`). */
  ghost predicate Contains(s: string, sub: string) {
    exists k :: ContainsAt(s, sub, k)
  }

  /** An occurrence inside a piece is an occurrence inside anything built around it. */
  lemma ContainsAtConcat(a: string, b: string, c: string, sub: string, k: int)
    requires ContainsAt(b, sub, k)
    ensures ContainsAt(a + b + c, sub, |a| + k)
  {
    assert (a + b + c)[|a| + k..|a| + k + |sub|] == b[k..k + |sub|];
  }

  lemma ContainsPrefix(x: string, y: string)
    ensures ContainsAt(x + y, x, 0)
  {
    assert (x + y)[..|x|] == x;
  }

  lemma ContainsSuffix(x: string, y: string)
    ensures ContainsAt(x + y, y, |x|)
  {
    assert (x + y)[|x|..] == y;
  }

  /** Two occurrences that touch make one occurrence of the two pieces together. */
  lemma ContainsAtAdjacent(s: string, a: string, b: string, k: int)
    requires ContainsAt(s, a, k) && ContainsAt(s, b, k + |a|)
    ensures ContainsAt(s, a + b, k)
  {
    assert s[k..k + |a| + |b|] == s[k..k + |a|] + s[k + |a|..k + |a| + |b|];
  }

  /** Occurrence is transitive: `c` in `b` at `j`, `b` in `a` at `i` gives `c` in `a` at `i + j`. */
  lemma ContainsAtTrans(a: string, b: string, c: string, i: int, j: int)
    requires ContainsAt(a, b, i) && ContainsAt(b, c, j)
    ensures ContainsAt(a, c, i + j)
  {
    forall t | 0 <= t < |c|
      ensures a[i + j..i + j + |c|][t] == c[t]
    {
      assert c[t] == b[j..j + |c|][t] == b[j + t];
      assert b[j + t] == a[i..i + |b|][j + t] == a[i + j + t];
    }
  }

  lemma ContainsTrans(a: string, b: string, c: string)
    requires Contains(a, b) && Contains(b, c)
    ensures Contains(a, c)
  {
    var i :| ContainsAt(a, b, i);
    var j :| ContainsAt(b, c, j);
    ContainsAtTrans(a, b, c, i, j);
  }

  /** Python's `sep.join(xs)`: the items in order, `sep` between neighbours. */
  function Join(xs: seq<string>, sep: string): string
  {
    if |xs| == 0 then ""
    else if |xs| == 1 then xs[0]
    else xs[0] + sep + Join(xs[1..], sep)
  }

  /** Where item `i` starts in `Join(xs, sep)`: the items before it and one separator after each. */
  function JoinOffset(xs: seq<string>, sep: string, i: nat): nat
    requires i <= |xs|
  {
    if i == 0 then 0 else |xs[0]| + |sep| + JoinOffset(xs[1..], sep, i - 1)
  }

  /**
    The pieces of a join tile it exactly: item `i` sits at `JoinOffset(xs, sep, i)`,
    a separator follows it unless it is the last item, the next item starts right
    after that separator, and the last item ends the string.
   */
  lemma {:induction false} JoinAt(xs: seq<string>, sep: string, i: nat)
    requires i < |xs|
    ensures ContainsAt(Join(xs, sep), xs[i], JoinOffset(xs, sep, i))
    ensures i + 1 < |xs| ==> ContainsAt(Join(xs, sep), sep, JoinOffset(xs, sep, i) + |xs[i]|)
    ensures i + 1 < |xs| ==> JoinOffset(xs, sep, i + 1) == JoinOffset(xs, sep, i) + |xs[i]| + |sep|
    ensures i + 1 == |xs| ==> |Join(xs, sep)| == JoinOffset(xs, sep, i) + |xs[i]|
  {
    var j := Join(xs, sep);
    if |xs| == 1 {
    } else if i == 0 {
      assert j == xs[0] + sep + Join(xs[1..], sep);
      assert j[..|xs[0]|] == xs[0];
      assert j[|xs[0]|..|xs[0]| + |sep|] == sep;
      assert JoinOffset(xs[1..], sep, 0) == 0;
    } else {
      var rest := xs[1..];
      JoinAt(rest, sep, i - 1);
      assert rest[i - 1] == xs[i];
      assert j == xs[0] + sep + Join(rest, sep);
      ContainsAtConcat(xs[0] + sep, Join(rest, sep), "", xs[i], JoinOffset(rest, sep, i - 1));
      assert xs[0] + sep + Join(rest, sep) + "" == j;
      if i + 1 < |xs| {
        ContainsAtConcat(xs[0] + sep, Join(rest, sep), "", sep, JoinOffset(rest, sep, i - 1) + |xs[i]|);
      }
    }
  }

  /** Every item of a join occurs in it. */
  lemma JoinContainsItems(xs: seq<string>, sep: string)
    ensures forall i :: 0 <= i < |xs| ==> Contains(Join(xs, sep), xs[i])
  {
    forall i | 0 <= i < |xs|
      ensures Contains(Join(xs, sep), xs[i])
    {
      JoinAt(xs, sep, i);
    }
  }

  /** In `br + Join(xs, br) + br`, a copy of `br` comes right before each item... */
  lemma FramedBefore(xs: seq<string>, br: string, i: nat)
    requires i < |xs|
    ensures ContainsAt(br + Join(xs, br) + br, br, JoinOffset(xs, br, i))
  {
    var j := Join(xs, br);
    if i == 0 {
      assert (br + j + br)[..|br|] == br;
    } else {
      JoinAt(xs, br, i - 1);
      ContainsAtConcat(br, j, br, br, JoinOffset(xs, br, i) - |br|);
    }
  }

  /** ...and right after it; after the last item that copy ends the string. */
  lemma FramedAfter(xs: seq<string>, br: string, i: nat)
    requires i < |xs|
    ensures ContainsAt(br + Join(xs, br) + br, br, JoinOffset(xs, br, i) + |br| + |xs[i]|)
    ensures i + 1 == |xs| ==> |br + Join(xs, br) + br| == JoinOffset(xs, br, i) + |br| + |xs[i]| + |br|
  {
    var j := Join(xs, br);
    JoinAt(xs, br, i);
    if i + 1 < |xs| {
      ContainsAtConcat(br, j, br, br, JoinOffset(xs, br, i) + |xs[i]|);
    } else {
      ContainsSuffix(br + j, br);
    }
  }

  /**
    In `br + Join(xs, br) + br` every item sits between two copies of `br`,
    and the last item's closing `br` ends the string.
   */
  lemma FramedItem(xs: seq<string>, br: string, i: nat)
    requires i < |xs|
    ensures ContainsAt(br + Join(xs, br) + br, br + xs[i] + br, JoinOffset(xs, br, i))
    ensures i + 1 == |xs| ==> |br + Join(xs, br) + br| == JoinOffset(xs, br, i) + |br + xs[i] + br|
  {
    var j := Join(xs, br);
    var b := br + j + br;
    var off := JoinOffset(xs, br, i);
    FramedBefore(xs, br, i);
    assert ContainsAt(b, xs[i], off + |br|) by {
      JoinAt(xs, br, i);
      ContainsAtConcat(br, j, br, xs[i], off);
    }
    FramedAfter(xs, br, i);
    ContainsAtAdjacent(b, br, xs[i], off);
    ContainsAtAdjacent(b, br + xs[i], br, off);
  }
}
