/** String building blocks shared by the template builders: concatenation of
    a list of segments, `Array.prototype.join`, `Array.prototype.slice(0, n)`,
    and "occurs verbatim at position k". */
module Text {

  /** `sub` occurs verbatim in `s`, starting at index `k`. */
  predicate OccursAt(sub: string, s: string, k: nat)
  {
    k + |sub| <= |s| && s[k..k + |sub|] == sub
  }

  /** `sub` occurs verbatim somewhere in `s`. */
  predicate IsInfix(sub: string, s: string)
  {
    exists k: nat | k <= |s| :: OccursAt(sub, s, k)
  }

  /** `sub` is the tail of `s`. */
  predicate EndsWith(s: string, sub: string)
  {
    |sub| <= |s| && s[|s| - |sub|..] == sub
  }

  lemma SliceOfConcat(a: string, b: string, c: string)
    ensures OccursAt(b, a + b + c, |a|)
  {
    var s := a + b + c;
    assert forall k | 0 <= k < |b| :: s[|a|..|a| + |b|][k] == b[k];
  }

  /** An occurrence stays an occurrence, shifted, inside a larger text. */
  lemma OccursInContext(sub: string, s: string, k: nat, pre: string, post: string)
    requires OccursAt(sub, s, k)
    ensures OccursAt(sub, pre + s + post, |pre| + k)
  {
    assert (pre + s + post)[|pre| + k..|pre| + k + |sub|] == s[k..k + |sub|];
  }

  /** The concatenation of a list of template segments, in order
      (a template literal is such a list of literals and substitutions). */
  function Concat(parts: seq<string>): string
  {
    if parts == [] then "" else parts[0] + Concat(parts[1..])
  }

  /** Where segment `i` starts in `Concat(parts)`. */
  function PartOffset(parts: seq<string>, i: nat): (k: nat)
    requires i <= |parts|
    ensures k <= |Concat(parts)|
  {
    assert parts == parts[..i] + parts[i..];
    ConcatAppend(parts[..i], parts[i..]);
    |Concat(parts[..i])|
  }

  lemma {:induction false} ConcatAppend(a: seq<string>, b: seq<string>)
    ensures Concat(a + b) == Concat(a) + Concat(b)
  {
    if a == [] {
      assert a + b == b;
    } else {
      assert (a + b)[1..] == a[1..] + b;
      ConcatAppend(a[1..], b);
    }
  }

  /** Splitting the segment list around segment `i` splits the text the same way. */
  lemma ConcatAround(parts: seq<string>, i: nat)
    requires i < |parts|
    ensures Concat(parts) == Concat(parts[..i]) + parts[i] + Concat(parts[i + 1..])
  {
    assert parts == parts[..i] + parts[i..];
    ConcatAppend(parts[..i], parts[i..]);
    assert parts[i..][1..] == parts[i + 1..];
  }

  /** Every segment occurs verbatim in the concatenation, at its offset. */
  lemma PartOccurs(parts: seq<string>, i: nat)
    requires i < |parts|
    ensures OccursAt(parts[i], Concat(parts), PartOffset(parts, i))
  {
    ConcatAround(parts, i);
    SliceOfConcat(Concat(parts[..i]), parts[i], Concat(parts[i + 1..]));
  }

  /** Segments appear in list order: segment `i` ends before segment `j` starts. */
  lemma PartsInOrder(parts: seq<string>, i: nat, j: nat)
    requires i < j <= |parts|
    ensures PartOffset(parts, i) + |parts[i]| <= PartOffset(parts, j)
  {
    var pj := parts[..j];
    assert pj[..i] == parts[..i];
    ConcatAround(pj, i);
  }

  /** The last segment is the tail of the concatenation. */
  lemma LastPartEnds(parts: seq<string>)
    requires |parts| > 0
    ensures EndsWith(Concat(parts), parts[|parts| - 1])
  {
    var n := |parts| - 1;
    ConcatAround(parts, n);
    assert parts[n + 1..] == [];
  }

  /** The first segment is a prefix of the concatenation. */
  lemma FirstPartStarts(parts: seq<string>)
    requires |parts| > 0
    ensures parts[0] <= Concat(parts)
  {
  }

  /** Filling an empty segment with `s` inserts exactly `s` at that segment's
      offset and changes nothing else. */
  lemma FillEmptyPart(parts: seq<string>, i: nat, s: string)
    requires i < |parts| && parts[i] == ""
    ensures Concat(parts[i := s]) ==
            Concat(parts)[..PartOffset(parts, i)] + s + Concat(parts)[PartOffset(parts, i)..]
  {
    var filled := parts[i := s];
    ConcatAround(parts, i);
    ConcatAround(filled, i);
    assert filled[..i] == parts[..i];
    assert filled[i + 1..] == parts[i + 1..];
    var a, c := Concat(parts[..i]), Concat(parts[i + 1..]);
    assert Concat(parts) == a + c;
    assert (a + c)[..|a|] == a;
    assert (a + c)[|a|..] == c;
  }

  /** `Array.prototype.join(sep)` on an array of strings. */
  function Join(sep: string, xs: seq<string>): string
  {
    if |xs| == 0 then ""
    else if |xs| == 1 then xs[0]
    else xs[0] + sep + Join(sep, xs[1..])
  }

  /** `Array.prototype.slice(0, n)`: the first `n` elements, or all of them. */
  function Take<T>(xs: seq<T>, n: nat): (r: seq<T>)
    ensures |r| == if |xs| <= n then |xs| else n
    ensures r <= xs
  {
    if |xs| <= n then xs else xs[..n]
  }

  /** Joining splits at every element boundary. */
  lemma {:induction false} JoinSplit(sep: string, xs: seq<string>, i: nat)
    requires 0 < i < |xs|
    ensures Join(sep, xs) == Join(sep, xs[..i]) + sep + Join(sep, xs[i..])
  {
    if i == 1 {
      assert xs[..1] == [xs[0]];
      assert xs[1..] == xs[i..];
    } else {
      var tail := xs[1..];
      JoinSplit(sep, tail, i - 1);
      assert tail[..i - 1] == xs[..i][1..];
      assert tail[i - 1..] == xs[i..];
      assert |xs[..i]| == i;
    }
  }

  /** Where element `i` starts in `Join(sep, xs)`. */
  function JoinOffset(sep: string, xs: seq<string>, i: nat): nat
    requires i <= |xs|
  {
    if i == 0 then 0 else |Join(sep, xs[..i])| + |sep|
  }

  /** Every element occurs verbatim in the joined text, at its offset. */
  lemma JoinElementOccurs(sep: string, xs: seq<string>, i: nat)
    requires i < |xs|
    ensures OccursAt(xs[i], Join(sep, xs), JoinOffset(sep, xs, i))
  {
    var rest := Join(sep, xs[i..]);
    assert xs[i] <= rest by {
      if |xs[i..]| > 1 {
        assert xs[i..][1..] == xs[i + 1..];
      }
    }
    if i == 0 {
      assert xs[0..] == xs;
      SliceOfConcat("", xs[0], rest[|xs[0]|..]);
      assert "" + xs[0] + rest[|xs[0]|..] == rest;
    } else {
      JoinSplit(sep, xs, i);
      var pre := Join(sep, xs[..i]) + sep;
      SliceOfConcat(pre, xs[i], rest[|xs[i]|..]);
      assert pre + xs[i] + rest[|xs[i]|..] == Join(sep, xs);
    }
  }

  /** Elements appear in order: element `i` ends (and a separator follows)
      before element `i + 1` starts. */
  lemma JoinNextOffset(sep: string, xs: seq<string>, i: nat)
    requires i + 1 < |xs|
    ensures JoinOffset(sep, xs, i) + |xs[i]| + |sep| == JoinOffset(sep, xs, i + 1)
  {
    var p := xs[..i + 1];
    if i == 0 {
      assert p == [xs[0]];
    } else {
      JoinSplit(sep, p, i);
      assert p[..i] == xs[..i];
      assert p[i..] == [xs[i]];
    }
  }

  /** The separator follows every element but the last. */
  lemma JoinSeparatorOccurs(sep: string, xs: seq<string>, i: nat)
    requires i + 1 < |xs|
    ensures OccursAt(sep, Join(sep, xs), JoinOffset(sep, xs, i) + |xs[i]|)
  {
    JoinSplit(sep, xs, i + 1);
    JoinNextOffset(sep, xs, i);
    SliceOfConcat(Join(sep, xs[..i + 1]), sep, Join(sep, xs[i + 1..]));
  }

  /** The joined text ends right after its last element. */
  lemma JoinLength(sep: string, xs: seq<string>)
    requires |xs| > 0
    ensures |Join(sep, xs)| == JoinOffset(sep, xs, |xs| - 1) + |xs[|xs| - 1]|
  {
    var n := |xs| - 1;
    if n > 0 {
      JoinSplit(sep, xs, n);
      assert xs[n..] == [xs[n]];
    }
  }
}
