/**
 * Generic sequence vocabulary shared by the text cleaner and the chat graph:
 * subsequences, filtering, reversal, concatenation of pieces and joining with
 * a separator (Python's `sep.join(parts)`).
 */
module Sequences {

  /** `a` is obtained from `b` by deleting elements, keeping the order of the rest. */
  predicate IsSubsequence<T(==)>(a: seq<T>, b: seq<T>)
    decreases |b|
  {
    a == [] || (b != [] && ((a[0] == b[0] && IsSubsequence(a[1..], b[1..])) || IsSubsequence(a, b[1..])))
  }

  /** Dropping a prefix of the larger sequence keeps the relation. */
  lemma {:induction false} SubsequenceOfSuffix<T>(a: seq<T>, b: seq<T>, k: nat)
    requires k <= |b| && IsSubsequence(a, b[k..])
    ensures IsSubsequence(a, b)
    decreases k
  {
    if k > 0 {
      assert b[1..][k - 1..] == b[k..];
      SubsequenceOfSuffix(a, b[1..], k - 1);
    }
  }

  lemma {:induction false} SubsequenceLength<T>(a: seq<T>, b: seq<T>)
    requires IsSubsequence(a, b)
    ensures |a| <= |b|
    decreases |b|
  {
    if a != [] {
      if a[0] == b[0] && IsSubsequence(a[1..], b[1..]) {
        SubsequenceLength(a[1..], b[1..]);
      } else {
        SubsequenceLength(a, b[1..]);
      }
    }
  }

  /** Every element of a subsequence is an element of the whole. */
  lemma {:induction false} SubsequenceMembers<T>(a: seq<T>, b: seq<T>)
    requires IsSubsequence(a, b)
    ensures forall x :: x in a ==> x in b
    decreases |b|
  {
    if a != [] {
      if a[0] == b[0] && IsSubsequence(a[1..], b[1..]) {
        SubsequenceMembers(a[1..], b[1..]);
        assert a == [a[0]] + a[1..];
      } else {
        SubsequenceMembers(a, b[1..]);
      }
    }
  }

  lemma {:induction false} SubsequenceTransitive<T>(a: seq<T>, b: seq<T>, c: seq<T>)
    requires IsSubsequence(a, b) && IsSubsequence(b, c)
    ensures IsSubsequence(a, c)
    decreases |c|
  {
    if a != [] {
      if b[0] == c[0] && IsSubsequence(b[1..], c[1..]) {
        if a[0] == b[0] && IsSubsequence(a[1..], b[1..]) {
          SubsequenceTransitive(a[1..], b[1..], c[1..]);
        } else {
          SubsequenceTransitive(a, b[1..], c[1..]);
        }
      } else {
        SubsequenceTransitive(a, b, c[1..]);
      }
    }
  }

  /** The elements of `s` that satisfy `p`, in their original order (a list comprehension with a guard). */
  function Filter<T>(p: T -> bool, s: seq<T>): (r: seq<T>)
    ensures |r| <= |s|
    decreases |s|
  {
    if |s| == 0 then []
    else
      var rest := Filter(p, s[1..]);
      if p(s[0]) then [s[0]] + rest else rest
  }

  /** Filtering a sequence with a known first element. */
  lemma FilterCons<T>(p: T -> bool, x: T, s: seq<T>)
    ensures Filter(p, [x] + s) == if p(x) then [x] + Filter(p, s) else Filter(p, s)
  {
    assert ([x] + s)[1..] == s;
  }

  /**
   * Two kept elements with only rejected ones between them: the filter
   * keeps the pair and goes on after the second.
   */
  lemma FilterSkip<T>(p: T -> bool, a: T, t: seq<T>, k: nat)
    requires k < |t| && p(a) && p(t[k])
    requires forall i :: 0 <= i < k ==> !p(t[i])
    ensures Filter(p, [a] + t) == [a, t[k]] + Filter(p, t[k + 1..])
  {
    FilterCons(p, a, t);
    FilterFirstKept(p, t, k);
    ConsPair(a, t[k], Filter(p, t[k + 1..]));
  }

  /** The head, the element `k` after it and what follows that element. */
  lemma HeadAndTail<T>(s: seq<T>, k: nat)
    requires 1 + k < |s|
    ensures s == [s[0]] + s[1..] && s[1..][k] == s[1 + k] && s[1..][k + 1..] == s[2 + k..]
  {
  }

  lemma ConsPair<T>(a: T, b: T, s: seq<T>)
    ensures [a] + ([b] + s) == [a, b] + s
  {
    assert [a] + [b] == [a, b];
    AppendAssociative([a], [b], s);
  }

  /** After rejected elements only, the first kept element heads the filter. */
  lemma FilterFirstKept<T>(p: T -> bool, t: seq<T>, k: nat)
    requires k < |t| && p(t[k])
    requires forall i :: 0 <= i < k ==> !p(t[i])
    ensures Filter(p, t) == [t[k]] + Filter(p, t[k + 1..])
  {
    FilterDropRejected(p, t, k);
    assert t[k..] == [t[k]] + t[k + 1..];
    FilterCons(p, t[k], t[k + 1..]);
  }

  /** Two kept elements in front of `rest` survive the filter. */
  lemma FilterPair<T>(p: T -> bool, a: T, b: T, rest: seq<T>)
    requires p(a) && p(b)
    ensures Filter(p, [a, b] + rest) == [a, b] + Filter(p, rest)
  {
    ConsPair(a, b, rest);
    FilterCons(p, a, [b] + rest);
    FilterCons(p, b, rest);
  }

  /** A prefix of rejected elements contributes nothing. */
  lemma {:induction false} FilterDropRejected<T>(p: T -> bool, s: seq<T>, k: nat)
    requires k <= |s|
    requires forall i :: 0 <= i < k ==> !p(s[i])
    ensures Filter(p, s) == Filter(p, s[k..])
    decreases k
  {
    if k > 0 {
      assert s[1..][k - 1..] == s[k..];
      FilterDropRejected(p, s[1..], k - 1);
    }
  }

  /** Exactly the elements of `s` that satisfy `p` are elements of the result. */
  /** Every element the filter keeps satisfies the predicate. */
  lemma {:induction false} FilterKept<T>(p: T -> bool, s: seq<T>)
    ensures forall i :: 0 <= i < |Filter(p, s)| ==> p(Filter(p, s)[i])
    decreases |s|
  {
    if s != [] {
      FilterKept(p, s[1..]);
    }
  }

  lemma {:induction false} FilterMembers<T>(p: T -> bool, s: seq<T>)
    ensures forall x :: x in Filter(p, s) <==> x in s && p(x)
    decreases |s|
  {
    if s != [] {
      FilterMembers(p, s[1..]);
      assert s == [s[0]] + s[1..];
    }
  }

  lemma {:induction false} FilterIsSubsequence<T(!new)>(p: T -> bool, s: seq<T>)
    ensures IsSubsequence(Filter(p, s), s)
    decreases |s|
  {
    if s != [] {
      FilterIsSubsequence(p, s[1..]);
      if p(s[0]) {
        assert Filter(p, s)[1..] == Filter(p, s[1..]);
      }
    }
  }

  /** Each kept value occurs as often as before; each dropped value does not occur. */
  lemma {:induction false} FilterCount<T(!new)>(p: T -> bool, s: seq<T>, x: T)
    ensures multiset(Filter(p, s))[x] == if p(x) then multiset(s)[x] else 0
    decreases |s|
  {
    if s != [] {
      FilterCount(p, s[1..], x);
      assert s == [s[0]] + s[1..];
    }
  }

  lemma {:induction false} FilterAppend<T(!new)>(p: T -> bool, a: seq<T>, b: seq<T>)
    ensures Filter(p, a + b) == Filter(p, a) + Filter(p, b)
    decreases |a|
  {
    if a != [] {
      assert (a + b)[0] == a[0] && (a + b)[1..] == a[1..] + b;
      FilterAppend(p, a[1..], b);
    } else {
      assert a + b == b;
    }
  }

  /** Filtering keeps a sequence all of whose elements pass, and only such a sequence. */
  lemma {:induction false} FilterUnchanged<T(!new)>(p: T -> bool, s: seq<T>)
    ensures Filter(p, s) == s <==> forall i :: 0 <= i < |s| ==> p(s[i])
    decreases |s|
  {
    if s != [] {
      FilterUnchanged(p, s[1..]);
      if !p(s[0]) {
        assert |Filter(p, s)| < |s|;
      }
    }
  }

  /** Filtering by `q` first changes nothing when `p` already implies `q`. */
  lemma {:induction false} FilterRedundant<T(!new)>(p: T -> bool, q: T -> bool, s: seq<T>)
    requires forall x :: p(x) ==> q(x)
    ensures Filter(p, Filter(q, s)) == Filter(p, s)
    decreases |s|
  {
    if s != [] {
      FilterRedundant(p, q, s[1..]);
      if q(s[0]) {
        assert Filter(q, s) == [s[0]] + Filter(q, s[1..]);
        assert Filter(q, s)[1..] == Filter(q, s[1..]);
      }
    }
  }

  lemma AppendAssociative<T>(a: seq<T>, b: seq<T>, c: seq<T>)
    ensures a + (b + c) == a + b + c
  {
  }

  /** `s` read back to front (Python's `s[::-1]`). */
  function Reverse<T>(s: seq<T>): (r: seq<T>)
    ensures |r| == |s|
    ensures forall i :: 0 <= i < |s| ==> r[i] == s[|s| - 1 - i]
    decreases |s|
  {
    if s == [] then [] else Reverse(s[1..]) + [s[0]]
  }

  lemma ReverseInvolution<T>(s: seq<T>)
    ensures Reverse(Reverse(s)) == s
  {
  }

  /** The pieces laid end to end (Python's `"".join(parts)`). */
  function Flatten<T>(parts: seq<seq<T>>): (r: seq<T>)
    decreases |parts|
  {
    if parts == [] then [] else parts[0] + Flatten(parts[1..])
  }

  lemma {:induction false} FlattenAppend<T>(a: seq<seq<T>>, b: seq<seq<T>>)
    ensures Flatten(a + b) == Flatten(a) + Flatten(b)
    decreases |a|
  {
    if a != [] {
      assert (a + b)[0] == a[0] && (a + b)[1..] == a[1..] + b;
      FlattenAppend(a[1..], b);
    } else {
      assert a + b == b;
    }
  }

  /** The pieces with `sep` between each neighbouring pair (Python's `sep.join(parts)`). */
  function Join<T>(sep: seq<T>, parts: seq<seq<T>>): (r: seq<T>)
    decreases |parts|
  {
    if |parts| == 0 then []
    else if |parts| == 1 then parts[0]
    else parts[0] + sep + Join(sep, parts[1..])
  }

  /** Where the `k`-th piece starts inside `Join(sep, parts)`. */
  function Offset<T>(sep: seq<T>, parts: seq<seq<T>>, k: nat): nat
    requires k <= |parts|
    decreases k
  {
    if k == 0 then 0 else |parts[0]| + |sep| + Offset(sep, parts[1..], k - 1)
  }

  lemma {:induction false} OffsetNext<T>(sep: seq<T>, parts: seq<seq<T>>, k: nat)
    requires k < |parts|
    ensures Offset(sep, parts, k + 1) == Offset(sep, parts, k) + |parts[k]| + |sep|
    decreases k
  {
    if k > 0 {
      OffsetNext(sep, parts[1..], k - 1);
    }
  }

  lemma SliceOfSuffix<T>(j: seq<T>, head: nat, rest: seq<T>, lo: nat, hi: nat)
    requires head <= |j| && j[head..] == rest && lo <= hi <= |rest|
    ensures j[head + lo .. head + hi] == rest[lo .. hi]
  {
    forall i | 0 <= i < hi - lo
      ensures j[head + lo .. head + hi][i] == rest[lo .. hi][i]
    {
      assert j[head + lo + i] == j[head..][lo + i];
    }
  }

  /** Every piece sits unchanged at its offset inside the join, and the last one ends it. */
  lemma {:induction false} JoinPiece<T>(sep: seq<T>, parts: seq<seq<T>>, k: nat)
    requires k < |parts|
    ensures Offset(sep, parts, k) + |parts[k]| <= |Join(sep, parts)|
    ensures Join(sep, parts)[Offset(sep, parts, k) .. Offset(sep, parts, k) + |parts[k]|] == parts[k]
    ensures k + 1 == |parts| ==> Offset(sep, parts, k) + |parts[k]| == |Join(sep, parts)|
    decreases k
  {
    if |parts| > 1 {
      var j := Join(sep, parts);
      var rest := Join(sep, parts[1..]);
      var head := |parts[0]| + |sep|;
      assert j == parts[0] + sep + rest;
      if k == 0 {
        assert j[..|parts[0]|] == parts[0];
      } else {
        assert j[head..] == rest;
        JoinPiece(sep, parts[1..], k - 1);
        var o := Offset(sep, parts[1..], k - 1);
        assert parts[1..][k - 1] == parts[k];
        SliceOfSuffix(j, head, rest, o, o + |parts[k]|);
      }
    }
  }

  /** Between each piece and the next there is exactly one copy of `sep`. */
  lemma {:induction false} JoinSeparator<T>(sep: seq<T>, parts: seq<seq<T>>, k: nat)
    requires k + 1 < |parts|
    ensures Offset(sep, parts, k + 1) == Offset(sep, parts, k) + |parts[k]| + |sep| <= |Join(sep, parts)|
    ensures Join(sep, parts)[Offset(sep, parts, k) + |parts[k]| .. Offset(sep, parts, k + 1)] == sep
    decreases k
  {
    OffsetNext(sep, parts, k);
    var j := Join(sep, parts);
    var rest := Join(sep, parts[1..]);
    var head := |parts[0]| + |sep|;
    assert j == parts[0] + sep + rest;
    if k == 0 {
      assert j[|parts[0]|..head] == sep;
    } else {
      assert j[head..] == rest;
      JoinSeparator(sep, parts[1..], k - 1);
      var o := Offset(sep, parts[1..], k - 1);
      assert parts[1..][k - 1] == parts[k];
      SliceOfSuffix(j, head, rest, o + |parts[k]|, o + |parts[k]| + |sep|);
    }
  }
}
