/** Values and sequence vocabulary shared by every module of the notification engine. */
module Base {

  datatype Option<+T> = None | Some(value: T)

  /** The outcome of an operation that throws in the source: `Err` carries the error's message. */
  datatype Result<+T> = Ok(value: T) | Err(error: string)

  // ---------------------------------------------------------------------------
  // String.prototype.toLowerCase, restricted to ASCII letters

  function LowerChar(c: char): (r: char)
    ensures 'A' <= c <= 'Z' ==> r as int == c as int + 32
    ensures !('A' <= c <= 'Z') ==> r == c
    ensures !('A' <= r <= 'Z')
  {
    if 'A' <= c <= 'Z' then (c as int + 32) as char else c
  }

  function Lower(s: string): (r: string)
    ensures |r| == |s|
    ensures forall i :: 0 <= i < |s| ==> r[i] == LowerChar(s[i])
  {
    seq(|s|, i requires 0 <= i < |s| => LowerChar(s[i]))
  }

  lemma LowerIdempotent(s: string)
    ensures Lower(Lower(s)) == Lower(s)
  {
  }

  /** `xs.map(x => x.toLowerCase())` */
  function LowerAll(xs: seq<string>): (r: seq<string>)
    ensures |r| == |xs|
    ensures forall i :: 0 <= i < |xs| ==> r[i] == Lower(xs[i])
  {
    seq(|xs|, i requires 0 <= i < |xs| => Lower(xs[i]))
  }

  // ---------------------------------------------------------------------------
  // Order-preserving selection (Array.prototype.filter)

  /** `a` can be obtained from `b` by deleting elements: `a` is an order-preserving subsequence of `b`. */
  predicate Subseq<T(==)>(a: seq<T>, b: seq<T>)
    decreases |b|
  {
    a == [] || (b != [] && ((a[0] == b[0] && Subseq(a[1..], b[1..])) || Subseq(a, b[1..])))
  }

  lemma {:induction false} SubseqRefl<T>(s: seq<T>)
    ensures Subseq(s, s)
  {
    if s != [] {
      SubseqRefl(s[1..]);
    }
  }

  lemma {:induction false} SubseqTrans<T>(a: seq<T>, b: seq<T>, c: seq<T>)
    requires Subseq(a, b) && Subseq(b, c)
    ensures Subseq(a, c)
    decreases |c|
  {
    if a == [] {
    } else if c == [] {
    } else if b[0] == c[0] && Subseq(b[1..], c[1..]) {
      if a[0] == b[0] && Subseq(a[1..], b[1..]) {
        SubseqTrans(a[1..], b[1..], c[1..]);
      } else {
        SubseqTrans(a, b[1..], c[1..]);
      }
    } else {
      SubseqTrans(a, b, c[1..]);
    }
  }

  /** Deleting a whole prefix keeps a subsequence: the old part of a prepended list survives. */
  lemma {:induction false} SubseqSuffix<T>(a: seq<T>, b: seq<T>)
    ensures Subseq(b, a + b)
    decreases |a|
  {
    if a == [] {
      assert a + b == b;
      SubseqRefl(b);
    } else {
      assert (a + b)[1..] == a[1..] + b;
      SubseqSuffix(a[1..], b);
    }
  }

  /** A subsequence keeps the relative order of elements: everything in it comes from `b`. */
  lemma {:induction false} SubseqMembers<T>(a: seq<T>, b: seq<T>, x: T)
    requires Subseq(a, b) && x in a
    ensures x in b
    decreases |b|
  {
    if a[0] == b[0] && Subseq(a[1..], b[1..]) {
      if x != a[0] {
        assert x in a[1..];
        SubseqMembers(a[1..], b[1..], x);
      }
    } else {
      SubseqMembers(a, b[1..], x);
    }
  }

  function Filter<T(==)>(p: T -> bool, s: seq<T>): (r: seq<T>)
    ensures |r| <= |s|
    ensures forall i :: 0 <= i < |r| ==> p(r[i])
    ensures forall i :: 0 <= i < |r| ==> r[i] in s
    ensures forall i :: 0 <= i < |s| && p(s[i]) ==> s[i] in r
    ensures Subseq(r, s)
  {
    if s == [] then []
    else
      var rest := Filter(p, s[1..]);
      assert s == [s[0]] + s[1..];
      if p(s[0]) then
        assert ([s[0]] + rest)[1..] == rest;
        [s[0]] + rest
      else
        rest
  }

  lemma {:induction false} FilterAppend<T>(p: T -> bool, a: seq<T>, b: seq<T>)
    ensures Filter(p, a + b) == Filter(p, a) + Filter(p, b)
    decreases |a|
  {
    if a == [] {
      assert a + b == b;
    } else {
      assert (a + b)[1..] == a[1..] + b;
      FilterAppend(p, a[1..], b);
    }
  }

  /** One more element of `s` adds that element to the selection exactly when it passes. */
  lemma FilterStep<T>(p: T -> bool, s: seq<T>, i: nat)
    requires i < |s|
    ensures Filter(p, s[..i + 1]) == Filter(p, s[..i]) + (if p(s[i]) then [s[i]] else [])
  {
    assert s[..i + 1] == s[..i] + [s[i]];
    FilterAppend(p, s[..i], [s[i]]);
    assert [s[i]][1..] == [];
  }

  /** A weaker selection keeps everything a stronger one keeps, in the same order. */
  lemma {:induction false} FilterWeaker<T>(p: T -> bool, q: T -> bool, s: seq<T>)
    requires forall x :: p(x) ==> q(x)
    ensures Subseq(Filter(p, s), Filter(q, s))
  {
    if s != [] {
      FilterWeaker(p, q, s[1..]);
      var fp, fq := Filter(p, s[1..]), Filter(q, s[1..]);
      if p(s[0]) {
        assert ([s[0]] + fp)[1..] == fp && ([s[0]] + fq)[1..] == fq;
      } else if q(s[0]) {
        SubseqSuffix([s[0]], fq);
        SubseqTrans(fp, fq, [s[0]] + fq);
      }
    }
  }

  /** Two complementary selections split a sequence: every element lands in exactly one part. */
  lemma {:induction false} FilterSplit<T>(p: T -> bool, q: T -> bool, s: seq<T>)
    requires forall x :: q(x) == !p(x)
    ensures |Filter(p, s)| + |Filter(q, s)| == |s|
  {
    if s != [] {
      FilterSplit(p, q, s[1..]);
    }
  }

  lemma {:induction false} FilterAll<T>(p: T -> bool, s: seq<T>)
    requires forall i :: 0 <= i < |s| ==> p(s[i])
    ensures Filter(p, s) == s
  {
    if s != [] {
      FilterAll(p, s[1..]);
      assert s == [s[0]] + s[1..];
    }
  }

  function Count<T(==)>(p: T -> bool, s: seq<T>): (n: nat)
    ensures n <= |s|
  {
    |Filter(p, s)|
  }

  lemma CountAppend<T>(p: T -> bool, a: seq<T>, b: seq<T>)
    ensures Count(p, a + b) == Count(p, a) + Count(p, b)
  {
    FilterAppend(p, a, b);
  }

  /** No element satisfies `p` exactly when the count is zero. */
  lemma {:induction false} CountZero<T>(p: T -> bool, s: seq<T>)
    ensures Count(p, s) == 0 <==> forall i :: 0 <= i < |s| ==> !p(s[i])
  {
    if s != [] {
      CountZero(p, s[1..]);
      assert forall i :: 1 <= i < |s| ==> s[i] == s[1..][i - 1];
    }
  }

  // ---------------------------------------------------------------------------
  // Array.prototype.slice(0, end)

  /** The end index `slice(0, end)` uses on a list of `len` elements: a negative `end` counts from the back. */
  function SliceEnd(len: nat, end: int): (k: nat)
    ensures k <= len
    ensures 0 <= end ==> k == if end < len then end else len
    ensures end < 0 ==> k == if len + end < 0 then 0 else len + end
  {
    if end < 0 then (if len + end < 0 then 0 else len + end)
    else if end < len then end
    else len
  }

  /** `s.slice(0, end)`: always a prefix of `s`. */
  function Slice<T>(s: seq<T>, end: int): (r: seq<T>)
    ensures r <= s
    ensures |r| == SliceEnd(|s|, end)
  {
    s[..SliceEnd(|s|, end)]
  }

  lemma SlicePrefixOfPrepend<T>(a: seq<T>, b: seq<T>, end: int)
    ensures var r := Slice(a + b, end);
      |r| <= |a| ==> r == a[..|r|]
    ensures var r := Slice(a + b, end);
      |r| > |a| ==> r == a + b[..|r| - |a|]
  {
  }

  function MapSeq<A, B>(f: A -> B, s: seq<A>): (r: seq<B>)
    ensures |r| == |s|
    ensures forall i :: 0 <= i < |s| ==> r[i] == f(s[i])
  {
    seq(|s|, i requires 0 <= i < |s| => f(s[i]))
  }

  /** Transforming the kept elements keeps them in the order of the transformed input. */
  lemma {:induction false} MapFilterSubseq<A, B>(f: A -> B, p: A -> bool, s: seq<A>)
    ensures Subseq(MapSeq(f, Filter(p, s)), MapSeq(f, s))
  {
    if s != [] {
      MapFilterSubseq(f, p, s[1..]);
      var rest := MapSeq(f, Filter(p, s[1..]));
      var ms := MapSeq(f, s);
      assert ms[1..] == MapSeq(f, s[1..]);
      if p(s[0]) {
        assert Filter(p, s) == [s[0]] + Filter(p, s[1..]);
        assert MapSeq(f, Filter(p, s))[1..] == rest;
      } else {
        assert Filter(p, s) == Filter(p, s[1..]);
      }
    }
  }

  /** A prefix of a subsequence is again a subsequence. */
  lemma {:induction false} SubseqPrefix<T>(a: seq<T>, k: nat, b: seq<T>)
    requires Subseq(a, b) && k <= |a|
    ensures Subseq(a[..k], b)
    decreases |b|
  {
    if k > 0 {
      if a[0] == b[0] && Subseq(a[1..], b[1..]) {
        SubseqPrefix(a[1..], k - 1, b[1..]);
        assert a[..k][1..] == a[1..][..k - 1];
      } else {
        SubseqPrefix(a, k, b[1..]);
      }
    }
  }

  lemma MapSeqAppend<A, B>(f: A -> B, a: seq<A>, b: seq<A>)
    ensures MapSeq(f, a + b) == MapSeq(f, a) + MapSeq(f, b)
  {
  }
}
