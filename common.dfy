/** Small helpers shared by the ledger modules: an Option type, calendar days,
    order-preserving filtering, exact sums, and the two string operations the
    search boxes use (substring test and lower-casing). */
module Common {

  datatype Option<T> = None | Some(value: T) {
    function GetOr(default: T): T {
      match this
      case Some(v) => v
      case None => default
    }
  }

  /** A calendar date. The application keeps dates as "YYYY-MM-DD" strings;
      for those, string equality and time order are equality and order of the
      day number used here. */
  type Day = int

  // ---------------------------------------------------------------------------
  // Sublists and filtering

  /** `sub` is obtained from `s` by dropping elements, keeping the order. */
  predicate IsSubseq<T(==)>(sub: seq<T>, s: seq<T>)
  {
    if sub == [] then true
    else if s == [] then false
    else if sub[0] == s[0] then IsSubseq(sub[1..], s[1..])
    else IsSubseq(sub, s[1..])
  }

  /** `r` keeps, in order, exactly the elements of `s` that satisfy `p`, each as
      often as it occurs in `s`. */
  ghost predicate Selects<T>(r: seq<T>, s: seq<T>, p: T -> bool)
  {
    IsSubseq(r, s) &&
    forall x | x in s :: multiset(r)[x] == if p(x) then multiset(s)[x] else 0
  }

  /** Array.prototype.filter. */
  function Filter<T(==)>(p: T -> bool, s: seq<T>): (r: seq<T>)
    ensures forall x | x in r :: x in s && p(x)
    ensures forall x | x in s && p(x) :: x in r
    ensures |r| <= |s|
  {
    if s == [] then []
    else if p(s[0]) then [s[0]] + Filter(p, s[1..])
    else Filter(p, s[1..])
  }

  /** Filtering keeps, in order, exactly the accepted elements. */
  lemma {:induction false} FilterSelects<T>(p: T -> bool, s: seq<T>)
    ensures Selects(Filter(p, s), s, p)
  {
    if s != [] {
      var rest := Filter(p, s[1..]);
      FilterSelects(p, s[1..]);
      assert s == [s[0]] + s[1..];
      if !p(s[0]) {
        assert rest == [] || rest[0] != s[0];
      }
    }
  }

  lemma {:induction false} SubseqRefl<T>(s: seq<T>)
    ensures IsSubseq(s, s)
  {
    if s != [] {
      SubseqRefl(s[1..]);
    }
  }

  /** Allowing one more element in front keeps a sublist a sublist. */
  lemma {:induction false} SubseqCons<T>(x: seq<T>, c: seq<T>)
    requires c != [] && IsSubseq(x, c[1..])
    ensures IsSubseq(x, c)
    decreases |c|, 0
  {
    if x != [] && x[0] == c[0] {
      SubseqDropHead(x, c[1..]);
    }
  }

  lemma {:induction false} SubseqDropHead<T>(a: seq<T>, c: seq<T>)
    requires a != [] && IsSubseq(a, c)
    ensures IsSubseq(a[1..], c)
    decreases |c|, 1
  {
    if a[0] == c[0] {
      SubseqCons(a[1..], c);
    } else {
      SubseqDropHead(a, c[1..]);
      SubseqCons(a[1..], c);
    }
  }

  lemma {:induction false} SubseqMembers<T>(a: seq<T>, b: seq<T>)
    requires IsSubseq(a, b)
    ensures forall x | x in a :: x in b
  {
    if a != [] {
      if a[0] == b[0] {
        SubseqMembers(a[1..], b[1..]);
        assert a == [a[0]] + a[1..];
      } else {
        SubseqMembers(a, b[1..]);
      }
    }
  }

  lemma {:induction false} SubseqTrans<T>(a: seq<T>, b: seq<T>, c: seq<T>)
    requires IsSubseq(a, b) && IsSubseq(b, c)
    ensures IsSubseq(a, c)
    decreases |c|
  {
    if a == [] {
    } else if b[0] == c[0] {
      if a[0] == b[0] {
        SubseqTrans(a[1..], b[1..], c[1..]);
      } else {
        SubseqTrans(a, b[1..], c[1..]);
        SubseqCons(a, c);
      }
    } else {
      SubseqTrans(a, b, c[1..]);
      SubseqCons(a, c);
    }
  }

  /** Filtering twice keeps what both predicates accept. */
  lemma {:induction false} SelectsTrans<T>(a: seq<T>, b: seq<T>, c: seq<T>, p: T -> bool, q: T -> bool)
    requires Selects(b, c, p) && Selects(a, b, q)
    ensures Selects(a, c, x => p(x) && q(x))
  {
    SubseqTrans(a, b, c);
    SubseqMembers(a, b);
    forall x | x in c ensures multiset(a)[x] == if p(x) && q(x) then multiset(c)[x] else 0 {
      if x !in b {
        assert x !in a;
      }
    }
  }

  /** The order in which two filters are applied does not matter. */
  lemma {:induction false} FilterCommutes<T>(p: T -> bool, q: T -> bool, s: seq<T>)
    ensures Filter(p, Filter(q, s)) == Filter(q, Filter(p, s))
  {
    if s != [] {
      FilterCommutes(p, q, s[1..]);
      var fq, fp := Filter(q, s), Filter(p, s);
      assert fq == if q(s[0]) then [s[0]] + Filter(q, s[1..]) else Filter(q, s[1..]);
      assert fp == if p(s[0]) then [s[0]] + Filter(p, s[1..]) else Filter(p, s[1..]);
      if q(s[0]) {
        assert fq[0] == s[0] && fq[1..] == Filter(q, s[1..]);
      }
      if p(s[0]) {
        assert fp[0] == s[0] && fp[1..] == Filter(p, s[1..]);
      }
    }
  }

  /** Filtering `[x] + s` is filtering `s`, with `x` in front when it is kept. */
  lemma FilterCons<T>(p: T -> bool, x: T, s: seq<T>)
    ensures Filter(p, [x] + s) == (if p(x) then [x] else []) + Filter(p, s)
  {
    assert ([x] + s)[1..] == s;
  }

  /** A filter that accepts every element returns its input. */
  lemma {:induction false} FilterKeepsAll<T>(p: T -> bool, s: seq<T>)
    requires forall x :: x in s ==> p(x)
    ensures Filter(p, s) == s
  {
    if s != [] {
      FilterKeepsAll(p, s[1..]);
    }
  }

  /** Filtering a concatenation filters each part. */
  lemma {:induction false} FilterConcat<T>(p: T -> bool, a: seq<T>, b: seq<T>)
    ensures Filter(p, a + b) == Filter(p, a) + Filter(p, b)
  {
    if a == [] {
      assert a + b == b;
    } else {
      var h, t := a[0], a[1..];
      var head := if p(h) then [h] else [];
      calc {
        Filter(p, a + b);
        { assert a + b == [h] + (t + b); }
        Filter(p, [h] + (t + b));
        { FilterCons(p, h, t + b); }
        head + Filter(p, t + b);
        { FilterConcat(p, t, b); }
        head + (Filter(p, t) + Filter(p, b));
        (head + Filter(p, t)) + Filter(p, b);
        { assert a == [h] + t; FilterCons(p, h, t); }
        Filter(p, a) + Filter(p, b);
      }
    }
  }

  /** Filtering out the one rejected element of `a + [x] + b`, when every
      other element is accepted, gives `a + b`; used for "remove by id" on a
      list with distinct ids. */
  lemma FilterDropOne<T>(p: T -> bool, a: seq<T>, x: T, b: seq<T>)
    requires forall y | y in a :: p(y)
    requires forall y | y in b :: p(y)
    requires !p(x)
    ensures Filter(p, a + [x] + b) == a + b
  {
    assert Filter(p, [x]) == [] by {
      assert [x] == [x] + [];
      FilterCons(p, x, []);
    }
    assert Filter(p, a + [x]) == a by {
      FilterConcat(p, a, [x]);
      FilterKeepsAll(p, a);
    }
    FilterConcat(p, a + [x], b);
    FilterKeepsAll(p, b);
  }

  // ---------------------------------------------------------------------------
  // Exact sums

  /** The sum of `f` over `s`, accumulated from the left as a forEach or
      reduce does. */
  function Sum<T>(f: T -> real, s: seq<T>): real
  {
    if s == [] then 0.0 else Sum(f, s[..|s| - 1]) + f(s[|s| - 1])
  }

  lemma {:induction false} SumConcat<T>(f: T -> real, a: seq<T>, b: seq<T>)
    ensures Sum(f, a + b) == Sum(f, a) + Sum(f, b)
    decreases |b|
  {
    if b == [] {
      assert a + b == a;
    } else {
      var n := |b| - 1;
      assert (a + b)[..|a + b| - 1] == a + b[..n];
      SumConcat(f, a, b[..n]);
    }
  }

  /** A sum of terms that are not negative is not negative. */
  lemma {:induction false} SumNonNegative<T>(f: T -> real, s: seq<T>)
    ensures (forall x | x in s :: f(x) >= 0.0) ==> Sum(f, s) >= 0.0
  {
    if s != [] && forall x | x in s :: f(x) >= 0.0 {
      SumNonNegative(f, s[..|s| - 1]);
      assert s[|s| - 1] in s;
    }
  }

  lemma SumSingle<T>(f: T -> real, x: T)
    ensures Sum(f, [x]) == f(x)
  {
    assert [x][..0] == [];
  }

  /** The sum does not depend on the order of the elements. */
  lemma {:induction false} SumPermutation<T>(f: T -> real, a: seq<T>, b: seq<T>)
    requires multiset(a) == multiset(b)
    ensures Sum(f, a) == Sum(f, b)
    decreases |a|
  {
    if a == [] {
      assert |b| == |multiset(b)| == 0;
    } else {
      var n := |a| - 1;
      var x := a[n];
      assert a == a[..n] + [x];
      assert x in multiset(b);
      var j :| 0 <= j < |b| && b[j] == x;
      var rest := b[..j] + b[j + 1..];
      assert b == b[..j] + [x] + b[j + 1..];
      assert multiset(rest) == multiset(b) - multiset{x};
      assert multiset(a[..n]) == multiset(a) - multiset{x};
      SumPermutation(f, a[..n], rest);
      SumConcat(f, b[..j] + [x], b[j + 1..]);
      SumConcat(f, b[..j], [x]);
      SumConcat(f, b[..j], b[j + 1..]);
      assert [x][..0] == [];
    }
  }

  /** Removing the element at index `i` removes exactly its contribution. */
  lemma {:induction false} SumRemoveAt<T>(f: T -> real, s: seq<T>, i: nat)
    requires i < |s|
    ensures Sum(f, s[..i] + s[i + 1..]) == Sum(f, s) - f(s[i])
  {
    var before, x, after := s[..i], s[i], s[i + 1..];
    assert s == before + [x] + after by {
      assert s == s[..i] + s[i..];
      assert s[i..] == [x] + after;
    }
    SumConcat(f, before + [x], after);
    SumConcat(f, before, [x]);
    SumConcat(f, before, after);
    SumSingle(f, x);
  }

  // ---------------------------------------------------------------------------
  // Text

  /** String.prototype.includes: `sub` occurs in `s` as a contiguous block. */
  predicate Contains(s: string, sub: string)
  {
    sub <= s || (s != [] && Contains(s[1..], sub))
  }

  lemma {:induction false} ContainsAt(s: string, sub: string, i: nat)
    requires i + |sub| <= |s| && s[i..i + |sub|] == sub
    ensures Contains(s, sub)
  {
    if i > 0 {
      assert s[1..][i - 1..i - 1 + |sub|] == s[i..i + |sub|];
      ContainsAt(s[1..], sub, i - 1);
    }
  }

  /** String.prototype.toLowerCase, for the letters A to Z. */
  function LowerChar(c: char): (r: char)
    ensures 'A' <= c <= 'Z' ==> 'a' <= r <= 'z' && r as int - c as int == 32
    ensures !('A' <= c <= 'Z') ==> r == c
  {
    if 'A' <= c <= 'Z' then (c as int + 32) as char else c
  }

  function Lower(s: string): (r: string)
    ensures |r| == |s| && forall i :: 0 <= i < |s| ==> r[i] == LowerChar(s[i])
  {
    if s == [] then [] else [LowerChar(s[0])] + Lower(s[1..])
  }
}
