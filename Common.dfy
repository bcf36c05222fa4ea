/** Vocabulary shared by the four ledgers: optional values, the abstract date of a
    movement, and the combinators the hooks and pages use on lists
    (`reduce`, `filter`, `find`, `findIndex`, `map`). */
module Common {

  datatype Option<T> = None | Some(value: T)

  /** Row identifiers are generated by the store; the model only compares them. */
  type Id = string

  /** A timestamp seen through `getMonth()` (0..11) and `getFullYear()`. */
  datatype Data = Data(mes: int, ano: int)

  /** The month filter of the reports: month and year both match. */
  predicate NoPeriodo(d: Data, mes: int, ano: int) {
    d.mes == mes && d.ano == ano
  }

  /** Chronological order of two abstract dates (year first, then month). */
  predicate DataLe(a: Data, b: Data) {
    a.ano < b.ano || (a.ano == b.ano && a.mes <= b.mes)
  }

  function Max(a: int, b: int): (r: int)
    ensures r >= a && r >= b && (r == a || r == b)
  {
    if a >= b then a else b
  }

  /** `Math.abs` on integers. */
  function Abs(x: int): (r: nat)
    ensures r == x || r == -x
  {
    if x < 0 then -x else x
  }

  /** `x || null` / `x || undefined` on an optional text: an empty text counts as absent. */
  function Normaliza(o: Option<string>): (r: Option<string>)
    ensures r.Some? <==> o.Some? && o.value != ""
    ensures r.Some? ==> r == o
  {
    if o.Some? && o.value != "" then o else None
  }

  /** `parseInt(x) || 0` on an already parsed value: NaN (None) and 0 both give 0. */
  function OuZero(o: Option<int>): (r: int)
    ensures o.Some? ==> r == o.value
    ensures o.None? ==> r == 0
  {
    if o.Some? then o.value else 0
  }

  /** `s.reduce((acc, x) => acc + f(x), 0)`: a left fold, so the last element is added last. */
  function SumBy<T>(s: seq<T>, f: T -> int): int
  {
    if s == [] then 0 else SumBy(s[..|s| - 1], f) + f(s[|s| - 1])
  }

  /** `s.filter(p)`, keeping the order of `s`. */
  function Filter<T>(s: seq<T>, p: T -> bool): (r: seq<T>)
    ensures |r| <= |s|
    ensures forall i :: 0 <= i < |r| ==> r[i] in s && p(r[i])
    ensures forall i :: 0 <= i < |s| && p(s[i]) ==> s[i] in r
  {
    if s == [] then []
    else Filter(s[..|s| - 1], p) + (if p(s[|s| - 1]) then [s[|s| - 1]] else [])
  }

  /** `s.filter(p).length`. */
  function Count<T>(s: seq<T>, p: T -> bool): nat {
    |Filter(s, p)|
  }

  /** `s.map(f)`. */
  function Map<A, B>(s: seq<A>, f: A -> B): (r: seq<B>)
    ensures |r| == |s|
  {
    seq(|s|, i requires 0 <= i < |s| => f(s[i]))
  }

  /** `s.findIndex(x => chave(x) === id)`: the position of the first element with that key. */
  function Localiza<T>(s: seq<T>, chave: T -> Id, id: Id): (r: Option<nat>)
    ensures r.Some? ==> r.value < |s| && chave(s[r.value]) == id
    ensures r.Some? ==> forall j :: 0 <= j < r.value ==> chave(s[j]) != id
    ensures r.None? <==> forall j :: 0 <= j < |s| ==> chave(s[j]) != id
  {
    if s == [] then None
    else if chave(s[0]) == id then Some(0)
    else match Localiza(s[1..], chave, id)
         case None => None
         case Some(k) => Some(k + 1)
  }

  /** Some element carries the key `id`. */
  predicate TemChave<T>(s: seq<T>, chave: T -> Id, id: Id) {
    exists i :: 0 <= i < |s| && chave(s[i]) == id
  }

  /** No two elements share a key: the primary key of a table. */
  predicate ChavesUnicas<T>(s: seq<T>, chave: T -> Id) {
    forall i, j :: 0 <= i < j < |s| ==> chave(s[i]) != chave(s[j])
  }

  /** With unique keys, the element found is the only one with its key. */
  lemma LocalizaUnica<T>(s: seq<T>, chave: T -> Id, id: Id, i: nat)
    requires ChavesUnicas(s, chave)
    requires i < |s| && chave(s[i]) == id
    ensures Localiza(s, chave, id) == Some(i)
    ensures forall j :: 0 <= j < |s| && j != i ==> chave(s[j]) != id
  {
  }

  /** Removing elements keeps the keys of the rest unique. */
  lemma FilterMantemChaves<T>(s: seq<T>, p: T -> bool, chave: T -> Id)
    requires ChavesUnicas(s, chave)
    ensures ChavesUnicas(Filter(s, p), chave)
  {
    FilterKeepsOrder(s, p, (a: T, b: T) => chave(a) != chave(b));
  }

  lemma SumByAppend<T>(s: seq<T>, x: T, f: T -> int)
    ensures SumBy(s + [x], f) == SumBy(s, f) + f(x)
  {
    assert (s + [x])[..|s|] == s;
  }

  lemma {:induction false} SumByConcat<T>(a: seq<T>, b: seq<T>, f: T -> int)
    ensures SumBy(a + b, f) == SumBy(a, f) + SumBy(b, f)
    decreases |b|
  {
    if b == [] {
      assert a + b == a;
    } else {
      var b', x := b[..|b| - 1], b[|b| - 1];
      assert b == b' + [x];
      assert a + b == (a + b') + [x];
      SumByConcat(a, b', f);
      SumByAppend(a + b', x, f);
      SumByAppend(b', x, f);
    }
  }

  /** Removing the element at position `i` takes exactly its own term out of the sum. */
  lemma {:induction false} SumByRemove<T>(s: seq<T>, i: nat, f: T -> int)
    requires i < |s|
    ensures SumBy(s, f) == SumBy(s[..i] + s[i + 1..], f) + f(s[i])
    decreases |s|
  {
    var r := s[..i] + s[i + 1..];
    if i == |s| - 1 {
      assert r == s[..|s| - 1];
    } else {
      var s', y := s[..|s| - 1], s[|s| - 1];
      var r' := s'[..i] + s'[i + 1..];
      SumByRemove(s', i, f);
      assert r == r' + [y];
      SumByAppend(r', y, f);
    }
  }

  /** A fold with `+` does not depend on the order of its elements. */
  lemma {:induction false} SumByPerm<T>(a: seq<T>, b: seq<T>, f: T -> int)
    requires multiset(a) == multiset(b)
    ensures SumBy(a, f) == SumBy(b, f)
    decreases |a|
  {
    if a == [] {
      assert |b| == |multiset(b)| == 0;
    } else {
      var a', x := a[..|a| - 1], a[|a| - 1];
      assert a == a' + [x];
      assert x in multiset(b);
      var i :| 0 <= i < |b| && b[i] == x;
      var b' := b[..i] + b[i + 1..];
      assert b == b[..i] + [x] + b[i + 1..];
      assert multiset(b') == multiset(b) - multiset{x};
      assert multiset(a') == multiset(a) - multiset{x};
      SumByPerm(a', b', f);
      SumByRemove(b, i, f);
    }
  }

  /** A filter count is zero exactly when no element passes the filter. */
  lemma NenhumSse<T>(s: seq<T>, p: T -> bool)
    ensures Count(s, p) == 0 <==> forall x :: x in s ==> !p(x)
  {
    var f := Filter(s, p);
    if exists x :: x in s && p(x) {
      var x :| x in s && p(x);
      assert x in f;
    }
    if |f| > 0 {
      assert f[0] in s && p(f[0]);
    }
  }

  /** Summing over the kept elements is summing `g` over all of them, when `g` is `f` on the
      kept elements and 0 on the others. */
  lemma {:induction false} SumByFilter<T>(s: seq<T>, p: T -> bool, f: T -> int, g: T -> int)
    requires forall x :: g(x) == (if p(x) then f(x) else 0)
    ensures SumBy(Filter(s, p), f) == SumBy(s, g)
    decreases |s|
  {
    if s != [] {
      var s', x := s[..|s| - 1], s[|s| - 1];
      SumByFilter(s', p, f, g);
      if p(x) {
        SumByAppend(Filter(s', p), x, f);
      } else {
        assert Filter(s, p) == Filter(s', p) + [];
        assert Filter(s', p) + [] == Filter(s', p);
      }
    }
  }

  /** Splitting a sum along two complementary filters (`saldo >= 0` / `saldo < 0`). */
  lemma {:induction false} SumByFilterSplit<T>(s: seq<T>, p: T -> bool, q: T -> bool, f: T -> int)
    requires forall x :: x in s ==> (p(x) <==> !q(x))
    ensures SumBy(s, f) == SumBy(Filter(s, p), f) + SumBy(Filter(s, q), f)
    ensures |s| == Count(s, p) + Count(s, q)
    decreases |s|
  {
    if s != [] {
      var s', x := s[..|s| - 1], s[|s| - 1];
      assert x in s;
      forall y | y in s' ensures p(y) <==> !q(y) {
        assert y in s;
      }
      SumByFilterSplit(s', p, q, f);
      var fp, fq := Filter(s', p), Filter(s', q);
      if p(x) {
        assert Filter(s, p) == fp + [x];
        assert Filter(s, q) == fq;
        SumByAppend(fp, x, f);
      } else {
        assert Filter(s, p) == fp;
        assert Filter(s, q) == fq + [x];
        SumByAppend(fq, x, f);
      }
    }
  }

  lemma {:induction false} SumByNonNeg<T>(s: seq<T>, f: T -> int)
    requires forall x :: x in s ==> f(x) >= 0
    ensures SumBy(s, f) >= 0
    decreases |s|
  {
    if s != [] {
      assert forall y :: y in s[..|s| - 1] ==> y in s;
      SumByNonNeg(s[..|s| - 1], f);
    }
  }

  lemma {:induction false} SumByNonPos<T>(s: seq<T>, f: T -> int)
    requires forall x :: x in s ==> f(x) <= 0
    ensures SumBy(s, f) <= 0
    decreases |s|
  {
    if s != [] {
      assert forall y :: y in s[..|s| - 1] ==> y in s;
      SumByNonPos(s[..|s| - 1], f);
    }
  }

  /** Three predicates that pick out exactly one class for each element split the count. */
  lemma {:induction false} CountPartition3<T>(s: seq<T>, p: T -> bool, q: T -> bool, r: T -> bool)
    requires forall x :: x in s ==> (p(x) || q(x) || r(x))
    requires forall x :: x in s ==> !(p(x) && q(x)) && !(p(x) && r(x)) && !(q(x) && r(x))
    ensures Count(s, p) + Count(s, q) + Count(s, r) == |s|
    decreases |s|
  {
    if s != [] {
      assert forall y :: y in s[..|s| - 1] ==> y in s;
      CountPartition3(s[..|s| - 1], p, q, r);
    }
  }

  /** Two predicates that pick out exactly one class for each element split the count. */
  lemma {:induction false} CountPartition2<T>(s: seq<T>, p: T -> bool, q: T -> bool)
    requires forall x :: x in s ==> (p(x) || q(x)) && !(p(x) && q(x))
    ensures Count(s, p) + Count(s, q) == |s|
    decreases |s|
  {
    if s != [] {
      assert forall y :: y in s[..|s| - 1] ==> y in s;
      CountPartition2(s[..|s| - 1], p, q);
    }
  }

  /** Counting two disjoint predicates separately counts their union. */
  lemma {:induction false} CountUnion<T>(s: seq<T>, p: T -> bool, q: T -> bool, r: T -> bool)
    requires forall x :: x in s ==> (r(x) <==> p(x) || q(x)) && !(p(x) && q(x))
    ensures Count(s, p) + Count(s, q) == Count(s, r)
    decreases |s|
  {
    if s != [] {
      assert forall y :: y in s[..|s| - 1] ==> y in s;
      CountUnion(s[..|s| - 1], p, q, r);
    }
  }

  /** The elements of a filtered sequence appear in the same order as in the original. */
  lemma {:induction false} FilterKeepsOrder<T>(s: seq<T>, p: T -> bool, le: (T, T) -> bool)
    requires forall i, j :: 0 <= i < j < |s| ==> le(s[i], s[j])
    ensures forall i, j :: 0 <= i < j < |Filter(s, p)| ==> le(Filter(s, p)[i], Filter(s, p)[j])
    decreases |s|
  {
    if s != [] {
      var s', x := s[..|s| - 1], s[|s| - 1];
      FilterKeepsOrder(s', p, le);
      var f' := Filter(s', p);
      forall y | y in f' ensures le(y, x) {
        assert y in s';
        var k :| 0 <= k < |s'| && s'[k] == y;
        assert s[k] == y;
      }
    }
  }

  /** Filtering a concatenation filters each part. */
  lemma {:induction false} FilterConcat<T>(a: seq<T>, b: seq<T>, p: T -> bool)
    ensures Filter(a + b, p) == Filter(a, p) + Filter(b, p)
    decreases |b|
  {
    if b == [] {
      assert a + b == a;
    } else {
      var b', x := b[..|b| - 1], b[|b| - 1];
      assert a + b == (a + b') + [x];
      assert (a + b)[..|a + b| - 1] == a + b';
      FilterConcat(a, b', p);
    }
  }

  /** Two predicates that agree on every element keep the same elements. */
  lemma {:induction false} FilterEquiv<T>(s: seq<T>, p: T -> bool, q: T -> bool)
    requires forall x :: x in s ==> p(x) == q(x)
    ensures Filter(s, p) == Filter(s, q)
    decreases |s|
  {
    if s != [] {
      assert forall y :: y in s[..|s| - 1] ==> y in s;
      FilterEquiv(s[..|s| - 1], p, q);
    }
  }

  /** Filtering keeps the whole length exactly when every element passes. */
  lemma {:induction false} FilterTodosSse<T>(s: seq<T>, p: T -> bool)
    ensures |Filter(s, p)| == |s| <==> forall x :: x in s ==> p(x)
    decreases |s|
  {
    if s != [] {
      var s', x := s[..|s| - 1], s[|s| - 1];
      FilterTodosSse(s', p);
      assert forall y :: y in s' ==> y in s;
      assert forall y :: y in s ==> y in s' || y == x;
    }
  }

  /** Keeping the elements for which `p` holds keeps all of them when `p` holds throughout. */
  lemma {:induction false} FilterAll<T>(s: seq<T>, p: T -> bool)
    requires forall x :: x in s ==> p(x)
    ensures Filter(s, p) == s
    decreases |s|
  {
    if s != [] {
      var s', x := s[..|s| - 1], s[|s| - 1];
      forall y | y in s' ensures p(y) {
        var k :| 0 <= k < |s'| && s'[k] == y;
        assert s[k] == y;
      }
      FilterAll(s', p);
      assert p(x);
      assert s == s' + [x];
    }
  }
}
