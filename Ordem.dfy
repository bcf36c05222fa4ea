/** Ordering used for the name-ordered lists that the hooks reload (`.order('nome')`) and for
    the descending rankings of the reports (`sort((a, b) => b.x - a.x)`): a stable
    insertion into a sorted sequence and the stable sort it induces. */
module Ordem {
  import opened Common

  /** `le` is a total preorder on the values that occur. */
  ghost predicate PreordemTotal<T(!new)>(le: (T, T) -> bool) {
    && (forall a, b :: le(a, b) || le(b, a))
    && (forall a, b, c :: le(a, b) && le(b, c) ==> le(a, c))
  }

  predicate Ordenada<T>(s: seq<T>, le: (T, T) -> bool) {
    forall i, j :: 0 <= i < j < |s| ==> le(s[i], s[j])
  }

  /** Inserts `x` after every leading element that is not greater than it, so that among
      equal elements the one inserted last comes last. */
  function Insere<T(==)>(s: seq<T>, x: T, le: (T, T) -> bool): (r: seq<T>)
    ensures multiset(r) == multiset(s) + multiset{x}
    ensures |r| == |s| + 1
    ensures exists k :: 0 <= k <= |s| && r == s[..k] + [x] + s[k..]
  {
    if s == [] || !le(s[0], x) then
      assert [x] + s == s[..0] + [x] + s[0..];
      [x] + s
    else
      var t := Insere(s[1..], x, le);
      var k :| 0 <= k <= |s| - 1 && t == s[1..][..k] + [x] + s[1..][k..];
      InsereNaCauda(s, x, t, k);
      [s[0]] + t
  }

  /** Putting the head back in front of an insertion into the tail at `k` is an insertion
      into the whole sequence at `k + 1`. */
  lemma InsereNaCauda<T>(s: seq<T>, x: T, t: seq<T>, k: nat)
    requires s != [] && k <= |s| - 1
    requires multiset(t) == multiset(s[1..]) + multiset{x}
    requires t == s[1..][..k] + [x] + s[1..][k..]
    ensures multiset([s[0]] + t) == multiset(s) + multiset{x}
    ensures [s[0]] + t == s[..k + 1] + [x] + s[k + 1..]
  {
    assert multiset([s[0]] + t) == multiset(s) + multiset{x} by {
      assert s == [s[0]] + s[1..];
    }
    var cauda := s[1..];
    assert cauda[..k] == s[1..k + 1] && cauda[k..] == s[k + 1..];
    assert [s[0]] + s[1..k + 1] == s[..k + 1];
  }

  /** Insertion sort, oldest element first: a stable sort. */
  function Ordena<T(==)>(s: seq<T>, le: (T, T) -> bool): (r: seq<T>)
    ensures multiset(r) == multiset(s)
    ensures |r| == |s|
  {
    if s == [] then []
    else
      assert s == s[..|s| - 1] + [s[|s| - 1]];
      Insere(Ordena(s[..|s| - 1], le), s[|s| - 1], le)
  }

  /** Every element in front of the inserted one is not greater than it, and it is not
      greater than anything behind it. */
  lemma {:induction false} InsereOrdenada<T(!new)>(s: seq<T>, x: T, le: (T, T) -> bool)
    requires PreordemTotal(le)
    requires Ordenada(s, le)
    ensures Ordenada(Insere(s, x, le), le)
    decreases |s|
  {
    if s == [] || !le(s[0], x) {
      var r := [x] + s;
      forall i, j | 0 <= i < j < |r| ensures le(r[i], r[j]) {
        if i == 0 {
          assert le(x, s[0]);
          if j > 1 { assert le(s[0], s[j - 1]); }
        }
      }
    } else {
      var t := s[1..];
      assert Ordenada(t, le);
      InsereOrdenada(t, x, le);
      var it := Insere(t, x, le);
      var r := [s[0]] + it;
      CabecaAntesDoInserido(s, x, le);
      forall i, j | 0 <= i < j < |r| ensures le(r[i], r[j]) {
        if i == 0 { assert r[j] == it[j - 1]; }
      }
    }
  }

  /** When the head is not greater than `x`, it is not greater than anything the insertion
      into the tail produces. */
  lemma CabecaAntesDoInserido<T(!new)>(s: seq<T>, x: T, le: (T, T) -> bool)
    requires Ordenada(s, le) && s != [] && le(s[0], x)
    ensures forall y :: y in Insere(s[1..], x, le) ==> le(s[0], y)
  {
    var t := s[1..];
    var it := Insere(t, x, le);
    var k :| 0 <= k <= |t| && it == t[..k] + [x] + t[k..];
    forall y | y in it ensures le(s[0], y) {
      if y != x {
        assert y in t[..k] || y in t[k..];
        var m :| 0 <= m < |t| && t[m] == y;
        assert s[m + 1] == y;
      }
    }
  }

  lemma {:induction false} OrdenaOrdenada<T(!new)>(s: seq<T>, le: (T, T) -> bool)
    requires PreordemTotal(le)
    ensures Ordenada(Ordena(s, le), le)
    decreases |s|
  {
    if s != [] {
      OrdenaOrdenada(s[..|s| - 1], le);
      InsereOrdenada(Ordena(s[..|s| - 1], le), s[|s| - 1], le);
    }
  }

  /** Inserting an element whose key is new keeps the keys unique. */
  lemma InsereMantemChaves<T>(s: seq<T>, x: T, le: (T, T) -> bool, chave: T -> Id)
    requires ChavesUnicas(s, chave)
    requires !TemChave(s, chave, chave(x))
    ensures ChavesUnicas(Insere(s, x, le), chave)
  {
    var k :| 0 <= k <= |s| && Insere(s, x, le) == s[..k] + [x] + s[k..];
    InseridoMantemChaves(s, x, k, chave);
  }

  lemma InseridoMantemChaves<T>(s: seq<T>, x: T, k: nat, chave: T -> Id)
    requires ChavesUnicas(s, chave) && !TemChave(s, chave, chave(x)) && k <= |s|
    ensures ChavesUnicas(s[..k] + [x] + s[k..], chave)
  {
    var r := s[..k] + [x] + s[k..];
    PosicoesDoInserido(s, x, k, r);
    forall i, j | 0 <= i < j < |r| ensures chave(r[i]) != chave(r[j]) {
      var i' := if i < k then i else i - 1;
      var j' := if j < k then j else j - 1;
      if i == k {
        assert r[j] == s[j'];
      } else if j == k {
        assert r[i] == s[i'];
      } else {
        assert r[i] == s[i'] && r[j] == s[j'];
      }
    }
  }

  /** Where the elements of `s` land once `x` is placed at position `k`. */
  lemma PosicoesDoInserido<T>(s: seq<T>, x: T, k: nat, r: seq<T>)
    requires k <= |s| && r == s[..k] + [x] + s[k..]
    ensures |r| == |s| + 1 && r[k] == x
    ensures forall i :: 0 <= i < k ==> r[i] == s[i]
    ensures forall i :: k < i < |r| ==> r[i] == s[i - 1]
  {
  }
}
