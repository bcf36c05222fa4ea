/** The string operations the pages and hooks rely on: `trim()`, `toLowerCase()`,
    `includes()`, the order of names, and the decimal rendering of integers inside
    template strings. */
module Texto {
  import Ordem

  /** The characters JavaScript's `trim()` strips (WhiteSpace and LineTerminator). */
  predicate EhEspaco(c: char) {
    || c == ' ' || c == '\t' || c == '\n' || c == '\r'
    || c == '\U{000B}' || c == '\U{000C}' || c == '\U{00A0}' || c == '\U{1680}'
    || ('\U{2000}' <= c <= '\U{200A}')
    || c == '\U{2028}' || c == '\U{2029}' || c == '\U{202F}' || c == '\U{205F}'
    || c == '\U{3000}' || c == '\U{FEFF}'
  }

  /** Every character is white space (the empty text included). */
  predicate EmBranco(s: string) {
    forall k :: 0 <= k < |s| ==> EhEspaco(s[k])
  }

  /** Where the text starts once leading white space is skipped. */
  function Inicio(s: string): (i: nat)
    ensures i <= |s|
    ensures forall k :: 0 <= k < i ==> EhEspaco(s[k])
    ensures i < |s| ==> !EhEspaco(s[i])
  {
    if s == [] || !EhEspaco(s[0]) then 0
    else
      var i' := Inicio(s[1..]);
      assert forall k :: 1 <= k < i' + 1 ==> s[k] == s[1..][k - 1];
      i' + 1
  }

  /** Where the text ends once trailing white space after position `i` is dropped. */
  function Fim(s: string, i: nat): (j: nat)
    requires i <= |s|
    ensures i <= j <= |s|
    ensures forall k :: j <= k < |s| ==> EhEspaco(s[k])
    ensures j > i ==> !EhEspaco(s[j - 1])
    decreases |s|
  {
    if |s| == i || !EhEspaco(s[|s| - 1]) then |s|
    else
      var j := Fim(s[..|s| - 1], i);
      assert forall k :: j <= k < |s| - 1 ==> s[k] == s[..|s| - 1][k];
      j
  }

  /** `s.trim()`: the text without leading and trailing white space. It is empty exactly
      when the whole text is white space, which is the test `!s.trim()` of the forms. */
  function Trim(s: string): (r: string)
    ensures r == [] <==> EmBranco(s)
    ensures r != [] ==> !EhEspaco(r[0]) && !EhEspaco(r[|r| - 1])
    ensures Contem(s, r)
    ensures exists i, j :: 0 <= i <= j <= |s| && r == s[i..j] && EmBranco(s[..i]) && EmBranco(s[j..])
  {
    var i := Inicio(s);
    var j := Fim(s, i);
    assert Ocorre(s, s[i..j], i);
    assert EmBranco(s[..i]) && EmBranco(s[j..]);
    s[i..j]
  }

  /** `c.toLowerCase()` on ASCII and Latin-1 letters (the accented capitals of Portuguese). */
  function MinusculaChar(c: char): (r: char)
    ensures ('A' <= c <= 'Z') ==> 'a' <= r <= 'z' && r as int == c as int + 32
    ensures ('\U{00C0}' <= c <= '\U{00DE}' && c != '\U{00D7}') ==> r as int == c as int + 32
    ensures !('A' <= c <= 'Z') && !('\U{00C0}' <= c <= '\U{00DE}' && c != '\U{00D7}') ==> r == c
  {
    if 'A' <= c <= 'Z' || ('\U{00C0}' <= c <= '\U{00DE}' && c != '\U{00D7}')
    then (c as int + 32) as char
    else c
  }

  function Minuscula(s: string): (r: string)
    ensures |r| == |s|
  {
    seq(|s|, i requires 0 <= i < |s| => MinusculaChar(s[i]))
  }

  predicate ComecaCom(s: string, t: string) {
    |t| <= |s| && s[..|t|] == t
  }

  /** `t` occurs in `s` starting at position `i`. */
  predicate Ocorre(s: string, t: string, i: int) {
    0 <= i <= |s| - |t| && s[i..i + |t|] == t
  }

  /** `s.includes(t)`: `t` occurs in `s` at some position. */
  function Contem(s: string, t: string): (b: bool)
    ensures b <==> exists i :: Ocorre(s, t, i)
  {
    if ComecaCom(s, t) then
      assert Ocorre(s, t, 0);
      true
    else if s == [] then
      assert forall i :: !Ocorre(s, t, i);
      false
    else
      var b := Contem(s[1..], t);
      assert b ==> exists i :: Ocorre(s, t, i) by {
        if b {
          var i :| Ocorre(s[1..], t, i);
          assert s[i + 1..i + 1 + |t|] == s[1..][i..i + |t|];
          assert Ocorre(s, t, i + 1);
        }
      }
      assert (exists i :: Ocorre(s, t, i)) ==> b by {
        if exists i :: Ocorre(s, t, i) {
          var i :| Ocorre(s, t, i);
          assert i != 0;
          assert s[1..][i - 1..i - 1 + |t|] == s[i..i + |t|];
          assert Ocorre(s[1..], t, i - 1);
        }
      }
      b
  }

  /** `a.toLowerCase().includes(b.toLowerCase())`: the text search of every list page. */
  predicate Busca(texto: string, busca: string) {
    Contem(Minuscula(texto), Minuscula(busca))
  }

  /** An empty search text matches every text. */
  lemma BuscaVaziaCasaTudo(texto: string)
    ensures Busca(texto, "")
  {
    assert Minuscula(texto)[0..0] == "";
  }

  /** Every text is found by a search for itself, whatever its case. */
  lemma BuscaSiMesmo(texto: string)
    ensures Busca(texto, texto)
  {
    var m := Minuscula(texto);
    assert m[0..|m|] == m;
    assert Ocorre(m, m, 0);
  }

  /** Lexicographic order of names by code point, standing for `.order('nome')`. */
  predicate NomeLe(a: string, b: string) {
    if a == [] then true
    else if b == [] then false
    else if a[0] != b[0] then a[0] < b[0]
    else NomeLe(a[1..], b[1..])
  }

  lemma {:induction false} NomeLeTotal(a: string, b: string)
    ensures NomeLe(a, b) || NomeLe(b, a)
    decreases |a|
  {
    if a != [] && b != [] && a[0] == b[0] {
      NomeLeTotal(a[1..], b[1..]);
    }
  }

  lemma {:induction false} NomeLeTransitiva(a: string, b: string, c: string)
    requires NomeLe(a, b) && NomeLe(b, c)
    ensures NomeLe(a, c)
    decreases |a|
  {
    if a != [] && b != [] && c != [] && a[0] == b[0] && b[0] == c[0] {
      NomeLeTransitiva(a[1..], b[1..], c[1..]);
    }
  }

  /** Ordering records by a name field is a total preorder. */
  lemma PorNomeEhPreordem<T(!new)>(nome: T -> string, le: (T, T) -> bool)
    requires forall x, y :: le(x, y) == NomeLe(nome(x), nome(y))
    ensures Ordem.PreordemTotal(le)
  {
    forall x, y ensures le(x, y) || le(y, x) {
      NomeLeTotal(nome(x), nome(y));
    }
    forall x, y, z | le(x, y) && le(y, z) ensures le(x, z) {
      NomeLeTransitiva(nome(x), nome(y), nome(z));
    }
  }

  function Digito(d: int): (c: char)
    requires 0 <= d < 10
    ensures '0' <= c <= '9'
  {
    "0123456789"[d]
  }

  /** The decimal digits of a natural number, as `${n}` writes it. */
  function NatParaTexto(n: nat): (s: string)
    ensures |s| >= 1 && '0' <= s[0] <= '9'
  {
    if n < 10 then [Digito(n)] else NatParaTexto(n / 10) + [Digito(n % 10)]
  }

  /** `${n}` for an integer: a minus sign in front of a negative number. */
  function IntParaTexto(n: int): string {
    if n < 0 then "-" + NatParaTexto(-n) else NatParaTexto(n)
  }

  /** The number a string of decimal digits denotes. */
  function ValorDecimal(s: string): int {
    if s == [] then 0
    else 10 * ValorDecimal(s[..|s| - 1]) + (s[|s| - 1] as int - '0' as int)
  }

  /** The digits written for `n` denote `n`. */
  lemma {:induction false} NatParaTextoValor(n: nat)
    ensures ValorDecimal(NatParaTexto(n)) == n
  {
    var s := NatParaTexto(n);
    if n < 10 {
      assert s[..0] == [];
    } else {
      NatParaTextoValor(n / 10);
      assert s[..|s| - 1] == NatParaTexto(n / 10);
    }
  }

  /** Reading a rendering back: an optional minus sign, then decimal digits. */
  function TextoParaInt(s: string): int {
    if s != [] && s[0] == '-' then -ValorDecimal(s[1..]) else ValorDecimal(s)
  }

  /** Reading back what `${n}` wrote gives `n`. */
  lemma IntParaTextoIda(n: int)
    ensures TextoParaInt(IntParaTexto(n)) == n
  {
    if n < 0 {
      IdaNegativo(n);
    } else {
      IdaNatural(n);
    }
  }

  lemma IdaNegativo(n: int)
    requires n < 0
    ensures TextoParaInt(IntParaTexto(n)) == n
  {
    var m: nat := -n;
    var d := NatParaTexto(m);
    calc {
      TextoParaInt(IntParaTexto(n));
      TextoParaInt("-" + d);
      { LeituraComSinal(d); }
      -ValorDecimal(d);
      { NatParaTextoValor(m); }
      n;
    }
  }

  /** A minus sign in front of digits reads as the opposite of the digits. */
  lemma LeituraComSinal(d: string)
    ensures TextoParaInt("-" + d) == -ValorDecimal(d)
  {
    assert ("-" + d)[1..] == d;
  }

  lemma IdaNatural(n: nat)
    ensures TextoParaInt(IntParaTexto(n)) == n
  {
    var s := IntParaTexto(n);
    assert s == NatParaTexto(n) && s[0] != '-';
    NatParaTextoValor(n);
  }

  /** Different integers are written differently: the rendering loses nothing. */
  lemma IntParaTextoInjetiva(a: int, b: int)
    requires IntParaTexto(a) == IntParaTexto(b)
    ensures a == b
  {
    IntParaTextoIda(a);
    IntParaTextoIda(b);
  }
}
