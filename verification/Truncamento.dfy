/** Truncation of the raw output to a byte limit, keeping the end
    (internal/sandbox/saida.go), and what it does to UTF-8 text. */
module Truncamento {
  import opened Comum

  const LIMITE_SAIDA_PADRAO: nat := 64 * 1024

  /** utf8.RuneStart: every byte but the continuation bytes 10xxxxxx. */
  predicate InicioDeRuna(b: byte) {
    !(0x80 <= b < 0xC0)
  }

  /** A position where the text may be cut: its end, or the start of a rune. */
  predicate Corte(s: Bytes, i: nat)
    requires i <= |s|
  {
    i == |s| || InicioDeRuna(s[i])
  }

  /** The first cut at or after `i`. */
  function ProximoCorte(s: Bytes, i: nat): (r: nat)
    requires i <= |s|
    ensures i <= r <= |s| && Corte(s, r)
    ensures forall j :: i <= j < r ==> !Corte(s, j)
    decreases |s| - i
  {
    if Corte(s, i) then i else ProximoCorte(s, i + 1)
  }

  lemma CorteMinimo(s: Bytes, i: nat, c: nat)
    requires i <= c <= |s| && Corte(s, c)
    requires forall j :: i <= j < c ==> !Corte(s, j)
    ensures ProximoCorte(s, i) == c
  {
    assert Corte(s, ProximoCorte(s, i));
  }

  /** The specification: text within the limit is untouched; otherwise what
      stays is the suffix from the first cut that fits. */
  function Truncado(s: Bytes, limite: nat): Bytes {
    if |s| <= limite then s else s[ProximoCorte(s, |s| - limite)..]
  }

  method TruncarMantendoFinal(saida: Bytes, limite: nat) returns (r: Bytes)
    ensures r == Truncado(saida, limite)
    ensures |r| <= limite && exists i :: 0 <= i <= |saida| && r == saida[i..]
  {
    if |saida| <= limite {
      assert saida == saida[0..];
      return saida;
    }
    var inicio := |saida| - limite;
    while inicio < |saida| && !InicioDeRuna(saida[inicio])
      invariant |saida| - limite <= inicio <= |saida|
      invariant forall j :: |saida| - limite <= j < inicio ==> !Corte(saida, j)
    {
      inicio := inicio + 1;
    }
    assert Corte(saida, inicio);
    CorteMinimo(saida, |saida| - limite, inicio);
    return saida[inicio..];
  }

  /** Maximality: the result is the longest suffix within the limit that starts
      at a cut, so no shorter and no longer suffix would do. */
  lemma TruncadoEhOMaiorSufixo(s: Bytes, limite: nat, i: nat)
    requires limite < |s| && i <= |s|
    ensures |Truncado(s, limite)| <= limite
    ensures Truncado(s, limite) == s[|s| - |Truncado(s, limite)|..]
    ensures Corte(s, |s| - |Truncado(s, limite)|)
    ensures Corte(s, i) && |s| - i <= limite ==> |s| - i <= |Truncado(s, limite)|
  {
    var c := ProximoCorte(s, |s| - limite);
    assert Truncado(s, limite) == s[c..];
  }

  lemma CortesDoSufixo(s: Bytes, a: nat, i: nat)
    requires a <= |s| && i <= |s| - a
    ensures Corte(s[a..], i) == Corte(s, a + i)
  {
  }

  lemma ProximoCorteDoSufixo(s: Bytes, a: nat, i: nat)
    requires a <= |s| && i <= |s| - a
    ensures ProximoCorte(s, a + i) == a + ProximoCorte(s[a..], i)
  {
    var c := ProximoCorte(s[a..], i);
    CortesDoSufixo(s, a, c);
    forall j | a + i <= j < a + c
      ensures !Corte(s, j)
    {
      CortesDoSufixo(s, a, j - a);
    }
    CorteMinimo(s, a + i, a + c);
  }

  lemma SufixoDoSufixo(s: Bytes, a: nat, c: nat)
    requires a + c <= |s|
    ensures s[a..][c..] == s[a + c..]
  {
  }

  lemma TruncarSufixo(s: Bytes, a: nat, limite: nat)
    requires a <= |s| && Corte(s, a) && limite < |s|
    requires forall j :: |s| - limite <= j < a ==> !Corte(s, j)
    ensures Truncado(s[a..], limite) == Truncado(s, limite)
  {
    if |s| - a <= limite {
      CorteMinimo(s, |s| - limite, a);
    } else {
      TruncarNoSufixo(s, a, limite);
    }
  }

  lemma TruncarNoSufixo(s: Bytes, a: nat, limite: nat)
    requires a + limite < |s|
    ensures Truncado(s[a..], limite) == Truncado(s, limite)
  {
    var d: nat := |s| - a - limite;
    var t := s[a..];
    var c := ProximoCorte(t, d);
    ProximoCorteDoSufixo(s, a, d);
    assert Truncado(t, limite) == t[c..];
    SufixoDoSufixo(s, a, c);
  }

  /** Truncations compose: two limits in either order act as the smaller one.
      Holds of every byte string, valid text or not. */
  lemma TruncarDuasVezes(s: Bytes, l1: nat, l2: nat)
    ensures Truncado(Truncado(s, l1), l2) == Truncado(s, if l1 <= l2 then l1 else l2)
  {
    if l1 < |s| && l2 < l1 {
      TruncarSufixo(s, ProximoCorte(s, |s| - l1), l2);
    }
  }

  // ---- Valid UTF-8, by the grammar of section 4 of RFC 3629 ----

  predicate Cauda(b: byte) { 0x80 <= b <= 0xBF }

  /** Length of the UTF8-char that starts `s`, or 0 when none does. */
  function Largura(s: Bytes): (n: nat)
    ensures n <= 4 && n <= |s|
    ensures n > 0 ==> InicioDeRuna(s[0]) && forall i :: 1 <= i < n ==> !InicioDeRuna(s[i])
  {
    if s == [] then 0
    else if s[0] <= 0x7F then 1
    else if |s| >= 2 && 0xC2 <= s[0] <= 0xDF && Cauda(s[1]) then 2
    else if |s| >= 3 && Cauda(s[2]) && (
              || (s[0] == 0xE0 && 0xA0 <= s[1] <= 0xBF)
              || (0xE1 <= s[0] <= 0xEC && Cauda(s[1]))
              || (s[0] == 0xED && 0x80 <= s[1] <= 0x9F)
              || (0xEE <= s[0] <= 0xEF && Cauda(s[1]))) then 3
    else if |s| >= 4 && Cauda(s[2]) && Cauda(s[3]) && (
              || (s[0] == 0xF0 && 0x90 <= s[1] <= 0xBF)
              || (0xF1 <= s[0] <= 0xF3 && Cauda(s[1]))
              || (s[0] == 0xF4 && 0x80 <= s[1] <= 0x8F)) then 4
    else 0
  }

  predicate Utf8(s: Bytes)
    decreases |s|
  {
    s == [] || (Largura(s) > 0 && Utf8(s[Largura(s)..]))
  }

  // ---- The same text by its characters, as section 3 of RFC 3629 encodes them ----

  type Escalar = c: int | 0 <= c <= 0x10FFFF && !(0xD800 <= c <= 0xDFFF)

  /** Six bits in each byte but the first. */
  function Codificado(c: Escalar): (s: Bytes)
    ensures 1 <= |s| <= 4
  {
    var (d, e, f) := (c / 64, c / 64 / 64, c / 64 / 64 / 64);
    if c < 0x80 then [c]
    else if c < 0x800 then [0xC0 + d, 0x80 + c % 64]
    else if c < 0x10000 then [0xE0 + e, 0x80 + d % 64, 0x80 + c % 64]
    else [0xF0 + f, 0x80 + e % 64, 0x80 + d % 64, 0x80 + c % 64]
  }

  function Texto(cs: seq<Escalar>): Bytes {
    if cs == [] then [] else Codificado(cs[0]) + Texto(cs[1..])
  }

  /** Six more bits. */
  function Mais(q: int, b: int): (n: int)
    requires 0x80 <= b <= 0xBF
    ensures n / 64 == q && 0x80 + n % 64 == b
  {
    q * 64 + (b - 0x80)
  }

  function DeDois(a: int, b: int): (c: Escalar)
    requires 0xC2 <= a <= 0xDF && 0x80 <= b <= 0xBF
    ensures Codificado(c) == [a, b]
  {
    Mais(a - 0xC0, b)
  }

  function DeTres(a: int, b: int, c: int): (r: Escalar)
    requires 0xE0 <= a <= 0xEF && 0x80 <= b <= 0xBF && 0x80 <= c <= 0xBF
    requires (a == 0xE0 ==> 0xA0 <= b) && (a == 0xED ==> b <= 0x9F)
    ensures Codificado(r) == [a, b, c]
  {
    Mais(Mais(a - 0xE0, b), c)
  }

  function DeQuatro(a: int, b: int, c: int, d: int): (r: Escalar)
    requires 0xF0 <= a <= 0xF4 && 0x80 <= b <= 0xBF && 0x80 <= c <= 0xBF && 0x80 <= d <= 0xBF
    requires (a == 0xF0 ==> 0x90 <= b) && (a == 0xF4 ==> b <= 0x8F)
    ensures Codificado(r) == [a, b, c, d]
  {
    Mais(Mais(Mais(a - 0xF0, b), c), d)
  }

  /** The character that starts the text. */
  function Primeiro(s: Bytes): (c: Escalar)
    requires Largura(s) > 0
    ensures Codificado(c) == s[..Largura(s)]
  {
    if Largura(s) == 1 then s[0]
    else if Largura(s) == 2 then DeDois(s[0], s[1])
    else if Largura(s) == 3 then DeTres(s[0], s[1], s[2])
    else DeQuatro(s[0], s[1], s[2], s[3])
  }

  lemma LarguraDoCodificado(c: Escalar, t: Bytes)
    ensures Largura(Codificado(c) + t) == |Codificado(c)|
  {
  }

  function Caracteres(s: Bytes): (cs: seq<Escalar>)
    requires Utf8(s)
    ensures Texto(cs) == s
    decreases |s|
  {
    if s == [] then []
    else
      var n := Largura(s);
      assert s == s[..n] + s[n..];
      [Primeiro(s)] + Caracteres(s[n..])
  }

  lemma {:induction false} TextoEhUtf8(cs: seq<Escalar>)
    ensures Utf8(Texto(cs))
  {
    if cs != [] {
      TextoEhUtf8(cs[1..]);
      LarguraDoCodificado(cs[0], Texto(cs[1..]));
      assert Texto(cs)[|Codificado(cs[0])|..] == Texto(cs[1..]);
    }
  }

  /** The grammar accepts exactly the texts some characters encode. */
  lemma Utf8EhTexto(s: Bytes)
    ensures Utf8(s) <==> exists cs :: Texto(cs) == s
  {
    if Utf8(s) {
      assert Texto(Caracteres(s)) == s;
    }
    if cs :| Texto(cs) == s {
      TextoEhUtf8(cs);
    }
  }

  // ---- What the truncation does to it ----

  /** In valid text every cut leaves valid text, and cuts are at most four bytes
      apart: one lies within three bytes after any position. */
  lemma {:induction false} CorteDeTextoValido(s: Bytes, i: nat)
    requires Utf8(s) && i <= |s|
    ensures Corte(s, i) ==> Utf8(s[i..])
    ensures ProximoCorte(s, i) <= i + 3
    decreases |s|
  {
    var n := Largura(s);
    if i == 0 {
      assert s[0..] == s;
    } else if s != [] && i < n {
      assert forall j :: i <= j < n ==> !Corte(s, j);
      assert Corte(s, n) by {
        if n < |s| { assert Largura(s[n..]) > 0; }
      }
      assert ProximoCorte(s, i) <= n;
    } else if s != [] {
      var t := s[n..];
      CorteDeTextoValido(t, i - n);
      assert s[i..] == t[i - n..];
      CortesDoSufixo(s, n, i - n);
      ProximoCorteDoSufixo(s, n, i - n);
    }
  }

  /** Valid text stays valid, and loses at most three bytes more than needed. */
  lemma TruncadoDeTextoValido(s: Bytes, limite: nat)
    requires Utf8(s)
    ensures Utf8(Truncado(s, limite))
    ensures |Truncado(s, limite)| >= limite - 3 || Truncado(s, limite) == s
  {
    if limite < |s| {
      CorteDeTextoValido(s, |s| - limite);
      CorteDeTextoValido(s, ProximoCorte(s, |s| - limite));
    }
  }

  /** The bound of three is reached: one four-byte rune cut at its second byte. */
  lemma PerdaDeTresBytes()
    ensures exists s: Bytes :: Utf8(s) && |s| > 3 && |Truncado(s, 3)| == 0
  {
    var s: Bytes := [0xF0, 0x9F, 0x98, 0x80];
    assert Largura(s) == 4 && s[4..] == [];
    assert Utf8(s);
    assert !Corte(s, 1) && !Corte(s, 2) && !Corte(s, 3);
    assert ProximoCorte(s, 1) == 4;
  }

  /** Without validity the loss is unbounded: a run of continuation bytes longer
      than the limit disappears whole. */
  lemma SemTextoValidoPerdeTudo(n: nat, limite: nat)
    requires limite < n
    ensures Truncado(seq(n, _ => 0x80 as byte), limite) == []
  {
    var s: Bytes := seq(n, _ => 0x80 as byte);
    assert forall j :: 0 <= j < n ==> !Corte(s, j);
    assert ProximoCorte(s, n - limite) == n;
  }
}
