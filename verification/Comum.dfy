/** Vocabulary shared by the models: optional values, counting over sequences
    and the fixed-width conversions the program performs. */
module Comum {
  datatype Option<+T> = None | Some(value: T)

  datatype Result<+T, +E> = Ok(value: T) | Err(error: E)

  type byte = b: int | 0 <= b < 256

  type Bytes = seq<byte>

  const MAX_INT32: int := 0x7FFF_FFFF

  /** Go's conversion int32(n): keeps the low 32 bits, read as a signed number. */
  function ParaInt32(n: int): int {
    (n + 0x8000_0000) % 0x1_0000_0000 - 0x8000_0000
  }

  /** It is the number of the range that differs by a multiple of 2^32. */
  lemma Int32PeloResto(n: int)
    ensures -0x8000_0000 <= ParaInt32(n) <= 0x7FFF_FFFF && (n - ParaInt32(n)) % 0x1_0000_0000 == 0
  {
    var q := (n + 0x8000_0000) / 0x1_0000_0000;
    assert n - ParaInt32(n) == q * 0x1_0000_0000;
  }

  /** Wrap-around of a 64-bit signed operation. */
  function Enrolar64(n: int): int {
    (n + 0x8000_0000_0000_0000) % 0x1_0000_0000_0000_0000 - 0x8000_0000_0000_0000
  }

  predicate DigitosHexadecimais(s: string) {
    s != "" && forall i :: 0 <= i < |s| ==> '0' <= s[i] <= '9' || 'a' <= s[i] <= 'f' || 'A' <= s[i] <= 'F'
  }

  /** The validator's hexadecimal: digits, after 0x or 0X if there. */
  predicate Hexadecimal(s: string) {
    DigitosHexadecimais(s) || (|s| >= 2 && s[0] == '0' && s[1] in "xX" && DigitosHexadecimais(s[2..]))
  }

  /** How many elements of `s` satisfy `p`. */
  function Conta<T>(s: seq<T>, p: T -> bool): nat {
    if s == [] then 0 else Conta(s[..|s| - 1], p) + (if p(s[|s| - 1]) then 1 else 0)
  }

  lemma ContaMais<T>(s: seq<T>, x: T, p: T -> bool)
    ensures Conta(s + [x], p) == Conta(s, p) + (if p(x) then 1 else 0)
  {
    assert (s + [x])[..|s|] == s;
  }

  /** A count is the number of positions that satisfy `p`. */
  lemma {:induction false} ContaPosicoes<T>(s: seq<T>, p: T -> bool, posicoes: set<int>)
    requires forall i :: i in posicoes <==> 0 <= i < |s| && p(s[i])
    ensures Conta(s, p) == |posicoes|
  {
    if s == [] {
      forall i ensures i !in posicoes {}
      assert posicoes == {};
    } else {
      var n := |s| - 1;
      ContaPosicoes(s[..n], p, posicoes - {n});
    }
  }

  lemma {:induction false} ContaConcat<T>(a: seq<T>, b: seq<T>, p: T -> bool)
    ensures Conta(a + b, p) == Conta(a, p) + Conta(b, p)
  {
    if b == [] {
      assert a + b == a;
    } else {
      var c := b[..|b| - 1];
      ContaConcat(a, c, p);
      assert a + b == (a + c) + [b[|b| - 1]];
      ContaMais(a + c, b[|b| - 1], p);
    }
  }

  lemma {:induction false} ContaPositiva<T>(s: seq<T>, p: T -> bool)
    ensures Conta(s, p) > 0 <==> exists i :: 0 <= i < |s| && p(s[i])
  {
    if s != [] {
      var t := s[..|s| - 1];
      ContaPositiva(t, p);
      if i :| 0 <= i < |s| && p(s[i]) {
        if i < |t| {
          assert p(t[i]);
        }
      }
    }
  }

  lemma {:induction false} ContaIgual<T>(s: seq<T>, p: T -> bool, q: T -> bool)
    requires forall i :: 0 <= i < |s| ==> p(s[i]) == q(s[i])
    ensures Conta(s, p) == Conta(s, q)
  {
    if s != [] {
      ContaIgual(s[..|s| - 1], p, q);
    }
  }

  lemma ContaInserida<T>(a: seq<T>, x: T, b: seq<T>, p: T -> bool)
    ensures Conta(a + [x] + b, p) == Conta(a + b, p) + (if p(x) then 1 else 0)
  {
    ContaConcat(a + [x], b, p);
    ContaMais(a, x, p);
    ContaConcat(a, b, p);
  }

  lemma PartirEm<T>(s: seq<T>, i: nat)
    requires i < |s|
    ensures s == s[..i] + [s[i]] + s[i + 1..]
  {
  }

  lemma ContaSemUm<T>(s: seq<T>, i: nat, p: T -> bool)
    requires i < |s|
    ensures Conta(s, p) == Conta(s[..i] + s[i + 1..], p) + (if p(s[i]) then 1 else 0)
  {
    PartirEm(s, i);
    ContaInserida(s[..i], s[i], s[i + 1..], p);
  }

  lemma MultisetSemUm<T>(s: seq<T>, i: nat)
    requires i < |s|
    ensures multiset(s[..i] + s[i + 1..]) == multiset(s) - multiset{s[i]}
  {
    PartirEm(s, i);
  }

  /** A count sees only the multiset of the elements, never their order. */
  lemma {:induction false} ContaPermutada<T>(a: seq<T>, b: seq<T>, p: T -> bool)
    requires multiset(a) == multiset(b)
    ensures Conta(a, p) == Conta(b, p)
  {
    if a == [] {
      assert |multiset(b)| == 0;
    } else {
      var n := |a| - 1;
      assert a[n] in multiset(b);
      var i :| 0 <= i < |b| && b[i] == a[n];
      MultisetSemUm(a, n);
      MultisetSemUm(b, i);
      assert a[..n] + a[n + 1..] == a[..n];
      ContaPermutada(a[..n], b[..i] + b[i + 1..], p);
      ContaSemUm(b, i, p);
    }
  }

  /** If no two positions satisfy `p`, it is counted at most once. */
  lemma {:induction false} ContaSemRepeticao<T>(s: seq<T>, p: T -> bool)
    requires forall i, j :: 0 <= i < j < |s| ==> !(p(s[i]) && p(s[j]))
    ensures Conta(s, p) <= 1
  {
    if s != [] {
      var t := s[..|s| - 1];
      ContaSemRepeticao(t, p);
      ContaPositiva(t, p);
    }
  }
}
