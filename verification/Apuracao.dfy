/** Tally of the output of `go test -json`
    (internal/sandbox/golang/apuracao.go). Decoding one line of JSON is a
    parameter: `ler` answers None where json.Unmarshal fails. */
module Apuracao {
  import opened Comum

  const ACAO_PASSOU := "pass"
  const ACAO_FALHOU := "fail"
  const ACAO_FALHA_DE_COMPILACAO := "build-fail"
  const QUEBRA: byte := 10

  datatype Evento = Evento(acao: string, pacote: string, teste: string, saida: Bytes, compilacaoFalhou: string)

  /** A line that is not an event, or the event it holds. */
  datatype Linha = Crua(texto: Bytes) | Lida(evento: Evento)

  type Decodificador = Bytes -> Option<Evento>

  datatype Resumo = Resumo(passaram: nat, falharam: nat, falhaDeCompilacao: bool, saida: Bytes)

  // ---- Lines (bytes.Lines): each keeps its newline, the last may have none ----

  function FimDaLinha(s: Bytes): (n: nat)
    requires s != []
    ensures 1 <= n <= |s|
    ensures forall i :: 0 <= i < n - 1 ==> s[i] != QUEBRA
    ensures n == |s| || s[n - 1] == QUEBRA
  {
    if s[0] == QUEBRA || |s| == 1 then 1 else 1 + FimDaLinha(s[1..])
  }

  function LinhasDe(s: Bytes): (r: seq<Bytes>)
    ensures forall i :: 0 <= i < |r| ==> r[i] != []
  {
    if s == [] then [] else [s[..FimDaLinha(s)]] + LinhasDe(s[FimDaLinha(s)..])
  }

  predicate LinhasInteiras(s: Bytes) {
    s == [] || s[|s| - 1] == QUEBRA
  }

  /** Splitting is local: text made of whole lines splits by itself, whatever
      follows it. */
  lemma {:induction false} LinhasDeConcatenacao(a: Bytes, b: Bytes)
    requires LinhasInteiras(a)
    ensures LinhasDe(a + b) == LinhasDe(a) + LinhasDe(b)
    decreases |a|
  {
    if a == [] {
      assert a + b == b;
    } else {
      var n := FimDaLinha(a);
      assert a[n - 1] == QUEBRA;
      FimDaLinhaUnico(a + b, n);
      assert (a + b)[..n] == a[..n];
      assert (a + b)[n..] == a[n..] + b;
      LinhasDeConcatenacao(a[n..], b);
    }
  }

  function Unidas(ts: seq<Bytes>): Bytes {
    if ts == [] then [] else ts[0] + Unidas(ts[1..])
  }

  /** Broken after each newline and nowhere else. */
  predicate Partidas(r: seq<Bytes>) {
    && (forall i, j :: 0 <= i < |r| && 0 <= j < |r[i]| - 1 ==> r[i][j] != 10)
    && (forall i :: 0 <= i < |r| - 1 ==> r[i] != [] && r[i][|r[i]| - 1] == 10)
  }

  /** Splitting loses nothing. */
  lemma {:induction false} LinhasRecompoem(s: Bytes)
    ensures Unidas(LinhasDe(s)) == s && Partidas(LinhasDe(s))
    decreases |s|
  {
    if s != [] {
      var n := FimDaLinha(s);
      LinhasRecompoem(s[n..]);
      assert s == s[..n] + s[n..];
      MaisUmaPartida(s[..n], LinhasDe(s[n..]));
    }
  }

  lemma MaisUmaPartida(l: Bytes, r: seq<Bytes>)
    requires Partidas(r) && l != [] && (r == [] || l[|l| - 1] == 10) && forall j :: 0 <= j < |l| - 1 ==> l[j] != 10
    ensures Partidas([l] + r) && Unidas([l] + r) == l + Unidas(r)
  {
    assert ([l] + r)[1..] == r;
    assert forall i :: 1 <= i < |r| + 1 ==> ([l] + r)[i] == r[i - 1];
  }

  lemma FimDaLinhaUnico(s: Bytes, n: nat)
    requires 1 <= n <= |s| && s[n - 1] == QUEBRA
    requires forall i :: 0 <= i < n - 1 ==> s[i] != QUEBRA
    ensures FimDaLinha(s) == n
  {
    var m := FimDaLinha(s);
    assert m >= n && m <= n;
  }

  function Interpretar(ler: Decodificador, texto: Bytes): Linha {
    match ler(texto)
    case None => Crua(texto)
    case Some(e) => Lida(e)
  }

  function InterpretarTodas(ler: Decodificador, textos: seq<Bytes>): (r: seq<Linha>)
    ensures |r| == |textos|
    ensures forall i :: 0 <= i < |r| ==> r[i] == Interpretar(ler, textos[i])
  {
    seq(|textos|, i requires 0 <= i < |textos| => Interpretar(ler, textos[i]))
  }

  // ---- What each line is ----

  predicate TesteDeNivelSuperior(teste: string) {
    teste != "" && '/' !in teste
  }

  predicate Passe(l: Linha) {
    l.Lida? && l.evento.acao == ACAO_PASSOU && TesteDeNivelSuperior(l.evento.teste)
  }

  predicate FalhaDeTeste(l: Linha) {
    l.Lida? && l.evento.acao == ACAO_FALHOU && TesteDeNivelSuperior(l.evento.teste)
  }

  predicate FalhaDeTesteEm(l: Linha, pacote: string) {
    FalhaDeTeste(l) && l.evento.pacote == pacote
  }

  predicate FalhaDePacote(l: Linha) {
    l.Lida? && l.evento.acao == ACAO_FALHOU && l.evento.teste == "" && l.evento.compilacaoFalhou == ""
  }

  predicate FalhaDeCompilacao(l: Linha) {
    l.Lida? && (l.evento.acao == ACAO_FALHA_DE_COMPILACAO ||
                (l.evento.acao == ACAO_FALHOU && l.evento.teste == "" && l.evento.compilacaoFalhou != ""))
  }

  /** Lines that make the run not green. */
  predicate Vermelha(l: Linha) {
    FalhaDeTeste(l) || FalhaDePacote(l) || FalhaDeCompilacao(l)
  }

  function Trecho(l: Linha): Bytes {
    match l
    case Lida(e) => e.saida
    case Crua(t) => if t != [] && t[|t| - 1] == QUEBRA then t else t + [QUEBRA]
  }

  // ---- The declarative tally over all lines ----

  function Passaram(ls: seq<Linha>): nat { Conta(ls, Passe) }

  function FalhasDeTeste(ls: seq<Linha>): nat { Conta(ls, FalhaDeTeste) }

  function FalhasDoPacote(ls: seq<Linha>, pacote: string): nat {
    Conta(ls, l => FalhaDeTesteEm(l, pacote))
  }

  /** Package failures in `ls` whose package has no failed test in `todas`. */
  function PacotesSemTeste(ls: seq<Linha>, todas: seq<Linha>): nat {
    Conta(ls, l => FalhaDePacote(l) && FalhasDoPacote(todas, l.evento.pacote) == 0)
  }

  /** How many of `pacotes` have no failed test in `todas`. */
  function SemTesteFalho(pacotes: seq<string>, todas: seq<Linha>): nat {
    Conta(pacotes, p => FalhasDoPacote(todas, p) == 0)
  }

  function PacotesQueFalharam(ls: seq<Linha>): seq<string> {
    if ls == [] then []
    else
      var antes, l := PacotesQueFalharam(ls[..|ls| - 1]), ls[|ls| - 1];
      if FalhaDePacote(l) then antes + [l.evento.pacote] else antes
  }

  predicate CompilacaoFalhou(ls: seq<Linha>) {
    exists i :: 0 <= i < |ls| && FalhaDeCompilacao(ls[i])
  }

  function SaidaDe(ls: seq<Linha>): Bytes {
    if ls == [] then [] else SaidaDe(ls[..|ls| - 1]) + Trecho(ls[|ls| - 1])
  }

  function Apurada(ls: seq<Linha>): Resumo {
    Resumo(Passaram(ls),
           FalhasDeTeste(ls) + PacotesSemTeste(ls, ls),
           CompilacaoFalhou(ls),
           SaidaDe(ls))
  }

  // ---- The sum of a per-package map ----

  function Valor(m: map<string, nat>, k: string): nat { if k in m then m[k] else 0 }

  ghost function Soma(m: map<string, nat>): nat {
    if m == map[] then 0 else
      var k :| k in m;
      m[k] + Soma(m - {k})
  }

  lemma {:induction false} SomaPor(m: map<string, nat>, k: string)
    requires k in m
    ensures Soma(m) == m[k] + Soma(m - {k})
    decreases m
  {
    var j :| j in m && Soma(m) == m[j] + Soma(m - {j});
    if j != k {
      SomaPor(m - {j}, k);
      SomaPor(m - {k}, j);
      assert m - {j} - {k} == m - {k} - {j};
    }
  }

  lemma SomaIncrementa(m: map<string, nat>, k: string)
    ensures Soma(m[k := Valor(m, k) + 1]) == Soma(m) + 1
  {
    var n := m[k := Valor(m, k) + 1];
    SomaPor(n, k);
    if k in m {
      SomaPor(m, k);
      assert n - {k} == m - {k};
    } else {
      assert n - {k} == m;
    }
  }

  // ---- The accumulator ----

  /** The fields of the source's accumulator. `vistas` records the lines taken
      so far; Valid says the fields are their declarative tally. */
  class Apurador {
    var passaram: nat
    var falharam: nat
    var falhaDeCompilacao: bool
    var saida: Bytes
    var falhasPorPacote: map<string, nat>
    var pacotesQueFalharam: seq<string>
    ghost var vistas: seq<Linha>

    ghost predicate Valid()
      reads this
    {
      && passaram == Passaram(vistas)
      && falharam == FalhasDeTeste(vistas) == Soma(falhasPorPacote)
      && falhaDeCompilacao == CompilacaoFalhou(vistas)
      && saida == SaidaDe(vistas)
      && (forall p :: Valor(falhasPorPacote, p) == FalhasDoPacote(vistas, p))
      && pacotesQueFalharam == PacotesQueFalharam(vistas)
    }

    constructor ()
      ensures Valid() && vistas == []
    {
      passaram, falharam, falhaDeCompilacao := 0, 0, false;
      saida, falhasPorPacote, pacotesQueFalharam := [], map[], [];
      vistas := [];
    }

    method Considerar(ler: Decodificador, texto: Bytes)
      requires Valid() && texto != []
      modifies this
      ensures Valid() && vistas == old(vistas) + [Interpretar(ler, texto)]
    {
      Acrescentar(vistas, Interpretar(ler, texto));
      match ler(texto) {
        case None =>
          saida := saida + (if texto[|texto| - 1] == QUEBRA then texto else texto + [QUEBRA]);
        case Some(evento) =>
          saida := saida + evento.saida;
          Classificar(evento);
      }
      vistas := vistas + [Interpretar(ler, texto)];
    }

    /** The switch on the event: each line counts in at most one way. */
    method Classificar(evento: Evento)
      modifies this`passaram, this`falharam, this`falhasPorPacote, this`falhaDeCompilacao, this`pacotesQueFalharam
      ensures passaram == old(passaram) + (if Passe(Lida(evento)) then 1 else 0)
      ensures falharam == old(falharam) + (if FalhaDeTeste(Lida(evento)) then 1 else 0)
      ensures Soma(falhasPorPacote) == old(Soma(falhasPorPacote)) + (if FalhaDeTeste(Lida(evento)) then 1 else 0)
      ensures forall p :: Valor(falhasPorPacote, p) ==
                          old(Valor(falhasPorPacote, p)) + (if FalhaDeTesteEm(Lida(evento), p) then 1 else 0)
      ensures falhaDeCompilacao == (old(falhaDeCompilacao) || FalhaDeCompilacao(Lida(evento)))
      ensures pacotesQueFalharam ==
              old(pacotesQueFalharam) + (if FalhaDePacote(Lida(evento)) then [evento.pacote] else [])
    {
      if evento.acao == ACAO_FALHA_DE_COMPILACAO {
        falhaDeCompilacao := true;
      } else if evento.teste == "" && evento.acao == ACAO_FALHOU {
        RegistrarFalhaDePacote(evento);
      } else if TesteDeNivelSuperior(evento.teste) {
        ContarTeste(evento);
      }
    }

    method ContarTeste(evento: Evento)
      modifies this`passaram, this`falharam, this`falhasPorPacote
      ensures passaram == old(passaram) + (if evento.acao == ACAO_PASSOU then 1 else 0)
      ensures falharam == old(falharam) + (if evento.acao == ACAO_FALHOU then 1 else 0)
      ensures Soma(falhasPorPacote) == old(Soma(falhasPorPacote)) + (if evento.acao == ACAO_FALHOU then 1 else 0)
      ensures forall p :: Valor(falhasPorPacote, p) ==
                          old(Valor(falhasPorPacote, p)) + (if evento.acao == ACAO_FALHOU && p == evento.pacote then 1 else 0)
    {
      if evento.acao == ACAO_PASSOU {
        passaram := passaram + 1;
      } else if evento.acao == ACAO_FALHOU {
        falharam := falharam + 1;
        SomaIncrementa(falhasPorPacote, evento.pacote);
        falhasPorPacote := falhasPorPacote[evento.pacote := Valor(falhasPorPacote, evento.pacote) + 1];
      }
    }

    method RegistrarFalhaDePacote(evento: Evento)
      modifies this`falhaDeCompilacao, this`pacotesQueFalharam
      ensures falhaDeCompilacao == (old(falhaDeCompilacao) || evento.compilacaoFalhou != "")
      ensures pacotesQueFalharam ==
              old(pacotesQueFalharam) + (if evento.compilacaoFalhou == "" then [evento.pacote] else [])
    {
      if evento.compilacaoFalhou != "" {
        falhaDeCompilacao := true;
        return;
      }
      pacotesQueFalharam := pacotesQueFalharam + [evento.pacote];
    }

    method Concluir() returns (r: Resumo)
      requires Valid()
      modifies this`falharam
      ensures r == Apurada(vistas)
    {
      PacotesContados(vistas, vistas);
      var i := 0;
      while i < |pacotesQueFalharam|
        invariant 0 <= i <= |pacotesQueFalharam|
        invariant falharam + SemTesteFalho(pacotesQueFalharam[i..], vistas) ==
                  FalhasDeTeste(vistas) + SemTesteFalho(pacotesQueFalharam, vistas)
      {
        UmPacoteAMenos(pacotesQueFalharam, i, vistas);
        if Valor(falhasPorPacote, pacotesQueFalharam[i]) == 0 {
          falharam := falharam + 1;
        }
        i := i + 1;
      }
      r := Resumo(passaram, falharam, falhaDeCompilacao, saida);
    }
  }

  lemma UmPacoteAMenos(pacotes: seq<string>, i: nat, todas: seq<Linha>)
    requires i < |pacotes|
    ensures SemTesteFalho(pacotes[i..], todas) ==
            SemTesteFalho(pacotes[i + 1..], todas) + (if FalhasDoPacote(todas, pacotes[i]) == 0 then 1 else 0)
  {
    assert pacotes[i..] == [pacotes[i]] + pacotes[i + 1..];
    var p := (p: string) => FalhasDoPacote(todas, p) == 0;
    SemTesteFalhoComo(pacotes[i..], todas, p);
    SemTesteFalhoComo(pacotes[i + 1..], todas, p);
    ContaConcat([pacotes[i]], pacotes[i + 1..], p);
    ContaMais([], pacotes[i], p);
    assert [] + [pacotes[i]] == [pacotes[i]];
  }

  lemma SemTesteFalhoComo(pacotes: seq<string>, todas: seq<Linha>, p: string -> bool)
    requires forall k :: p(k) == (FalhasDoPacote(todas, k) == 0)
    ensures SemTesteFalho(pacotes, todas) == Conta(pacotes, p)
  {
    ContaIgual(pacotes, k => FalhasDoPacote(todas, k) == 0, p);
  }

  lemma Acrescentar(ls: seq<Linha>, l: Linha)
    ensures Passaram(ls + [l]) == Passaram(ls) + (if Passe(l) then 1 else 0)
    ensures FalhasDeTeste(ls + [l]) == FalhasDeTeste(ls) + (if FalhaDeTeste(l) then 1 else 0)
    ensures forall p :: FalhasDoPacote(ls + [l], p) == FalhasDoPacote(ls, p) + (if FalhaDeTesteEm(l, p) then 1 else 0)
    ensures PacotesQueFalharam(ls + [l]) ==
            PacotesQueFalharam(ls) + (if FalhaDePacote(l) then [l.evento.pacote] else [])
    ensures SaidaDe(ls + [l]) == SaidaDe(ls) + Trecho(l)
    ensures CompilacaoFalhou(ls + [l]) == (CompilacaoFalhou(ls) || FalhaDeCompilacao(l))
  {
    var m := ls + [l];
    assert m[..|m| - 1] == ls;
    AcrescentarFalhaDeCompilacao(ls, l);
  }

  lemma AcrescentarFalhaDeCompilacao(ls: seq<Linha>, l: Linha)
    ensures CompilacaoFalhou(ls + [l]) == (CompilacaoFalhou(ls) || FalhaDeCompilacao(l))
  {
    var m := ls + [l];
    assert m[|ls|] == l;
    assert forall i :: 0 <= i < |ls| ==> m[i] == ls[i];
  }

  lemma {:induction false} PacotesContados(ls: seq<Linha>, todas: seq<Linha>)
    ensures SemTesteFalho(PacotesQueFalharam(ls), todas) == PacotesSemTeste(ls, todas)
  {
    if ls != [] {
      var t, l := ls[..|ls| - 1], ls[|ls| - 1];
      PacotesContados(t, todas);
      var semTeste := (k: string) => FalhasDoPacote(todas, k) == 0;
      SemTesteFalhoComo(PacotesQueFalharam(t), todas, semTeste);
      SemTesteFalhoComo(PacotesQueFalharam(ls), todas, semTeste);
      if FalhaDePacote(l) {
        ContaMais(PacotesQueFalharam(t), l.evento.pacote, semTeste);
      }
    }
  }

  /** apurar: the fold over the lines of the output is the declarative tally. */
  method Apurar(ler: Decodificador, saidaDoGoTest: Bytes) returns (r: Resumo)
    ensures r == Apurada(InterpretarTodas(ler, LinhasDe(saidaDoGoTest)))
  {
    var apurando := new Apurador();
    var linhas := LinhasDe(saidaDoGoTest);
    ghost var todas := InterpretarTodas(ler, linhas);
    for i := 0 to |linhas|
      invariant apurando.Valid() && apurando.vistas == todas[..i]
    {
      assert todas[..i + 1] == todas[..i] + [todas[i]];
      apurando.Considerar(ler, linhas[i]);
    }
    assert todas[..|linhas|] == todas;
    r := apurando.Concluir();
  }

  // ---- The tally read off the lines ----

  /** The line says that a top-level test ended so. */
  predicate TesteTerminou(l: Linha, acao: string) {
    l.Lida? && l.evento.acao == acao && l.evento.teste != "" && '/' !in l.evento.teste
  }

  /** The line says that a package failed, and not for its build. */
  predicate PacoteFalhou(l: Linha) {
    l.Lida? && l.evento.acao == "fail" && l.evento.teste == "" && l.evento.compilacaoFalhou == ""
  }

  /** The line says that a build failed. */
  predicate NaoCompilou(l: Linha) {
    && l.Lida?
    && (l.evento.acao == "build-fail" || (l.evento.acao == "fail" && l.evento.teste == "" && l.evento.compilacaoFalhou != ""))
  }

  predicate SemTesteFalhoNoPacote(ls: seq<Linha>, pacote: string) {
    forall j :: 0 <= j < |ls| && TesteTerminou(ls[j], "fail") ==> ls[j].evento.pacote != pacote
  }

  function QuantosPassaram(ls: seq<Linha>): nat {
    |set i | 0 <= i < |ls| && TesteTerminou(ls[i], "pass")|
  }

  /** Failed tests, and failed packages without one. */
  function QuantosFalharam(ls: seq<Linha>): nat {
    |set i | 0 <= i < |ls| && TesteTerminou(ls[i], "fail")|
    + |set i | 0 <= i < |ls| && PacoteFalhou(ls[i]) && SemTesteFalhoNoPacote(ls, ls[i].evento.pacote)|
  }

  /** The tally, position by position. */
  lemma ApuradaPelasLinhas(ls: seq<Linha>)
    ensures Apurada(ls).passaram == QuantosPassaram(ls)
    ensures Apurada(ls).falharam == QuantosFalharam(ls)
    ensures Apurada(ls).falhaDeCompilacao <==> exists i :: 0 <= i < |ls| && NaoCompilou(ls[i])
  {
    ContaPosicoes(ls, Passe, set i | 0 <= i < |ls| && TesteTerminou(ls[i], "pass"));
    ContaPosicoes(ls, FalhaDeTeste, set i | 0 <= i < |ls| && TesteTerminou(ls[i], "fail"));
    PacotesPelasLinhas(ls);
    CompilacaoPelasLinhas(ls);
  }

  lemma PacotesPelasLinhas(ls: seq<Linha>)
    ensures PacotesSemTeste(ls, ls) ==
            |set i | 0 <= i < |ls| && PacoteFalhou(ls[i]) && SemTesteFalhoNoPacote(ls, ls[i].evento.pacote)|
  {
    var semTeste := (l: Linha) => FalhaDePacote(l) && FalhasDoPacote(ls, l.evento.pacote) == 0;
    forall p
      ensures FalhasDoPacote(ls, p) == 0 <==> SemTesteFalhoNoPacote(ls, p)
    {
      SemFalhaNoPacote(ls, p);
    }
    ContaPosicoes(ls, semTeste, set i | 0 <= i < |ls| && PacoteFalhou(ls[i]) && SemTesteFalhoNoPacote(ls, ls[i].evento.pacote));
  }

  lemma SemFalhaNoPacote(ls: seq<Linha>, pacote: string)
    ensures FalhasDoPacote(ls, pacote) == 0 <==> SemTesteFalhoNoPacote(ls, pacote)
  {
    ContaPositiva(ls, l => FalhaDeTesteEm(l, pacote));
    if j :| 0 <= j < |ls| && TesteTerminou(ls[j], "fail") && ls[j].evento.pacote == pacote {
      assert FalhaDeTesteEm(ls[j], pacote);
    }
    if j :| 0 <= j < |ls| && FalhaDeTesteEm(ls[j], pacote) {
      assert TesteTerminou(ls[j], "fail");
    }
  }

  lemma CompilacaoPelasLinhas(ls: seq<Linha>)
    ensures CompilacaoFalhou(ls) <==> exists i :: 0 <= i < |ls| && NaoCompilou(ls[i])
  {
    forall i | 0 <= i < |ls|
      ensures FalhaDeCompilacao(ls[i]) <==> NaoCompilou(ls[i])
    {
    }
  }

  /** The text a line leaves: what the event printed, or the line itself, closed by
      a newline. */
  predicate Deixa(l: Linha, texto: Bytes) {
    match l
    case Lida(e) => texto == e.saida
    case Crua(t) => texto == t + (if t != [] && t[|t| - 1] == 10 then [] else [10])
  }

  lemma SaidaDeUma(l: Linha)
    ensures Deixa(l, SaidaDe([l]))
  {
    assert [l][..0] == [];
    assert SaidaDe([]) + Trecho(l) == Trecho(l);
  }

  /** The output is the texts of the lines, one after the other. */
  lemma {:induction false} SaidaEmPartes(a: seq<Linha>, b: seq<Linha>)
    ensures SaidaDe(a + b) == SaidaDe(a) + SaidaDe(b)
  {
    if b == [] {
      assert a + b == a;
    } else {
      var t, l := b[..|b| - 1], b[|b| - 1];
      SaidaEmPartes(a, t);
      SaidaEmPartesSegue(a, t, l);
      assert t + [l] == b;
    }
  }

  lemma SaidaEmPartesSegue(a: seq<Linha>, t: seq<Linha>, l: Linha)
    requires SaidaDe(a + t) == SaidaDe(a) + SaidaDe(t)
    ensures SaidaDe(a + (t + [l])) == SaidaDe(a) + SaidaDe(t + [l])
  {
    var (x, y, z) := (SaidaDe(a), SaidaDe(t), Trecho(l));
    SaidaMaisUma(t, l);
    SaidaMaisUma(a + t, l);
    Associam(a, t, [l]);
    Associam(x, y, z);
  }

  lemma Associam<T>(a: seq<T>, b: seq<T>, c: seq<T>)
    ensures a + (b + c) == a + b + c
  {
  }

  lemma SaidaMaisUma(ls: seq<Linha>, l: Linha)
    ensures SaidaDe(ls + [l]) == SaidaDe(ls) + Trecho(l)
  {
    assert (ls + [l])[..|ls|] == ls;
  }

  /** It is the one text that the lines' texts make up, in order. */
  lemma {:induction false} SaidaPelasLinhas(ls: seq<Linha>, textos: seq<Bytes>)
    requires |textos| == |ls| && forall i :: 0 <= i < |ls| ==> Deixa(ls[i], textos[i])
    ensures SaidaDe(ls) == Unidas(textos)
  {
    if ls != [] {
      SaidaPelasLinhas(ls[1..], textos[1..]);
      assert ls == [ls[0]] + ls[1..];
      SaidaEmPartes([ls[0]], ls[1..]);
      SaidaDeUma(ls[0]);
    }
  }

  // ---- What the tally depends on ----

  /** The counts and the compilation flag depend on the multiset of the lines
      alone, not on how packages interleave. */
  lemma ContagemIgnoraAOrdem(a: seq<Linha>, b: seq<Linha>)
    requires multiset(a) == multiset(b)
    ensures Apurada(a).passaram == Apurada(b).passaram
    ensures Apurada(a).falharam == Apurada(b).falharam
    ensures Apurada(a).falhaDeCompilacao == Apurada(b).falhaDeCompilacao
  {
    ContaPermutada(a, b, Passe);
    ContaPermutada(a, b, FalhaDeTeste);
    ContaPermutada(a, b, FalhaDeCompilacao);
    ContaPositiva(a, FalhaDeCompilacao);
    ContaPositiva(b, FalhaDeCompilacao);
    forall p ensures FalhasDoPacote(a, p) == FalhasDoPacote(b, p) {
      ContaPermutada(a, b, l => FalhaDeTesteEm(l, p));
    }
    var semTesteEmA := (l: Linha) => FalhaDePacote(l) && FalhasDoPacote(a, l.evento.pacote) == 0;
    var semTesteEmB := (l: Linha) => FalhaDePacote(l) && FalhasDoPacote(b, l.evento.pacote) == 0;
    ContaPermutada(a, b, semTesteEmA);
    ContaIgual(b, semTesteEmA, semTesteEmB);
  }

  /** The tally is red exactly when some line is: a failed package either has a
      failed test, or is counted itself. */
  lemma VermelhaSeAlgumaLinhaFor(ls: seq<Linha>)
    ensures Apurada(ls).falhaDeCompilacao || Apurada(ls).falharam > 0 <==>
            exists i :: 0 <= i < |ls| && Vermelha(ls[i])
  {
    var semTeste := (l: Linha) => FalhaDePacote(l) && FalhasDoPacote(ls, l.evento.pacote) == 0;
    ContaPositiva(ls, FalhaDeTeste);
    ContaPositiva(ls, semTeste);
    if i :| 0 <= i < |ls| && FalhaDePacote(ls[i]) {
      var p := ls[i].evento.pacote;
      ContaPositiva(ls, l => FalhaDeTesteEm(l, p));
      if FalhasDoPacote(ls, p) == 0 {
        assert semTeste(ls[i]);
      } else {
        var j :| 0 <= j < |ls| && FalhaDeTesteEm(ls[j], p);
        assert FalhaDeTeste(ls[j]);
      }
    }
    if i :| 0 <= i < |ls| && FalhaDeCompilacao(ls[i]) {
      assert Vermelha(ls[i]);
    }
    if i :| 0 <= i < |ls| && FalhaDeTeste(ls[i]) {
      assert Vermelha(ls[i]);
    }
    if i :| 0 <= i < |ls| && semTeste(ls[i]) {
      assert Vermelha(ls[i]);
    }
  }

  /** Package failures of one package. */
  function PacotesFalhos(ls: seq<Linha>, pacote: string): nat {
    Conta(ls, l => FalhaDePacote(l) && l.evento.pacote == pacote)
  }

  /** What one more line does to the failure count. A failed test counts itself
      and, if it is the first of its package, takes the package's own failures
      out of the count. */
  function Variacao(ls: seq<Linha>, q: Linha): int {
    if FalhaDeTeste(q) then
      1 - (if FalhasDoPacote(ls, q.evento.pacote) == 0 then PacotesFalhos(ls, q.evento.pacote) else 0)
    else if FalhaDePacote(q) && FalhasDoPacote(ls, q.evento.pacote) == 0 then 1
    else 0
  }

  /** The package failures a first failed test replaces, none for other lines. */
  function Substituidas(ls: seq<Linha>, todas: seq<Linha>, q: Linha): nat {
    if FalhaDeTeste(q) && FalhasDoPacote(todas, q.evento.pacote) == 0 then PacotesFalhos(ls, q.evento.pacote) else 0
  }

  lemma {:induction false} PacotesComMaisUmaLinha(ls: seq<Linha>, todas: seq<Linha>, q: Linha)
    ensures PacotesSemTeste(ls, todas + [q]) + Substituidas(ls, todas, q) == PacotesSemTeste(ls, todas)
  {
    if ls != [] {
      var t, l := ls[..|ls| - 1], ls[|ls| - 1];
      PacotesComMaisUmaLinha(t, todas, q);
      SemTesteMaisUm(t, l, todas);
      SemTesteMaisUm(t, l, todas + [q]);
      assert t + [l] == ls;
      Acrescentar(todas, q);
      if FalhaDeTeste(q) {
        ContaMais(t, l, (k: Linha) => FalhaDePacote(k) && k.evento.pacote == q.evento.pacote);
      }
    }
  }

  lemma SemTesteMaisUm(ls: seq<Linha>, l: Linha, todas: seq<Linha>)
    ensures PacotesSemTeste(ls + [l], todas) ==
            PacotesSemTeste(ls, todas) + (if FalhaDePacote(l) && FalhasDoPacote(todas, l.evento.pacote) == 0 then 1 else 0)
  {
    assert (ls + [l])[..|ls|] == ls;
  }

  /** The failure count is not monotone: exactly what a line changes in it, and
      exactly when it lowers it, which is when it is the first failed test of a
      package that failed at least twice. */
  lemma QuandoFalharamDiminui(ls: seq<Linha>, q: Linha)
    ensures Apurada(ls + [q]).falharam == Apurada(ls).falharam + Variacao(ls, q)
    ensures Apurada(ls + [q]).falharam < Apurada(ls).falharam <==>
            FalhaDeTeste(q) && FalhasDoPacote(ls, q.evento.pacote) == 0 && PacotesFalhos(ls, q.evento.pacote) >= 2
  {
    Acrescentar(ls, q);
    PacotesComMaisUmaLinha(ls, ls, q);
    SemTesteMaisUm(ls, q, ls + [q]);
  }

  /** An input: a package fails twice, then a failed test of it arrives. */
  lemma FalharamNaoEhMonotona()
    ensures var pacote := Lida(Evento(ACAO_FALHOU, "p", "", [], ""));
            var teste := Lida(Evento(ACAO_FALHOU, "p", "T", [], ""));
            Apurada([pacote, pacote]).falharam == 2 && Apurada([pacote, pacote, teste]).falharam == 1
  {
    var pacote := Lida(Evento(ACAO_FALHOU, "p", "", [], ""));
    var teste := Lida(Evento(ACAO_FALHOU, "p", "T", [], ""));
    assert [pacote, pacote] == [] + [pacote] + [pacote];
    assert [pacote, pacote, teste] == [pacote, pacote] + [teste];
    QuandoFalharamDiminui([], pacote);
    QuandoFalharamDiminui([] + [pacote], pacote);
    QuandoFalharamDiminui([pacote, pacote], teste);
    Acrescentar([], pacote);
    Acrescentar([] + [pacote], pacote);
    var doPacote := (l: Linha) => FalhaDePacote(l) && l.evento.pacote == "p";
    ContaMais([], pacote, doPacote);
    ContaMais([] + [pacote], pacote, doPacote);
    ContaIgual([pacote, pacote], doPacote, (l: Linha) => FalhaDePacote(l) && l.evento.pacote == teste.evento.pacote);
  }
}
