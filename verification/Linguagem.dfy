/** The staged Go pipeline and its verdict
    (internal/sandbox/golang/linguagem.go). */
module Linguagem {
  import opened Comum
  import opened Sandbox
  import opened Apuracao
  import Prazos

  datatype Comando = Baixar | Construir | CompilarTestes | Testar(timeout: int)

  /** Outcome of a command. `erro` says it could not be started. */
  datatype Execucao = Execucao(saida: Bytes, codigo: int, prazoEsgotado: bool, erro: bool)

  datatype Motivo =
    | SemGoMod
    | GoMaisNovo
    | NaoIniciou(comando: Comando)
    | ExcedeuOPrazo(comando: Comando)
    | SaiuComCodigo(comando: Comando, codigo: int)
    | PrazoInsuficiente(restam: int)
    | SemTesteFalho(codigo: int)

  /** What the model leaves open: how a reason is worded, whether the output of
      the download asks for a newer Go, and how a line of JSON is decoded. */
  datatype Leitura = Leitura(aviso: Motivo -> Bytes, exigeGoMaisNovo: Bytes -> bool, ler: Decodificador)

  predicate Interrompida(e: Execucao) {
    e.erro || e.prazoEsgotado
  }

  predicate Concluiu(e: Execucao) {
    !Interrompida(e) && e.codigo == 0
  }

  function DescreverInterrupcao(c: Comando, e: Execucao): Motivo {
    if e.erro then NaoIniciou(c) else if e.prazoEsgotado then ExcedeuOPrazo(c) else SaiuComCodigo(c, e.codigo)
  }

  function FalhaDeInfraestrutura(l: Leitura, motivo: Motivo, saida: Bytes): ResultadoSandbox {
    ResultadoSandbox(false, 0, 0, saida + l.aviso(motivo), 0, Infraestrutura)
  }

  function ClassificarCompilacao(l: Leitura, c: Comando, e: Execucao): ResultadoSandbox {
    if Interrompida(e) then FalhaDeInfraestrutura(l, DescreverInterrupcao(c, e), e.saida)
    else ResultadoSandbox(false, 0, 0, e.saida, 0, Compilacao)
  }

  function LinhasLidas(l: Leitura, e: Execucao): seq<Linha> {
    InterpretarTodas(l.ler, LinhasDe(e.saida))
  }

  /** The verdict on a finished `go test`, from the declarative tally. */
  function Veredito(l: Leitura, c: Comando, e: Execucao): ResultadoSandbox {
    if Interrompida(e) then FalhaDeInfraestrutura(l, DescreverInterrupcao(c, e), e.saida)
    else
      var a := Apurada(LinhasLidas(l, e));
      var r := ResultadoSandbox(!a.falhaDeCompilacao, a.passaram, a.falharam, a.saida, 0, Nenhuma);
      if a.falhaDeCompilacao then r.(tipo := Compilacao)
      else if a.falharam > 0 then r.(tipo := Teste)
      else if e.codigo != 0 then FalhaDeInfraestrutura(l, SemTesteFalho(e.codigo), e.saida)
      else r
  }

  method ClassificarTeste(l: Leitura, c: Comando, e: Execucao) returns (r: ResultadoSandbox)
    ensures r == Veredito(l, c, e)
  {
    if e.erro || e.prazoEsgotado {
      return FalhaDeInfraestrutura(l, DescreverInterrupcao(c, e), e.saida);
    }
    var apurada := Apurar(l.ler, e.saida);
    r := ResultadoSandbox(!apurada.falhaDeCompilacao, apurada.passaram, apurada.falharam, apurada.saida, 0, Nenhuma);
    if apurada.falhaDeCompilacao {
      r := r.(tipo := Compilacao);
    } else if apurada.falharam > 0 {
      r := r.(tipo := Teste);
    } else if e.codigo != 0 {
      return FalhaDeInfraestrutura(l, SemTesteFalho(e.codigo), e.saida);
    }
  }

  /** Runs commands: the environment answers each one through `roteiro`, and
      `rodados` records which were run. */
  class Rodador {
    const roteiro: Comando -> Execucao
    var rodados: seq<Comando>

    constructor (roteiro: Comando -> Execucao)
      ensures this.roteiro == roteiro && rodados == []
    {
      this.roteiro := roteiro;
      rodados := [];
    }

    method Rodar(c: Comando) returns (e: Execucao)
      modifies this
      ensures rodados == old(rodados) + [c] && e == roteiro(c)
    {
      rodados := rodados + [c];
      e := roteiro(c);
    }
  }

  // ---- How far the pipeline gets ----

  /** The commands run: each stage only after the previous one concluded, and
      the tests only when the time left allows them. */
  function Rodados(goMod: bool, roteiro: Comando -> Execucao, timeout: Option<int>): seq<Comando> {
    if !goMod then []
    else if !Concluiu(roteiro(Baixar)) then [Baixar]
    else if !Concluiu(roteiro(Construir)) then [Baixar, Construir]
    else if !Concluiu(roteiro(CompilarTestes)) || timeout.None? then [Baixar, Construir, CompilarTestes]
    else [Baixar, Construir, CompilarTestes, Testar(timeout.value)]
  }

  /** The result as a function of the last command that ran and the time that
      was left for the tests. */
  function Resultado(l: Leitura, goMod: bool, roteiro: Comando -> Execucao, restam: int): ResultadoSandbox {
    var rodados := Rodados(goMod, roteiro, Prazos.Timeout(restam));
    if rodados == [] then FalhaDeInfraestrutura(l, SemGoMod, [])
    else
      var c := rodados[|rodados| - 1];
      var e := roteiro(c);
      match c
      case Baixar =>
        FalhaDeInfraestrutura(l, if l.exigeGoMaisNovo(e.saida) then GoMaisNovo else DescreverInterrupcao(c, e), e.saida)
      case Construir => ClassificarCompilacao(l, c, e)
      case CompilarTestes =>
        if Concluiu(e) then FalhaDeInfraestrutura(l, PrazoInsuficiente(restam), [])
        else ClassificarCompilacao(l, c, e)
      case Testar(_) => Veredito(l, c, e)
  }

  /** Linguagem.Executar: module download, build, test compilation, tests. */
  method Executar(l: Leitura, rodador: Rodador, goMod: bool, prazoFinal: Prazos.Instante, agora: Prazos.Instante)
    returns (r: ResultadoSandbox)
    modifies rodador
    ensures r == Resultado(l, goMod, rodador.roteiro, Prazos.TempoDosTestes(prazoFinal, agora))
    ensures rodador.rodados ==
            old(rodador.rodados) + Rodados(goMod, rodador.roteiro, Prazos.TimeoutDosTestes(prazoFinal, agora))
  {
    if !goMod {
      return FalhaDeInfraestrutura(l, SemGoMod, []);
    }
    var download := rodador.Rodar(Baixar);
    if !Concluiu(download) {
      var motivo := if l.exigeGoMaisNovo(download.saida) then GoMaisNovo else DescreverInterrupcao(Baixar, download);
      return FalhaDeInfraestrutura(l, motivo, download.saida);
    }
    var build := rodador.Rodar(Construir);
    if !Concluiu(build) {
      return ClassificarCompilacao(l, Construir, build);
    }
    var compilacaoDosTestes := rodador.Rodar(CompilarTestes);
    if !Concluiu(compilacaoDosTestes) {
      return ClassificarCompilacao(l, CompilarTestes, compilacaoDosTestes);
    }
    var timeout := Prazos.TempoDosTestes(prazoFinal, agora);
    if timeout < Prazos.TEMPO_MINIMO_DOS_TESTES {
      return FalhaDeInfraestrutura(l, PrazoInsuficiente(timeout), []);
    }
    var comando := Testar(Prazos.SegundosInteiros(timeout));
    var teste := rodador.Rodar(comando);
    r := ClassificarTeste(l, comando, teste);
  }

  // ---- What the verdict means ----

  predicate AlgumaVermelha(ls: seq<Linha>) {
    exists i :: 0 <= i < |ls| && Vermelha(ls[i])
  }

  /** The verdict on the tests, read off the lines and the exit code. */
  lemma VereditoPelasLinhas(l: Leitura, c: Comando, e: Execucao)
    ensures var r := Veredito(l, c, e);
            var ls := LinhasLidas(l, e);
            && (r.tipo == Nenhuma <==> Concluiu(e) && !AlgumaVermelha(ls))
            && (r.tipo == Compilacao <==> !Interrompida(e) && CompilacaoFalhou(ls))
            && (r.tipo == Teste <==> !Interrompida(e) && AlgumaVermelha(ls) && !CompilacaoFalhou(ls))
            && (r.compilou <==> r.tipo == Nenhuma || r.tipo == Teste)
  {
    VermelhaSeAlgumaLinhaFor(LinhasLidas(l, e));
  }

  /** With the exit code fixed, lines added anywhere, any number of them, never
      turn a failed verdict green. */
  lemma LinhasAMaisNaoAprovam(l: Leitura, c: Comando, e: Execucao, f: Execucao)
    requires f == e.(saida := f.saida)
    requires multiset(LinhasLidas(l, e)) <= multiset(LinhasLidas(l, f))
    ensures Veredito(l, c, e).tipo != Nenhuma ==> Veredito(l, c, f).tipo != Nenhuma
  {
    VereditoPelasLinhas(l, c, e);
    VereditoPelasLinhas(l, c, f);
    var a, b := LinhasLidas(l, e), LinhasLidas(l, f);
    if i :| 0 <= i < |a| && Vermelha(a[i]) {
      assert a[i] in multiset(b);
    }
  }

  /** The same on bytes: whole lines inserted at a line boundary. */
  lemma InsercaoNaoAprova(l: Leitura, c: Comando, e: Execucao, antes: Bytes, novas: Bytes, depois: Bytes)
    requires e.saida == antes + depois && LinhasInteiras(antes) && LinhasInteiras(novas)
    ensures Veredito(l, c, e).tipo != Nenhuma ==>
              Veredito(l, c, e.(saida := antes + novas + depois)).tipo != Nenhuma
  {
    var f := e.(saida := antes + novas + depois);
    LinhasDeConcatenacao(antes, depois);
    assert antes + novas + depois == antes + (novas + depois);
    LinhasDeConcatenacao(antes, novas + depois);
    LinhasDeConcatenacao(novas, depois);
    var la, ln, ld := LinhasDe(antes), LinhasDe(novas), LinhasDe(depois);
    LidasEmPartes(l.ler, la, ld);
    LidasEmPartes(l.ler, la, ln + ld);
    LidasEmPartes(l.ler, ln, ld);
    LinhasAMaisNaoAprovam(l, c, e, f);
  }

  lemma LidasEmPartes(ler: Decodificador, a: seq<Bytes>, b: seq<Bytes>)
    ensures InterpretarTodas(ler, a + b) == InterpretarTodas(ler, a) + InterpretarTodas(ler, b)
  {
  }

  predicate ChegouAosTestes(goMod: bool, roteiro: Comando -> Execucao, timeout: Option<int>) {
    goMod && Concluiu(roteiro(Baixar)) && Concluiu(roteiro(Construir)) && Concluiu(roteiro(CompilarTestes)) && timeout.Some?
  }

  /** What the pipeline's result means, whatever each stage answers: green only
      when every stage ran, concluded and no line is red; blamed on the
      compilation or on the tests only when a stage that ran to its end says so;
      everything else is infrastructure. */
  lemma SignificadoDoResultado(l: Leitura, goMod: bool, roteiro: Comando -> Execucao, restam: int)
    ensures var timeout := Prazos.Timeout(restam);
            var r := Resultado(l, goMod, roteiro, restam);
            var chegou := ChegouAosTestes(goMod, roteiro, timeout);
            var teste := if chegou then roteiro(Testar(timeout.value)) else Execucao([], 0, false, true);
            var ls := LinhasLidas(l, teste);
            && (r.tipo == Nenhuma <==> chegou && Concluiu(teste) && !AlgumaVermelha(ls))
            && (r.tipo == Teste <==> chegou && !Interrompida(teste) && AlgumaVermelha(ls) && !CompilacaoFalhou(ls))
            && (r.tipo == Compilacao <==>
                  || (chegou && !Interrompida(teste) && CompilacaoFalhou(ls))
                  || (goMod && Concluiu(roteiro(Baixar)) && !Interrompida(roteiro(Construir)) && roteiro(Construir).codigo != 0)
                  || (goMod && Concluiu(roteiro(Baixar)) && Concluiu(roteiro(Construir))
                      && !Interrompida(roteiro(CompilarTestes)) && roteiro(CompilarTestes).codigo != 0))
            && (r.compilou <==> r.tipo == Nenhuma || r.tipo == Teste)
            && (!chegou || r.tipo == Infraestrutura ==> r.passaram == r.falharam == 0)
  {
    var timeout := Prazos.Timeout(restam);
    if ChegouAosTestes(goMod, roteiro, timeout) {
      VereditoPelasLinhas(l, Testar(timeout.value), roteiro(Testar(timeout.value)));
    }
  }

  // ---- The result, stage by stage ----

  predicate Certo(e: Execucao) {
    !e.erro && !e.prazoEsgotado && e.codigo == 0
  }

  /** A result that counts no test and says only this. */
  predicate Diz(r: ResultadoSandbox, tipo: TipoFalha, saida: Bytes) {
    !r.compilou && r.passaram == 0 && r.falharam == 0 && r.duracaoMS == 0 && r.tipo == tipo && r.saida == saida
  }

  /** The command that did not conclude speaks: as infrastructure if it was cut,
      and as the compilation otherwise. */
  predicate FalouAoCompilar(l: Leitura, r: ResultadoSandbox, c: Comando, e: Execucao) {
    if e.erro then Diz(r, Infraestrutura, e.saida + l.aviso(NaoIniciou(c)))
    else if e.prazoEsgotado then Diz(r, Infraestrutura, e.saida + l.aviso(ExcedeuOPrazo(c)))
    else Diz(r, Compilacao, e.saida)
  }

  /** The same of the download, whose failures are all infrastructure. */
  predicate FalouAoBaixar(l: Leitura, r: ResultadoSandbox, e: Execucao) {
    if l.exigeGoMaisNovo(e.saida) then Diz(r, Infraestrutura, e.saida + l.aviso(GoMaisNovo))
    else if e.erro then Diz(r, Infraestrutura, e.saida + l.aviso(NaoIniciou(Baixar)))
    else if e.prazoEsgotado then Diz(r, Infraestrutura, e.saida + l.aviso(ExcedeuOPrazo(Baixar)))
    else Diz(r, Infraestrutura, e.saida + l.aviso(SaiuComCodigo(Baixar, e.codigo)))
  }

  /** The tests speak: the counts are the numbers of lines that say so, the output
      is what the lines print. */
  predicate FalaramOsTestes(l: Leitura, r: ResultadoSandbox, c: Comando, e: Execucao) {
    var ls := InterpretarTodas(l.ler, LinhasDe(e.saida));
    var naoCompilou := exists i :: 0 <= i < |ls| && NaoCompilou(ls[i]);
    if e.erro then Diz(r, Infraestrutura, e.saida + l.aviso(NaoIniciou(c)))
    else if e.prazoEsgotado then Diz(r, Infraestrutura, e.saida + l.aviso(ExcedeuOPrazo(c)))
    else if !naoCompilou && QuantosFalharam(ls) == 0 && e.codigo != 0
    then Diz(r, Infraestrutura, e.saida + l.aviso(SemTesteFalho(e.codigo)))
    else
      && r.passaram == QuantosPassaram(ls) && r.falharam == QuantosFalharam(ls)
      && r.saida == SaidaDe(ls) && r.duracaoMS == 0 && r.compilou == !naoCompilou
      && r.tipo == (if naoCompilou then Compilacao else if QuantosFalharam(ls) > 0 then Teste else Nenhuma)
  }

  lemma VereditoFala(l: Leitura, c: Comando, e: Execucao)
    ensures FalaramOsTestes(l, Veredito(l, c, e), c, e)
  {
    ApuradaPelasLinhas(LinhasLidas(l, e));
  }

  /** Who speaks in the result, and what it says: the first stage that did not
      conclude, or the tests. Times are in nanoseconds. */
  lemma QuemFala(l: Leitura, goMod: bool, roteiro: Comando -> Execucao, restam: int)
    ensures var r := Resultado(l, goMod, roteiro, restam);
            var (b, c, t) := (roteiro(Baixar), roteiro(Construir), roteiro(CompilarTestes));
            && (!goMod ==> Diz(r, Infraestrutura, l.aviso(SemGoMod)))
            && (goMod && !Certo(b) ==> FalouAoBaixar(l, r, b))
            && (goMod && Certo(b) && !Certo(c) ==> FalouAoCompilar(l, r, Construir, c))
            && (goMod && Certo(b) && Certo(c) && !Certo(t) ==> FalouAoCompilar(l, r, CompilarTestes, t))
            && (goMod && Certo(b) && Certo(c) && Certo(t) && restam < 30_000_000_000 ==>
                  Diz(r, Infraestrutura, l.aviso(PrazoInsuficiente(restam))))
            && (goMod && Certo(b) && Certo(c) && Certo(t) && restam >= 30_000_000_000 ==>
                  FalaramOsTestes(l, r, Testar(restam / 1_000_000_000), roteiro(Testar(restam / 1_000_000_000))))
  {
    var comando := Testar(restam / 1_000_000_000);
    VereditoFala(l, comando, roteiro(comando));
  }

  /** What runs: each command once, in order, only after all before it concluded,
      and the tests only with 30 s left. */
  lemma OQueRoda(goMod: bool, roteiro: Comando -> Execucao, restam: int)
    ensures var rs := Rodados(goMod, roteiro, Prazos.Timeout(restam));
            && rs <= [Baixar, Construir, CompilarTestes, Testar(restam / 1_000_000_000)]
            && (|rs| >= 1 <==> goMod)
            && (|rs| >= 2 <==> goMod && Certo(roteiro(Baixar)))
            && (|rs| >= 3 <==> goMod && Certo(roteiro(Baixar)) && Certo(roteiro(Construir)))
            && (|rs| == 4 <==> goMod && Certo(roteiro(Baixar)) && Certo(roteiro(Construir))
                               && Certo(roteiro(CompilarTestes)) && restam >= 30_000_000_000)
  {
  }

  /** A result meets the table's CHECKs; a green one ran all `n` == 4 commands,
      and one that blames the change ran at least the build. */
  predicate Confere(r: ResultadoSandbox, n: nat) {
    && ChecksDoResultado(r)
    && (r.tipo == Nenhuma ==> n == 4)
    && (r.tipo != Infraestrutura ==> n >= 2)
  }

  lemma ResultadoConfere(l: Leitura, goMod: bool, roteiro: Comando -> Execucao, restam: int)
    ensures Confere(Resultado(l, goMod, roteiro, restam), |Rodados(goMod, roteiro, Prazos.Timeout(restam))|)
  {
    SignificadoDoResultado(l, goMod, roteiro, restam);
  }
}
