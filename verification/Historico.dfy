/** The recorded steps of a run are the path it took through the states
    (internal/repository/postgres.go, TransicionarTaskRun;
    docs/maquina-estados.mmd). */
module Historico {
  import opened Comum
  import opened Tabelas
  import opened Operacoes

  /** The steps of one run, in order. */
  function EtapasDe(etapas: seq<Etapa>, run: Uuid): seq<Etapa> {
    if etapas == [] then []
    else
      var antes, e := EtapasDe(etapas[..|etapas| - 1], run), etapas[|etapas| - 1];
      if e.run == run then antes + [e] else antes
  }

  /** A path that starts pending and ends at `fim`, each step leaving the state
      the one before reached. */
  predicate CaminhoAte(es: seq<Etapa>, fim: Estado) {
    if es == [] then fim == Pendente
    else es[|es| - 1].para == fim && CaminhoAte(es[..|es| - 1], es[|es| - 1].de)
  }

  predicate Coerente(b: Banco) {
    && (forall run :: run in b.runs ==> CaminhoAte(EtapasDe(b.etapas, run), b.runs[run].estado))
    && (forall i :: 0 <= i < |b.etapas| ==> b.etapas[i].run in b.runs && b.etapas[i].tenant == b.runs[b.etapas[i].run].tenant)
  }

  lemma EtapaAMais(etapas: seq<Etapa>, e: Etapa, run: Uuid)
    ensures EtapasDe(etapas + [e], run) == if e.run == run then EtapasDe(etapas, run) + [e] else EtapasDe(etapas, run)
  {
    assert (etapas + [e])[..|etapas|] == etapas;
  }

  lemma CaminhoAMais(es: seq<Etapa>, e: Etapa)
    requires CaminhoAte(es, e.de)
    ensures CaminhoAte(es + [e], e.para)
  {
    assert (es + [e])[..|es|] == es;
  }

  lemma {:induction false} SemEtapas(etapas: seq<Etapa>, run: Uuid)
    requires forall i :: 0 <= i < |etapas| ==> etapas[i].run != run
    ensures EtapasDe(etapas, run) == []
  {
    if etapas != [] {
      SemEtapas(etapas[..|etapas| - 1], run);
    }
  }

  lemma OutrasNaoTocam(b: Banco, op: Operacao)
    requires EntregasUnicas(b.runs) && !op.OpCriar? && !op.OpTransicionar?
    ensures Aplicar(b, op).0.runs == b.runs && Aplicar(b, op).0.etapas == b.etapas
  {
  }

  lemma CriarPreserva(b: Banco, novo: NovoTaskRun, id: Uuid, agora: Instante)
    requires EntregasUnicas(b.runs) && Coerente(b)
    ensures Coerente(CriarTaskRun(b, novo, id, agora).0)
  {
    if id !in b.runs {
      SemEtapas(b.etapas, id);
    }
  }

  /** One run moves from `e.de` to `e.para` and the step is recorded. */
  lemma NovaEtapa(b: Banco, e: Etapa, agora: Instante)
    requires Coerente(b) && e.run in b.runs && b.runs[e.run].estado == e.de && e.tenant == b.runs[e.run].tenant
    ensures Coerente(b.(runs := b.runs[e.run := b.runs[e.run].(estado := e.para, atualizadoEm := agora)], etapas := b.etapas + [e]))
  {
    var runs := b.runs[e.run := b.runs[e.run].(estado := e.para, atualizadoEm := agora)];
    forall r | r in runs
      ensures CaminhoAte(EtapasDe(b.etapas + [e], r), runs[r].estado)
    {
      EtapaAMais(b.etapas, e, r);
      if r == e.run {
        CaminhoAMais(EtapasDe(b.etapas, r), e);
      }
    }
  }

  lemma TransicionarPreserva(b: Banco, run: Uuid, de: Estado, para: Estado, detalhe: string, agora: Instante)
    requires Coerente(b)
    ensures Coerente(Transicionar(b, run, de, para, detalhe, agora).0)
  {
    if |detalhe| <= 4000 && run in b.runs && b.runs[run].estado == de {
      var e := Etapa(b.runs[run].tenant, run, de, para, detalhe);
      NovaEtapa(b, e, agora);
      assert Transicionar(b, run, de, para, detalhe, agora).0 ==
             b.(runs := b.runs[run := b.runs[run].(estado := para, atualizadoEm := agora)], etapas := b.etapas + [e]);
    } else {
      assert Transicionar(b, run, de, para, detalhe, agora).0 == b;
    }
  }

  lemma AplicarPreserva(b: Banco, op: Operacao)
    requires EntregasUnicas(b.runs) && Coerente(b)
    ensures Coerente(Aplicar(b, op).0)
  {
    match op
    case OpCriar(novo, id, agora) => CriarPreserva(b, novo, id, agora);
    case OpTransicionar(run, de, para, detalhe, agora) => TransicionarPreserva(b, run, de, para, detalhe, agora);
    case _ => OutrasNaoTocam(b, op);
  }

  /** In every reachable database the steps of each run form a path from pending
      to its current state. */
  lemma {:induction false} TodoBancoTemCaminhos(ops: seq<Operacao>)
    ensures Coerente(Executar(VAZIO, ops))
  {
    if ops != [] {
      TodoBancoTemCaminhos(ops[..|ops| - 1]);
      AplicarPreserva(Executar(VAZIO, ops[..|ops| - 1]), ops[|ops| - 1]);
    }
  }

  // ---- Conservation: entries against exits ----

  /** Entries to `s`; creation enters pending. */
  function Entradas(es: seq<Etapa>, s: Estado): nat {
    (if s == Pendente then 1 else 0) + Conta(es, (e: Etapa) => e.para == s)
  }

  function Saidas(es: seq<Etapa>, s: Estado): nat {
    Conta(es, (e: Etapa) => e.de == s)
  }

  lemma {:induction false} CaminhoEquilibrado(es: seq<Etapa>, fim: Estado, s: Estado)
    requires CaminhoAte(es, fim)
    ensures Entradas(es, s) == Saidas(es, s) + (if s == fim then 1 else 0)
  {
    if es != [] {
      CaminhoEquilibrado(es[..|es| - 1], es[|es| - 1].de, s);
    }
  }

  /** For every run and state, the successful transitions into it exceed those out
      of it by one if the run is there now, and are as many otherwise. */
  lemma EntradasMenosSaidas(ops: seq<Operacao>, run: Uuid, s: Estado)
    requires run in Executar(VAZIO, ops).runs
    ensures var b := Executar(VAZIO, ops);
            var es := EtapasDe(b.etapas, run);
            Entradas(es, s) == Saidas(es, s) + (if b.runs[run].estado == s then 1 else 0)
  {
    TodoBancoTemCaminhos(ops);
    var b := Executar(VAZIO, ops);
    CaminhoEquilibrado(EtapasDe(b.etapas, run), b.runs[run].estado, s);
  }

  lemma {:induction false} CaminhoLigado(es: seq<Etapa>, fim: Estado, k: nat)
    requires CaminhoAte(es, fim) && k < |es| - 1
    ensures es[k].para == es[k + 1].de
  {
    if k < |es| - 2 {
      CaminhoLigado(es[..|es| - 1], es[|es| - 1].de, k);
    }
  }

  lemma CaminhoVolta(es: seq<Etapa>, fim: Estado, s: Estado, i: nat, j: nat)
    requires CaminhoAte(es, fim) && i < j < |es| && es[i].de == s && es[j].de == s
    ensures exists k :: i <= k < j && es[k].para == s
  {
    CaminhoLigado(es, fim, j - 1);
  }

  /** Between two successful exits from a state the run entered it again: of two
      callers racing from the same state, the loser finds it changed. */
  lemma EntradaEntreSaidas(ops: seq<Operacao>, run: Uuid, s: Estado, i: nat, j: nat)
    requires run in Executar(VAZIO, ops).runs
    requires var es := EtapasDe(Executar(VAZIO, ops).etapas, run); i < j < |es| && es[i].de == s && es[j].de == s
    ensures var es := EtapasDe(Executar(VAZIO, ops).etapas, run);
            exists k :: i <= k < j && es[k].para == s
  {
    TodoBancoTemCaminhos(ops);
    var b := Executar(VAZIO, ops);
    CaminhoVolta(EtapasDe(b.etapas, run), b.runs[run].estado, s, i, j);
  }

  // ---- The documented machine ----

  predicate Documentada(de: Estado, para: Estado) {
    match de
    case Pendente => para == MapeandoContexto
    case MapeandoContexto => para == Gerando || para == Falhou
    case Gerando => para == TestandoSandbox || para == Falhou
    case TestandoSandbox => para == AvaliandoRisco || para == Falhou
    case AvaliandoRisco => para == Aplicando || para == AguardandoAprovacao
    case AguardandoAprovacao => para == Aplicando || para == Rejeitado || para == AguardandoAprovacao
    case Aplicando => para == Concluido || para == Falhou
    case _ => false
  }

  predicate Terminal(s: Estado) {
    s == Concluido || s == Rejeitado || s == Falhou
  }

  lemma {:induction false} EtapasVemDasTransicoes(ops: seq<Operacao>, k: nat)
    requires k < |Executar(VAZIO, ops).etapas|
    ensures var e := Executar(VAZIO, ops).etapas[k];
            exists i :: 0 <= i < |ops| && ops[i].OpTransicionar? && ops[i].de == e.de && ops[i].para == e.para
  {
    if ops != [] {
      var antes, op := ops[..|ops| - 1], ops[|ops| - 1];
      var a := Executar(VAZIO, antes);
      AplicarSoCresce(a, op);
      if k < |a.etapas| {
        EtapasVemDasTransicoes(antes, k);
        var i :| 0 <= i < |antes| && antes[i].OpTransicionar? && antes[i].de == a.etapas[k].de && antes[i].para == a.etapas[k].para;
        assert ops[i] == antes[i];
      } else {
        if !op.OpTransicionar? && !op.OpCriar? {
          OutrasNaoTocam(a, op);
        }
        assert op.OpTransicionar?;
      }
    }
  }

  lemma {:induction false} EtapasDeSaoEtapas(etapas: seq<Etapa>, run: Uuid, k: nat)
    requires k < |EtapasDe(etapas, run)|
    ensures EtapasDe(etapas, run)[k] in etapas
  {
    var antes := etapas[..|etapas| - 1];
    if k < |EtapasDe(antes, run)| {
      EtapasDeSaoEtapas(antes, run, k);
    }
  }

  lemma TerminalNoCaminho(es: seq<Etapa>, fim: Estado, k: nat)
    requires CaminhoAte(es, fim) && k < |es|
    requires forall i :: 0 <= i < |es| ==> Documentada(es[i].de, es[i].para)
    ensures Terminal(es[k].para) ==> k == |es| - 1 && fim == es[k].para
  {
    if k < |es| - 1 {
      CaminhoLigado(es, fim, k);
      assert Documentada(es[k + 1].de, es[k + 1].para);
    }
  }

  lemma EtapasDocumentadas(ops: seq<Operacao>, run: Uuid, k: nat)
    requires k < |EtapasDe(Executar(VAZIO, ops).etapas, run)|
    requires forall i :: 0 <= i < |ops| && ops[i].OpTransicionar? ==> Documentada(ops[i].de, ops[i].para)
    ensures var es := EtapasDe(Executar(VAZIO, ops).etapas, run); Documentada(es[k].de, es[k].para)
  {
    var etapas := Executar(VAZIO, ops).etapas;
    EtapasDeSaoEtapas(etapas, run, k);
    var m :| 0 <= m < |etapas| && etapas[m] == EtapasDe(etapas, run)[k];
    EtapasVemDasTransicoes(ops, m);
  }

  /** If callers ask only for documented transitions, a run that reached a
      terminal state has no later step. */
  lemma TerminalEhOUltimo(ops: seq<Operacao>, run: Uuid, k: nat)
    requires run in Executar(VAZIO, ops).runs && k < |EtapasDe(Executar(VAZIO, ops).etapas, run)|
    requires forall i :: 0 <= i < |ops| && ops[i].OpTransicionar? ==> Documentada(ops[i].de, ops[i].para)
    ensures var b := Executar(VAZIO, ops);
            var es := EtapasDe(b.etapas, run);
            Terminal(es[k].para) ==> k == |es| - 1 && b.runs[run].estado == es[k].para
  {
    TodoBancoTemCaminhos(ops);
    var b := Executar(VAZIO, ops);
    var es := EtapasDe(b.etapas, run);
    forall i | 0 <= i < |es|
      ensures Documentada(es[i].de, es[i].para)
    {
      EtapasDocumentadas(ops, run, i);
    }
    TerminalNoCaminho(es, b.runs[run].estado, k);
  }

  /** The repository itself checks the state and nothing else: exactly when a
      transition is made. */
  lemma QuandoTransiciona(b: Banco, run: Uuid, de: Estado, para: Estado, detalhe: string, agora: Instante)
    ensures Sucesso(Transicionar(b, run, de, para, detalhe, agora).1) <==>
            |detalhe| <= 4000 && run in b.runs && b.runs[run].estado == de
  {
  }

  /** So the documented edges are not enforced: a concluded run can go back to
      pending, and then on. */
  lemma ArestasNaoSaoExigidas(b: Banco, run: Uuid, agora: Instante)
    requires run in b.runs && b.runs[run].estado == Concluido
    ensures !Documentada(Concluido, Pendente)
    ensures var (c, r) := Transicionar(b, run, Concluido, Pendente, "", agora);
            && Sucesso(r) && c.runs[run].estado == Pendente
            && Sucesso(Transicionar(c, run, Pendente, MapeandoContexto, "", agora).1)
  {
  }
}
