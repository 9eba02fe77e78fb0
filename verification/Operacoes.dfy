/** What each operation of the repository does to the tables, and what it
    answers (internal/repository/postgres.go): the specification its
    step-by-step implementation is proved against. */
module Operacoes {
  import opened Comum
  import opened Tabelas
  import Sandbox
  import AcaoRemota

  datatype Resposta =
    | Feito
    | Run(id: Uuid, criado: bool)
    | ReciboAnexado(recibo: Recibo)
    | Recusado(erro: Erro)

  predicate Sucesso(r: Resposta) {
    !r.Recusado?
  }

  /** CriarTaskRun: a new run is pending; a delivery already received answers
      with the run it created. */
  function CriarTaskRun(b: Banco, novo: NovoTaskRun, id: Uuid, agora: Instante): (Banco, Resposta)
    requires EntregasUnicas(b.runs)
  {
    if !NovoTaskRunValido(novo) then (b, Recusado(DadosInvalidos))
    else
      match PorEntrega(b.runs, novo.entrega)
      case Some(existente) => (b, Run(existente, false))
      case None =>
        if id in b.runs then (b, Recusado(Duplicado))
        else
          var linha := TaskRun(novo.tenant, novo.entrega, novo.repositorio, novo.pr, novo.sha, novo.autor, novo.acao,
                               Pendente, novo.recebidoEm, agora, agora);
          (b.(runs := b.runs[id := linha]), Run(id, true))
  }

  /** TransicionarTaskRun: the state changes only from `de`, and the step is
      recorded with it. */
  function Transicionar(b: Banco, run: Uuid, de: Estado, para: Estado, detalhe: string, agora: Instante): (Banco, Resposta) {
    if |detalhe| > 4000 then (b, Recusado(DadosInvalidos))
    else if run !in b.runs then (b, Recusado(NaoEncontrado))
    else if b.runs[run].estado != de then (b, Recusado(TransicaoConcorrente))
    else
      (b.(runs := b.runs[run := b.runs[run].(estado := para, atualizadoEm := agora)],
          etapas := b.etapas + [Etapa(b.runs[run].tenant, run, de, para, detalhe)]),
       Run(run, false))
  }

  /** RegistrarAprovacao: the first delivery wins. */
  function RegistrarAprovacao(b: Banco, a: Aprovacao): (Banco, Resposta) {
    if !AprovacaoValida(a) then (b, Recusado(DadosInvalidos))
    else if a.run !in b.runs then (b, Recusado(NaoEncontrado))
    else if a.entrega in b.aprovacoes then (b, Feito)
    else
      var linha := LinhaAprovacao(b.runs[a.run].tenant, a.run, a.decisao, a.revisor, a.justificativa, a.decididaEm);
      (b.(aprovacoes := b.aprovacoes[a.entrega := linha]), Feito)
  }

  /** RegistrarRevisao: the decision goes to the latest run of the pull request. */
  function RegistrarRevisao(b: Banco, r: Revisao): (Banco, Resposta) {
    var decisao := DecisaoPorEstado(r.estado);
    if decisao.None? || !NumeroDePR(r.pr) then (b, Recusado(DadosInvalidos))
    else
      match MaisRecente(b.runs, r.tenant, r.repositorio, r.pr)
      case None => (b, Recusado(NaoEncontrado))
      case Some(run) => RegistrarAprovacao(b, Aprovacao(run, r.entrega, decisao.value, r.revisor, "", r.recebidoEm))
  }

  predicate TemRecibo(rs: seq<Recibo>, id: Uuid, tenant: int) {
    exists i :: 0 <= i < |rs| && rs[i].id == id && rs[i].tenant == tenant
  }

  /** A unique index of receipts already holds one of the new row's values. */
  predicate ReciboConflita(rs: seq<Recibo>, r: Recibo) {
    exists i :: 0 <= i < |rs| && (rs[i].id == r.id || rs[i].run == r.run || (r.anterior.Some? && rs[i].anterior == r.anterior))
  }

  /** AnexarRecibo: appended if the run exists and the predecessor is a receipt
      of the same tenant, and no unique index refuses it. */
  function AnexarRecibo(b: Banco, novo: NovoRecibo, id: Uuid): (Banco, Resposta) {
    if !NovoReciboValido(novo) then (b, Recusado(DadosInvalidos))
    else if novo.run !in b.runs then (b, Recusado(NaoEncontrado))
    else
      var tenant := b.runs[novo.run].tenant;
      var linha := Recibo(id, tenant, novo.run, novo.anterior, novo.conteudo, novo.hash, novo.assinatura, novo.chave, novo.assinadoEm);
      if novo.anterior.Some? && !TemRecibo(b.recibos, novo.anterior.value, tenant) then (b, Recusado(NaoEncontrado))
      else if ReciboConflita(b.recibos, linha) then (b, Recusado(Duplicado))
      else (b.(recibos := b.recibos + [linha]), ReciboAnexado(linha))
  }

  /** Gravar: the first result of a run, if its text is one the server takes and
      its columns satisfy the CHECKs. */
  function Gravar(b: Banco, run: Uuid, r: Sandbox.ResultadoSandbox): (Banco, Resposta) {
    var linha := Sandbox.ParaColunas(r);
    if !Sandbox.TextoAceito(linha.saida) then (b, Recusado(FalhaNoBanco))
    else if run !in b.runs then (b, Recusado(NaoEncontrado))
    else if !Sandbox.ChecksDoResultado(linha) then (b, Recusado(FalhaNoBanco))
    else if (run, PRIMEIRA_TENTATIVA) in b.resultados then (b, Recusado(ResultadoJaGravado))
    else (b.(resultados := b.resultados[(run, PRIMEIRA_TENTATIVA) := linha]), Feito)
  }

  /** The CHECKs of remote_action_attempts. */
  predicate ChecksDaTentativa(l: LinhaTentativa) {
    && l.tenant > 0
    && l.pr > 0
    && !l.tipo.Outro?
    && l.decisao in {AcaoRemota.Aceita, AcaoRemota.Recusada, AcaoRemota.Falha}
  }

  function LinhaDaTentativa(runs: map<Uuid, TaskRun>, t: AcaoRemota.Tentativa): LinhaTentativa {
    LinhaTentativa(t.instalacao, MaisRecente(runs, t.instalacao, t.repositorio, t.numeroPR), t.tipo, t.usuario,
                   if t.login == "" then None else Some(t.login), t.repositorio, t.numeroPR, t.decisao, t.motivo, t.em)
  }

  /** Registrar: invalid and repeated attempts stay in the log; of the others the
      first with an action id is kept. */
  function RegistrarTentativa(b: Banco, t: AcaoRemota.Tentativa): (Banco, Resposta) {
    if t.decisao == AcaoRemota.Invalida || t.decisao == AcaoRemota.Repetida then (b, Feito)
    else if !NumeroDePR(t.numeroPR) then (b, Recusado(DadosInvalidos))
    else
      var linha := LinhaDaTentativa(b.runs, t);
      if !ChecksDaTentativa(linha) then (b, Recusado(FalhaNoBanco))
      else if t.idAcao in b.tentativas then (b, Feito)
      else (b.(tentativas := b.tentativas[t.idAcao := linha]), Feito)
  }

  datatype Operacao =
    | OpCriar(novo: NovoTaskRun, id: Uuid, agora: Instante)
    | OpTransicionar(run: Uuid, de: Estado, para: Estado, detalhe: string, agora: Instante)
    | OpRevisao(revisao: Revisao)
    | OpAprovacao(aprovacao: Aprovacao)
    | OpRecibo(recibo: NovoRecibo, id: Uuid)
    | OpGravar(run: Uuid, resultado: Sandbox.ResultadoSandbox)
    | OpTentativa(tentativa: AcaoRemota.Tentativa)

  function Aplicar(b: Banco, op: Operacao): (r: (Banco, Resposta))
    requires EntregasUnicas(b.runs)
    ensures EntregasUnicas(r.0.runs)
  {
    match op
    case OpCriar(novo, id, agora) => CriarTaskRun(b, novo, id, agora)
    case OpTransicionar(run, de, para, detalhe, agora) => Transicionar(b, run, de, para, detalhe, agora)
    case OpRevisao(revisao) => RegistrarRevisao(b, revisao)
    case OpAprovacao(aprovacao) => RegistrarAprovacao(b, aprovacao)
    case OpRecibo(recibo, id) => AnexarRecibo(b, recibo, id)
    case OpGravar(run, resultado) => Gravar(b, run, resultado)
    case OpTentativa(tentativa) => RegistrarTentativa(b, tentativa)
  }

  /** The tables after a sequence of operations, one after the other. */
  function Executar(b: Banco, ops: seq<Operacao>): (r: Banco)
    requires EntregasUnicas(b.runs)
    ensures EntregasUnicas(r.runs)
  {
    if ops == [] then b else Aplicar(Executar(b, ops[..|ops| - 1]), ops[|ops| - 1]).0
  }

  lemma UmaOperacao(b: Banco, op: Operacao)
    requires EntregasUnicas(b.runs)
    ensures Executar(b, [op]) == Aplicar(b, op).0
  {
    assert [op][..0] == [];
  }

  lemma {:induction false} ExecutarEmPartes(b: Banco, a: seq<Operacao>, c: seq<Operacao>)
    requires EntregasUnicas(b.runs)
    ensures Executar(b, a + c) == Executar(Executar(b, a), c)
  {
    if c == [] {
      assert a + c == a;
    } else {
      var n := |c| - 1;
      assert (a + c)[..|a + c| - 1] == a + c[..n];
      ExecutarEmPartes(b, a, c[..n]);
    }
  }

  /** A refused operation changes nothing. */
  lemma RecusaNaoMuda(b: Banco, op: Operacao)
    requires EntregasUnicas(b.runs)
    ensures !Sucesso(Aplicar(b, op).1) ==> Aplicar(b, op).0 == b
  {
  }

  predicate MesmaLinha(a: TaskRun, b: TaskRun) {
    b == a.(estado := b.estado, atualizadoEm := b.atualizadoEm)
  }

  /** What no operation touches: rows of runs but their state and its date,
      stored receipts, steps, approvals, results and attempts. */
  predicate SoCresce(a: Banco, b: Banco) {
    && (forall id :: id in a.runs ==> id in b.runs && MesmaLinha(a.runs[id], b.runs[id]))
    && a.etapas <= b.etapas
    && a.recibos <= b.recibos
    && (forall k :: k in a.aprovacoes ==> k in b.aprovacoes && b.aprovacoes[k] == a.aprovacoes[k])
    && (forall k :: k in a.resultados ==> k in b.resultados && b.resultados[k] == a.resultados[k])
    && (forall k :: k in a.tentativas ==> k in b.tentativas && b.tentativas[k] == a.tentativas[k])
  }

  lemma AplicarSoCresce(b: Banco, op: Operacao)
    requires EntregasUnicas(b.runs)
    ensures SoCresce(b, Aplicar(b, op).0)
  {
    match op
    case OpCriar(novo, id, agora) => CriarSoCresce(b, novo, id, agora);
    case OpTransicionar(run, de, para, detalhe, agora) => TransicionarSoCresce(b, run, de, para, detalhe, agora);
    case OpRevisao(revisao) => RevisaoSoCresce(b, revisao);
    case OpAprovacao(aprovacao) => AprovacaoSoCresce(b, aprovacao);
    case OpRecibo(recibo, id) => ReciboSoCresce(b, recibo, id);
    case OpGravar(run, resultado) => GravarSoCresce(b, run, resultado);
    case OpTentativa(tentativa) => TentativaSoCresce(b, tentativa);
  }

  lemma SoRuns(b: Banco, runs: map<Uuid, TaskRun>)
    requires forall id :: id in b.runs ==> id in runs && MesmaLinha(b.runs[id], runs[id])
    ensures SoCresce(b, b.(runs := runs))
  {
  }

  lemma CriarSoCresce(b: Banco, novo: NovoTaskRun, id: Uuid, agora: Instante)
    requires EntregasUnicas(b.runs)
    ensures SoCresce(b, CriarTaskRun(b, novo, id, agora).0)
  {
    var c := CriarTaskRun(b, novo, id, agora).0;
    assert c == b.(runs := c.runs);
    assert c == b || (id !in b.runs && c.runs == b.runs[id := c.runs[id]]);
    SoRuns(b, c.runs);
  }

  lemma TransicionarSoCresce(b: Banco, run: Uuid, de: Estado, para: Estado, detalhe: string, agora: Instante)
    ensures SoCresce(b, Transicionar(b, run, de, para, detalhe, agora).0)
  {
  }

  lemma SoAprovacoes(b: Banco, aprovacoes: map<string, LinhaAprovacao>)
    requires forall k :: k in b.aprovacoes ==> k in aprovacoes && aprovacoes[k] == b.aprovacoes[k]
    ensures SoCresce(b, b.(aprovacoes := aprovacoes))
  {
  }

  lemma AprovacaoSoCresce(b: Banco, a: Aprovacao)
    ensures SoCresce(b, RegistrarAprovacao(b, a).0)
  {
    var c := RegistrarAprovacao(b, a).0;
    assert c == b.(aprovacoes := c.aprovacoes);
    SoAprovacoes(b, c.aprovacoes);
  }

  lemma RevisaoSoCresce(b: Banco, r: Revisao)
    ensures SoCresce(b, RegistrarRevisao(b, r).0)
  {
    var decisao, run := DecisaoPorEstado(r.estado), MaisRecente(b.runs, r.tenant, r.repositorio, r.pr);
    if decisao.Some? && run.Some? {
      AprovacaoSoCresce(b, Aprovacao(run.value, r.entrega, decisao.value, r.revisor, "", r.recebidoEm));
    }
  }

  lemma ReciboSoCresce(b: Banco, novo: NovoRecibo, id: Uuid)
    ensures SoCresce(b, AnexarRecibo(b, novo, id).0)
  {
  }

  lemma SoResultados(b: Banco, resultados: map<(Uuid, int), Sandbox.ResultadoSandbox>)
    requires forall k :: k in b.resultados ==> k in resultados && resultados[k] == b.resultados[k]
    ensures SoCresce(b, b.(resultados := resultados))
  {
  }

  lemma GravarSoCresce(b: Banco, run: Uuid, r: Sandbox.ResultadoSandbox)
    ensures SoCresce(b, Gravar(b, run, r).0)
  {
    var c := Gravar(b, run, r).0;
    assert c == b.(resultados := c.resultados);
    SoResultados(b, c.resultados);
  }

  lemma SoTentativas(b: Banco, tentativas: map<string, LinhaTentativa>)
    requires forall k :: k in b.tentativas ==> k in tentativas && tentativas[k] == b.tentativas[k]
    ensures SoCresce(b, b.(tentativas := tentativas))
  {
  }

  lemma TentativaSoCresce(b: Banco, t: AcaoRemota.Tentativa)
    ensures SoCresce(b, RegistrarTentativa(b, t).0)
  {
    var c := RegistrarTentativa(b, t).0;
    assert c == b.(tentativas := c.tentativas);
    SoTentativas(b, c.tentativas);
  }

  lemma SoCresceTransitivo(a: Banco, b: Banco, c: Banco)
    requires SoCresce(a, b) && SoCresce(b, c)
    ensures SoCresce(a, c)
  {
  }

  /** Over any sequence of operations nothing stored is lost or rewritten; no
      receipt, in particular, ever changes. */
  lemma {:induction false} ExecutarSoCresce(b: Banco, ops: seq<Operacao>)
    requires EntregasUnicas(b.runs)
    ensures SoCresce(b, Executar(b, ops))
  {
    if ops != [] {
      var c := Executar(b, ops[..|ops| - 1]);
      ExecutarSoCresce(b, ops[..|ops| - 1]);
      AplicarSoCresce(c, ops[|ops| - 1]);
      SoCresceTransitivo(b, c, Executar(b, ops));
    }
  }
}
