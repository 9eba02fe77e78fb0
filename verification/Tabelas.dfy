/** The tables (migrations/) as values, their lookups and the validated inputs
    of the repository (internal/domain/persistencia.go). Identifiers and
    instants the database chooses are inputs. */
module Tabelas {
  import opened Comum
  import Sandbox
  import AcaoRemota

  /** uuid values, in the order PostgreSQL compares them. */
  type Uuid = nat

  /** 0 is Go's zero time. */
  type Instante = int

  datatype Estado =
    | Pendente | MapeandoContexto | Gerando | TestandoSandbox | AvaliandoRisco
    | AguardandoAprovacao | Aplicando | Concluido | Rejeitado | Falhou

  /** FalhaNoBanco is any error the repository does not translate: a violated
      CHECK, or a statement in an aborted transaction. */
  datatype Erro =
    | DadosInvalidos | NaoEncontrado | Duplicado | TransicaoConcorrente | ResultadoJaGravado | FalhaNoBanco

  datatype TaskRun = TaskRun(
    tenant: int, entrega: string, repositorio: string, pr: int, sha: string, autor: string, acao: string,
    estado: Estado, recebidoEm: Instante, criadoEm: Instante, atualizadoEm: Instante)

  datatype Etapa = Etapa(tenant: int, run: Uuid, de: Estado, para: Estado, detalhe: string)

  datatype Recibo = Recibo(
    id: Uuid, tenant: int, run: Uuid, anterior: Option<Uuid>, conteudo: string, hash: Bytes, assinatura: Bytes,
    chave: string, assinadoEm: Instante)

  datatype Decisao = Aprovada | AlteracoesSolicitadas

  datatype LinhaAprovacao = LinhaAprovacao(
    tenant: int, run: Uuid, decisao: Decisao, revisor: string, justificativa: string, decididaEm: Instante)

  datatype LinhaTentativa = LinhaTentativa(
    tenant: int, run: Option<Uuid>, tipo: AcaoRemota.Tipo, usuario: string, login: Option<string>,
    repositorio: string, pr: int, decisao: AcaoRemota.Decisao, motivo: AcaoRemota.Motivo, em: Instante)

  /** Approvals and attempts are keyed by their unique delivery and action ids,
      sandbox results by run and attempt number. */
  datatype Banco = Banco(
    runs: map<Uuid, TaskRun>,
    etapas: seq<Etapa>,
    recibos: seq<Recibo>,
    aprovacoes: map<string, LinhaAprovacao>,
    resultados: map<(Uuid, int), Sandbox.ResultadoSandbox>,
    tentativas: map<string, LinhaTentativa>)

  const VAZIO := Banco(map[], [], [], map[], map[], map[])

  const PRIMEIRA_TENTATIVA: int := 1

  // ---- Inputs ----

  datatype NovoTaskRun = NovoTaskRun(
    tenant: int, entrega: string, repositorio: string, pr: int, sha: string, autor: string, acao: string, recebidoEm: Instante)

  datatype Aprovacao = Aprovacao(run: Uuid, entrega: string, decisao: Decisao, revisor: string, justificativa: string, decididaEm: Instante)

  datatype Revisao = Revisao(tenant: int, repositorio: string, pr: int, estado: string, revisor: string, entrega: string, recebidoEm: Instante)

  datatype NovoRecibo = NovoRecibo(run: Uuid, anterior: Option<Uuid>, conteudo: string, hash: Bytes, assinatura: Bytes, chave: string, assinadoEm: Instante)

  predicate NovoTaskRunValido(n: NovoTaskRun) {
    && n.tenant > 0
    && 0 < |n.entrega| <= 100
    && 0 < |n.repositorio| <= 200
    && 0 < n.pr <= MAX_INT32
    && (|n.sha| == 40 || |n.sha| == 64)
    && Hexadecimal(n.sha)
    && 0 < |n.autor| <= 100
    && 0 < |n.acao| <= 50
    && n.recebidoEm != 0
  }

  predicate AprovacaoValida(a: Aprovacao) {
    && 0 < |a.entrega| <= 100
    && 0 < |a.revisor| <= 100
    && |a.justificativa| <= 4000
    && a.decididaEm != 0
  }

  predicate NovoReciboValido(n: NovoRecibo) {
    && n.conteudo != ""
    && |n.hash| == 32
    && |n.assinatura| == 64
    && 0 < |n.chave| <= 100
    && n.assinadoEm != 0
  }

  /** decisaoPorEstadoDeReview. */
  function DecisaoPorEstado(estado: string): Option<Decisao> {
    if estado == "approved" then Some(Aprovada)
    else if estado == "changes_requested" then Some(AlteracoesSolicitadas)
    else None
  }

  /** numeroDePR: whether the number fits the integer column. */
  predicate NumeroDePR(n: int) {
    0 < n <= MAX_INT32
  }

  // ---- Lookups ----

  /** UNIQUE (delivery_id). */
  predicate EntregasUnicas(runs: map<Uuid, TaskRun>) {
    forall a, b :: a in runs && b in runs && runs[a].entrega == runs[b].entrega ==> a == b
  }

  /** GetTaskRunByDeliveryID. */
  function PorEntrega(runs: map<Uuid, TaskRun>, entrega: string): (r: Option<Uuid>)
    requires EntregasUnicas(runs)
    ensures r.Some? ==> r.value in runs && runs[r.value].entrega == entrega
    ensures r.None? ==> forall id :: id in runs ==> runs[id].entrega != entrega
  {
    if exists id :: id in runs && runs[id].entrega == entrega then
      var id :| id in runs && runs[id].entrega == entrega;
      Some(id)
    else None
  }

  predicate DoPullRequest(r: TaskRun, tenant: int, repositorio: string, pr: int) {
    r.tenant == tenant && r.repositorio == repositorio && r.pr == pr
  }

  /** ORDER BY created_at DESC, id DESC. */
  predicate AntesOuIgual(runs: map<Uuid, TaskRun>, a: Uuid, b: Uuid)
    requires a in runs && b in runs
  {
    runs[a].criadoEm < runs[b].criadoEm || (runs[a].criadoEm == runs[b].criadoEm && a <= b)
  }

  predicate EhMaisRecente(runs: map<Uuid, TaskRun>, tenant: int, repositorio: string, pr: int, id: Uuid) {
    && id in runs && DoPullRequest(runs[id], tenant, repositorio, pr)
    && forall a :: a in runs && DoPullRequest(runs[a], tenant, repositorio, pr) ==> AntesOuIgual(runs, a, id)
  }

  /** GetLatestTaskRunForPullRequest: the greatest row, if any matches. */
  function MaisRecente(runs: map<Uuid, TaskRun>, tenant: int, repositorio: string, pr: int): (r: Option<Uuid>)
    ensures r.Some? ==> EhMaisRecente(runs, tenant, repositorio, pr, r.value)
    ensures r.None? <==> forall a :: a in runs ==> !DoPullRequest(runs[a], tenant, repositorio, pr)
  {
    if exists a :: a in runs && DoPullRequest(runs[a], tenant, repositorio, pr) then
      ExisteMaisRecente(runs, tenant, repositorio, pr);
      var id :| id in runs && EhMaisRecente(runs, tenant, repositorio, pr, id);
      Some(id)
    else None
  }

  lemma ExisteMaisRecente(runs: map<Uuid, TaskRun>, tenant: int, repositorio: string, pr: int)
    requires exists a :: a in runs && DoPullRequest(runs[a], tenant, repositorio, pr)
    ensures exists id :: id in runs && EhMaisRecente(runs, tenant, repositorio, pr, id)
  {
    var candidatos := set a | a in runs && DoPullRequest(runs[a], tenant, repositorio, pr);
    var a :| a in runs && DoPullRequest(runs[a], tenant, repositorio, pr);
    assert a in candidatos;
    var m := MaiorEntre(runs, candidatos);
    assert EhMaisRecente(runs, tenant, repositorio, pr, m);
  }

  lemma {:induction false} MaiorEntre(runs: map<Uuid, TaskRun>, candidatos: set<Uuid>) returns (m: Uuid)
    requires candidatos != {} && forall a :: a in candidatos ==> a in runs
    ensures m in candidatos && forall a :: a in candidatos ==> AntesOuIgual(runs, a, m)
    decreases candidatos
  {
    var c :| c in candidatos;
    var resto := candidatos - {c};
    m := c;
    if resto != {} {
      var x := MaiorEntre(runs, resto);
      m := if AntesOuIgual(runs, c, x) then x else c;
    }
    forall a | a in candidatos
      ensures AntesOuIgual(runs, a, m)
    {
      assert a == c || a in resto;
    }
  }
}
