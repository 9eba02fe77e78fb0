/** Redelivery is harmless: what was stored once is not stored again, in
    whatever order deliveries and other operations come
    (internal/repository/postgres.go; the ON CONFLICT clauses and unique indexes
    of internal/repository/db). */
module Entregas {
  import opened Comum
  import opened Tabelas
  import opened Operacoes
  import AcaoRemota

  /** What identifies a write that happens once. */
  datatype Chave =
    | DoPullRequest(entrega: string)
    | DaRevisao(entrega: string)
    | DoRecibo(run: Uuid)
    | DoResultado(run: Uuid)
    | DaAcao(id: string)

  function ChaveDe(op: Operacao): Option<Chave> {
    match op
    case OpCriar(novo, _, _) => Some(DoPullRequest(novo.entrega))
    case OpTransicionar(_, _, _, _, _) => None
    case OpRevisao(revisao) => Some(DaRevisao(revisao.entrega))
    case OpAprovacao(aprovacao) => Some(DaRevisao(aprovacao.entrega))
    case OpRecibo(recibo, _) => Some(DoRecibo(recibo.run))
    case OpGravar(run, _) => Some(DoResultado(run))
    case OpTentativa(t) =>
      if t.decisao == AcaoRemota.Invalida || t.decisao == AcaoRemota.Repetida then None else Some(DaAcao(t.idAcao))
  }

  predicate Gravada(b: Banco, c: Chave) {
    match c
    case DoPullRequest(entrega) => exists id :: id in b.runs && b.runs[id].entrega == entrega
    case DaRevisao(entrega) => entrega in b.aprovacoes
    case DoRecibo(run) => exists i :: 0 <= i < |b.recibos| && b.recibos[i].run == run
    case DoResultado(run) => (run, PRIMEIRA_TENTATIVA) in b.resultados
    case DaAcao(id) => id in b.tentativas
  }

  lemma GravadaContinua(a: Banco, b: Banco, c: Chave)
    requires SoCresce(a, b) && Gravada(a, c)
    ensures Gravada(b, c)
  {
    match c
    case DoPullRequest(entrega) =>
      var id :| id in a.runs && a.runs[id].entrega == entrega;
      assert MesmaLinha(a.runs[id], b.runs[id]);
    case DoRecibo(run) =>
      var i :| 0 <= i < |a.recibos| && a.recibos[i].run == run;
      assert b.recibos[i] == a.recibos[i];
    case _ =>
  }

  lemma SucessoGrava(b: Banco, op: Operacao)
    requires EntregasUnicas(b.runs) && ChaveDe(op).Some? && Sucesso(Aplicar(b, op).1)
    ensures Gravada(Aplicar(b, op).0, ChaveDe(op).value)
  {
    var c := Aplicar(b, op).0;
    match op
    case OpRecibo(recibo, _) => assert c.recibos[|b.recibos|].run == recibo.run;
    case OpCriar(novo, id, _) =>
      if PorEntrega(b.runs, novo.entrega).None? {
        assert c.runs[id].entrega == novo.entrega;
      }
    case _ =>
  }

  lemma GravadaNaoMuda(b: Banco, op: Operacao)
    requires EntregasUnicas(b.runs) && ChaveDe(op).Some? && Gravada(b, ChaveDe(op).value)
    ensures Aplicar(b, op).0 == b
  {
  }

  /** The keys whose write succeeded somewhere in the run. */
  function Vistas(b: Banco, ops: seq<Operacao>): set<Chave>
    requires EntregasUnicas(b.runs)
  {
    if ops == [] then {}
    else
      var antes, op := ops[..|ops| - 1], ops[|ops| - 1];
      if ChaveDe(op).Some? && Sucesso(Aplicar(Executar(b, antes), op).1)
      then Vistas(b, antes) + {ChaveDe(op).value}
      else Vistas(b, antes)
  }

  /** The run without the repeats of what had already succeeded. */
  function SemRepetidas(b: Banco, ops: seq<Operacao>): seq<Operacao>
    requires EntregasUnicas(b.runs)
  {
    if ops == [] then []
    else
      var antes, op := ops[..|ops| - 1], ops[|ops| - 1];
      if ChaveDe(op).Some? && ChaveDe(op).value in Vistas(b, antes)
      then SemRepetidas(b, antes)
      else SemRepetidas(b, antes) + [op]
  }

  lemma {:induction false} VistasGravadas(b: Banco, ops: seq<Operacao>)
    requires EntregasUnicas(b.runs)
    ensures forall c :: c in Vistas(b, ops) ==> Gravada(Executar(b, ops), c)
  {
    if ops != [] {
      var antes, op := ops[..|ops| - 1], ops[|ops| - 1];
      VistasGravadas(b, antes);
      AplicarSoCresce(Executar(b, antes), op);
      forall c | c in Vistas(b, ops)
        ensures Gravada(Executar(b, ops), c)
      {
        if c in Vistas(b, antes) {
          GravadaContinua(Executar(b, antes), Executar(b, ops), c);
        } else {
          SucessoGrava(Executar(b, antes), op);
        }
      }
    }
  }

  /** Erasing every repeat of a delivery, review, receipt, result or action that
      had already succeeded leaves the final tables as they are, whatever came
      in between. */
  lemma {:induction false} RepetirNaoMudaNada(b: Banco, ops: seq<Operacao>)
    requires EntregasUnicas(b.runs)
    ensures Executar(b, SemRepetidas(b, ops)) == Executar(b, ops)
  {
    if ops != [] {
      var antes, op := ops[..|ops| - 1], ops[|ops| - 1];
      RepetirNaoMudaNada(b, antes);
      if ChaveDe(op).Some? && ChaveDe(op).value in Vistas(b, antes) {
        VistasGravadas(b, antes);
        GravadaNaoMuda(Executar(b, antes), op);
      } else {
        var s := SemRepetidas(b, antes);
        assert (s + [op])[..|s|] == s;
      }
    }
  }

  /** A pull request redelivered later answers with the run of the first
      delivery, whatever the redelivered payload says. */
  lemma ReentregaDevolveOPrimeiro(b: Banco, novo: NovoTaskRun, id: Uuid, agora: Instante, entre: seq<Operacao>,
                                  outro: NovoTaskRun, outroId: Uuid, depois: Instante)
    requires EntregasUnicas(b.runs) && Sucesso(CriarTaskRun(b, novo, id, agora).1)
    requires NovoTaskRunValido(outro) && outro.entrega == novo.entrega
    ensures var (c, r) := CriarTaskRun(b, novo, id, agora);
            && EntregasUnicas(c.runs)
            && CriarTaskRun(Executar(c, entre), outro, outroId, depois) == (Executar(c, entre), Run(r.id, false))
  {
    var op := OpCriar(novo, id, agora);
    var (c, r) := Aplicar(b, op);
    ExecutarSoCresce(c, entre);
    assert c.runs[r.id].entrega == novo.entrega;
    assert MesmaLinha(c.runs[r.id], Executar(c, entre).runs[r.id]);
  }

  /** A review redelivered after a newer run appeared does not move its approval:
      the row stays on the run, with the decision, of the first delivery. */
  lemma RevisaoFicaNoPrimeiroRun(b: Banco, revisao: Revisao, entre: seq<Operacao>, outra: Revisao)
    requires EntregasUnicas(b.runs) && Sucesso(RegistrarRevisao(b, revisao).1)
    requires outra.entrega == revisao.entrega
    ensures var c := RegistrarRevisao(b, revisao).0;
            && EntregasUnicas(c.runs)
            && revisao.entrega in c.aprovacoes
            && RegistrarRevisao(Executar(c, entre), outra).0 == Executar(c, entre)
            && revisao.entrega in Executar(c, entre).aprovacoes
            && Executar(c, entre).aprovacoes[revisao.entrega] == c.aprovacoes[revisao.entrega]
            && (revisao.entrega !in b.aprovacoes ==>
                  MaisRecente(b.runs, revisao.tenant, revisao.repositorio, revisao.pr) == Some(c.aprovacoes[revisao.entrega].run))
  {
    var op := OpRevisao(revisao);
    var c := Aplicar(b, op).0;
    SucessoGrava(b, op);
    ExecutarSoCresce(c, entre);
    GravadaNaoMuda(Executar(c, entre), OpRevisao(outra));
  }
}
