/** What the tables hold, told by the operations that wrote it: each stored row,
    field by field, for as long as the database lives
    (internal/repository/postgres.go and the queries of internal/repository/db). */
module Linhas {
  import opened Comum
  import opened Tabelas
  import opened Operacoes
  import I = Intercalacoes

  // ---- Runs ----

  /** Everything but the state and its date, which transitions change. */
  predicate EhORun(l: TaskRun, novo: NovoTaskRun, agora: Instante) {
    && l.tenant == novo.tenant && l.entrega == novo.entrega && l.repositorio == novo.repositorio && l.pr == novo.pr
    && l.sha == novo.sha && l.autor == novo.autor && l.acao == novo.acao
    && l.recebidoEm == novo.recebidoEm && l.criadoEm == agora
  }

  /** A creation stores its input, pending, and no later operation rewrites it. */
  lemma CriacaoGuardaAEntrada(b: Banco, novo: NovoTaskRun, id: Uuid, agora: Instante, depois: seq<Operacao>)
    requires EntregasUnicas(b.runs) && CriarTaskRun(b, novo, id, agora).1 == Run(id, true)
    ensures var c := CriarTaskRun(b, novo, id, agora).0;
            && id !in b.runs && c.runs.Keys == b.runs.Keys + {id}
            && c.runs[id].estado == Pendente && c.runs[id].atualizadoEm == agora
            && EntregasUnicas(c.runs)
            && id in Executar(c, depois).runs && EhORun(Executar(c, depois).runs[id], novo, agora)
  {
    var c := Aplicar(b, OpCriar(novo, id, agora)).0;
    ExecutarSoCresce(c, depois);
    assert MesmaLinha(c.runs[id], Executar(c, depois).runs[id]);
  }

  /** What each creation is answered, with the limits its validation sets. */
  lemma QuandoCria(b: Banco, novo: NovoTaskRun, id: Uuid, agora: Instante)
    requires EntregasUnicas(b.runs)
    ensures var r := CriarTaskRun(b, novo, id, agora).1;
            var valido := && novo.tenant > 0 && 0 < |novo.entrega| <= 100 && 0 < |novo.repositorio| <= 200
                          && 0 < novo.pr <= 2_147_483_647 && |novo.sha| in {40, 64} && Hexadecimal(novo.sha)
                          && 0 < |novo.autor| <= 100 && 0 < |novo.acao| <= 50 && novo.recebidoEm != 0;
            var conhecida := exists x :: x in b.runs && b.runs[x].entrega == novo.entrega;
            && (r == Recusado(DadosInvalidos) <==> !valido)
            && (r == Run(id, true) <==> valido && !conhecida && id !in b.runs)
            && (r == Recusado(Duplicado) <==> valido && !conhecida && id in b.runs)
            && (valido && conhecida <==> r.Run? && !r.criado)
            && (r.Run? && !r.criado ==> r.id in b.runs && b.runs[r.id].entrega == novo.entrega)
  {
  }

  // ---- Approvals ----

  /** The decision a review in the state given stands for. */
  predicate Traduz(estado: string, decisao: Decisao) {
    match decisao
    case Aprovada => estado == "approved"
    case AlteracoesSolicitadas => estado == "changes_requested"
  }

  /** What an approval keeps of the review that brought it. */
  predicate EhDaRevisao(l: LinhaAprovacao, r: Revisao) {
    && Traduz(r.estado, l.decisao)
    && l.tenant == r.tenant && l.revisor == r.revisor && l.justificativa == "" && l.decididaEm == r.recebidoEm
  }

  predicate EhAAprovacao(l: LinhaAprovacao, a: Aprovacao, tenant: int) {
    && l.tenant == tenant && l.run == a.run && l.decisao == a.decisao
    && l.revisor == a.revisor && l.justificativa == a.justificativa && l.decididaEm == a.decididaEm
  }

  predicate DoPR(l: TaskRun, tenant: int, repositorio: string, pr: int) {
    l.tenant == tenant && l.repositorio == repositorio && l.pr == pr
  }

  /** No run of the pull request was created after it, ties broken by id. */
  predicate Ultimo(b: Banco, tenant: int, repositorio: string, pr: int, id: Uuid) {
    && id in b.runs && DoPR(b.runs[id], tenant, repositorio, pr)
    && forall x :: x in b.runs && DoPR(b.runs[x], tenant, repositorio, pr) && x != id ==>
         b.runs[x].criadoEm < b.runs[id].criadoEm || (b.runs[x].criadoEm == b.runs[id].criadoEm && x < id)
  }

  lemma AprovacaoGuardaAEntrada(b: Banco, a: Aprovacao, depois: seq<Operacao>)
    requires EntregasUnicas(b.runs) && RegistrarAprovacao(b, a).1 == Feito && a.entrega !in b.aprovacoes
    ensures var c := RegistrarAprovacao(b, a).0;
            && EntregasUnicas(c.runs) && c.aprovacoes.Keys == b.aprovacoes.Keys + {a.entrega}
            && a.run in b.runs && a.entrega in Executar(c, depois).aprovacoes
            && EhAAprovacao(Executar(c, depois).aprovacoes[a.entrega], a, b.runs[a.run].tenant)
  {
    var c := Aplicar(b, OpAprovacao(a)).0;
    ExecutarSoCresce(c, depois);
  }

  /** What each approval is answered, with the limits its validation sets. */
  lemma QuandoAprova(b: Banco, a: Aprovacao)
    ensures var r := RegistrarAprovacao(b, a).1;
            var valida := 0 < |a.entrega| <= 100 && 0 < |a.revisor| <= 100 && |a.justificativa| <= 4000 && a.decididaEm != 0;
            && (r == Recusado(DadosInvalidos) <==> !valida)
            && (r == Recusado(NaoEncontrado) <==> valida && a.run !in b.runs)
            && (r == Feito <==> valida && a.run in b.runs)
  {
  }

  /** A review stored says what the reviewer said, by the words GitHub uses, on the
      latest run of the pull request, and nothing changes it later. */
  lemma RevisaoGuardaADecisao(b: Banco, r: Revisao, depois: seq<Operacao>)
    requires EntregasUnicas(b.runs) && RegistrarRevisao(b, r).1 == Feito && r.entrega !in b.aprovacoes
    ensures var c := RegistrarRevisao(b, r).0;
            && EntregasUnicas(c.runs) && c.aprovacoes.Keys == b.aprovacoes.Keys + {r.entrega}
            && r.entrega in Executar(c, depois).aprovacoes
            && var l := Executar(c, depois).aprovacoes[r.entrega];
               EhDaRevisao(l, r) && Ultimo(b, r.tenant, r.repositorio, r.pr, l.run)
  {
    var c := Aplicar(b, OpRevisao(r)).0;
    ExecutarSoCresce(c, depois);
  }

  /** What each review is answered, with the limits its validation sets. */
  lemma QuandoRevisa(b: Banco, r: Revisao)
    ensures var resposta := RegistrarRevisao(b, r).1;
            var entendida := r.estado in {"approved", "changes_requested"} && 0 < r.pr <= 2_147_483_647;
            var temRun := exists x :: x in b.runs && DoPR(b.runs[x], r.tenant, r.repositorio, r.pr);
            var valida := 0 < |r.entrega| <= 100 && 0 < |r.revisor| <= 100 && r.recebidoEm != 0;
            && (resposta == Feito <==> entendida && temRun && valida)
            && (resposta == Recusado(NaoEncontrado) <==> entendida && !temRun)
            && (resposta == Recusado(DadosInvalidos) <==> !entendida || (temRun && !valida))
  {
    if x :| x in b.runs && DoPR(b.runs[x], r.tenant, r.repositorio, r.pr) {
      assert DoPullRequest(b.runs[x], r.tenant, r.repositorio, r.pr);
    }
    if x :| x in b.runs && DoPullRequest(b.runs[x], r.tenant, r.repositorio, r.pr) {
      assert DoPR(b.runs[x], r.tenant, r.repositorio, r.pr);
    }
  }

  /** Creation and review meet: once a run was created for a pull request, a valid
      review of it is stored whatever happened in between, on that run if none of
      the pull request came later. */
  lemma RevisaoAchaORun(b: Banco, novo: NovoTaskRun, id: Uuid, agora: Instante, entre: seq<Operacao>, r: Revisao)
    requires EntregasUnicas(b.runs) && CriarTaskRun(b, novo, id, agora).1 == Run(id, true)
    requires r.tenant == novo.tenant && r.repositorio == novo.repositorio && r.pr == novo.pr
    requires r.estado in {"approved", "changes_requested"}
    requires 0 < |r.entrega| <= 100 && 0 < |r.revisor| <= 100 && r.recebidoEm != 0
    ensures EntregasUnicas(CriarTaskRun(b, novo, id, agora).0.runs)
    ensures var d := Executar(CriarTaskRun(b, novo, id, agora).0, entre);
            var (e, resposta) := RegistrarRevisao(d, r);
            && resposta == Feito && r.entrega in e.aprovacoes
            && (r.entrega !in d.aprovacoes && Ultimo(d, novo.tenant, novo.repositorio, novo.pr, id) ==>
                  e.aprovacoes[r.entrega].run == id)
  {
    CriacaoGuardaAEntrada(b, novo, id, agora, entre);
    var d := Executar(CriarTaskRun(b, novo, id, agora).0, entre);
    assert DoPR(d.runs[id], r.tenant, r.repositorio, r.pr);
    QuandoRevisa(d, r);
    if r.entrega !in d.aprovacoes {
      RevisaoGuardaADecisao(d, r, []);
    }
  }

  // ---- Receipts, steps ----

  predicate EhORecibo(l: Recibo, novo: NovoRecibo, id: Uuid, tenant: int) {
    && l.id == id && l.tenant == tenant && l.run == novo.run && l.anterior == novo.anterior
    && l.conteudo == novo.conteudo && l.hash == novo.hash && l.assinatura == novo.assinatura
    && l.chave == novo.chave && l.assinadoEm == novo.assinadoEm
  }

  /** A receipt appended holds what was signed, and nothing changes it later. */
  lemma ReciboGuardaAEntrada(b: Banco, novo: NovoRecibo, id: Uuid, depois: seq<Operacao>)
    requires EntregasUnicas(b.runs) && AnexarRecibo(b, novo, id).1.ReciboAnexado?
    ensures var (c, r) := AnexarRecibo(b, novo, id);
            && EntregasUnicas(c.runs) && novo.run in b.runs && |c.recibos| == |b.recibos| + 1
            && var rs := Executar(c, depois).recibos;
               |rs| > |b.recibos| && rs[|b.recibos|] == r.recibo && EhORecibo(r.recibo, novo, id, b.runs[novo.run].tenant)
  {
    var c := Aplicar(b, OpRecibo(novo, id)).0;
    ExecutarSoCresce(c, depois);
  }

  predicate EhAEtapa(l: Etapa, op: Operacao, tenant: int) {
    op.OpTransicionar? && l.tenant == tenant && l.run == op.run && l.de == op.de && l.para == op.para && l.detalhe == op.detalhe
  }

  /** A transition made moves the run, dates it, and stores its step for good. */
  lemma TransicaoGuardaOPasso(b: Banco, op: Operacao, depois: seq<Operacao>)
    requires EntregasUnicas(b.runs) && op.OpTransicionar? && Sucesso(Aplicar(b, op).1)
    ensures var c := Aplicar(b, op).0;
            && op.run in b.runs && c.runs == b.runs[op.run := c.runs[op.run]] && |c.etapas| == |b.etapas| + 1
            && c.runs[op.run].estado == op.para && c.runs[op.run].atualizadoEm == op.agora
            && var es := Executar(c, depois).etapas;
               |es| > |b.etapas| && EhAEtapa(es[|b.etapas|], op, b.runs[op.run].tenant)
  {
    assert Aplicar(b, op) == Transicionar(b, op.run, op.de, op.para, op.detalhe, op.agora);
    ExecutarSoCresce(Aplicar(b, op).0, depois);
  }

  /** What each transition is answered. */
  lemma QuandoMove(b: Banco, op: Operacao)
    requires EntregasUnicas(b.runs) && op.OpTransicionar?
    ensures var r := Aplicar(b, op).1;
            && (r == Recusado(DadosInvalidos) <==> |op.detalhe| > 4000)
            && (r == Recusado(NaoEncontrado) <==> |op.detalhe| <= 4000 && op.run !in b.runs)
            && (r == Recusado(TransicaoConcorrente) <==> |op.detalhe| <= 4000 && op.run in b.runs && b.runs[op.run].estado != op.de)
            && (r == Run(op.run, false) <==> |op.detalhe| <= 4000 && op.run in b.runs && b.runs[op.run].estado == op.de)
  {
    assert Aplicar(b, op) == Transicionar(b, op.run, op.de, op.para, op.detalhe, op.agora);
  }

  // ---- Where every row comes from ----

  /** The k-th operation, with the answer given, on the tables it found. */
  ghost predicate Respondeu(ops: seq<Operacao>, k: nat, r: Resposta)
    requires k < |ops|
  {
    Aplicar(Executar(VAZIO, ops[..k]), ops[k]).1 == r
  }

  ghost predicate CriouORun(ops: seq<Operacao>, k: nat, id: Uuid, l: TaskRun) {
    && k < |ops| && ops[k].OpCriar? && ops[k].id == id
    && EhORun(l, ops[k].novo, ops[k].agora) && Respondeu(ops, k, Run(id, true))
  }

  ghost predicate TrouxeAAprovacao(ops: seq<Operacao>, k: nat, entrega: string, l: LinhaAprovacao) {
    && k < |ops| && Respondeu(ops, k, Feito)
    && var antes := Executar(VAZIO, ops[..k]);
       || (ops[k].OpAprovacao? && ops[k].aprovacao.entrega == entrega && l.run in antes.runs
           && EhAAprovacao(l, ops[k].aprovacao, antes.runs[l.run].tenant))
       || (ops[k].OpRevisao? && ops[k].revisao.entrega == entrega && EhDaRevisao(l, ops[k].revisao)
           && Ultimo(antes, ops[k].revisao.tenant, ops[k].revisao.repositorio, ops[k].revisao.pr, l.run))
  }

  ghost predicate AnexouORecibo(ops: seq<Operacao>, k: nat, l: Recibo) {
    && k < |ops| && ops[k].OpRecibo? && Respondeu(ops, k, ReciboAnexado(l))
    && var antes := Executar(VAZIO, ops[..k]);
       l.run in antes.runs && EhORecibo(l, ops[k].recibo, ops[k].id, antes.runs[l.run].tenant)
  }

  lemma CriouContinua(ops: seq<Operacao>, mais: seq<Operacao>, k: nat, id: Uuid, l: TaskRun, m: TaskRun)
    requires CriouORun(ops, k, id, l) && MesmaLinha(l, m)
    ensures CriouORun(ops + mais, k, id, m)
  {
    assert (ops + mais)[..k] == ops[..k];
  }

  lemma TrouxeContinua(ops: seq<Operacao>, mais: seq<Operacao>, k: nat, entrega: string, l: LinhaAprovacao)
    requires TrouxeAAprovacao(ops, k, entrega, l)
    ensures TrouxeAAprovacao(ops + mais, k, entrega, l)
  {
    assert (ops + mais)[..k] == ops[..k];
  }

  lemma AnexouContinua(ops: seq<Operacao>, mais: seq<Operacao>, k: nat, l: Recibo)
    requires AnexouORecibo(ops, k, l)
    ensures AnexouORecibo(ops + mais, k, l)
  {
    assert (ops + mais)[..k] == ops[..k];
  }

  lemma NovoRun(b: Banco, op: Operacao, id: Uuid)
    requires EntregasUnicas(b.runs) && id !in b.runs && id in Aplicar(b, op).0.runs
    ensures op.OpCriar? && op.id == id && Aplicar(b, op).1 == Run(id, true)
    ensures EhORun(Aplicar(b, op).0.runs[id], op.novo, op.agora)
  {
    if op.OpCriar? {
      assert Aplicar(b, op) == CriarTaskRun(b, op.novo, op.id, op.agora);
    }
  }

  lemma NovaAprovacao(b: Banco, op: Operacao, entrega: string)
    requires EntregasUnicas(b.runs) && entrega !in b.aprovacoes && entrega in Aplicar(b, op).0.aprovacoes
    ensures op.OpAprovacao? || op.OpRevisao?
    ensures op.OpAprovacao? ==> op.aprovacao.entrega == entrega && RegistrarAprovacao(b, op.aprovacao).1 == Feito
    ensures op.OpRevisao? ==> op.revisao.entrega == entrega && RegistrarRevisao(b, op.revisao).1 == Feito
  {
  }

  lemma ReciboNovo(b: Banco, op: Operacao)
    requires EntregasUnicas(b.runs) && Aplicar(b, op).0.recibos != b.recibos
    ensures op.OpRecibo? && AnexarRecibo(b, op.recibo, op.id).1.ReciboAnexado?
  {
  }

  /** Every run in a reachable database was created by an operation that was
      answered as its creator, from what the row holds. */
  lemma {:induction false} TodoRunTemOrigem(ops: seq<Operacao>, id: Uuid)
    requires id in Executar(VAZIO, ops).runs
    ensures exists k: nat :: CriouORun(ops, k, id, Executar(VAZIO, ops).runs[id])
  {
    var n := |ops| - 1;
    var b, op := Executar(VAZIO, ops[..n]), ops[n];
    assert ops == ops[..n] + [op];
    var linha := Executar(VAZIO, ops).runs[id];
    if id in b.runs {
      TodoRunTemOrigem(ops[..n], id);
      var k: nat :| CriouORun(ops[..n], k, id, b.runs[id]);
      AplicarSoCresce(b, op);
      CriouContinua(ops[..n], [op], k, id, b.runs[id], linha);
    } else {
      NovoRun(b, op, id);
      assert CriouORun(ops, n, id, linha);
    }
  }

  /** Every approval was brought by an operation answered as done: an approval with
      what the row holds, or a review by its words, on the then latest run. */
  lemma {:induction false} TodaAprovacaoTemOrigem(ops: seq<Operacao>, entrega: string)
    requires entrega in Executar(VAZIO, ops).aprovacoes
    ensures exists k: nat :: TrouxeAAprovacao(ops, k, entrega, Executar(VAZIO, ops).aprovacoes[entrega])
  {
    var n := |ops| - 1;
    var b, op := Executar(VAZIO, ops[..n]), ops[n];
    assert ops == ops[..n] + [op];
    if entrega in b.aprovacoes {
      TodaAprovacaoTemOrigem(ops[..n], entrega);
      var k: nat :| TrouxeAAprovacao(ops[..n], k, entrega, b.aprovacoes[entrega]);
      AplicarSoCresce(b, op);
      TrouxeContinua(ops[..n], [op], k, entrega, b.aprovacoes[entrega]);
    } else {
      NovaAprovacao(b, op, entrega);
      if op.OpAprovacao? {
        AprovacaoGuardaAEntrada(b, op.aprovacao, []);
      } else {
        RevisaoGuardaADecisao(b, op.revisao, []);
      }
      assert TrouxeAAprovacao(ops, n, entrega, Executar(VAZIO, ops).aprovacoes[entrega]);
    }
  }

  /** Every receipt was appended by an operation that was answered with it, from
      what it holds. */
  lemma {:induction false} TodoReciboTemOrigem(ops: seq<Operacao>, i: nat)
    requires i < |Executar(VAZIO, ops).recibos|
    ensures exists k: nat :: AnexouORecibo(ops, k, Executar(VAZIO, ops).recibos[i])
  {
    var n := |ops| - 1;
    var b, op := Executar(VAZIO, ops[..n]), ops[n];
    assert ops == ops[..n] + [op];
    if i < |b.recibos| {
      TodoReciboTemOrigem(ops[..n], i);
      var k: nat :| AnexouORecibo(ops[..n], k, b.recibos[i]);
      AplicarSoCresce(b, op);
      AnexouContinua(ops[..n], [op], k, b.recibos[i]);
    } else {
      ReciboNovo(b, op);
      ReciboGuardaAEntrada(b, op.recibo, op.id, []);
      assert AnexouORecibo(ops, n, Executar(VAZIO, ops).recibos[i]);
    }
  }

  // ---- Among interleaved clients ----

  /** At some place up to `ate` the run was the latest of the review's pull
      request. */
  ghost predicate EraUltimo(feitas: seq<I.Feita>, ate: nat, r: Revisao, run: Uuid) {
    exists n: nat :: n <= ate && n <= |feitas| && Ultimo(I.Antes(feitas, n), r.tenant, r.repositorio, r.pr, run)
  }

  /** Wherever its place is, a review answered as done has its delivery stored; if
      it was new there, with the decision the review's words stand for, on a run
      that was the latest of the pull request at that place or before. */
  ghost predicate RevisaoNoLugar(s: I.Sistema, i: nat, k: nat, r: Revisao) {
    && k < |s.feitas| && s.feitas[k].cliente == i && r.entrega in s.banco.aprovacoes
    && (r.entrega !in I.Antes(s.feitas, k).aprovacoes ==>
          EhDaRevisao(s.banco.aprovacoes[r.entrega], r) && EraUltimo(s.feitas, k, r, s.banco.aprovacoes[r.entrega].run))
  }

  /** The decision of a review survives every interleaving. */
  lemma RevisaoIntercalada(s0: I.Sistema, ordem: seq<nat>, s: I.Sistema, i: nat)
    requires I.Inicial(s0) && s == I.Rodar(s0, ordem)
    requires i < |s.clientes| && s.clientes[i].op.OpRevisao? && s.clientes[i].fase == I.Respondida(Feito)
    ensures exists k: nat :: RevisaoNoLugar(s, i, k, s.clientes[i].op.revisao)
  {
    I.TodaIntercalacaoMantemInv(s0, ordem);
    I.TodasRecentes(s0, ordem);
    RevisaoRespondida(s, i, s.clientes[i].op.revisao);
  }

  lemma RevisaoRespondida(s: I.Sistema, i: nat, r: Revisao)
    requires I.Inv(s) && I.Recentes(s)
    requires i < |s.clientes| && s.clientes[i].op == OpRevisao(r) && s.clientes[i].fase == I.Respondida(Feito)
    ensures exists k: nat :: RevisaoNoLugar(s, i, k, r)
  {
    var k: nat :| k < |s.feitas| && s.feitas[k].cliente == i;
    assert I.LugarCoerente(s.banco, s.clientes[i], s.feitas[k]);
    NoLugarDaRevisao(s, i, k, r);
  }

  lemma NoLugarDaRevisao(s: I.Sistema, i: nat, k: nat, r: Revisao)
    requires I.Inv(s) && I.Recentes(s) && i < |s.clientes| && k < |s.feitas| && s.feitas[k].cliente == i
    requires s.clientes[i].op == OpRevisao(r) && s.feitas[k].resposta == Feito
    ensures RevisaoNoLugar(s, i, k, r)
  {
    I.AntesSegue(s.feitas, k);
    I.AntesCresce(s.feitas, k, |s.feitas|);
    I.AntesCresce(s.feitas, k + 1, |s.feitas|);
    I.AntesDoFim(s);
    assert I.NoLugar(s.feitas, k);
    assert I.LugarCoerente(s.banco, s.clientes[i], s.feitas[k]);
    if s.feitas[k].op == OpRevisao(r) {
      PropriaNoLugar(s.feitas, k, r);
    } else {
      assert I.RecenteNoLugar(s, k);
      UltimoQuandoLida(s.feitas, k, r, s.feitas[k].op.aprovacao.run);
      AprovacaoNoLugar(s, k, r, s.feitas[k].op.aprovacao);
    }
  }

  lemma PropriaNoLugar(feitas: seq<I.Feita>, k: nat, r: Revisao)
    requires k < |feitas| && Aplicar(I.Antes(feitas, k), OpRevisao(r)).1 == Feito
    ensures var (b, c) := (I.Antes(feitas, k), Aplicar(I.Antes(feitas, k), OpRevisao(r)).0);
            && r.entrega in c.aprovacoes
            && (r.entrega !in b.aprovacoes ==>
                  EhDaRevisao(c.aprovacoes[r.entrega], r) && EraUltimo(feitas, k, r, c.aprovacoes[r.entrega].run))
  {
    if r.entrega !in I.Antes(feitas, k).aprovacoes {
      RevisaoGuardaADecisao(I.Antes(feitas, k), r, []);
    }
  }

  lemma UltimoQuandoLida(feitas: seq<I.Feita>, k: nat, r: Revisao, run: Uuid)
    requires I.FoiMaisRecente(feitas, 0, k, r, run)
    ensures EraUltimo(feitas, k, r, run)
  {
    var n: nat :| n <= k && n <= |feitas| && EhMaisRecente(I.Antes(feitas, n).runs, r.tenant, r.repositorio, r.pr, run);
    forall x | x in I.Antes(feitas, n).runs && DoPR(I.Antes(feitas, n).runs[x], r.tenant, r.repositorio, r.pr)
      ensures AntesOuIgual(I.Antes(feitas, n).runs, x, run)
    {
      assert DoPullRequest(I.Antes(feitas, n).runs[x], r.tenant, r.repositorio, r.pr);
    }
  }

  lemma AprovacaoNoLugar(s: I.Sistema, k: nat, r: Revisao, a: Aprovacao)
    requires k < |s.feitas| && I.DaRevisao(s.banco, r, a) && SoCresce(I.Antes(s.feitas, k), s.banco)
    requires Aplicar(I.Antes(s.feitas, k), OpAprovacao(a)).1 == Feito
    ensures var (b, c) := (I.Antes(s.feitas, k), Aplicar(I.Antes(s.feitas, k), OpAprovacao(a)).0);
            && r.entrega in c.aprovacoes
            && (r.entrega !in b.aprovacoes ==> EhDaRevisao(c.aprovacoes[r.entrega], r) && c.aprovacoes[r.entrega].run == a.run)
  {
    var b := I.Antes(s.feitas, k);
    assert Aplicar(b, OpAprovacao(a)) == RegistrarAprovacao(b, a);
    assert MesmaLinha(b.runs[a.run], s.banco.runs[a.run]);
  }
}
