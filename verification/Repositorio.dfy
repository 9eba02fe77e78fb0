/** The repository step by step: SQL statements over the tables, transactions
    over a stack of snapshots, and the methods that combine them
    (internal/repository/postgres.go and the queries of internal/repository/db),
    each proved to be the operation of module Operacoes. */
module Repositorio {
  import opened Comum
  import opened Tabelas
  import opened O = Operacoes
  import Sandbox
  import A = AcaoRemota
  import T = Transacoes
  import L = Linhas

  const VIOLACAO_UNICA := "23505"
  const VIOLACAO_DE_CHECK := "23514"
  const TEXTO_INVALIDO := "22021"
  const TRANSACAO_ABORTADA := "25P02"

  /** What a query for one row returns: the row, pgx.ErrNoRows, or the error of
      the server with its code. */
  datatype Retorno<+L> = Linha(linha: L) | SemLinhas | Violacao(codigo: string)

  /** traduzir, on an error. */
  function Traduzir<L>(r: Retorno<L>): Erro {
    if r.SemLinhas? then NaoEncontrado
    else if r.Violacao? && r.codigo == VIOLACAO_UNICA then Duplicado
    else FalhaNoBanco
  }

  /** The block TransicionarTaskRun is, with one operation inside. */
  function BlocoDe(op: Operacao, abre: bool, termino: T.Termino): T.No {
    T.Bloco(T.Chama(T.Opera(op), T.Retorna(false), T.Retorna(true)), abre, termino)
  }

  /** A transition never has a statement refused by the server. */
  lemma TransicaoNaoViola(c: T.Conexao, op: Operacao)
    requires T.Integra(c) && op.OpTransicionar? && !c.abortada
    ensures var (b, r) := Aplicar(c.tabelas, op);
            T.RodarNo(c, T.Opera(op)) == (c.(tabelas := b), Sucesso(r))
  {
    var (b, r) := Aplicar(c.tabelas, op);
    assert (b, r) == Transicionar(c.tabelas, op.run, op.de, op.para, op.detalhe, op.agora);
    assert !T.Viola(r);
  }

  lemma CorpoDaTransicao(c: T.Conexao, op: Operacao)
    requires T.Integra(c) && op.OpTransicionar? && !c.abortada
    ensures var (b, r) := Aplicar(c.tabelas, op);
            T.RodarFuncao(c, BlocoDe(op, true, T.Confirma).corpo) == (c.(tabelas := b), !Sucesso(r))
  {
    TransicaoNaoViola(c, op);
  }

  lemma BlocoDeTransicao(c: T.Conexao, op: Operacao, abre: bool, termino: T.Termino)
    requires T.Integra(c) && op.OpTransicionar?
    ensures c.abortada || !abre ==> T.RodarNo(c, BlocoDe(op, abre, termino)) == (c, false)
    ensures !c.abortada && abre ==>
              var (b, r) := Aplicar(c.tabelas, op);
              && T.RodarNo(c, BlocoDe(op, abre, termino)).0 == T.Encerrar(T.Begin(c).(tabelas := b), !Sucesso(r), termino)
              && T.RodarNo(c, BlocoDe(op, abre, termino)).1 == T.Confirmado(!Sucesso(r), false, termino)
  {
    if !c.abortada && abre {
      CorpoDaTransicao(T.Begin(c), op);
    }
  }

  lemma DetalheLongo(c: T.Conexao, op: Operacao)
    requires T.Integra(c) && op.OpTransicionar? && |op.detalhe| > 4000
    ensures T.RodarNo(c, T.Opera(op)) == (c, false) && Aplicar(c.tabelas, op).1 == Recusado(DadosInvalidos)
  {
    assert Aplicar(c.tabelas, op) == (c.tabelas, Recusado(DadosInvalidos));
  }

  /** The row updated and the step added are the transition. */
  lemma DoisComandos(b: Banco, c: Banco, d: Banco, run: Uuid, de: Estado, para: Estado, detalhe: string, agora: Instante)
    requires |detalhe| <= 4000 && run in b.runs && b.runs[run].estado == de
    requires c == b.(runs := b.runs[run := b.runs[run].(estado := para, atualizadoEm := agora)])
    requires d == c.(etapas := c.etapas + [Etapa(c.runs[run].tenant, run, de, para, detalhe)])
    ensures (d, Run(run, false)) == Transicionar(b, run, de, para, detalhe, agora)
  {
  }

  /** Opened and asked to commit, the block is the operation. */
  lemma BlocoConfirmado(c: T.Conexao, op: Operacao)
    requires T.Integra(c) && op.OpTransicionar? && !c.abortada
    ensures T.Encerrar(T.Begin(c).(tabelas := Aplicar(c.tabelas, op).0), !Sucesso(Aplicar(c.tabelas, op).1), T.Confirma) ==
            T.RodarNo(c, T.Opera(op)).0
  {
    var d := T.Begin(c);
    assert d.pontos[..|d.pontos| - 1] == c.pontos && d.pontos[|d.pontos| - 1] == c.tabelas;
    RecusaNaoMuda(c.tabelas, op);
    TransicaoNaoViola(c, op);
  }

  class RepositorioPostgres {
    var tabelas: Banco
    var pontos: seq<Banco>
    var abortada: bool

    ghost predicate Valid()
      reads this
    {
      T.Integra(Estado())
    }

    ghost function Estado(): T.Conexao
      reads this
    {
      T.Conexao(tabelas, pontos, abortada)
    }

    constructor ()
      ensures Valid() && Estado() == T.Conexao(VAZIO, [], false)
    {
      tabelas, pontos, abortada := VAZIO, [], false;
    }

    /** The server refuses a statement; inside a transaction, that aborts it. */
    method Recusar()
      modifies this`abortada
      ensures abortada == (pontos != [])
    {
      abortada := pontos != [];
    }

    // ---- Statements ----

    /** INSERT … ON CONFLICT (delivery_id) DO NOTHING. */
    method CreateTaskRun(novo: NovoTaskRun, id: Uuid, agora: Instante) returns (r: Retorno<Uuid>)
      requires Valid() && NovoTaskRunValido(novo)
      modifies this
      ensures Valid() && pontos == old(pontos)
      ensures old(abortada) ==> r == Violacao(TRANSACAO_ABORTADA) && Estado() == old(Estado())
      ensures !old(abortada) ==>
                var existe := PorEntrega(old(tabelas.runs), novo.entrega).Some?;
                && (r == SemLinhas <==> existe)
                && (r == Violacao(VIOLACAO_UNICA) <==> !existe && id in old(tabelas.runs))
                && (r.Linha? <==> !existe && id !in old(tabelas.runs))
                && (r.Linha? ==> r.linha == id)
                && abortada == (pontos != [] && r.Violacao?)
                && tabelas == (if r.Linha? then O.CriarTaskRun(old(tabelas), novo, id, agora).0 else old(tabelas))
                && (r.Linha? ==>
                      && id in tabelas.runs && tabelas == old(tabelas).(runs := old(tabelas.runs)[id := tabelas.runs[id]])
                      && L.EhORun(tabelas.runs[id], novo, agora)
                      && tabelas.runs[id].estado == Pendente && tabelas.runs[id].atualizadoEm == agora)
    {
      if abortada {
        return Violacao(TRANSACAO_ABORTADA);
      }
      if PorEntrega(tabelas.runs, novo.entrega).Some? {
        return SemLinhas;
      }
      if id in tabelas.runs {
        Recusar();
        return Violacao(VIOLACAO_UNICA);
      }
      var linha := TaskRun(novo.tenant, novo.entrega, novo.repositorio, novo.pr, novo.sha, novo.autor, novo.acao,
                           Pendente, novo.recebidoEm, agora, agora);
      tabelas := tabelas.(runs := tabelas.runs[id := linha]);
      return Linha(id);
    }

    /** SELECT … WHERE delivery_id = $1. */
    method GetTaskRunByDeliveryID(entrega: string) returns (r: Retorno<Uuid>)
      requires Valid()
      ensures r == if abortada then Violacao(TRANSACAO_ABORTADA)
                   else if PorEntrega(tabelas.runs, entrega).Some? then Linha(PorEntrega(tabelas.runs, entrega).value)
                   else SemLinhas
    {
      if abortada {
        return Violacao(TRANSACAO_ABORTADA);
      }
      var achado := PorEntrega(tabelas.runs, entrega);
      r := if achado.Some? then Linha(achado.value) else SemLinhas;
    }

    /** SELECT EXISTS …; None is an error. */
    method TaskRunExists(run: Uuid) returns (r: Option<bool>)
      ensures r == if abortada then None else Some(run in tabelas.runs)
    {
      r := if abortada then None else Some(run in tabelas.runs);
    }

    /** SELECT … ORDER BY created_at DESC, id DESC LIMIT 1. */
    method GetLatestTaskRunForPullRequest(tenant: int, repositorio: string, pr: int) returns (r: Retorno<Uuid>)
      ensures r == if abortada then Violacao(TRANSACAO_ABORTADA)
                   else if MaisRecente(tabelas.runs, tenant, repositorio, pr).Some?
                   then Linha(MaisRecente(tabelas.runs, tenant, repositorio, pr).value)
                   else SemLinhas
    {
      if abortada {
        return Violacao(TRANSACAO_ABORTADA);
      }
      var achado := MaisRecente(tabelas.runs, tenant, repositorio, pr);
      r := if achado.Some? then Linha(achado.value) else SemLinhas;
    }

    /** UPDATE … SET state = para WHERE id = run AND state = de. */
    method TransitionTaskRun(run: Uuid, de: Estado, para: Estado, agora: Instante) returns (r: Retorno<Uuid>)
      requires Valid() && !abortada
      modifies this`tabelas
      ensures Valid()
      ensures r == if run in old(tabelas.runs) && old(tabelas.runs)[run].estado == de then Linha(run) else SemLinhas
      ensures tabelas == if r.Linha?
                         then old(tabelas).(runs := old(tabelas.runs)[run := old(tabelas.runs)[run].(estado := para, atualizadoEm := agora)])
                         else old(tabelas)
    {
      if run !in tabelas.runs || tabelas.runs[run].estado != de {
        return SemLinhas;
      }
      tabelas := tabelas.(runs := tabelas.runs[run := tabelas.runs[run].(estado := para, atualizadoEm := agora)]);
      return Linha(run);
    }

    /** INSERT … SELECT … FROM task_runs WHERE id = run. */
    method CreateTaskStep(run: Uuid, de: Estado, para: Estado, detalhe: string) returns (r: Retorno<Uuid>)
      requires Valid() && !abortada
      modifies this`tabelas
      ensures Valid()
      ensures r == if run in old(tabelas.runs) then Linha(run) else SemLinhas
      ensures tabelas == if r.Linha?
                         then old(tabelas).(etapas := old(tabelas.etapas) + [Etapa(old(tabelas.runs)[run].tenant, run, de, para, detalhe)])
                         else old(tabelas)
    {
      if run !in tabelas.runs {
        return SemLinhas;
      }
      tabelas := tabelas.(etapas := tabelas.etapas + [Etapa(tabelas.runs[run].tenant, run, de, para, detalhe)]);
      return Linha(run);
    }

    /** INSERT … SELECT … ON CONFLICT (delivery_id) DO NOTHING: rows inserted. */
    method CreateApproval(a: Aprovacao) returns (r: Retorno<nat>)
      requires Valid() && AprovacaoValida(a)
      modifies this`tabelas
      ensures Valid()
      ensures r == if abortada then Violacao(TRANSACAO_ABORTADA)
                   else Linha(if a.run in old(tabelas.runs) && a.entrega !in old(tabelas.aprovacoes) then 1 else 0)
      ensures tabelas == if r == Linha(1) then O.RegistrarAprovacao(old(tabelas), a).0 else old(tabelas)
      ensures r == Linha(1) ==> a.entrega in tabelas.aprovacoes
                                && L.EhAAprovacao(tabelas.aprovacoes[a.entrega], a, old(tabelas.runs)[a.run].tenant)
    {
      if abortada {
        return Violacao(TRANSACAO_ABORTADA);
      }
      if a.run !in tabelas.runs || a.entrega in tabelas.aprovacoes {
        return Linha(0);
      }
      var linha := LinhaAprovacao(tabelas.runs[a.run].tenant, a.run, a.decisao, a.revisor, a.justificativa, a.decididaEm);
      tabelas := tabelas.(aprovacoes := tabelas.aprovacoes[a.entrega := linha]);
      return Linha(1);
    }

    /** INSERT … SELECT … with the guard on the predecessor's tenant. */
    method AppendReceipt(novo: NovoRecibo, id: Uuid) returns (r: Retorno<Recibo>)
      requires Valid() && NovoReciboValido(novo)
      modifies this
      ensures Valid() && pontos == old(pontos)
      ensures old(abortada) ==> r == Violacao(TRANSACAO_ABORTADA) && Estado() == old(Estado())
      ensures !old(abortada) ==>
                var (b, resposta) := O.AnexarRecibo(old(tabelas), novo, id);
                && tabelas == b
                && abortada == (pontos != [] && T.Viola(resposta))
                && (r.Linha? <==> resposta.ReciboAnexado?)
                && (r.Linha? ==> resposta == ReciboAnexado(r.linha))
                && (!r.Linha? ==> resposta == Recusado(Traduzir(r)))
                && (r.Linha? ==> tabelas.recibos == old(tabelas.recibos) + [r.linha]
                                 && L.EhORecibo(r.linha, novo, id, old(tabelas.runs)[novo.run].tenant))
    {
      if abortada {
        return Violacao(TRANSACAO_ABORTADA);
      }
      if novo.run !in tabelas.runs {
        return SemLinhas;
      }
      var tenant := tabelas.runs[novo.run].tenant;
      if novo.anterior.Some? && !TemRecibo(tabelas.recibos, novo.anterior.value, tenant) {
        return SemLinhas;
      }
      var linha := Recibo(id, tenant, novo.run, novo.anterior, novo.conteudo, novo.hash, novo.assinatura, novo.chave, novo.assinadoEm);
      if ReciboConflita(tabelas.recibos, linha) {
        Recusar();
        return Violacao(VIOLACAO_UNICA);
      }
      tabelas := tabelas.(recibos := tabelas.recibos + [linha]);
      return Linha(linha);
    }

    /** INSERT … SELECT …: the text is read before the statement runs; then the
        CHECKs, attempt > 0 among them, then UNIQUE (task_run_id, attempt). */
    method CreateSandboxResult(run: Uuid, tentativa: int, linha: Sandbox.ResultadoSandbox) returns (r: Retorno<Uuid>)
      requires Valid()
      modifies this
      ensures Valid() && pontos == old(pontos)
      ensures old(abortada) ==> r == Violacao(TRANSACAO_ABORTADA) && Estado() == old(Estado())
      ensures !old(abortada) ==>
                var aceito := Sandbox.TextoAceito(linha.saida);
                var passa := tentativa > 0 && Sandbox.ChecksDoResultado(linha);
                && (r == Violacao(TEXTO_INVALIDO) <==> !aceito)
                && (r == SemLinhas <==> aceito && run !in tabelas.runs)
                && (r == Violacao(VIOLACAO_DE_CHECK) <==> aceito && run in tabelas.runs && !passa)
                && (r == Violacao(VIOLACAO_UNICA) <==>
                      aceito && run in tabelas.runs && passa && (run, tentativa) in old(tabelas.resultados))
                && (r.Violacao? ==> r.codigo in {TEXTO_INVALIDO, VIOLACAO_DE_CHECK, VIOLACAO_UNICA})
                && abortada == (pontos != [] && r.Violacao?)
                && tabelas == if r.Linha?
                              then old(tabelas).(resultados := old(tabelas.resultados)[(run, tentativa) := linha])
                              else old(tabelas)
    {
      if abortada {
        return Violacao(TRANSACAO_ABORTADA);
      }
      if !Sandbox.TextoAceito(linha.saida) {
        Recusar();
        return Violacao(TEXTO_INVALIDO);
      }
      if run !in tabelas.runs {
        return SemLinhas;
      }
      if tentativa <= 0 || !Sandbox.ChecksDoResultado(linha) {
        Recusar();
        return Violacao(VIOLACAO_DE_CHECK);
      }
      if (run, tentativa) in tabelas.resultados {
        Recusar();
        return Violacao(VIOLACAO_UNICA);
      }
      tabelas := tabelas.(resultados := tabelas.resultados[(run, tentativa) := linha]);
      return Linha(run);
    }

    /** INSERT … ON CONFLICT (action_id) DO NOTHING, on the latest run of the
        pull request: rows inserted. */
    method CreateRemoteActionAttempt(t: A.Tentativa) returns (r: Retorno<nat>)
      requires Valid()
      modifies this
      ensures Valid() && pontos == old(pontos)
      ensures old(abortada) ==> r == Violacao(TRANSACAO_ABORTADA) && Estado() == old(Estado())
      ensures !old(abortada) ==>
                var linha := LinhaDaTentativa(old(tabelas.runs), t);
                && r == (if !ChecksDaTentativa(linha) then Violacao(VIOLACAO_DE_CHECK)
                         else Linha(if t.idAcao in old(tabelas.tentativas) then 0 else 1))
                && abortada == (pontos != [] && r.Violacao?)
                && tabelas == if r == Linha(1)
                              then old(tabelas).(tentativas := old(tabelas.tentativas)[t.idAcao := linha])
                              else old(tabelas)
    {
      if abortada {
        return Violacao(TRANSACAO_ABORTADA);
      }
      var linha := LinhaDaTentativa(tabelas.runs, t);
      if !ChecksDaTentativa(linha) {
        Recusar();
        return Violacao(VIOLACAO_DE_CHECK);
      }
      if t.idAcao in tabelas.tentativas {
        return Linha(0);
      }
      tabelas := tabelas.(tentativas := tabelas.tentativas[t.idAcao := linha]);
      return Linha(1);
    }

    // ---- Operations ----

    /** The method ran as the operation `op`, answering `r`. */
    ghost predicate Efetuou(antes: T.Conexao, op: Operacao, r: Resposta)
      requires T.Integra(antes)
      reads this
    {
      && Estado() == T.RodarNo(antes, T.Opera(op)).0
      && Sucesso(r) == T.RodarNo(antes, T.Opera(op)).1
      && (!antes.abortada ==> r == Aplicar(antes.tabelas, op).1)
    }

    method CriarTaskRun(novo: NovoTaskRun, id: Uuid, agora: Instante) returns (r: Resposta)
      requires Valid()
      modifies this
      ensures Valid() && Efetuou(old(Estado()), OpCriar(novo, id, agora), r)
      ensures !old(abortada) && r == Run(id, true) ==> id in tabelas.runs && L.EhORun(tabelas.runs[id], novo, agora)
    {
      if !NovoTaskRunValido(novo) {
        return Recusado(DadosInvalidos);
      }
      var linha := CreateTaskRun(novo, id, agora);
      if linha.SemLinhas? {
        var existente := GetTaskRunByDeliveryID(novo.entrega);
        if !existente.Linha? {
          return Recusado(Traduzir(existente));
        }
        return Run(existente.linha, false);
      }
      if linha.Violacao? {
        return Recusado(Traduzir(linha));
      }
      return Run(linha.linha, true);
    }

    method RegistrarAprovacao(a: Aprovacao) returns (r: Resposta)
      requires Valid()
      modifies this
      ensures Valid() && Efetuou(old(Estado()), OpAprovacao(a), r)
    {
      if !AprovacaoValida(a) {
        return Recusado(DadosInvalidos);
      }
      var inseridas := CreateApproval(a);
      if !inseridas.Linha? {
        return Recusado(Traduzir(inseridas));
      }
      if inseridas.linha > 0 {
        return Feito;
      }
      var existe := TaskRunExists(a.run);
      if existe.None? {
        return Recusado(FalhaNoBanco);
      }
      if !existe.value {
        return Recusado(NaoEncontrado);
      }
      return Feito;
    }

    method RegistrarRevisao(revisao: Revisao) returns (r: Resposta)
      requires Valid()
      modifies this
      ensures Valid() && Efetuou(old(Estado()), OpRevisao(revisao), r)
      ensures !old(abortada) && r == Feito && revisao.entrega !in old(tabelas.aprovacoes) ==>
                && revisao.entrega in tabelas.aprovacoes && L.EhDaRevisao(tabelas.aprovacoes[revisao.entrega], revisao)
                && L.Ultimo(old(tabelas), revisao.tenant, revisao.repositorio, revisao.pr, tabelas.aprovacoes[revisao.entrega].run)
    {
      ghost var antes := tabelas;
      var decisao := DecisaoPorEstado(revisao.estado);
      if decisao.None? {
        return Recusado(DadosInvalidos);
      }
      if !NumeroDePR(revisao.pr) {
        return Recusado(DadosInvalidos);
      }
      var run := GetLatestTaskRunForPullRequest(revisao.tenant, revisao.repositorio, revisao.pr);
      if !run.Linha? {
        return Recusado(Traduzir(run));
      }
      r := RegistrarAprovacao(Aprovacao(run.linha, revisao.entrega, decisao.value, revisao.revisor, "", revisao.recebidoEm));
      if r == Feito && revisao.entrega !in antes.aprovacoes {
        L.RevisaoGuardaADecisao(antes, revisao, []);
      }
    }

    method AnexarRecibo(novo: NovoRecibo, id: Uuid) returns (r: Resposta)
      requires Valid()
      modifies this
      ensures Valid() && Efetuou(old(Estado()), OpRecibo(novo, id), r)
    {
      if !NovoReciboValido(novo) {
        return Recusado(DadosInvalidos);
      }
      var linha := AppendReceipt(novo, id);
      if !linha.Linha? {
        return Recusado(Traduzir(linha));
      }
      return ReciboAnexado(linha.linha);
    }

    method Gravar(run: Uuid, resultado: Sandbox.ResultadoSandbox) returns (r: Resposta)
      requires Valid()
      modifies this
      ensures Valid() && Efetuou(old(Estado()), OpGravar(run, resultado), r)
    {
      var linha := CreateSandboxResult(run, PRIMEIRA_TENTATIVA, Sandbox.ParaColunas(resultado));
      if linha.Linha? {
        return Feito;
      }
      if Traduzir(linha) == Duplicado {
        return Recusado(ResultadoJaGravado);
      }
      return Recusado(Traduzir(linha));
    }

    method Registrar(t: A.Tentativa) returns (r: Resposta)
      requires Valid()
      modifies this
      ensures Valid() && Efetuou(old(Estado()), OpTentativa(t), r)
    {
      if t.decisao == A.Invalida || t.decisao == A.Repetida {
        return Feito;
      }
      if !NumeroDePR(t.numeroPR) {
        return Recusado(DadosInvalidos);
      }
      var linhas := CreateRemoteActionAttempt(t);
      if !linhas.Linha? {
        return Recusado(Traduzir(linhas));
      }
      return Feito;
    }

    // ---- Transactions ----

    /** Opens a transaction, or a savepoint in the one already open. */
    method Begin(abre: bool) returns (ok: bool)
      requires Valid()
      modifies this`pontos
      ensures Valid() && ok == (abre && !abortada)
      ensures Estado() == if ok then T.Begin(old(Estado())) else old(Estado())
    {
      ok := abre && !abortada;
      if ok {
        pontos := pontos + [tabelas];
      }
    }

    /** The end of a block: the commit when its function returned no error, and
        the deferred rollback, which does nothing once the block is closed. */
    method Encerrar(erro: bool, termino: T.Termino) returns (confirmou: bool)
      requires Valid() && pontos != []
      modifies this
      ensures Valid() && Estado() == T.Encerrar(old(Estado()), erro, termino)
      ensures confirmou == T.Confirmado(erro, old(abortada), termino)
    {
      var ponto, anteriores := pontos[|pontos| - 1], pontos[..|pontos| - 1];
      confirmou := !erro && !abortada && termino == T.Confirma;
      pontos := anteriores;
      if confirmou {
        return;
      }
      if T.Restaurado(erro, termino) || anteriores == [] {
        tabelas, abortada := ponto, false;
      } else {
        abortada := true;
      }
    }

    /** TransicionarTaskRun: the UPDATE and the step in one transaction. */
    method TransicionarTaskRun(run: Uuid, de: Estado, para: Estado, detalhe: string, agora: Instante, abre: bool, termino: T.Termino)
      returns (r: Resposta)
      requires Valid()
      modifies this
      ensures Valid()
      ensures var bloco := BlocoDe(OpTransicionar(run, de, para, detalhe, agora), abre, termino);
              |detalhe| <= 4000 ==> Estado() == T.RodarNo(old(Estado()), bloco).0 && Sucesso(r) == T.RodarNo(old(Estado()), bloco).1
      ensures abre && termino == T.Confirma ==> Efetuou(old(Estado()), OpTransicionar(run, de, para, detalhe, agora), r)
      ensures |detalhe| > 4000 ==> Estado() == old(Estado()) && r == Recusado(DadosInvalidos)
    {
      ghost var antes, op := Estado(), OpTransicionar(run, de, para, detalhe, agora);
      if |detalhe| > 4000 {
        DetalheLongo(antes, op);
        return Recusado(DadosInvalidos);
      }
      BlocoDeTransicao(antes, op, abre, termino);
      var aberta := Begin(abre);
      if !aberta {
        return Recusado(FalhaNoBanco);
      }
      r := Transicao(run, de, para, detalhe, agora);
      ghost var dela := r;
      var confirmou := Encerrar(!Sucesso(r), termino);
      if Sucesso(r) && !confirmou {
        r := Recusado(FalhaNoBanco);
      }
      if termino == T.Confirma {
        BlocoConfirmado(antes, op);
        assert r == dela == Aplicar(antes.tabelas, op).1;
      }
    }

    /** The function TransicionarTaskRun runs in its transaction. */
    method Transicao(run: Uuid, de: Estado, para: Estado, detalhe: string, agora: Instante) returns (r: Resposta)
      requires Valid() && !abortada && |detalhe| <= 4000
      modifies this`tabelas
      ensures Valid() && (tabelas, r) == Transicionar(old(tabelas), run, de, para, detalhe, agora)
    {
      var linha := TransitionTaskRun(run, de, para, agora);
      if linha.SemLinhas? {
        r := SemLinhaNaTransicao(run);
        return;
      }
      ghost var atualizadas := tabelas;
      var etapa := CreateTaskStep(run, de, para, detalhe);
      DoisComandos(old(tabelas), atualizadas, tabelas, run, de, para, detalhe, agora);
      if !etapa.Linha? {
        return Recusado(Traduzir(etapa));
      }
      return Run(run, false);
    }

    /** A run that changed state, or one that never existed. */
    method SemLinhaNaTransicao(run: Uuid) returns (r: Resposta)
      requires !abortada
      ensures r == Recusado(if run in tabelas.runs then TransicaoConcorrente else NaoEncontrado)
    {
      var existe := TaskRunExists(run);
      if existe.None? {
        return Recusado(FalhaNoBanco);
      }
      return Recusado(if existe.value then TransicaoConcorrente else NaoEncontrado);
    }

    method Operar(op: Operacao) returns (r: Resposta)
      requires Valid()
      modifies this
      ensures Valid() && Efetuou(old(Estado()), op, r)
    {
      match op {
        case OpCriar(novo, id, agora) => r := CriarTaskRun(novo, id, agora);
        case OpTransicionar(run, de, para, detalhe, agora) =>
          r := TransicionarTaskRun(run, de, para, detalhe, agora, true, T.Confirma);
        case OpRevisao(revisao) => r := RegistrarRevisao(revisao);
        case OpAprovacao(aprovacao) => r := RegistrarAprovacao(aprovacao);
        case OpRecibo(recibo, id) => r := AnexarRecibo(recibo, id);
        case OpGravar(run, resultado) => r := Gravar(run, resultado);
        case OpTentativa(tentativa) => r := Registrar(tentativa);
      }
    }

    /** EmTransacao: any function of operations and nested blocks. */
    method EmTransacao(corpo: T.Funcao, abre: bool, termino: T.Termino) returns (ok: bool)
      requires Valid()
      modifies this
      ensures Valid() && (Estado(), ok) == T.RodarNo(old(Estado()), T.Bloco(corpo, abre, termino))
      decreases T.Bloco(corpo, abre, termino), 0
    {
      ok := Begin(abre);
      if ok {
        var erro := Rodar(corpo);
        ok := Encerrar(erro, termino);
      }
    }

    /** Runs the calls of a function and returns its verdict. */
    method Rodar(f: T.Funcao) returns (erro: bool)
      requires Valid()
      modifies this
      ensures Valid() && (Estado(), erro) == T.RodarFuncao(old(Estado()), f)
      decreases f, 0
    {
      match f {
        case Retorna(e) => erro := e;
        case Chama(no, seDerCerto, seFalhar) =>
          var ok;
          match no {
            case Opera(op) =>
              var r := Operar(op);
              ok := Sucesso(r);
            case Bloco(corpo, abre, termino) =>
              ok := EmTransacao(corpo, abre, termino);
          }
          if ok {
            erro := Rodar(seDerCerto);
          } else {
            erro := Rodar(seFalhar);
          }
      }
    }
  }
}
