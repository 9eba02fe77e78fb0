/** Nested transactions: blocks over a stack of snapshots against a replay that
    has no stack (internal/repository/postgres.go, EmTransacao). */
module Transacoes {
  import opened Comum
  import opened Tabelas
  import opened Operacoes
  import Recibos
  import Historico
  import ColetorPostgres
  import AcaoRemota

  /** How a transaction ends when asked to: committed, undone to its snapshot,
      or lost with the transaction around it. */
  datatype Termino = Confirma | Desfeita | Perdida

  /** What a caller runs: operations and blocks, each followed by what it does
      on success or on error, and at last its own verdict. A panic is an error. */
  datatype Funcao = Retorna(erro: bool) | Chama(no: No, seDerCerto: Funcao, seFalhar: Funcao)

  datatype No = Opera(op: Operacao) | Bloco(corpo: Funcao, abre: bool, termino: Termino)

  // ---- The connection: tables, snapshots of the open transactions, and
  //      whether a violated constraint has made the innermost one unusable ----

  datatype Conexao = Conexao(tabelas: Banco, pontos: seq<Banco>, abortada: bool)

  predicate Integra(c: Conexao) {
    EntregasUnicas(c.tabelas.runs) && forall i :: 0 <= i < |c.pontos| ==> EntregasUnicas(c.pontos[i].runs)
  }

  function Begin(c: Conexao): Conexao {
    c.(pontos := c.pontos + [c.tabelas])
  }

  function Commit(c: Conexao): Conexao
    requires c.pontos != []
  {
    c.(pontos := c.pontos[..|c.pontos| - 1])
  }

  function Rollback(c: Conexao): Conexao
    requires c.pontos != []
  {
    Conexao(c.pontos[|c.pontos| - 1], c.pontos[..|c.pontos| - 1], false)
  }

  /** The transaction around is lost too; with none around, only this one is. */
  function Perder(c: Conexao): Conexao
    requires c.pontos != []
  {
    if |c.pontos| == 1 then Rollback(c) else Commit(c).(abortada := true)
  }

  /** Answers that come from a statement the database refused. */
  predicate Viola(r: Resposta) {
    r.Recusado? && r.erro in {Duplicado, FalhaNoBanco, ResultadoJaGravado}
  }

  /** Attempts that never reach the database. */
  predicate SoNoLog(op: Operacao) {
    op.OpTentativa? && op.tentativa.decisao in {AcaoRemota.Invalida, AcaoRemota.Repetida}
  }

  predicate Confirmado(erro: bool, abortada: bool, termino: Termino) {
    !erro && !abortada && termino == Confirma
  }

  /** The snapshot is restored: by the rollback after an error, or when a commit
      that fails leaves the transaction around usable. */
  predicate Restaurado(erro: bool, termino: Termino) {
    termino == Desfeita || (erro && termino == Confirma)
  }

  function Encerrar(c: Conexao, erro: bool, termino: Termino): Conexao
    requires c.pontos != []
  {
    if Confirmado(erro, c.abortada, termino) then Commit(c)
    else if Restaurado(erro, termino) then Rollback(c)
    else Perder(c)
  }

  function RodarNo(c: Conexao, n: No): (r: (Conexao, bool))
    requires Integra(c)
    ensures Integra(r.0) && r.0.pontos == c.pontos
    decreases n
  {
    match n
    case Opera(op) =>
      if c.abortada then (c, SoNoLog(op))
      else
        var (b, resposta) := Aplicar(c.tabelas, op);
        (Conexao(b, c.pontos, c.pontos != [] && Viola(resposta)), Sucesso(resposta))
    case Bloco(corpo, abre, termino) =>
      if c.abortada || !abre then (c, false)
      else
        var (d, erro) := RodarFuncao(Begin(c), corpo);
        (Encerrar(d, erro, termino), Confirmado(erro, d.abortada, termino))
  }

  function RodarFuncao(c: Conexao, f: Funcao): (r: (Conexao, bool))
    requires Integra(c)
    ensures Integra(r.0) && r.0.pontos == c.pontos
    decreases f
  {
    match f
    case Retorna(erro) => (c, erro)
    case Chama(no, seDerCerto, seFalhar) =>
      var (d, ok) := RodarNo(c, no);
      RodarFuncao(d, if ok then seDerCerto else seFalhar)
  }

  /** Which answers make the transaction around unusable, and what is left to do in
      it: only attempts that stay in the log are answered well. */
  lemma QuandoAborta(c: Conexao, op: Operacao)
    requires Integra(c)
    ensures var (d, ok) := RodarNo(c, Opera(op));
            var r := Aplicar(c.tabelas, op).1;
            && (!c.abortada ==>
                  && ok == !r.Recusado?
                  && (d.abortada <==> c.pontos != [] && r in {Recusado(Duplicado), Recusado(FalhaNoBanco), Recusado(ResultadoJaGravado)}))
            && (c.abortada ==>
                  && d == c
                  && (ok <==> op.OpTentativa? && op.tentativa.decisao in {AcaoRemota.Invalida, AcaoRemota.Repetida}))
  {
  }

  // ---- The replay: no stack, no snapshots; a block that fails contributes no
  //      operation ----

  /** The operations that take effect, whether the call ended well, and whether
      it made the transaction around unusable. */
  datatype Efeito = Efeito(ops: seq<Operacao>, ok: bool, abortou: bool)

  function EfeitoDoNo(b: Banco, aninhado: bool, n: No): Efeito
    requires EntregasUnicas(b.runs)
    decreases n
  {
    match n
    case Opera(op) =>
      var resposta := Aplicar(b, op).1;
      Efeito([op], Sucesso(resposta), aninhado && Viola(resposta))
    case Bloco(corpo, abre, termino) =>
      if !abre then Efeito([], false, false)
      else
        var e := EfeitoDaFuncao(b, true, corpo);
        if Confirmado(!e.ok, e.abortou, termino) then e
        else Efeito([], false, aninhado && !Restaurado(!e.ok, termino))
  }

  function EfeitoDaFuncao(b: Banco, aninhado: bool, f: Funcao): Efeito
    requires EntregasUnicas(b.runs)
    decreases f
  {
    match f
    case Retorna(erro) => Efeito([], !erro, false)
    case Chama(no, seDerCerto, seFalhar) =>
      var e := EfeitoDoNo(b, aninhado, no);
      if e.abortou then Efeito([], VereditoSemBanco(f), true)
      else
        var resto := EfeitoDaFuncao(Executar(b, e.ops), aninhado, if e.ok then seDerCerto else seFalhar);
        resto.(ops := e.ops + resto.ops)
  }

  /** What a caller returns when the database refuses everything. */
  function VereditoSemBanco(f: Funcao): bool {
    match f
    case Retorna(erro) => !erro
    case Chama(no, seDerCerto, seFalhar) =>
      VereditoSemBanco(if no.Opera? && SoNoLog(no.op) then seDerCerto else seFalhar)
  }

  // ---- The stack refines the replay ----

  /** In an unusable transaction nothing happens and every statement fails. */
  lemma {:induction false} AbortadaNadaFaz(c: Conexao, f: Funcao)
    requires Integra(c) && c.abortada
    ensures RodarFuncao(c, f) == (c, !VereditoSemBanco(f))
  {
    if f.Chama? {
      AbortadaNadaFaz(c, if f.no.Opera? && SoNoLog(f.no.op) then f.seDerCerto else f.seFalhar);
    }
  }

  /** What a call that refines the replay leaves behind. */
  predicate Refina(c: Conexao, d: Conexao, e: Efeito)
    requires Integra(c)
  {
    && d.pontos == c.pontos
    && d.abortada == e.abortou
    && (e.abortou ==> c.pontos != [])
    && (!e.abortou ==> d.tabelas == Executar(c.tabelas, e.ops))
  }

  lemma EncerrarRefina(c: Conexao, d: Conexao, e: Efeito, termino: Termino)
    requires Integra(c) && Integra(d) && !c.abortada && Refina(Begin(c), d, e)
    ensures var f := if Confirmado(!e.ok, e.abortou, termino) then e
                     else Efeito([], false, c.pontos != [] && !Restaurado(!e.ok, termino));
            Refina(c, Encerrar(d, !e.ok, termino), f)
  {
    assert d.pontos[..|d.pontos| - 1] == c.pontos && d.pontos[|d.pontos| - 1] == c.tabelas;
    assert Executar(c.tabelas, []) == c.tabelas;
  }

  lemma {:induction false} NoRefina(c: Conexao, n: No)
    requires Integra(c) && !c.abortada
    ensures var e := EfeitoDoNo(c.tabelas, c.pontos != [], n);
            && Refina(c, RodarNo(c, n).0, e)
            && RodarNo(c, n).1 == e.ok
            && (e.abortou ==> !e.ok)
    decreases n
  {
    match n
    case Opera(op) => UmaOperacao(c.tabelas, op);
    case Bloco(corpo, abre, termino) =>
      if abre {
        FuncaoRefina(Begin(c), corpo);
        EncerrarRefina(c, RodarFuncao(Begin(c), corpo).0, EfeitoDaFuncao(c.tabelas, true, corpo), termino);
      } else {
        assert Executar(c.tabelas, []) == c.tabelas;
      }
  }

  lemma {:induction false} FuncaoRefina(c: Conexao, f: Funcao)
    requires Integra(c) && !c.abortada
    ensures var e := EfeitoDaFuncao(c.tabelas, c.pontos != [], f);
            && Refina(c, RodarFuncao(c, f).0, e)
            && RodarFuncao(c, f).1 == !e.ok
    decreases f
  {
    match f
    case Retorna(erro) => assert Executar(c.tabelas, []) == c.tabelas;
    case Chama(no, seDerCerto, seFalhar) =>
      NoRefina(c, no);
      var e := EfeitoDoNo(c.tabelas, c.pontos != [], no);
      var (d, ok) := RodarNo(c, no);
      if e.abortou {
        AbortadaNadaFaz(d, seFalhar);
      } else {
        var segue := if ok then seDerCerto else seFalhar;
        FuncaoRefina(d, segue);
        ExecutarEmPartes(c.tabelas, e.ops, EfeitoDaFuncao(d.tabelas, c.pontos != [], segue).ops);
      }
  }

  /** For any tree of nested blocks, failing anywhere for any reason, the tables
      end as if only the operations whose enclosing blocks all succeeded had
      run, one after the other. */
  lemma TransacoesSaoUmaSequencia(b: Banco, f: Funcao)
    requires EntregasUnicas(b.runs)
    ensures var (d, erro) := RodarFuncao(Conexao(b, [], false), f);
            var e := EfeitoDaFuncao(b, false, f);
            d == Conexao(Executar(b, e.ops), [], false) && erro == !e.ok
  {
    FuncaoRefina(Conexao(b, [], false), f);
  }

  /** All or nothing: a block that ends well takes effect whole, one that fails
      leaves no trace. Nested, a lost block leaves the transaction around
      unusable, so that it leaves no trace either. */
  lemma TudoOuNada(c: Conexao, corpo: Funcao, abre: bool, termino: Termino)
    requires Integra(c) && !c.abortada
    ensures var (d, ok) := RodarNo(c, Bloco(corpo, abre, termino));
            && (ok ==> abre && d == Conexao(Executar(c.tabelas, EfeitoDaFuncao(c.tabelas, true, corpo).ops), c.pontos, false))
            && (!ok ==> d == c || (c.pontos != [] && d.abortada))
  {
    NoRefina(c, Bloco(corpo, abre, termino));
    assert Executar(c.tabelas, []) == c.tabelas;
  }

  /** How a block ends: confirmed exactly when it opened, its function returned no
      error, no statement made it unusable and the commit succeeded; undone, or
      lost with the transaction around it, otherwise. */
  lemma FimDoBloco(c: Conexao, corpo: Funcao, abre: bool, termino: Termino)
    requires Integra(c)
    ensures var (d, ok) := RodarNo(c, Bloco(corpo, abre, termino));
            if c.abortada || !abre then (d, ok) == (c, false)
            else
              var (dentro, erro) := RodarFuncao(c.(pontos := c.pontos + [c.tabelas]), corpo);
              && (ok <==> !erro && !dentro.abortada && termino == Confirma)
              && (ok ==> d == Conexao(dentro.tabelas, c.pontos, false))
              && (!ok && (c.pontos == [] || termino == Desfeita || (erro && termino == Confirma)) ==> d == c)
              && (!ok && c.pontos != [] && (termino == Perdida || (termino == Confirma && !erro)) ==> d.abortada && d.pontos == c.pontos)
  {
    if !c.abortada && abre {
      var p := c.pontos + [c.tabelas];
      assert p[..|p| - 1] == c.pontos && p[|p| - 1] == c.tabelas;
    }
  }

  /** Whatever transactions ran, the tables keep what every sequence of
      operations keeps. */
  lemma TodaTransacaoMantem(f: Funcao)
    ensures var b := RodarFuncao(Conexao(VAZIO, [], false), f).0.tabelas;
            && Recibos.Encadeados(b.recibos) && Recibos.DoTenantDoRun(b)
            && Historico.Coerente(b)
            && ColetorPostgres.ResultadosEmOrdem(b)
  {
    var ops := EfeitoDaFuncao(VAZIO, false, f).ops;
    TransacoesSaoUmaSequencia(VAZIO, f);
    Recibos.TodoBancoTemRecibosEncadeados(ops);
    Historico.TodoBancoTemCaminhos(ops);
    ColetorPostgres.TodoBancoEmOrdem(ops);
  }
}
