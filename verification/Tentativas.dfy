/** The table of remote action attempts against the log of all attempts
    (internal/repository/postgres.go, Registrar;
    internal/repository/db/remote_action_attempts.sql.go;
    internal/acaoremota/memoria.go). */
module Tentativas {
  import opened Comum
  import opened Tabelas
  import opened Operacoes
  import A = AcaoRemota
  import L = Linhas
  import P = Protocolo
  import S = Sozinha

  /** Attempts the table keeps, if they come first for their action id. */
  predicate Registravel(t: A.Tentativa) {
    t.decisao != A.Invalida && t.decisao != A.Repetida && NumeroDePR(t.numeroPR)
  }

  predicate Registra(op: Operacao, id: string) {
    op.OpTentativa? && Registravel(op.tentativa) && op.tentativa.idAcao == id
  }

  /** Every attempt among the operations is one the service can emit. */
  predicate Emitidas(ops: seq<Operacao>) {
    forall i :: 0 <= i < |ops| && ops[i].OpTentativa? ==> A.Emitivel(ops[i].tentativa)
  }

  predicate EhAPrimeira(ops: seq<Operacao>, id: string, i: nat) {
    i < |ops| && Registra(ops[i], id) && forall j :: 0 <= j < i ==> !Registra(ops[j], id)
  }

  /** The row for `id` is that of its first registrable attempt, on the latest
      run the pull request had when it was recorded. */
  ghost predicate LinhaProjetada(ops: seq<Operacao>, id: string, b: Banco) {
    if id in b.tentativas then
      exists i: nat :: EhAPrimeira(ops, id, i)
               && b.tentativas[id] == LinhaDaTentativa(Executar(VAZIO, ops[..i]).runs, ops[i].tentativa)
               && ChecksDaTentativa(b.tentativas[id])
    else forall i :: 0 <= i < |ops| ==> !Registra(ops[i], id)
  }

  lemma TentativaEmitidaCabe(runs: map<Uuid, TaskRun>, t: A.Tentativa)
    requires A.Emitivel(t) && Registravel(t)
    ensures ChecksDaTentativa(LinhaDaTentativa(runs, t))
  {
  }

  /** The run of a row: the latest of the attempt's pull request, none if there
      is none. */
  lemma RunDaLinha(runs: map<Uuid, TaskRun>, t: A.Tentativa)
    ensures match LinhaDaTentativa(runs, t).run
            case Some(r) => EhMaisRecente(runs, t.instalacao, t.repositorio, t.numeroPR, r)
            case None => forall r :: r in runs ==> !DoPullRequest(runs[r], t.instalacao, t.repositorio, t.numeroPR)
  {
  }

  /** How one operation changes the row of `id`. */
  lemma AplicarNaLinha(b: Banco, op: Operacao, id: string)
    requires EntregasUnicas(b.runs) && (op.OpTentativa? ==> A.Emitivel(op.tentativa))
    ensures var c := Aplicar(b, op).0;
            && (id in c.tentativas <==> id in b.tentativas || Registra(op, id))
            && (id in b.tentativas ==> c.tentativas[id] == b.tentativas[id])
            && (id !in b.tentativas && Registra(op, id) ==> c.tentativas[id] == LinhaDaTentativa(b.runs, op.tentativa))
  {
    if op.OpTentativa? {
      RegistrarNaLinha(b, op.tentativa, id);
    } else {
      SoTentativasTocamATabela(b, op);
    }
  }

  lemma RegistrarNaLinha(b: Banco, t: A.Tentativa, id: string)
    requires A.Emitivel(t)
    ensures var c := RegistrarTentativa(b, t).0;
            && (id in c.tentativas <==> id in b.tentativas || Registra(OpTentativa(t), id))
            && (id in b.tentativas ==> c.tentativas[id] == b.tentativas[id])
            && (id !in b.tentativas && Registra(OpTentativa(t), id) ==> c.tentativas[id] == LinhaDaTentativa(b.runs, t))
  {
    if Registravel(t) {
      TentativaEmitidaCabe(b.runs, t);
    }
  }

  lemma SoTentativasTocamATabela(b: Banco, op: Operacao)
    requires EntregasUnicas(b.runs) && !op.OpTentativa?
    ensures Aplicar(b, op).0.tentativas == b.tentativas
  {
  }

  lemma PrefixoProjeta(ops: seq<Operacao>, id: string, i: nat)
    requires |ops| > 0 && i < |ops| - 1
    ensures EhAPrimeira(ops[..|ops| - 1], id, i) <==> EhAPrimeira(ops, id, i)
    ensures ops[..|ops| - 1][..i] == ops[..i] && ops[..|ops| - 1][i] == ops[i]
  {
  }

  /** For every sequence of operations whose attempts the service can emit, with
      anything in between, the table is the projection of the attempts that
      keeps, for each action id, the first one neither invalid nor repeated
      whose pull request number fits the column; every row kept meets the
      CHECKs. */
  lemma {:induction false} TabelaEhAProjecao(ops: seq<Operacao>, id: string)
    requires Emitidas(ops)
    ensures LinhaProjetada(ops, id, Executar(VAZIO, ops))
  {
    if ops != [] {
      var antes, op := ops[..|ops| - 1], ops[|ops| - 1];
      var b := Executar(VAZIO, antes);
      TabelaEhAProjecao(antes, id);
      AplicarNaLinha(b, op, id);
      if id in b.tentativas {
        var i: nat :| EhAPrimeira(antes, id, i)
                   && b.tentativas[id] == LinhaDaTentativa(Executar(VAZIO, antes[..i]).runs, antes[i].tentativa)
                   && ChecksDaTentativa(b.tentativas[id]);
        PrefixoProjeta(ops, id, i);
        assert EhAPrimeira(ops, id, i);
      } else if Registra(op, id) {
        TentativaEmitidaCabe(b.runs, op.tentativa);
        assert forall j :: 0 <= j < |antes| ==> !Registra(ops[j], id) by {
          assert forall j :: 0 <= j < |antes| ==> ops[j] == antes[j];
        }
        assert EhAPrimeira(ops, id, |antes|);
      } else {
        assert forall j :: 0 <= j < |antes| ==> ops[j] == antes[j];
      }
    }
  }

  /** What each attempt is answered, and whether it leaves a row. */
  lemma QuandoRegistra(b: Banco, t: A.Tentativa)
    ensures var (c, r) := RegistrarTentativa(b, t);
            var soNoLog := t.decisao in {A.Invalida, A.Repetida};
            var cabe := 0 < t.numeroPR <= 2_147_483_647;
            var passa := t.instalacao > 0 && t.tipo in {A.Aprovar, A.SolicitarAlteracao, A.ReexecutarAnalise};
            && (r == Recusado(DadosInvalidos) <==> !soNoLog && !cabe)
            && (r == Recusado(FalhaNoBanco) <==> !soNoLog && cabe && !passa)
            && (r == Feito <==> soNoLog || (cabe && passa))
            && c.tentativas.Keys == b.tentativas.Keys + (if r == Feito && !soNoLog then {t.idAcao} else {})
  {
  }

  // ---- The log in memory ----

  /** The log: every attempt, in order. */
  function Log(ops: seq<Operacao>): seq<A.Tentativa> {
    if ops == [] then []
    else
      var antes, op := Log(ops[..|ops| - 1]), ops[|ops| - 1];
      if op.OpTentativa? then antes + [op.tentativa] else antes
  }

  function PrimeiraDoLog(log: seq<A.Tentativa>, id: string): Option<A.Tentativa> {
    if log == [] then None
    else
      var antes, t := PrimeiraDoLog(log[..|log| - 1], id), log[|log| - 1];
      if antes.Some? then antes else if Registravel(t) && t.idAcao == id then Some(t) else None
  }

  /** What a row keeps of its attempt, whatever the run found for it. */
  predicate GuardaATentativa(l: LinhaTentativa, t: A.Tentativa) {
    l == LinhaTentativa(t.instalacao, l.run, t.tipo, t.usuario, if t.login == "" then None else Some(t.login),
                        t.repositorio, t.numeroPR, t.decisao, t.motivo, t.em)
  }

  lemma UmaTentativaAMais(log: seq<A.Tentativa>, t: A.Tentativa, id: string)
    ensures PrimeiraDoLog(log + [t], id) ==
            (if PrimeiraDoLog(log, id).Some? then PrimeiraDoLog(log, id)
             else if Registravel(t) && t.idAcao == id then Some(t) else None)
  {
    assert (log + [t])[..|log|] == log;
  }

  /** The table against the log alone. */
  lemma {:induction false} TabelaEhAProjecaoDoLog(ops: seq<Operacao>, id: string)
    requires Emitidas(ops)
    ensures var b := Executar(VAZIO, ops);
            var t := PrimeiraDoLog(Log(ops), id);
            && (id in b.tentativas <==> t.Some?)
            && (t.Some? ==> GuardaATentativa(b.tentativas[id], t.value) && t.value.idAcao == id && Registravel(t.value))
  {
    if ops != [] {
      var antes, op := ops[..|ops| - 1], ops[|ops| - 1];
      TabelaEhAProjecaoDoLog(antes, id);
      AplicarNaLinha(Executar(VAZIO, antes), op, id);
      if op.OpTentativa? {
        UmaTentativaAMais(Log(antes), op.tentativa, id);
      }
    }
  }

  lemma {:induction false} PrimeiraEstaNoLog(log: seq<A.Tentativa>, id: string)
    ensures PrimeiraDoLog(log, id).Some? ==> PrimeiraDoLog(log, id).value in log
  {
    if log != [] {
      PrimeiraEstaNoLog(log[..|log| - 1], id);
    }
  }

  lemma {:induction false} LogTemSoTentativas(ops: seq<Operacao>, t: A.Tentativa)
    requires t in Log(ops)
    ensures OpTentativa(t) in ops
  {
    if ops != [] {
      var antes, op := ops[..|ops| - 1], ops[|ops| - 1];
      if t in Log(antes) {
        LogTemSoTentativas(antes, t);
      }
    }
  }

  // ---- With the service that emits the attempts ----

  /** Every attempt recorded was made by a call of the run, in any order and
      with any other operations in between. */
  predicate VemDoServico(ops: seq<Operacao>, s: P.Sistema) {
    forall i :: 0 <= i < |ops| && ops[i].OpTentativa? ==>
      exists k :: 0 <= k < |s.tentativas| && s.tentativas[k].1 == ops[i].tentativa
  }

  lemma DoServicoSaoEmitidas(ops: seq<Operacao>, igual: A.Igualdade, s0: P.Sistema, ordem: seq<nat>)
    requires P.Inicial(s0) && VemDoServico(ops, P.Rodar(igual, s0, ordem))
    ensures Emitidas(ops)
  {
    var s := P.Rodar(igual, s0, ordem);
    forall i | 0 <= i < |ops| && ops[i].OpTentativa?
      ensures A.Emitivel(ops[i].tentativa)
    {
      var k :| 0 <= k < |s.tentativas| && s.tentativas[k].1 == ops[i].tentativa;
      P.TentativaGuardaADecisao(igual, s0, ordem, k);
    }
  }

  /** A row, told by the request and the answers of a call: what was asked, by whom
      and when, what was decided and why. */
  predicate LinhaDaChamada(l: LinhaTentativa, id: string, igual: A.Igualdade, c: P.Chamada, enviou: bool) {
    && c.corpo.Valido?
    && var p := c.corpo.pedido;
       && p.idAcao == id && l.tenant == p.instalacao && l.tipo == p.tipo && l.usuario == p.usuario
       && l.repositorio == p.repositorio && l.pr == p.numeroPR && l.em == c.amb.em
       && (l.login.Some? ==> c.amb.identidade == A.Login(l.login.value) && l.login.value != "")
       && (l.login.None? ==> !c.amb.identidade.Login? || c.amb.identidade.login == "")
       && A.PrimeiraFalha(igual, c.corpo, c.amb, enviou, l.motivo)
       && A.Decide(l.motivo, l.decisao)
       && l.decisao !in {A.Invalida, A.Repetida}
  }

  lemma LinhaDoQueConta(l: LinhaTentativa, t: A.Tentativa, igual: A.Igualdade, c: P.Chamada, enviou: bool)
    requires GuardaATentativa(l, t) && Registravel(t) && A.ContaAChamada(igual, c.corpo, c.amb, enviou, t)
    ensures LinhaDaChamada(l, t.idAcao, igual, c, enviou)
  {
  }

  /** Every row of the table, whatever the interleaving of the calls and of the
      other operations, tells of one of the calls. */
  lemma LinhaContaAChamada(ops: seq<Operacao>, id: string, igual: A.Igualdade, s0: P.Sistema, ordem: seq<nat>)
    requires P.Inicial(s0) && VemDoServico(ops, P.Rodar(igual, s0, ordem)) && id in Executar(VAZIO, ops).tentativas
    ensures exists i: nat :: i < |s0.chamadas| &&
              LinhaDaChamada(Executar(VAZIO, ops).tentativas[id], id, igual, s0.chamadas[i], P.Executou(P.Rodar(igual, s0, ordem), i))
  {
    var s := P.Rodar(igual, s0, ordem);
    DoServicoSaoEmitidas(ops, igual, s0, ordem);
    TabelaEhAProjecaoDoLog(ops, id);
    var t := PrimeiraDoLog(Log(ops), id).value;
    PrimeiraEstaNoLog(Log(ops), id);
    LogTemSoTentativas(ops, t);
    var j :| 0 <= j < |ops| && ops[j] == OpTentativa(t);
    var k: nat :| k < |s.tentativas| && s.tentativas[k].1 == ops[j].tentativa;
    P.RegistroContaAChamada(igual, s0, ordem, k);
    var i := s.tentativas[k].0;
    LinhaDoQueConta(Executar(VAZIO, ops).tentativas[id], t, igual, s0.chamadas[i], P.Executou(s, i));
  }

  /** The run the row names: the latest of its pull request in some tables, none if
      they had none. */
  predicate RunAchado(b: Banco, l: LinhaTentativa) {
    match l.run
    case Some(run) => L.Ultimo(b, l.tenant, l.repositorio, l.pr, run)
    case None => forall x :: x in b.runs ==> !L.DoPR(b.runs[x], l.tenant, l.repositorio, l.pr)
  }

  /** Those tables are the ones its attempt found. */
  lemma RunDaEpoca(ops: seq<Operacao>, id: string)
    requires Emitidas(ops) && id in Executar(VAZIO, ops).tentativas
    ensures exists n: nat :: EhAPrimeira(ops, id, n) && RunAchado(Executar(VAZIO, ops[..n]), Executar(VAZIO, ops).tentativas[id])
  {
    var l := Executar(VAZIO, ops).tentativas[id];
    TabelaEhAProjecao(ops, id);
    var n: nat :| EhAPrimeira(ops, id, n) && l == LinhaDaTentativa(Executar(VAZIO, ops[..n]).runs, ops[n].tentativa);
    AchadoNaLinha(Executar(VAZIO, ops[..n]), ops[n].tentativa);
  }

  lemma AchadoNaLinha(b: Banco, t: A.Tentativa)
    ensures RunAchado(b, LinhaDaTentativa(b.runs, t))
  {
    var l := LinhaDaTentativa(b.runs, t);
    forall x | x in b.runs && L.DoPR(b.runs[x], l.tenant, l.repositorio, l.pr)
      ensures DoPullRequest(b.runs[x], t.instalacao, t.repositorio, t.numeroPR)
    {
    }
  }

  lemma AceitaVemDoLog(ops: seq<Operacao>, id: string) returns (t: A.Tentativa)
    requires Emitidas(ops)
    requires id in Executar(VAZIO, ops).tentativas && Executar(VAZIO, ops).tentativas[id].decisao == A.Aceita
    ensures OpTentativa(t) in ops && t.decisao == A.Aceita && t.idAcao == id
  {
    TabelaEhAProjecaoDoLog(ops, id);
    t := PrimeiraDoLog(Log(ops), id).value;
    PrimeiraEstaNoLog(Log(ops), id);
    LogTemSoTentativas(ops, t);
  }

  lemma TentativaAceitaFoiExecutada(t: A.Tentativa, k: nat, igual: A.Igualdade, s0: P.Sistema, ordem: seq<nat>)
    requires P.Inicial(s0) && k < |P.Rodar(igual, s0, ordem).tentativas|
    requires P.Rodar(igual, s0, ordem).tentativas[k].1 == t && t.decisao == A.Aceita
    ensures P.Execucoes(P.Rodar(igual, s0, ordem), t.idAcao) == 1
  {
    var s := P.Rodar(igual, s0, ordem);
    P.TentativaGuardaADecisao(igual, s0, ordem, k);
    AceitaContada(s, s.tentativas[k].0, t.idAcao);
    P.NoMaximoUmaVez(igual, s0, ordem, t.idAcao);
  }

  /** Whatever the interleaving of the calls, an action the table shows as
      accepted was executed exactly once. */
  lemma LinhaAceitaFoiExecutada(ops: seq<Operacao>, id: string, igual: A.Igualdade, s0: P.Sistema, ordem: seq<nat>)
    requires P.Inicial(s0) && VemDoServico(ops, P.Rodar(igual, s0, ordem))
    requires id in Executar(VAZIO, ops).tentativas && Executar(VAZIO, ops).tentativas[id].decisao == A.Aceita
    ensures P.Execucoes(P.Rodar(igual, s0, ordem), id) == 1
  {
    DoServicoSaoEmitidas(ops, igual, s0, ordem);
    var t := AceitaVemDoLog(ops, id);
    var i :| 0 <= i < |ops| && ops[i] == OpTentativa(t);
    var k: nat :| k < |P.Rodar(igual, s0, ordem).tentativas| && P.Rodar(igual, s0, ordem).tentativas[k].1 == ops[i].tentativa;
    TentativaAceitaFoiExecutada(t, k, igual, s0, ordem);
  }

  lemma AceitaContada(s: P.Sistema, i: nat, id: string)
    requires i < |s.chamadas| && P.AceitaDe(s.chamadas[i], id)
    ensures P.Aceitas(s, id) >= 1
  {
    ContaPositiva(s.chamadas, (c: P.Chamada) => P.AceitaDe(c, id));
  }

  lemma SoUmaEhAPrimeira(ops: seq<Operacao>, id: string, i: nat, j: nat)
    requires EhAPrimeira(ops, id, i) && EhAPrimeira(ops, id, j)
    ensures i == j
  {
  }

  /** The table shows an action as accepted exactly when the first attempt
      registered with its id is the accepted one. */
  lemma QuandoMostraAceita(ops: seq<Operacao>, id: string, b: Banco)
    requires Emitidas(ops) && b == Executar(VAZIO, ops)
    ensures id in b.tentativas && b.tentativas[id].decisao == A.Aceita <==>
            exists i: nat :: EhAPrimeira(ops, id, i) && ops[i].tentativa.decisao == A.Aceita
  {
    TabelaEhAProjecao(ops, id);
    if id in b.tentativas {
      var i: nat :| EhAPrimeira(ops, id, i) && b.tentativas[id].decisao == ops[i].tentativa.decisao;
      forall j: nat | EhAPrimeira(ops, id, j)
        ensures j == i
      {
        SoUmaEhAPrimeira(ops, id, i, j);
      }
    }
  }

  lemma DuasTentativas(t: A.Tentativa, u: A.Tentativa)
    requires Registravel(t)
    ensures PrimeiraDoLog(Log([OpTentativa(t), OpTentativa(u)]), t.idAcao) == Some(t)
  {
    var ops := [OpTentativa(t), OpTentativa(u)];
    assert ops[..1] == [OpTentativa(t)] && [OpTentativa(t)][..0] == [];
    assert Log(ops) == Log([OpTentativa(t)]) + [u] == [] + [t] + [u];
    UmaTentativaAMais([], t, t.idAcao);
    UmaTentativaAMais([] + [t], u, t.idAcao);
  }

  /** Two calls for one action, `n` turns of the first and then of the second. */
  function UmaDepoisDaOutra(igual: A.Igualdade, c: P.Chamada, d: P.Chamada, n: nat): P.Sistema {
    P.Rodar(igual, P.Sistema([c, d], {}, [], []), S.Repete(0, n) + S.Repete(1, n))
  }

  predicate PorComecar(c: P.Chamada) {
    c.fase == P.AoInterpretar && !c.venceu && c.corpo.Valido? && A.CorpoCoerente(c.corpo)
  }

  predicate RecusadaPelaPolitica(igual: A.Igualdade, c: P.Chamada) {
    PorComecar(c) && A.Autorizar(igual, c.corpo.pedido, c.amb).decisao == A.Recusada
  }

  predicate Executavel(igual: A.Igualdade, d: P.Chamada) {
    PorComecar(d) && A.Autorizado(igual, d.corpo, d.amb) && d.amb.reserva == A.Responde && d.amb.executou
  }

  lemma UmaRecusadaOutraExecutada(igual: A.Igualdade, c: P.Chamada, d: P.Chamada, n: nat)
    requires n >= 7 && RecusadaPelaPolitica(igual, c) && Executavel(igual, d)
    ensures var s := UmaDepoisDaOutra(igual, c, d, n);
            && |s.chamadas| == 2 && s.chamadas[1].fase == P.Concluida(A.Aceita)
            && s.execucoes == [(1, A.AcaoAutorizada(d.corpo.pedido, A.Autorizar(igual, d.corpo.pedido, d.amb).login))]
            && s.tentativas == [(0, A.TentativaDe(A.DesfechoFinal(igual, c.corpo, c.amb, false), c.amb.em)),
                                (1, A.TentativaDe(A.DesfechoFinal(igual, d.corpo, d.amb, true), d.amb.em))]
  {
    var s0 := P.Sistema([c, d], {}, [], []);
    var t := P.Rodar(igual, s0, S.Repete(0, n));
    S.RodarEmPartes(igual, s0, S.Repete(0, n), S.Repete(1, n));
    S.SozinhaComoPrometido(igual, s0, 0, n);
    S.OutrasFicam(igual, s0, 0, n, 1);
    assert t.reservados == {} && t.execucoes == [];
    S.SozinhaComoPrometido(igual, t, 1, n);
    S.OutrasFicam(igual, t, 1, n, 0);
  }

  /** A refusal hides a later acceptance. Of two calls for one action, the first
      refused and the second authorised, run one after the other: the action is
      executed, once, and answered as accepted, and the table keeps the refusal. */
  lemma RecusaEscondeAAceita(igual: A.Igualdade, c: P.Chamada, d: P.Chamada, n: nat)
    requires n >= 7 && RecusadaPelaPolitica(igual, c) && Executavel(igual, d)
    requires c.corpo.pedido.idAcao == d.corpo.pedido.idAcao && NumeroDePR(c.corpo.pedido.numeroPR)
    ensures var id := d.corpo.pedido.idAcao;
            var s := UmaDepoisDaOutra(igual, c, d, n);
            && |s.chamadas| == 2 && s.chamadas[1].fase == P.Concluida(A.Aceita) && P.Execucoes(s, id) == 1
            && |s.tentativas| == 2
            && var b := Executar(VAZIO, [OpTentativa(s.tentativas[0].1), OpTentativa(s.tentativas[1].1)]);
               id in b.tentativas && b.tentativas[id].decisao == A.Recusada
  {
    var s := UmaDepoisDaOutra(igual, c, d, n);
    UmaRecusadaOutraExecutada(igual, c, d, n);
    UmaExecucao(s, s.execucoes[0], d.corpo.pedido.idAcao);
    var (t, u) := (s.tentativas[0].1, s.tentativas[1].1);
    A.TentativaEmitivel(igual, c.corpo, c.amb, false);
    A.TentativaEmitivel(igual, d.corpo, d.amb, true);
    TabelaEhAProjecaoDoLog([OpTentativa(t), OpTentativa(u)], t.idAcao);
    DuasTentativas(t, u);
  }

  lemma UmaExecucao(s: P.Sistema, e: (nat, A.AcaoAutorizada), id: string)
    requires s.execucoes == [e] && e.1.pedido.idAcao == id
    ensures P.Execucoes(s, id) == 1
  {
    ContaMais([], e, (x: (nat, A.AcaoAutorizada)) => x.1.pedido.idAcao == id);
    assert [] + [e] == [e];
  }

  /** It happens: the same action first from who may only read, then from who
      may write. */
  lemma RecusaSeguidaDeAceita(igual: A.Igualdade)
    ensures var p := A.Pedido("a1", A.ReexecutarAnalise, "U1", "org/repo", 1, 1, "");
            var c := P.Chamada(A.Valido(p), A.Ambiente(A.Login("ana"), Some(A.Read), None, A.Responde, true, 1), P.AoInterpretar, false);
            var d := P.Chamada(A.Valido(p), A.Ambiente(A.Login("bia"), Some(A.Write), None, A.Responde, true, 2), P.AoInterpretar, false);
            RecusadaPelaPolitica(igual, c) && Executavel(igual, d)
  {
  }
}
