/** Any number of calls of the service interleaving over one reservation set,
    one executor and one attempt log (internal/acaoremota/servico.go,
    memoria.go). A call advances one step of its own at a time; a schedule is
    any sequence of call numbers. */
module Protocolo {
  import opened Comum
  import opened AcaoRemota

  datatype Fase =
    | AoInterpretar
    | AoIdentificar
    | AoConsultarPermissao(login: string)
    | AoConsultarAutor(login: string, permissao: Permissao)
    | AoReservar(login: string)
    | AoExecutar(login: string)
    | AoConcluir(desfecho: Desfecho)
    | Concluida(decisao: Decisao)

  /** A call: its body, the answers it will get, where it is, and whether it has
      won its reservation. */
  datatype Chamada = Chamada(corpo: Corpo, amb: Ambiente, fase: Fase, venceu: bool)

  /** Each execution and each attempt is recorded with the call that made it. */
  datatype Sistema = Sistema(
    chamadas: seq<Chamada>, reservados: set<string>,
    execucoes: seq<(nat, AcaoAutorizada)>, tentativas: seq<(nat, Tentativa)>)

  predicate Inicial(s: Sistema) {
    && (forall i :: 0 <= i < |s.chamadas| ==>
          s.chamadas[i].fase == AoInterpretar && !s.chamadas[i].venceu && CorpoCoerente(s.chamadas[i].corpo))
    && s.reservados == {}
    && s.execucoes == []
    && s.tentativas == []
  }

  function Decidir(igual: Igualdade, p: Pedido, situacao: Situacao): Fase {
    var v := Avaliar(igual, situacao);
    if v.autorizada then AoReservar(situacao.login)
    else AoConcluir(Desfecho(p, situacao.login, Recusada, v.motivo))
  }

  /** The next phase of a call in the phases that only ask questions. */
  function Perguntar(igual: Igualdade, c: Chamada): Fase {
    var p := PedidoDo(c.corpo);
    match c.fase
    case AoInterpretar =>
      if c.corpo.Valido? then AoIdentificar else AoConcluir(Desfecho(p, "", Invalida, CorpoInvalido))
    case AoIdentificar => (
      match c.amb.identidade
      case UsuarioSemVinculo => AoConcluir(Desfecho(p, "", Recusada, SemVinculo))
      case ErroDeIdentidade => AoConcluir(Desfecho(p, "", Recusada, FalhaNaIdentidade))
      case Login(login) =>
        if login == "" then AoConcluir(Desfecho(p, "", Recusada, SemVinculo)) else AoConsultarPermissao(login))
    case AoConsultarPermissao(login) => (
      match c.amb.permissao
      case None => AoConcluir(Desfecho(p, login, Recusada, FalhaNaVerificacao))
      case Some(permissao) =>
        if p.tipo != Aprovar then Decidir(igual, p, Situacao(p.tipo, permissao, login, ""))
        else AoConsultarAutor(login, permissao))
    case AoConsultarAutor(login, permissao) => (
      match c.amb.autor
      case None => AoConcluir(Desfecho(p, login, Recusada, FalhaNaVerificacao))
      case Some(autor) => Decidir(igual, p, Situacao(p.tipo, permissao, login, autor)))
    case _ => c.fase
  }

  /** The call after its next step, given the ids reserved by then. */
  function Proxima(igual: Igualdade, c: Chamada, reservados: set<string>): Chamada {
    var p := PedidoDo(c.corpo);
    match c.fase
    case AoReservar(login) =>
      if c.amb.reserva != Responde then c.(fase := AoConcluir(Desfecho(p, login, Falha, FalhaNaReserva)))
      else if p.idAcao in reservados then c.(fase := AoConcluir(Desfecho(p, login, Repetida, AcaoRepetida)))
      else c.(fase := AoExecutar(login), venceu := true)
    case AoExecutar(login) =>
      c.(fase := AoConcluir(if c.amb.executou then Desfecho(p, login, Aceita, Autorizada)
                            else Desfecho(p, login, Falha, FalhaNaExecucao)))
    case AoConcluir(d) => c.(fase := Concluida(d.decisao))
    case Concluida(_) => c
    case _ => c.(fase := Perguntar(igual, c))
  }

  /** Ids the step adds to the reservation set. */
  function Marca(c: Chamada): set<string> {
    if c.fase.AoReservar? && c.amb.reserva != ErraSemMarcar then {PedidoDo(c.corpo).idAcao} else {}
  }

  /** What the step sends to the executor. */
  function Envia(c: Chamada, i: nat): seq<(nat, AcaoAutorizada)> {
    if c.fase.AoExecutar? then [(i, AcaoAutorizada(PedidoDo(c.corpo), c.fase.login))] else []
  }

  /** What the step records. */
  function Registra(c: Chamada, i: nat): seq<(nat, Tentativa)> {
    if c.fase.AoConcluir? then [(i, TentativaDe(c.fase.desfecho, c.amb.em))] else []
  }

  /** One atomic step of call `i`. */
  function Passo(igual: Igualdade, s: Sistema, i: nat): Sistema
    requires i < |s.chamadas|
  {
    var c := s.chamadas[i];
    Sistema(s.chamadas[i := Proxima(igual, c, s.reservados)], s.reservados + Marca(c),
            s.execucoes + Envia(c, i), s.tentativas + Registra(c, i))
  }

  /** A run under a schedule; numbers of no call are ignored. */
  function Rodar(igual: Igualdade, s: Sistema, ordem: seq<nat>): Sistema {
    if ordem == [] then s
    else
      var t := Rodar(igual, s, ordem[..|ordem| - 1]);
      var i := ordem[|ordem| - 1];
      if i < |t.chamadas| then Passo(igual, t, i) else t
  }

  // ---- The invariant ----

  predicate Encerrada(f: Fase) {
    f.AoConcluir? || f.Concluida?
  }

  predicate Executou(s: Sistema, i: nat) {
    exists k :: 0 <= k < |s.execucoes| && s.execucoes[k].0 == i
  }

  predicate Registrou(s: Sistema, i: nat) {
    exists k :: 0 <= k < |s.tentativas| && s.tentativas[k].0 == i
  }

  /** What a call knows at its phase, from its own answers. */
  predicate FaseCoerente(igual: Igualdade, c: Chamada) {
    var p := PedidoDo(c.corpo);
    && CorpoCoerente(c.corpo)
    && (c.venceu ==> Autorizado(igual, c.corpo, c.amb) && c.amb.reserva == Responde)
    && match c.fase
       case AoInterpretar => !c.venceu
       case AoIdentificar => c.corpo.Valido? && !c.venceu
       case AoConsultarPermissao(login) => c.corpo.Valido? && !c.venceu && c.amb.identidade == Login(login) && login != ""
       case AoConsultarAutor(login, permissao) =>
         && c.corpo.Valido? && !c.venceu && c.amb.identidade == Login(login) && login != ""
         && c.amb.permissao == Some(permissao) && p.tipo == Aprovar
       case AoReservar(login) => Autorizado(igual, c.corpo, c.amb) && !c.venceu && c.amb.identidade == Login(login)
       case AoExecutar(login) => c.venceu && c.amb.identidade == Login(login)
       case AoConcluir(d) => d == DesfechoFinal(igual, c.corpo, c.amb, c.venceu)
       case Concluida(decisao) => decisao == DesfechoFinal(igual, c.corpo, c.amb, c.venceu).decisao
  }

  function AcaoDe(igual: Igualdade, c: Chamada): AcaoAutorizada {
    AcaoAutorizada(PedidoDo(c.corpo), Autorizar(igual, PedidoDo(c.corpo), c.amb).login)
  }

  function TentativaDaChamada(igual: Igualdade, c: Chamada): Tentativa {
    TentativaDe(DesfechoFinal(igual, c.corpo, c.amb, c.venceu), c.amb.em)
  }

  /** An authorised call that has been through a reservation store that answers. */
  predicate Efetivou(igual: Igualdade, c: Chamada) {
    Autorizado(igual, c.corpo, c.amb) && c.amb.reserva == Responde && (c.fase.AoExecutar? || Encerrada(c.fase))
  }

  predicate Vencedoras(igual: Igualdade, s: Sistema) {
    && (forall i :: 0 <= i < |s.chamadas| && (s.chamadas[i].venceu || Efetivou(igual, s.chamadas[i])) ==>
          PedidoDo(s.chamadas[i].corpo).idAcao in s.reservados)
    && (forall i, j :: 0 <= i < j < |s.chamadas| && s.chamadas[i].venceu && s.chamadas[j].venceu ==>
          PedidoDo(s.chamadas[i].corpo).idAcao != PedidoDo(s.chamadas[j].corpo).idAcao)
  }

  predicate ExecucoesCoerentes(igual: Igualdade, s: Sistema) {
    && (forall k :: 0 <= k < |s.execucoes| ==>
          var i := s.execucoes[k].0;
          && i < |s.chamadas| && s.chamadas[i].venceu && Encerrada(s.chamadas[i].fase)
          && s.execucoes[k].1 == AcaoDe(igual, s.chamadas[i]))
    && (forall k, l :: 0 <= k < l < |s.execucoes| ==> s.execucoes[k].0 != s.execucoes[l].0)
    && (forall i :: 0 <= i < |s.chamadas| && s.chamadas[i].venceu && Encerrada(s.chamadas[i].fase) ==> Executou(s, i))
  }

  predicate TentativasCoerentes(igual: Igualdade, s: Sistema) {
    && (forall k :: 0 <= k < |s.tentativas| ==>
          var i := s.tentativas[k].0;
          && i < |s.chamadas| && s.chamadas[i].fase.Concluida?
          && s.tentativas[k].1 == TentativaDaChamada(igual, s.chamadas[i]))
    && (forall k, l :: 0 <= k < l < |s.tentativas| ==> s.tentativas[k].0 != s.tentativas[l].0)
    && (forall i :: 0 <= i < |s.chamadas| && s.chamadas[i].fase.Concluida? ==> Registrou(s, i))
  }

  predicate PediuReserva(igual: Igualdade, s: Sistema, i: nat, id: string) {
    && i < |s.chamadas|
    && Autorizado(igual, s.chamadas[i].corpo, s.chamadas[i].amb)
    && s.chamadas[i].corpo.pedido.idAcao == id
    && (s.chamadas[i].venceu || s.chamadas[i].amb.reserva == ErraMarcando)
  }

  /** An id is reserved only by an authorised call that asked for it, which won
      it unless the store failed after marking. */
  ghost predicate ReservasCoerentes(igual: Igualdade, s: Sistema) {
    forall id :: id in s.reservados ==> exists i :: PediuReserva(igual, s, i, id)
  }

  ghost predicate Inv(igual: Igualdade, s: Sistema) {
    && (forall i :: 0 <= i < |s.chamadas| ==> FaseCoerente(igual, s.chamadas[i]))
    && Vencedoras(igual, s)
    && ExecucoesCoerentes(igual, s)
    && TentativasCoerentes(igual, s)
    && ReservasCoerentes(igual, s)
  }

  lemma FaseSegueCoerente(igual: Igualdade, c: Chamada, reservados: set<string>)
    requires FaseCoerente(igual, c)
    ensures FaseCoerente(igual, Proxima(igual, c, reservados))
  {
  }

  lemma ReservasPreservadas(igual: Igualdade, s: Sistema, i: nat, c: Chamada, t: Sistema)
    requires i < |s.chamadas| && Vencedoras(igual, s) && ReservasCoerentes(igual, s)
    requires t.chamadas == s.chamadas[i := c] && s.reservados <= t.reservados
    requires c.corpo == s.chamadas[i].corpo && c.amb == s.chamadas[i].amb
    requires s.chamadas[i].venceu ==> c.venceu
    requires Efetivou(igual, c) && !Efetivou(igual, s.chamadas[i]) ==> PedidoDo(c.corpo).idAcao in t.reservados
    requires c.venceu && !s.chamadas[i].venceu ==>
               PedidoDo(c.corpo).idAcao in t.reservados && PedidoDo(c.corpo).idAcao !in s.reservados
    requires forall id :: id in t.reservados && id !in s.reservados ==> PediuReserva(igual, t, i, id)
    ensures Vencedoras(igual, t) && ReservasCoerentes(igual, t)
  {
    forall id | id in t.reservados
      ensures exists j :: PediuReserva(igual, t, j, id)
    {
      if id in s.reservados {
        var j :| PediuReserva(igual, s, j, id);
        assert PediuReserva(igual, t, j, id);
      }
    }
  }

  lemma ExecucoesPreservadas(igual: Igualdade, s: Sistema, i: nat, c: Chamada, t: Sistema)
    requires i < |s.chamadas| && ExecucoesCoerentes(igual, s)
    requires t.chamadas == s.chamadas[i := c]
    requires c.corpo == s.chamadas[i].corpo && c.amb == s.chamadas[i].amb
    requires var antes := s.chamadas[i].venceu && Encerrada(s.chamadas[i].fase);
             var depois := c.venceu && Encerrada(c.fase);
             || (t.execucoes == s.execucoes && antes == depois)
             || (t.execucoes == s.execucoes + [(i, AcaoDe(igual, c))] && !antes && depois)
    ensures ExecucoesCoerentes(igual, t)
  {
    assert forall k :: 0 <= k < |s.execucoes| ==> t.execucoes[k] == s.execucoes[k];
    forall j | 0 <= j < |t.chamadas| && t.chamadas[j].venceu && Encerrada(t.chamadas[j].fase)
      ensures Executou(t, j)
    {
      if j == i && t.execucoes != s.execucoes {
        assert t.execucoes[|s.execucoes|].0 == i;
      } else {
        assert Executou(s, j);
        var k :| 0 <= k < |s.execucoes| && s.execucoes[k].0 == j;
        assert t.execucoes[k].0 == j;
      }
    }
  }

  lemma TentativasPreservadas(igual: Igualdade, s: Sistema, i: nat, c: Chamada, t: Sistema)
    requires i < |s.chamadas| && TentativasCoerentes(igual, s)
    requires t.chamadas == s.chamadas[i := c]
    requires || (t.tentativas == s.tentativas && s.chamadas[i].fase.Concluida? == c.fase.Concluida?
                 && (c.fase.Concluida? ==> c == s.chamadas[i]))
             || (t.tentativas == s.tentativas + [(i, TentativaDaChamada(igual, c))]
                 && !s.chamadas[i].fase.Concluida? && c.fase.Concluida?)
    ensures TentativasCoerentes(igual, t)
  {
    assert forall k :: 0 <= k < |s.tentativas| ==> t.tentativas[k] == s.tentativas[k];
    forall j | 0 <= j < |t.chamadas| && t.chamadas[j].fase.Concluida?
      ensures Registrou(t, j)
    {
      if j == i && t.tentativas != s.tentativas {
        assert t.tentativas[|s.tentativas|].0 == i;
      } else {
        assert Registrou(s, j);
        var k :| 0 <= k < |s.tentativas| && s.tentativas[k].0 == j;
        assert t.tentativas[k].0 == j;
      }
    }
  }

  /** What one step of a coherent call does to the rest of the system. */
  lemma EfeitosDoPasso(igual: Igualdade, c: Chamada, reservados: set<string>, i: nat)
    requires FaseCoerente(igual, c)
    ensures var d := Proxima(igual, c, reservados);
            && d.corpo == c.corpo && d.amb == c.amb
            && (c.venceu ==> d.venceu)
            && (Efetivou(igual, d) && !Efetivou(igual, c) ==> PedidoDo(c.corpo).idAcao in Marca(c))
            && (d.venceu && !c.venceu ==> Marca(c) == {PedidoDo(c.corpo).idAcao} && PedidoDo(c.corpo).idAcao !in reservados)
            && (Marca(c) != {} && PedidoDo(c.corpo).idAcao !in reservados ==>
                  Autorizado(igual, c.corpo, c.amb) && (d.venceu || d.amb.reserva == ErraMarcando))
            && ((c.venceu && Encerrada(c.fase)) != (d.venceu && Encerrada(d.fase)) <==> c.fase.AoExecutar?)
            && (c.fase.AoExecutar? ==> d.venceu && Encerrada(d.fase) && !Encerrada(c.fase) && Envia(c, i) == [(i, AcaoDe(igual, d))])
            && (c.fase.AoConcluir? ==> d.fase.Concluida? && Registra(c, i) == [(i, TentativaDaChamada(igual, d))])
            && (c.fase.Concluida? ==> d == c)
            && (d.fase.Concluida? ==> c.fase.AoConcluir? || c.fase.Concluida?)
  {
  }

  lemma PassoPreservaReservas(igual: Igualdade, s: Sistema, i: nat)
    requires i < |s.chamadas| && FaseCoerente(igual, s.chamadas[i]) && Vencedoras(igual, s) && ReservasCoerentes(igual, s)
    ensures Vencedoras(igual, Passo(igual, s, i)) && ReservasCoerentes(igual, Passo(igual, s, i))
  {
    EfeitosDoPasso(igual, s.chamadas[i], s.reservados, i);
    ReservasPreservadas(igual, s, i, Proxima(igual, s.chamadas[i], s.reservados), Passo(igual, s, i));
  }

  lemma PassoPreservaExecucoes(igual: Igualdade, s: Sistema, i: nat)
    requires i < |s.chamadas| && FaseCoerente(igual, s.chamadas[i]) && ExecucoesCoerentes(igual, s)
    ensures ExecucoesCoerentes(igual, Passo(igual, s, i))
  {
    EfeitosDoPasso(igual, s.chamadas[i], s.reservados, i);
    assert Envia(s.chamadas[i], i) == [] ==> Passo(igual, s, i).execucoes == s.execucoes;
    ExecucoesPreservadas(igual, s, i, Proxima(igual, s.chamadas[i], s.reservados), Passo(igual, s, i));
  }

  lemma PassoPreservaTentativas(igual: Igualdade, s: Sistema, i: nat)
    requires i < |s.chamadas| && FaseCoerente(igual, s.chamadas[i]) && TentativasCoerentes(igual, s)
    ensures TentativasCoerentes(igual, Passo(igual, s, i))
  {
    EfeitosDoPasso(igual, s.chamadas[i], s.reservados, i);
    assert Registra(s.chamadas[i], i) == [] ==> Passo(igual, s, i).tentativas == s.tentativas;
    TentativasPreservadas(igual, s, i, Proxima(igual, s.chamadas[i], s.reservados), Passo(igual, s, i));
  }

  lemma PassoPreservaFases(igual: Igualdade, s: Sistema, i: nat)
    requires i < |s.chamadas| && forall j :: 0 <= j < |s.chamadas| ==> FaseCoerente(igual, s.chamadas[j])
    ensures var t := Passo(igual, s, i); forall j :: 0 <= j < |t.chamadas| ==> FaseCoerente(igual, t.chamadas[j])
  {
    FaseSegueCoerente(igual, s.chamadas[i], s.reservados);
  }

  lemma PassoPreservaInv(igual: Igualdade, s: Sistema, i: nat)
    requires i < |s.chamadas| && Inv(igual, s)
    ensures Inv(igual, Passo(igual, s, i))
  {
    PassoPreservaFases(igual, s, i);
    PassoPreservaReservas(igual, s, i);
    PassoPreservaExecucoes(igual, s, i);
    PassoPreservaTentativas(igual, s, i);
  }

  lemma {:induction false} TodaExecucaoMantemInv(igual: Igualdade, s: Sistema, ordem: seq<nat>)
    requires Inicial(s)
    ensures Inv(igual, Rodar(igual, s, ordem))
    ensures |Rodar(igual, s, ordem).chamadas| == |s.chamadas|
  {
    if ordem != [] {
      TodaExecucaoMantemInv(igual, s, ordem[..|ordem| - 1]);
      var t := Rodar(igual, s, ordem[..|ordem| - 1]);
      if ordem[|ordem| - 1] < |t.chamadas| {
        PassoPreservaInv(igual, t, ordem[|ordem| - 1]);
      }
    }
  }

  // ---- The guarantees, over every schedule ----

  function Execucoes(s: Sistema, id: string): nat {
    Conta(s.execucoes, (e: (nat, AcaoAutorizada)) => e.1.pedido.idAcao == id)
  }

  predicate AceitaDe(c: Chamada, id: string) {
    c.fase == Concluida(Aceita) && PedidoDo(c.corpo).idAcao == id
  }

  function Aceitas(s: Sistema, id: string): nat {
    Conta(s.chamadas, c => AceitaDe(c, id))
  }

  function TentativasDaChamada(s: Sistema, i: nat): nat {
    Conta(s.tentativas, (t: (nat, Tentativa)) => t.0 == i)
  }

  lemma ExecucoesSemRepeticao(igual: Igualdade, s: Sistema, id: string)
    requires Inv(igual, s)
    ensures Execucoes(s, id) <= (if id in s.reservados then 1 else 0)
  {
    var doId := (e: (nat, AcaoAutorizada)) => e.1.pedido.idAcao == id;
    forall k, l | 0 <= k < l < |s.execucoes|
      ensures !(doId(s.execucoes[k]) && doId(s.execucoes[l]))
    {
      var i, j := s.execucoes[k].0, s.execucoes[l].0;
      assert s.chamadas[i].venceu && s.chamadas[j].venceu && i != j;
    }
    ContaSemRepeticao(s.execucoes, doId);
    ContaPositiva(s.execucoes, doId);
  }

  lemma AceitaVenceu(igual: Igualdade, c: Chamada)
    requires FaseCoerente(igual, c) && c.fase == Concluida(Aceita)
    ensures c.venceu
  {
  }

  lemma AceitasSemRepeticao(igual: Igualdade, s: Sistema, id: string)
    requires Inv(igual, s)
    ensures Aceitas(s, id) <= 1
    ensures Aceitas(s, id) == 1 ==> exists i :: 0 <= i < |s.chamadas| && AceitaDe(s.chamadas[i], id)
  {
    var aceita := (c: Chamada) => AceitaDe(c, id);
    forall i | 0 <= i < |s.chamadas| && aceita(s.chamadas[i])
      ensures s.chamadas[i].venceu
    {
      AceitaVenceu(igual, s.chamadas[i]);
    }
    ContaSemRepeticao(s.chamadas, aceita);
    ContaPositiva(s.chamadas, aceita);
  }

  lemma AceitasForamExecutadas(igual: Igualdade, s: Sistema, id: string)
    requires Inv(igual, s)
    ensures Aceitas(s, id) <= Execucoes(s, id)
  {
    AceitasSemRepeticao(igual, s, id);
    if Aceitas(s, id) == 1 {
      var i :| 0 <= i < |s.chamadas| && AceitaDe(s.chamadas[i], id);
      AceitaVenceu(igual, s.chamadas[i]);
      VencedoraFoiExecutada(igual, s, i);
    }
  }

  /** Each id reaches the executor at most once, and only if reserved; it is
      answered as accepted no more often than it was executed. */
  lemma NoMaximoUmaVez(igual: Igualdade, s0: Sistema, ordem: seq<nat>, id: string)
    requires Inicial(s0)
    ensures var s := Rodar(igual, s0, ordem);
            Aceitas(s, id) <= Execucoes(s, id) <= (if id in s.reservados then 1 else 0)
  {
    TodaExecucaoMantemInv(igual, s0, ordem);
    ExecucoesSemRepeticao(igual, Rodar(igual, s0, ordem), id);
    AceitasForamExecutadas(igual, Rodar(igual, s0, ordem), id);
  }

  /** Every execution belongs to a call whose own answers satisfy the policy and
      which won the reservation, and carries that call's request and login. */
  lemma ExecucaoEhAutorizada(igual: Igualdade, s0: Sistema, ordem: seq<nat>, k: nat)
    requires Inicial(s0) && k < |Rodar(igual, s0, ordem).execucoes|
    ensures var s := Rodar(igual, s0, ordem);
            var (i, acao) := s.execucoes[k];
            && i < |s.chamadas| && s.chamadas[i].venceu
            && s.chamadas[i].corpo == Valido(acao.pedido)
            && s.chamadas[i].amb.identidade == Login(acao.login)
            && s.chamadas[i].amb.permissao.Some? && s.chamadas[i].amb.permissao.value in {Write, Maintain, Admin}
            && (acao.pedido.tipo == Aprovar ==>
                  s.chamadas[i].amb.autor.Some? && !igual(acao.login, s.chamadas[i].amb.autor.value))
  {
    TodaExecucaoMantemInv(igual, s0, ordem);
    var s := Rodar(igual, s0, ordem);
    var c := s.chamadas[s.execucoes[k].0];
    SignificadoDaAutorizacao(igual, c.corpo.pedido, c.amb);
  }

  lemma TentativasSemRepeticao(igual: Igualdade, s: Sistema, i: nat)
    requires Inv(igual, s) && i < |s.chamadas|
    ensures TentativasDaChamada(s, i) == (if s.chamadas[i].fase.Concluida? then 1 else 0)
  {
    var minha := (t: (nat, Tentativa)) => t.0 == i;
    ContaSemRepeticao(s.tentativas, minha);
    ContaPositiva(s.tentativas, minha);
    if s.chamadas[i].fase.Concluida? {
      var k :| 0 <= k < |s.tentativas| && s.tentativas[k].0 == i;
      assert minha(s.tentativas[k]);
    }
  }

  /** A finished call has recorded exactly one attempt, holding the decision it
      returned; an unfinished one has recorded none. */
  lemma UmaTentativaPorChamada(igual: Igualdade, s0: Sistema, ordem: seq<nat>, i: nat)
    requires Inicial(s0) && i < |s0.chamadas|
    ensures var s := Rodar(igual, s0, ordem);
            && i < |s.chamadas|
            && TentativasDaChamada(s, i) == (if s.chamadas[i].fase.Concluida? then 1 else 0)
  {
    TodaExecucaoMantemInv(igual, s0, ordem);
    TentativasSemRepeticao(igual, Rodar(igual, s0, ordem), i);
  }

  /** What each recorded attempt holds: the outcome of its call, the decision
      the call returned, and nothing the service could not emit. */
  lemma TentativaGuardaADecisao(igual: Igualdade, s0: Sistema, ordem: seq<nat>, k: nat)
    requires Inicial(s0) && k < |Rodar(igual, s0, ordem).tentativas|
    ensures var s := Rodar(igual, s0, ordem);
            var (i, t) := s.tentativas[k];
            && i < |s.chamadas|
            && t == TentativaDaChamada(igual, s.chamadas[i])
            && s.chamadas[i].fase == Concluida(t.decisao)
            && Emitivel(t)
  {
    TodaExecucaoMantemInv(igual, s0, ordem);
    var s := Rodar(igual, s0, ordem);
    var c := s.chamadas[s.tentativas[k].0];
    TentativaEmitivel(igual, c.corpo, c.amb, c.venceu);
  }

  /** What each recorded attempt says, told by the request and the answers of its
      call, and by whether the call reached the executor. */
  lemma RegistroContaAChamada(igual: Igualdade, s0: Sistema, ordem: seq<nat>, k: nat)
    requires Inicial(s0) && k < |Rodar(igual, s0, ordem).tentativas|
    ensures var s := Rodar(igual, s0, ordem);
            var (i, t) := s.tentativas[k];
            && i < |s0.chamadas|
            && ContaAChamada(igual, s0.chamadas[i].corpo, s0.chamadas[i].amb, Executou(s, i), t)
  {
    TodaExecucaoMantemInv(igual, s0, ordem);
    CorposNaoMudam(igual, s0, ordem);
    var s := Rodar(igual, s0, ordem);
    var i := s.tentativas[k].0;
    var c := s.chamadas[i];
    TentativaContaAChamada(igual, c.corpo, c.amb, c.venceu);
    VenceuSeExecutou(igual, s, i);
  }

  lemma VenceuSeExecutou(igual: Igualdade, s: Sistema, i: nat)
    requires Inv(igual, s) && i < |s.chamadas| && s.chamadas[i].fase.Concluida?
    ensures s.chamadas[i].venceu <==> Executou(s, i)
  {
    if Executou(s, i) {
      var k :| 0 <= k < |s.execucoes| && s.execucoes[k].0 == i;
      assert s.chamadas[s.execucoes[k].0].venceu;
    }
  }

  /** Refused and invalid requests reserve nothing: a reserved id has an
      authorised request behind it. */
  lemma RecusaNaoReserva(igual: Igualdade, s0: Sistema, ordem: seq<nat>, id: string)
    requires Inicial(s0)
    requires forall i :: 0 <= i < |s0.chamadas| && PedidoDo(s0.chamadas[i].corpo).idAcao == id ==>
               !Autorizado(igual, s0.chamadas[i].corpo, s0.chamadas[i].amb)
    ensures id !in Rodar(igual, s0, ordem).reservados && Execucoes(Rodar(igual, s0, ordem), id) == 0
  {
    TodaExecucaoMantemInv(igual, s0, ordem);
    CorposNaoMudam(igual, s0, ordem);
    NoMaximoUmaVez(igual, s0, ordem, id);
    SemPedidoAutorizado(igual, Rodar(igual, s0, ordem), id);
  }

  lemma SemPedidoAutorizado(igual: Igualdade, s: Sistema, id: string)
    requires ReservasCoerentes(igual, s)
    requires forall i :: 0 <= i < |s.chamadas| && PedidoDo(s.chamadas[i].corpo).idAcao == id ==>
               !Autorizado(igual, s.chamadas[i].corpo, s.chamadas[i].amb)
    ensures id !in s.reservados
  {
    forall i: nat
      ensures !PediuReserva(igual, s, i, id)
    {
    }
  }

  lemma {:induction false} CorposNaoMudam(igual: Igualdade, s: Sistema, ordem: seq<nat>)
    ensures var t := Rodar(igual, s, ordem);
            && |t.chamadas| == |s.chamadas|
            && forall i :: 0 <= i < |s.chamadas| ==>
                 t.chamadas[i].corpo == s.chamadas[i].corpo && t.chamadas[i].amb == s.chamadas[i].amb
  {
    if ordem != [] {
      CorposNaoMudam(igual, s, ordem[..|ordem| - 1]);
    }
  }

  /** Steps a call still has to take at most. */
  function Restam(f: Fase): nat {
    match f
    case AoInterpretar => 7
    case AoIdentificar => 6
    case AoConsultarPermissao(_) => 5
    case AoConsultarAutor(_, _) => 4
    case AoReservar(_) => 3
    case AoExecutar(_) => 2
    case AoConcluir(_) => 1
    case Concluida(_) => 0
  }

  lemma PassoGasta(igual: Igualdade, c: Chamada, reservados: set<string>)
    ensures Restam(Proxima(igual, c, reservados).fase) < Restam(c.fase) ||
            Restam(Proxima(igual, c, reservados).fase) == Restam(c.fase) == 0
  {
  }

  lemma {:induction false} PassosRestantes(igual: Igualdade, s: Sistema, ordem: seq<nat>, i: nat)
    requires i < |s.chamadas|
    ensures |Rodar(igual, s, ordem).chamadas| == |s.chamadas|
    ensures Restam(Rodar(igual, s, ordem).chamadas[i].fase) == 0 ||
            Restam(Rodar(igual, s, ordem).chamadas[i].fase) + Conta(ordem, n => n == i) <= Restam(s.chamadas[i].fase)
  {
    if ordem != [] {
      PassosRestantes(igual, s, ordem[..|ordem| - 1], i);
      var t := Rodar(igual, s, ordem[..|ordem| - 1]);
      PassoGasta(igual, t.chamadas[i], t.reservados);
    }
  }

  /** No call waits for another: seven turns of its own finish it, whatever the
      others do. */
  lemma SeteTurnosBastam(igual: Igualdade, s0: Sistema, ordem: seq<nat>, i: nat)
    requires Inicial(s0) && i < |s0.chamadas| && Conta(ordem, n => n == i) >= 7
    ensures i < |Rodar(igual, s0, ordem).chamadas| && Rodar(igual, s0, ordem).chamadas[i].fase.Concluida?
  {
    PassosRestantes(igual, s0, ordem, i);
  }

  lemma VencedoraOuRepetida(igual: Igualdade, s: Sistema, i: nat, j: nat)
    requires Inv(igual, s) && i < j < |s.chamadas|
    requires Autorizado(igual, s.chamadas[i].corpo, s.chamadas[i].amb) && s.chamadas[i].amb.reserva == Responde
    requires Autorizado(igual, s.chamadas[j].corpo, s.chamadas[j].amb) && s.chamadas[j].amb.reserva == Responde
    requires s.chamadas[i].corpo.pedido.idAcao == s.chamadas[j].corpo.pedido.idAcao
    requires s.chamadas[i].fase.Concluida? && s.chamadas[j].fase.Concluida?
    ensures s.chamadas[i].fase.decisao == Repetida || s.chamadas[j].fase.decisao == Repetida
  {
    assert FaseCoerente(igual, s.chamadas[i]) && FaseCoerente(igual, s.chamadas[j]);
    assert !s.chamadas[i].venceu || !s.chamadas[j].venceu;
  }

  /** Of two finished authorised calls for one id, when the reservation store
      does not fail, at least one was told it was repeated. */
  lemma UmaSoVence(igual: Igualdade, s0: Sistema, ordem: seq<nat>, i: nat, j: nat)
    requires Inicial(s0) && i < j < |s0.chamadas|
    requires Autorizado(igual, s0.chamadas[i].corpo, s0.chamadas[i].amb) && s0.chamadas[i].amb.reserva == Responde
    requires Autorizado(igual, s0.chamadas[j].corpo, s0.chamadas[j].amb) && s0.chamadas[j].amb.reserva == Responde
    requires s0.chamadas[i].corpo.pedido.idAcao == s0.chamadas[j].corpo.pedido.idAcao
    ensures var s := Rodar(igual, s0, ordem);
            && |s.chamadas| == |s0.chamadas|
            && (s.chamadas[i].fase.Concluida? && s.chamadas[j].fase.Concluida? ==>
                  s.chamadas[i].fase.decisao == Repetida || s.chamadas[j].fase.decisao == Repetida)
  {
    TodaExecucaoMantemInv(igual, s0, ordem);
    CorposNaoMudam(igual, s0, ordem);
    var s := Rodar(igual, s0, ordem);
    if s.chamadas[i].fase.Concluida? && s.chamadas[j].fase.Concluida? {
      VencedoraOuRepetida(igual, s, i, j);
    }
  }

  /** Exactly once: when the store does not fail and every call for an id has
      finished, an id with an authorised call was executed exactly once. */
  lemma ExatamenteUmaVez(igual: Igualdade, s0: Sistema, ordem: seq<nat>, id: string, i: nat)
    requires Inicial(s0) && i < |s0.chamadas|
    requires forall k :: 0 <= k < |s0.chamadas| && PedidoDo(s0.chamadas[k].corpo).idAcao == id ==>
               s0.chamadas[k].amb.reserva == Responde
    requires Autorizado(igual, s0.chamadas[i].corpo, s0.chamadas[i].amb) && s0.chamadas[i].corpo.pedido.idAcao == id
    ensures var s := Rodar(igual, s0, ordem);
            && |s.chamadas| == |s0.chamadas|
            && ((forall k :: 0 <= k < |s.chamadas| && PedidoDo(s.chamadas[k].corpo).idAcao == id ==>
                   s.chamadas[k].fase.Concluida?) ==> Execucoes(s, id) == 1)
  {
    TodaExecucaoMantemInv(igual, s0, ordem);
    CorposNaoMudam(igual, s0, ordem);
    var s := Rodar(igual, s0, ordem);
    ExecucoesSemRepeticao(igual, s, id);
    if forall k :: 0 <= k < |s.chamadas| && PedidoDo(s.chamadas[k].corpo).idAcao == id ==> s.chamadas[k].fase.Concluida? {
      ReservadaFoiExecutada(igual, s, id, i);
    }
  }

  lemma ReservadaFoiExecutada(igual: Igualdade, s: Sistema, id: string, i: nat)
    requires Inv(igual, s) && i < |s.chamadas|
    requires forall k :: 0 <= k < |s.chamadas| && PedidoDo(s.chamadas[k].corpo).idAcao == id ==>
               s.chamadas[k].fase.Concluida? && s.chamadas[k].amb.reserva == Responde
    requires Autorizado(igual, s.chamadas[i].corpo, s.chamadas[i].amb) && s.chamadas[i].corpo.pedido.idAcao == id
    ensures Execucoes(s, id) >= 1
  {
    assert Efetivou(igual, s.chamadas[i]);
    var j: nat :| PediuReserva(igual, s, j, id);
    VencedoraFoiExecutada(igual, s, j);
  }

  lemma VencedoraFoiExecutada(igual: Igualdade, s: Sistema, j: nat)
    requires Inv(igual, s) && j < |s.chamadas| && s.chamadas[j].venceu && s.chamadas[j].fase.Concluida?
    ensures Execucoes(s, PedidoDo(s.chamadas[j].corpo).idAcao) >= 1
  {
    var id := PedidoDo(s.chamadas[j].corpo).idAcao;
    assert Executou(s, j);
    var k :| 0 <= k < |s.execucoes| && s.execucoes[k].0 == j;
    var doId := (e: (nat, AcaoAutorizada)) => e.1.pedido.idAcao == id;
    assert doId(s.execucoes[k]);
    ContaPositiva(s.execucoes, doId);
  }
}
