/** One call of the machine alone has the effects that the service's Processar
    promises (internal/acaoremota/servico.go). */
module Sozinha {
  import opened Comum
  import opened AcaoRemota
  import opened Protocolo

  /** What a call adds to the reservations, the executor and the log. */
  datatype Efeito = Efeito(desfecho: Desfecho, marca: set<string>, envia: seq<(nat, AcaoAutorizada)>)

  predicate Deixou(s: Sistema, t: Sistema, i: nat, e: Efeito)
    requires i < |s.chamadas|
  {
    && i < |t.chamadas| && t.chamadas[i].fase == Concluida(e.desfecho.decisao)
    && t.reservados == s.reservados + e.marca
    && t.execucoes == s.execucoes + e.envia
    && t.tentativas == s.tentativas + [(i, TentativaDe(e.desfecho, s.chamadas[i].amb.em))]
  }

  /** The effect of a call from where it is to its end, when nobody else acts. */
  function EfeitoDesde(igual: Igualdade, c: Chamada, i: nat, reservados: set<string>): Efeito
    requires !c.fase.Concluida?
    decreases Restam(c.fase)
  {
    var p := PedidoDo(c.corpo);
    match c.fase
    case AoConcluir(d) => Efeito(d, {}, [])
    case AoExecutar(login) => Efeito(EfeitoDesde(igual, Proxima(igual, c, reservados), i, reservados).desfecho, {}, Envia(c, i))
    case AoReservar(_) =>
      var e := EfeitoDesde(igual, Proxima(igual, c, reservados), i, reservados + Marca(c));
      Efeito(e.desfecho, Marca(c), e.envia)
    case AoInterpretar | AoIdentificar | AoConsultarPermissao(_) | AoConsultarAutor(_, _) =>
      EfeitoDesde(igual, Proxima(igual, c, reservados), i, reservados)
  }

  function Repete(i: nat, n: nat): seq<nat> {
    if n == 0 then [] else [i] + Repete(i, n - 1)
  }

  lemma {:induction false} RodarEmPartes(igual: Igualdade, s: Sistema, a: seq<nat>, b: seq<nat>)
    ensures Rodar(igual, s, a + b) == Rodar(igual, Rodar(igual, s, a), b)
  {
    if b == [] {
      assert a + b == a;
    } else {
      var n := |b| - 1;
      assert (a + b)[..|a + b| - 1] == a + b[..n];
      RodarEmPartes(igual, s, a, b[..n]);
    }
  }

  lemma UmaVez(igual: Igualdade, s: Sistema, i: nat, resto: seq<nat>)
    requires i < |s.chamadas|
    ensures Rodar(igual, s, [i] + resto) == Rodar(igual, Passo(igual, s, i), resto)
  {
    RodarEmPartes(igual, s, [i], resto);
    assert [i][..0] == [];
    assert Rodar(igual, s, []) == s;
  }

  /** Only call `i` has turns. */
  predicate So(ordem: seq<nat>, i: nat) {
    forall k :: 0 <= k < |ordem| ==> ordem[k] == i
  }

  lemma {:induction false} RepeteSoDele(i: nat, n: nat)
    ensures So(Repete(i, n), i) && |Repete(i, n)| == n
  {
    if n > 0 {
      RepeteSoDele(i, n - 1);
    }
  }

  lemma PrimeiraVez(igual: Igualdade, s: Sistema, i: nat, ordem: seq<nat>)
    requires i < |s.chamadas| && So(ordem, i) && ordem != []
    ensures So(ordem[1..], i) && Rodar(igual, s, ordem) == Rodar(igual, Passo(igual, s, i), ordem[1..])
  {
    assert ordem == [i] + ordem[1..];
    UmaVez(igual, s, i, ordem[1..]);
  }

  lemma ConcluidaParada(igual: Igualdade, s: Sistema, i: nat)
    requires i < |s.chamadas| && s.chamadas[i].fase.Concluida?
    ensures Passo(igual, s, i) == s
  {
    var t := Passo(igual, s, i);
    assert t.chamadas == s.chamadas && t.reservados == s.reservados;
    assert t.execucoes == s.execucoes + [] && t.tentativas == s.tentativas + [];
  }

  /** A finished call has nothing left to do. */
  lemma {:induction false} ConcluidaNaoMuda(igual: Igualdade, s: Sistema, i: nat, ordem: seq<nat>)
    requires i < |s.chamadas| && s.chamadas[i].fase.Concluida? && So(ordem, i)
    ensures Rodar(igual, s, ordem) == s
  {
    if ordem != [] {
      ConcluidaNaoMuda(igual, s, i, ordem[..|ordem| - 1]);
      ConcluidaParada(igual, s, i);
    }
  }

  /** The first step's own effect and that of the rest. */
  lemma PrimeiroPasso(igual: Igualdade, s: Sistema, i: nat, fim: Sistema)
    requires i < |s.chamadas| && !s.chamadas[i].fase.Concluida? && !s.chamadas[i].fase.AoConcluir?
    requires var t := Passo(igual, s, i); Deixou(t, fim, i, EfeitoDesde(igual, t.chamadas[i], i, t.reservados))
    ensures Deixou(s, fim, i, EfeitoDesde(igual, s.chamadas[i], i, s.reservados))
  {
    var c, t := s.chamadas[i], Passo(igual, s, i);
    assert t.chamadas[i] == Proxima(igual, c, s.reservados);
    assert t.tentativas == s.tentativas;
    if c.fase.AoExecutar? || c.fase.AoReservar? {
      assert s.reservados + Marca(c) == t.reservados;
    } else {
      assert t.reservados == s.reservados && t.execucoes == s.execucoes;
    }
  }

  lemma Concluindo(igual: Igualdade, s: Sistema, i: nat, ordem: seq<nat>)
    requires i < |s.chamadas| && s.chamadas[i].fase.AoConcluir? && So(ordem, i) && ordem != []
    ensures Deixou(s, Rodar(igual, s, ordem), i, EfeitoDesde(igual, s.chamadas[i], i, s.reservados))
  {
    var t := Passo(igual, s, i);
    PassoQueConclui(igual, s, i);
    PrimeiraVez(igual, s, i, ordem);
    ConcluidaNaoMuda(igual, t, i, ordem[1..]);
  }

  lemma PassoQueConclui(igual: Igualdade, s: Sistema, i: nat)
    requires i < |s.chamadas| && s.chamadas[i].fase.AoConcluir?
    ensures Deixou(s, Passo(igual, s, i), i, EfeitoDesde(igual, s.chamadas[i], i, s.reservados))
  {
    assert EfeitoDesde(igual, s.chamadas[i], i, s.reservados) == Efeito(s.chamadas[i].fase.desfecho, {}, []);
  }

  lemma {:induction false} AteOFim(igual: Igualdade, s: Sistema, i: nat, ordem: seq<nat>)
    requires i < |s.chamadas| && !s.chamadas[i].fase.Concluida? && So(ordem, i) && |ordem| >= Restam(s.chamadas[i].fase)
    ensures Deixou(s, Rodar(igual, s, ordem), i, EfeitoDesde(igual, s.chamadas[i], i, s.reservados))
    decreases |ordem|
  {
    if s.chamadas[i].fase.AoConcluir? {
      Concluindo(igual, s, i, ordem);
    } else {
      var t := Passo(igual, s, i);
      PassoGasta(igual, s.chamadas[i], s.reservados);
      AindaNaoConclui(igual, s.chamadas[i], s.reservados);
      PrimeiraVez(igual, s, i, ordem);
      AteOFim(igual, t, i, ordem[1..]);
      PrimeiroPasso(igual, s, i, Rodar(igual, t, ordem[1..]));
    }
  }

  lemma AindaNaoConclui(igual: Igualdade, c: Chamada, reservados: set<string>)
    requires !c.fase.Concluida? && !c.fase.AoConcluir?
    ensures !Proxima(igual, c, reservados).fase.Concluida?
  {
  }

  lemma Executando(igual: Igualdade, c: Chamada, i: nat, reservados: set<string>)
    requires c.fase.AoExecutar?
    ensures var p := PedidoDo(c.corpo);
            EfeitoDesde(igual, c, i, reservados) ==
            Efeito(if c.amb.executou then Desfecho(p, c.fase.login, Aceita, Autorizada)
                   else Desfecho(p, c.fase.login, Falha, FalhaNaExecucao),
                   {}, [(i, AcaoAutorizada(p, c.fase.login))])
  {
    assert Proxima(igual, c, reservados).fase.AoConcluir?;
  }

  lemma DepoisDeAutorizada(igual: Igualdade, c: Chamada, i: nat, reservados: set<string>)
    requires c.fase.AoReservar? && c.corpo.Valido?
    ensures var id := c.corpo.pedido.idAcao;
            var venceu := c.amb.reserva == Responde && id !in reservados;
            var d := Desfecho(c.corpo.pedido, c.fase.login, Aceita, Autorizada);
            EfeitoDesde(igual, c, i, reservados) ==
            Efeito(if c.amb.reserva != Responde then d.(decisao := Falha, motivo := FalhaNaReserva)
                   else if !venceu then d.(decisao := Repetida, motivo := AcaoRepetida)
                   else if !c.amb.executou then d.(decisao := Falha, motivo := FalhaNaExecucao)
                   else d,
                   if c.amb.reserva != ErraSemMarcar then {id} else {},
                   if venceu then [(i, AcaoAutorizada(c.corpo.pedido, c.fase.login))] else [])
  {
    var d := Proxima(igual, c, reservados);
    if d.fase.AoExecutar? {
      Executando(igual, d, i, reservados + Marca(c));
    } else {
      assert EfeitoDesde(igual, d, i, reservados + Marca(c)) == Efeito(d.fase.desfecho, {}, []);
    }
  }

  /** Where the questions lead. */
  lemma DepoisDasPerguntas(igual: Igualdade, c: Chamada, i: nat, reservados: set<string>)
    requires c.fase == AoInterpretar && c.corpo.Valido?
    ensures var d := Autorizar(igual, c.corpo.pedido, c.amb);
            EfeitoDesde(igual, c, i, reservados) ==
            EfeitoDesde(igual, c.(fase := if d.decisao == Aceita then AoReservar(d.login) else AoConcluir(d)), i, reservados)
  {
    var b := c.(fase := AoIdentificar);
    assert EfeitoDesde(igual, c, i, reservados) == EfeitoDesde(igual, b, i, reservados);
    var a := Proxima(igual, b, reservados);
    assert EfeitoDesde(igual, b, i, reservados) == EfeitoDesde(igual, a, i, reservados);
    if a.fase.AoConsultarPermissao? {
      var p := Proxima(igual, a, reservados);
      assert EfeitoDesde(igual, a, i, reservados) == EfeitoDesde(igual, p, i, reservados);
    }
  }

  lemma EfeitoPrometido(igual: Igualdade, c: Chamada, i: nat, reservados: set<string>)
    requires c.fase == AoInterpretar
    ensures var chegou := Autorizado(igual, c.corpo, c.amb);
            var venceu := chegou && c.amb.reserva == Responde && c.corpo.pedido.idAcao !in reservados;
            var d := DesfechoFinal(igual, c.corpo, c.amb, venceu);
            EfeitoDesde(igual, c, i, reservados) ==
            Efeito(d,
                   if chegou && c.amb.reserva != ErraSemMarcar then {c.corpo.pedido.idAcao} else {},
                   if venceu then [(i, AcaoAutorizada(c.corpo.pedido, d.login))] else [])
  {
    if c.corpo.Valido? {
      DepoisDasPerguntas(igual, c, i, reservados);
      var d := Autorizar(igual, c.corpo.pedido, c.amb);
      if d.decisao == Aceita {
        DepoisDeAutorizada(igual, c.(fase := AoReservar(d.login)), i, reservados);
      }
    } else {
      assert Proxima(igual, c, reservados).fase == AoConcluir(DesfechoFinal(igual, c.corpo, c.amb, false));
    }
  }

  /** Seven turns or more of one call alone leave the decision, the attempt, the
      execution and the reservation that Servico.Processar promises. */
  lemma SozinhaComoPrometido(igual: Igualdade, s: Sistema, i: nat, n: nat)
    requires n >= 7 && i < |s.chamadas| && s.chamadas[i].fase == AoInterpretar && !s.chamadas[i].venceu
    ensures var c := s.chamadas[i];
            var chegou := Autorizado(igual, c.corpo, c.amb);
            var venceu := chegou && c.amb.reserva == Responde && c.corpo.pedido.idAcao !in s.reservados;
            var d := DesfechoFinal(igual, c.corpo, c.amb, venceu);
            Deixou(s, Rodar(igual, s, Repete(i, n)), i,
                   Efeito(d,
                          if chegou && c.amb.reserva != ErraSemMarcar then {c.corpo.pedido.idAcao} else {},
                          if venceu then [(i, AcaoAutorizada(c.corpo.pedido, d.login))] else []))
  {
    RepeteSoDele(i, n);
    AteOFim(igual, s, i, Repete(i, n));
    EfeitoPrometido(igual, s.chamadas[i], i, s.reservados);
  }

  lemma PassoDeixaAsOutras(igual: Igualdade, s: Sistema, i: nat, j: nat)
    requires i < |s.chamadas| && j < |s.chamadas| && i != j
    ensures var t := Passo(igual, s, i); |t.chamadas| == |s.chamadas| && t.chamadas[j] == s.chamadas[j]
  {
  }

  lemma {:induction false} SoElaMuda(igual: Igualdade, s: Sistema, i: nat, ordem: seq<nat>, j: nat)
    requires i < |s.chamadas| && j < |s.chamadas| && i != j && So(ordem, i)
    ensures var t := Rodar(igual, s, ordem); |t.chamadas| == |s.chamadas| && t.chamadas[j] == s.chamadas[j]
  {
    if ordem != [] {
      SoElaMuda(igual, s, i, ordem[..|ordem| - 1], j);
      PassoDeixaAsOutras(igual, Rodar(igual, s, ordem[..|ordem| - 1]), i, j);
    }
  }

  lemma OutrasFicam(igual: Igualdade, s: Sistema, i: nat, n: nat, j: nat)
    requires i < |s.chamadas| && j < |s.chamadas| && i != j
    ensures var t := Rodar(igual, s, Repete(i, n)); |t.chamadas| == |s.chamadas| && t.chamadas[j] == s.chamadas[j]
  {
    RepeteSoDele(i, n);
    SoElaMuda(igual, s, i, Repete(i, n), j);
  }
}
