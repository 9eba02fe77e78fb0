/** One call of the service, step by step over its mutable dependencies
    (internal/acaoremota/servico.go, memoria.go). */
module Servico {
  import opened Comum
  import opened AcaoRemota

  class ReservaEmMemoria {
    var reservados: set<string>

    constructor ()
      ensures reservados == {}
    {
      reservados := {};
    }

    /** Reservar: true for the first call with an id, false ever after. */
    method Reservar(idAcao: string) returns (reservada: bool)
      modifies this
      ensures reservada <==> idAcao !in old(reservados)
      ensures reservados == old(reservados) + {idAcao}
    {
      if idAcao in reservados {
        return false;
      }
      reservados := reservados + {idAcao};
      return true;
    }
  }

  class RegistroEmMemoria {
    var tentativas: seq<Tentativa>

    constructor ()
      ensures tentativas == []
    {
      tentativas := [];
    }

    method Registrar(t: Tentativa)
      modifies this
      ensures tentativas == old(tentativas) + [t]
    {
      tentativas := tentativas + [t];
    }
  }

  class Executor {
    var execucoes: seq<AcaoAutorizada>

    constructor ()
      ensures execucoes == []
    {
      execucoes := [];
    }

    method Executar(acao: AcaoAutorizada, resposta: bool) returns (ok: bool)
      modifies this
      ensures execucoes == old(execucoes) + [acao] && ok == resposta
    {
      execucoes := execucoes + [acao];
      ok := resposta;
    }
  }

  class Servico {
    const reservas: ReservaEmMemoria
    const executor: Executor
    const tentativas: RegistroEmMemoria
    const igual: Igualdade

    constructor (igual: Igualdade, reservas: ReservaEmMemoria, executor: Executor, tentativas: RegistroEmMemoria)
      ensures this.igual == igual && this.reservas == reservas && this.executor == executor && this.tentativas == tentativas
    {
      this.igual, this.reservas, this.executor, this.tentativas := igual, reservas, executor, tentativas;
    }

    /** Processar: the decision returned is the one recorded; the executor is
        reached exactly by an authorised call that wins the reservation; a
        refused or invalid call reserves nothing. */
    method Processar(corpo: Corpo, amb: Ambiente) returns (decisao: Decisao)
      modifies reservas, executor, tentativas
      ensures var chegou := Autorizado(igual, corpo, amb);
              var venceu := chegou && amb.reserva == Responde && corpo.pedido.idAcao !in old(reservas.reservados);
              var d := DesfechoFinal(igual, corpo, amb, venceu);
              && decisao == d.decisao
              && tentativas.tentativas == old(tentativas.tentativas) + [TentativaDe(d, amb.em)]
              && executor.execucoes ==
                 old(executor.execucoes) + (if venceu then [AcaoAutorizada(corpo.pedido, d.login)] else [])
              && reservas.reservados ==
                 old(reservas.reservados) + (if chegou && amb.reserva != ErraSemMarcar then {corpo.pedido.idAcao} else {})
      // The attempt, told by the request, the answers, and whether the executor was reached.
      ensures var n, m := |old(executor.execucoes)|, |old(tentativas.tentativas)|;
              && |tentativas.tentativas| == m + 1 && decisao == tentativas.tentativas[m].decisao
              && n <= |executor.execucoes| <= n + 1
              && (CorpoCoerente(corpo) ==>
                    ContaAChamada(igual, corpo, amb, |executor.execucoes| == n + 1, tentativas.tentativas[m]))
              && (|executor.execucoes| == n + 1 ==>
                    corpo.Valido? && amb.identidade == Login(executor.execucoes[n].login) && executor.execucoes[n].pedido == corpo.pedido)
    {
      if CorpoCoerente(corpo) {
        ghost var venceu := Autorizado(igual, corpo, amb) && amb.reserva == Responde && corpo.pedido.idAcao !in reservas.reservados;
        TentativaContaAChamada(igual, corpo, amb, venceu);
      }
      if corpo.Ilegivel? {
        decisao := Concluir(Desfecho(corpo.parcial, "", Invalida, CorpoInvalido), amb);
        return;
      }
      var resultado := Autorizar(igual, corpo.pedido, amb);
      if resultado.decisao == Aceita {
        resultado := Efetivar(resultado, amb);
      }
      decisao := Concluir(resultado, amb);
    }

    method Efetivar(autorizado: Desfecho, amb: Ambiente) returns (d: Desfecho)
      requires autorizado.decisao == Aceita
      modifies reservas, executor
      ensures var id := autorizado.pedido.idAcao;
              var venceu := amb.reserva == Responde && id !in old(reservas.reservados);
              && d.pedido == autorizado.pedido && d.login == autorizado.login
              && (d.decisao == Aceita <==> venceu && amb.executou)
              && (d.decisao == Repetida <==> amb.reserva == Responde && !venceu)
              && (d.decisao in {Aceita, Repetida, Falha})
              && d.motivo == (if amb.reserva != Responde then FalhaNaReserva else if !venceu then AcaoRepetida
                              else if !amb.executou then FalhaNaExecucao else autorizado.motivo)
              && reservas.reservados == old(reservas.reservados) + (if amb.reserva == ErraSemMarcar then {} else {id})
              && executor.execucoes ==
                 old(executor.execucoes) + (if venceu then [AcaoAutorizada(autorizado.pedido, autorizado.login)] else [])
    {
      if amb.reserva == ErraSemMarcar {
        return autorizado.(decisao := Falha, motivo := FalhaNaReserva);
      }
      var reservada := reservas.Reservar(autorizado.pedido.idAcao);
      if amb.reserva == ErraMarcando {
        return autorizado.(decisao := Falha, motivo := FalhaNaReserva);
      }
      if !reservada {
        return autorizado.(decisao := Repetida, motivo := AcaoRepetida);
      }
      var ok := executor.Executar(AcaoAutorizada(autorizado.pedido, autorizado.login), amb.executou);
      if !ok {
        return autorizado.(decisao := Falha, motivo := FalhaNaExecucao);
      }
      return autorizado;
    }

    method Concluir(d: Desfecho, amb: Ambiente) returns (decisao: Decisao)
      modifies tentativas
      ensures tentativas.tentativas == old(tentativas.tentativas) + [TentativaDe(d, amb.em)]
      ensures decisao == d.decisao
      ensures var t := tentativas.tentativas[|old(tentativas.tentativas)|];
              && DoPedido(t, d.pedido) && t.login == d.login && t.em == amb.em
              && t.decisao == decisao && t.motivo == d.motivo
    {
      tentativas.Registrar(TentativaDe(d, amb.em));
      decisao := d.decisao;
    }
  }
}
