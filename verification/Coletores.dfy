/** Result collectors: one write-once register per run, read by whoever waits
    (internal/sandbox/coletor_memoria.go; Gravar and Aguardar of
    internal/repository/postgres.go). */
module Coletores {
  import opened Comum
  import opened Sandbox

  // ---- The register both collectors refine ----

  datatype Pedido<K> =
    | Gravar(id: K, resultado: ResultadoSandbox)
    | Comecar(espera: nat, id: K)
    | Terminar(espera: nat, contexto: Contexto)

  /** The context of a wait when it looks. Once ended, it may be what ends the
      wait even though a result is there: a select with both ready takes either. */
  datatype Contexto = Vivo | Encerrado(escolhido: bool)

  datatype Resposta = Aceito | JaGravado | Esperando | Entregue(resultado: ResultadoSandbox) | ContextoEncerrado

  /** The end of a wait that finds `lido`, or its going on. */
  function Olhado(lido: Option<ResultadoSandbox>, contexto: Contexto): Resposta {
    if lido.Some? && contexto != Encerrado(true) then Entregue(lido.value)
    else if contexto.Vivo? then Esperando
    else ContextoEncerrado
  }

  function Lido<K>(a: Registro<K>, w: nat): Option<ResultadoSandbox> {
    if w in a.esperas && a.esperas[w] in a.gravados then Some(a.gravados[a.esperas[w]]) else None
  }

  datatype Registro<K> = Registro(gravados: map<K, ResultadoSandbox>, esperas: map<nat, K>)

  function Atendido<K>(a: Registro<K>, p: Pedido<K>): (Registro<K>, Resposta) {
    match p
    case Gravar(id, r) => if id in a.gravados then (a, JaGravado) else (a.(gravados := a.gravados[id := r]), Aceito)
    case Comecar(w, id) => (a.(esperas := a.esperas[w := id]), Esperando)
    case Terminar(w, contexto) => (a, Olhado(Lido(a, w), contexto))
  }

  function Depois<K>(a: Registro<K>, ps: seq<Pedido<K>>): Registro<K> {
    if ps == [] then a else Atendido(Depois(a, ps[..|ps| - 1]), ps[|ps| - 1]).0
  }

  function Respostas<K>(a: Registro<K>, ps: seq<Pedido<K>>): seq<Resposta> {
    if ps == [] then [] else Respostas(a, ps[..|ps| - 1]) + [Atendido(Depois(a, ps[..|ps| - 1]), ps[|ps| - 1]).1]
  }

  function Vazio<K>(): Registro<K> {
    Registro(map[], map[])
  }

  /** The first result written for an id. */
  function PrimeiroGravado<K(==)>(ps: seq<Pedido<K>>, id: K): Option<ResultadoSandbox> {
    if ps == [] then None
    else
      var antes, p := PrimeiroGravado(ps[..|ps| - 1], id), ps[|ps| - 1];
      if antes.Some? then antes else if p.Gravar? && p.id == id then Some(p.resultado) else None
  }

  /** Over any run, each register holds the first result written for its id:
      later writes leave no trace, and ids never mix. */
  lemma {:induction false} PrimeiraGravacaoVale<K>(ps: seq<Pedido<K>>, id: K)
    ensures var a := Depois(Vazio(), ps);
            PrimeiroGravado(ps, id) == if id in a.gravados then Some(a.gravados[id]) else None
  {
    if ps != [] {
      PrimeiraGravacaoVale(ps[..|ps| - 1], id);
    }
  }

  /** Whenever a wait ends with a result, and whether it began before or after
      the write, the result is the first one written for the id waited for. It
      ends with it exactly when there is one, unless its context has ended and
      was what the wait took. */
  lemma EsperaRecebeOPrimeiro<K>(antes: seq<Pedido<K>>, w: nat, contexto: Contexto)
    requires w in Depois(Vazio(), antes).esperas
    ensures var a := Depois(Vazio<K>(), antes);
            var r := Atendido(a, Terminar(w, contexto)).1;
            && (r.Entregue? <==> PrimeiroGravado(antes, a.esperas[w]).Some? && contexto != Encerrado(true))
            && (r.Entregue? ==> PrimeiroGravado(antes, a.esperas[w]) == Some(r.resultado))
            && (r.ContextoEncerrado? ==> !contexto.Vivo?)
  {
    PrimeiraGravacaoVale(antes, Depois(Vazio<K>(), antes).esperas[w]);
  }

  /** A write is accepted exactly when it is the first for its id. */
  lemma SoAPrimeiraEhAceita<K>(antes: seq<Pedido<K>>, id: K, r: ResultadoSandbox)
    ensures Atendido(Depois(Vazio(), antes), Gravar(id, r)).1 ==
            (if PrimeiroGravado(antes, id).None? then Aceito else JaGravado)
  {
    PrimeiraGravacaoVale(antes, id);
  }

  // ---- The collector in memory ----

  const NADA := ResultadoSandbox(false, 0, 0, [], 0, Infraestrutura)

  /** A result others may be waiting for; `pronto` is the closed channel. */
  class ResultadoPendente {
    var pronto: bool
    var resultado: ResultadoSandbox
    var gravado: bool

    constructor ()
      ensures !pronto && !gravado
    {
      pronto, resultado, gravado := false, NADA, false;
    }
  }

  class ColetorEmMemoria {
    var pendentes: map<string, ResultadoPendente>

    /** No two ids share an entry, and the channel is closed with the write. */
    ghost predicate Valid()
      reads this, pendentes.Values
    {
      && (forall a, b :: a in pendentes && b in pendentes && a != b ==> pendentes[a] != pendentes[b])
      && (forall id :: id in pendentes ==> pendentes[id] in pendentes.Values)
      && (forall id :: id in pendentes ==> pendentes[id].pronto == pendentes[id].gravado)
    }

    ghost function Gravados(): map<string, ResultadoSandbox>
      reads this, pendentes.Values
      requires Valid()
    {
      map id | id in pendentes && pendentes[id].gravado :: pendentes[id].resultado
    }

    constructor ()
      ensures Valid() && Gravados() == map[] && fresh(pendentes.Values)
    {
      pendentes := map[];
    }

    method PendenteDe(id: string) returns (p: ResultadoPendente)
      requires Valid()
      modifies this
      ensures Valid() && id in pendentes && pendentes[id] == p
      ensures forall k :: k in old(pendentes) ==> k in pendentes && pendentes[k] == old(pendentes[k])
      ensures forall k :: k in pendentes && k !in old(pendentes) ==> k == id && fresh(p) && !p.gravado
      ensures fresh(pendentes.Values - old(pendentes.Values))
      ensures Gravados() == old(Gravados())
    {
      if id in pendentes {
        return pendentes[id];
      }
      p := new ResultadoPendente();
      pendentes := pendentes[id := p];
      assert forall k :: k in pendentes ==> pendentes[k] in pendentes.Values;
    }

    /** The write itself, under the entry's mutex. */
    method Guardar(pendente: ResultadoPendente, r: ResultadoSandbox, ghost id: string)
      requires Valid() && id in pendentes && pendentes[id] == pendente
      modifies pendente
      ensures Valid() && Gravados() == old(Gravados())[id := r]
    {
      pendente.resultado := r;
      pendente.gravado := true;
      pendente.pronto := true;
      assert forall k :: k in pendentes && k != id ==>
               pendentes[k].gravado == old(pendentes[k].gravado) && pendentes[k].resultado == old(pendentes[k].resultado);
    }

    /** Gravar: the first write for an id is kept and closes its channel; a second
        one is refused and changes nothing. */
    method Gravar(id: string, r: ResultadoSandbox) returns (resposta: Resposta)
      requires Valid()
      modifies this, pendentes.Values
      ensures Valid()
      ensures forall k :: k in old(pendentes) ==> k in pendentes && pendentes[k] == old(pendentes[k])
      ensures fresh(pendentes.Values - old(pendentes.Values))
      ensures resposta == (if id in old(Gravados()) then JaGravado else Aceito)
      ensures Gravados() == (if id in old(Gravados()) then old(Gravados()) else old(Gravados())[id := r])
    {
      var pendente := PendenteDe(id);
      if pendente.gravado {
        return JaGravado;
      }
      Guardar(pendente, r, id);
      resposta := Aceito;
    }

    /** Aguardar, until it blocks: the entry to wait on. */
    method Comecar(id: string) returns (p: ResultadoPendente)
      requires Valid()
      modifies this
      ensures Valid() && id in pendentes && pendentes[id] == p
      ensures forall k :: k in old(pendentes) ==> k in pendentes && pendentes[k] == old(pendentes[k])
      ensures fresh(pendentes.Values - old(pendentes.Values))
      ensures Gravados() == old(Gravados())
    {
      p := PendenteDe(id);
    }

    /** Aguardar, when it looks at the channel again, whatever happened since. */
    method Terminar(p: ResultadoPendente, contexto: Contexto, ghost id: string) returns (resposta: Resposta)
      requires Valid() && id in pendentes && pendentes[id] == p
      ensures resposta == Olhado(if id in Gravados() then Some(Gravados()[id]) else None, contexto)
    {
      if p.pronto && contexto != Encerrado(true) {
        return Entregue(p.resultado);
      }
      if contexto.Encerrado? {
        return ContextoEncerrado;
      }
      return Esperando;
    }

    /** The collector and its open waits stand for the register `a`. */
    ghost predicate Corresponde(a: Registro<string>, esperas: map<nat, ResultadoPendente>)
      reads this, pendentes.Values
    {
      && Valid() && Gravados() == a.gravados
      && esperas.Keys == a.esperas.Keys
      && (forall w :: w in esperas ==> a.esperas[w] in pendentes && pendentes[a.esperas[w]] == esperas[w])
    }

    method AtenderUm(p: Pedido<string>, ghost a: Registro<string>, esperas: map<nat, ResultadoPendente>)
      returns (resposta: Resposta, novas: map<nat, ResultadoPendente>)
      requires Corresponde(a, esperas)
      modifies this, pendentes.Values
      ensures Corresponde(Atendido(a, p).0, novas) && resposta == Atendido(a, p).1
      ensures fresh(pendentes.Values - old(pendentes.Values))
    {
      novas := esperas;
      match p {
        case Gravar(id, r) =>
          resposta := Gravar(id, r);
        case Comecar(w, id) =>
          var pendente := Comecar(id);
          novas := esperas[w := pendente];
          resposta := Esperando;
        case Terminar(w, contexto) =>
          if w in esperas {
            resposta := Terminar(esperas[w], contexto, a.esperas[w]);
          } else {
            resposta := Olhado(None, contexto);
          }
      }
    }

    /** Any sequence of writes and waits, interleaved in any order: the collector
        answers as the write-once register does. */
    method Atender(ps: seq<Pedido<string>>) returns (respostas: seq<Resposta>)
      requires Valid() && Gravados() == map[]
      modifies this, pendentes.Values
      ensures Valid() && Gravados() == Depois(Vazio(), ps).gravados
      ensures respostas == Respostas(Vazio(), ps)
    {
      respostas := [];
      var esperas: map<nat, ResultadoPendente> := map[];
      for i := 0 to |ps|
        invariant Corresponde(Depois(Vazio(), ps[..i]), esperas)
        invariant fresh(pendentes.Values - old(pendentes.Values))
        invariant respostas == Respostas(Vazio(), ps[..i])
      {
        assert ps[..i + 1][..i] == ps[..i];
        var resposta;
        resposta, esperas := AtenderUm(ps[i], Depois(Vazio(), ps[..i]), esperas);
        respostas := respostas + [resposta];
      }
      assert ps[..|ps|] == ps;
    }
  }
}
