/** Remote actions: the vocabulary, the policy and the decision on one request
    (internal/acaoremota/contrato.go, politica.go, servico.go). Login equality
    (strings.EqualFold) is the parameter `igual`. */
module AcaoRemota {
  import opened Comum

  type Instante = int

  datatype Tipo = Aprovar | SolicitarAlteracao | ReexecutarAnalise | Outro(nome: string)

  datatype Decisao = Aceita | Recusada | Invalida | Repetida | Falha

  datatype Motivo =
    | Autorizada | CorpoInvalido | SemVinculo | FalhaNaIdentidade | FalhaNaVerificacao
    | PermissaoInsuficiente | AutorDoProprioPR | AcaoRepetida | FalhaNaReserva | FalhaNaExecucao

  datatype Permissao = Admin | Maintain | Write | Triage | Read | Nenhuma

  datatype Pedido = Pedido(idAcao: string, tipo: Tipo, usuario: string, repositorio: string, numeroPR: int, instalacao: int, justificativa: string)

  /** What the validator demands of a request, but for the format of the
      repository name. */
  predicate PedidoValido(p: Pedido) {
    && 0 < |p.idAcao| <= 200
    && !p.tipo.Outro?
    && 0 < |p.usuario| <= 100
    && p.repositorio != ""
    && p.numeroPR > 0
    && p.instalacao > 0
    && (p.tipo == SolicitarAlteracao ==> p.justificativa != "")
    && |p.justificativa| <= 4000
  }

  /** The body as read: a valid request, or whatever was decoded before the error. */
  datatype Corpo = Valido(pedido: Pedido) | Ilegivel(parcial: Pedido)

  predicate CorpoCoerente(c: Corpo) {
    c.Valido? ==> PedidoValido(c.pedido)
  }

  function PedidoDo(c: Corpo): Pedido {
    match c
    case Valido(p) => p
    case Ilegivel(p) => p
  }

  datatype AcaoAutorizada = AcaoAutorizada(pedido: Pedido, login: string)

  datatype Tentativa = Tentativa(
    idAcao: string, tipo: Tipo, usuario: string, login: string, repositorio: string,
    numeroPR: int, instalacao: int, decisao: Decisao, motivo: Motivo, em: Instante)

  datatype Desfecho = Desfecho(pedido: Pedido, login: string, decisao: Decisao, motivo: Motivo)

  // ---- What the environment answers to one call ----

  datatype RespostaIdentidade = Login(login: string) | UsuarioSemVinculo | ErroDeIdentidade

  /** A reservation store answers, or fails before or after marking the id. */
  datatype RespostaReserva = Responde | ErraSemMarcar | ErraMarcando

  datatype Ambiente = Ambiente(
    identidade: RespostaIdentidade, permissao: Option<Permissao>, autor: Option<string>,
    reserva: RespostaReserva, executou: bool, em: Instante)

  // ---- Policy ----

  datatype Situacao = Situacao(tipo: Tipo, permissao: Permissao, login: string, autorDoPR: string)

  datatype Veredito = Veredito(autorizada: bool, motivo: Motivo)

  type Igualdade = (string, string) -> bool

  const PERMISSOES_DE_ESCRITA := [Write, Maintain, Admin]

  function PermissoesExigidas(t: Tipo): seq<Permissao> {
    if t.Outro? then [] else PERMISSOES_DE_ESCRITA
  }

  /** Politica.Avaliar. */
  function Avaliar(igual: Igualdade, s: Situacao): Veredito {
    if s.permissao !in PermissoesExigidas(s.tipo) then Veredito(false, PermissaoInsuficiente)
    else if s.tipo == Aprovar && igual(s.login, s.autorDoPR) then Veredito(false, AutorDoProprioPR)
    else Veredito(true, Autorizada)
  }

  // ---- The decision on one request, from the environment's answers ----

  /** levantarSituacao: the author is asked only for an approval. */
  function SituacaoDe(p: Pedido, login: string, amb: Ambiente): Option<Situacao> {
    if amb.permissao.None? then None
    else if p.tipo != Aprovar then Some(Situacao(p.tipo, amb.permissao.value, login, ""))
    else if amb.autor.None? then None
    else Some(Situacao(p.tipo, amb.permissao.value, login, amb.autor.value))
  }

  function Autorizar(igual: Igualdade, p: Pedido, amb: Ambiente): Desfecho {
    match amb.identidade
    case UsuarioSemVinculo => Desfecho(p, "", Recusada, SemVinculo)
    case ErroDeIdentidade => Desfecho(p, "", Recusada, FalhaNaIdentidade)
    case Login(login) =>
      if login == "" then Desfecho(p, "", Recusada, SemVinculo)
      else
        var situacao := SituacaoDe(p, login, amb);
        if situacao.None? then Desfecho(p, login, Recusada, FalhaNaVerificacao)
        else
          var v := Avaliar(igual, situacao.value);
          if v.autorizada then Desfecho(p, login, Aceita, Autorizada) else Desfecho(p, login, Recusada, v.motivo)
  }

  predicate Autorizado(igual: Igualdade, c: Corpo, amb: Ambiente) {
    c.Valido? && Autorizar(igual, c.pedido, amb).decisao == Aceita
  }

  /** What authorisation means, whoever asks: a resolved login that may write
      and, for an approval, is not the author. */
  lemma SignificadoDaAutorizacao(igual: Igualdade, p: Pedido, amb: Ambiente)
    requires PedidoValido(p)
    ensures Autorizar(igual, p, amb).decisao == Aceita <==>
            && amb.identidade.Login? && amb.identidade.login != ""
            && amb.permissao.Some? && amb.permissao.value in {Write, Maintain, Admin}
            && (p.tipo == Aprovar ==> amb.autor.Some? && !igual(amb.identidade.login, amb.autor.value))
  {
  }

  /** The outcome of a call, given whether it won the reservation. */
  function DesfechoFinal(igual: Igualdade, c: Corpo, amb: Ambiente, venceu: bool): Desfecho {
    match c
    case Ilegivel(p) => Desfecho(p, "", Invalida, CorpoInvalido)
    case Valido(p) =>
      var d := Autorizar(igual, p, amb);
      if d.decisao != Aceita then d
      else if amb.reserva != Responde then d.(decisao := Falha, motivo := FalhaNaReserva)
      else if !venceu then d.(decisao := Repetida, motivo := AcaoRepetida)
      else if !amb.executou then d.(decisao := Falha, motivo := FalhaNaExecucao)
      else d
  }

  function TentativaDe(d: Desfecho, em: Instante): Tentativa {
    Tentativa(d.pedido.idAcao, d.pedido.tipo, d.pedido.usuario, d.login, d.pedido.repositorio,
              d.pedido.numeroPR, d.pedido.instalacao, d.decisao, d.motivo, em)
  }

  // ---- What an attempt says of its call ----

  predicate DoPedido(t: Tentativa, p: Pedido) {
    && t.idAcao == p.idAcao && t.tipo == p.tipo && t.usuario == p.usuario
    && t.repositorio == p.repositorio && t.numeroPR == p.numeroPR && t.instalacao == p.instalacao
  }

  /** The decision each reason stands for. */
  predicate Decide(m: Motivo, d: Decisao) {
    match d
    case Aceita => m == Autorizada
    case Recusada => m in {SemVinculo, FalhaNaIdentidade, FalhaNaVerificacao, PermissaoInsuficiente, AutorDoProprioPR}
    case Invalida => m == CorpoInvalido
    case Repetida => m == AcaoRepetida
    case Falha => m in {FalhaNaReserva, FalhaNaExecucao}
  }

  /** The login the attempt names: the one that was resolved, if any was asked. */
  predicate DaIdentidade(login: string, c: Corpo, amb: Ambiente) {
    login == if c.Valido? && amb.identidade.Login? then amb.identidade.login else ""
  }

  /** The reason is that of the first check that failed. `enviou` says whether the
      call reached the executor. */
  predicate PrimeiraFalha(igual: Igualdade, c: Corpo, amb: Ambiente, enviou: bool, m: Motivo) {
    var resolvido := c.Valido? && amb.identidade.Login? && amb.identidade.login != "";
    var aprova := c.Valido? && c.pedido.tipo == Aprovar;
    var verificado := resolvido && amb.permissao.Some? && (aprova ==> amb.autor.Some?);
    var escreve := verificado && amb.permissao.value in {Write, Maintain, Admin};
    var proprio := escreve && aprova && igual(amb.identidade.login, amb.autor.value);
    var reservou := escreve && !proprio && amb.reserva == Responde;
    && (m == CorpoInvalido <==> !c.Valido?)
    && (m == FalhaNaIdentidade <==> c.Valido? && amb.identidade == ErroDeIdentidade)
    && (m == SemVinculo <==> c.Valido? && amb.identidade in {UsuarioSemVinculo, Login("")})
    && (m == FalhaNaVerificacao <==> resolvido && !verificado)
    && (m == PermissaoInsuficiente <==> verificado && !escreve)
    && (m == AutorDoProprioPR <==> proprio)
    && (m == FalhaNaReserva <==> escreve && !proprio && amb.reserva != Responde)
    && (m == AcaoRepetida <==> reservou && !enviou)
    && (m == FalhaNaExecucao <==> reservou && enviou && !amb.executou)
    && (m == Autorizada <==> reservou && enviou && amb.executou)
  }

  /** An attempt, told by the request and the answers its call got. */
  predicate ContaAChamada(igual: Igualdade, c: Corpo, amb: Ambiente, enviou: bool, t: Tentativa) {
    && DoPedido(t, if c.Valido? then c.pedido else c.parcial)
    && DaIdentidade(t.login, c, amb)
    && t.em == amb.em
    && PrimeiraFalha(igual, c, amb, enviou, t.motivo)
    && Decide(t.motivo, t.decisao)
  }

  lemma TentativaContaAChamada(igual: Igualdade, c: Corpo, amb: Ambiente, venceu: bool)
    requires CorpoCoerente(c)
    ensures ContaAChamada(igual, c, amb, venceu, TentativaDe(DesfechoFinal(igual, c, amb, venceu), amb.em))
  {
  }

  /** Attempts the service can emit: one that is not invalid carries a valid
      request's fields. */
  predicate Emitivel(t: Tentativa) {
    t.decisao != Invalida ==>
      t.idAcao != "" && !t.tipo.Outro? && t.usuario != "" && t.repositorio != "" && t.numeroPR > 0 && t.instalacao > 0
  }

  lemma TentativaEmitivel(igual: Igualdade, c: Corpo, amb: Ambiente, venceu: bool)
    requires CorpoCoerente(c)
    ensures var t := TentativaDe(DesfechoFinal(igual, c, amb, venceu), amb.em);
            Emitivel(t) && DoPedido(t, if c.Valido? then c.pedido else c.parcial)
  {
  }
}
