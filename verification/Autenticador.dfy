/** Installation tokens: the cache and the retry of the exchange
    (internal/platform/autenticacao.go). Instants are in nanoseconds. */
module Autenticador {
  import opened Comum

  type Instante = int

  const MARGEM_DE_RENOVACAO: int := 300_000_000_000
  const ESPERA_BASE_MS: int := 500
  const TENTATIVAS_PARA_TRANSITORIO: nat := 3
  const TENTATIVAS_PARA_CREDENCIAL: nat := 2

  datatype Token = Token(valor: string, expiraEm: Instante)

  datatype Erro = AppNaoInstalado | CredencialRejeitada | Indisponivel | OutroErro

  type Resposta = Result<Token, Erro>

  /** classificarStatus: None is success. */
  function ClassificarStatus(status: int): Option<Erro> {
    if status < 300 then None
    else if status == 404 then Some(AppNaoInstalado)
    else if status == 401 || status == 403 then Some(CredencialRejeitada)
    else if status >= 500 then Some(Indisponivel)
    else Some(OutroErro)
  }

  function LimiteDeTentativas(e: Erro): (n: nat)
    ensures 1 <= n <= 3
  {
    match e
    case Indisponivel => TENTATIVAS_PARA_TRANSITORIO
    case CredencialRejeitada => TENTATIVAS_PARA_CREDENCIAL
    case _ => 1
  }

  /** What one exchange gets: nothing (the request could not be made or sent), or
      a status with the token in its body, if one can be read. */
  datatype Troca = SemResposta | Respondida(status: int, corpo: Option<Token>)

  /** solicitarToken. */
  function Interpretada(t: Troca): Resposta {
    if t.SemResposta? then Err(OutroErro)
    else if ClassificarStatus(t.status).Some? then Err(ClassificarStatus(t.status).value)
    else if t.corpo.Some? then Ok(t.corpo.value)
    else Err(OutroErro)
  }

  /** When the n-th exchange is followed by another, by its status: a server
      error up to the second, a rejected credential only at the first. */
  lemma QuandoInsiste(t: Troca, n: nat)
    requires n >= 1
    ensures !Encerra(Interpretada(t), n) <==>
            t.Respondida? && ((t.status >= 500 && n < 3) || (t.status in {401, 403} && n < 2))
  {
  }

  /** What an exchange means to who asked for the token. */
  lemma RespostaPeloStatus(t: Troca)
    ensures var r := Interpretada(t);
            && (r.Ok? <==> t.Respondida? && t.status < 300 && t.corpo.Some?)
            && (r.Ok? ==> t.corpo == Some(r.value))
            && (r == Err(AppNaoInstalado) <==> t.Respondida? && t.status == 404)
            && (r == Err(CredencialRejeitada) <==> t.Respondida? && t.status in {401, 403})
            && (r == Err(Indisponivel) <==> t.Respondida? && t.status >= 500)
  {
  }

  /** A cached token is served until five minutes before it expires. */
  lemma QuandoAproveita(tokens: map<int, Token>, instalacao: int, agora: Instante)
    ensures Aproveitavel(tokens, instalacao, agora) <==>
            instalacao in tokens && tokens[instalacao].expiraEm - agora >= 5 * 60 * 1_000_000_000
  {
  }

  function Pot2(n: nat): nat {
    if n == 0 then 1 else 2 * Pot2(n - 1)
  }

  /** The n-th answer ends the retries. */
  predicate Encerra(r: Resposta, n: nat) {
    r.Ok? || n >= LimiteDeTentativas(r.error)
  }

  /** Requests are made until the first that succeeds or reaches the limit of its
      own class of error; the waits between them double from half a second. */
  method SolicitarTokenComRetentativa(resposta: nat -> Resposta) returns (r: Resposta, pedidos: nat, esperas: seq<int>)
    ensures 1 <= pedidos <= 3
    ensures r == resposta(pedidos) && Encerra(r, pedidos)
    ensures forall k :: 1 <= k < pedidos ==> !Encerra(resposta(k), k)
    ensures |esperas| == pedidos - 1
    ensures forall k :: 0 <= k < |esperas| ==> esperas[k] == 500 * Pot2(k)
    ensures TotalDe(esperas) == 500 * (Pot2(pedidos - 1) - 1)
    ensures esperas <= [500, 1000]
  {
    var tentativa: nat := 1;
    esperas := [];
    while true
      invariant 1 <= tentativa <= 3
      invariant forall k :: 1 <= k < tentativa ==> !Encerra(resposta(k), k)
      invariant |esperas| == tentativa - 1
      invariant forall k :: 0 <= k < |esperas| ==> esperas[k] == ESPERA_BASE_MS * Pot2(k)
      invariant TotalDe(esperas) == ESPERA_BASE_MS * (Pot2(tentativa - 1) - 1)
      decreases 3 - tentativa
    {
      r := resposta(tentativa);
      if r.Ok? || tentativa >= LimiteDeTentativas(r.error) {
        pedidos := tentativa;
        return;
      }
      assert (esperas + [ESPERA_BASE_MS * Pot2(tentativa - 1)])[..|esperas|] == esperas;
      esperas := esperas + [ESPERA_BASE_MS * Pot2(tentativa - 1)];
      tentativa := tentativa + 1;
    }
  }

  function TotalDe(s: seq<int>): int {
    if s == [] then 0 else TotalDe(s[..|s| - 1]) + s[|s| - 1]
  }

  /** tokenEmCache: usable while the margin has not passed its expiry. */
  predicate Aproveitavel(tokens: map<int, Token>, instalacao: int, agora: Instante) {
    instalacao in tokens && agora + MARGEM_DE_RENOVACAO <= tokens[instalacao].expiraEm
  }

  /** The first exchange that ends the retries. */
  function PedidosAte(resposta: nat -> Resposta): (n: nat)
    ensures 1 <= n <= 3 && Encerra(resposta(n), n) && forall k :: 1 <= k < n ==> !Encerra(resposta(k), k)
  {
    if Encerra(resposta(1), 1) then 1 else if Encerra(resposta(2), 2) then 2 else 3
  }

  lemma PrimeiraQueEncerra(resposta: nat -> Resposta, n: nat)
    requires n >= 1 && Encerra(resposta(n), n) && forall k :: 1 <= k < n ==> !Encerra(resposta(k), k)
    ensures PedidosAte(resposta) == n
  {
    var m := PedidosAte(resposta);
    assert m <= n && n <= m;
  }

  datatype Atendimento = Atendimento(tokens: map<int, Token>, saida: Result<string, Erro>, pedidos: nat)

  /** One caller alone: the cache after it, its result and the exchanges made. */
  function Atendido(tokens: map<int, Token>, instalacao: int, agora: Instante, agoraNoVoo: Instante, resposta: nat -> Resposta): Atendimento {
    if Aproveitavel(tokens, instalacao, agora) || Aproveitavel(tokens, instalacao, agoraNoVoo)
    then Atendimento(tokens, Ok(tokens[instalacao].valor), 0)
    else
      var n := PedidosAte(resposta);
      match resposta(n)
      case Ok(token) => Atendimento(tokens[instalacao := token], Ok(token.valor), n)
      case Err(e) => Atendimento(tokens, Err(e), n)
  }

  class Autenticador {
    var tokens: map<int, Token>

    constructor ()
      ensures tokens == map[]
    {
      tokens := map[];
    }

    method TokenEmCache(instalacao: int, agora: Instante) returns (r: Option<string>)
      ensures r == if Aproveitavel(tokens, instalacao, agora) then Some(tokens[instalacao].valor) else None
    {
      if instalacao !in tokens {
        return None;
      }
      var token := tokens[instalacao];
      if agora + MARGEM_DE_RENOVACAO > token.expiraEm {
        return None;
      }
      return Some(token.valor);
    }

    /** One caller alone: a usable token is returned without a request; otherwise
        a success is cached and returned, and a failure leaves the cache as it
        was. */
    method TokenParaInstalacao(instalacao: int, agora: Instante, agoraNoVoo: Instante, resposta: nat -> Resposta)
      returns (r: Result<string, Erro>, pedidos: nat)
      modifies this
      ensures Atendimento(tokens, r, pedidos) == Atendido(old(tokens), instalacao, agora, agoraNoVoo, resposta)
      ensures pedidos <= 3
      ensures pedidos == 0 <==> Aproveitavel(old(tokens), instalacao, agora) || Aproveitavel(old(tokens), instalacao, agoraNoVoo)
      ensures pedidos == 0 ==> tokens == old(tokens) && r == Ok(tokens[instalacao].valor)
      ensures pedidos > 0 ==>
                var ultima := resposta(pedidos);
                && Encerra(ultima, pedidos)
                && (ultima.Ok? ==> tokens == old(tokens)[instalacao := ultima.value] && r == Ok(ultima.value.valor))
                && (ultima.Err? ==> tokens == old(tokens) && r == Err(ultima.error))
    {
      var cache := TokenEmCache(instalacao, agora);
      if cache.Some? {
        return Ok(cache.value), 0;
      }
      cache := TokenEmCache(instalacao, agoraNoVoo);
      if cache.Some? {
        return Ok(cache.value), 0;
      }
      var token, n, _ := SolicitarTokenComRetentativa(resposta);
      PrimeiraQueEncerra(resposta, n);
      if token.Err? {
        return Err(token.error), n;
      }
      tokens := tokens[instalacao := token.value];
      return Ok(token.value.valor), n;
    }
  }
}
