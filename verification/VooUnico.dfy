/** Any number of callers asking for tokens at once: one flight per installation
    renews it, and those who arrive meanwhile get the leader's result
    (internal/platform/autenticacao.go). The clock never goes back. */
module VooUnico {
  import opened Comum
  import opened Autenticador

  type Saida = Result<string, Erro>

  datatype Fase =
    | Inicio
    | ForaDoCache
    | Esperando(voo: nat)
    | AoConferir(voo: nat)
    | AoTrocar(voo: nat, tentativa: nat)
    | EmTroca(voo: nat, tentativa: nat)
    | AoGuardar(voo: nat, token: Token)
    | AoPublicar(voo: nat, saida: Saida)
    | Fim(saida: Saida, doVoo: Option<nat>)

  datatype Chamador = Chamador(instalacao: int, fase: Fase)

  datatype Evento =
    | TrocaIniciada(instalacao: int, quando: Instante, voo: nat)
    | TokenGuardado(instalacao: int, token: Token, voo: nat)

  /** `abertos` are the flights of the single-flight group, `publicados` the
      results of those that ended; `historia` records exchanges and writes, and
      `destino` the installation each flight was opened for. */
  datatype Estado = Estado(
    chamadores: seq<Chamador>, tokens: map<int, Token>, abertos: map<int, nat>, publicados: map<nat, Saida>,
    proximoVoo: nat, relogio: Instante, historia: seq<Evento>, destino: map<nat, int>)

  /** A caller takes a step, receiving `resposta` if it awaits the exchange; or
      time passes. */
  datatype Acao = Avancar(i: nat, resposta: Resposta) | Passar(tempo: nat)

  predicate Inicial(s: Estado) {
    && (forall i :: 0 <= i < |s.chamadores| ==> s.chamadores[i].fase == Inicio)
    && s.tokens == map[] && s.abertos == map[] && s.publicados == map[] && s.proximoVoo == 0 && s.historia == [] && s.destino == map[]
  }

  /** Where a caller goes next. */
  function ProximaFase(s: Estado, c: Chamador, resposta: Resposta): Fase {
    var n := c.instalacao;
    var noCache := Aproveitavel(s.tokens, n, s.relogio);
    match c.fase
    case Inicio => if noCache then Fim(Ok(s.tokens[n].valor), None) else ForaDoCache
    case ForaDoCache => if n in s.abertos then Esperando(s.abertos[n]) else AoConferir(s.proximoVoo)
    case Esperando(v) => if v in s.publicados then Fim(s.publicados[v], Some(v)) else c.fase
    case AoConferir(v) => if noCache then AoPublicar(v, Ok(s.tokens[n].valor)) else AoTrocar(v, 1)
    case AoTrocar(v, t) => EmTroca(v, t)
    case EmTroca(v, t) => (
      match resposta
      case Ok(token) => AoGuardar(v, token)
      case Err(e) => if t >= LimiteDeTentativas(e) then AoPublicar(v, Err(e)) else AoTrocar(v, t + 1))
    case AoGuardar(v, token) => AoPublicar(v, Ok(token.valor))
    case AoPublicar(v, saida) => Fim(saida, Some(v))
    case Fim(_, _) => c.fase
  }

  predicate AbreVoo(s: Estado, c: Chamador) {
    c.fase.ForaDoCache? && c.instalacao !in s.abertos
  }

  /** What its step records. */
  function Eventos(s: Estado, c: Chamador): seq<Evento> {
    match c.fase
    case AoTrocar(v, _) => [TrocaIniciada(c.instalacao, s.relogio, v)]
    case AoGuardar(v, token) => [TokenGuardado(c.instalacao, token, v)]
    case _ => []
  }

  function AvancarChamador(s: Estado, i: nat, resposta: Resposta): Estado
    requires i < |s.chamadores|
  {
    var c := s.chamadores[i];
    Estado(
      s.chamadores[i := c.(fase := ProximaFase(s, c, resposta))],
      if c.fase.AoGuardar? then s.tokens[c.instalacao := c.fase.token] else s.tokens,
      if AbreVoo(s, c) then s.abertos[c.instalacao := s.proximoVoo]
      else if c.fase.AoPublicar? then s.abertos - {c.instalacao} else s.abertos,
      if c.fase.AoPublicar? then s.publicados[c.fase.voo := c.fase.saida] else s.publicados,
      if AbreVoo(s, c) then s.proximoVoo + 1 else s.proximoVoo,
      s.relogio,
      s.historia + Eventos(s, c),
      if AbreVoo(s, c) then s.destino[s.proximoVoo := c.instalacao] else s.destino)
  }

  function Passo(s: Estado, a: Acao): Estado {
    match a
    case Passar(tempo) => s.(relogio := s.relogio + tempo)
    case Avancar(i, resposta) => if i < |s.chamadores| then AvancarChamador(s, i, resposta) else s
  }

  function Rodar(s: Estado, acoes: seq<Acao>): Estado {
    if acoes == [] then s else Passo(Rodar(s, acoes[..|acoes| - 1]), acoes[|acoes| - 1])
  }

  // ---- Flights ----

  predicate Lidera(f: Fase) {
    f.AoConferir? || f.AoTrocar? || f.EmTroca? || f.AoGuardar? || f.AoPublicar?
  }

  predicate VoosCoerentes(s: Estado) {
    && (forall n :: n in s.abertos ==> s.abertos[n] < s.proximoVoo && s.abertos[n] !in s.publicados)
    && (forall v :: v in s.publicados ==> v < s.proximoVoo)
    && (forall i :: 0 <= i < |s.chamadores| && Lidera(s.chamadores[i].fase) ==>
          var c := s.chamadores[i]; c.instalacao in s.abertos && s.abertos[c.instalacao] == c.fase.voo)
    && (forall i, j :: 0 <= i < j < |s.chamadores| && Lidera(s.chamadores[i].fase) && Lidera(s.chamadores[j].fase) ==>
          s.chamadores[i].instalacao != s.chamadores[j].instalacao && s.chamadores[i].fase.voo != s.chamadores[j].fase.voo)
    && (forall n, m :: n in s.abertos && m in s.abertos && n != m ==> s.abertos[n] != s.abertos[m])
  }

  /** Every open flight has a leader, every waiter a flight open or published,
      and everyone served by a flight has its published result. */
  predicate EsperasCoerentes(s: Estado) {
    && (forall n :: n in s.abertos ==> TemLider(s, n))
    && (forall i :: 0 <= i < |s.chamadores| && s.chamadores[i].fase.Esperando? ==>
          var c := s.chamadores[i];
          c.fase.voo in s.publicados || (c.instalacao in s.abertos && s.abertos[c.instalacao] == c.fase.voo))
    && (forall i :: 0 <= i < |s.chamadores| && s.chamadores[i].fase.Fim? && s.chamadores[i].fase.doVoo.Some? ==>
          var f := s.chamadores[i].fase; f.doVoo.value in s.publicados && s.publicados[f.doVoo.value] == f.saida)
  }

  /** The four ways a step of a caller touches the flights: it leads none before
      or after; it opens one; it goes on leading; it publishes and closes. */
  predicate Alheio(s: Estado, a: Chamador, c: Chamador, t: Estado) {
    && !Lidera(a.fase) && !Lidera(c.fase)
    && t.abertos == s.abertos && t.publicados == s.publicados && t.proximoVoo == s.proximoVoo
    && (c.fase.Esperando? ==> c == a || (c.instalacao in s.abertos && s.abertos[c.instalacao] == c.fase.voo))
    && (c.fase.Fim? && c.fase.doVoo.Some? ==>
          c == a || (c.fase.doVoo.value in s.publicados && s.publicados[c.fase.doVoo.value] == c.fase.saida))
  }

  predicate Abre(s: Estado, a: Chamador, c: Chamador, t: Estado) {
    && !Lidera(a.fase) && Lidera(c.fase) && c.fase.voo == s.proximoVoo
    && c.instalacao !in s.abertos
    && t.abertos == s.abertos[c.instalacao := s.proximoVoo] && t.publicados == s.publicados && t.proximoVoo == s.proximoVoo + 1
  }

  predicate Prossegue(s: Estado, a: Chamador, c: Chamador, t: Estado) {
    && Lidera(a.fase) && Lidera(c.fase) && c.fase.voo == a.fase.voo
    && t.abertos == s.abertos && t.publicados == s.publicados && t.proximoVoo == s.proximoVoo
  }

  predicate Publica(s: Estado, a: Chamador, c: Chamador, t: Estado) {
    && Lidera(a.fase) && c.fase.Fim? && c.fase.doVoo == Some(a.fase.voo)
    && t.publicados == s.publicados[a.fase.voo := c.fase.saida]
    && t.abertos == s.abertos - {c.instalacao} && t.proximoVoo == s.proximoVoo
  }

  lemma TiposDePasso(s: Estado, i: nat, resposta: Resposta)
    requires i < |s.chamadores|
    ensures var t := AvancarChamador(s, i, resposta);
            var c := s.chamadores[i].(fase := ProximaFase(s, s.chamadores[i], resposta));
            && Troca(s, i, c, t)
            && UmDosTipos(s, s.chamadores[i], c, t)
  {
  }

  predicate UmDosTipos(s: Estado, a: Chamador, c: Chamador, t: Estado) {
    Alheio(s, a, c, t) || Abre(s, a, c, t) || Prossegue(s, a, c, t) || Publica(s, a, c, t)
  }

  predicate Troca(s: Estado, i: nat, c: Chamador, t: Estado) {
    && i < |s.chamadores|
    && t.chamadores == s.chamadores[i := c]
    && c.instalacao == s.chamadores[i].instalacao
  }

  lemma VoosQuandoAlheio(s: Estado, i: nat, c: Chamador, t: Estado)
    requires Troca(s, i, c, t) && VoosCoerentes(s) && (Alheio(s, s.chamadores[i], c, t) || Prossegue(s, s.chamadores[i], c, t))
    ensures VoosCoerentes(t)
  {
  }

  lemma VoosQuandoAbre(s: Estado, i: nat, c: Chamador, t: Estado)
    requires Troca(s, i, c, t) && VoosCoerentes(s) && Abre(s, s.chamadores[i], c, t)
    ensures VoosCoerentes(t)
  {
  }

  lemma VoosQuandoPublica(s: Estado, i: nat, c: Chamador, t: Estado)
    requires Troca(s, i, c, t) && VoosCoerentes(s) && Publica(s, s.chamadores[i], c, t)
    ensures VoosCoerentes(t)
  {
  }

  lemma PassoPreservaVoos(s: Estado, i: nat, resposta: Resposta)
    requires i < |s.chamadores| && VoosCoerentes(s)
    ensures VoosCoerentes(AvancarChamador(s, i, resposta))
  {
    var t := AvancarChamador(s, i, resposta);
    TiposDePasso(s, i, resposta);
    var c := s.chamadores[i].(fase := ProximaFase(s, s.chamadores[i], resposta));
    if Publica(s, s.chamadores[i], c, t) {
      VoosQuandoPublica(s, i, c, t);
    } else if Abre(s, s.chamadores[i], c, t) {
      VoosQuandoAbre(s, i, c, t);
    } else {
      VoosQuandoAlheio(s, i, c, t);
    }
  }

  predicate TemLider(s: Estado, n: int) {
    exists i :: 0 <= i < |s.chamadores| && Lidera(s.chamadores[i].fase) && s.chamadores[i].instalacao == n
  }

  lemma LiderPermanece(s: Estado, i: nat, c: Chamador, t: Estado, n: int)
    requires Troca(s, i, c, t) && VoosCoerentes(s) && TemLider(s, n)
    requires Lidera(c.fase) || !Lidera(s.chamadores[i].fase) || c.instalacao != n
    ensures TemLider(t, n)
  {
    var j :| 0 <= j < |s.chamadores| && Lidera(s.chamadores[j].fase) && s.chamadores[j].instalacao == n;
    assert Lidera(t.chamadores[j].fase) && t.chamadores[j].instalacao == n;
  }

  lemma EsperasSeguem(s: Estado, i: nat, c: Chamador, t: Estado)
    requires Troca(s, i, c, t) && VoosCoerentes(s) && EsperasCoerentes(s)
    requires UmDosTipos(s, s.chamadores[i], c, t)
    ensures EsperasCoerentes(t)
  {
    forall n | n in t.abertos
      ensures TemLider(t, n)
    {
      if n in s.abertos {
        LiderPermanece(s, i, c, t, n);
      } else {
        assert Lidera(t.chamadores[i].fase) && t.chamadores[i].instalacao == n;
      }
    }
  }

  lemma PassoPreservaEsperas(s: Estado, i: nat, resposta: Resposta)
    requires i < |s.chamadores| && VoosCoerentes(s) && EsperasCoerentes(s)
    ensures EsperasCoerentes(AvancarChamador(s, i, resposta))
  {
    var t := AvancarChamador(s, i, resposta);
    TiposDePasso(s, i, resposta);
    EsperasSeguem(s, i, s.chamadores[i].(fase := ProximaFase(s, s.chamadores[i], resposta)), t);
  }

  // ---- Cache and history ----

  /** The last token written for an installation. */
  function UltimoToken(h: seq<Evento>, n: int): Option<Token> {
    if h == [] then None
    else
      var e := h[|h| - 1];
      if e.TokenGuardado? && e.instalacao == n then Some(e.token) else UltimoToken(h[..|h| - 1], n)
  }

  function DoCache(tokens: map<int, Token>, n: int): Option<Token> {
    if n in tokens then Some(tokens[n]) else None
  }

  predicate SemTokenUtil(t: Option<Token>, quando: Instante) {
    t.None? || quando + MARGEM_DE_RENOVACAO > t.value.expiraEm
  }

  predicate Trocando(f: Fase) {
    f.AoTrocar? || f.EmTroca? || f.AoGuardar?
  }

  predicate Justificada(h: seq<Evento>, k: nat)
    requires k < |h|
  {
    h[k].TrocaIniciada? ==> SemTokenUtil(UltimoToken(h[..k], h[k].instalacao), h[k].quando)
  }

  /** The cache holds the last token written; a flight that is exchanging has
      nothing usable in the cache; every exchange so far was justified when it
      started. */
  ghost predicate CacheCoerente(s: Estado) {
    && (forall n :: DoCache(s.tokens, n) == UltimoToken(s.historia, n))
    && (forall i :: 0 <= i < |s.chamadores| && Trocando(s.chamadores[i].fase) ==>
          SemTokenUtil(DoCache(s.tokens, s.chamadores[i].instalacao), s.relogio))
    && (forall k :: 0 <= k < |s.historia| ==> Justificada(s.historia, k))
  }

  lemma UltimoDepois(h: seq<Evento>, e: Evento, n: int)
    ensures UltimoToken(h + [e], n) == if e.TokenGuardado? && e.instalacao == n then Some(e.token) else UltimoToken(h, n)
  {
    assert (h + [e])[..|h|] == h;
  }

  lemma JustificadaDepois(h: seq<Evento>, e: Evento, k: nat)
    requires k < |h|
    ensures Justificada(h + [e], k) == Justificada(h, k)
  {
    assert (h + [e])[..k] == h[..k];
  }

  lemma HistoriaDepois(h: seq<Evento>, e: Evento)
    requires forall k :: 0 <= k < |h| ==> Justificada(h, k)
    requires e.TrocaIniciada? ==> SemTokenUtil(UltimoToken(h, e.instalacao), e.quando)
    ensures forall k :: 0 <= k < |h + [e]| ==> Justificada(h + [e], k)
  {
    forall k | 0 <= k < |h + [e]|
      ensures Justificada(h + [e], k)
    {
      if k < |h| {
        JustificadaDepois(h, e, k);
      } else {
        assert (h + [e])[..k] == h;
      }
    }
  }

  lemma PassoPreservaCache(s: Estado, i: nat, resposta: Resposta)
    requires i < |s.chamadores| && VoosCoerentes(s) && CacheCoerente(s)
    ensures CacheCoerente(AvancarChamador(s, i, resposta))
  {
    var t := AvancarChamador(s, i, resposta);
    var c := s.chamadores[i];
    if c.fase.AoTrocar? || c.fase.AoGuardar? {
      var e := Eventos(s, c)[0];
      assert t.historia == s.historia + [e];
      HistoriaDepois(s.historia, e);
      forall n ensures DoCache(t.tokens, n) == UltimoToken(t.historia, n) {
        UltimoDepois(s.historia, e, n);
      }
    } else {
      assert t.historia == s.historia;
    }
  }

  // ---- How many exchanges and writes a flight makes ----

  function Pedidos(h: seq<Evento>, v: nat): nat {
    Conta(h, (e: Evento) => e.TrocaIniciada? && e.voo == v)
  }

  function Escritas(h: seq<Evento>, v: nat): nat {
    Conta(h, (e: Evento) => e.TokenGuardado? && e.voo == v)
  }

  predicate ContasDaFase(h: seq<Evento>, f: Fase) {
    match f
    case AoConferir(v) => Pedidos(h, v) == 0 && Escritas(h, v) == 0
    case AoTrocar(v, t) => 1 <= t <= 3 && Pedidos(h, v) == t - 1 && Escritas(h, v) == 0
    case EmTroca(v, t) => 1 <= t <= 3 && Pedidos(h, v) == t && Escritas(h, v) == 0
    case AoGuardar(v, _) => Escritas(h, v) == 0
    case AoPublicar(v, saida) => saida.Err? ==> Escritas(h, v) == 0
    case _ => true
  }

  ghost predicate ContasCoerentes(s: Estado) {
    && (forall v: nat :: Pedidos(s.historia, v) <= 3 && Escritas(s.historia, v) <= 1)
    && (forall v: nat :: v >= s.proximoVoo ==> Pedidos(s.historia, v) == 0 && Escritas(s.historia, v) == 0)
    && (forall i :: 0 <= i < |s.chamadores| ==> ContasDaFase(s.historia, s.chamadores[i].fase))
    && (forall v :: v in s.publicados && s.publicados[v].Err? ==> Escritas(s.historia, v) == 0)
  }

  lemma ContasDepois(h: seq<Evento>, e: Evento, v: nat)
    ensures Pedidos(h + [e], v) == Pedidos(h, v) + (if e.TrocaIniciada? && e.voo == v then 1 else 0)
    ensures Escritas(h + [e], v) == Escritas(h, v) + (if e.TokenGuardado? && e.voo == v then 1 else 0)
  {
    assert (h + [e])[..|h|] == h;
  }

  /** A step without events: only the caller's own phase has to be checked. */
  lemma ContasSemEvento(s: Estado, i: nat, c: Chamador, t: Estado)
    requires Troca(s, i, c, t) && ContasCoerentes(s) && t.historia == s.historia
    requires t.proximoVoo >= s.proximoVoo && ContasDaFase(s.historia, c.fase)
    requires forall v :: v in t.publicados && t.publicados[v].Err? ==> Escritas(s.historia, v) == 0
    ensures ContasCoerentes(t)
  {
  }

  /** A step with an event: the counts of no other flight change. */
  lemma ContasComEvento(s: Estado, i: nat, c: Chamador, t: Estado, e: Evento)
    requires Troca(s, i, c, t) && VoosCoerentes(s) && ContasCoerentes(s) && t.historia == s.historia + [e]
    requires t.proximoVoo == s.proximoVoo && t.publicados == s.publicados
    requires Lidera(s.chamadores[i].fase) && Lidera(c.fase) && e.voo == c.fase.voo == s.chamadores[i].fase.voo
    requires e.TrocaIniciada? ==> Pedidos(s.historia, e.voo) < 3
    requires e.TokenGuardado? ==> Escritas(s.historia, e.voo) == 0
    requires ContasDaFase(t.historia, c.fase)
    ensures ContasCoerentes(t)
  {
    forall v: nat
      ensures Pedidos(t.historia, v) == Pedidos(s.historia, v) + (if e.TrocaIniciada? && e.voo == v then 1 else 0)
      ensures Escritas(t.historia, v) == Escritas(s.historia, v) + (if e.TokenGuardado? && e.voo == v then 1 else 0)
    {
      ContasDepois(s.historia, e, v);
    }
    forall j | 0 <= j < |t.chamadores|
      ensures ContasDaFase(t.historia, t.chamadores[j].fase)
    {
      assert ContasDaFase(s.historia, s.chamadores[j].fase);
    }
  }

  lemma PassoPreservaContas(s: Estado, i: nat, resposta: Resposta)
    requires i < |s.chamadores| && VoosCoerentes(s) && ContasCoerentes(s)
    ensures ContasCoerentes(AvancarChamador(s, i, resposta))
  {
    var t := AvancarChamador(s, i, resposta);
    var a := s.chamadores[i];
    var c := a.(fase := ProximaFase(s, a, resposta));
    assert ContasDaFase(s.historia, a.fase);
    if a.fase.AoTrocar? || a.fase.AoGuardar? {
      var e := Eventos(s, a)[0];
      ContasDepois(s.historia, e, e.voo);
      ContasComEvento(s, i, c, t, e);
    } else {
      ContasSemEvento(s, i, c, t);
    }
  }

  // ---- Whose token a caller gets ----

  /** A token with this value was written for this installation. */
  predicate Emitido(h: seq<Evento>, n: int, valor: string) {
    exists k :: 0 <= k < |h| && h[k].TokenGuardado? && h[k].instalacao == n && h[k].token.valor == valor
  }

  predicate SaidaDe(h: seq<Evento>, n: int, saida: Saida) {
    saida.Ok? ==> Emitido(h, n, saida.value)
  }

  /** A caller waits for, leads or was served with what belongs to its own
      installation. */
  predicate FaseIsolada(h: seq<Evento>, destino: map<nat, int>, c: Chamador) {
    && (c.fase.Esperando? ==> c.fase.voo in destino && destino[c.fase.voo] == c.instalacao)
    && (Lidera(c.fase) ==> c.fase.voo in destino && destino[c.fase.voo] == c.instalacao)
    && (c.fase.AoPublicar? ==> SaidaDe(h, c.instalacao, c.fase.saida))
    && (c.fase.Fim? ==> SaidaDe(h, c.instalacao, c.fase.saida))
  }

  predicate Isolado(s: Estado) {
    && (forall v :: v in s.destino ==> v < s.proximoVoo)
    && (forall n :: n in s.abertos ==> s.abertos[n] in s.destino && s.destino[s.abertos[n]] == n)
    && (forall v :: v in s.publicados ==> v in s.destino && SaidaDe(s.historia, s.destino[v], s.publicados[v]))
    && (forall i :: 0 <= i < |s.chamadores| ==> FaseIsolada(s.historia, s.destino, s.chamadores[i]))
  }

  lemma {:induction false} UltimoFoiEmitido(h: seq<Evento>, n: int)
    ensures UltimoToken(h, n).Some? ==> Emitido(h, n, UltimoToken(h, n).value.valor)
  {
    if h != [] {
      UltimoFoiEmitido(h[..|h| - 1], n);
    }
  }

  lemma EmitidoContinua(h: seq<Evento>, es: seq<Evento>, n: int, valor: string)
    requires Emitido(h, n, valor)
    ensures Emitido(h + es, n, valor)
  {
    var k :| 0 <= k < |h| && h[k].TokenGuardado? && h[k].instalacao == n && h[k].token.valor == valor;
    assert (h + es)[k] == h[k];
  }

  lemma FaseSegueIsolada(s: Estado, c: Chamador, resposta: Resposta)
    requires Isolado(s) && CacheCoerente(s) && FaseIsolada(s.historia, s.destino, c)
    ensures var d := c.(fase := ProximaFase(s, c, resposta));
            var destino := if AbreVoo(s, c) then s.destino[s.proximoVoo := c.instalacao] else s.destino;
            FaseIsolada(s.historia + Eventos(s, c), destino, d)
  {
    var h := s.historia + Eventos(s, c);
    if c.instalacao in s.tokens {
      assert DoCache(s.tokens, c.instalacao) == UltimoToken(s.historia, c.instalacao);
      UltimoFoiEmitido(s.historia, c.instalacao);
      EmitidoContinua(s.historia, Eventos(s, c), c.instalacao, s.tokens[c.instalacao].valor);
    }
    if c.fase.AoGuardar? {
      assert h[|s.historia|] == TokenGuardado(c.instalacao, c.fase.token, c.fase.voo);
    }
    assert Eventos(s, c) == [] ==> h == s.historia;
  }

  lemma FaseAlheiaIsolada(s: Estado, c: Chamador, es: seq<Evento>, destino: map<nat, int>)
    requires FaseIsolada(s.historia, s.destino, c)
    requires forall v :: v in s.destino ==> v in destino && destino[v] == s.destino[v]
    ensures FaseIsolada(s.historia + es, destino, c)
  {
    if (c.fase.AoPublicar? || c.fase.Fim?) && c.fase.saida.Ok? {
      EmitidoContinua(s.historia, es, c.instalacao, c.fase.saida.value);
    }
  }

  lemma PassoPreservaIsolamento(s: Estado, i: nat, resposta: Resposta)
    requires i < |s.chamadores| && VoosCoerentes(s) && CacheCoerente(s) && Isolado(s)
    ensures Isolado(AvancarChamador(s, i, resposta))
  {
    var t := AvancarChamador(s, i, resposta);
    var c := s.chamadores[i];
    forall j | 0 <= j < |t.chamadores|
      ensures FaseIsolada(t.historia, t.destino, t.chamadores[j])
    {
      assert FaseIsolada(s.historia, s.destino, s.chamadores[j]);
      if j == i {
        FaseSegueIsolada(s, c, resposta);
      } else {
        FaseAlheiaIsolada(s, s.chamadores[j], Eventos(s, c), t.destino);
      }
    }
    forall v | v in t.publicados
      ensures v in t.destino && SaidaDe(t.historia, t.destino[v], t.publicados[v])
    {
      assert FaseIsolada(s.historia, s.destino, c);
      if t.publicados[v].Ok? {
        EmitidoContinua(s.historia, Eventos(s, c), t.destino[v], t.publicados[v].value);
      }
    }
  }

  // ---- Over every run ----

  ghost predicate Inv(s: Estado) {
    VoosCoerentes(s) && EsperasCoerentes(s) && CacheCoerente(s) && ContasCoerentes(s) && Isolado(s)
  }

  lemma {:induction false} TodaExecucaoMantemInv(s: Estado, acoes: seq<Acao>)
    requires Inicial(s)
    ensures Inv(Rodar(s, acoes))
  {
    if acoes != [] {
      TodaExecucaoMantemInv(s, acoes[..|acoes| - 1]);
      PassoPreservaInv(Rodar(s, acoes[..|acoes| - 1]), acoes[|acoes| - 1]);
    }
  }

  lemma PassoPreservaInv(s: Estado, a: Acao)
    requires Inv(s)
    ensures Inv(Passo(s, a))
  {
    match a
    case Passar(_) => TempoPreservaEsperas(s, a);
    case Avancar(i, resposta) =>
      if i < |s.chamadores| {
        PassoPreservaVoos(s, i, resposta);
        PassoPreservaEsperas(s, i, resposta);
        PassoPreservaCache(s, i, resposta);
        PassoPreservaContas(s, i, resposta);
        PassoPreservaIsolamento(s, i, resposta);
      }
  }

  lemma TempoPreservaEsperas(s: Estado, a: Acao)
    requires Inv(s) && a.Passar?
    ensures Inv(Passo(s, a))
  {
    var t := Passo(s, a);
    forall n | n in t.abertos
      ensures TemLider(t, n)
    {
      var j :| 0 <= j < |s.chamadores| && Lidera(s.chamadores[j].fase) && s.chamadores[j].instalacao == n;
      assert Lidera(t.chamadores[j].fase);
    }
  }

  /** An exchange for an installation starts only when, by the clock at that
      moment, the last token written for it is missing or within the margin of
      its expiry. */
  lemma TrocaSoSemTokenUtil(s0: Estado, acoes: seq<Acao>, k: nat)
    requires Inicial(s0) && k < |Rodar(s0, acoes).historia|
    ensures var h := Rodar(s0, acoes).historia;
            h[k].TrocaIniciada? ==> SemTokenUtil(UltimoToken(h[..k], h[k].instalacao), h[k].quando)
  {
    TodaExecucaoMantemInv(s0, acoes);
    assert Justificada(Rodar(s0, acoes).historia, k);
  }

  /** The same on the events themselves: the last token written for the installation
      before an exchange had less than five minutes to live when it started. */
  lemma TrocaSoPertoDoFim(s0: Estado, acoes: seq<Acao>, k: nat, j: nat)
    requires Inicial(s0) && j < k < |Rodar(s0, acoes).historia|
    ensures var h := Rodar(s0, acoes).historia;
            && h[k].TrocaIniciada? && h[j].TokenGuardado? && h[j].instalacao == h[k].instalacao
            && (forall l :: j < l < k && h[l].TokenGuardado? ==> h[l].instalacao != h[k].instalacao) ==>
              h[j].token.expiraEm - h[k].quando < 5 * 60 * 1_000_000_000
  {
    TrocaSoSemTokenUtil(s0, acoes, k);
    UltimoEhOUltimo(Rodar(s0, acoes).historia, k, j, Rodar(s0, acoes).historia[k].instalacao);
  }

  lemma {:induction false} UltimoEhOUltimo(h: seq<Evento>, k: nat, j: nat, n: int)
    requires j < k <= |h|
    ensures h[j].TokenGuardado? && h[j].instalacao == n
            && (forall l :: j < l < k && h[l].TokenGuardado? ==> h[l].instalacao != n) ==>
              UltimoToken(h[..k], n) == Some(h[j].token)
    decreases k
  {
    assert h[..k][..k - 1] == h[..k - 1];
    if j < k - 1 {
      UltimoEhOUltimo(h, k - 1, j, n);
    }
  }

  /** At most one flight is open for an installation, and nobody waits for a
      flight that is neither open nor published. */
  lemma UmVooPorInstalacao(s0: Estado, acoes: seq<Acao>, i: nat, j: nat)
    requires Inicial(s0) && i < |Rodar(s0, acoes).chamadores| && j < |Rodar(s0, acoes).chamadores|
    ensures var s := Rodar(s0, acoes);
            var (a, b) := (s.chamadores[i], s.chamadores[j]);
            && (Lidera(a.fase) && Lidera(b.fase) && a.instalacao == b.instalacao ==> i == j)
            && (a.fase.Esperando? ==> a.fase.voo in s.publicados || TemLider(s, a.instalacao))
  {
    TodaExecucaoMantemInv(s0, acoes);
  }

  /** All who were served by one flight got the same result, the published one. */
  lemma MesmoVooMesmaSaida(s0: Estado, acoes: seq<Acao>, i: nat, j: nat)
    requires Inicial(s0) && i < |Rodar(s0, acoes).chamadores| && j < |Rodar(s0, acoes).chamadores|
    ensures var s := Rodar(s0, acoes);
            var (a, b) := (s.chamadores[i].fase, s.chamadores[j].fase);
            a.Fim? && b.Fim? && a.doVoo.Some? && a.doVoo == b.doVoo ==>
              a.saida == b.saida && a.doVoo.value in s.publicados && s.publicados[a.doVoo.value] == a.saida
  {
    TodaExecucaoMantemInv(s0, acoes);
  }

  /** Who waits for a flight goes on waiting, or is served with what the flight
      published. */
  predicate ServidoPor(s: Estado, i: nat, v: nat) {
    && i < |s.chamadores|
    && match s.chamadores[i].fase
       case Esperando(w) => w == v
       case Fim(saida, doVoo) => doVoo == Some(v) && v in s.publicados && s.publicados[v] == saida
       case _ => false
  }

  lemma PassoServe(s: Estado, a: Acao, i: nat, v: nat)
    requires Inv(s) && ServidoPor(s, i, v)
    ensures ServidoPor(Passo(s, a), i, v)
  {
    if a.Avancar? && a.i < |s.chamadores| {
      TiposDePasso(s, a.i, a.resposta);
    }
  }

  /** Whoever joined a flight gets its result, whatever happens meanwhile. */
  lemma QuemEsperaRecebeDoVoo(s0: Estado, antes: seq<Acao>, s: Estado, depois: seq<Acao>, i: nat, v: nat)
    requires Inicial(s0) && s == Rodar(s0, antes)
    requires i < |s.chamadores| && s.chamadores[i].fase == Esperando(v)
    ensures ServidoPor(Rodar(s, depois), i, v)
  {
    TodaExecucaoMantemInv(s0, antes);
    ServeSempre(s, depois, i, v);
  }

  lemma {:induction false} ServeSempre(s: Estado, acoes: seq<Acao>, i: nat, v: nat)
    requires Inv(s) && ServidoPor(s, i, v)
    ensures Inv(Rodar(s, acoes)) && ServidoPor(Rodar(s, acoes), i, v)
  {
    if acoes != [] {
      var t, a := Rodar(s, acoes[..|acoes| - 1]), acoes[|acoes| - 1];
      ServeSempre(s, acoes[..|acoes| - 1], i, v);
      PassoPreservaInv(t, a);
      PassoServe(t, a, i, v);
    }
  }

  /** A flight makes at most three exchanges and writes the cache at most once;
      one that failed never wrote it. */
  lemma VooFalhoNaoTocaOCache(s0: Estado, acoes: seq<Acao>, v: nat)
    requires Inicial(s0)
    ensures var s := Rodar(s0, acoes);
            && Pedidos(s.historia, v) <= 3
            && Escritas(s.historia, v) <= 1
            && (v in s.publicados && s.publicados[v].Err? ==> Escritas(s.historia, v) == 0)
  {
    TodaExecucaoMantemInv(s0, acoes);
  }

  /** No caller is ever given a token written for another installation. */
  lemma TokenEhDaInstalacao(s0: Estado, acoes: seq<Acao>, i: nat)
    requires Inicial(s0) && i < |Rodar(s0, acoes).chamadores|
    ensures var s := Rodar(s0, acoes);
            var c := s.chamadores[i];
            c.fase.Fim? && c.fase.saida.Ok? ==> Emitido(s.historia, c.instalacao, c.fase.saida.value)
  {
    TodaExecucaoMantemInv(s0, acoes);
    assert FaseIsolada(Rodar(s0, acoes).historia, Rodar(s0, acoes).destino, Rodar(s0, acoes).chamadores[i]);
  }
}
