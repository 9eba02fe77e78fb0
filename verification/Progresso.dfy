/** That the callers of the token cache finish, and what one of them alone gets
    (internal/platform/autenticacao.go). */
module Progresso {
  import opened Comum
  import opened Autenticador
  import opened VooUnico

  // ---- Turns ----

  function Turnos(acoes: seq<Acao>, i: nat): nat {
    Conta(acoes, (a: Acao) => a.Avancar? && a.i == i)
  }

  /** Turns of its own a caller needs at most, one that waits once its flight is
      published. */
  function Falta(f: Fase): nat {
    match f
    case Inicio => 11
    case ForaDoCache => 10
    case AoConferir(_) => 9
    case AoTrocar(_, t) => if t <= 3 then 10 - 2 * t else 0
    case EmTroca(_, t) => if t <= 3 then 9 - 2 * t else 0
    case AoGuardar(_, _) => 2
    case AoPublicar(_, _) => 1
    case Esperando(_) => 1
    case Fim(_, _) => 0
  }

  /** A leader goes on leading its flight or ends with it published. */
  predicate LiderDe(s: Estado, i: nat, v: nat) {
    i < |s.chamadores| && Lidera(s.chamadores[i].fase) && s.chamadores[i].fase.voo == v
  }

  predicate Encerrado(s: Estado, i: nat) {
    i < |s.chamadores| && s.chamadores[i].fase.Fim?
  }

  lemma PassoDoLider(s: Estado, i: nat, v: nat, a: Acao)
    requires Inv(s) && LiderDe(s, i, v)
    ensures var t := Passo(s, a);
            var meu := a.Avancar? && a.i == i;
            || (LiderDe(t, i, v) && Falta(t.chamadores[i].fase) + (if meu then 1 else 0) <= Falta(s.chamadores[i].fase))
            || (meu && Encerrado(t, i) && v in t.publicados)
  {
    assert ContasDaFase(s.historia, s.chamadores[i].fase);
  }

  lemma OsServidosFicam(s: Estado, i: nat, v: nat, a: Acao)
    requires i < |s.chamadores|
    ensures Encerrado(s, i) ==> Encerrado(Passo(s, a), i)
    ensures v in s.publicados ==> v in Passo(s, a).publicados
  {
  }

  lemma {:induction false} InvSegue(s: Estado, acoes: seq<Acao>)
    requires Inv(s)
    ensures Inv(Rodar(s, acoes)) && |Rodar(s, acoes).chamadores| == |s.chamadores|
  {
    if acoes != [] {
      InvSegue(s, acoes[..|acoes| - 1]);
      PassoPreservaInv(Rodar(s, acoes[..|acoes| - 1]), acoes[|acoes| - 1]);
    }
  }

  lemma {:induction false} ServidosFicam(s: Estado, acoes: seq<Acao>, i: nat, v: nat)
    requires i < |s.chamadores|
    ensures |Rodar(s, acoes).chamadores| == |s.chamadores|
    ensures Encerrado(s, i) ==> Encerrado(Rodar(s, acoes), i)
    ensures v in s.publicados ==> v in Rodar(s, acoes).publicados
  {
    if acoes != [] {
      ServidosFicam(s, acoes[..|acoes| - 1], i, v);
      OsServidosFicam(Rodar(s, acoes[..|acoes| - 1]), i, v, acoes[|acoes| - 1]);
    }
  }

  lemma {:induction false} LiderAvanca(s: Estado, acoes: seq<Acao>, i: nat, v: nat)
    requires Inv(s) && LiderDe(s, i, v)
    ensures var t := Rodar(s, acoes);
            || (LiderDe(t, i, v) && Falta(t.chamadores[i].fase) + Turnos(acoes, i) <= Falta(s.chamadores[i].fase))
            || (Encerrado(t, i) && v in t.publicados)
  {
    if acoes != [] {
      var antes, a := acoes[..|acoes| - 1], acoes[|acoes| - 1];
      LiderAvanca(s, antes, i, v);
      InvSegue(s, antes);
      var t := Rodar(s, antes);
      if LiderDe(t, i, v) {
        PassoDoLider(t, i, v, a);
      } else {
        OsServidosFicam(t, i, v, a);
      }
    }
  }

  /** At most three exchanges: nine turns of its leader publish a flight, whatever
      the others do. */
  lemma NoveTurnosPublicam(s: Estado, acoes: seq<Acao>, i: nat, v: nat)
    requires Inv(s) && LiderDe(s, i, v) && Turnos(acoes, i) >= 9
    ensures Encerrado(Rodar(s, acoes), i) && v in Rodar(s, acoes).publicados
  {
    LiderAvanca(s, acoes, i, v);
    InvSegue(s, acoes);
    var t := Rodar(s, acoes);
    if LiderDe(t, i, v) {
      assert ContasDaFase(s.historia, s.chamadores[i].fase);
      assert ContasDaFase(t.historia, t.chamadores[i].fase);
    }
  }

  // ---- Those who wait ----

  predicate Espera(s: Estado, i: nat, v: nat) {
    i < |s.chamadores| && (s.chamadores[i].fase == Esperando(v) || s.chamadores[i].fase.Fim?)
  }

  lemma {:induction false} EsperaSegue(s: Estado, acoes: seq<Acao>, i: nat, v: nat)
    requires Espera(s, i, v)
    ensures Espera(Rodar(s, acoes), i, v)
    ensures v in s.publicados && Turnos(acoes, i) >= 1 ==> Encerrado(Rodar(s, acoes), i)
  {
    if acoes != [] {
      var antes := acoes[..|acoes| - 1];
      EsperaSegue(s, antes, i, v);
      ServidosFicam(s, antes, i, v);
    }
  }

  lemma {:induction false} SaiDoCache(s: Estado, acoes: seq<Acao>, i: nat)
    requires i < |s.chamadores| && Turnos(acoes, i) >= 2
    ensures var t := Rodar(s, acoes); i < |t.chamadores| && !t.chamadores[i].fase.Inicio? && !t.chamadores[i].fase.ForaDoCache?
  {
    Saindo(s, acoes, i);
  }

  function AntesDoVoo(f: Fase): nat {
    if f.Inicio? then 2 else if f.ForaDoCache? then 1 else 0
  }

  lemma {:induction false} Saindo(s: Estado, acoes: seq<Acao>, i: nat)
    requires i < |s.chamadores|
    ensures var t := Rodar(s, acoes);
            && |t.chamadores| == |s.chamadores|
            && t.chamadores[i].instalacao == s.chamadores[i].instalacao
            && (AntesDoVoo(t.chamadores[i].fase) == 0 || AntesDoVoo(t.chamadores[i].fase) + Turnos(acoes, i) <= 2)
  {
    if acoes != [] {
      Saindo(s, acoes[..|acoes| - 1], i);
    }
  }

  lemma {:induction false} RodarEmPartes(s: Estado, a: seq<Acao>, b: seq<Acao>)
    ensures Rodar(s, a + b) == Rodar(Rodar(s, a), b)
  {
    if b == [] {
      assert a + b == a;
    } else {
      var n := |b| - 1;
      assert (a + b)[..|a + b| - 1] == a + b[..n];
      RodarEmPartes(s, a, b[..n]);
    }
  }

  /** Whoever leads the flight of installation `n` has the turns to publish it. */
  predicate LiderTemTurnos(s: Estado, n: int, b: seq<Acao>) {
    forall j: nat :: j < |s.chamadores| && Lidera(s.chamadores[j].fase) && s.chamadores[j].instalacao == n ==> Turnos(b, j) >= 9
  }

  /** No caller is left behind. Two turns take it to a flight; nine of whoever
      leads the flight, itself perhaps, publish it; one more serves it. */
  lemma ChamadorTermina(s0: Estado, a: seq<Acao>, b: seq<Acao>, c: seq<Acao>, i: nat)
    requires Inicial(s0) && i < |s0.chamadores| && Turnos(a, i) >= 2 && Turnos(c, i) >= 1
    requires LiderTemTurnos(Rodar(s0, a), s0.chamadores[i].instalacao, b)
    ensures Encerrado(Rodar(s0, a + b + c), i)
  {
    TodaExecucaoMantemInv(s0, a);
    Saindo(s0, a, i);
    SaiDoCache(s0, a, i);
    RodarEmPartes(s0, a + b, c);
    RodarEmPartes(s0, a, b);
    TerminaDepoisDoVoo(Rodar(s0, a), b, c, i);
  }

  lemma TerminaDepoisDoVoo(s: Estado, b: seq<Acao>, c: seq<Acao>, i: nat)
    requires Inv(s) && i < |s.chamadores| && !s.chamadores[i].fase.Inicio? && !s.chamadores[i].fase.ForaDoCache?
    requires LiderTemTurnos(s, s.chamadores[i].instalacao, b)
    requires Turnos(c, i) >= 1
    ensures Encerrado(Rodar(Rodar(s, b), c), i)
  {
    var f := s.chamadores[i].fase;
    var t := Rodar(s, b);
    if Lidera(f) {
      NoveTurnosPublicam(s, b, i, f.voo);
      ServidosFicam(t, c, i, 0);
    } else if f.Esperando? {
      EsperaSegue(s, b, i, f.voo);
      VooSePublica(s, b, i);
      EsperaSegue(t, c, i, f.voo);
    } else {
      ServidosFicam(s, b, i, 0);
      ServidosFicam(t, c, i, 0);
    }
  }

  lemma VooSePublica(s: Estado, b: seq<Acao>, i: nat)
    requires Inv(s) && i < |s.chamadores| && s.chamadores[i].fase.Esperando?
    requires LiderTemTurnos(s, s.chamadores[i].instalacao, b)
    ensures s.chamadores[i].fase.voo in Rodar(s, b).publicados
  {
    var v, n := s.chamadores[i].fase.voo, s.chamadores[i].instalacao;
    if v in s.publicados {
      ServidosFicam(s, b, i, v);
    } else {
      assert TemLider(s, n);
      var j: nat :| j < |s.chamadores| && Lidera(s.chamadores[j].fase) && s.chamadores[j].instalacao == n;
      NoveTurnosPublicam(s, b, j, v);
    }
  }

  // ---- One caller alone ----

  function Trocas(h: seq<Evento>): nat {
    Conta(h, (e: Evento) => e.TrocaIniciada?)
  }

  /** Turns of one caller that get it through its exchanges from the t-th on, each
      answered in its place. */
  function TurnosDeTroca(i: nat, t: nat, resposta: nat -> Resposta): seq<Acao>
    decreases 4 - t
  {
    var vez := Avancar(i, resposta(0));
    if t > 3 then [vez, vez] else [vez] + ([Avancar(i, resposta(t))] + TurnosDeTroca(i, t + 1, resposta))
  }

  function TurnosNoVoo(i: nat, resposta: nat -> Resposta): seq<Acao> {
    var vez := Avancar(i, resposta(0));
    [vez] + ([vez] + TurnosDeTroca(i, 1, resposta))
  }

  /** Turns of one caller alone, with time passing after its first look at the
      cache. */
  function TurnosSozinho(i: nat, tempo: nat, resposta: nat -> Resposta): seq<Acao> {
    var vez := Avancar(i, resposta(0));
    [vez] + ([Passar(tempo)] + TurnosNoVoo(i, resposta))
  }

  predicate So(acoes: seq<Acao>, i: nat) {
    forall k :: 0 <= k < |acoes| ==> acoes[k].Avancar? && acoes[k].i == i
  }

  lemma {:induction false} TurnosDeTrocaSoDele(i: nat, t: nat, resposta: nat -> Resposta)
    ensures So(TurnosDeTroca(i, t, resposta), i) && |TurnosDeTroca(i, t, resposta)| >= 2
    decreases 4 - t
  {
    if t <= 3 {
      TurnosDeTrocaSoDele(i, t + 1, resposta);
    }
  }

  lemma PrimeiraVez(s: Estado, acoes: seq<Acao>)
    requires acoes != []
    ensures Rodar(s, acoes) == Rodar(Passo(s, acoes[0]), acoes[1..])
  {
    assert acoes == [acoes[0]] + acoes[1..];
    RodarEmPartes(s, [acoes[0]], acoes[1..]);
    assert [acoes[0]][..0] == [];
    assert Rodar(s, [acoes[0]]) == Passo(Rodar(s, []), acoes[0]);
  }

  lemma UmaVez(s: Estado, a: Acao, resto: seq<Acao>)
    ensures Rodar(s, [a] + resto) == Rodar(Passo(s, a), resto)
  {
    PrimeiraVez(s, [a] + resto);
    assert ([a] + resto)[1..] == resto;
  }

  /** What a caller alone leaves: its result, the cache, and the exchanges. */
  predicate Deixou(s: Estado, t: Estado, i: nat, saida: Saida, tokens: map<int, Token>, pedidos: nat) {
    && i < |t.chamadores| && t.chamadores[i].fase.Fim? && t.chamadores[i].fase.saida == saida
    && t.tokens == tokens
    && Trocas(t.historia) == Trocas(s.historia) + pedidos
  }

  /** What matters to caller `i` of how a state changed: where it is now, the
      cache, and the exchanges begun. */
  predicate Chegou(s: Estado, t: Estado, i: nat, fase: Fase, tokens: map<int, Token>, trocas: nat) {
    && i < |s.chamadores| && i < |t.chamadores|
    && t.chamadores[i] == s.chamadores[i].(fase := fase)
    && t.tokens == tokens
    && Trocas(t.historia) == Trocas(s.historia) + trocas
  }

  lemma SemEvento(s: Estado, i: nat, resposta: Resposta)
    requires i < |s.chamadores| && !s.chamadores[i].fase.AoTrocar? && !s.chamadores[i].fase.AoGuardar?
    ensures AvancarChamador(s, i, resposta).historia == s.historia
  {
  }

  lemma Parado(s: Estado, a: Acao, i: nat)
    requires i < |s.chamadores| && (a.Avancar? ==> a.i == i && s.chamadores[i].fase.Fim?)
    ensures Chegou(s, Passo(s, a), i, s.chamadores[i].fase, s.tokens, 0)
    ensures Passo(s, a).abertos == s.abertos
  {
    if a.Avancar? {
      SemEvento(s, i, a.resposta);
    }
  }

  lemma {:induction false} FimNaoMuda(s: Estado, acoes: seq<Acao>, i: nat)
    requires Encerrado(s, i) && forall k :: 0 <= k < |acoes| && acoes[k].Avancar? ==> acoes[k].i == i
    ensures Chegou(s, Rodar(s, acoes), i, s.chamadores[i].fase, s.tokens, 0)
    ensures Deixou(s, Rodar(s, acoes), i, s.chamadores[i].fase.saida, s.tokens, 0)
  {
    if acoes != [] {
      FimNaoMuda(s, acoes[..|acoes| - 1], i);
      Parado(Rodar(s, acoes[..|acoes| - 1]), acoes[|acoes| - 1], i);
    }
  }

  lemma PassoAoPublicar(s: Estado, i: nat, resposta: Resposta)
    requires i < |s.chamadores| && s.chamadores[i].fase.AoPublicar?
    ensures var f := s.chamadores[i].fase;
            Chegou(s, AvancarChamador(s, i, resposta), i, Fim(f.saida, Some(f.voo)), s.tokens, 0)
  {
    SemEvento(s, i, resposta);
  }

  lemma Publicando(s: Estado, i: nat, acoes: seq<Acao>)
    requires i < |s.chamadores| && s.chamadores[i].fase.AoPublicar? && So(acoes, i) && |acoes| >= 1
    ensures Deixou(s, Rodar(s, acoes), i, s.chamadores[i].fase.saida, s.tokens, 0)
  {
    PrimeiraVez(s, acoes);
    PassoAoPublicar(s, i, acoes[0].resposta);
    FimNaoMuda(Passo(s, acoes[0]), acoes[1..], i);
  }

  lemma PassoAoGuardar(s: Estado, i: nat, resposta: Resposta)
    requires i < |s.chamadores| && s.chamadores[i].fase.AoGuardar?
    ensures var (n, f) := (s.chamadores[i].instalacao, s.chamadores[i].fase);
            Chegou(s, AvancarChamador(s, i, resposta), i, AoPublicar(f.voo, Ok(f.token.valor)), s.tokens[n := f.token], 0)
  {
    UmEventoAMais(s.historia, TokenGuardado(s.chamadores[i].instalacao, s.chamadores[i].fase.token, s.chamadores[i].fase.voo));
  }

  lemma Guardando(s: Estado, i: nat, acoes: seq<Acao>)
    requires i < |s.chamadores| && s.chamadores[i].fase.AoGuardar? && So(acoes, i) && |acoes| >= 2
    ensures var token := s.chamadores[i].fase.token;
            Deixou(s, Rodar(s, acoes), i, Ok(token.valor), s.tokens[s.chamadores[i].instalacao := token], 0)
  {
    PrimeiraVez(s, acoes);
    PassoAoGuardar(s, i, acoes[0].resposta);
    Publicando(Passo(s, acoes[0]), i, acoes[1..]);
  }

  lemma UmEventoAMais(h: seq<Evento>, e: Evento)
    ensures Trocas(h + [e]) == Trocas(h) + (if e.TrocaIniciada? then 1 else 0)
  {
    assert (h + [e])[..|h|] == h;
  }

  /** One exchange: it starts, and its answer comes. */
  lemma UmaTroca(s: Estado, i: nat, qualquer: Resposta, resposta: Resposta)
    requires i < |s.chamadores| && s.chamadores[i].fase.AoTrocar?
    ensures var (v, t) := (s.chamadores[i].fase.voo, s.chamadores[i].fase.tentativa);
            var b := AvancarChamador(AvancarChamador(s, i, qualquer), i, resposta);
            Chegou(s, b, i,
                   match resposta
                   case Ok(token) => AoGuardar(v, token)
                   case Err(e) => if Encerra(resposta, t) then AoPublicar(v, Err(e)) else AoTrocar(v, t + 1),
                   s.tokens, 1)
  {
    var a := AvancarChamador(s, i, qualquer);
    UmEventoAMais(s.historia, TrocaIniciada(s.chamadores[i].instalacao, s.relogio, s.chamadores[i].fase.voo));
    assert a.historia == s.historia + [TrocaIniciada(s.chamadores[i].instalacao, s.relogio, s.chamadores[i].fase.voo)];
    SemEvento(a, i, resposta);
  }

  lemma DuasVezes(s: Estado, i: nat, t: nat, resposta: nat -> Resposta)
    requires i < |s.chamadores| && 1 <= t <= 3
    ensures var b := AvancarChamador(AvancarChamador(s, i, resposta(0)), i, resposta(t));
            Rodar(s, TurnosDeTroca(i, t, resposta)) == Rodar(b, TurnosDeTroca(i, t + 1, resposta))
  {
    var vez, resto := Avancar(i, resposta(0)), TurnosDeTroca(i, t + 1, resposta);
    UmaVez(s, vez, [Avancar(i, resposta(t))] + resto);
    UmaVez(Passo(s, vez), Avancar(i, resposta(t)), resto);
  }

  /** The result of the exchanges from the t-th on. */
  predicate TrocouDesde(s: Estado, fim: Estado, i: nat, t: nat, resposta: nat -> Resposta)
    requires i < |s.chamadores|
  {
    var n := PedidosAte(resposta);
    && n >= t
    && Deixou(s, fim, i, match resposta(n) case Ok(token) => Ok(token.valor) case Err(e) => Err(e),
              if resposta(n).Ok? then s.tokens[s.chamadores[i].instalacao := resposta(n).value] else s.tokens,
              n - t + 1)
  }

  lemma UltimaTroca(s: Estado, b: Estado, i: nat, t: nat, resposta: nat -> Resposta, resto: seq<Acao>)
    requires i < |s.chamadores| && s.chamadores[i].fase.AoTrocar? && s.chamadores[i].fase.tentativa == t
    requires b == AvancarChamador(AvancarChamador(s, i, resposta(0)), i, resposta(t))
    requires t >= 1 && Encerra(resposta(t), t) && forall k :: 1 <= k < t ==> !Encerra(resposta(k), k)
    requires So(resto, i) && |resto| >= 2
    ensures TrocouDesde(s, Rodar(b, resto), i, t, resposta)
  {
    UmaTroca(s, i, resposta(0), resposta(t));
    PrimeiraQueEncerra(resposta, t);
    if resposta(t).Ok? {
      Guardando(b, i, resto);
    } else {
      Publicando(b, i, resto);
    }
  }

  lemma TrocaQueSegue(s: Estado, i: nat, t: nat, resposta: nat -> Resposta)
    requires i < |s.chamadores| && s.chamadores[i].fase.AoTrocar? && s.chamadores[i].fase.tentativa == t
    requires 1 <= t && !Encerra(resposta(t), t)
    ensures t < 3
    ensures Chegou(s, AvancarChamador(AvancarChamador(s, i, resposta(0)), i, resposta(t)), i,
                   AoTrocar(s.chamadores[i].fase.voo, t + 1), s.tokens, 1)
  {
    UmaTroca(s, i, resposta(0), resposta(t));
  }

  lemma MaisUmaTroca(s: Estado, b: Estado, fim: Estado, i: nat, t: nat, resposta: nat -> Resposta)
    requires i < |s.chamadores| && s.chamadores[i].fase.AoTrocar? && s.chamadores[i].fase.tentativa == t
    requires Chegou(s, b, i, AoTrocar(s.chamadores[i].fase.voo, t + 1), s.tokens, 1) && TrocouDesde(b, fim, i, t + 1, resposta)
    ensures TrocouDesde(s, fim, i, t, resposta)
  {
  }

  lemma {:induction false} DaTentativaEmDiante(s: Estado, i: nat, t: nat, resposta: nat -> Resposta)
    requires i < |s.chamadores| && s.chamadores[i].fase.AoTrocar? && s.chamadores[i].fase.tentativa == t
    requires 1 <= t <= 3 && forall k :: 1 <= k < t ==> !Encerra(resposta(k), k)
    ensures TrocouDesde(s, Rodar(s, TurnosDeTroca(i, t, resposta)), i, t, resposta)
    decreases 4 - t
  {
    var resto := TurnosDeTroca(i, t + 1, resposta);
    var b := AvancarChamador(AvancarChamador(s, i, resposta(0)), i, resposta(t));
    DuasVezes(s, i, t, resposta);
    if Encerra(resposta(t), t) {
      TurnosDeTrocaSoDele(i, t + 1, resposta);
      UltimaTroca(s, b, i, t, resposta, resto);
    } else {
      TrocaQueSegue(s, i, t, resposta);
      ContinuaATrocar(s, b, i, t);
      DaTentativaEmDiante(b, i, t + 1, resposta);
      MaisUmaTroca(s, b, Rodar(b, resto), i, t, resposta);
    }
  }

  lemma ContinuaATrocar(s: Estado, b: Estado, i: nat, t: nat)
    requires i < |s.chamadores| && s.chamadores[i].fase.AoTrocar?
    requires Chegou(s, b, i, AoTrocar(s.chamadores[i].fase.voo, t + 1), s.tokens, 1)
    ensures i < |b.chamadores| && b.chamadores[i].fase == AoTrocar(s.chamadores[i].fase.voo, t + 1)
  {
  }

  /** In the machine, a caller with no flight open for its installation that runs
      alone gets the result, leaves the cache and makes the exchanges that
      TokenParaInstalacao promises. */
  lemma SozinhoComoPrometido(s: Estado, i: nat, tempo: nat, resposta: nat -> Resposta)
    requires i < |s.chamadores| && s.chamadores[i].fase == Inicio && s.chamadores[i].instalacao !in s.abertos
    ensures var x := Atendido(s.tokens, s.chamadores[i].instalacao, s.relogio, s.relogio + tempo, resposta);
            Deixou(s, Rodar(s, TurnosSozinho(i, tempo, resposta)), i, x.saida, x.tokens, x.pedidos)
  {
    DepoisDaEspera(s, i, tempo, resposta);
    PrimeiraOlhada(s, i, resposta(0));
    var a := AvancarChamador(s, i, resposta(0));
    var b := Passo(a, Passar(tempo));
    Parado(a, Passar(tempo), i);
    if Aproveitavel(s.tokens, s.chamadores[i].instalacao, s.relogio) {
      JaServido(b, i, resposta);
      ServidoAntes(s, b, Rodar(b, TurnosNoVoo(i, resposta)), i, tempo, resposta);
    } else {
      NoVoo(b, i, resposta);
      ServidoDepois(s, b, Rodar(b, TurnosNoVoo(i, resposta)), i, tempo, resposta);
    }
  }

  lemma ServidoAntes(s: Estado, b: Estado, fim: Estado, i: nat, tempo: nat, resposta: nat -> Resposta)
    requires i < |s.chamadores| && Aproveitavel(s.tokens, s.chamadores[i].instalacao, s.relogio)
    requires var saida := Ok(s.tokens[s.chamadores[i].instalacao].valor);
             Chegou(s, b, i, Fim(saida, None), s.tokens, 0) && Deixou(b, fim, i, saida, b.tokens, 0)
    ensures var x := Atendido(s.tokens, s.chamadores[i].instalacao, s.relogio, s.relogio + tempo, resposta);
            Deixou(s, fim, i, x.saida, x.tokens, x.pedidos)
  {
  }

  lemma ServidoDepois(s: Estado, b: Estado, fim: Estado, i: nat, tempo: nat, resposta: nat -> Resposta)
    requires i < |s.chamadores| && !Aproveitavel(s.tokens, s.chamadores[i].instalacao, s.relogio)
    requires Chegou(s, b, i, ForaDoCache, s.tokens, 0) && b.relogio == s.relogio + tempo
    requires var y := Atendido(b.tokens, b.chamadores[i].instalacao, b.relogio, b.relogio, resposta);
             Deixou(b, fim, i, y.saida, y.tokens, y.pedidos)
    ensures var x := Atendido(s.tokens, s.chamadores[i].instalacao, s.relogio, s.relogio + tempo, resposta);
            Deixou(s, fim, i, x.saida, x.tokens, x.pedidos)
  {
  }

  lemma JaServido(s: Estado, i: nat, resposta: nat -> Resposta)
    requires Encerrado(s, i)
    ensures Deixou(s, Rodar(s, TurnosNoVoo(i, resposta)), i, s.chamadores[i].fase.saida, s.tokens, 0)
  {
    TurnosDeTrocaSoDele(i, 1, resposta);
    FimNaoMuda(s, TurnosNoVoo(i, resposta), i);
  }

  lemma DepoisDaEspera(s: Estado, i: nat, tempo: nat, resposta: nat -> Resposta)
    requires i < |s.chamadores|
    ensures Rodar(s, TurnosSozinho(i, tempo, resposta)) ==
            Rodar(Passo(AvancarChamador(s, i, resposta(0)), Passar(tempo)), TurnosNoVoo(i, resposta))
  {
    var vez, noVoo := Avancar(i, resposta(0)), TurnosNoVoo(i, resposta);
    UmaVez(s, vez, [Passar(tempo)] + noVoo);
    UmaVez(Passo(s, vez), Passar(tempo), noVoo);
  }

  lemma PrimeiraOlhada(s: Estado, i: nat, resposta: Resposta)
    requires i < |s.chamadores| && s.chamadores[i].fase == Inicio
    ensures var n := s.chamadores[i].instalacao;
            var t := AvancarChamador(s, i, resposta);
            && t.abertos == s.abertos && t.relogio == s.relogio
            && Chegou(s, t, i, if Aproveitavel(s.tokens, n, s.relogio) then Fim(Ok(s.tokens[n].valor), None) else ForaDoCache,
                      s.tokens, 0)
  {
    SemEvento(s, i, resposta);
  }

  lemma SegundaOlhada(s: Estado, i: nat, qualquer: Resposta)
    requires i < |s.chamadores| && s.chamadores[i].fase == ForaDoCache && s.chamadores[i].instalacao !in s.abertos
    ensures var (n, v) := (s.chamadores[i].instalacao, s.proximoVoo);
            Chegou(s, AvancarChamador(AvancarChamador(s, i, qualquer), i, qualquer), i,
                   if Aproveitavel(s.tokens, n, s.relogio) then AoPublicar(v, Ok(s.tokens[n].valor)) else AoTrocar(v, 1), s.tokens, 0)
  {
    var a := AvancarChamador(s, i, qualquer);
    SemEvento(s, i, qualquer);
    SemEvento(a, i, qualquer);
    assert a.tokens == s.tokens && a.chamadores[i].fase == AoConferir(s.proximoVoo);
  }

  lemma NoVoo(s: Estado, i: nat, resposta: nat -> Resposta)
    requires i < |s.chamadores| && s.chamadores[i].fase == ForaDoCache && s.chamadores[i].instalacao !in s.abertos
    ensures var n := s.chamadores[i].instalacao;
            var t := Rodar(s, TurnosNoVoo(i, resposta));
            var x := Atendido(s.tokens, n, s.relogio, s.relogio, resposta);
            Deixou(s, t, i, x.saida, x.tokens, x.pedidos)
  {
    var vez, resto := Avancar(i, resposta(0)), TurnosDeTroca(i, 1, resposta);
    TurnosDeTrocaSoDele(i, 1, resposta);
    var a := AvancarChamador(s, i, resposta(0));
    var b := AvancarChamador(a, i, resposta(0));
    UmaVez(s, vez, [vez] + resto);
    UmaVez(a, vez, resto);
    SegundaOlhada(s, i, resposta(0));
    if Aproveitavel(s.tokens, s.chamadores[i].instalacao, s.relogio) {
      Publicando(b, i, resto);
    } else {
      DaTentativaEmDiante(b, i, 1, resposta);
    }
  }
}
