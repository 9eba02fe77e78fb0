/** Following a job on Azure Container Apps
    (internal/sandbox/executor_azure.go). Instants are in nanoseconds. */
module Azure {
  import opened Comum
  import opened Sandbox
  import Caminhos
  import Tabelas
  import C = ColetorPostgres

  type Instante = int

  datatype Situacao = AguardandoInicio | Rodando | Concluida | Falhou

  /** Why following ended: the job was seen to end, it did not start in time, or
      the context ended. */
  datatype Fim = Observado | NaoIniciou | Cancelado

  /** One turn of the loop, as the environment answers it: the status (None on
      an error), the clock read after it, whether the select took the context's
      end instead of the timer, and when the select returned. */
  datatype Volta = Volta(status: Option<string>, lida: Instante, cancelado: bool, acordou: Instante)

  function InterpretarStatus(status: string): Situacao {
    if status == "Succeeded" then Concluida
    else if status in ["Failed", "Stopped", "Degraded"] then Falhou
    else if status == "Running" then Rodando
    else AguardandoInicio
  }

  /** consultarSituacao: an error counts as still waiting. */
  function SituacaoDa(v: Volta): Situacao {
    match v.status
    case None => AguardandoInicio
    case Some(s) => InterpretarStatus(s)
  }

  /** What the statuses mean, by their names: the job was seen to end, or to run. */
  predicate Terminou(v: Volta) {
    v.status in {Some("Succeeded"), Some("Failed"), Some("Stopped"), Some("Degraded")}
  }

  predicate Rodava(v: Volta) {
    v.status == Some("Running")
  }

  /** What holds of any environment: the clock does not go back, a timer takes at
      least the interval, and the select never prefers a fresh timer to a
      context that had already ended when it was reached. `prazo` is the
      context's deadline, if it has one. */
  ghost predicate Ambiente(volta: nat -> Volta, inicio: Instante, intervalo: int, prazo: Option<Instante>) {
    && inicio <= volta(0).lida
    && (forall k: nat :: volta(k).lida <= volta(k).acordou <= volta(k + 1).lida)
    && (forall k: nat :: !volta(k).cancelado ==>
          (prazo.Some? ==> volta(k).lida < prazo.value) && volta(k).lida + intervalo <= volta(k).acordou)
  }

  ghost predicate JaRodou(volta: nat -> Volta, ate: nat) {
    exists k :: 0 <= k <= ate && Rodava(volta(k))
  }

  /** The loop goes past turn `k`. */
  ghost predicate Continua(volta: nat -> Volta, inicio: Instante, prazoInicio: int, k: nat) {
    && !Terminou(volta(k))
    && (JaRodou(volta, k) || volta(k).lida <= inicio + prazoInicio)
    && !volta(k).cancelado
  }

  /** The switch on the status reads those names so, and any other, or an error, as
      a job still to start. */
  lemma PeloNome(v: Volta)
    ensures SituacaoDa(v) == (if v.status == Some("Succeeded") then Concluida
                              else if Terminou(v) then Falhou
                              else if Rodava(v) then Rodando
                              else AguardandoInicio)
  {
  }

  /** `ate` is a turn the loop would not go past; with a deadline there is one
      (ComPrazoTermina). */
  method Acompanhar(volta: nat -> Volta, inicio: Instante, prazoInicio: int, intervalo: int,
                    ghost prazo: Option<Instante>, ghost ate: nat)
    returns (situacao: Situacao, fim: Fim, consultas: nat, paradas: nat)
    requires intervalo > 0 && Ambiente(volta, inicio, intervalo, prazo)
    requires !Continua(volta, inicio, prazoInicio, ate)
    ensures 0 < consultas <= ate + 1
    // The loop ends at the first turn it does not go past.
    ensures forall k :: 0 <= k < consultas - 1 ==> Continua(volta, inicio, prazoInicio, k)
    ensures !Continua(volta, inicio, prazoInicio, consultas - 1)
    // It ends as the job was last seen, or as a failure.
    ensures situacao == (if volta(consultas - 1).status == Some("Succeeded") then Concluida else Falhou)
    ensures fim == Observado <==> Terminou(volta(consultas - 1))
    ensures fim == NaoIniciou <==>
              && fim != Observado && volta(consultas - 1).lida > inicio + prazoInicio
              && forall k :: 0 <= k < consultas ==> volta(k).status != Some("Running")
    // The job is stopped once if it was abandoned, and never otherwise.
    ensures paradas == (if fim == Observado then 0 else 1)
  {
    var limiteParaIniciar := inicio + prazoInicio;
    var iniciou := false;
    consultas, paradas := 0, 0;
    while true
      invariant consultas <= ate
      invariant forall k :: 0 <= k < consultas ==> Continua(volta, inicio, prazoInicio, k)
      invariant iniciou <==> exists k :: 0 <= k < consultas && Rodava(volta(k))
      invariant paradas == 0
      decreases ate - consultas
    {
      ghost var k := consultas;
      var v := volta(consultas);
      situacao := SituacaoDa(v);
      PeloNome(v);
      consultas := consultas + 1;
      if situacao == Concluida || situacao == Falhou {
        fim := Observado;
        return;
      }
      iniciou := iniciou || situacao == Rodando;
      assert iniciou <==> JaRodou(volta, k);
      if !iniciou && v.lida > limiteParaIniciar {
        paradas := paradas + 1;
        return Falhou, NaoIniciou, consultas, paradas;
      }
      if v.cancelado {
        paradas := paradas + 1;
        return Falhou, Cancelado, consultas, paradas;
      }
    }
  }

  /** Each turn gone past took an interval. */
  lemma {:induction false} TempoGasto(volta: nat -> Volta, inicio: Instante, intervalo: int, prazo: Option<Instante>, n: nat)
    requires Ambiente(volta, inicio, intervalo, prazo)
    requires forall k :: 0 <= k < n ==> !volta(k).cancelado
    ensures inicio + n * intervalo <= volta(n).lida
  {
    if n > 0 {
      TempoGasto(volta, inicio, intervalo, prazo, n - 1);
      assert volta(n - 1).acordou <= volta((n - 1) + 1).lida;
      assert n * intervalo == (n - 1) * intervalo + intervalo;
    }
  }

  /** The time left, none if the context has already ended. */
  function Orcamento(inicio: Instante, prazo: Instante): nat {
    if prazo > inicio then prazo - inicio else 0
  }

  /** From the third poll on, the intervals between polls fit in the time left. */
  lemma ConsultasCabem(volta: nat -> Volta, inicio: Instante, prazoInicio: int, intervalo: int, prazo: Instante, consultas: nat)
    requires intervalo > 0 && Ambiente(volta, inicio, intervalo, Some(prazo))
    requires forall k :: 0 <= k < consultas - 1 ==> Continua(volta, inicio, prazoInicio, k)
    ensures consultas <= 2 || (consultas - 2) * intervalo <= prazo - inicio
  {
    if consultas >= 2 {
      var n: nat := consultas - 2;
      forall k | 0 <= k <= n
        ensures !volta(k).cancelado
      {
        assert Continua(volta, inicio, prazoInicio, k);
      }
      TempoGasto(volta, inicio, intervalo, Some(prazo), n);
    }
  }

  /** A budget D and an interval I allow at most D / I + 2 polls. */
  lemma LimiteDeConsultas(volta: nat -> Volta, inicio: Instante, prazoInicio: int, intervalo: int, prazo: Instante, consultas: nat)
    requires intervalo > 0 && Ambiente(volta, inicio, intervalo, Some(prazo))
    requires forall k :: 0 <= k < consultas - 1 ==> Continua(volta, inicio, prazoInicio, k)
    ensures consultas <= Orcamento(inicio, prazo) / intervalo + 2
  {
    if consultas >= 2 {
      ConsultasCabem(volta, inicio, prazoInicio, intervalo, prazo, consultas);
      Quociente(Orcamento(inicio, prazo), consultas - 2, intervalo);
    }
  }

  lemma Quociente(d: nat, n: nat, intervalo: int)
    requires intervalo > 0 && (n * intervalo <= d)
    ensures n <= d / intervalo
  {
    var q := d / intervalo;
    assert d < (q + 1) * intervalo;
    if n > q {
      Multiplicar(q + 1, n, intervalo);
    }
  }

  lemma Multiplicar(a: int, b: int, c: int)
    requires a <= b && c > 0
    ensures a * c <= b * c
  {
  }

  /** With a deadline polling ends, whatever the statuses. */
  lemma ComPrazoTermina(volta: nat -> Volta, inicio: Instante, prazoInicio: int, intervalo: int, prazo: Instante) returns (ate: nat)
    requires intervalo > 0 && Ambiente(volta, inicio, intervalo, Some(prazo))
    ensures !Continua(volta, inicio, prazoInicio, ate)
    ensures ate <= Orcamento(inicio, prazo) / intervalo + 1
  {
    var limite := Orcamento(inicio, prazo) / intervalo + 2;
    assert exists k: nat :: k < limite && !Continua(volta, inicio, prazoInicio, k) by {
      if forall k: nat :: k < limite ==> Continua(volta, inicio, prazoInicio, k) {
        LimiteDeConsultas(volta, inicio, prazoInicio, intervalo, prazo, limite + 1);
        assert false;
      }
    }
    ate :| ate < limite && !Continua(volta, inicio, prazoInicio, ate);
  }

  /** When the loop goes past a poll, by the names of the statuses: it shows no end
      of the job, the job was seen to run or its start deadline has not passed,
      and the context goes on. */
  lemma QuandoContinua(volta: nat -> Volta, inicio: Instante, prazoInicio: int, k: nat)
    ensures Continua(volta, inicio, prazoInicio, k) <==>
            && volta(k).status !in {Some("Succeeded"), Some("Failed"), Some("Stopped"), Some("Degraded")}
            && (volta(k).lida <= inicio + prazoInicio || exists j :: 0 <= j <= k && volta(j).status == Some("Running"))
            && !volta(k).cancelado
  {
    if j :| 0 <= j <= k && volta(j).status == Some("Running") {
      assert Rodava(volta(j));
    }
  }

  /** Once Running was seen the start deadline cannot end it, however late and
      whatever the later statuses, errors included; without Running it ends at the
      first poll past the deadline. */
  lemma DepoisDeRodarNaoExpiraOInicio(volta: nat -> Volta, inicio: Instante, prazoInicio: int, ate: nat)
    ensures (exists k: nat :: k <= ate && volta(k).status == Some("Running")) ==>
              (Continua(volta, inicio, prazoInicio, ate) <==>
                 volta(ate).status !in {Some("Succeeded"), Some("Failed"), Some("Stopped"), Some("Degraded")} && !volta(ate).cancelado)
    ensures (forall k: nat :: k <= ate ==> volta(k).status != Some("Running")) && volta(ate).lida > inicio + prazoInicio ==>
              !Continua(volta, inicio, prazoInicio, ate)
  {
    if k: nat :| k <= ate && volta(k).status == Some("Running") {
      assert JaRodou(volta, ate);
    }
  }

  datatype ErroDePedido = PedidoInvalido

  function Imagem(imagens: map<string, string>, linguagem: string): string {
    if linguagem in imagens then imagens[linguagem] else ""
  }

  function SemResultado(duracaoMS: int): ResultadoSandbox {
    ResultadoSandbox(false, 0, 0, [], duracaoMS, Infraestrutura)
  }

  /** executorAzure.Executar. An invalid request starts nothing. Otherwise the
      result that was read comes back exactly when Succeeded was seen and the
      collector gave one; anything else is infrastructure. The collector is
      asked only after Succeeded. */
  method Executar(pedido: Pedido, urlAceita: string -> bool, imagens: map<string, string>, disparado: bool,
                  volta: nat -> Volta, inicio: Instante, prazoInicio: int, intervalo: int, ghost prazo: Option<Instante>, ghost ate: nat,
                  run: Tabelas.Uuid, vistas: nat -> Option<Tabelas.Banco>, cancelado: nat -> bool, ghost ateLeitura: nat, duracaoMS: int)
    returns (r: Result<ResultadoSandbox, ErroDePedido>, disparos: nat, consultas: nat, paradas: nat, lida: Option<C.Espera>)
    requires intervalo > 0 && Ambiente(volta, inicio, intervalo, prazo)
    requires !Continua(volta, inicio, prazoInicio, ate)
    requires C.Consultar(vistas, run, ateLeitura) != C.SemLinhas || cancelado(ateLeitura)
    ensures r.Err? <==> !PedidoValido(pedido, urlAceita)
    ensures r.Ok? <==> && pedido.url != "" && urlAceita(pedido.url) && pedido.taskRun != ""
                       && 40 <= |pedido.sha| <= 64 && Hexadecimal(pedido.sha)
                       && pedido.linguagem in {"go", "python", "java"} && Caminhos.DiretorioValido(pedido.diretorio)
    ensures disparos == (if PedidoValido(pedido, urlAceita) && pedido.linguagem in imagens && imagens[pedido.linguagem] != "" then 1 else 0)
    ensures consultas > 0 <==> disparos == 1 && disparado
    ensures consultas == 0 ==> paradas == 0 && lida.None?
    ensures consultas > 0 ==>
              && (forall k :: 0 <= k < consultas - 1 ==> Continua(volta, inicio, prazoInicio, k))
              && !Continua(volta, inicio, prazoInicio, consultas - 1)
              && paradas == (if Terminou(volta(consultas - 1)) then 0 else 1)
              && (lida.Some? <==> volta(consultas - 1).status == Some("Succeeded"))
    ensures lida.Some? ==> exists n: nat :: C.TerminaEm(vistas, run, cancelado, lida.value, n)
    ensures r.Ok? ==> r.value == if lida.Some? && lida.value.Recebido? then lida.value.resultado
                                 else ResultadoSandbox(false, 0, 0, [], if disparos == 1 then duracaoMS else 0, Infraestrutura)
    ensures prazo.Some? ==> consultas <= Orcamento(inicio, prazo.value) / intervalo + 2
  {
    lida := None;
    if !PedidoValido(pedido, urlAceita) {
      return Err(PedidoInvalido), 0, 0, 0, None;
    }
    if Imagem(imagens, pedido.linguagem) == "" {
      return Ok(SemResultado(0)), 0, 0, 0, None;
    }
    if !disparado {
      return Ok(SemResultado(duracaoMS)), 1, 0, 0, None;
    }
    var situacao, fim;
    situacao, fim, consultas, paradas := Acompanhar(volta, inicio, prazoInicio, intervalo, prazo, ate);
    if prazo.Some? {
      LimiteDeConsultas(volta, inicio, prazoInicio, intervalo, prazo.value, consultas);
    }
    if situacao != Concluida {
      return Ok(SemResultado(duracaoMS)), 1, consultas, paradas, None;
    }
    var espera, n := C.Aguardar(vistas, run, cancelado, ateLeitura);
    assert C.TerminaEm(vistas, run, cancelado, espera, n);
    if !espera.Recebido? {
      return Ok(SemResultado(duracaoMS)), 1, consultas, paradas, Some(espera);
    }
    return Ok(espera.resultado), 1, consultas, paradas, Some(espera);
  }
}
