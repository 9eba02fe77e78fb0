/** The executor inside the container: reads the request, clones, runs the
    language and delivers one result (internal/sandbox/conteiner/programa.go). */
module Programa {
  import opened Comum
  import opened Sandbox
  import Linguagem
  import Caminhos
  import Prazos
  import Truncamento

  datatype Destino = SaidaPadrao | Coletor

  datatype Clone = Clonado | TrocaDeUsuarioNegada | CloneFalhou

  datatype Causa = SaidaDesconhecida | AmbienteInvalido | LinguagemSemSuporte | UsuarioNegado | ErroNoClone | ProjetoInacessivel

  /** The clone on disk and the directory asked for. */
  datatype Projeto = Projeto(arvore: Caminhos.Arvore, repositorio: Caminhos.Componentes, diretorio: string, elos: Caminhos.Limite)

  /** What the environment answers to each stage before the pipeline, and the
      clock: `inicio`, when the tests are reached, and at delivery. There is no
      deadline when LerAmbiente refuses any variable but the directory. */
  datatype Cenario = Cenario(
    publicador: Option<Destino>,
    prazo: Option<int>,
    linguagemSuportada: bool,
    clone: Clone,
    projeto: Projeto,
    inicio: Prazos.Instante,
    antesDosTestes: Prazos.Instante,
    fim: Prazos.Instante)

  type Redacao = Causa -> Bytes

  /** Hands results over: `aceita` is the environment's answer, `publicados`
      what was handed. */
  class Publicacao {
    const aceita: (Destino, ResultadoSandbox) -> bool
    var publicados: seq<(Destino, ResultadoSandbox)>

    constructor (aceita: (Destino, ResultadoSandbox) -> bool)
      ensures this.aceita == aceita && publicados == []
    {
      this.aceita := aceita;
      publicados := [];
    }

    method Publicar(d: Destino, r: ResultadoSandbox) returns (ok: bool)
      modifies this
      ensures publicados == old(publicados) + [(d, r)] && ok == aceita(d, r)
    {
      publicados := publicados + [(d, r)];
      ok := aceita(d, r);
    }
  }

  function Falha(redacao: Redacao, causa: Causa): ResultadoSandbox {
    ResultadoSandbox(false, 0, 0, redacao(causa), 0, Infraestrutura)
  }

  /** LerAmbiente: the deadline and the directory are read, or neither. */
  predicate AmbienteLido(c: Cenario) {
    c.prazo.Some? && Caminhos.DiretorioValido(c.projeto.diretorio)
  }

  predicate ProjetoAcessivel(p: Projeto) {
    Caminhos.Acessivel(p.arvore, p.repositorio, p.diretorio, p.elos)
  }

  predicate GoMod(p: Projeto) {
    Caminhos.TemGoMod(p.arvore, Caminhos.CaminhoDoProjeto(p.repositorio, p.diretorio), p.elos)
  }

  predicate ChegouALinguagem(c: Cenario) {
    c.publicador.Some? && AmbienteLido(c) && c.linguagemSuportada && c.clone == Clonado && ProjetoAcessivel(c.projeto)
  }

  /** The first stage that fails names the cause; with none, the pipeline speaks. */
  function ResultadoDoPedido(redacao: Redacao, l: Linguagem.Leitura, roteiro: Linguagem.Comando -> Linguagem.Execucao, c: Cenario): ResultadoSandbox {
    if c.publicador.None? then Falha(redacao, SaidaDesconhecida)
    else if !AmbienteLido(c) then Falha(redacao, AmbienteInvalido)
    else if !c.linguagemSuportada then Falha(redacao, LinguagemSemSuporte)
    else if c.clone == TrocaDeUsuarioNegada then Falha(redacao, UsuarioNegado)
    else if c.clone == CloneFalhou then Falha(redacao, ErroNoClone)
    else if !ProjetoAcessivel(c.projeto) then Falha(redacao, ProjetoInacessivel)
    else Linguagem.Resultado(l, GoMod(c.projeto), roteiro, Prazos.TempoDosTestes(c.inicio + c.prazo.value, c.antesDosTestes))
  }

  function ComandosDoPedido(roteiro: Linguagem.Comando -> Linguagem.Execucao, c: Cenario): seq<Linguagem.Comando> {
    if ChegouALinguagem(c)
    then Linguagem.Rodados(GoMod(c.projeto), roteiro, Prazos.TimeoutDosTestes(c.inicio + c.prazo.value, c.antesDosTestes))
    else []
  }

  /** time.Duration.Milliseconds: truncation toward zero. */
  function Milissegundos(d: int): int {
    if d >= 0 then d / 1_000_000 else -((-d) / 1_000_000)
  }

  /** entregar: duration and output limit are set last, over any result. */
  function Entregue(r: ResultadoSandbox, c: Cenario): ResultadoSandbox {
    r.(duracaoMS := Milissegundos(Prazos.Diferenca(c.fim, c.inicio)),
       saida := Truncamento.Truncado(r.saida, Truncamento.LIMITE_SAIDA_PADRAO))
  }

  /** With every stage before it done, the language has the last word. */
  lemma PedidoCompleto(redacao: Redacao, l: Linguagem.Leitura, roteiro: Linguagem.Comando -> Linguagem.Execucao, c: Cenario, restam: int)
    requires ChegouALinguagem(c) && restam == Prazos.TempoDosTestes(c.inicio + c.prazo.value, c.antesDosTestes)
    ensures ResultadoDoPedido(redacao, l, roteiro, c) == Linguagem.Resultado(l, GoMod(c.projeto), roteiro, restam)
    ensures ComandosDoPedido(roteiro, c) == Linguagem.Rodados(GoMod(c.projeto), roteiro, Prazos.Timeout(restam))
  {
  }

  /** The stage that keeps a request from its language: the first to fail. */
  predicate ParouEm(c: Cenario, causa: Causa) {
    var escolhida := c.publicador.Some?;
    var lido := escolhida && c.prazo.Some? && Caminhos.DiretorioValido(c.projeto.diretorio);
    var suportada := lido && c.linguagemSuportada;
    match causa
    case SaidaDesconhecida => !escolhida
    case AmbienteInvalido => escolhida && !lido
    case LinguagemSemSuporte => lido && !suportada
    case UsuarioNegado => suportada && c.clone == TrocaDeUsuarioNegada
    case ErroNoClone => suportada && c.clone == CloneFalhou
    case ProjetoInacessivel => suportada && c.clone == Clonado && !ProjetoAcessivel(c.projeto)
  }

  /** A request that stops says why, and runs nothing. */
  lemma PedidoQueParou(redacao: Redacao, l: Linguagem.Leitura, roteiro: Linguagem.Comando -> Linguagem.Execucao, c: Cenario, causa: Causa)
    requires ParouEm(c, causa)
    ensures Linguagem.Diz(ResultadoDoPedido(redacao, l, roteiro, c), Infraestrutura, redacao(causa))
    ensures ComandosDoPedido(roteiro, c) == [] && !ChegouALinguagem(c)
  {
    assert ResultadoDoPedido(redacao, l, roteiro, c) == Falha(redacao, causa);
  }

  lemma ParouOuChegou(c: Cenario) returns (causa: Causa)
    ensures ParouEm(c, causa) || ChegouALinguagem(c)
  {
    causa := if c.publicador.None? then SaidaDesconhecida
             else if !AmbienteLido(c) then AmbienteInvalido
             else if !c.linguagemSuportada then LinguagemSemSuporte
             else if c.clone == TrocaDeUsuarioNegada then UsuarioNegado
             else if c.clone == CloneFalhou then ErroNoClone
             else ProjetoInacessivel;
  }

  /** One that does not stop is answered by its language, with the time left until
      30 s before its deadline. */
  lemma PedidoAtendido(redacao: Redacao, l: Linguagem.Leitura, roteiro: Linguagem.Comando -> Linguagem.Execucao, c: Cenario)
    requires c.prazo.Some? && forall causa :: !ParouEm(c, causa)
    requires c.inicio <= c.antesDosTestes <= c.inicio + Prazos.UM_SECULO && 0 < c.prazo.value <= Prazos.PRAZO_MAXIMO
    ensures var restam := c.inicio + c.prazo.value - c.antesDosTestes - 30_000_000_000;
            && ResultadoDoPedido(redacao, l, roteiro, c) == Linguagem.Resultado(l, GoMod(c.projeto), roteiro, restam)
            && ComandosDoPedido(roteiro, c) == Linguagem.Rodados(GoMod(c.projeto), roteiro, Prazos.Timeout(restam))
  {
    var causa := ParouOuChegou(c);
    Prazos.TempoSemSaturar(c.inicio + c.prazo.value, c.antesDosTestes);
    PedidoCompleto(redacao, l, roteiro, c, c.inicio + c.prazo.value - c.antesDosTestes - 30_000_000_000);
  }

  method RodarPedido(redacao: Redacao, l: Linguagem.Leitura, rodador: Linguagem.Rodador, c: Cenario)
    returns (r: ResultadoSandbox)
    requires c.publicador.Some?
    modifies rodador
    ensures r == ResultadoDoPedido(redacao, l, rodador.roteiro, c)
    ensures rodador.rodados == old(rodador.rodados) + ComandosDoPedido(rodador.roteiro, c)
  {
    if !AmbienteLido(c) {
      return Falha(redacao, AmbienteInvalido);
    }
    if !c.linguagemSuportada {
      return Falha(redacao, LinguagemSemSuporte);
    }
    var prazoFinal := c.inicio + c.prazo.value;
    if c.clone == TrocaDeUsuarioNegada {
      return Falha(redacao, UsuarioNegado);
    } else if c.clone == CloneFalhou {
      return Falha(redacao, ErroNoClone);
    }
    var projeto := Caminhos.LocalizarProjeto(c.projeto.arvore, c.projeto.repositorio, c.projeto.diretorio, c.projeto.elos);
    if projeto.Err? {
      return Falha(redacao, ProjetoInacessivel);
    }
    var goMod := Caminhos.TemGoMod(c.projeto.arvore, projeto.value, c.projeto.elos);
    PedidoCompleto(redacao, l, rodador.roteiro, c, Prazos.TempoDosTestes(prazoFinal, c.antesDosTestes));
    r := Linguagem.Executar(l, rodador, goMod, prazoFinal, c.antesDosTestes);
  }

  method Entregar(publicacao: Publicacao, destino: Destino, c: Cenario, resultado: ResultadoSandbox) returns (codigo: int)
    modifies publicacao
    ensures publicacao.publicados == old(publicacao.publicados) + [(destino, Entregue(resultado, c))]
    ensures codigo == if publicacao.aceita(destino, Entregue(resultado, c)) then 0 else 1
  {
    var r := resultado.(duracaoMS := Milissegundos(Prazos.Diferenca(c.fim, c.inicio)));
    var saida := Truncamento.TruncarMantendoFinal(r.saida, Truncamento.LIMITE_SAIDA_PADRAO);
    var ok := publicacao.Publicar(destino, r.(saida := saida));
    codigo := if ok then 0 else 1;
  }

  /** Programa.Executar: exactly one result is handed over, whatever happens. */
  method Executar(redacao: Redacao, l: Linguagem.Leitura, rodador: Linguagem.Rodador, publicacao: Publicacao, c: Cenario)
    returns (codigo: int)
    modifies rodador, publicacao
    ensures var destino := if c.publicador.Some? then c.publicador.value else SaidaPadrao;
            var r := Entregue(ResultadoDoPedido(redacao, l, rodador.roteiro, c), c);
            && publicacao.publicados == old(publicacao.publicados) + [(destino, r)]
            && codigo == (if publicacao.aceita(destino, r) then 0 else 1)
    ensures rodador.rodados == old(rodador.rodados) + ComandosDoPedido(rodador.roteiro, c)
  {
    if c.publicador.None? {
      codigo := Entregar(publicacao, SaidaPadrao, c, Falha(redacao, SaidaDesconhecida));
      return;
    }
    var r := RodarPedido(redacao, l, rodador, c);
    codigo := Entregar(publicacao, c.publicador.value, c, r);
  }

  lemma PedidoInterrompidoConfere(redacao: Redacao, l: Linguagem.Leitura, roteiro: Linguagem.Comando -> Linguagem.Execucao, c: Cenario)
    requires !ChegouALinguagem(c)
    ensures Linguagem.Confere(ResultadoDoPedido(redacao, l, roteiro, c), 0)
  {
  }

  lemma PedidoConfere(redacao: Redacao, l: Linguagem.Leitura, roteiro: Linguagem.Comando -> Linguagem.Execucao, c: Cenario)
    ensures Linguagem.Confere(ResultadoDoPedido(redacao, l, roteiro, c), |ComandosDoPedido(roteiro, c)|)
  {
    if ChegouALinguagem(c) {
      var restam := Prazos.TempoDosTestes(c.inicio + c.prazo.value, c.antesDosTestes);
      PedidoCompleto(redacao, l, roteiro, c, restam);
      Linguagem.ResultadoConfere(l, GoMod(c.projeto), roteiro, restam);
    } else {
      PedidoInterrompidoConfere(redacao, l, roteiro, c);
    }
  }

  lemma EntregaConfere(r: ResultadoSandbox, n: nat, c: Cenario)
    requires c.inicio <= c.fim && Linguagem.Confere(r, n)
    ensures Linguagem.Confere(Entregue(r, c), n)
    ensures |Entregue(r, c).saida| <= Truncamento.LIMITE_SAIDA_PADRAO
    ensures r.passaram <= MAX_INT32 && r.falharam <= MAX_INT32 ==> ParaColunas(Entregue(r, c)) == Entregue(r, c)
  {
    if Truncamento.LIMITE_SAIDA_PADRAO < |r.saida| {
      Truncamento.TruncadoEhOMaiorSufixo(r.saida, Truncamento.LIMITE_SAIDA_PADRAO, 0);
    }
  }

  /** For every outcome of every stage, what is delivered satisfies the table's
      CHECKs, fits the output limit and, when the counts fit 32 bits, is stored
      unchanged. A green result ran all four commands; one that blames the
      change ran at least the build. */
  lemma EntregaSatisfazOsChecks(redacao: Redacao, l: Linguagem.Leitura, roteiro: Linguagem.Comando -> Linguagem.Execucao, c: Cenario)
    requires c.inicio <= c.fim
    ensures var r := Entregue(ResultadoDoPedido(redacao, l, roteiro, c), c);
            && Linguagem.Confere(r, |ComandosDoPedido(roteiro, c)|)
            && |r.saida| <= Truncamento.LIMITE_SAIDA_PADRAO
            && (r.passaram <= MAX_INT32 && r.falharam <= MAX_INT32 ==> ParaColunas(r) == r)
  {
    PedidoConfere(redacao, l, roteiro, c);
    EntregaConfere(ResultadoDoPedido(redacao, l, roteiro, c), |ComandosDoPedido(roteiro, c)|, c);
  }

  /** Delivery keeps what the result says: the same counts and verdict, the end of
      the same output, up to 64 KiB, and the time it took, in whole milliseconds. */
  lemma EntregaGuardaOResultado(r: ResultadoSandbox, c: Cenario)
    ensures var e := Entregue(r, c);
            && e.compilou == r.compilou && e.passaram == r.passaram && e.falharam == r.falharam && e.tipo == r.tipo
            && |e.saida| <= 65_536 && |e.saida| <= |r.saida| && e.saida == r.saida[|r.saida| - |e.saida|..]
            && (|r.saida| <= 65_536 ==> e.saida == r.saida)
            && (Truncamento.Utf8(r.saida) ==> |e.saida| >= 65_533 || e.saida == r.saida)
            && (c.inicio <= c.fim <= c.inicio + Prazos.UM_SECULO ==>
                  e.duracaoMS * 1_000_000 <= c.fim - c.inicio < (e.duracaoMS + 1) * 1_000_000)
  {
    if Truncamento.LIMITE_SAIDA_PADRAO < |r.saida| {
      Truncamento.TruncadoEhOMaiorSufixo(r.saida, Truncamento.LIMITE_SAIDA_PADRAO, 0);
    }
    if Truncamento.Utf8(r.saida) {
      Truncamento.TruncadoDeTextoValido(r.saida, Truncamento.LIMITE_SAIDA_PADRAO);
    }
  }

  /** The local executor truncates once more, to its own limit: the two cuts
      act as the smaller one. */
  lemma SaidaCortadaDuasVezes(r: ResultadoSandbox, c: Cenario, limiteDoExecutor: nat)
    ensures Truncamento.Truncado(Entregue(r, c).saida, limiteDoExecutor) ==
            Truncamento.Truncado(r.saida,
              if Truncamento.LIMITE_SAIDA_PADRAO <= limiteDoExecutor then Truncamento.LIMITE_SAIDA_PADRAO else limiteDoExecutor)
  {
    Truncamento.TruncarDuasVezes(r.saida, Truncamento.LIMITE_SAIDA_PADRAO, limiteDoExecutor);
  }

  /** End to end with the host's deadline: if the tests of a request started in
      time are run, their timeout leaves 30 s before the host's deadline. */
  lemma TestesTerminamAntesDoHost(roteiro: Linguagem.Comando -> Linguagem.Execucao, c: Cenario, h: Prazos.Instante, agora: Prazos.Instante, timeout: int)
    requires agora <= c.inicio <= agora + 15_000_000_000
    requires c.inicio <= c.antesDosTestes <= c.inicio + Prazos.UM_SECULO
    requires c.prazo == Prazos.LerPrazo(Prazos.PrazoEmSegundos(Some(h), agora))
    requires Linguagem.Testar(timeout) in ComandosDoPedido(roteiro, c)
    ensures timeout >= 30 && c.antesDosTestes + timeout * 1_000_000_000 <= h - 30_000_000_000
  {
    Prazos.PrazoDePontaAPonta(h, agora, c.inicio, c.antesDosTestes);
  }
}
