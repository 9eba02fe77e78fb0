/** A run of the sandbox from the request to the verdict: the host that starts the
    job on Azure and reads the collector, and the container that delivers to it
    (internal/sandbox/executor_azure.go, internal/sandbox/conteiner/programa.go,
    internal/repository/postgres.go). */
module PontaAPonta {
  import opened Comum
  import opened Tabelas
  import opened Operacoes
  import Azure
  import C = ColetorPostgres
  import Linguagem
  import Programa
  import Sandbox

  /** What the container hands over. */
  function Entrega(redacao: Programa.Redacao, l: Linguagem.Leitura, roteiro: Linguagem.Comando -> Linguagem.Execucao,
                   c: Programa.Cenario): Sandbox.ResultadoSandbox {
    Programa.Entregue(Programa.ResultadoDoPedido(redacao, l, roteiro, c), c)
  }

  /** The tables the host reads are those the delivery left, with any operations
      after it. */
  ghost predicate VistaDepois(b: Banco, ops: seq<Operacao>, run: Uuid, entrega: Sandbox.ResultadoSandbox) {
    exists depois: seq<Operacao> :: b == Executar(VAZIO, ops + [OpGravar(run, entrega)] + depois)
  }

  ghost predicate VistasDepois(vistas: nat -> Option<Banco>, ops: seq<Operacao>, run: Uuid, entrega: Sandbox.ResultadoSandbox) {
    forall k: nat :: vistas(k).Some? ==> VistaDepois(vistas(k).value, ops, run, entrega)
  }

  /** The job ends as Succeeded only if its process ended with code zero. */
  ghost predicate SucessoTemCodigoZero(volta: nat -> Azure.Volta, codigo: int) {
    forall k: nat :: volta(k).status == Some("Succeeded") ==> codigo == 0
  }

  /** The run has no result yet, and the counts fit the columns. */
  ghost predicate Primeira(ops: seq<Operacao>, run: Uuid, r: Sandbox.ResultadoSandbox) {
    && run in Executar(VAZIO, ops).runs && C.UltimoResultado(Executar(VAZIO, ops), run).None?
    && r.passaram <= MAX_INT32 && r.falharam <= MAX_INT32
  }

  /** A wait over such tables ended as `lida`, with the delivery itself exactly when
      its last read reached the database. */
  ghost predicate LeuAEntrega(vistas: nat -> Option<Banco>, run: Uuid, cancelado: nat -> bool, lida: C.Espera,
                              entrega: Sandbox.ResultadoSandbox) {
    exists n: nat :: C.TerminaEm(vistas, run, cancelado, lida, n)
                  && (if vistas(n).Some? then lida == C.Recebido(entrega) else !lida.Recebido?)
  }

  /** What the host reads after the container's delivery is that delivery, bit by
      bit, whatever other operations the database has served since. */
  lemma LeituraEhAEntrega(ops: seq<Operacao>, run: Uuid, redacao: Programa.Redacao, l: Linguagem.Leitura,
                          roteiro: Linguagem.Comando -> Linguagem.Execucao, c: Programa.Cenario,
                          vistas: nat -> Option<Banco>, cancelado: nat -> bool, lida: C.Espera)
    requires c.inicio <= c.fim
    requires Primeira(ops, run, Programa.ResultadoDoPedido(redacao, l, roteiro, c))
    requires VistasDepois(vistas, ops, run, Entrega(redacao, l, roteiro, c))
    requires exists n: nat :: C.TerminaEm(vistas, run, cancelado, lida, n)
    requires Sandbox.TextoAceito(Entrega(redacao, l, roteiro, c).saida)
    ensures LeuAEntrega(vistas, run, cancelado, lida, Entrega(redacao, l, roteiro, c))
  {
    var entrega := Entrega(redacao, l, roteiro, c);
    var n: nat :| C.TerminaEm(vistas, run, cancelado, lida, n);
    if vistas(n).Some? {
      var depois: seq<Operacao> :| vistas(n).value == Executar(VAZIO, ops + [OpGravar(run, entrega)] + depois);
      C.EntregaChegaIntacta(ops, run, depois, redacao, l, roteiro, c);
    }
  }

  /** Whatever happens in the container, to the job and to the reads, the host
      answers with the container's delivery, bit by bit, or with infrastructure.
      It answers with the delivery exactly when Succeeded was seen and the read
      that ended the wait reached the database. */
  method ExecutarPedido(ghost ops: seq<Operacao>, run: Uuid, redacao: Programa.Redacao, l: Linguagem.Leitura,
                  rodador: Linguagem.Rodador, publicacao: Programa.Publicacao, c: Programa.Cenario,
                  pedido: Sandbox.Pedido, urlAceita: string -> bool, imagens: map<string, string>,
                  volta: nat -> Azure.Volta, inicio: Azure.Instante, prazoInicio: int, intervalo: int,
                  ghost prazo: Option<Azure.Instante>, ghost ate: nat,
                  vistas: nat -> Option<Banco>, cancelado: nat -> bool, ghost ateLeitura: nat, duracaoMS: int)
    returns (codigo: int, r: Result<Sandbox.ResultadoSandbox, Azure.ErroDePedido>, consultas: nat, lida: Option<C.Espera>)
    requires c.publicador == Some(Programa.Coletor) && c.inicio <= c.fim
    requires Primeira(ops, run, Programa.ResultadoDoPedido(redacao, l, rodador.roteiro, c))
    // The container publishes to the same tables the host reads.
    requires forall x :: publicacao.aceita(Programa.Coletor, x) <==> Gravar(Executar(VAZIO, ops), run, x).1 == Feito
    requires VistasDepois(vistas, ops, run, Entrega(redacao, l, rodador.roteiro, c))
    requires SucessoTemCodigoZero(volta, if Sandbox.TextoAceito(Entrega(redacao, l, rodador.roteiro, c).saida) then 0 else 1)
    requires intervalo > 0 && Azure.Ambiente(volta, inicio, intervalo, prazo)
    requires !Azure.Continua(volta, inicio, prazoInicio, ate)
    requires C.Consultar(vistas, run, ateLeitura) != C.SemLinhas || cancelado(ateLeitura)
    modifies rodador, publicacao
    ensures var entrega := Entrega(redacao, l, rodador.roteiro, c);
            && publicacao.publicados == old(publicacao.publicados) + [(Programa.Coletor, entrega)]
            && (codigo == 0 <==> Sandbox.TextoAceito(entrega.saida))
            && (r.Err? <==> !Sandbox.PedidoValido(pedido, urlAceita))
            && (lida.Some? ==> consultas > 0 && volta(consultas - 1).status == Some("Succeeded") && codigo == 0)
            && (r.Ok? ==> r.value == if lida.Some? && lida.value.Recebido? then entrega
                                     else Azure.SemResultado(r.value.duracaoMS))
            && (lida.Some? ==> LeuAEntrega(vistas, run, cancelado, lida.value, entrega))
  {
    codigo := Programa.Executar(redacao, l, rodador, publicacao, c);
    C.EntregaAceitaSeTexto(ops, run, redacao, l, rodador.roteiro, c);
    var disparos, paradas;
    r, disparos, consultas, paradas, lida :=
      Azure.Executar(pedido, urlAceita, imagens, true, volta, inicio, prazoInicio, intervalo, prazo, ate,
                     run, vistas, cancelado, ateLeitura, duracaoMS);
    if lida.Some? {
      LeituraEhAEntrega(ops, run, redacao, l, rodador.roteiro, c, vistas, cancelado, lida.value);
    }
  }
}
