/** The collector over PostgreSQL refines the same write-once register as the
    one in memory, with every other operation of the repository in between
    (internal/repository/postgres.go, Gravar and Aguardar;
    internal/repository/db/sandbox_results.sql.go). */
module ColetorPostgres {
  import opened Comum
  import opened Tabelas
  import opened Operacoes
  import Sandbox
  import Programa
  import Linguagem
  import Apuracao
  import Caminhos
  import Prazos
  import Truncamento
  import C = Coletores

  // ---- GetLatestSandboxResult: ORDER BY attempt DESC LIMIT 1 ----

  predicate EhUltima(b: Banco, run: Uuid, n: int) {
    (run, n) in b.resultados && forall k :: k in b.resultados && k.0 == run ==> k.1 <= n
  }

  function UltimoResultado(b: Banco, run: Uuid): (r: Option<Sandbox.ResultadoSandbox>)
    ensures r.None? <==> forall k :: k in b.resultados ==> k.0 != run
    ensures r.Some? ==> exists n :: EhUltima(b, run, n) && r.value == b.resultados[(run, n)]
  {
    if exists k :: k in b.resultados && k.0 == run then
      ExisteUltima(b, run);
      var n: int :| EhUltima(b, run, n);
      Some(b.resultados[(run, n)])
    else None
  }

  lemma ExisteUltima(b: Banco, run: Uuid)
    requires exists k :: k in b.resultados && k.0 == run
    ensures exists n :: EhUltima(b, run, n)
    ensures forall n, m :: EhUltima(b, run, n) && EhUltima(b, run, m) ==> n == m
  {
    var tentativas := set k | k in b.resultados && k.0 == run :: k.1;
    var k :| k in b.resultados && k.0 == run;
    assert k.1 in tentativas;
    var n := Maior(tentativas, k.1);
    forall k | k in b.resultados && k.0 == run
      ensures k.1 <= n
    {
      assert k.1 in tentativas;
    }
    var doMaior :| doMaior in b.resultados && doMaior.0 == run && doMaior.1 == n;
    assert doMaior == (run, n);
    assert EhUltima(b, run, n);
  }

  lemma {:induction false} Maior(s: set<int>, c: int) returns (m: int)
    requires c in s
    ensures m in s && forall x :: x in s ==> x <= m
    decreases s
  {
    var resto := s - {c};
    m := c;
    if outro :| outro in resto {
      var x := Maior(resto, outro);
      m := if c < x then x else c;
    }
    forall x | x in s
      ensures x <= m
    {
      assert x == c || x in resto;
    }
  }

  // ---- The table in every reachable database ----

  /** Results are first attempts of existing runs, satisfy the CHECKs and hold
      text. */
  predicate ResultadosEmOrdem(b: Banco) {
    forall k :: k in b.resultados ==>
      k.1 == PRIMEIRA_TENTATIVA && k.0 in b.runs && Sandbox.Cabe(b.resultados[k])
  }

  lemma SoGravarTocaResultados(b: Banco, op: Operacao)
    requires EntregasUnicas(b.runs) && !op.OpGravar?
    ensures Aplicar(b, op).0.resultados == b.resultados
  {
  }

  lemma GravarMantemEmOrdem(b: Banco, run: Uuid, r: Sandbox.ResultadoSandbox)
    requires ResultadosEmOrdem(b)
    ensures ResultadosEmOrdem(Gravar(b, run, r).0)
  {
  }

  lemma AplicarMantemEmOrdem(b: Banco, op: Operacao)
    requires EntregasUnicas(b.runs) && ResultadosEmOrdem(b)
    ensures ResultadosEmOrdem(Aplicar(b, op).0)
  {
    if op.OpGravar? {
      GravarMantemEmOrdem(b, op.run, op.resultado);
    } else {
      AplicarSoCresce(b, op);
      SoGravarTocaResultados(b, op);
    }
  }

  function Gravados(b: Banco): map<Uuid, Sandbox.ResultadoSandbox> {
    map run | run in b.runs && (run, PRIMEIRA_TENTATIVA) in b.resultados :: b.resultados[(run, PRIMEIRA_TENTATIVA)]
  }

  /** The latest attempt read is the first one written. */
  lemma LeituraEhDoRegistro(b: Banco, run: Uuid)
    requires ResultadosEmOrdem(b)
    ensures UltimoResultado(b, run) == if run in Gravados(b) then Some(Gravados(b)[run]) else None
  {
    if run in Gravados(b) {
      assert (run, PRIMEIRA_TENTATIVA) in b.resultados;
    }
  }

  // ---- Refinement ----

  /** Any operation of the repository, or a wait that starts or looks again; a
      query that fails because the context has ended is the context's end. */
  datatype Evento = Opera(op: Operacao) | Comeca(espera: nat, run: Uuid) | Olha(espera: nat, contexto: C.Contexto)

  datatype Sistema = Sistema(banco: Banco, esperas: map<nat, Uuid>)

  ghost predicate Coerente(s: Sistema) {
    EntregasUnicas(s.banco.runs) && ResultadosEmOrdem(s.banco)
  }

  function Passo(s: Sistema, e: Evento): (t: Sistema)
    requires EntregasUnicas(s.banco.runs)
    ensures EntregasUnicas(t.banco.runs)
  {
    match e
    case Opera(op) => s.(banco := Aplicar(s.banco, op).0)
    case Comeca(w, run) => s.(esperas := s.esperas[w := run])
    case Olha(_, _) => s
  }

  /** What the event asks of the collector: nothing, for the other operations
      and for a write the tables cannot hold. */
  function PedidoDe(s: Sistema, e: Evento): Option<C.Pedido<Uuid>> {
    match e
    case Opera(OpGravar(run, r)) =>
      if run in s.banco.runs && Sandbox.Cabe(Sandbox.ParaColunas(r))
      then Some(C.Gravar(run, Sandbox.ParaColunas(r)))
      else None
    case Opera(_) => None
    case Comeca(w, run) => Some(C.Comecar(w, run))
    case Olha(w, contexto) => Some(C.Terminar(w, contexto))
  }

  /** What the repository answers to the event, in the collector's terms. */
  function RespostaA(s: Sistema, e: Evento): C.Resposta
    requires EntregasUnicas(s.banco.runs)
  {
    match e
    case Opera(op) => if Aplicar(s.banco, op).1 == Recusado(ResultadoJaGravado) then C.JaGravado else C.Aceito
    case Comeca(_, _) => C.Esperando
    case Olha(w, contexto) =>
      C.Olhado(if w in s.esperas then UltimoResultado(s.banco, s.esperas[w]) else None, contexto)
  }

  function Roda(s: Sistema, es: seq<Evento>): (t: Sistema)
    requires EntregasUnicas(s.banco.runs)
    ensures EntregasUnicas(t.banco.runs)
  {
    if es == [] then s else Passo(Roda(s, es[..|es| - 1]), es[|es| - 1])
  }

  function Pedidos(s: Sistema, es: seq<Evento>): seq<C.Pedido<Uuid>>
    requires EntregasUnicas(s.banco.runs)
  {
    if es == [] then []
    else
      var antes, e := es[..|es| - 1], es[|es| - 1];
      var p := PedidoDe(Roda(s, antes), e);
      if p.Some? then Pedidos(s, antes) + [p.value] else Pedidos(s, antes)
  }

  function RespostasDadas(s: Sistema, es: seq<Evento>): seq<C.Resposta>
    requires EntregasUnicas(s.banco.runs)
  {
    if es == [] then []
    else
      var antes, e := es[..|es| - 1], es[|es| - 1];
      if PedidoDe(Roda(s, antes), e).Some? then RespostasDadas(s, antes) + [RespostaA(Roda(s, antes), e)]
      else RespostasDadas(s, antes)
  }

  function Abstrato(s: Sistema): C.Registro<Uuid> {
    C.Registro(Gravados(s.banco), s.esperas)
  }

  const INICIO := Sistema(VAZIO, map[])

  /** A write the tables cannot hold is refused and leaves no trace. */
  lemma GravacaoInadmissivelRecusada(s: Sistema, run: Uuid, r: Sandbox.ResultadoSandbox)
    requires PedidoDe(s, Opera(OpGravar(run, r))).None?
    ensures Gravar(s.banco, run, r) ==
            (s.banco, Recusado(if run in s.banco.runs || !Sandbox.TextoAceito(r.saida) then FalhaNoBanco else NaoEncontrado))
  {
  }

  lemma GravarRefina(s: Sistema, run: Uuid, r: Sandbox.ResultadoSandbox)
    requires Coerente(s) && PedidoDe(s, Opera(OpGravar(run, r))).Some?
    ensures var p := C.Gravar(run, Sandbox.ParaColunas(r));
            && Abstrato(Passo(s, Opera(OpGravar(run, r)))) == C.Atendido(Abstrato(s), p).0
            && RespostaA(s, Opera(OpGravar(run, r))) == C.Atendido(Abstrato(s), p).1
  {
    assert Aplicar(s.banco, OpGravar(run, r)) == Gravar(s.banco, run, r);
    if (run, PRIMEIRA_TENTATIVA) !in s.banco.resultados {
      GravadosComMaisUm(s.banco, run, Sandbox.ParaColunas(r));
    }
  }

  lemma GravadosComMaisUm(b: Banco, run: Uuid, r: Sandbox.ResultadoSandbox)
    requires run in b.runs
    ensures Gravados(b.(resultados := b.resultados[(run, PRIMEIRA_TENTATIVA) := r])) == Gravados(b)[run := r]
  {
  }

  lemma MesmosGravados(b: Banco, c: Banco)
    requires ResultadosEmOrdem(b) && b.runs.Keys <= c.runs.Keys && c.resultados == b.resultados
    ensures Gravados(c) == Gravados(b)
  {
    forall run | (run, PRIMEIRA_TENTATIVA) in b.resultados
      ensures run in b.runs
    {
      assert (run, PRIMEIRA_TENTATIVA).0 in b.runs;
    }
  }

  lemma OutrasNaoTocam(s: Sistema, op: Operacao)
    requires Coerente(s) && PedidoDe(s, Opera(op)).None?
    ensures Gravados(Aplicar(s.banco, op).0) == Gravados(s.banco)
  {
    if op.OpGravar? {
      GravacaoInadmissivelRecusada(s, op.run, op.resultado);
    } else {
      AplicarSoCresce(s.banco, op);
      SoGravarTocaResultados(s.banco, op);
      MesmosGravados(s.banco, Aplicar(s.banco, op).0);
    }
  }

  lemma OlharRefina(s: Sistema, w: nat, contexto: C.Contexto)
    requires Coerente(s)
    ensures RespostaA(s, Olha(w, contexto)) == C.Atendido(Abstrato(s), C.Terminar(w, contexto)).1
  {
    if w in s.esperas {
      LeituraEhDoRegistro(s.banco, s.esperas[w]);
    }
  }

  lemma PassoRefina(s: Sistema, e: Evento)
    requires Coerente(s)
    ensures Coerente(Passo(s, e))
    ensures var p := PedidoDe(s, e);
            && (p.None? ==> Abstrato(Passo(s, e)) == Abstrato(s))
            && (p.Some? ==> Abstrato(Passo(s, e)) == C.Atendido(Abstrato(s), p.value).0)
            && (p.Some? ==> RespostaA(s, e) == C.Atendido(Abstrato(s), p.value).1)
  {
    match e
    case Opera(op) =>
      AplicarMantemEmOrdem(s.banco, op);
      if PedidoDe(s, e).None? {
        OutrasNaoTocam(s, op);
      } else {
        GravarRefina(s, op.run, op.resultado);
      }
    case Comeca(w, run) =>
    case Olha(w, contexto) => OlharRefina(s, w, contexto);
  }

  /** Over any run, with any other operations in between, the tables hold what
      the register would, and every write and read is answered as it would. */
  lemma {:induction false} RefinaORegistro(es: seq<Evento>)
    ensures var s := Roda(INICIO, es);
            && Coerente(s)
            && Abstrato(s) == C.Depois(C.Vazio(), Pedidos(INICIO, es))
            && RespostasDadas(INICIO, es) == C.Respostas(C.Vazio(), Pedidos(INICIO, es))
  {
    if es == [] {
      assert Abstrato(INICIO) == C.Vazio();
    } else {
      var antes, e := es[..|es| - 1], es[|es| - 1];
      RefinaORegistro(antes);
      var s, ps := Roda(INICIO, antes), Pedidos(INICIO, antes);
      PassoRefina(s, e);
      if PedidoDe(s, e).Some? {
        var p := PedidoDe(s, e).value;
        assert (ps + [p])[..|ps|] == ps;
      }
    }
  }

  /** What the columns keep is the result itself exactly when both counts fit
      32 bits. */
  lemma ColunasGuardamOResultado(r: Sandbox.ResultadoSandbox)
    ensures Sandbox.ParaColunas(r) == r <==>
            -MAX_INT32 - 1 <= r.passaram <= MAX_INT32 && -MAX_INT32 - 1 <= r.falharam <= MAX_INT32
  {
    assert Sandbox.ParaColunas(r) == r <==> ParaInt32(r.passaram) == r.passaram && ParaInt32(r.falharam) == r.falharam;
  }

  // ---- Aguardar: polling ----

  /** One SELECT: the row, none, or a database error. */
  datatype Consulta = Linha(resultado: Sandbox.ResultadoSandbox) | SemLinhas | ErroDoBanco

  datatype Espera = Recebido(resultado: Sandbox.ResultadoSandbox) | ContextoEncerrado | FalhaDeLeitura

  /** The query of iteration k, on the tables as they then are. */
  function Consultar(vistas: nat -> Option<Banco>, run: Uuid, k: nat): Consulta {
    match vistas(k)
    case None => ErroDoBanco
    case Some(b) =>
      match UltimoResultado(b, run)
      case Some(r) => Linha(r)
      case None => SemLinhas
  }

  /** The wait ends with `r` at iteration `n`, the first that finds a row, an error
      or the context ended. */
  ghost predicate TerminaEm(vistas: nat -> Option<Banco>, run: Uuid, cancelado: nat -> bool, r: Espera, n: nat) {
    && (forall k: nat :: k < n ==> Consultar(vistas, run, k) == SemLinhas && !cancelado(k))
    && match Consultar(vistas, run, n)
       case Linha(x) => r == Recebido(x)
       case SemLinhas => r == ContextoEncerrado && cancelado(n)
       case ErroDoBanco => r == if cancelado(n) then ContextoEncerrado else FalhaDeLeitura
  }

  /** The end of a wait, told by the tables it saw last: a row there, by its
      number; the end of its context; or no answer from the database. */
  lemma FimDaEspera(vistas: nat -> Option<Banco>, run: Uuid, cancelado: nat -> bool, r: Espera, n: nat)
    requires TerminaEm(vistas, run, cancelado, r, n)
    ensures match r
            case Recebido(x) =>
              vistas(n).Some? && exists k :: k in vistas(n).value.resultados && k.0 == run && vistas(n).value.resultados[k] == x
                                             && forall m :: m in vistas(n).value.resultados && m.0 == run ==> m.1 <= k.1
            case ContextoEncerrado => cancelado(n) && (vistas(n).Some? ==> forall k :: k in vistas(n).value.resultados ==> k.0 != run)
            case FalhaDeLeitura => vistas(n).None? && !cancelado(n)
    ensures forall k: nat :: k < n ==>
              !cancelado(k) && vistas(k).Some? && forall m :: m in vistas(k).value.resultados ==> m.0 != run
  {
    if r.Recebido? {
      var t: int :| EhUltima(vistas(n).value, run, t) && r.resultado == vistas(n).value.resultados[(run, t)];
      assert (run, t) in vistas(n).value.resultados;
    }
    forall k: nat | k < n
      ensures !cancelado(k) && vistas(k).Some? && forall m :: m in vistas(k).value.resultados ==> m.0 != run
    {
      assert Consultar(vistas, run, k) == SemLinhas;
    }
  }

  /** Polls until a row appears, the database fails or the context ends
      (`cancelado`, seen in iteration k after its query). One of the three
      happens at `ate`, if not before. */
  method Aguardar(vistas: nat -> Option<Banco>, run: Uuid, cancelado: nat -> bool, ghost ate: nat)
    returns (r: Espera, n: nat)
    requires Consultar(vistas, run, ate) != SemLinhas || cancelado(ate)
    ensures n <= ate && TerminaEm(vistas, run, cancelado, r, n)
  {
    n := 0;
    while true
      invariant n <= ate
      invariant forall k: nat :: k < n ==> Consultar(vistas, run, k) == SemLinhas && !cancelado(k)
      decreases ate - n
    {
      var consulta := Consultar(vistas, run, n);
      if consulta.Linha? {
        return Recebido(consulta.resultado), n;
      }
      if !consulta.SemLinhas? {
        if cancelado(n) {
          return ContextoEncerrado, n;
        }
        return FalhaDeLeitura, n;
      }
      if cancelado(n) {
        return ContextoEncerrado, n;
      }
      n := n + 1;
    }
  }

  lemma {:induction false} TodoBancoEmOrdem(ops: seq<Operacao>)
    ensures ResultadosEmOrdem(Executar(VAZIO, ops))
  {
    if ops != [] {
      TodoBancoEmOrdem(ops[..|ops| - 1]);
      AplicarMantemEmOrdem(Executar(VAZIO, ops[..|ops| - 1]), ops[|ops| - 1]);
    }
  }

  /** The result as the columns hold it. */
  predicate NasColunas(l: Sandbox.ResultadoSandbox, r: Sandbox.ResultadoSandbox) {
    && l.compilou == r.compilou && l.saida == r.saida && l.duracaoMS == r.duracaoMS && l.tipo == r.tipo
    && -0x8000_0000 <= l.passaram <= 0x7FFF_FFFF && (r.passaram - l.passaram) % 0x1_0000_0000 == 0
    && -0x8000_0000 <= l.falharam <= 0x7FFF_FFFF && (r.falharam - l.falharam) % 0x1_0000_0000 == 0
  }

  /** What the columns refuse of it: a negative number, a green result that did not
      compile or has failures, a compilation failure that compiled. */
  predicate Recusavel(l: Sandbox.ResultadoSandbox) {
    || l.passaram < 0 || l.falharam < 0 || l.duracaoMS < 0
    || (l.tipo == Sandbox.Nenhuma && (!l.compilou || l.falharam > 0))
    || (l.tipo == Sandbox.Compilacao && l.compilou)
  }

  lemma SoUmaNasColunas(l: Sandbox.ResultadoSandbox, m: Sandbox.ResultadoSandbox, r: Sandbox.ResultadoSandbox)
    requires NasColunas(l, r) && NasColunas(m, r)
    ensures l == m
  {
    MesmoResto(l.passaram, m.passaram, r.passaram);
    MesmoResto(l.falharam, m.falharam, r.falharam);
  }

  lemma MesmoResto(a: int, b: int, n: int)
    requires -0x8000_0000 <= a <= 0x7FFF_FFFF && (n - a) % 0x1_0000_0000 == 0
    requires -0x8000_0000 <= b <= 0x7FFF_FFFF && (n - b) % 0x1_0000_0000 == 0
    ensures a == b
  {
  }

  /** What each write is answered, and the row it leaves as long as the database
      lives. `l` is the result as the columns hold it. */
  lemma QuandoGrava(b: Banco, run: Uuid, r: Sandbox.ResultadoSandbox, l: Sandbox.ResultadoSandbox, depois: seq<Operacao>)
    requires EntregasUnicas(b.runs) && NasColunas(l, r)
    ensures var (c, resposta) := Gravar(b, run, r);
            var texto := Truncamento.Utf8(r.saida) && 0 !in r.saida;
            && (resposta == Feito <==> texto && run in b.runs && !Recusavel(l) && (run, 1) !in b.resultados)
            && (resposta == Recusado(ResultadoJaGravado) <==> texto && run in b.runs && !Recusavel(l) && (run, 1) in b.resultados)
            && (resposta == Recusado(NaoEncontrado) <==> texto && run !in b.runs)
            && (resposta == Recusado(FalhaNoBanco) <==> !texto || (run in b.runs && Recusavel(l)))
            && EntregasUnicas(c.runs)
            && (resposta == Feito ==> (run, 1) in Executar(c, depois).resultados && Executar(c, depois).resultados[(run, 1)] == l)
  {
    Int32PeloResto(r.passaram);
    Int32PeloResto(r.falharam);
    SoUmaNasColunas(l, Sandbox.ParaColunas(r), r);
    ExecutarSoCresce(Gravar(b, run, r).0, depois);
  }

  /** What one wait read, every later wait reads, whatever operations follow. */
  lemma LeituraNaoMuda(ops: seq<Operacao>, depois: seq<Operacao>, run: Uuid)
    requires UltimoResultado(Executar(VAZIO, ops), run).Some?
    ensures UltimoResultado(Executar(VAZIO, ops + depois), run) == UltimoResultado(Executar(VAZIO, ops), run)
  {
    var b, c := Executar(VAZIO, ops), Executar(VAZIO, ops + depois);
    ExecutarEmPartes(VAZIO, ops, depois);
    ExecutarSoCresce(b, depois);
    TodoBancoEmOrdem(ops);
    TodoBancoEmOrdem(ops + depois);
    LeituraEhDoRegistro(b, run);
    LeituraEhDoRegistro(c, run);
  }

  // ---- From the tests to the reader ----

  /** Text the column takes is still so after the truncation of the delivery. */
  lemma TextoAceitoSobrevive(r: Sandbox.ResultadoSandbox, c: Programa.Cenario)
    requires Sandbox.TextoAceito(r.saida)
    ensures Sandbox.TextoAceito(Programa.Entregue(r, c).saida)
  {
    Truncamento.TruncadoDeTextoValido(r.saida, Truncamento.LIMITE_SAIDA_PADRAO);
    if Truncamento.LIMITE_SAIDA_PADRAO < |r.saida| {
      Truncamento.TruncadoEhOMaiorSufixo(r.saida, Truncamento.LIMITE_SAIDA_PADRAO, 0);
    }
  }

  /** Exactly when the delivery is accepted, for a run that has no result yet:
      when the delivered text is valid UTF-8 without a zero byte; and text that
      was so before the delivery is so still. */
  lemma EntregaAceitaSeTexto(ops: seq<Operacao>, run: Uuid, redacao: Programa.Redacao,
                             l: Linguagem.Leitura, roteiro: Linguagem.Comando -> Linguagem.Execucao, c: Programa.Cenario)
    requires c.inicio <= c.fim
    requires run in Executar(VAZIO, ops).runs && UltimoResultado(Executar(VAZIO, ops), run).None?
    requires var r := Programa.ResultadoDoPedido(redacao, l, roteiro, c); r.passaram <= MAX_INT32 && r.falharam <= MAX_INT32
    ensures var antes := Programa.ResultadoDoPedido(redacao, l, roteiro, c);
            var r := Programa.Entregue(antes, c);
            && Gravar(Executar(VAZIO, ops), run, r).1 == (if Sandbox.TextoAceito(r.saida) then Feito else Recusado(FalhaNoBanco))
            && (Sandbox.TextoAceito(antes.saida) ==> Sandbox.TextoAceito(r.saida))
  {
    var antes := Programa.ResultadoDoPedido(redacao, l, roteiro, c);
    var r := Programa.Entregue(antes, c);
    EntregaConfere(redacao, l, roteiro, c);
    assert (run, PRIMEIRA_TENTATIVA) !in Executar(VAZIO, ops).resultados;
    if Sandbox.TextoAceito(antes.saida) {
      TextoAceitoSobrevive(antes, c);
    }
  }

  lemma EntregaConfere(redacao: Programa.Redacao, l: Linguagem.Leitura,
                        roteiro: Linguagem.Comando -> Linguagem.Execucao, c: Programa.Cenario)
    requires c.inicio <= c.fim
    requires var r := Programa.ResultadoDoPedido(redacao, l, roteiro, c); r.passaram <= MAX_INT32 && r.falharam <= MAX_INT32
    ensures var r := Programa.Entregue(Programa.ResultadoDoPedido(redacao, l, roteiro, c), c);
            Sandbox.ChecksDoResultado(r) && Sandbox.ParaColunas(r) == r
  {
    Programa.EntregaSatisfazOsChecks(redacao, l, roteiro, c);
  }

  /** A delivery that is accepted is what every later reader of the run gets, bit
      by bit, whatever operations follow; one that is not leaves the run without
      a result. */
  lemma EntregaChegaIntacta(ops: seq<Operacao>, run: Uuid, depois: seq<Operacao>, redacao: Programa.Redacao,
                            l: Linguagem.Leitura, roteiro: Linguagem.Comando -> Linguagem.Execucao, c: Programa.Cenario)
    requires c.inicio <= c.fim
    requires run in Executar(VAZIO, ops).runs && UltimoResultado(Executar(VAZIO, ops), run).None?
    requires var r := Programa.ResultadoDoPedido(redacao, l, roteiro, c); r.passaram <= MAX_INT32 && r.falharam <= MAX_INT32
    ensures var r := Programa.Entregue(Programa.ResultadoDoPedido(redacao, l, roteiro, c), c);
            && (Sandbox.TextoAceito(r.saida) ==>
                  UltimoResultado(Executar(VAZIO, ops + [OpGravar(run, r)] + depois), run) == Some(r))
            && (!Sandbox.TextoAceito(r.saida) ==>
                  UltimoResultado(Executar(VAZIO, ops + [OpGravar(run, r)]), run) == None)
  {
    var r := Programa.Entregue(Programa.ResultadoDoPedido(redacao, l, roteiro, c), c);
    EntregaConfere(redacao, l, roteiro, c);
    var todas := ops + [OpGravar(run, r)];
    ExecutarEmPartes(VAZIO, ops, [OpGravar(run, r)]);
    UmaOperacao(Executar(VAZIO, ops), OpGravar(run, r));
    PrimeiraEscrita(ops, run, r);
    if Sandbox.TextoAceito(r.saida) {
      LeituraNaoMuda(todas, depois, run);
    }
  }

  lemma PrimeiraEscrita(ops: seq<Operacao>, run: Uuid, r: Sandbox.ResultadoSandbox)
    requires run in Executar(VAZIO, ops).runs && UltimoResultado(Executar(VAZIO, ops), run).None?
    requires Sandbox.ChecksDoResultado(r) && Sandbox.ParaColunas(r) == r
    ensures UltimoResultado(Gravar(Executar(VAZIO, ops), run, r).0, run) ==
            if Sandbox.TextoAceito(r.saida) then Some(r) else None
  {
    var b := Executar(VAZIO, ops);
    TodoBancoEmOrdem(ops);
    assert (run, PRIMEIRA_TENTATIVA) !in b.resultados;
    GravarMantemEmOrdem(b, run, r);
    LeituraEhDoRegistro(Gravar(b, run, r).0, run);
  }

  /** A clone with go.mod at its root, and nothing going wrong. */
  function CenarioVerde(): Programa.Cenario {
    Programa.Cenario(Some(Programa.Coletor), Some(Prazos.PRAZO_PADRAO_DO_CONTAINER), true, Programa.Clonado,
                     Programa.Projeto(Caminhos.Diretorio(map["go.mod" := Caminhos.Arquivo]), [], "", 40), 0, 0, 0)
  }

  lemma CenarioVerdeChega()
    ensures Programa.ChegouALinguagem(CenarioVerde()) && Programa.GoMod(CenarioVerde().projeto)
  {
    var raiz := Caminhos.Diretorio(map["go.mod" := Caminhos.Arquivo]);
    Caminhos.BuscaDoPai(raiz, [], "go.mod");
    assert Caminhos.Busca(raiz, []) == Some(raiz);
    assert [] + ["go.mod"] == ["go.mod"] && ["go.mod"][1..] == [];
    assert Caminhos.Busca(raiz, ["go.mod"]) == Some(Caminhos.Arquivo);
    Caminhos.CaminhoRetoSeResolve(raiz, [], ["go.mod"], 40);
  }

  /** An input that fails: every command succeeds and the tests are green, but one
      of them prints a zero byte, which JSON carries as an escape. */
  lemma SaidaComZeroNaoChega(b: Banco, run: Uuid, redacao: Programa.Redacao)
    ensures var l := Linguagem.Leitura(_ => [], _ => false, _ => Some(Apuracao.Evento("output", "p", "T", [0], "")));
            var roteiro := (comando: Linguagem.Comando) => Linguagem.Execucao([10], 0, false, false);
            var c := CenarioVerde();
            var r := Programa.Entregue(Programa.ResultadoDoPedido(redacao, l, roteiro, c), c);
            && r.tipo == Sandbox.Nenhuma && r.saida == [0]
            && Gravar(b, run, r) == (b, Recusado(FalhaNoBanco))
  {
    var l := Linguagem.Leitura(_ => [], _ => false, _ => Some(Apuracao.Evento("output", "p", "T", [0], "")));
    var roteiro := (comando: Linguagem.Comando) => Linguagem.Execucao([10], 0, false, false);
    var c := CenarioVerde();
    var e := Linguagem.Execucao([10], 0, false, false);
    CenarioVerdeChega();
    var restam := Prazos.TempoDosTestes(c.inicio + c.prazo.value, c.antesDosTestes);
    Programa.PedidoCompleto(redacao, l, roteiro, c, restam);
    UmaLinha(l, e);
  }

  lemma UmaLinha(l: Linguagem.Leitura, e: Linguagem.Execucao)
    requires e.saida == [10] && l.ler([10]) == Some(Apuracao.Evento("output", "p", "T", [0], ""))
    ensures var a := Apuracao.Apurada(Linguagem.LinhasLidas(l, e));
            !a.falhaDeCompilacao && a.falharam == 0 && a.saida == [0]
  {
    assert Apuracao.LinhasDe([10]) == [[10]] by {
      Apuracao.FimDaLinhaUnico([10], 1);
      assert [10][..1] == [10 as byte] && [10 as byte][1..] == [];
    }
    var linha := Apuracao.Lida(Apuracao.Evento("output", "p", "T", [0], ""));
    assert Linguagem.LinhasLidas(l, e) == [linha];
    assert [] + [linha] == [linha];
    Apuracao.Acrescentar([], linha);
    Apuracao.VermelhaSeAlgumaLinhaFor([linha]);
  }
}
