/** The normalised result of one execution (internal/sandbox/contrato.go) and
    the constraints the table sandbox_results puts on it
    (migrations/000004_criar_sandbox_results.up.sql). */
module Sandbox {
  import opened Comum
  import Caminhos
  import Truncamento

  /** PedidoExecucao. */
  datatype Pedido = Pedido(url: string, sha: string, linguagem: string, taskRun: string, diretorio: string)

  /** validarPedido; what makes a URL is a parameter. */
  predicate PedidoValido(p: Pedido, urlAceita: string -> bool) {
    && p.url != "" && urlAceita(p.url)
    && 40 <= |p.sha| <= 64 && Hexadecimal(p.sha)
    && p.linguagem in ["go", "python", "java"]
    && p.taskRun != ""
    && Caminhos.DiretorioValido(p.diretorio)
  }

  datatype TipoFalha = Nenhuma | Teste | Compilacao | Infraestrutura

  datatype ResultadoSandbox = ResultadoSandbox(
    compilou: bool, passaram: int, falharam: int, saida: Bytes, duracaoMS: int, tipo: TipoFalha)

  /** The CHECKs of sandbox_results, on the values as stored. */
  predicate ChecksDoResultado(r: ResultadoSandbox) {
    && r.passaram >= 0
    && r.falharam >= 0
    && r.duracaoMS >= 0
    && (r.tipo == Nenhuma ==> r.compilou && r.falharam == 0)
    && (r.tipo == Compilacao ==> !r.compilou)
  }

  /** What the server takes for a text column: valid UTF-8 without a zero byte. */
  predicate TextoAceito(s: Bytes) {
    Truncamento.Utf8(s) && 0 !in s
  }

  /** The table holds the row. */
  predicate Cabe(r: ResultadoSandbox) {
    TextoAceito(r.saida) && ChecksDoResultado(r)
  }

  /** The conversion of the two counts to the integer columns. */
  function ParaColunas(r: ResultadoSandbox): ResultadoSandbox {
    r.(passaram := ParaInt32(r.passaram), falharam := ParaInt32(r.falharam))
  }
}
