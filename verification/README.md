# aPRova: a verified model

aPRova decides what happens to a pull request. It stores runs, approvals and receipts
in PostgreSQL, authorises remote actions asked from Slack, keeps GitHub installation
tokens, and runs the pull request's tests under a deadline in a container. This project
models that core in Dafny and proves what it keeps, over every input, every run and
every interleaving. `dafny verify dfyconfig.toml` checks all of it.

Names follow the source (Portuguese); comments are in English. Where the source changes
state in place (the repository, the collector, the service's dependencies, the token
cache, the accumulator of test output, the polling and truncation loops) the model has
classes and methods, each proved against a specification function; the theorems are then
about those functions and about state machines over them.

## What is proved

**Persistence** (`Tabelas`, `Operacoes`, `Repositorio`, `Transacoes`, `Intercalacoes`, `Corridas`,
`RespostasErradas`, `Historico`, `Recibos`, `Entregas`, `Linhas`). The tables are one value; a SQL
statement is an atomic step guarded by its `WHERE`, its `ON CONFLICT` clause, the CHECKs and the
unique indexes. `Repositorio` runs statements, savepoints, commits and rollbacks one by one and is
proved equal to the operations of `Operacoes`. `Transacoes` shows that any tree of nested
`EmTransacao` blocks, failing anywhere and for any reason (including a violated constraint that
aborts the transaction), ends as a flat replay of the operations whose enclosing blocks all
succeeded. `Intercalacoes` cuts the operations into statements, with row locks and commits, and
interleaves any number of clients: what happened is always a sequence of whole operations, one place
per client, in an order that respects time; each client is answered as at its place, and a review's
approval is of a run that was the latest of its pull request at some place before. `Corridas`
derives who wins: of the clients delivering one pull request at once exactly one creates the run; of
those racing to move a run out of a state one wins, and a second only after the first, and only if
the first's own step stayed in the state or a third client brought the run back to it between the
two; each step stored belongs to exactly one answered client. `RespostasErradas` has the two answers
that can be wrong. Over every sequence of operations: receipts form disjoint linear chains in one
tenant that never change; the steps of a run are a path from `pendente` to its current state, with
entries and exits balanced; redelivered work changes nothing. `Linhas` tells each stored row, field
by field, by the operation that stored it, for as long as the database lives, and shows that no run,
approval or receipt comes from anywhere else; a review says in the table what the reviewer said on
GitHub, whatever interleaves, and finds the run of its pull request once there is one.

**Remote actions** (`AcaoRemota`, `Servico`, `Protocolo`, `Sozinha`, `Tentativas`). Any number of
calls interleave over one reservation set, one executor and one attempt log: each action reaches the
executor at most once, by a call whose own answers satisfy the policy; each finished call leaves one
attempt with the decision it returned, told field by field by the request and by the answers the
call got, and a call alone has the effects the service's method promises. The table of attempts is a
projection of the log, and an action it shows as accepted was executed exactly once.

**Tokens** (`Autenticador`, `VooUnico`, `Progresso`). Any number of callers share a cache, a clock
and one flight per installation: exchanges start only without a usable token, everyone served by a
flight gets the same result, a failed flight never writes, no caller gets another installation's
token, and none is left waiting while its leader is scheduled.

**Test results** (`Apuracao`, `Linguagem`, `Prazos`, `Programa`, `Truncamento`, `Caminhos`). The
tally of `go test -json` equals a declarative count, position by position; the result says, stage by
stage, what the first stage that failed or the tests said; lines added to the output never turn a
failure green; what is delivered always satisfies the table's CHECKs; `go test` leaves 30 s before
the host's deadline; truncations compose; an accepted project directory lies inside the clone.

**Collectors and polling** (`Coletores`, `ColetorPostgres`, `Azure`, `PontaAPonta`). The collector
in memory and the one over PostgreSQL both refine one write-once register, and a delivered result
whose output is text reaches every later reader unchanged. `PontaAPonta` joins the container, the
database and the host: the host answers with the container's delivery, bit by bit, or with
infrastructure.

## Where the code does not meet its documentation

The model keeps the code's behaviour; each case has a lemma with the input and the exact
condition.

- The edges of `docs/maquina-estados.mmd` are not enforced: only the current state is
  compared (`Historico.ArestasNaoSaoExigidas`, `Historico.QuandoTransiciona`).
- `APROVA_PRAZO_SEGUNDOS` is documented as 1 to 86 400; a huge number wraps around and can
  be accepted (`Prazos.PrazoEnroladoEhAceito`, `Prazos.PrazoLidoEhODocumentado`). The host
  never writes such a number (`Prazos.PrazoDoHostNaoEnrola`).
- A refused attempt hides a later accepted one with the same action id in the table of
  attempts (`Tentativas.RecusaEscondeAAceita`, `Tentativas.QuandoMostraAceita`).
- `RegistrarAprovacao` can answer success without storing when its run is created between
  its two statements (`RespostasErradas.RunCriadoNoMeio`, `RespostasErradas.QuandoSePerde`).
- `TransicionarTaskRun` promises `ErrTransicaoConcorrente` when the run is no longer in the
  expected state. If the run is created between its two statements that is the answer though
  the run has never left the state (`RespostasErradas.ConcorrenteSemTerSaido`,
  `RespostasErradas.QuandoSeEngana`). In both cases run ids are random, so only a caller that
  named the id in advance could meet it.
- A result whose output holds a zero byte, or is not UTF-8, is refused by the database and
  never reaches its reader (`ColetorPostgres.SaidaComZeroNaoChega`,
  `ColetorPostgres.EntregaAceitaSeTexto`); the delivery does not clean the output.
- `falharam` is not monotone in the lines of the output (`Apuracao.FalharamNaoEhMonotona`,
  `Apuracao.QuandoFalharamDiminui`); being red is (`Apuracao.VermelhaSeAlgumaLinhaFor`).

## Model

| member | source | states |
|---|---|---|
| Repositorio.RepositorioPostgres.CreateTaskRun | internal/repository/db/task_runs.sql.go:13-60 | zero rows exactly for a known delivery, a unique violation exactly for a taken id, otherwise one pending row; nothing else changes |
| Repositorio.RepositorioPostgres.TransitionTaskRun | internal/repository/db/task_runs.sql.go:154-159 | compare-and-set: the row changes exactly if it is in the expected state |
| Repositorio.RepositorioPostgres.AppendReceipt | internal/repository/db/receipts.sql.go:13-62 | appends exactly when the run exists, the predecessor is of its tenant and no unique index refuses; otherwise which error |
| Repositorio.RepositorioPostgres.CreateApproval | internal/repository/db/approvals.sql.go:12-47 | one row exactly when the run exists and the delivery is new |
| Repositorio.RepositorioPostgres.CreateSandboxResult | internal/repository/db/sandbox_results.sql.go:12-62 | text refused, zero rows, CHECK violation (a non-positive attempt included), unique violation or one row, exactly when each |
| Repositorio.RepositorioPostgres.CreateRemoteActionAttempt | internal/repository/db/remote_action_attempts.sql.go:13-62 | the first row of an action id wins; CHECKs come first |
| Repositorio.RepositorioPostgres.CriarTaskRun | internal/repository/postgres.go:98-122 | the statements amount to the operation, also inside an aborted transaction; a redelivery answers with the first run |
| Repositorio.RepositorioPostgres.RegistrarAprovacao | internal/repository/postgres.go:226-263 | the statements amount to the operation: the first delivery wins, a repeat is no error, a missing run is |
| Repositorio.RepositorioPostgres.RegistrarRevisao | internal/repository/postgres.go:197-223 | the approval goes to the latest run of the pull request, or NaoEncontrado |
| Repositorio.RepositorioPostgres.AnexarRecibo | internal/repository/postgres.go:281-299 | the statement amounts to the operation, with its errors translated |
| Repositorio.RepositorioPostgres.Gravar | internal/repository/postgres.go:322-337 | the first result is stored as its columns hold it; a second is ResultadoJaGravado |
| Repositorio.RepositorioPostgres.Registrar | internal/repository/postgres.go:451-478 | invalid and repeated attempts never reach the table; the others as the operation says |
| Repositorio.RepositorioPostgres.TransicionarTaskRun | internal/repository/postgres.go:145-174 | state and step change together or not at all, whatever way the transaction opens and ends |
| Repositorio.RepositorioPostgres.Transicao | internal/repository/postgres.go:151-171 | inside the transaction: the new row, the step and the answer of the compare-and-set |
| Repositorio.RepositorioPostgres.SemLinhaNaTransicao | internal/repository/postgres.go:482-491 | a run that changed state against one that never existed |
| Repositorio.RepositorioPostgres.EmTransacao | internal/repository/postgres.go:75-94 | begin, body, commit or deferred rollback amount to one block of the transaction machine |
| Repositorio.RepositorioPostgres.Encerrar | internal/repository/postgres.go:80-92 | which snapshot remains after a commit, a rollback or a lost transaction |
| Repositorio.RepositorioPostgres.Rodar | internal/repository/postgres.go:75-94 | a function of operations and nested blocks runs as the transaction machine says |
| Transacoes.NoRefina | internal/repository/postgres.go:75-94 | a block over the stack of snapshots refines the replay that has no stack |
| Transacoes.TransacoesSaoUmaSequencia | internal/repository/postgres.go:72-94 | any tree of nested blocks ends as the flat replay of the operations whose enclosing blocks all succeeded |
| Transacoes.TudoOuNada | internal/repository/postgres.go:72-94 | a block that ends well takes effect whole; one that fails leaves no trace |
| Transacoes.FimDoBloco | internal/repository/postgres.go:75-94 | a block is confirmed exactly when it opened, returned no error, was not made unusable and its commit succeeded; undone or lost otherwise |
| Transacoes.QuandoAborta | internal/repository/postgres.go:75-94 | which answers make a transaction unusable, and what still succeeds in it |
| Transacoes.TodaTransacaoMantem | internal/repository/postgres.go:72-94 | chains, histories and results are kept whatever transactions ran |
| Operacoes.ExecutarSoCresce | internal/repository/postgres.go:98-500 | over any sequence of operations nothing stored is lost or rewritten but a run's state and its date |
| Operacoes.RecusaNaoMuda | internal/repository/postgres.go:98-500 | an operation that fails changes nothing |
| Tabelas.MaisRecente | internal/repository/db/task_runs.sql.go:62-67 | the greatest row of the pull request by creation and id; none exactly when there is none |
| Intercalacoes.TodaIntercalacaoMantemInv | internal/repository/postgres.go:98-299 | locks, rows held by open transactions, the sequence and the clients' places stay coherent over every interleaving |
| Intercalacoes.IntercalarEhSequenciar | internal/repository/postgres.go:98-299 | every interleaving of statements is a sequence of whole operations: each a client's own or its review's approval, of a run that was the latest at some place before; one per client, each answered as at its place unless a run it named appeared |
| Intercalacoes.RevisaoDoMaisRecente | internal/repository/postgres.go:204-222 | a review that had not begun approves a run that was the latest of its pull request between its beginning and its place |
| Intercalacoes.SequenciaRespeitaOTempo | internal/repository/postgres.go:98-299 | who had answered comes in the sequence before who had decided nothing by then |
| Intercalacoes.IntercalarMantem | internal/repository/postgres.go:98-337 | chains, histories and results are kept under every interleaving |
| Intercalacoes.QuemEsperaTemPorQuem | internal/repository/db/task_runs.sql.go:154-159 | a client stopped at a locked row waits for another, whose next two statements release it |
| Corridas.SucessoEstaGravado | internal/repository/postgres.go:98-337 | who is told of success finds it stored, whoever stored it, but for an approval whose run did not exist at its place; a lost delivery is never NaoEncontrado |
| Corridas.UmSoCria | internal/repository/postgres.go:96-122 | clients delivering one pull request at once get one run, which exactly one of them created |
| Corridas.EtapasTemDono | internal/repository/postgres.go:151-171 | stored steps are one by one the transitions of the clients answered with them: one step per client, one owner per step |
| Corridas.UmSoTransiciona | internal/repository/postgres.go:142-174 | two racers both leave one state only if the one that came first made a step that stayed in it, or a third brought the run back after the first and before the second |
| Corridas.UmVencedor | internal/repository/postgres.go:142-174 | if nobody asks to move the run into the state, at most one racer is answered with the transition |
| Corridas.AlguemTransiciona | internal/repository/postgres.go:142-174 | once a racer has its answer, one of the racers was answered with the transition |
| RespostasErradas.QuandoSePerde | internal/repository/postgres.go:237-262 | exactly from which states some schedule answers success and stores nothing: a valid approval not stored, its run missing, and a client about to create that run |
| RespostasErradas.QuandoPodeSePerder | internal/repository/postgres.go:237-262 | the same on the tables, before the call, over any operations in between |
| RespostasErradas.RunCriadoNoMeio | internal/repository/postgres.go:237-262 | an input and a schedule for which that happens |
| RespostasErradas.AprovacaoDeRunExistente | internal/repository/postgres.go:226-263 | an approval of a run that exists at the start is never lost, whatever interleaves |
| RespostasErradas.QuandoSeEngana | internal/repository/postgres.go:482-491 | exactly from which states some schedule answers a transition as concurrent though there was no run at its place: its text fits, its run is missing, and a client is about to create that run |
| RespostasErradas.ConcorrenteSemTerSaido | internal/repository/postgres.go:142-174 | an input and a schedule for which that happens with the run in the expected state all its life |
| RespostasErradas.TransicaoDeRunExistente | internal/repository/postgres.go:142-174 | a transition of a run that exists at the start is never answered so, whatever interleaves |
| Recibos.TodoBancoTemRecibosEncadeados | migrations/000006_criar_receipts.up.sql:1-34 | every predecessor is an earlier receipt of the same tenant; ids, runs and successors are unique |
| Recibos.UmReciboPorPosicao | migrations/000006_criar_receipts.up.sql:16-18 | a chain has one receipt at each position |
| Recibos.CadeiaSemLacunas | migrations/000006_criar_receipts.up.sql:16-18 | every position below a receipt's is taken, down to the root |
| Recibos.CadeiaEmUmTenant | internal/repository/db/receipts.sql.go:19-22 | a chain stays in one tenant |
| Recibos.CadeiasDeTodoBanco | internal/repository/db/receipts.sql.go:36-38 | over any run: at most one receipt per run and per predecessor, one chain one tenant, and nothing moves or changes later |
| Recibos.QuandoAnexa | internal/repository/db/receipts.sql.go:15-23 | exactly when a receipt is appended |
| Recibos.QuandoRecusaORecibo | internal/repository/db/receipts.sql.go:15-23 | which refusal each receipt that is not appended gets, exactly when |
| Historico.TodoBancoTemCaminhos | internal/repository/postgres.go:142-174 | the steps of each run are a path from pendente to its state, in the run's tenant |
| Historico.EntradasMenosSaidas | internal/repository/postgres.go:142-174 | entries to a state minus exits from it: one if the run is there, zero otherwise |
| Historico.EntradaEntreSaidas | internal/repository/db/task_runs.sql.go:154-159 | between two successful exits from a state there is an entry to it |
| Historico.TerminalEhOUltimo | docs/maquina-estados.mmd:4-26 | if callers use only documented edges, nothing follows a terminal state |
| Historico.QuandoTransiciona | internal/repository/db/task_runs.sql.go:154-159 | exactly when a transition is made: the current state, not the edges |
| Historico.ArestasNaoSaoExigidas | docs/maquina-estados.mmd:24-26 | a concluded run can be sent back to pendente and on |
| Entregas.RepetirNaoMudaNada | internal/repository/postgres.go:98-263 | erasing the repeats of whatever had already succeeded leaves the final tables as they are |
| Entregas.ReentregaDevolveOPrimeiro | internal/repository/postgres.go:96-122 | a redelivered pull request answers with the first run and changes nothing, whatever came between |
| Entregas.RevisaoFicaNoPrimeiroRun | internal/repository/postgres.go:194-223 | a review redelivered after a newer run appeared does not move its approval |
| Linhas.CriacaoGuardaAEntrada | internal/repository/postgres.go:103-112 | a creation stores each field of its input, pending, with the instant of creation, and no later operation rewrites them |
| Linhas.QuandoCria | internal/repository/postgres.go:98-122 | each answer of a creation, exactly when, by the limits of its fields, the known deliveries and the taken ids |
| Linhas.AprovacaoGuardaAEntrada | internal/repository/db/approvals.sql.go:12-47 | an approval stores each field of its input and its run's tenant, for good |
| Linhas.QuandoAprova | internal/repository/postgres.go:226-263 | each answer of an approval, exactly when |
| Linhas.RevisaoGuardaADecisao | internal/repository/postgres.go:38-41 | a review stored says Aprovada for "approved" and AlteracoesSolicitadas for "changes_requested", with its reviewer and instant, on the latest run, for good |
| Linhas.QuandoRevisa | internal/repository/postgres.go:197-223 | each answer of a review, exactly when |
| Linhas.RevisaoAchaORun | internal/repository/postgres.go:203-222 | after a creation, a valid review of that pull request is stored whatever came between, on that run if none came later |
| Linhas.RevisaoIntercalada | internal/repository/postgres.go:197-263 | under every interleaving, a review answered as done has its delivery stored, with its decision and on a run that was the latest when it was new |
| Linhas.ReciboGuardaAEntrada | internal/repository/db/receipts.sql.go:13-62 | a receipt stores each field of its input and its run's tenant, for good |
| Linhas.TransicaoGuardaOPasso | internal/repository/postgres.go:145-174 | a transition moves and dates its run alone and stores its step with its detail, for good |
| Linhas.QuandoMove | internal/repository/postgres.go:145-174 | each answer of a transition, exactly when |
| Linhas.TodoRunTemOrigem | internal/repository/postgres.go:98-122 | every stored run was created by an operation answered so, from what the row holds |
| Linhas.TodaAprovacaoTemOrigem | internal/repository/postgres.go:194-263 | every stored approval was brought by an approval or a review answered as done, with what the row holds |
| Linhas.TodoReciboTemOrigem | internal/repository/postgres.go:281-299 | every stored receipt was appended by an operation answered with it |
| Coletores.PrimeiraGravacaoVale | internal/sandbox/coletor_memoria.go:31-47 | in the register, the first write of each id stays and ids never mix |
| Coletores.EsperaRecebeOPrimeiro | internal/sandbox/coletor_memoria.go:49-62 | a wait begun before or after the write gets the first result of its id, exactly when there is one, unless it took the end of its context |
| Coletores.SoAPrimeiraEhAceita | internal/sandbox/coletor_memoria.go:31-40 | a write is accepted exactly when it is the first of its id |
| Coletores.ColetorEmMemoria.Gravar | internal/sandbox/coletor_memoria.go:33-47 | the entry is filled and its channel closed, or the write is refused without effect |
| Coletores.ColetorEmMemoria.Comecar | internal/sandbox/coletor_memoria.go:51-54 | the wait holds the entry of its id, also if nothing was written yet |
| Coletores.ColetorEmMemoria.Terminar | internal/sandbox/coletor_memoria.go:56-61 | the wait ends with the result when one was written and the select takes it, with its context's end, or goes on |
| Coletores.ColetorEmMemoria.PendenteDe | internal/sandbox/coletor_memoria.go:64-71 | one entry per id, created empty |
| Coletores.ColetorEmMemoria.Atender | internal/sandbox/coletor_memoria.go:21-71 | any interleaving of writes and waits is answered as the register would |
| ColetorPostgres.RefinaORegistro | internal/repository/postgres.go:319-360 | with any other operations in between, the tables hold and answer what the register would |
| ColetorPostgres.UltimoResultado | internal/repository/db/sandbox_results.sql.go:64-69 | the row of the greatest attempt; none exactly when the run has no row |
| ColetorPostgres.LeituraEhDoRegistro | internal/repository/db/sandbox_results.sql.go:64-69 | in every reachable database the latest attempt is the first written |
| ColetorPostgres.GravacaoInadmissivelRecusada | migrations/000004_criar_sandbox_results.up.sql:7-15 | a write for a missing run, of refused text or against the CHECKs is refused without effect |
| ColetorPostgres.ColunasGuardamOResultado | internal/repository/postgres.go:327-328 | the columns keep the result itself exactly when both counts fit 32 bits |
| ColetorPostgres.QuandoGrava | internal/repository/postgres.go:322-337 | each answer of a write, exactly when, and the row it leaves for good |
| ColetorPostgres.Aguardar | internal/repository/postgres.go:341-360 | polling ends at the first query that finds a row or fails, or when the context ends, and answers accordingly |
| ColetorPostgres.FimDaEspera | internal/repository/postgres.go:341-360 | the end of a wait told by the tables it saw: a row of the greatest attempt, the context's end with none, or no answer |
| ColetorPostgres.LeituraNaoMuda | internal/repository/postgres.go:339-360 | what one reader read every later reader reads |
| ColetorPostgres.EntregaAceitaSeTexto | internal/sandbox/conteiner/programa.go:88-100 | the first delivery of a run is accepted exactly when its output is UTF-8 without a zero byte |
| ColetorPostgres.TextoAceitoSobrevive | internal/sandbox/conteiner/programa.go:90 | output the column takes is still so after the truncation |
| ColetorPostgres.EntregaChegaIntacta | internal/sandbox/conteiner/programa.go:88-100 | an accepted delivery is read back unchanged ever after; a refused one leaves no result |
| ColetorPostgres.SaidaComZeroNaoChega | internal/sandbox/golang/apuracao.go:58 | a green run whose test prints a zero byte, and is refused |
| AcaoRemota.SignificadoDaAutorizacao | internal/acaoremota/politica.go:44-56 | authorised exactly with a resolved login that may write and, for an approval, is not the author |
| AcaoRemota.TentativaContaAChamada | internal/acaoremota/servico.go:95-163 | an attempt has the request's fields, the resolved login, the call's instant, and the reason of the first check that failed |
| AcaoRemota.TentativaEmitivel | internal/acaoremota/servico.go:151-165 | an attempt carries its request's fields, which are valid ones unless it is invalid |
| Servico.ReservaEmMemoria.Reservar | internal/acaoremota/memoria.go:72-84 | true exactly for the first call with an id |
| Servico.RegistroEmMemoria.Registrar | internal/acaoremota/memoria.go:42-49 | the log grows by the attempt |
| Servico.Servico.Processar | internal/acaoremota/servico.go:79-93 | decision, attempt, execution and reservation of one call, from the answers it gets |
| Servico.Servico.Efetivar | internal/acaoremota/servico.go:117-132 | the executor is reached exactly by a call that reserves; which failure each outcome is |
| Servico.Servico.Concluir | internal/acaoremota/servico.go:151-172 | the decision recorded is the decision returned |
| Protocolo.TodaExecucaoMantemInv | internal/acaoremota/servico.go:79-172 | the invariant of reservations, executions and attempts holds over every interleaving |
| Protocolo.NoMaximoUmaVez | internal/acaoremota/servico.go:117-132 | accepted ≤ executed ≤ reserved ≤ 1 for each action id, under every interleaving |
| Protocolo.ExatamenteUmaVez | internal/acaoremota/servico.go:117-132 | when the store does not fail and all calls finished, an authorised id was executed exactly once |
| Protocolo.ExecucaoEhAutorizada | internal/acaoremota/servico.go:95-132 | every execution belongs to a call that won the reservation and whose own answers satisfy the policy |
| Protocolo.UmaTentativaPorChamada | internal/acaoremota/servico.go:151-172 | a finished call has recorded exactly one attempt, another none |
| Protocolo.TentativaGuardaADecisao | internal/acaoremota/servico.go:151-172 | each attempt holds the decision its call returned |
| Protocolo.RegistroContaAChamada | internal/acaoremota/servico.go:79-163 | under every interleaving each recorded attempt tells its call: request, login, instant, first failed check, and whether the executor was reached |
| Protocolo.RecusaNaoReserva | internal/acaoremota/servico.go:87-90 | refused and invalid calls reserve and execute nothing |
| Protocolo.UmaSoVence | internal/acaoremota/memoria.go:74-84 | of two finished authorised calls for one id at least one was told it was repeated |
| Protocolo.SeteTurnosBastam | internal/acaoremota/servico.go:79-93 | no call waits for another |
| Sozinha.SozinhaComoPrometido | internal/acaoremota/servico.go:79-172 | seven turns of one call alone have the decision, attempt, execution and reservation Processar promises |
| Tentativas.TabelaEhAProjecao | internal/repository/postgres.go:447-478 | the table keeps, per id, the first attempt neither invalid nor repeated whose number fits; each row meets the CHECKs |
| Tentativas.TabelaEhAProjecaoDoLog | internal/acaoremota/memoria.go:42-49 | the same against the log in memory, field by field |
| Tentativas.LinhaContaAChamada | internal/repository/postgres.go:463-477 | every row tells, field by field, of a call of the run and of its answers |
| Tentativas.RunDaEpoca | internal/repository/db/remote_action_attempts.sql.go:13-28 | the run a row names was the latest of its own pull request when its attempt came, none if there was none |
| Tentativas.QuandoRegistra | internal/repository/postgres.go:451-478 | each answer of the registry, exactly when, and when a row appears |
| Tentativas.RunDaLinha | internal/repository/db/remote_action_attempts.sql.go:18-23 | the row's run is the latest of the pull request, none if there is none |
| Tentativas.LinhaAceitaFoiExecutada | internal/repository/postgres.go:447-478 | under every interleaving of the calls, an action shown as accepted was executed exactly once |
| Tentativas.QuandoMostraAceita | internal/repository/postgres.go:447-450 | exactly when the table shows an action as accepted |
| Tentativas.RecusaEscondeAAceita | internal/repository/db/remote_action_attempts.sql.go:27-28 | of two calls run one after the other the second is accepted and executed once, and the table keeps the first's refusal |
| Tentativas.RecusaSeguidaDeAceita | internal/acaoremota/politica.go:46-56 | a pair of calls for which that happens |
| Autenticador.SolicitarTokenComRetentativa | internal/platform/autenticacao.go:144-163 | requests until the first success or limit of its own error; n − 1 waits totalling 500·(2^(n−1) − 1) ms |
| Autenticador.QuandoInsiste | internal/platform/autenticacao.go:246-270 | by its status, when an exchange is followed by another: server errors up to the second, rejected credentials at the first |
| Autenticador.RespostaPeloStatus | internal/platform/autenticacao.go:246-259 | what each status of an exchange means to who asked |
| Autenticador.QuandoAproveita | internal/platform/autenticacao.go:165-179 | a cached token is used while it has five minutes to live |
| Autenticador.Autenticador.TokenEmCache | internal/platform/autenticacao.go:165-179 | a token is served exactly while the margin has not passed its expiry |
| Autenticador.Autenticador.TokenParaInstalacao | internal/platform/autenticacao.go:111-142 | no request with a usable token; a success is cached; a failure leaves the cache alone |
| VooUnico.TodaExecucaoMantemInv | internal/platform/autenticacao.go:111-142 | flights, waiters, cache and counts stay coherent over every interleaving |
| VooUnico.TrocaSoSemTokenUtil | internal/platform/autenticacao.go:111-124 | an exchange starts only when the last token is missing or within five minutes of its expiry |
| VooUnico.TrocaSoPertoDoFim | internal/platform/autenticacao.go:111-124 | on the history of events: the last token written before an exchange had less than five minutes to live |
| VooUnico.UmVooPorInstalacao | internal/platform/autenticacao.go:116-131 | one flight at most per installation; no waiter is left behind |
| VooUnico.MesmoVooMesmaSaida | internal/platform/autenticacao.go:116-131 | all served by one flight get the leader's result |
| VooUnico.QuemEsperaRecebeDoVoo | internal/platform/autenticacao.go:116-131 | who joined a flight is served with what that flight published, whatever happens meanwhile |
| VooUnico.VooFalhoNaoTocaOCache | internal/platform/autenticacao.go:121-128 | at most three exchanges and one write per flight; none by one that failed |
| VooUnico.TokenEhDaInstalacao | internal/platform/autenticacao.go:126-141 | no caller gets a token written for another installation |
| Progresso.NoveTurnosPublicam | internal/platform/autenticacao.go:116-163 | nine turns of its leader publish a flight, whatever the others do |
| Progresso.ChamadorTermina | internal/platform/autenticacao.go:111-163 | a caller scheduled, with its flight's leader, is always served |
| Progresso.SozinhoComoPrometido | internal/platform/autenticacao.go:111-163 | one caller alone gets the result, leaves the cache and makes the exchanges TokenParaInstalacao promises |
| Apuracao.Apurar | internal/sandbox/golang/apuracao.go:38-46 | the loop over the lines equals the declarative tally |
| Apuracao.Apurador.Considerar | internal/sandbox/golang/apuracao.go:48-68 | every field stays the tally of the lines so far; falharam is the sum of the per-package map |
| Apuracao.Apurador.Classificar | internal/sandbox/golang/apuracao.go:60-67 | each event counts in at most one way |
| Apuracao.Apurador.Concluir | internal/sandbox/golang/apuracao.go:88-97 | package failures count only without a failed test anywhere in the stream |
| Apuracao.LinhasDeConcatenacao | internal/sandbox/golang/apuracao.go:41-43 | whole lines split by themselves, whatever follows |
| Apuracao.LinhasRecompoem | internal/sandbox/golang/apuracao.go:41-43 | splitting loses nothing and breaks after each newline only |
| Apuracao.ApuradaPelasLinhas | internal/sandbox/golang/apuracao.go:38-97 | the counts are numbers of lines: top-level passes and fails, and package fails without a failed test; the build flag is some line's |
| Apuracao.SaidaPelasLinhas | internal/sandbox/golang/apuracao.go:48-58 | the text kept is the lines' texts in order: what an event printed, or the line closed by a newline |
| Apuracao.ContagemIgnoraAOrdem | internal/sandbox/golang/apuracao.go:38-97 | the counts depend only on the multiset of lines |
| Apuracao.VermelhaSeAlgumaLinhaFor | internal/sandbox/golang/apuracao.go:38-97 | the tally is red exactly when some line is |
| Apuracao.QuandoFalharamDiminui | internal/sandbox/golang/apuracao.go:70-97 | what one more line does to falharam, and exactly when it lowers it |
| Apuracao.FalharamNaoEhMonotona | internal/sandbox/golang/apuracao.go:88-93 | an input for which it does |
| Linguagem.Executar | internal/sandbox/golang/linguagem.go:52-79 | which commands run and which result comes out, for every outcome of every stage |
| Linguagem.ClassificarTeste | internal/sandbox/golang/linguagem.go:113-138 | the verdict is that of the declarative tally |
| Linguagem.VereditoPelasLinhas | internal/sandbox/golang/linguagem.go:113-138 | the verdict read off the lines and the exit code, in both directions |
| Linguagem.LinhasAMaisNaoAprovam | internal/sandbox/golang/linguagem.go:113-138 | with the exit code fixed, lines added anywhere never turn a failure green |
| Linguagem.InsercaoNaoAprova | internal/sandbox/golang/linguagem.go:113-138 | the same on bytes, at any line boundary |
| Linguagem.SignificadoDoResultado | internal/sandbox/golang/linguagem.go:52-138 | green, test, compilation and infrastructure, each exactly when |
| Linguagem.QuemFala | internal/sandbox/golang/linguagem.go:52-168 | the result stage by stage: the output and reason of the first stage that did not conclude, or the tests' counts and text |
| Linguagem.OQueRoda | internal/sandbox/golang/linguagem.go:52-79 | the commands in order, each only after all before it concluded, the tests only with 30 s left and for the time left |
| Programa.Executar | internal/sandbox/conteiner/programa.go:44-54 | exactly one result is delivered, whatever happens, and the exit code says whether it was |
| Programa.RodarPedido | internal/sandbox/conteiner/programa.go:56-86 | the first stage that fails, the location of the project included, names the cause; otherwise the pipeline speaks |
| Programa.PedidoQueParou | internal/sandbox/conteiner/programa.go:56-83 | a request stopped before its language says the first stage that failed, and runs nothing |
| Programa.PedidoAtendido | internal/sandbox/conteiner/programa.go:67-86 | any other is answered by its language, with its deadline less 30 s less the clock |
| Programa.Entregar | internal/sandbox/conteiner/programa.go:88-100 | duration and truncation are applied last, to any result |
| Programa.EntregaGuardaOResultado | internal/sandbox/conteiner/programa.go:88-100 | the delivery keeps counts and verdict, the last 64 KiB of the output, and the time in whole milliseconds |
| Programa.EntregaSatisfazOsChecks | migrations/000004_criar_sandbox_results.up.sql:7-15 | for every outcome of every stage the delivery satisfies all CHECKs and the output limit |
| Programa.SaidaCortadaDuasVezes | internal/sandbox/executor_local.go:100 | the container's and the host's truncation act as the smaller limit |
| Programa.TestesTerminamAntesDoHost | internal/sandbox/golang/linguagem.go:72-77 | tests that run have at least 30 s and end 30 s before the host's deadline |
| Prazos.PrazoDePontaAPonta | internal/sandbox/variaveis.go:36-42 | the deadline through host, container and go test |
| Prazos.PrazoDoHostNaoEnrola | internal/sandbox/variaveis.go:36-42 | what the host writes is read back as meant: the whole seconds left less 15 s, or 600 |
| Prazos.DiferencaEhAMaisProxima | internal/sandbox/variaveis.go:41 | the difference of two instants is the duration nearest to it |
| Prazos.PrazoAceitoPeloContainer | internal/sandbox/conteiner/ambiente.go:103-116 | exactly which host deadlines the container accepts |
| Prazos.TestesRodam | internal/sandbox/golang/linguagem.go:72-75 | exactly when the tests run |
| Prazos.PrazoMinimoNaoRodaTestes | internal/sandbox/variaveis.go:41 | the clamp to one second, exactly when, and that it never leads to a test run |
| Prazos.PrazoLidoEhODocumentado | internal/sandbox/conteiner/ambiente.go:109-113 | exactly when a number is read as documented |
| Prazos.PrazoLidoSemEnrolar | internal/sandbox/conteiner/ambiente.go:109-113 | up to 9 223 372 036 either way it is |
| Prazos.PrazoEnroladoEhAceito | internal/sandbox/conteiner/ambiente.go:109-113 | a number far out of range that is accepted |
| Truncamento.TruncarMantendoFinal | internal/sandbox/saida.go:7-18 | a suffix within the limit, the one the specification names |
| Truncamento.TruncadoEhOMaiorSufixo | internal/sandbox/saida.go:7-18 | it is the longest suffix within the limit that starts at a rune boundary |
| Truncamento.TruncarDuasVezes | internal/sandbox/saida.go:7-18 | two truncations act as the smaller limit, on all bytes |
| Truncamento.TruncadoDeTextoValido | internal/sandbox/saida.go:12-15 | valid UTF-8 (section 4 of RFC 3629) stays valid and loses at most three bytes more than needed |
| Truncamento.Utf8EhTexto | internal/sandbox/saida.go:12-15 | the text called valid is exactly what some characters encode (section 3 of RFC 3629) |
| Truncamento.PerdaDeTresBytes | internal/sandbox/saida.go:12-15 | the bound of three is reached |
| Truncamento.SemTextoValidoPerdeTudo | internal/sandbox/saida.go:12-15 | without validity everything can be lost |
| Caminhos.DiretorioValidoPorSegmentos | internal/sandbox/diretorio.go:17-36 | what validation accepts, segment by segment |
| Caminhos.DiretorioValidoPorCaracteres | internal/sandbox/diretorio.go:17-36 | the same by the characters of each segment |
| Caminhos.ExigirSemLinks | internal/sandbox/conteiner/projeto.go:47-61 | passes exactly when every prefix exists and is no link |
| Caminhos.SemElosResolveReto | internal/sandbox/conteiner/projeto.go:26-33 | then resolving the project is resolving the clone and appending the directory |
| Caminhos.DentroEhPrefixo | internal/sandbox/conteiner/projeto.go:63-69 | the test on the relative path is containment |
| Caminhos.ResolverEmPartes | internal/sandbox/conteiner/projeto.go:26-33 | resolution is compositional at a directory |
| Caminhos.EloVale | internal/sandbox/conteiner/projeto.go:26-33 | a link stands for its target, relative to its directory or to the root, with one link less to follow |
| Caminhos.ArquivoEncerra | internal/sandbox/conteiner/projeto.go:26-33 | no path is resolved beyond a file |
| Caminhos.GoModPorElo | internal/sandbox/golang/linguagem.go:162-165 | a go.mod that is a link counts exactly when it leads to a regular file |
| Caminhos.ResolvidoEhReto | internal/sandbox/conteiner/projeto.go:26-33 | a resolved path has plain names and leads to no link |
| Caminhos.LocalizarProjeto | internal/sandbox/conteiner/projeto.go:16-45 | accepted exactly when no link is met and a directory is there; the containment test never rejects |
| Azure.Acompanhar | internal/sandbox/executor_azure.go:96-121 | where polling ends and how, by the names of the statuses; one stop exactly when the job is abandoned; the start deadline only before Running |
| Azure.DepoisDeRodarNaoExpiraOInicio | internal/sandbox/executor_azure.go:105-111 | once "Running" was seen the start deadline cannot end it, errors included; without it, it ends at the first poll past the deadline |
| Azure.QuandoContinua | internal/sandbox/executor_azure.go:96-157 | exactly when a poll is gone past, by the names of the statuses, the clock and the context |
| Azure.ConsultasCabem | internal/sandbox/executor_azure.go:113-119 | from the third poll on, the intervals fit in the time left |
| Azure.LimiteDeConsultas | internal/sandbox/executor_azure.go:113-119 | a budget D and an interval I allow at most D/I + 2 polls |
| Azure.ComPrazoTermina | internal/sandbox/executor_azure.go:113-119 | with a deadline polling ends, whatever the statuses |
| Azure.Executar | internal/sandbox/executor_azure.go:62-94 | an invalid request is refused and starts nothing; otherwise the result read from the collector comes back exactly when Succeeded was seen and there is one; anything else is infrastructure |
| PontaAPonta.LeituraEhAEntrega | internal/sandbox/executor_azure.go:87-93 | the host's wait ends with the container's delivery itself exactly when its last read reached the database, whatever was stored since |
| PontaAPonta.ExecutarPedido | internal/sandbox/executor_azure.go:62-94 | container, job and host together: the host answers with the delivery, bit by bit, or with infrastructure, and with the delivery only after Succeeded and an exit code of zero |

## Left out

- HTTP handlers, routing, logging, configuration and the command mains: short case tables over calls already modelled.
- HMAC, RSA, Ed25519, JWT, PEM: foreign cryptography; hashes and signatures are opaque bytes of the lengths the tables demand.
- JSON, the validator and regular expressions other than that of the project directory: parsed events and validated fields are inputs; the format of a repository name is not modelled.
- Login equality (`strings.EqualFold`): a parameter, any relation.
- GitHub, Azure, Docker, git and processes: their answers are inputs, in any combination.
- Risk gates, code memory, identity links: single statements, or approximate search outside the code.
- Feedback reasons of approvals and the read-only queries: stored and returned as they are.
- Isolation inside PostgreSQL: a statement is atomic and a successful transition, which holds its row's lock, is one step; the commit that succeeds and is reported as failed is not modelled.
- A nested commit whose own context has already ended: the driver may then leave the block's changes to the transaction around; a failing end of a block is modelled as undone, or as lost with the transaction around it.
- Text PostgreSQL refuses in columns other than the output of a result, malformed uuids, and the replacement of invalid UTF-8 by `json.Marshal`.
- Tentativas.VemDoServico: covers the attempts that were registered; the service ignores the error of a registry that fails, and that attempt is in no table.
- Prazos.SegundosInteiros: does not round to a float as `Duration.Seconds()` does, which can differ by one second beyond some 97 days.
- Prazos.PrazoDePontaAPonta: the tests are reached within a century of the container's start, because 64-bit differences of instants saturate past 292 years.
- PontaAPonta.ExecutarPedido: takes the run's first delivery, with counts of at most 32 bits, and that Azure reports Succeeded only for an exit code of zero; a job whose process delivers and is then reported otherwise ends as infrastructure.
- What makes a repository's address a URL: a parameter, any predicate.
- Azure.Acompanhar: covers every polling that ends; without a deadline one need not, if the job never does.
- VooUnico.TodaExecucaoMantemInv: does not model panics inside a flight.
- Caminhos.LocalizarProjeto: the clone's path is absolute and clean, and the tree does not change during the walk; permissions on directories are not modelled.
- Intercalacoes.IntercalarEhSequenciar: clients run outside the nested transactions of `Transacoes`, where a transition's transaction that fails is modelled.
