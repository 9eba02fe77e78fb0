/** Any number of clients of the repository at once, each operation cut into the
    SQL statements it is made of (internal/repository/postgres.go), and the
    sequence of whole operations every interleaving amounts to. A transition is
    a transaction of its own: its UPDATE locks the row, and what it writes is
    seen by others only when it commits. */
module Intercalacoes {
  import opened Comum
  import opened Tabelas
  import opened Operacoes
  import Recibos
  import Historico
  import ColetorPostgres

  /** What a client still has to do after a statement. The row and the step of an
      open transaction are the client's alone. */
  datatype Fase =
    | AComecar
    | ABuscarExistente
    | AAprovar(aprovacao: Aprovacao)
    | AConferir(aprovacao: Aprovacao)
    | AConferirTransicao
    | ARegistrarEtapa(linha: TaskRun)
    | AConfirmar(linha: TaskRun, etapa: Etapa)
    | Respondida(resposta: Resposta)

  datatype Cliente = Cliente(op: Operacao, fase: Fase)

  /** The place of a client in the sequence: the operation it stands for there
      and the answer it has there. */
  datatype Feita = Feita(cliente: nat, op: Operacao, resposta: Resposta)

  datatype Sistema = Sistema(clientes: seq<Cliente>, banco: Banco, feitas: seq<Feita>)

  /** A statement: the tables after it, the client's next phase, and the
      operation and answer it decides, if it decides them. */
  datatype Instrucao = Instrucao(banco: Banco, fase: Fase, feita: Option<(Operacao, Resposta)>)

  // ---- Row locks ----

  predicate Tranca(c: Cliente, run: Uuid) {
    c.op.OpTransicionar? && c.op.run == run && (c.fase.ARegistrarEtapa? || c.fase.AConfirmar?)
  }

  predicate Livre(cs: seq<Cliente>, run: Uuid) {
    forall i :: 0 <= i < |cs| ==> !Tranca(cs[i], run)
  }

  // ---- Statements ----

  /** The INSERT of an approval, which stores a row or none. */
  function Aprovar(b: Banco, a: Aprovacao): Instrucao {
    if !AprovacaoValida(a)
    then Instrucao(b, Respondida(Recusado(DadosInvalidos)), Some((OpAprovacao(a), Recusado(DadosInvalidos))))
    else if a.run !in b.runs then Instrucao(b, AConferir(a), Some((OpAprovacao(a), Recusado(NaoEncontrado))))
    else if a.entrega in b.aprovacoes then Instrucao(b, AConferir(a), Some((OpAprovacao(a), Feito)))
    else
      var linha := LinhaAprovacao(b.runs[a.run].tenant, a.run, a.decisao, a.revisor, a.justificativa, a.decididaEm);
      Instrucao(b.(aprovacoes := b.aprovacoes[a.entrega := linha]), Respondida(Feito), Some((OpAprovacao(a), Feito)))
  }

  /** The latest run of the review's pull request is read, and nothing written. */
  function Revisar(b: Banco, op: Operacao): Instrucao
    requires op.OpRevisao?
  {
    var r := op.revisao;
    var decisao := DecisaoPorEstado(r.estado);
    if decisao.None? || !NumeroDePR(r.pr)
    then Instrucao(b, Respondida(Recusado(DadosInvalidos)), Some((op, Recusado(DadosInvalidos))))
    else
      match MaisRecente(b.runs, r.tenant, r.repositorio, r.pr)
      case None => Instrucao(b, Respondida(Recusado(NaoEncontrado)), Some((op, Recusado(NaoEncontrado))))
      case Some(run) => Instrucao(b, AAprovar(Aprovacao(run, r.entrega, decisao.value, r.revisor, "", r.recebidoEm)), None)
  }

  /** The UPDATE of a transition: no row, a row whose lock is waited for, or the
      row locked and its new version kept to the transaction. */
  function Atualizar(cs: seq<Cliente>, b: Banco, op: Operacao): Instrucao
    requires op.OpTransicionar?
  {
    if |op.detalhe| > 4000 then Instrucao(b, Respondida(Recusado(DadosInvalidos)), Some((op, Recusado(DadosInvalidos))))
    else if op.run !in b.runs then Instrucao(b, AConferirTransicao, Some((op, Recusado(NaoEncontrado))))
    else if b.runs[op.run].estado != op.de then Instrucao(b, AConferirTransicao, Some((op, Recusado(TransicaoConcorrente))))
    else if !Livre(cs, op.run) then Instrucao(b, AComecar, None)
    else Instrucao(b, ARegistrarEtapa(b.runs[op.run].(estado := op.para, atualizadoEm := op.agora)), None)
  }

  /** The COMMIT: the transaction's row and step become everybody's. */
  function Confirmar(b: Banco, op: Operacao, linha: TaskRun, etapa: Etapa): Instrucao
    requires op.OpTransicionar?
  {
    Instrucao(b.(runs := b.runs[op.run := linha], etapas := b.etapas + [etapa]),
              Respondida(Run(op.run, false)), Some((op, Run(op.run, false))))
  }

  /** The other operations are one statement, but that a delivery already received
      is looked up next. */
  function Escrever(b: Banco, op: Operacao): Instrucao
    requires EntregasUnicas(b.runs)
  {
    var (c, r) := Aplicar(b, op);
    Instrucao(c, if op.OpCriar? && r.Run? && !r.criado then ABuscarExistente else Respondida(r), Some((op, r)))
  }

  function Comecar(cs: seq<Cliente>, b: Banco, op: Operacao): Instrucao
    requires EntregasUnicas(b.runs)
  {
    match op
    case OpRevisao(_) => Revisar(b, op)
    case OpAprovacao(a) => Aprovar(b, a)
    case OpTransicionar(_, _, _, _, _) => Atualizar(cs, b, op)
    case _ => Escrever(b, op)
  }

  /** The row GetTaskRunByDeliveryID finds. */
  function Existente(b: Banco, op: Operacao): Resposta
    requires EntregasUnicas(b.runs)
  {
    if op.OpCriar? && PorEntrega(b.runs, op.novo.entrega).Some?
    then Run(PorEntrega(b.runs, op.novo.entrega).value, false)
    else Recusado(NaoEncontrado)
  }

  function Executada(cs: seq<Cliente>, b: Banco, c: Cliente): Instrucao
    requires EntregasUnicas(b.runs)
  {
    match c.fase
    case AComecar => Comecar(cs, b, c.op)
    case AAprovar(a) => Aprovar(b, a)
    case ABuscarExistente => Instrucao(b, Respondida(Existente(b, c.op)), None)
    case AConferir(a) => Instrucao(b, Respondida(if a.run in b.runs then Feito else Recusado(NaoEncontrado)), None)
    case AConferirTransicao =>
      var existe := c.op.OpTransicionar? && c.op.run in b.runs;
      Instrucao(b, Respondida(Recusado(if existe then TransicaoConcorrente else NaoEncontrado)), None)
    case ARegistrarEtapa(linha) =>
      if c.op.OpTransicionar?
      then Instrucao(b, AConfirmar(linha, Etapa(linha.tenant, c.op.run, c.op.de, c.op.para, c.op.detalhe)), None)
      else Instrucao(b, c.fase, None)
    case AConfirmar(linha, etapa) =>
      if c.op.OpTransicionar? then Confirmar(b, c.op, linha, etapa) else Instrucao(b, c.fase, None)
    case Respondida(_) => Instrucao(b, c.fase, None)
  }

  function Registro(i: nat, feita: Option<(Operacao, Resposta)>): seq<Feita> {
    if feita.Some? then [Feita(i, feita.value.0, feita.value.1)] else []
  }

  function Passo(s: Sistema, i: nat): Sistema
    requires EntregasUnicas(s.banco.runs) && i < |s.clientes|
  {
    var x := Executada(s.clientes, s.banco, s.clientes[i]);
    Sistema(s.clientes[i := s.clientes[i].(fase := x.fase)], x.banco, s.feitas + Registro(i, x.feita))
  }

  predicate Inicial(s: Sistema) {
    s.banco == VAZIO && s.feitas == [] && forall i :: 0 <= i < |s.clientes| ==> s.clientes[i].fase == AComecar
  }

  /** A run under a schedule; numbers of no client are ignored. */
  function Rodar(s: Sistema, ordem: seq<nat>): (t: Sistema)
    requires Coerente(s)
    ensures Coerente(t) && |t.clientes| == |s.clientes|
  {
    if ordem == [] then s
    else
      var t, i := Rodar(s, ordem[..|ordem| - 1]), ordem[|ordem| - 1];
      if i < |t.clientes| then PassoCoerente(t, i); Passo(t, i) else t
  }

  // ---- What each client knows ----

  /** The approval a review asks for, on a run of its pull request. */
  predicate DaRevisao(b: Banco, r: Revisao, a: Aprovacao) {
    && a.entrega == r.entrega && a.revisor == r.revisor && a.justificativa == "" && a.decididaEm == r.recebidoEm
    && DecisaoPorEstado(r.estado) == Some(a.decisao)
    && a.run in b.runs && DoPullRequest(b.runs[a.run], r.tenant, r.repositorio, r.pr)
  }

  /** The row a transaction updated is as it was when locked. */
  predicate Trancada(b: Banco, op: Operacao, linha: TaskRun) {
    && op.OpTransicionar? && |op.detalhe| <= 4000
    && op.run in b.runs && b.runs[op.run].estado == op.de
    && linha == b.runs[op.run].(estado := op.para, atualizadoEm := op.agora)
  }

  predicate FaseCoerente(b: Banco, c: Cliente) {
    match c.fase
    case AAprovar(a) => c.op.OpRevisao? && DaRevisao(b, c.op.revisao, a)
    case ARegistrarEtapa(linha) => Trancada(b, c.op, linha)
    case AConfirmar(linha, etapa) =>
      Trancada(b, c.op, linha) && etapa == Etapa(linha.tenant, c.op.run, c.op.de, c.op.para, c.op.detalhe)
    case _ => true
  }

  predicate UmaTranca(cs: seq<Cliente>) {
    forall i, j :: 0 <= i < j < |cs| && Tranca(cs[i], RunDe(cs[i].op)) && Tranca(cs[j], RunDe(cs[j].op)) ==>
      RunDe(cs[i].op) != RunDe(cs[j].op)
  }

  function RunDe(op: Operacao): Uuid {
    if op.OpTransicionar? then op.run else 0
  }

  predicate Coerente(s: Sistema) {
    && EntregasUnicas(s.banco.runs)
    && (forall i :: 0 <= i < |s.clientes| ==> FaseCoerente(s.banco, s.clientes[i]))
    && UmaTranca(s.clientes)
  }

  /** A statement either decides nothing and writes nothing, or does what the
      operation it decides does, and has its answer. */
  lemma InstrucaoInteira(cs: seq<Cliente>, b: Banco, c: Cliente)
    requires EntregasUnicas(b.runs) && FaseCoerente(b, c)
    ensures var x := Executada(cs, b, c);
            && (x.feita.None? ==> x.banco == b)
            && (x.feita.Some? ==> (x.banco, x.feita.value.1) == Aplicar(b, x.feita.value.0))
  {
    match c.fase
    case AComecar => ComecarInteira(cs, b, c.op);
    case AAprovar(a) => AprovarInteira(b, a);
    case AConfirmar(linha, etapa) => ConfirmarInteira(b, c.op, linha, etapa);
    case _ =>
  }

  lemma AprovarInteira(b: Banco, a: Aprovacao)
    requires EntregasUnicas(b.runs)
    ensures var x := Aprovar(b, a);
            x.feita.Some? && x.feita.value.0 == OpAprovacao(a) && (x.banco, x.feita.value.1) == Aplicar(b, x.feita.value.0)
  {
    assert Aplicar(b, OpAprovacao(a)) == RegistrarAprovacao(b, a);
  }

  lemma ConfirmarInteira(b: Banco, op: Operacao, linha: TaskRun, etapa: Etapa)
    requires EntregasUnicas(b.runs) && Trancada(b, op, linha)
    requires etapa == Etapa(linha.tenant, op.run, op.de, op.para, op.detalhe)
    ensures (Confirmar(b, op, linha, etapa).banco, Run(op.run, false)) == Aplicar(b, op)
  {
    assert Aplicar(b, op) == Transicionar(b, op.run, op.de, op.para, op.detalhe, op.agora);
  }

  lemma RevisarInteira(b: Banco, op: Operacao)
    requires EntregasUnicas(b.runs) && op.OpRevisao?
    ensures var x := Revisar(b, op);
            && x.banco == b
            && (x.feita.Some? ==> x.feita.value.0 == op && Aplicar(b, op) == (b, x.feita.value.1))
  {
    assert Aplicar(b, op) == RegistrarRevisao(b, op.revisao);
  }

  lemma AtualizarInteira(cs: seq<Cliente>, b: Banco, op: Operacao)
    requires EntregasUnicas(b.runs) && op.OpTransicionar?
    ensures var x := Atualizar(cs, b, op);
            && x.banco == b
            && (x.feita.Some? ==> x.feita.value.0 == op && Aplicar(b, op) == (b, x.feita.value.1))
  {
    assert Aplicar(b, op) == Transicionar(b, op.run, op.de, op.para, op.detalhe, op.agora);
  }

  lemma ComecarInteira(cs: seq<Cliente>, b: Banco, op: Operacao)
    requires EntregasUnicas(b.runs)
    ensures var x := Comecar(cs, b, op);
            && (x.feita.None? ==> x.banco == b)
            && (x.feita.Some? ==> x.feita.value.0 == op && (x.banco, x.feita.value.1) == Aplicar(b, op))
  {
    if op.OpRevisao? {
      RevisarInteira(b, op);
    } else if op.OpAprovacao? {
      AprovarInteira(b, op.aprovacao);
    } else if op.OpTransicionar? {
      AtualizarInteira(cs, b, op);
    } else {
      assert Comecar(cs, b, op) == Escrever(b, op);
    }
  }

  /** No statement takes anything back, or touches a locked row but for the commit
      of who locked it. */
  lemma InstrucaoRespeita(cs: seq<Cliente>, b: Banco, c: Cliente, run: Uuid)
    requires EntregasUnicas(b.runs) && FaseCoerente(b, c)
    ensures var x := Executada(cs, b, c);
            && EntregasUnicas(x.banco.runs) && SoCresce(b, x.banco)
            && (run in b.runs && !Tranca(c, run) ==> x.banco.runs[run] == b.runs[run])
  {
    InstrucaoInteira(cs, b, c);
    var x := Executada(cs, b, c);
    SoCresceTrivial(b);
    if x.feita.Some? {
      AplicarSoCresce(b, x.feita.value.0);
      if !c.fase.AConfirmar? && run in b.runs {
        SoAConfirmacaoReescreve(cs, b, c, run);
      }
    }
  }

  lemma SoCresceTrivial(b: Banco)
    ensures SoCresce(b, b)
  {
  }

  lemma SoAConfirmacaoReescreve(cs: seq<Cliente>, b: Banco, c: Cliente, run: Uuid)
    requires EntregasUnicas(b.runs) && !c.fase.AConfirmar? && run in b.runs
    ensures var x := Executada(cs, b, c); run in x.banco.runs && x.banco.runs[run] == b.runs[run]
  {
    if c.fase.AComecar? && !c.op.OpRevisao? && !c.op.OpAprovacao? && !c.op.OpTransicionar? {
      EscreverNaoReescreve(b, c.op, run);
    }
  }

  lemma EscreverNaoReescreve(b: Banco, op: Operacao, run: Uuid)
    requires EntregasUnicas(b.runs) && !op.OpTransicionar? && run in b.runs
    ensures run in Escrever(b, op).banco.runs && Escrever(b, op).banco.runs[run] == b.runs[run]
  {
    if !op.OpCriar? {
      Historico.OutrasNaoTocam(b, op);
    }
  }

  lemma FaseContinua(b: Banco, d: Banco, c: Cliente)
    requires SoCresce(b, d) && FaseCoerente(b, c)
    requires c.fase.ARegistrarEtapa? || c.fase.AConfirmar? ==> c.op.run in d.runs && d.runs[c.op.run] == b.runs[c.op.run]
    ensures FaseCoerente(d, c)
  {
  }

  lemma FaseSegue(cs: seq<Cliente>, b: Banco, c: Cliente)
    requires EntregasUnicas(b.runs) && FaseCoerente(b, c)
    ensures var x := Executada(cs, b, c); FaseCoerente(x.banco, c.(fase := x.fase))
  {
    if c.fase.AComecar? && c.op.OpRevisao? {
      var r := c.op.revisao;
      assert MaisRecente(b.runs, r.tenant, r.repositorio, r.pr).Some? ==>
               EhMaisRecente(b.runs, r.tenant, r.repositorio, r.pr, MaisRecente(b.runs, r.tenant, r.repositorio, r.pr).value);
    }
  }

  /** A row is locked by one client at a time. */
  lemma TrancaSoLivre(cs: seq<Cliente>, b: Banco, c: Cliente)
    requires EntregasUnicas(b.runs)
    ensures var d := c.(fase := Executada(cs, b, c).fase);
            Tranca(d, RunDe(d.op)) ==> Tranca(c, RunDe(c.op)) || Livre(cs, RunDe(c.op))
  {
  }

  lemma OutroNaoEhTocado(s: Sistema, i: nat, j: nat)
    requires Coerente(s) && i < |s.clientes| && j < |s.clientes| && i != j
    ensures FaseCoerente(Passo(s, i).banco, s.clientes[j])
  {
    var d := s.clientes[j];
    InstrucaoRespeita(s.clientes, s.banco, s.clientes[i], RunDe(d.op));
    if d.fase.ARegistrarEtapa? || d.fase.AConfirmar? {
      assert FaseCoerente(s.banco, d);
      assert Tranca(d, RunDe(d.op));
    }
    FaseContinua(s.banco, Passo(s, i).banco, d);
  }

  lemma PassoCoerente(s: Sistema, i: nat)
    requires Coerente(s) && i < |s.clientes|
    ensures Coerente(Passo(s, i))
  {
    var t := Passo(s, i);
    InstrucaoRespeita(s.clientes, s.banco, s.clientes[i], 0);
    FaseSegue(s.clientes, s.banco, s.clientes[i]);
    TrancaSoLivre(s.clientes, s.banco, s.clientes[i]);
    forall j | 0 <= j < |t.clientes|
      ensures FaseCoerente(t.banco, t.clientes[j])
    {
      if j != i {
        OutroNaoEhTocado(s, i, j);
      }
    }
  }

  // ---- The sequence every interleaving amounts to ----

  function Ops(feitas: seq<Feita>): (r: seq<Operacao>)
    ensures |r| == |feitas|
  {
    if feitas == [] then [] else Ops(feitas[..|feitas| - 1]) + [feitas[|feitas| - 1].op]
  }

  /** The tables before the k-th place. */
  function Antes(feitas: seq<Feita>, k: nat): Banco
    requires k <= |feitas|
  {
    Executar(VAZIO, Ops(feitas[..k]))
  }

  /** The tables are those of the operations one after the other, and each has the
      answer it has at its place. */
  ghost predicate Sequencia(s: Sistema) {
    && s.banco == Executar(VAZIO, Ops(s.feitas))
    && forall k :: 0 <= k < |s.feitas| ==> NoLugar(s.feitas, k)
  }

  ghost predicate NoLugar(feitas: seq<Feita>, k: nat)
    requires k < |feitas|
  {
    feitas[k].resposta == Aplicar(Antes(feitas, k), feitas[k].op).1
  }

  lemma LugarContinuaNoLugar(feitas: seq<Feita>, f: Feita, k: nat)
    requires k < |feitas|
    ensures NoLugar(feitas + [f], k) <==> NoLugar(feitas, k)
  {
    assert (feitas + [f])[..k] == feitas[..k];
  }

  lemma MaisUmaFeita(s: Sistema, b: Banco, f: Feita)
    requires Sequencia(s) && EntregasUnicas(s.banco.runs) && (b, f.resposta) == Aplicar(s.banco, f.op)
    ensures Sequencia(s.(banco := b, feitas := s.feitas + [f]))
  {
    var feitas := s.feitas + [f];
    assert feitas[..|s.feitas|] == s.feitas;
    assert Ops(feitas)[..|s.feitas|] == Ops(s.feitas);
    forall k | 0 <= k < |feitas|
      ensures NoLugar(feitas, k)
    {
      if k < |s.feitas| {
        LugarContinuaNoLugar(s.feitas, f, k);
      }
    }
  }

  lemma PassoSequencia(s: Sistema, i: nat)
    requires Coerente(s) && Sequencia(s) && i < |s.clientes|
    ensures Sequencia(Passo(s, i))
  {
    var x := Executada(s.clientes, s.banco, s.clientes[i]);
    InstrucaoInteira(s.clientes, s.banco, s.clientes[i]);
    if x.feita.Some? {
      MaisUmaFeita(s, x.banco, Feita(i, x.feita.value.0, x.feita.value.1));
      assert Registro(i, x.feita) == [Feita(i, x.feita.value.0, x.feita.value.1)];
    } else {
      assert s.feitas + [] == s.feitas;
    }
  }

  lemma AntesSegue(feitas: seq<Feita>, k: nat)
    requires k < |feitas|
    ensures Antes(feitas, k + 1) == Aplicar(Antes(feitas, k), feitas[k].op).0
    ensures SoCresce(Antes(feitas, k), Antes(feitas, k + 1))
  {
    var f := feitas[..k + 1];
    assert f[..|f| - 1] == feitas[..k];
    assert Ops(f)[..|Ops(f)| - 1] == Ops(feitas[..k]);
    AplicarSoCresce(Antes(feitas, k), feitas[k].op);
  }

  lemma {:induction false} AntesCresce(feitas: seq<Feita>, k: nat, l: nat)
    requires k <= l <= |feitas|
    ensures SoCresce(Antes(feitas, k), Antes(feitas, l))
    decreases l - k
  {
    if k < l {
      AntesCresce(feitas, k, l - 1);
      AntesSegue(feitas, l - 1);
      SoCresceTransitivo(Antes(feitas, k), Antes(feitas, l - 1), Antes(feitas, l));
    }
  }

  lemma AntesDoFim(s: Sistema)
    requires Sequencia(s)
    ensures Antes(s.feitas, |s.feitas|) == s.banco
  {
    assert s.feitas[..|s.feitas|] == s.feitas;
  }

  // ---- Whose each place is ----

  /** The operation is the client's own, or the approval its review asks for. */
  predicate DoCliente(b: Banco, c: Cliente, op: Operacao) {
    op == c.op || (c.op.OpRevisao? && op.OpAprovacao? && DaRevisao(b, c.op.revisao, op.aprovacao))
  }

  /** The one way an answer differs from that of its place: the run an approval or
      a transition names did not exist there, and does when the client checks. */
  predicate RunSurgiu(b: Banco, op: Operacao, noLugar: Resposta, dada: Resposta) {
    && noLugar == Recusado(NaoEncontrado)
    && ((op.OpAprovacao? && dada == Feito && op.aprovacao.run in b.runs)
        || (op.OpTransicionar? && dada == Recusado(TransicaoConcorrente) && op.run in b.runs))
  }

  /** Phases in which nothing is decided yet. */
  predicate SemLugar(f: Fase) {
    f.AComecar? || f.AAprovar? || f.ARegistrarEtapa? || f.AConfirmar?
  }

  predicate LugarCoerente(b: Banco, c: Cliente, f: Feita) {
    && DoCliente(b, c, f.op)
    && match c.fase
       case Respondida(r) => r == f.resposta || (f.op == c.op && RunSurgiu(b, c.op, f.resposta, r))
       case ABuscarExistente =>
         && c.op.OpCriar? && f.op == c.op && f.resposta.Run? && !f.resposta.criado
         && f.resposta.id in b.runs && b.runs[f.resposta.id].entrega == c.op.novo.entrega
       case AConferir(a) =>
         f.op == OpAprovacao(a) && ((f.resposta == Feito && a.run in b.runs) || (f.resposta == Recusado(NaoEncontrado) && f.op == c.op))
       case AConferirTransicao =>
         && c.op.OpTransicionar? && f.op == c.op
         && ((f.resposta == Recusado(TransicaoConcorrente) && c.op.run in b.runs) || f.resposta == Recusado(NaoEncontrado))
       case _ => false
  }

  predicate TemLugar(feitas: seq<Feita>, i: nat) {
    exists k :: 0 <= k < |feitas| && feitas[k].cliente == i
  }

  /** Each client has one place, once what it does is decided. */
  predicate Lugares(s: Sistema) {
    && (forall k :: 0 <= k < |s.feitas| ==>
          s.feitas[k].cliente < |s.clientes| && LugarCoerente(s.banco, s.clientes[s.feitas[k].cliente], s.feitas[k]))
    && (forall k, l :: 0 <= k < l < |s.feitas| ==> s.feitas[k].cliente != s.feitas[l].cliente)
    && (forall i :: 0 <= i < |s.clientes| && !SemLugar(s.clientes[i].fase) ==> TemLugar(s.feitas, i))
  }

  lemma LugarContinua(b: Banco, d: Banco, c: Cliente, f: Feita)
    requires SoCresce(b, d) && LugarCoerente(b, c, f)
    ensures LugarCoerente(d, c, f)
  {
  }

  lemma NovoLugar(cs: seq<Cliente>, b: Banco, c: Cliente, i: nat)
    requires EntregasUnicas(b.runs) && FaseCoerente(b, c) && SemLugar(c.fase)
    ensures var x := Executada(cs, b, c);
            && (x.feita.None? <==> SemLugar(x.fase))
            && (x.feita.Some? ==> LugarCoerente(x.banco, c.(fase := x.fase), Feita(i, x.feita.value.0, x.feita.value.1)))
  {
    if c.fase.AComecar? && !c.op.OpRevisao? && !c.op.OpAprovacao? && !c.op.OpTransicionar? {
      EscreverDaLugar(b, c, i);
    }
  }

  lemma EscreverDaLugar(b: Banco, c: Cliente, i: nat)
    requires EntregasUnicas(b.runs) && !c.op.OpTransicionar? && !c.op.OpRevisao? && !c.op.OpAprovacao?
    ensures var x := Escrever(b, c.op);
            && !SemLugar(x.fase)
            && LugarCoerente(x.banco, c.(fase := x.fase), Feita(i, x.feita.value.0, x.feita.value.1))
  {
    if c.op.OpCriar? {
      assert Aplicar(b, c.op) == CriarTaskRun(b, c.op.novo, c.op.id, c.op.agora);
    }
  }

  lemma LugarSegue(cs: seq<Cliente>, b: Banco, c: Cliente, f: Feita)
    requires EntregasUnicas(b.runs) && LugarCoerente(b, c, f)
    ensures var x := Executada(cs, b, c);
            x.feita.None? && x.banco == b && LugarCoerente(b, c.(fase := x.fase), f) && !SemLugar(x.fase)
  {
  }

  lemma PassoComLugar(s: Sistema, i: nat, m: nat)
    requires Coerente(s) && Lugares(s) && i < |s.clientes| && m < |s.feitas| && s.feitas[m].cliente == i
    ensures Lugares(Passo(s, i))
  {
    var t := Passo(s, i);
    LugarSegue(s.clientes, s.banco, s.clientes[i], s.feitas[m]);
    assert t.feitas == s.feitas + [];
    assert t.feitas == s.feitas;
    forall k | 0 <= k < |t.feitas|
      ensures LugarCoerente(t.banco, t.clientes[t.feitas[k].cliente], t.feitas[k])
    {
      assert k == m || s.feitas[k].cliente != i;
    }
  }

  lemma PassoSemLugar(s: Sistema, i: nat)
    requires Coerente(s) && Lugares(s) && i < |s.clientes| && !TemLugar(s.feitas, i)
    ensures Lugares(Passo(s, i))
  {
    var t := Passo(s, i);
    var x := Executada(s.clientes, s.banco, s.clientes[i]);
    InstrucaoRespeita(s.clientes, s.banco, s.clientes[i], 0);
    NovoLugar(s.clientes, s.banco, s.clientes[i], i);
    assert Registro(i, x.feita) == if x.feita.Some? then [Feita(i, x.feita.value.0, x.feita.value.1)] else [];
    forall k | 0 <= k < |t.feitas|
      ensures t.feitas[k].cliente < |t.clientes| && LugarCoerente(t.banco, t.clientes[t.feitas[k].cliente], t.feitas[k])
    {
      if k < |s.feitas| {
        assert t.feitas[k] == s.feitas[k] && s.feitas[k].cliente != i;
        LugarContinua(s.banco, t.banco, s.clientes[s.feitas[k].cliente], s.feitas[k]);
      }
    }
    forall j | 0 <= j < |t.clientes| && !SemLugar(t.clientes[j].fase)
      ensures TemLugar(t.feitas, j)
    {
      if j == i {
        assert t.feitas[|s.feitas|].cliente == i;
      } else {
        var k :| 0 <= k < |s.feitas| && s.feitas[k].cliente == j;
        assert t.feitas[k].cliente == j;
      }
    }
  }

  ghost predicate Inv(s: Sistema) {
    Coerente(s) && Sequencia(s) && Lugares(s)
  }

  lemma PassoPreservaInv(s: Sistema, i: nat)
    requires Inv(s) && i < |s.clientes|
    ensures Inv(Passo(s, i))
  {
    PassoCoerente(s, i);
    PassoSequencia(s, i);
    if TemLugar(s.feitas, i) {
      var m: nat :| m < |s.feitas| && s.feitas[m].cliente == i;
      PassoComLugar(s, i, m);
    } else {
      PassoSemLugar(s, i);
    }
  }

  lemma {:induction false} TodaIntercalacaoMantemInv(s: Sistema, ordem: seq<nat>)
    requires Inicial(s)
    ensures Inv(Rodar(s, ordem))
  {
    if ordem == [] {
      assert Executar(VAZIO, []) == VAZIO;
    } else {
      TodaIntercalacaoMantemInv(s, ordem[..|ordem| - 1]);
      var t, i := Rodar(s, ordem[..|ordem| - 1]), ordem[|ordem| - 1];
      if i < |t.clientes| {
        PassoPreservaInv(t, i);
      }
    }
  }

  // ---- Which run a review approves ----

  /** At some place from `desde` to `ate`, the run was the latest of the review's
      pull request. */
  ghost predicate FoiMaisRecente(feitas: seq<Feita>, desde: nat, ate: nat, r: Revisao, run: Uuid) {
    exists n: nat :: desde <= n <= ate && n <= |feitas| && EhMaisRecente(Antes(feitas, n).runs, r.tenant, r.repositorio, r.pr, run)
  }

  /** What client `i`, a review, approved or is about to approve was the latest run
      at some place from `desde` on and before its own. */
  ghost predicate LeuRecente(s: Sistema, i: nat, desde: nat)
    requires i < |s.clientes| && s.clientes[i].op.OpRevisao?
  {
    var (r, f) := (s.clientes[i].op.revisao, s.clientes[i].fase);
    && (f.AAprovar? ==> FoiMaisRecente(s.feitas, desde, |s.feitas|, r, f.aprovacao.run))
    && (forall k: nat :: k < |s.feitas| && s.feitas[k].cliente == i && s.feitas[k].op.OpAprovacao? ==>
          FoiMaisRecente(s.feitas, desde, k, r, s.feitas[k].op.aprovacao.run))
  }

  lemma FoiEhSempre(feitas: seq<Feita>, mais: seq<Feita>, desde: nat, ate: nat, r: Revisao, run: Uuid)
    requires FoiMaisRecente(feitas, desde, ate, r, run)
    ensures FoiMaisRecente(feitas + mais, desde, ate, r, run)
  {
    var n: nat :| desde <= n <= ate && n <= |feitas| && EhMaisRecente(Antes(feitas, n).runs, r.tenant, r.repositorio, r.pr, run);
    assert (feitas + mais)[..n] == feitas[..n];
    assert Antes(feitas + mais, n) == Antes(feitas, n);
  }

  /** The read of a review, and the place its approval takes. */
  lemma LeituraDaVez(s: Sistema, i: nat, desde: nat)
    requires Inv(s) && i < |s.clientes| && s.clientes[i].op.OpRevisao? && LeuRecente(s, i, desde) && desde <= |s.feitas|
    ensures LeuRecente(Passo(s, i), i, desde)
  {
    var (c, t) := (s.clientes[i], Passo(s, i));
    var x := Executada(s.clientes, s.banco, c);
    var r := c.op.revisao;
    if x.fase.AAprovar? {
      AntesDoFim(s);
      assert t.feitas == s.feitas;
      assert EhMaisRecente(Antes(s.feitas, |s.feitas|).runs, r.tenant, r.repositorio, r.pr, x.fase.aprovacao.run);
    }
    forall k: nat | k < |t.feitas| && t.feitas[k].cliente == i && t.feitas[k].op.OpAprovacao?
      ensures FoiMaisRecente(t.feitas, desde, k, r, t.feitas[k].op.aprovacao.run)
    {
      if k < |s.feitas| {
        FoiEhSempre(s.feitas, Registro(i, x.feita), desde, k, r, s.feitas[k].op.aprovacao.run);
      } else {
        assert c.fase.AAprovar?;
        FoiEhSempre(s.feitas, Registro(i, x.feita), desde, k, r, c.fase.aprovacao.run);
      }
    }
  }

  lemma LeituraDeOutro(s: Sistema, i: nat, j: nat, desde: nat)
    requires Inv(s) && i < |s.clientes| && j < |s.clientes| && i != j
    requires s.clientes[i].op.OpRevisao? && LeuRecente(s, i, desde)
    ensures LeuRecente(Passo(s, j), i, desde)
  {
    var (c, t) := (s.clientes[i], Passo(s, j));
    var mais := Registro(j, Executada(s.clientes, s.banco, s.clientes[j]).feita);
    if c.fase.AAprovar? {
      FoiEhSempre(s.feitas, mais, desde, |s.feitas|, c.op.revisao, c.fase.aprovacao.run);
    }
    forall k: nat | k < |t.feitas| && t.feitas[k].cliente == i && t.feitas[k].op.OpAprovacao?
      ensures FoiMaisRecente(t.feitas, desde, k, c.op.revisao, t.feitas[k].op.aprovacao.run)
    {
      assert t.feitas[k] == s.feitas[k];
      FoiEhSempre(s.feitas, mais, desde, k, c.op.revisao, s.feitas[k].op.aprovacao.run);
    }
  }

  lemma {:induction false} InvSegue(s: Sistema, ordem: seq<nat>)
    requires Inv(s)
    ensures Inv(Rodar(s, ordem))
  {
    if ordem != [] {
      InvSegue(s, ordem[..|ordem| - 1]);
      var t, i := Rodar(s, ordem[..|ordem| - 1]), ordem[|ordem| - 1];
      if i < |t.clientes| {
        PassoPreservaInv(t, i);
      }
    }
  }

  /** A review approves the run that was the latest of its pull request at some
      moment after its client began and before the approval. */
  lemma {:induction false} RevisaoDoMaisRecente(s: Sistema, ordem: seq<nat>, i: nat)
    requires Inv(s) && i < |s.clientes| && s.clientes[i].fase.AComecar? && s.clientes[i].op.OpRevisao?
    ensures var t := Rodar(s, ordem);
            && Inv(t) && t.clientes[i].op == s.clientes[i].op && s.feitas <= t.feitas
            && LeuRecente(t, i, |s.feitas|)
  {
    if ordem == [] {
      IndecisoNaoTemLugar(s, i);
    } else {
      var antes, j := ordem[..|ordem| - 1], ordem[|ordem| - 1];
      RevisaoDoMaisRecente(s, antes, i);
      InvSegue(s, ordem);
      var t := Rodar(s, antes);
      if j < |t.clientes| {
        if j == i {
          LeituraDaVez(t, i, |s.feitas|);
        } else {
          LeituraDeOutro(t, i, j, |s.feitas|);
        }
      }
    }
  }

  /** The approvals among the places are of runs that were the latest. */
  ghost predicate Recentes(s: Sistema) {
    forall k: nat :: k < |s.feitas| && s.feitas[k].cliente < |s.clientes| && s.feitas[k].op != s.clientes[s.feitas[k].cliente].op
                     ==> RecenteNoLugar(s, k)
  }

  ghost predicate RecenteNoLugar(s: Sistema, k: nat)
    requires k < |s.feitas| && s.feitas[k].cliente < |s.clientes|
  {
    var (op, f) := (s.clientes[s.feitas[k].cliente].op, s.feitas[k]);
    op.OpRevisao? && f.op.OpAprovacao? && FoiMaisRecente(s.feitas, 0, k, op.revisao, f.op.aprovacao.run)
  }

  lemma TodasRecentes(s0: Sistema, ordem: seq<nat>)
    requires Inicial(s0)
    ensures Recentes(Rodar(s0, ordem))
  {
    TodaIntercalacaoMantemInv(s0, []);
    TodaIntercalacaoMantemInv(s0, ordem);
    var s := Rodar(s0, ordem);
    forall k: nat | k < |s.feitas| && s.feitas[k].cliente < |s.clientes| && s.feitas[k].op != s.clientes[s.feitas[k].cliente].op
      ensures RecenteNoLugar(s, k)
    {
      var i := s.feitas[k].cliente;
      assert LugarCoerente(s.banco, s.clientes[i], s.feitas[k]);
      OperacaoNaoMuda(s0, ordem, i);
      RevisaoDoMaisRecente(s0, ordem, i);
    }
  }

  lemma {:induction false} OperacaoNaoMuda(s: Sistema, ordem: seq<nat>, i: nat)
    requires Coerente(s) && i < |s.clientes|
    ensures Rodar(s, ordem).clientes[i].op == s.clientes[i].op
  {
    if ordem != [] {
      OperacaoNaoMuda(s, ordem[..|ordem| - 1], i);
    }
  }

  /** Whatever the interleaving of statements, what happened is a sequence of whole
      operations. Each is a client's own, or the approval its review asks for, on
      the run that was the latest of its pull request at some place before; each
      client has at most one place, and has one when it has answered; its answer
      is the one its operation has there, unless a run it named appeared in
      between. The tables are those the sequence leaves. */
  lemma IntercalarEhSequenciar(s0: Sistema, ordem: seq<nat>)
    requires Inicial(s0)
    ensures var s := Rodar(s0, ordem);
            && s.banco == Executar(VAZIO, Ops(s.feitas))
            && (forall k :: 0 <= k < |s.feitas| ==>
                  && NoLugar(s.feitas, k)
                  && s.feitas[k].cliente < |s.clientes| && DoCliente(s.banco, s.clientes[s.feitas[k].cliente], s.feitas[k].op))
            && Recentes(s)
            && (forall k, l :: 0 <= k < l < |s.feitas| ==> s.feitas[k].cliente != s.feitas[l].cliente)
            && (forall i :: 0 <= i < |s.clientes| && s.clientes[i].fase.Respondida? ==>
                  exists k: nat :: k < |s.feitas| && RespondeuNoLugar(s, i, k))
  {
    TodasRecentes(s0, ordem);
    TodaIntercalacaoMantemInv(s0, ordem);
    RespostasNosLugares(Rodar(s0, ordem));
  }

  /** The answer client `i` gave is that of its place, or a run appeared. */
  predicate RespondeuNoLugar(s: Sistema, i: nat, k: nat)
    requires i < |s.clientes| && s.clientes[i].fase.Respondida? && k < |s.feitas|
  {
    var (f, r) := (s.feitas[k], s.clientes[i].fase.resposta);
    f.cliente == i && (r == f.resposta || (f.op == s.clientes[i].op && RunSurgiu(s.banco, f.op, f.resposta, r)))
  }

  lemma RespostasNosLugares(s: Sistema)
    requires Inv(s)
    ensures forall i :: 0 <= i < |s.clientes| && s.clientes[i].fase.Respondida? ==>
              exists k: nat :: k < |s.feitas| && RespondeuNoLugar(s, i, k)
  {
    forall i | 0 <= i < |s.clientes| && s.clientes[i].fase.Respondida?
      ensures exists k: nat :: k < |s.feitas| && RespondeuNoLugar(s, i, k)
    {
      var k: nat :| k < |s.feitas| && s.feitas[k].cliente == i;
      assert RespondeuNoLugar(s, i, k);
    }
  }

  lemma {:induction false} FeitasCrescem(s: Sistema, ordem: seq<nat>)
    requires Coerente(s)
    ensures s.feitas <= Rodar(s, ordem).feitas
  {
    if ordem != [] {
      FeitasCrescem(s, ordem[..|ordem| - 1]);
    }
  }

  lemma {:induction false} RodarEmPartes(s: Sistema, a: seq<nat>, b: seq<nat>)
    requires Coerente(s)
    ensures Rodar(s, a + b) == Rodar(Rodar(s, a), b)
  {
    if b == [] {
      assert a + b == a;
    } else {
      var n := |b| - 1;
      assert (a + b)[..|a + b| - 1] == a + b[..n];
      RodarEmPartes(s, a, b[..n]);
    }
  }

  /** The sequence respects time: the place of a client that had answered comes
      before that of one that had decided nothing by then. */
  lemma SequenciaRespeitaOTempo(s0: Sistema, antes: seq<nat>, depois: seq<nat>, i: nat, j: nat, k: nat, l: nat)
    requires Inicial(s0) && i < |s0.clientes| && j < |s0.clientes|
    requires Rodar(s0, antes).clientes[i].fase.Respondida? && SemLugar(Rodar(s0, antes).clientes[j].fase)
    requires k < |Rodar(s0, antes + depois).feitas| && l < |Rodar(s0, antes + depois).feitas|
    requires Rodar(s0, antes + depois).feitas[k].cliente == i && Rodar(s0, antes + depois).feitas[l].cliente == j
    ensures k < l
  {
    var t, u := Rodar(s0, antes), Rodar(s0, antes + depois);
    TodaIntercalacaoMantemInv(s0, antes);
    TodaIntercalacaoMantemInv(s0, antes + depois);
    RodarEmPartes(s0, antes, depois);
    FeitasCrescem(t, depois);
    LugaresNoTempo(t, u, i, j, k, l);
  }

  lemma LugaresNoTempo(t: Sistema, u: Sistema, i: nat, j: nat, k: nat, l: nat)
    requires Lugares(t) && Lugares(u) && t.feitas <= u.feitas && i < |t.clientes| && j < |t.clientes|
    requires t.clientes[i].fase.Respondida? && SemLugar(t.clientes[j].fase)
    requires k < |u.feitas| && l < |u.feitas| && u.feitas[k].cliente == i && u.feitas[l].cliente == j
    ensures k < |t.feitas| <= l
  {
    var m: nat :| m < |t.feitas| && t.feitas[m].cliente == i;
    assert u.feitas[m] == t.feitas[m];
    assert m == k;
    IndecisoNaoTemLugar(t, j);
    assert forall n :: 0 <= n < |t.feitas| ==> u.feitas[n] == t.feitas[n];
  }

  lemma IndecisoNaoTemLugar(s: Sistema, i: nat)
    requires Lugares(s) && i < |s.clientes| && SemLugar(s.clientes[i].fase)
    ensures forall k :: 0 <= k < |s.feitas| ==> s.feitas[k].cliente != i
  {
    forall k | 0 <= k < |s.feitas|
      ensures s.feitas[k].cliente != i
    {
      assert LugarCoerente(s.banco, s.clientes[s.feitas[k].cliente], s.feitas[k]);
    }
  }

  lemma IntercalarMantem(s0: Sistema, ordem: seq<nat>)
    requires Inicial(s0)
    ensures var b := Rodar(s0, ordem).banco;
            && Recibos.Encadeados(b.recibos) && Recibos.DoTenantDoRun(b)
            && Historico.Coerente(b)
            && ColetorPostgres.ResultadosEmOrdem(b)
  {
    TodaIntercalacaoMantemInv(s0, ordem);
    var ops := Ops(Rodar(s0, ordem).feitas);
    Recibos.TodoBancoTemRecibosEncadeados(ops);
    Historico.TodoBancoTemCaminhos(ops);
    ColetorPostgres.TodoBancoEmOrdem(ops);
  }

  /** Nobody waits for nothing: a client stopped at a locked row waits for another
      that holds it, whose next two statements need nothing and release it. */
  lemma QuemEsperaTemPorQuem(s: Sistema, i: nat) returns (j: nat)
    requires Coerente(s) && i < |s.clientes| && s.clientes[i].fase.AComecar? && Passo(s, i) == s
    ensures j < |s.clientes| && j != i && s.clientes[i].op.OpTransicionar? && Tranca(s.clientes[j], s.clientes[i].op.run)
    ensures Coerente(Passo(s, j))
    ensures s.clientes[j].fase.AConfirmar? ==> Passo(s, j).clientes[j].fase.Respondida?
    ensures s.clientes[j].fase.ARegistrarEtapa? ==> Passo(Passo(s, j), j).clientes[j].fase.Respondida?
  {
    var c := s.clientes[i];
    var x := Executada(s.clientes, s.banco, c);
    NovoLugar(s.clientes, s.banco, c, i);
    assert s.clientes[i := c.(fase := x.fase)][i] == c.(fase := x.fase);
    assert x.fase == AComecar;
    j :| 0 <= j < |s.clientes| && Tranca(s.clientes[j], c.op.run);
    PassoCoerente(s, j);
  }
}
