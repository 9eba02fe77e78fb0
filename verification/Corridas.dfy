/** Who wins when clients of the repository race, and what each of them may rely
    on, under every interleaving of their statements
    (internal/repository/postgres.go). */
module Corridas {
  import opened Comum
  import opened Tabelas
  import opened Operacoes
  import opened Intercalacoes
  import Historico
  import Entregas

  // ---- Success means stored ----

  lemma LugarGravado(s: Sistema, k: nat)
    requires Sequencia(s) && k < |s.feitas| && Sucesso(s.feitas[k].resposta) && Entregas.ChaveDe(s.feitas[k].op).Some?
    ensures Entregas.Gravada(s.banco, Entregas.ChaveDe(s.feitas[k].op).value)
  {
    var b, op := Antes(s.feitas, k), s.feitas[k].op;
    assert NoLugar(s.feitas, k);
    Entregas.SucessoGrava(b, op);
    AntesSegue(s.feitas, k);
    AntesCresce(s.feitas, k + 1, |s.feitas|);
    AntesDoFim(s);
    Entregas.GravadaContinua(Antes(s.feitas, k + 1), s.banco, Entregas.ChaveDe(op).value);
  }

  /** The run a delivery is answered with. */
  lemma RunRespondido(s: Sistema, k: nat)
    requires Sequencia(s) && k < |s.feitas| && s.feitas[k].op.OpCriar? && s.feitas[k].resposta.Run?
    ensures var (op, r) := (s.feitas[k].op, s.feitas[k].resposta);
            && r.id in Antes(s.feitas, k + 1).runs
            && r.id in s.banco.runs && s.banco.runs[r.id].entrega == op.novo.entrega
            && (r.criado ==> r.id !in Antes(s.feitas, k).runs)
  {
    var b, op := Antes(s.feitas, k), s.feitas[k].op;
    assert NoLugar(s.feitas, k);
    assert Aplicar(b, op) == CriarTaskRun(b, op.novo, op.id, op.agora);
    AntesSegue(s.feitas, k);
    AntesCresce(s.feitas, k + 1, |s.feitas|);
    AntesDoFim(s);
  }

  /** Who was told of success finds what it asked for stored, whoever stored it; a
      delivery that lost the race is never told that it does not exist. Only an
      approval whose run did not exist at its place may not be stored. */
  lemma SucessoEstaGravado(s0: Sistema, ordem: seq<nat>, i: nat)
    requires Inicial(s0) && i < |s0.clientes| && Rodar(s0, ordem).clientes[i].fase.Respondida?
    ensures var s := Rodar(s0, ordem);
            var (op, r) := (s.clientes[i].op, s.clientes[i].fase.resposta);
            && (Sucesso(r) && Entregas.ChaveDe(op).Some? ==>
                  Entregas.Gravada(s.banco, Entregas.ChaveDe(op).value)
                  || exists k: nat :: k < |s.feitas| && s.feitas[k].cliente == i && op.OpAprovacao?
                                      && RunSurgiu(s.banco, op, s.feitas[k].resposta, r))
            && (op.OpCriar? ==> r != Recusado(NaoEncontrado))
            && (op.OpCriar? && r.Run? ==> r.id in s.banco.runs && s.banco.runs[r.id].entrega == op.novo.entrega)
  {
    TodaIntercalacaoMantemInv(s0, ordem);
    RespostasNosLugares(Rodar(s0, ordem));
    SucessoNoLugar(Rodar(s0, ordem), i);
  }

  lemma SucessoNoLugar(s: Sistema, i: nat)
    requires Inv(s) && i < |s.clientes| && s.clientes[i].fase.Respondida?
    requires exists k: nat :: k < |s.feitas| && RespondeuNoLugar(s, i, k)
    ensures var (op, r) := (s.clientes[i].op, s.clientes[i].fase.resposta);
            && (Sucesso(r) && Entregas.ChaveDe(op).Some? ==>
                  Entregas.Gravada(s.banco, Entregas.ChaveDe(op).value)
                  || exists k: nat :: k < |s.feitas| && s.feitas[k].cliente == i && op.OpAprovacao?
                                      && RunSurgiu(s.banco, op, s.feitas[k].resposta, r))
            && (op.OpCriar? ==> r != Recusado(NaoEncontrado))
            && (op.OpCriar? && r.Run? ==> r.id in s.banco.runs && s.banco.runs[r.id].entrega == op.novo.entrega)
  {
    var (op, r) := (s.clientes[i].op, s.clientes[i].fase.resposta);
    var k: nat :| k < |s.feitas| && RespondeuNoLugar(s, i, k);
    assert LugarCoerente(s.banco, s.clientes[i], s.feitas[k]);
    assert NoLugar(s.feitas, k);
    if op.OpCriar? {
      CriarNuncaFalta(Antes(s.feitas, k), op);
      if r.Run? {
        RunRespondido(s, k);
      }
    }
    if Sucesso(r) && Entregas.ChaveDe(op).Some? && r == s.feitas[k].resposta {
      MesmaChave(s.banco, s.clientes[i], s.feitas[k].op, r);
      LugarGravado(s, k);
    }
  }

  lemma CriarNuncaFalta(b: Banco, op: Operacao)
    requires EntregasUnicas(b.runs) && op.OpCriar?
    ensures Aplicar(b, op).1 != Recusado(NaoEncontrado)
  {
  }

  lemma MesmaChave(b: Banco, c: Cliente, op: Operacao, r: Resposta)
    requires DoCliente(b, c, op) && Entregas.ChaveDe(c.op).Some?
    ensures Entregas.ChaveDe(op) == Entregas.ChaveDe(c.op)
  {
  }

  // ---- One delivery, one run ----

  predicate RespondeuComRun(c: Cliente) {
    c.op.OpCriar? && c.fase.Respondida? && c.fase.resposta.Run?
  }

  predicate Criou(c: Cliente, id: Uuid) {
    c.op.OpCriar? && c.fase == Respondida(Run(id, true))
  }

  /** A run comes from the one place that created it. */
  lemma {:induction false} RunTemLugar(s: Sistema, id: Uuid, n: nat) returns (k: nat)
    requires Sequencia(s) && n <= |s.feitas| && id in Antes(s.feitas, n).runs
    ensures k < n && s.feitas[k].op.OpCriar? && s.feitas[k].resposta == Run(id, true)
  {
    assert s.feitas[..0] == [];
    assert n > 0;
    AntesSegue(s.feitas, n - 1);
    var b, op := Antes(s.feitas, n - 1), s.feitas[n - 1].op;
    if id in b.runs {
      k := RunTemLugar(s, id, n - 1);
    } else {
      k := n - 1;
      assert NoLugar(s.feitas, k);
      SoCriarCria(b, op, id);
    }
  }

  lemma SoCriarCria(b: Banco, op: Operacao, id: Uuid)
    requires EntregasUnicas(b.runs) && id !in b.runs && id in Aplicar(b, op).0.runs
    ensures op.OpCriar? && op.id == id && Aplicar(b, op).1 == Run(id, true)
    ensures NovoTaskRunValido(op.novo) && PorEntrega(b.runs, op.novo.entrega).None?
  {
    if !op.OpCriar? && !op.OpTransicionar? {
      Historico.OutrasNaoTocam(b, op);
    }
  }

  lemma UmSoCriador(s: Sistema, i: nat, j: nat)
    requires Inv(s) && i < |s.clientes| && j < |s.clientes|
    requires RespondeuComRun(s.clientes[i]) && RespondeuComRun(s.clientes[j])
    requires s.clientes[i].op.novo.entrega == s.clientes[j].op.novo.entrega
    ensures var (a, b) := (s.clientes[i].fase.resposta, s.clientes[j].fase.resposta);
            && a.id == b.id
            && (a.criado && b.criado ==> i == j)
            && (exists k: nat :: k < |s.clientes| && Criou(s.clientes[k], a.id))
  {
    var (a, b) := (s.clientes[i].fase.resposta, s.clientes[j].fase.resposta);
    var k := LugarDoRun(s, i);
    var l := LugarDoRun(s, j);
    RunRespondido(s, k);
    RunRespondido(s, l);
    assert s.banco.runs[a.id].entrega == s.banco.runs[b.id].entrega;
    if a.criado && b.criado {
      SoUmLugarCria(s, k, l);
    }
    AntesDoFim(s);
    var m := RunTemLugar(s, a.id, |s.feitas|);
    assert LugarCoerente(s.banco, s.clientes[s.feitas[m].cliente], s.feitas[m]);
    assert Criou(s.clientes[s.feitas[m].cliente], a.id);
  }

  lemma LugarDoRun(s: Sistema, i: nat) returns (k: nat)
    requires Inv(s) && i < |s.clientes| && RespondeuComRun(s.clientes[i])
    ensures k < |s.feitas| && s.feitas[k] == Feita(i, s.clientes[i].op, s.clientes[i].fase.resposta)
  {
    k :| k < |s.feitas| && s.feitas[k].cliente == i;
    assert LugarCoerente(s.banco, s.clientes[i], s.feitas[k]);
  }

  lemma SoUmLugarCria(s: Sistema, k: nat, l: nat)
    requires Sequencia(s) && k < |s.feitas| && l < |s.feitas|
    requires s.feitas[k].op.OpCriar? && s.feitas[l].op.OpCriar?
    requires s.feitas[k].resposta.Run? && s.feitas[k].resposta.criado && s.feitas[l].resposta == s.feitas[k].resposta
    ensures k == l
  {
    RunRespondido(s, k);
    RunRespondido(s, l);
    if k < l {
      AntesCresce(s.feitas, k + 1, l);
    } else if l < k {
      AntesCresce(s.feitas, l + 1, k);
    }
  }

  /** Of all the clients that deliver one pull request at once and are answered
      with a run, all are given the same one, and exactly one created it. */
  lemma UmSoCria(s0: Sistema, ordem: seq<nat>, i: nat, j: nat)
    requires Inicial(s0) && i < |s0.clientes| && j < |s0.clientes|
    requires RespondeuComRun(Rodar(s0, ordem).clientes[i]) && RespondeuComRun(Rodar(s0, ordem).clientes[j])
    requires Rodar(s0, ordem).clientes[i].op.novo.entrega == Rodar(s0, ordem).clientes[j].op.novo.entrega
    ensures var cs := Rodar(s0, ordem).clientes;
            var (a, b) := (cs[i].fase.resposta, cs[j].fase.resposta);
            && a.id == b.id
            && (a.criado && b.criado ==> i == j)
            && (exists k: nat :: k < |cs| && Criou(cs[k], a.id))
  {
    TodaIntercalacaoMantemInv(s0, ordem);
    UmSoCriador(Rodar(s0, ordem), i, j);
  }

  // ---- Transitions ----

  predicate Transicionou(f: Feita) {
    f.op.OpTransicionar? && f.resposta.Run?
  }

  /** The places of the transitions that were made, in order. */
  function Transicoes(feitas: seq<Feita>): seq<Feita> {
    if feitas == [] then []
    else
      var antes, f := Transicoes(feitas[..|feitas| - 1]), feitas[|feitas| - 1];
      if Transicionou(f) then antes + [f] else antes
  }

  predicate EtapaDe(e: Etapa, f: Feita) {
    f.op.OpTransicionar? && e.run == f.op.run && e.de == f.op.de && e.para == f.op.para && e.detalhe == f.op.detalhe
  }

  predicate EtapasDe(etapas: seq<Etapa>, ts: seq<Feita>) {
    |etapas| == |ts| && forall m :: 0 <= m < |ts| ==> EtapaDe(etapas[m], ts[m])
  }

  lemma UmaTransicaoAMais(feitas: seq<Feita>, k: nat)
    requires k < |feitas|
    ensures Transicoes(feitas[..k + 1]) == Transicoes(feitas[..k]) + (if Transicionou(feitas[k]) then [feitas[k]] else [])
  {
    assert feitas[..k + 1][..k] == feitas[..k];
  }

  lemma EtapasDoPasso(b: Banco, op: Operacao)
    requires EntregasUnicas(b.runs)
    ensures var (c, r) := Aplicar(b, op);
            && (op.OpTransicionar? && r.Run? ==>
                  && op.run in b.runs && b.runs[op.run].estado == op.de
                  && c.etapas == b.etapas + [Etapa(b.runs[op.run].tenant, op.run, op.de, op.para, op.detalhe)])
            && (!(op.OpTransicionar? && r.Run?) ==> c.etapas == b.etapas)
  {
    if op.OpTransicionar? {
      assert Aplicar(b, op) == Transicionar(b, op.run, op.de, op.para, op.detalhe, op.agora);
    } else if !op.OpCriar? {
      Historico.OutrasNaoTocam(b, op);
    }
  }

  lemma {:induction false} EtapasAte(s: Sistema, n: nat)
    requires Sequencia(s) && n <= |s.feitas|
    ensures EtapasDe(Antes(s.feitas, n).etapas, Transicoes(s.feitas[..n]))
  {
    if n == 0 {
      assert s.feitas[..0] == [];
    } else {
      EtapasAte(s, n - 1);
      AntesSegue(s.feitas, n - 1);
      UmaTransicaoAMais(s.feitas, n - 1);
      assert NoLugar(s.feitas, n - 1);
      EtapasDoPasso(Antes(s.feitas, n - 1), s.feitas[n - 1].op);
    }
  }

  lemma {:induction false} TransicoesSaoFeitas(feitas: seq<Feita>, m: nat) returns (k: nat)
    requires m < |Transicoes(feitas)|
    ensures k < |feitas| && Transicoes(feitas)[m] == feitas[k] && Transicionou(feitas[k])
  {
    var antes := feitas[..|feitas| - 1];
    if m < |Transicoes(antes)| {
      k := TransicoesSaoFeitas(antes, m);
    } else {
      k := |feitas| - 1;
    }
  }

  lemma {:induction false} FeitaEstaNasTransicoes(feitas: seq<Feita>, k: nat) returns (m: nat)
    requires k < |feitas| && Transicionou(feitas[k])
    ensures m < |Transicoes(feitas)| && Transicoes(feitas)[m] == feitas[k]
  {
    var antes := feitas[..|feitas| - 1];
    if k < |antes| {
      m := FeitaEstaNasTransicoes(antes, k);
    } else {
      m := |Transicoes(antes)|;
    }
  }

  predicate Transicionador(c: Cliente, run: Uuid) {
    c.op.OpTransicionar? && c.op.run == run && c.fase == Respondida(Run(run, false))
  }

  /** A client answered with its transition has a place among those made. */
  lemma LugarDaTransicao(s: Sistema, i: nat, run: Uuid) returns (m: nat)
    requires Inv(s) && i < |s.clientes| && Transicionador(s.clientes[i], run)
    ensures m < |Transicoes(s.feitas)| && Transicoes(s.feitas)[m].cliente == i && Transicoes(s.feitas)[m].op == s.clientes[i].op
  {
    var k: nat :| k < |s.feitas| && s.feitas[k].cliente == i;
    assert LugarCoerente(s.banco, s.clientes[i], s.feitas[k]);
    m := FeitaEstaNasTransicoes(s.feitas, k);
  }

  /** A transition made belongs to a client that was answered with it. */
  lemma DonoDaTransicao(s: Sistema, m: nat)
    requires Inv(s) && m < |Transicoes(s.feitas)|
    ensures var f := Transicoes(s.feitas)[m];
            f.op.OpTransicionar? && f.cliente < |s.clientes| && s.clientes[f.cliente].op == f.op
            && Transicionador(s.clientes[f.cliente], f.op.run)
  {
    var k := TransicoesSaoFeitas(s.feitas, m);
    assert LugarCoerente(s.banco, s.clientes[s.feitas[k].cliente], s.feitas[k]);
    assert NoLugar(s.feitas, k);
    TransicaoRespondeORun(Antes(s.feitas, k), s.feitas[k].op);
  }

  lemma TransicaoRespondeORun(b: Banco, op: Operacao)
    requires EntregasUnicas(b.runs) && op.OpTransicionar?
    ensures Aplicar(b, op).1.Run? ==> Aplicar(b, op).1 == Run(op.run, false)
  {
  }

  /** The steps stored are, one by one and in order, the transitions of the clients
      that were answered with them: each such client owns exactly one step, and
      each step has exactly one owner. */
  lemma EtapasTemDono(s0: Sistema, ordem: seq<nat>)
    requires Inicial(s0)
    ensures var s := Rodar(s0, ordem);
            var ts := Transicoes(s.feitas);
            && EtapasDe(s.banco.etapas, ts)
            && (forall m :: 0 <= m < |ts| ==> ts[m].cliente < |s.clientes| && s.clientes[ts[m].cliente].op == ts[m].op
                                              && ts[m].op.OpTransicionar? && Transicionador(s.clientes[ts[m].cliente], ts[m].op.run))
            && (forall i: nat, run :: i < |s.clientes| && Transicionador(s.clientes[i], run) ==>
                  exists m: nat :: m < |ts| && ts[m].cliente == i)
            && (forall m, n :: 0 <= m < n < |ts| ==> ts[m].cliente != ts[n].cliente)
  {
    TodaIntercalacaoMantemInv(s0, ordem);
    EtapasComDono(Rodar(s0, ordem));
  }

  lemma EtapasAoFim(s: Sistema)
    requires Sequencia(s)
    ensures EtapasDe(s.banco.etapas, Transicoes(s.feitas))
  {
    EtapasAte(s, |s.feitas|);
    AntesDoFim(s);
    assert s.feitas[..|s.feitas|] == s.feitas;
  }

  lemma EtapasComDono(s: Sistema)
    requires Inv(s)
    ensures var ts := Transicoes(s.feitas);
            && EtapasDe(s.banco.etapas, ts)
            && (forall m :: 0 <= m < |ts| ==> ts[m].cliente < |s.clientes| && s.clientes[ts[m].cliente].op == ts[m].op
                                              && ts[m].op.OpTransicionar? && Transicionador(s.clientes[ts[m].cliente], ts[m].op.run))
            && (forall i: nat, run :: i < |s.clientes| && Transicionador(s.clientes[i], run) ==>
                  exists m: nat :: m < |ts| && ts[m].cliente == i)
            && (forall m, n :: 0 <= m < n < |ts| ==> ts[m].cliente != ts[n].cliente)
  {
    var ts := Transicoes(s.feitas);
    EtapasAoFim(s);
    forall m | 0 <= m < |ts|
      ensures ts[m].cliente < |s.clientes| && s.clientes[ts[m].cliente].op == ts[m].op
      ensures ts[m].op.OpTransicionar? && Transicionador(s.clientes[ts[m].cliente], ts[m].op.run)
    {
      DonoDaTransicao(s, m);
    }
    forall i: nat, run | i < |s.clientes| && Transicionador(s.clientes[i], run)
      ensures exists m: nat :: m < |ts| && ts[m].cliente == i
    {
      var m := LugarDaTransicao(s, i, run);
    }
    DonosDistintos(s.feitas);
  }

  lemma {:induction false} DonosDistintos(feitas: seq<Feita>)
    requires forall k, l :: 0 <= k < l < |feitas| ==> feitas[k].cliente != feitas[l].cliente
    ensures forall m, n :: 0 <= m < n < |Transicoes(feitas)| ==> Transicoes(feitas)[m].cliente != Transicoes(feitas)[n].cliente
  {
    if feitas != [] {
      var antes := feitas[..|feitas| - 1];
      DonosDistintos(antes);
      forall m | 0 <= m < |Transicoes(antes)|
        ensures Transicoes(antes)[m].cliente != feitas[|feitas| - 1].cliente
      {
        var k := TransicoesSaoFeitas(antes, m);
        assert antes[k] == feitas[k];
      }
    }
  }

  // ---- Racing from one state ----

  /** What one place does to the state of a run. */
  lemma EstadoNoLugar(s: Sistema, k: nat, run: Uuid)
    requires Sequencia(s) && k < |s.feitas| && run in Antes(s.feitas, k).runs
    ensures run in Antes(s.feitas, k + 1).runs
    ensures var (antes, depois) := (Antes(s.feitas, k).runs[run].estado, Antes(s.feitas, k + 1).runs[run].estado);
            var f := s.feitas[k];
            && (Transicionou(f) && f.op.run == run ==> f.op.de == antes && f.op.para == depois)
            && (!(Transicionou(f) && f.op.run == run) ==> depois == antes)
  {
    AntesSegue(s.feitas, k);
    assert NoLugar(s.feitas, k);
    EstadoDoPasso(Antes(s.feitas, k), s.feitas[k].op, run);
  }

  lemma EstadoDoPasso(b: Banco, op: Operacao, run: Uuid)
    requires EntregasUnicas(b.runs) && run in b.runs
    ensures var (c, r) := Aplicar(b, op);
            && run in c.runs
            && (op.OpTransicionar? && r.Run? && op.run == run ==> op.de == b.runs[run].estado && op.para == c.runs[run].estado)
            && (!(op.OpTransicionar? && r.Run? && op.run == run) ==> c.runs[run].estado == b.runs[run].estado)
  {
    if op.OpTransicionar? {
      assert Aplicar(b, op) == Transicionar(b, op.run, op.de, op.para, op.detalhe, op.agora);
    } else if !op.OpCriar? {
      Historico.OutrasNaoTocam(b, op);
    }
  }

  /** What holds at `k` and not at `l` ceases at one step in between. */
  lemma {:induction false} Cessa(p: nat -> bool, k: nat, l: nat) returns (m: nat)
    requires k <= l && p(k) && !p(l)
    ensures k <= m < l && p(m) && !p(m + 1)
    decreases l - k
  {
    if p(k + 1) {
      m := Cessa(p, k + 1, l);
    } else {
      m := k;
    }
  }

  /** The states a run goes through, None before it exists, linked by the
      transitions made. */
  predicate Ligados(es: seq<Option<Estado>>, feitas: seq<Feita>, run: Uuid) {
    && |es| == |feitas| + 1
    && forall n :: 0 <= n < |feitas| && es[n].Some? ==> Ligado(es[n].value, feitas[n], es[n + 1], run)
  }

  predicate Ligado(antes: Estado, f: Feita, depois: Option<Estado>, run: Uuid) {
    if Transicionou(f) && f.op.run == run then f.op.de == antes && depois == Some(f.op.para) else depois == Some(antes)
  }

  function EstadosDe(feitas: seq<Feita>, run: Uuid): seq<Option<Estado>> {
    seq(|feitas| + 1, n requires 0 <= n <= |feitas| => EstadoEm(Antes(feitas, n), run))
  }

  function EstadoEm(b: Banco, run: Uuid): Option<Estado> {
    if run in b.runs then Some(b.runs[run].estado) else None
  }

  lemma EstadosLigados(s: Sistema, run: Uuid)
    requires Sequencia(s)
    ensures Ligados(EstadosDe(s.feitas, run), s.feitas, run)
  {
    var es := EstadosDe(s.feitas, run);
    forall n | 0 <= n < |s.feitas| && es[n].Some?
      ensures Ligado(es[n].value, s.feitas[n], es[n + 1], run)
    {
      EstadoNoLugar(s, n, run);
    }
  }

  /** A run leaves a state only by a transition out of it. */
  lemma AlgumaSaida(es: seq<Option<Estado>>, feitas: seq<Feita>, k: nat, l: nat, run: Uuid, estado: Estado) returns (m: nat)
    requires Ligados(es, feitas, run) && k <= l <= |feitas| && es[k] == Some(estado) && es[l] != Some(estado)
    ensures k <= m < l && Transicionou(feitas[m]) && feitas[m].op.run == run && feitas[m].op.de == estado
  {
    m := Cessa((n: nat) => n < |es| && es[n] == Some(estado), k, l);
  }

  /** And enters one only by a transition into it. */
  lemma AlgumaEntrada(es: seq<Option<Estado>>, feitas: seq<Feita>, k: nat, l: nat, run: Uuid, estado: Estado) returns (m: nat)
    requires Ligados(es, feitas, run) && k <= l <= |feitas| && es[k].Some? && es[k] != Some(estado) && es[l] == Some(estado)
    ensures k <= m < l && Transicionou(feitas[m]) && feitas[m].op.run == run && feitas[m].op.para == estado
  {
    m := Cessa((n: nat) => n < |es| && es[n].Some? && es[n] != Some(estado), k, l);
    assert Ligado(es[m].value, feitas[m], es[m + 1], run);
  }

  /** At place `m` a transition took the run out of the state. */
  predicate SaiuDe(s: Sistema, m: nat, run: Uuid, estado: Estado) {
    m < |s.feitas| && Transicionou(s.feitas[m]) && s.feitas[m].op.run == run && s.feitas[m].op.de == estado
  }

  /** Strictly between the places `m` and `n`, a client other than theirs brought
      the run back into the state, and was answered with that transition. */
  ghost predicate VoltouEntre(s: Sistema, m: nat, n: nat, run: Uuid, estado: Estado)
    requires m < |s.feitas| && n < |s.feitas|
  {
    exists k: nat ::
      && m < k < n && Transicionou(s.feitas[k]) && s.feitas[k].op.run == run && s.feitas[k].op.para == estado
      && s.feitas[k].cliente != s.feitas[m].cliente && s.feitas[k].cliente != s.feitas[n].cliente
      && s.feitas[k].cliente < |s.clientes| && Transicionador(s.clientes[s.feitas[k].cliente], run)
  }

  lemma VoltaEntreSaidas(s: Sistema, m: nat, n: nat, run: Uuid, estado: Estado)
    requires Inv(s) && m < n && SaiuDe(s, m, run, estado) && SaiuDe(s, n, run, estado)
    requires s.feitas[m].op.para != estado
    ensures VoltouEntre(s, m, n, run, estado)
  {
    var es := EstadosDe(s.feitas, run);
    TransicionouDe(s, m);
    TransicionouDe(s, n);
    EstadosLigados(s, run);
    assert es[m].Some? && es[n].Some?;
    assert Ligado(es[m].value, s.feitas[m], es[m + 1], run) && Ligado(es[n].value, s.feitas[n], es[n + 1], run);
    var k := AlgumaEntrada(es, s.feitas, m + 1, n, run, estado);
    LugarDoProprio(s, k);
    TransicionouDe(s, k);
  }

  lemma TransicionouDe(s: Sistema, k: nat)
    requires Sequencia(s) && k < |s.feitas| && Transicionou(s.feitas[k])
    ensures s.feitas[k].op.run in Antes(s.feitas, k).runs && s.feitas[k].resposta == Run(s.feitas[k].op.run, false)
  {
    assert NoLugar(s.feitas, k);
    TransicaoRespondeORun(Antes(s.feitas, k), s.feitas[k].op);
    EtapasDoPasso(Antes(s.feitas, k), s.feitas[k].op);
  }

  /** Of the clients that race to take a run out of one state, two are answered
      with the transition only if the one that came first stayed in the state (its
      step was a loop), or a third was answered with one that brought the run back
      after the first and before the second. */
  lemma UmSoTransiciona(s0: Sistema, ordem: seq<nat>, s: Sistema, i: nat, j: nat, run: Uuid)
    requires Inicial(s0) && s == Rodar(s0, ordem) && i < |s.clientes| && j < |s.clientes| && i != j
    requires Transicionador(s.clientes[i], run) && Transicionador(s.clientes[j], run)
    requires s.clientes[i].op.de == s.clientes[j].op.de
    ensures exists m: nat, n: nat :: DuasSaidas(s, m, n, i, j, run, s.clientes[i].op.de)
  {
    TodaIntercalacaoMantemInv(s0, ordem);
    DoisTransicionaram(s, i, j, run);
  }

  /** The places of the two, in order, and what lies between them. */
  ghost predicate DuasSaidas(s: Sistema, m: nat, n: nat, i: nat, j: nat, run: Uuid, estado: Estado) {
    && m < n && SaiuDe(s, m, run, estado) && SaiuDe(s, n, run, estado)
    && ((s.feitas[m].cliente == i && s.feitas[n].cliente == j) || (s.feitas[m].cliente == j && s.feitas[n].cliente == i))
    && (s.feitas[m].op.para == estado || VoltouEntre(s, m, n, run, estado))
  }

  lemma LugarDaSaida(s: Sistema, i: nat, run: Uuid) returns (k: nat)
    requires Inv(s) && i < |s.clientes| && Transicionador(s.clientes[i], run)
    ensures k < |s.feitas| && s.feitas[k].cliente == i && s.feitas[k].op == s.clientes[i].op
    ensures SaiuDe(s, k, run, s.clientes[i].op.de)
  {
    k :| k < |s.feitas| && s.feitas[k].cliente == i;
    assert LugarCoerente(s.banco, s.clientes[i], s.feitas[k]);
  }

  lemma DoisTransicionaram(s: Sistema, i: nat, j: nat, run: Uuid)
    requires Inv(s) && i < |s.clientes| && j < |s.clientes| && i != j
    requires Transicionador(s.clientes[i], run) && Transicionador(s.clientes[j], run)
    requires s.clientes[i].op.de == s.clientes[j].op.de
    ensures exists m: nat, n: nat :: DuasSaidas(s, m, n, i, j, run, s.clientes[i].op.de)
  {
    var estado := s.clientes[i].op.de;
    var a := LugarDaSaida(s, i, run);
    var b := LugarDaSaida(s, j, run);
    var m, n := if a < b then a else b, if a < b then b else a;
    if s.feitas[m].op.para != estado {
      VoltaEntreSaidas(s, m, n, run, estado);
    }
    assert DuasSaidas(s, m, n, i, j, run, estado);
  }

  /** If nobody asks for a transition of the run into the state, loops included, at
      most one of the racers wins. */
  lemma UmVencedor(s0: Sistema, ordem: seq<nat>, s: Sistema, i: nat, j: nat, run: Uuid)
    requires Inicial(s0) && s == Rodar(s0, ordem) && i < |s.clientes| && j < |s.clientes|
    requires Transicionador(s.clientes[i], run) && Transicionador(s.clientes[j], run)
    requires s.clientes[i].op.de == s.clientes[j].op.de
    requires forall k :: 0 <= k < |s.clientes| && s.clientes[k].op.OpTransicionar? && s.clientes[k].op.run == run ==>
               s.clientes[k].op.para != s.clientes[i].op.de
    ensures i == j
  {
    if i != j {
      TodaIntercalacaoMantemInv(s0, ordem);
      UmSoTransiciona(s0, ordem, s, i, j, run);
      SemVolta(s, i, j, run, s.clientes[i].op.de);
      assert false;
    }
  }

  lemma SemVolta(s: Sistema, i: nat, j: nat, run: Uuid, estado: Estado)
    requires Inv(s)
    requires forall k :: 0 <= k < |s.clientes| && s.clientes[k].op.OpTransicionar? && s.clientes[k].op.run == run ==>
               s.clientes[k].op.para != estado
    ensures !exists m: nat, n: nat :: DuasSaidas(s, m, n, i, j, run, estado)
  {
    forall k: nat | k < |s.feitas| && Transicionou(s.feitas[k]) && s.feitas[k].op.run == run
      ensures s.feitas[k].op.para != estado
    {
      LugarDoProprio(s, k);
    }
  }

  predicate Disputa(c: Cliente, run: Uuid, estado: Estado) {
    c.op.OpTransicionar? && c.op.run == run && c.op.de == estado && |c.op.detalhe| <= 4000
  }

  /** And somebody wins: once one of the clients that race to take a run out of the
      state it is in has its answer, one of those that had decided nothing when
      the race began was answered with the transition. */
  lemma AlguemTransiciona(s0: Sistema, antes: seq<nat>, depois: seq<nat>, t: Sistema, u: Sistema, i: nat, run: Uuid, estado: Estado)
    requires Inicial(s0) && t == Rodar(s0, antes) && u == Rodar(s0, antes + depois) && i < |t.clientes|
    requires run in t.banco.runs && t.banco.runs[run].estado == estado
    requires SemLugar(t.clientes[i].fase) && Disputa(t.clientes[i], run, estado)
    requires i < |u.clientes| && u.clientes[i].fase.Respondida?
    ensures exists k: nat :: k < |t.clientes| && k < |u.clientes| && SemLugar(t.clientes[k].fase)
                          && Transicionador(u.clientes[k], run) && u.clientes[k].op.de == estado
  {
    DoisMomentos(s0, antes, depois);
    AlguemVence(t, u, i, run, estado);
  }

  lemma DoisMomentos(s0: Sistema, antes: seq<nat>, depois: seq<nat>)
    requires Inicial(s0)
    ensures var (t, u) := (Rodar(s0, antes), Rodar(s0, antes + depois));
            && Inv(t) && Inv(u) && t.feitas <= u.feitas && |t.clientes| == |u.clientes|
            && (forall i :: 0 <= i < |t.clientes| ==> u.clientes[i].op == t.clientes[i].op)
  {
    TodaIntercalacaoMantemInv(s0, antes);
    TodaIntercalacaoMantemInv(s0, antes + depois);
    RodarEmPartes(s0, antes, depois);
    FeitasCrescem(Rodar(s0, antes), depois);
    forall i | 0 <= i < |Rodar(s0, antes).clientes|
      ensures Rodar(s0, antes + depois).clientes[i].op == Rodar(s0, antes).clientes[i].op
    {
      OperacaoNaoMuda(Rodar(s0, antes), depois, i);
    }
  }

  lemma AlguemVence(t: Sistema, u: Sistema, i: nat, run: Uuid, estado: Estado)
    requires Lugares(t) && Sequencia(t) && Lugares(u) && Sequencia(u)
    requires t.feitas <= u.feitas && |t.clientes| == |u.clientes| && i < |t.clientes|
    requires run in t.banco.runs && t.banco.runs[run].estado == estado
    requires SemLugar(t.clientes[i].fase) && u.clientes[i].op == t.clientes[i].op && Disputa(u.clientes[i], run, estado)
    requires u.clientes[i].fase.Respondida?
    ensures exists k: nat :: k < |u.clientes| && Transicionador(u.clientes[k], run) && u.clientes[k].op.de == estado
                          && SemLugar(t.clientes[k].fase)
  {
    var l: nat :| l < |u.feitas| && u.feitas[l].cliente == i;
    LugarDoProprio(u, l);
    LugarNovo(t, u, l);
    assert u.feitas[..|t.feitas|] == t.feitas;
    var m := LugarDoVencedor(u, |t.feitas|, l, run, estado);
    LugarNovo(t, u, m);
    LugarDoProprio(u, m);
    assert NoLugar(u.feitas, m);
    TransicaoRespondeORun(Antes(u.feitas, m), u.feitas[m].op);
    assert Transicionador(u.clientes[u.feitas[m].cliente], run);
  }

  /** A transition stands at its place as its client's own operation, and has been
      answered if it was made. */
  lemma LugarDoProprio(s: Sistema, k: nat)
    requires Lugares(s) && k < |s.feitas|
    ensures var (f, c) := (s.feitas[k], s.clientes[s.feitas[k].cliente]);
            && (f.op.OpTransicionar? || c.op.OpTransicionar? ==> f.op == c.op)
            && (Transicionou(f) ==> c.fase == Respondida(f.resposta))
  {
    assert LugarCoerente(s.banco, s.clientes[s.feitas[k].cliente], s.feitas[k]);
  }

  /** The places after a moment are those of who had decided nothing by then. */
  lemma LugarNovo(t: Sistema, u: Sistema, l: nat)
    requires Lugares(t) && Lugares(u) && t.feitas <= u.feitas && |t.clientes| == |u.clientes| && l < |u.feitas|
    ensures |t.feitas| <= l <==> SemLugar(t.clientes[u.feitas[l].cliente].fase)
  {
    var i := u.feitas[l].cliente;
    assert forall n :: 0 <= n < |t.feitas| ==> u.feitas[n] == t.feitas[n];
    if SemLugar(t.clientes[i].fase) {
      IndecisoNaoTemLugar(t, i);
    } else {
      var n :| 0 <= n < |t.feitas| && t.feitas[n].cliente == i;
      assert u.feitas[n].cliente == i;
      assert n == l;
    }
  }

  /** From the start of the race to the place of one that raced, one left the
      state. */
  lemma LugarDoVencedor(u: Sistema, n: nat, l: nat, run: Uuid, estado: Estado) returns (m: nat)
    requires Sequencia(u) && n <= l < |u.feitas|
    requires run in Antes(u.feitas, n).runs && Antes(u.feitas, n).runs[run].estado == estado
    requires var op := u.feitas[l].op; op.OpTransicionar? && op.run == run && op.de == estado && |op.detalhe| <= 4000
    ensures n <= m <= l && Transicionou(u.feitas[m]) && u.feitas[m].op.run == run && u.feitas[m].op.de == estado
  {
    AntesCresce(u.feitas, n, l);
    assert NoLugar(u.feitas, l);
    var b, op := Antes(u.feitas, l), u.feitas[l].op;
    assert Aplicar(b, op) == Transicionar(b, op.run, op.de, op.para, op.detalhe, op.agora);
    if b.runs[run].estado == estado {
      m := l;
    } else {
      EstadosLigados(u, run);
      m := AlgumaSaida(EstadosDe(u.feitas, run), u.feitas, n, l, run, estado);
    }
  }
}
