/** The answers of the repository that can be wrong. RegistrarAprovacao and
    TransicionarTaskRun write in one statement and check in another whether the
    run exists (internal/repository/postgres.go): if it is created in between, an
    approval is answered as stored that is not, and a transition as concurrent
    though the run never left the state. */
module RespostasErradas {
  import opened Comum
  import opened Tabelas
  import opened Operacoes
  import opened Intercalacoes
  import Corridas

  // ---- On the tables ----

  /** The answer to the check, with the operations `entre` in between. */
  predicate PerdidaEntre(b: Banco, a: Aprovacao, entre: seq<Operacao>)
    requires EntregasUnicas(b.runs)
  {
    && Aprovar(b, a).fase.AConferir?
    && a.run in Executar(b, entre).runs
    && a.entrega !in Executar(b, entre).aprovacoes
  }

  /** Before the call: some operations in between make an approval be answered as
      stored and not be in the tables then, exactly when it is valid, its run does
      not exist and its delivery is not stored. `novo` is any delivery not yet
      received. */
  lemma QuandoPodeSePerder(b: Banco, a: Aprovacao, novo: NovoTaskRun, agora: Instante)
    requires EntregasUnicas(b.runs) && NovoTaskRunValido(novo) && PorEntrega(b.runs, novo.entrega).None?
    ensures (exists entre :: PerdidaEntre(b, a, entre)) <==>
            AprovacaoValida(a) && a.run !in b.runs && a.entrega !in b.aprovacoes
  {
    if AprovacaoValida(a) && a.run !in b.runs && a.entrega !in b.aprovacoes {
      UmaOperacao(b, OpCriar(novo, a.run, agora));
      assert PerdidaEntre(b, a, [OpCriar(novo, a.run, agora)]);
    }
    forall entre | PerdidaEntre(b, a, entre)
      ensures AprovacaoValida(a) && a.run !in b.runs && a.entrega !in b.aprovacoes
    {
      ExecutarSoCresce(b, entre);
    }
  }

  // ---- On the clients ----

  /** The client was answered as stored, and nothing with its delivery is. */
  predicate Perdeu(s: Sistema, i: nat) {
    && i < |s.clientes| && s.clientes[i].op.OpAprovacao?
    && s.clientes[i].fase == Respondida(Feito)
    && s.clientes[i].op.aprovacao.entrega !in s.banco.aprovacoes
  }

  /** A client that has not begun and would create the run `id`. */
  predicate PodeCriar(b: Banco, c: Cliente, id: Uuid)
    requires EntregasUnicas(b.runs)
  {
    && c.fase.AComecar? && c.op.OpCriar? && c.op.id == id
    && NovoTaskRunValido(c.op.novo) && PorEntrega(b.runs, c.op.novo.entrega).None?
  }

  predicate EmRisco(s: Sistema, i: nat, k: nat)
    requires EntregasUnicas(s.banco.runs)
  {
    && i < |s.clientes| && s.clientes[i].op.OpAprovacao?
    && var a := s.clientes[i].op.aprovacao;
       && AprovacaoValida(a) && a.run !in s.banco.runs && a.entrega !in s.banco.aprovacoes
       && k < |s.clientes| && PodeCriar(s.banco, s.clientes[k], a.run)
  }

  /** What an approving client knows of its approval. */
  predicate Acompanhada(b: Banco, c: Cliente) {
    && c.op.OpAprovacao?
    && match c.fase
       case AComecar => true
       case AConferir(a) => a == c.op.aprovacao && AprovacaoValida(a)
       case Respondida(r) =>
         r == Feito ==> AprovacaoValida(c.op.aprovacao)
                        && (c.op.aprovacao.entrega in b.aprovacoes || c.op.aprovacao.run in b.runs)
       case _ => false
  }

  lemma PassoAcompanhado(s: Sistema, i: nat, k: nat)
    requires Coerente(s) && i < |s.clientes| && k < |s.clientes| && Acompanhada(s.banco, s.clientes[i])
    ensures Acompanhada(Passo(s, k).banco, Passo(s, k).clientes[i])
  {
    InstrucaoRespeita(s.clientes, s.banco, s.clientes[k], 0);
  }

  /** Nothing begins again, and no client changes what it asks. */
  lemma PassoNaoRecomeca(s: Sistema, k: nat, j: nat)
    requires Coerente(s) && k < |s.clientes| && j < |s.clientes|
    ensures var t := Passo(s, k);
            t.clientes[j].op == s.clientes[j].op && (t.clientes[j].fase.AComecar? ==> s.clientes[j].fase.AComecar?)
  {
  }

  lemma {:induction false} Historia(s: Sistema, ordem: seq<nat>, j: nat)
    requires Coerente(s) && j < |s.clientes|
    ensures var t := Rodar(s, ordem);
            && SoCresce(s.banco, t.banco)
            && t.clientes[j].op == s.clientes[j].op && (t.clientes[j].fase.AComecar? ==> s.clientes[j].fase.AComecar?)
  {
    SoCresceTrivial(s.banco);
    if ordem != [] {
      var antes, k := ordem[..|ordem| - 1], ordem[|ordem| - 1];
      Historia(s, antes, j);
      var t := Rodar(s, antes);
      if k < |t.clientes| {
        PassoNaoRecomeca(t, k, j);
        InstrucaoRespeita(t.clientes, t.banco, t.clientes[k], 0);
        SoCresceTransitivo(s.banco, t.banco, Passo(t, k).banco);
      }
    }
  }

  lemma {:induction false} AcompanhadaSegue(s: Sistema, ordem: seq<nat>, i: nat)
    requires Coerente(s) && i < |s.clientes| && Acompanhada(s.banco, s.clientes[i])
    ensures Acompanhada(Rodar(s, ordem).banco, Rodar(s, ordem).clientes[i])
  {
    if ordem != [] {
      AcompanhadaSegue(s, ordem[..|ordem| - 1], i);
      var t, k := Rodar(s, ordem[..|ordem| - 1]), ordem[|ordem| - 1];
      if k < |t.clientes| {
        PassoAcompanhado(t, i, k);
      }
    }
  }

  /** A run that appears was created by a client that could. */
  lemma {:induction false} RunNovoTemCriador(s: Sistema, ordem: seq<nat>, id: Uuid) returns (k: nat)
    requires Coerente(s) && id !in s.banco.runs && id in Rodar(s, ordem).banco.runs
    ensures k < |s.clientes| && PodeCriar(s.banco, s.clientes[k], id)
  {
    var antes := ordem[..|ordem| - 1];
    var t := Rodar(s, antes);
    if id in t.banco.runs {
      k := RunNovoTemCriador(s, antes, id);
    } else {
      k := ordem[|ordem| - 1];
      Historia(s, antes, k);
      QuemCria(t, k, id);
      SemEntregaAntes(s.banco, t.banco, s.clientes[k].op.novo.entrega);
    }
  }

  lemma SemEntregaAntes(b: Banco, d: Banco, entrega: string)
    requires EntregasUnicas(b.runs) && EntregasUnicas(d.runs) && SoCresce(b, d) && PorEntrega(d.runs, entrega).None?
    ensures PorEntrega(b.runs, entrega).None?
  {
    forall id | id in b.runs
      ensures b.runs[id].entrega != entrega
    {
      assert MesmaLinha(b.runs[id], d.runs[id]);
    }
  }

  lemma QuemCria(s: Sistema, k: nat, id: Uuid)
    requires Coerente(s) && k < |s.clientes| && id !in s.banco.runs && id in Passo(s, k).banco.runs
    ensures PodeCriar(s.banco, s.clientes[k], id)
  {
    var c := s.clientes[k];
    InstrucaoInteira(s.clientes, s.banco, c);
    var x := Executada(s.clientes, s.banco, c);
    Corridas.SoCriarCria(s.banco, x.feita.value.0, id);
    SoComecandoDecideCriar(s, k);
  }

  lemma SoComecandoDecideCriar(s: Sistema, k: nat)
    requires Coerente(s) && k < |s.clientes|
    requires var f := Executada(s.clientes, s.banco, s.clientes[k]).feita; f.Some? && f.value.0.OpCriar?
    ensures s.clientes[k].fase.AComecar? && Executada(s.clientes, s.banco, s.clientes[k]).feita.value.0 == s.clientes[k].op
  {
    if s.clientes[k].fase.AComecar? {
      ComecarInteira(s.clientes, s.banco, s.clientes[k].op);
    }
  }

  /** Client `i` acts, then `k`, then `i` again. */
  function Vezes(i: nat, k: nat): seq<nat> {
    [i] + ([k] + [i])
  }

  lemma UmPasso(s: Sistema, i: nat)
    requires Coerente(s) && i < |s.clientes|
    ensures Coerente(Passo(s, i)) && Rodar(s, [i]) == Passo(s, i)
  {
    PassoCoerente(s, i);
    assert [i][..0] == [];
    assert Rodar(s, []) == s;
  }

  lemma TresPassos(s: Sistema, i: nat, k: nat)
    requires Coerente(s) && i < |s.clientes| && k < |s.clientes|
    ensures Coerente(Passo(s, i)) && Coerente(Passo(Passo(s, i), k))
    ensures Rodar(s, Vezes(i, k)) == Passo(Passo(Passo(s, i), k), i)
  {
    UmPasso(s, i);
    UmPasso(Passo(s, i), k);
    UmPasso(Passo(Passo(s, i), k), i);
    RodarEmPartes(s, [i], [k] + [i]);
    RodarEmPartes(Passo(s, i), [k], [i]);
  }

  /** Two statements of the approving client, with the creation in between. */
  lemma PerdeEntreOsDois(s: Sistema, i: nat, k: nat)
    requires Coerente(s) && i < |s.clientes| && s.clientes[i].fase.AComecar? && EmRisco(s, i, k)
    ensures Perdeu(Rodar(s, Vezes(i, k)), i)
  {
    var a := s.clientes[i].op.aprovacao;
    TresPassos(s, i, k);
    InsercaoSemRun(s, i);
    CriaAgora(Passo(s, i), k, a.run);
    OutroNaoMuda(Passo(s, i), k, i);
    ConfereEPerde(Passo(Passo(s, i), k), i);
  }

  lemma InsercaoSemRun(s: Sistema, i: nat)
    requires Coerente(s) && i < |s.clientes| && s.clientes[i].fase.AComecar? && s.clientes[i].op.OpAprovacao?
    requires AprovacaoValida(s.clientes[i].op.aprovacao) && s.clientes[i].op.aprovacao.run !in s.banco.runs
    ensures var t := Passo(s, i);
            && t.banco == s.banco
            && t.clientes == s.clientes[i := s.clientes[i].(fase := AConferir(s.clientes[i].op.aprovacao))]
  {
  }

  lemma OutroNaoMuda(s: Sistema, k: nat, i: nat)
    requires Coerente(s) && k < |s.clientes| && i < |s.clientes| && k != i
    ensures Passo(s, k).clientes[i] == s.clientes[i]
  {
  }

  lemma ConfereEPerde(u: Sistema, i: nat)
    requires Coerente(u) && i < |u.clientes| && u.clientes[i].op.OpAprovacao?
    requires u.clientes[i].fase == AConferir(u.clientes[i].op.aprovacao)
    requires u.clientes[i].op.aprovacao.run in u.banco.runs && u.clientes[i].op.aprovacao.entrega !in u.banco.aprovacoes
    ensures Perdeu(Passo(u, i), i)
  {
  }

  lemma CriaAgora(s: Sistema, k: nat, id: Uuid)
    requires Coerente(s) && k < |s.clientes| && id !in s.banco.runs && PodeCriar(s.banco, s.clientes[k], id)
    ensures var b := Passo(s, k).banco;
            && id in b.runs && b.runs[id].estado == Pendente
            && b.aprovacoes == s.banco.aprovacoes && b.etapas == s.banco.etapas
  {
    var op := s.clientes[k].op;
    assert Aplicar(s.banco, op) == CriarTaskRun(s.banco, op.novo, op.id, op.agora);
  }

  lemma PerdaTemCausa(s: Sistema, ordem: seq<nat>, i: nat) returns (k: nat)
    requires Coerente(s) && i < |s.clientes| && s.clientes[i].fase.AComecar? && s.clientes[i].op.OpAprovacao?
    requires Perdeu(Rodar(s, ordem), i)
    ensures EmRisco(s, i, k)
  {
    var a := s.clientes[i].op.aprovacao;
    Historia(s, ordem, i);
    AcompanhadaSegue(s, ordem, i);
    if a.run in s.banco.runs {
      NaoSePerdeComRun(s, ordem, i);
      assert false;
    }
    k := RunNovoTemCriador(s, ordem, a.run);
  }

  /** An approval whose run exists when the client begins is not lost. */
  lemma {:induction false} NaoSePerdeComRun(s: Sistema, ordem: seq<nat>, i: nat)
    requires Coerente(s) && i < |s.clientes| && s.clientes[i].fase.AComecar? && s.clientes[i].op.OpAprovacao?
    requires s.clientes[i].op.aprovacao.run in s.banco.runs
    ensures Segura(Rodar(s, ordem).banco, Rodar(s, ordem).clientes[i])
  {
    if ordem != [] {
      var antes, k := ordem[..|ordem| - 1], ordem[|ordem| - 1];
      NaoSePerdeComRun(s, antes, i);
      var t := Rodar(s, antes);
      if k < |t.clientes| {
        PassoSeguro(t, i, k);
      }
    }
  }

  /** An approval that cannot be lost: its run exists until the INSERT, or it is
      already stored. */
  predicate Segura(b: Banco, c: Cliente) {
    && c.op.OpAprovacao?
    && match c.fase
       case AComecar => c.op.aprovacao.run in b.runs
       case AConferir(a) => a == c.op.aprovacao && a.entrega in b.aprovacoes
       case Respondida(r) => Sucesso(r) ==> c.op.aprovacao.entrega in b.aprovacoes
       case _ => false
  }

  lemma PassoSeguro(s: Sistema, i: nat, k: nat)
    requires Coerente(s) && i < |s.clientes| && k < |s.clientes| && Segura(s.banco, s.clientes[i])
    ensures Segura(Passo(s, k).banco, Passo(s, k).clientes[i])
  {
    InstrucaoRespeita(s.clientes, s.banco, s.clientes[k], 0);
  }

  /** Whatever else goes on, an approval of a run that exists when its client
      begins is never lost. */
  lemma AprovacaoDeRunExistente(s: Sistema, ordem: seq<nat>, i: nat)
    requires Coerente(s) && i < |s.clientes| && s.clientes[i].fase.AComecar? && s.clientes[i].op.OpAprovacao?
    requires s.clientes[i].op.aprovacao.run in s.banco.runs
    ensures !Perdeu(Rodar(s, ordem), i)
  {
    NaoSePerdeComRun(s, ordem, i);
  }

  /** Exactly when an approval not yet begun can be answered as stored without
      being so, under some schedule: it is valid, its run does not exist, its
      delivery is not stored, and a client not yet begun would create that very
      run from a delivery not yet received. */
  lemma QuandoSePerde(s: Sistema, i: nat)
    requires Coerente(s) && i < |s.clientes| && s.clientes[i].fase.AComecar? && s.clientes[i].op.OpAprovacao?
    ensures (exists ordem: seq<nat> :: Perdeu(Rodar(s, ordem), i)) <==> (exists k: nat :: EmRisco(s, i, k))
  {
    if exists k: nat :: EmRisco(s, i, k) {
      var k: nat :| EmRisco(s, i, k);
      PerdeEntreOsDois(s, i, k);
      assert exists ordem: seq<nat> :: Perdeu(Rodar(s, ordem), i);
    }
    if exists ordem: seq<nat> :: Perdeu(Rodar(s, ordem), i) {
      var ordem: seq<nat> :| Perdeu(Rodar(s, ordem), i);
      var k := PerdaTemCausa(s, ordem, i);
      assert exists k: nat :: EmRisco(s, i, k);
    }
  }

  /** An input: an approval that names a run before it exists, the delivery that
      creates it under that id, and the schedule that loses the approval. */
  lemma RunCriadoNoMeio(novo: NovoTaskRun, a: Aprovacao, agora: Instante)
    requires NovoTaskRunValido(novo) && AprovacaoValida(a)
    ensures var s := Sistema([Cliente(OpAprovacao(a), AComecar), Cliente(OpCriar(novo, a.run, agora), AComecar)], VAZIO, []);
            Inicial(s) && Perdeu(Rodar(s, Vezes(0, 1)), 0)
  {
    var s := Sistema([Cliente(OpAprovacao(a), AComecar), Cliente(OpCriar(novo, a.run, agora), AComecar)], VAZIO, []);
    assert EmRisco(s, 0, 1);
    PerdeEntreOsDois(s, 0, 1);
  }

  // ---- Transitions ----

  /** The client was told that the run had left the state, though at the place of
      its transition there was no run. */
  ghost predicate Enganada(s: Sistema, i: nat) {
    && i < |s.clientes| && s.clientes[i].op.OpTransicionar?
    && s.clientes[i].fase == Respondida(Recusado(TransicaoConcorrente))
    && exists l: nat :: l < |s.feitas| && s.feitas[l].cliente == i && s.feitas[l].resposta == Recusado(NaoEncontrado)
  }

  predicate TransicaoEmRisco(s: Sistema, i: nat, k: nat)
    requires EntregasUnicas(s.banco.runs)
  {
    && i < |s.clientes| && s.clientes[i].op.OpTransicionar?
    && |s.clientes[i].op.detalhe| <= 4000 && s.clientes[i].op.run !in s.banco.runs
    && k < |s.clientes| && PodeCriar(s.banco, s.clientes[k], s.clientes[i].op.run)
  }

  /** Two statements of the transition with the creation in between; the run is
      then in the state runs begin in. */
  lemma EnganaEntreOsDois(s: Sistema, i: nat, k: nat)
    requires Inv(s) && i < |s.clientes| && s.clientes[i].fase.AComecar? && TransicaoEmRisco(s, i, k)
    ensures var t := Rodar(s, Vezes(i, k));
            && Enganada(t, i) && t.banco.etapas == s.banco.etapas
            && s.clientes[i].op.run in t.banco.runs && t.banco.runs[s.clientes[i].op.run].estado == Pendente
  {
    TresPassos(s, i, k);
    var t := Passo(s, i);
    PrimeiraInstrucao(s, i);
    CriaAgora(t, k, s.clientes[i].op.run);
    var u := Passo(t, k);
    assert u.clientes[i] == t.clientes[i];
    assert u.feitas[|s.feitas|] == t.feitas[|s.feitas|];
    UltimaInstrucao(u, i, |s.feitas|);
  }

  lemma UltimaInstrucao(u: Sistema, i: nat, l: nat)
    requires Coerente(u) && i < |u.clientes| && u.clientes[i].op.OpTransicionar? && u.clientes[i].fase == AConferirTransicao
    requires u.clientes[i].op.run in u.banco.runs
    requires l < |u.feitas| && u.feitas[l].cliente == i && u.feitas[l].resposta == Recusado(NaoEncontrado)
    ensures Enganada(Passo(u, i), i) && Passo(u, i).banco == u.banco
  {
    assert Passo(u, i).feitas == u.feitas + [];
    assert Passo(u, i).feitas[l] == u.feitas[l];
  }

  lemma PrimeiraInstrucao(s: Sistema, i: nat)
    requires Coerente(s) && i < |s.clientes| && s.clientes[i].fase.AComecar? && s.clientes[i].op.OpTransicionar?
    requires |s.clientes[i].op.detalhe| <= 4000 && s.clientes[i].op.run !in s.banco.runs
    ensures var t := Passo(s, i);
            && t.banco == s.banco
            && t.clientes == s.clientes[i := s.clientes[i].(fase := AConferirTransicao)]
            && t.feitas == s.feitas + [Feita(i, s.clientes[i].op, Recusado(NaoEncontrado))]
  {
  }

  /** What the wrong answer says of the moment its client had not begun. */
  lemma EnganoTemCausa(s: Sistema, ordem: seq<nat>, i: nat) returns (k: nat)
    requires Inv(s) && i < |s.clientes| && s.clientes[i].fase.AComecar? && s.clientes[i].op.OpTransicionar?
    requires Enganada(Rodar(s, ordem), i)
    ensures TransicaoEmRisco(s, i, k)
  {
    var t := Rodar(s, ordem);
    InvSegue(s, ordem);
    OperacaoNaoMuda(s, ordem, i);
    FeitasCrescem(s, ordem);
    var l: nat :| l < |t.feitas| && t.feitas[l].cliente == i && t.feitas[l].resposta == Recusado(NaoEncontrado);
    assert LugarCoerente(t.banco, t.clientes[i], t.feitas[l]);
    Corridas.LugarNovo(s, t, l);
    NaoHaviaRun(s, t, l);
    k := RunNovoTemCriador(s, ordem, s.clientes[i].op.run);
  }

  lemma NaoHaviaRun(s: Sistema, t: Sistema, l: nat)
    requires Sequencia(s) && Sequencia(t) && s.feitas <= t.feitas && |s.feitas| <= l < |t.feitas|
    requires t.feitas[l].op.OpTransicionar? && t.feitas[l].resposta == Recusado(NaoEncontrado)
    ensures |t.feitas[l].op.detalhe| <= 4000 && t.feitas[l].op.run !in s.banco.runs
  {
    var b, op := Antes(t.feitas, l), t.feitas[l].op;
    assert NoLugar(t.feitas, l);
    assert Aplicar(b, op) == Transicionar(b, op.run, op.de, op.para, op.detalhe, op.agora);
    AntesCresce(t.feitas, |s.feitas|, l);
    AntesDoFim(s);
    assert t.feitas[..|s.feitas|] == s.feitas[..|s.feitas|];
  }

  lemma PodeSeEnganar(s: Sistema, i: nat, k: nat)
    requires Inv(s) && i < |s.clientes| && s.clientes[i].fase.AComecar? && TransicaoEmRisco(s, i, k)
    ensures exists ordem: seq<nat> :: Enganada(Rodar(s, ordem), i)
  {
    EnganaEntreOsDois(s, i, k);
  }

  /** Exactly when a transition not yet begun can be answered as concurrent though
      its run did not exist, under some schedule: its text fits, the run does not
      exist, and a client not yet begun would create that very run from a
      delivery not yet received. */
  lemma QuandoSeEngana(s: Sistema, i: nat)
    requires Inv(s) && i < |s.clientes| && s.clientes[i].fase.AComecar? && s.clientes[i].op.OpTransicionar?
    ensures (exists ordem: seq<nat> :: Enganada(Rodar(s, ordem), i)) <==> (exists k: nat :: TransicaoEmRisco(s, i, k))
  {
    if exists k: nat :: TransicaoEmRisco(s, i, k) {
      var k: nat :| TransicaoEmRisco(s, i, k);
      PodeSeEnganar(s, i, k);
    }
    if exists ordem: seq<nat> :: Enganada(Rodar(s, ordem), i) {
      var ordem: seq<nat> :| Enganada(Rodar(s, ordem), i);
      var k := EnganoTemCausa(s, ordem, i);
      assert exists k: nat :: TransicaoEmRisco(s, i, k);
    }
  }

  /** Whatever else goes on, a transition of a run that exists when its client
      begins is answered rightly. */
  lemma TransicaoDeRunExistente(s: Sistema, ordem: seq<nat>, i: nat)
    requires Inv(s) && i < |s.clientes| && s.clientes[i].fase.AComecar? && s.clientes[i].op.OpTransicionar?
    requires s.clientes[i].op.run in s.banco.runs
    ensures !Enganada(Rodar(s, ordem), i)
  {
    if Enganada(Rodar(s, ordem), i) {
      var k := EnganoTemCausa(s, ordem, i);
      assert false;
    }
  }

  /** An input: a transition out of pending of a run that does not exist yet, the
      delivery that creates it, and the schedule that answers the first as
      concurrent while the run is pending and has never been anything else. */
  lemma ConcorrenteSemTerSaido(novo: NovoTaskRun, id: Uuid, para: Estado, agora: Instante)
    requires NovoTaskRunValido(novo)
    ensures var s := Sistema([Cliente(OpTransicionar(id, Pendente, para, "", agora), AComecar),
                              Cliente(OpCriar(novo, id, agora), AComecar)], VAZIO, []);
            var t := Rodar(s, Vezes(0, 1));
            && Inicial(s) && Enganada(t, 0)
            && id in t.banco.runs && t.banco.runs[id].estado == Pendente && t.banco.etapas == []
  {
    var s := Sistema([Cliente(OpTransicionar(id, Pendente, para, "", agora), AComecar),
                      Cliente(OpCriar(novo, id, agora), AComecar)], VAZIO, []);
    TodaIntercalacaoMantemInv(s, []);
    assert TransicaoEmRisco(s, 0, 1);
    EnganaEntreOsDois(s, 0, 1);
  }
}
