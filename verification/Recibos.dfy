/** Receipts form disjoint linear chains, each in one tenant, in every reachable
    database (internal/repository/db/receipts.sql.go,
    migrations/000006_criar_receipts.up.sql). */
module Recibos {
  import opened Comum
  import opened Tabelas
  import opened Operacoes

  /** Identities, runs and successors are unique, and every predecessor is an
      earlier receipt of the same tenant. */
  predicate Encadeados(rs: seq<Recibo>) {
    && (forall i, j :: 0 <= i < j < |rs| ==> Distintos(rs[i], rs[j]))
    && (forall i :: 0 <= i < |rs| && rs[i].anterior.Some? ==> TemRecibo(rs[..i], rs[i].anterior.value, rs[i].tenant))
  }

  predicate Distintos(a: Recibo, b: Recibo) {
    a.id != b.id && a.run != b.run && (b.anterior.Some? ==> a.anterior != b.anterior)
  }

  /** Each receipt belongs to its run and carries the run's tenant. */
  predicate DoTenantDoRun(b: Banco) {
    forall i :: 0 <= i < |b.recibos| ==>
      b.recibos[i].run in b.runs && b.recibos[i].tenant == b.runs[b.recibos[i].run].tenant
  }

  lemma Acrescentar(rs: seq<Recibo>, r: Recibo)
    requires Encadeados(rs) && !ReciboConflita(rs, r)
    requires r.anterior.Some? ==> TemRecibo(rs, r.anterior.value, r.tenant)
    ensures Encadeados(rs + [r])
  {
    var t := rs + [r];
    forall i | 0 <= i < |t| && t[i].anterior.Some?
      ensures TemRecibo(t[..i], t[i].anterior.value, t[i].tenant)
    {
      assert t[..i] == rs[..i];
      assert rs[..|rs|] == rs;
    }
  }

  lemma AplicarPreserva(b: Banco, op: Operacao)
    requires EntregasUnicas(b.runs) && Encadeados(b.recibos) && DoTenantDoRun(b)
    ensures Encadeados(Aplicar(b, op).0.recibos) && DoTenantDoRun(Aplicar(b, op).0)
  {
    match op
    case OpRecibo(recibo, id) => AnexarPreserva(b, recibo, id);
    case _ =>
      SoAnexarTocaRecibos(b, op);
      AplicarSoCresce(b, op);
      MesmosRecibos(b, Aplicar(b, op).0);
  }

  lemma SoAnexarTocaRecibos(b: Banco, op: Operacao)
    requires EntregasUnicas(b.runs) && !op.OpRecibo?
    ensures Aplicar(b, op).0.recibos == b.recibos
  {
  }

  lemma MesmosRecibos(b: Banco, c: Banco)
    requires DoTenantDoRun(b) && SoCresce(b, c) && c.recibos == b.recibos
    ensures DoTenantDoRun(c)
  {
    forall i | 0 <= i < |c.recibos|
      ensures c.recibos[i].run in c.runs && c.recibos[i].tenant == c.runs[c.recibos[i].run].tenant
    {
      assert MesmaLinha(b.runs[b.recibos[i].run], c.runs[b.recibos[i].run]);
    }
  }

  lemma AnexarPreserva(b: Banco, novo: NovoRecibo, id: Uuid)
    requires Encadeados(b.recibos) && DoTenantDoRun(b)
    ensures Encadeados(AnexarRecibo(b, novo, id).0.recibos) && DoTenantDoRun(AnexarRecibo(b, novo, id).0)
  {
    var c := AnexarRecibo(b, novo, id).0;
    if c.recibos != b.recibos {
      Acrescentar(b.recibos, c.recibos[|b.recibos|]);
    }
  }

  /** In every reachable database the receipts are chained and belong to the
      tenants of their runs. */
  lemma {:induction false} TodoBancoTemRecibosEncadeados(ops: seq<Operacao>)
    ensures var b := Executar(VAZIO, ops); Encadeados(b.recibos) && DoTenantDoRun(b)
  {
    if ops != [] {
      TodoBancoTemRecibosEncadeados(ops[..|ops| - 1]);
      AplicarPreserva(Executar(VAZIO, ops[..|ops| - 1]), ops[|ops| - 1]);
    }
  }

  // ---- The shape of the chains ----

  /** The position of the predecessor: always an earlier one, so following
      predecessors ends. */
  function Anterior(rs: seq<Recibo>, i: nat): (j: nat)
    requires Encadeados(rs) && i < |rs| && rs[i].anterior.Some?
    ensures j < i && rs[j].id == rs[i].anterior.value && rs[j].tenant == rs[i].tenant
  {
    assert TemRecibo(rs[..i], rs[i].anterior.value, rs[i].tenant);
    var j :| 0 <= j < i && rs[j].id == rs[i].anterior.value && rs[j].tenant == rs[i].tenant;
    j
  }

  /** The first receipt of the chain. */
  function Raiz(rs: seq<Recibo>, i: nat): (r: nat)
    requires Encadeados(rs) && i < |rs|
    ensures r <= i && rs[r].anterior.None?
    decreases i
  {
    if rs[i].anterior.None? then i else Raiz(rs, Anterior(rs, i))
  }

  /** How many receipts come before it in the chain. */
  function Posicao(rs: seq<Recibo>, i: nat): nat
    requires Encadeados(rs) && i < |rs|
    decreases i
  {
    if rs[i].anterior.None? then 0 else 1 + Posicao(rs, Anterior(rs, i))
  }

  lemma DoisRecibos(rs: seq<Recibo>, i: nat, j: nat)
    requires Encadeados(rs) && i < |rs| && j < |rs|
    ensures i == j || (rs[i].id != rs[j].id && rs[i].run != rs[j].run
                       && (rs[i].anterior.Some? ==> rs[i].anterior != rs[j].anterior))
  {
    if i < j {
      assert Distintos(rs[i], rs[j]);
    } else if j < i {
      assert Distintos(rs[j], rs[i]);
    }
  }

  /** Linearity: a chain has one receipt at each position. */
  lemma {:induction false} UmReciboPorPosicao(rs: seq<Recibo>, i: nat, j: nat)
    requires Encadeados(rs) && i < |rs| && j < |rs|
    requires Raiz(rs, i) == Raiz(rs, j) && Posicao(rs, i) == Posicao(rs, j)
    ensures i == j
    decreases i
  {
    if rs[i].anterior.Some? {
      UmReciboPorPosicao(rs, Anterior(rs, i), Anterior(rs, j));
      DoisRecibos(rs, i, j);
    }
  }

  /** No gaps: below a position every position of the chain is taken. */
  lemma {:induction false} CadeiaSemLacunas(rs: seq<Recibo>, i: nat, p: nat)
    requires Encadeados(rs) && i < |rs| && p <= Posicao(rs, i)
    ensures exists j :: 0 <= j <= i && Raiz(rs, j) == Raiz(rs, i) && Posicao(rs, j) == p
    decreases i
  {
    if p < Posicao(rs, i) {
      CadeiaSemLacunas(rs, Anterior(rs, i), p);
    }
  }

  /** A chain stays in one tenant. */
  lemma {:induction false} CadeiaEmUmTenant(rs: seq<Recibo>, i: nat)
    requires Encadeados(rs) && i < |rs|
    ensures rs[i].tenant == rs[Raiz(rs, i)].tenant
    decreases i
  {
    if rs[i].anterior.Some? {
      CadeiaEmUmTenant(rs, Anterior(rs, i));
    }
  }

  /** Appending receipts moves no stored one within its chain. */
  lemma {:induction false} CadeiaNaoMuda(rs: seq<Recibo>, ts: seq<Recibo>, i: nat)
    requires Encadeados(rs) && Encadeados(ts) && rs <= ts && i < |rs|
    ensures Raiz(ts, i) == Raiz(rs, i) && Posicao(ts, i) == Posicao(rs, i)
    decreases i
  {
    if rs[i].anterior.Some? {
      var a, c := Anterior(rs, i), Anterior(ts, i);
      DoisRecibos(ts, a, c);
      CadeiaNaoMuda(rs, ts, a);
    }
  }

  /** Over any run of the repository: two receipts of one run, of one tenant's
      chain and position, or with one predecessor, are the same; and both what
      was stored and where it stands in its chain are kept by later operations. */
  lemma CadeiasDeTodoBanco(ops: seq<Operacao>, depois: seq<Operacao>, i: nat, j: nat)
    requires var rs := Executar(VAZIO, ops).recibos; i < |rs| && j < |rs|
    ensures var rs, ts := Executar(VAZIO, ops).recibos, Executar(VAZIO, ops + depois).recibos;
            && Encadeados(rs) && Encadeados(ts) && i < |ts| && ts[i] == rs[i]
            && (rs[i].run == rs[j].run ==> i == j)
            && (rs[i].anterior.Some? && rs[i].anterior == rs[j].anterior ==> i == j)
            && (Raiz(rs, i) == Raiz(rs, j) && Posicao(rs, i) == Posicao(rs, j) ==> i == j)
            && (Raiz(rs, i) == Raiz(rs, j) ==> rs[i].tenant == rs[j].tenant)
            && Raiz(ts, i) == Raiz(rs, i) && Posicao(ts, i) == Posicao(rs, i)
  {
    var b := Executar(VAZIO, ops);
    TodoBancoTemRecibosEncadeados(ops);
    TodoBancoTemRecibosEncadeados(ops + depois);
    ExecutarEmPartes(VAZIO, ops, depois);
    ExecutarSoCresce(b, depois);
    CadeiasCoerentes(b.recibos, Executar(VAZIO, ops + depois).recibos, i, j);
  }

  lemma CadeiasCoerentes(rs: seq<Recibo>, ts: seq<Recibo>, i: nat, j: nat)
    requires Encadeados(rs) && Encadeados(ts) && rs <= ts && i < |rs| && j < |rs|
    ensures ts[i] == rs[i]
    ensures rs[i].run == rs[j].run ==> i == j
    ensures rs[i].anterior.Some? && rs[i].anterior == rs[j].anterior ==> i == j
    ensures Raiz(rs, i) == Raiz(rs, j) && Posicao(rs, i) == Posicao(rs, j) ==> i == j
    ensures Raiz(rs, i) == Raiz(rs, j) ==> rs[i].tenant == rs[j].tenant
    ensures Raiz(ts, i) == Raiz(rs, i) && Posicao(ts, i) == Posicao(rs, i)
  {
    DoisRecibos(rs, i, j);
    CadeiaEmUmTenant(rs, i);
    CadeiaEmUmTenant(rs, j);
    CadeiaNaoMuda(rs, ts, i);
    if Raiz(rs, i) == Raiz(rs, j) && Posicao(rs, i) == Posicao(rs, j) {
      UmReciboPorPosicao(rs, i, j);
    }
  }

  /** Exactly when each refusal is answered, for a valid receipt. */
  lemma QuandoRecusaORecibo(b: Banco, novo: NovoRecibo, id: Uuid)
    ensures var r := AnexarRecibo(b, novo, id).1;
            var valido := && novo.conteudo != "" && |novo.hash| == 32 && |novo.assinatura| == 64
                          && 0 < |novo.chave| <= 100 && novo.assinadoEm != 0;
            var ligavel := && novo.run in b.runs
                           && (novo.anterior.Some? ==> exists i :: 0 <= i < |b.recibos| && b.recibos[i].id == novo.anterior.value
                                                                 && b.recibos[i].tenant == b.runs[novo.run].tenant);
            && (r == Recusado(DadosInvalidos) <==> !valido)
            && (r == Recusado(NaoEncontrado) <==> valido && !ligavel)
            && (r.Recusado? ==> r.erro in {DadosInvalidos, NaoEncontrado, Duplicado})
  {
  }

  /** Exactly when a receipt is appended. */
  lemma QuandoAnexa(b: Banco, novo: NovoRecibo, id: Uuid)
    ensures Sucesso(AnexarRecibo(b, novo, id).1) <==>
            && novo.conteudo != "" && |novo.hash| == 32 && |novo.assinatura| == 64
            && 0 < |novo.chave| <= 100 && novo.assinadoEm != 0
            && novo.run in b.runs
            && (novo.anterior.Some? ==> exists i :: 0 <= i < |b.recibos| && b.recibos[i].id == novo.anterior.value
                                                    && b.recibos[i].tenant == b.runs[novo.run].tenant)
            && (forall i :: 0 <= i < |b.recibos| ==>
                  && b.recibos[i].id != id && b.recibos[i].run != novo.run
                  && (novo.anterior.Some? ==> b.recibos[i].anterior != novo.anterior))
  {
  }
}
