/** Containment of the project directory in the clone
    (internal/sandbox/diretorio.go, internal/sandbox/conteiner/projeto.go), over
    a frozen file tree with symbolic links. */
module Caminhos {
  import opened Comum

  // ---- Paths as text ----

  type Componentes = seq<string>

  /** strings.Split(s, "/"). */
  function Segmentos(s: string): (r: Componentes)
    ensures |r| > 0
  {
    if s == "" then [""]
    else if s[0] == '/' then [""] + Segmentos(s[1..])
    else
      var r := Segmentos(s[1..]);
      [[s[0]] + r[0]] + r[1..]
  }

  /** strings.Join(cs, "/"). */
  function Juntos(cs: Componentes): string {
    if cs == [] then "" else if |cs| == 1 then cs[0] else cs[0] + "/" + Juntos(cs[1..])
  }

  lemma {:induction false} JuntarSegmentos(s: string)
    ensures Juntos(Segmentos(s)) == s
  {
    if s != "" {
      JuntarSegmentos(s[1..]);
      var r := Segmentos(s[1..]);
      if s[0] == '/' {
        assert Segmentos(s)[1..] == r;
        assert s == "/" + s[1..];
      } else {
        assert Segmentos(s)[1..] == r[1..];
        assert s == [s[0]] + s[1..];
      }
    }
  }

  predicate Permitido(c: char) {
    'A' <= c <= 'Z' || 'a' <= c <= 'z' || '0' <= c <= '9' || c == '.' || c == '_' || c == '-'
  }

  /** The automaton of the regular expression: one or more segments of one or
      more permitted characters, separated by slashes. */
  predicate Formato(s: string, segmentoVazio: bool) {
    if s == "" then !segmentoVazio
    else if s[0] == '/' then !segmentoVazio && Formato(s[1..], true)
    else Permitido(s[0]) && Formato(s[1..], false)
  }

  /** One step of path.Clean over the components of a path. */
  function Limpar(feitos: Componentes, resto: Componentes, rooted: bool): Componentes
    decreases |resto|
  {
    if resto == [] then feitos
    else
      var c, t := resto[0], resto[1..];
      if c == "" || c == "." then Limpar(feitos, t, rooted)
      else if c != ".." then Limpar(feitos + [c], t, rooted)
      else if feitos != [] && feitos[|feitos| - 1] != ".." then Limpar(feitos[..|feitos| - 1], t, rooted)
      else if rooted then Limpar(feitos, t, rooted)
      else Limpar(feitos + [".."], t, rooted)
  }

  /** path.Clean. */
  function Limpo(s: string): string {
    var rooted := s != "" && s[0] == '/';
    var cs := Limpar([], Segmentos(s), rooted);
    if rooted then "/" + Juntos(cs) else if cs == [] then "." else Juntos(cs)
  }

  predicate Reservado(c: string) {
    c == "." || c == ".."
  }

  /** ValidarDiretorioDoProjeto. */
  predicate DiretorioValido(d: string) {
    d == "" || (Formato(d, true) && Limpo(d) == d && forall i :: 0 <= i < |Segmentos(d)| ==> !Reservado(Segmentos(d)[i]))
  }

  predicate Nome(c: string) {
    c != "" && !Reservado(c)
  }

  predicate Nomes(cs: Componentes) {
    forall i :: 0 <= i < |cs| ==> Nome(cs[i])
  }

  predicate SegmentoPermitido(c: string) {
    c != "" && forall i :: 0 <= i < |c| ==> Permitido(c[i])
  }

  /** The automaton's verdict, segment by segment. */
  predicate FormatoDosSegmentos(r: Componentes, vazio: bool)
    requires r != []
  {
    && (vazio ==> r[0] != "")
    && (forall i :: 0 <= i < |r[0]| ==> Permitido(r[0][i]))
    && (forall i :: 1 <= i < |r| ==> SegmentoPermitido(r[i]))
  }

  lemma NovoSegmento(u: Componentes, r: Componentes)
    requires u != [] && r == [""] + u
    ensures FormatoDosSegmentos(r, false) <==> FormatoDosSegmentos(u, true)
  {
    assert forall i :: 0 <= i < |u| ==> u[i] == r[i + 1];
    assert forall i :: 1 <= i < |r| ==> r[i] == u[i - 1];
    if FormatoDosSegmentos(r, false) {
      assert SegmentoPermitido(r[1]);
    }
  }

  lemma MaisUmCaractere(u: Componentes, c: char, r: Componentes)
    requires u != [] && r == [[c] + u[0]] + u[1..]
    ensures FormatoDosSegmentos(r, false) <==> Permitido(c) && FormatoDosSegmentos(u, false)
  {
    assert forall i :: 1 <= i < |r| ==> r[i] == u[i];
    assert forall i :: 0 <= i < |u[0]| ==> r[0][i + 1] == u[0][i];
    assert forall i :: 1 <= i < |r[0]| ==> r[0][i] == u[0][i - 1];
    if FormatoDosSegmentos(r, false) {
      assert Permitido(r[0][0]);
    }
  }

  lemma {:induction false} FormatoPorSegmentos(s: string, vazio: bool)
    ensures Formato(s, vazio) <==> FormatoDosSegmentos(Segmentos(s), vazio)
  {
    if s != "" {
      var u := Segmentos(s[1..]);
      FormatoPorSegmentos(s[1..], s[0] == '/');
      if s[0] == '/' {
        NovoSegmento(u, Segmentos(s));
      } else {
        MaisUmCaractere(u, s[0], Segmentos(s));
      }
    }
  }

  lemma {:induction false} LimparNomes(feitos: Componentes, resto: Componentes)
    requires forall i :: 0 <= i < |resto| ==> Nome(resto[i])
    ensures Limpar(feitos, resto, false) == feitos + resto
    decreases |resto|
  {
    if resto != [] {
      LimparNomes(feitos + [resto[0]], resto[1..]);
      assert feitos + [resto[0]] + resto[1..] == feitos + resto;
    }
  }

  predicate SegmentosValidos(r: Componentes) {
    forall i :: 0 <= i < |r| ==> SegmentoPermitido(r[i]) && !Reservado(r[i])
  }

  lemma FormatoDeSegmentosValidos(d: string)
    requires d != "" && SegmentosValidos(Segmentos(d))
    ensures Formato(d, true) && Nomes(Segmentos(d))
  {
    var r := Segmentos(d);
    FormatoPorSegmentos(d, true);
    assert SegmentoPermitido(r[0]);
    forall i | 0 <= i < |r|
      ensures Nome(r[i])
    {
      assert SegmentoPermitido(r[i]);
    }
  }

  /** Plain names are already as path.Clean leaves them. */
  lemma LimpoDeNomes(d: string)
    requires d != "" && Formato(d, true) && Nomes(Segmentos(d))
    ensures Limpo(d) == d
  {
    var r := Segmentos(d);
    LimparNomes([], r);
    assert [] + r == r;
    JuntarSegmentos(d);
    assert d[0] != '/';
  }

  lemma SegmentosDeValido(d: string)
    requires d != "" && DiretorioValido(d)
    ensures SegmentosValidos(Segmentos(d))
  {
    var r := Segmentos(d);
    FormatoPorSegmentos(d, true);
    assert SegmentoPermitido(r[0]);
    forall i | 0 <= i < |r|
      ensures SegmentoPermitido(r[i]) && !Reservado(r[i])
    {
    }
  }

  /** Letters, digits, full stop, underscore and hyphen, by their codes. */
  predicate SegmentoAceito(c: string) {
    && c != "" && c != "." && c != ".."
    && forall i :: 0 <= i < |c| ==>
         var n := c[i] as int; 65 <= n <= 90 || 97 <= n <= 122 || 48 <= n <= 57 || n in {45, 46, 95}
  }

  lemma AceitoEhPermitido(c: string)
    ensures SegmentoAceito(c) <==> SegmentoPermitido(c) && !Reservado(c)
  {
  }

  /** The same by the characters themselves. */
  lemma DiretorioValidoPorCaracteres(d: string)
    ensures DiretorioValido(d) <==> d == "" || forall i :: 0 <= i < |Segmentos(d)| ==> SegmentoAceito(Segmentos(d)[i])
  {
    DiretorioValidoPorSegmentos(d);
    forall i | 0 <= i < |Segmentos(d)|
      ensures SegmentoAceito(Segmentos(d)[i]) <==> SegmentoPermitido(Segmentos(d)[i]) && !Reservado(Segmentos(d)[i])
    {
      AceitoEhPermitido(Segmentos(d)[i]);
    }
  }

  /** What the validation accepts, segment by segment; the test against
      path.Clean adds nothing to the other two. */
  lemma DiretorioValidoPorSegmentos(d: string)
    ensures DiretorioValido(d) <==> d == "" || SegmentosValidos(Segmentos(d))
    ensures DiretorioValido(d) && d != "" ==> Nomes(Segmentos(d))
  {
    if d != "" {
      if SegmentosValidos(Segmentos(d)) {
        FormatoDeSegmentosValidos(d);
        LimpoDeNomes(d);
      } else if DiretorioValido(d) {
        SegmentosDeValido(d);
        assert false;
      }
    }
  }

  // ---- The file tree ----

  datatype No = Diretorio(filhos: map<string, No>) | Arquivo | Elo(absoluto: bool, alvo: Componentes)

  /** Lookup of a path that is not to follow any link. */
  function Busca(raiz: No, caminho: Componentes): Option<No>
    decreases |caminho|
  {
    if caminho == [] then Some(raiz)
    else if raiz.Diretorio? && caminho[0] in raiz.filhos then Busca(raiz.filhos[caminho[0]], caminho[1..])
    else None
  }

  lemma {:induction false} BuscaEmPartes(raiz: No, a: Componentes, b: Componentes)
    ensures Busca(raiz, a + b) == if Busca(raiz, a).Some? then Busca(Busca(raiz, a).value, b) else None
    decreases |a|
  {
    if a == [] {
      assert a + b == b;
    } else {
      assert (a + b)[1..] == a[1..] + b;
      if raiz.Diretorio? && a[0] in raiz.filhos {
        BuscaEmPartes(raiz.filhos[a[0]], a[1..], b);
      }
    }
  }

  lemma BuscaDoPai(raiz: No, a: Componentes, c: string)
    ensures Busca(raiz, a + [c]).Some? <==>
            Busca(raiz, a).Some? && Busca(raiz, a).value.Diretorio? && c in Busca(raiz, a).value.filhos
  {
    BuscaEmPartes(raiz, a, [c]);
    if Busca(raiz, a).Some? && Busca(raiz, a).value.Diretorio? && c in Busca(raiz, a).value.filhos {
      assert Busca(Busca(raiz, a).value.filhos[c], []).Some?;
      assert [c][1..] == [];
    }
  }

  /** Resolution of `resto` from the resolved directory `destino`, following at
      most `elos` links: the resolved path and the links still allowed. */
  function Resolver(raiz: No, destino: Componentes, resto: Componentes, elos: nat): Option<(Componentes, nat)>
    decreases elos, |resto|
  {
    if resto == [] then Some((destino, elos))
    else
      var c, t := resto[0], resto[1..];
      if c == "" || c == "." then Resolver(raiz, destino, t, elos)
      else if c == ".." then Resolver(raiz, if destino == [] then [] else destino[..|destino| - 1], t, elos)
      else
        match Busca(raiz, destino + [c])
        case None => None
        case Some(Diretorio(_)) => Resolver(raiz, destino + [c], t, elos)
        case Some(Arquivo) => if t == [] then Some((destino + [c], elos)) else None
        case Some(Elo(absoluto, alvo)) =>
          if elos == 0 then None
          else Resolver(raiz, if absoluto then [] else destino, alvo + t, elos - 1)
  }

  const ELOS_DO_EVALSYMLINKS: nat := 255

  /** A file tree, and how many links the operating system follows. */
  type Arvore = r: No | r.Diretorio? witness Diretorio(map[])

  type Limite = n: nat | n <= 255

  /** filepath.EvalSymlinks of an absolute path. */
  function EvalSymlinks(raiz: No, caminho: Componentes): Option<Componentes> {
    match Resolver(raiz, [], caminho, ELOS_DO_EVALSYMLINKS)
    case None => None
    case Some((d, _)) => Some(d)
  }

  /** os.Lstat: links are followed in all components but the last, up to the
      limit `n` of the operating system. */
  function Lstat(raiz: No, caminho: Componentes, n: nat): Option<No> {
    if caminho == [] then Some(raiz)
    else
      match Resolver(raiz, [], caminho[..|caminho| - 1], n)
      case None => None
      case Some((d, _)) => Busca(raiz, d + [caminho[|caminho| - 1]])
  }

  /** os.Stat: links are followed in every component. */
  function Stat(raiz: No, caminho: Componentes, n: nat): Option<No> {
    match Resolver(raiz, [], caminho, n)
    case None => None
    case Some((d, _)) => Busca(raiz, d)
  }

  /** existeGoModNaRaiz: go.mod is there and leads to a regular file. */
  predicate TemGoMod(raiz: No, projeto: Componentes, n: nat) {
    Stat(raiz, projeto + ["go.mod"], n) == Some(Arquivo)
  }

  // ---- Laws of resolution ----

  /** More links allowed never change a resolution that succeeds. */
  lemma {:induction false} MaisElos(raiz: No, destino: Componentes, resto: Componentes, elos: nat, a_mais: nat)
    ensures var r := Resolver(raiz, destino, resto, elos);
            r.Some? ==> Resolver(raiz, destino, resto, elos + a_mais) == Some((r.value.0, r.value.1 + a_mais))
    decreases elos, |resto|
  {
    if resto != [] {
      var c, t := resto[0], resto[1..];
      if c == "" || c == "." {
        MaisElos(raiz, destino, t, elos, a_mais);
      } else if c == ".." {
        MaisElos(raiz, if destino == [] then [] else destino[..|destino| - 1], t, elos, a_mais);
      } else {
        match Busca(raiz, destino + [c])
        case Some(Diretorio(_)) => MaisElos(raiz, destino + [c], t, elos, a_mais);
        case Some(Elo(absoluto, alvo)) =>
          if elos > 0 {
            MaisElos(raiz, if absoluto then [] else destino, alvo + t, elos - 1, a_mais);
          }
        case _ =>
      }
    }
  }

  /** Resolution is compositional at a directory: resolve the first part, go on
      from there. */
  lemma {:induction false} ResolverEmPartes(raiz: No, destino: Componentes, a: Componentes, b: Componentes, elos: nat)
    requires Resolver(raiz, destino, a, elos).Some?
    requires var d := Busca(raiz, Resolver(raiz, destino, a, elos).value.0); d.Some? && d.value.Diretorio?
    ensures var r := Resolver(raiz, destino, a, elos).value;
            Resolver(raiz, destino, a + b, elos) == Resolver(raiz, r.0, b, r.1)
    decreases elos, |a|
  {
    if a == [] {
      assert a + b == b;
    } else {
      var c, t := a[0], a[1..];
      assert (a + b)[0] == c && (a + b)[1..] == t + b;
      if c == "" || c == "." {
        ResolverEmPartes(raiz, destino, t, b, elos);
      } else if c == ".." {
        ResolverEmPartes(raiz, if destino == [] then [] else destino[..|destino| - 1], t, b, elos);
      } else {
        match Busca(raiz, destino + [c])
        case Some(Diretorio(_)) => ResolverEmPartes(raiz, destino + [c], t, b, elos);
        case Some(Elo(absoluto, alvo)) =>
          ResolverEmPartes(raiz, if absoluto then [] else destino, alvo + t, b, elos - 1);
          assert alvo + (t + b) == (alvo + t) + b;
        case _ =>
      }
    }
  }

  /** A path of plain names that leads to something other than a link resolves
      to itself, spending no links. */
  lemma {:induction false} CaminhoRetoSeResolve(raiz: No, destino: Componentes, resto: Componentes, elos: nat)
    requires Nomes(resto)
    requires Busca(raiz, destino + resto).Some? && !Busca(raiz, destino + resto).value.Elo?
    ensures Resolver(raiz, destino, resto, elos) == Some((destino + resto, elos))
    decreases |resto|
  {
    if resto == [] {
      assert destino + resto == destino;
    } else {
      var c, t := resto[0], resto[1..];
      assert destino + resto == (destino + [c]) + t;
      BuscaEmPartes(raiz, destino + [c], t);
      if t != [] {
        assert Busca(raiz, destino + [c]).value.Diretorio?;
        CaminhoRetoSeResolve(raiz, destino + [c], t, elos);
      } else {
        assert destino + resto == destino + [c];
      }
    }
  }

  /** What resolution returns is a path of plain names, never to a link. */
  lemma {:induction false} ResolvidoEhReto(raiz: No, destino: Componentes, resto: Componentes, elos: nat)
    requires raiz.Diretorio? && Nomes(destino)
    requires Busca(raiz, destino).Some? && Busca(raiz, destino).value.Diretorio?
    ensures var r := Resolver(raiz, destino, resto, elos);
            r.Some? ==> Nomes(r.value.0) && Busca(raiz, r.value.0).Some? && !Busca(raiz, r.value.0).value.Elo?
    decreases elos, |resto|
  {
    if resto != [] {
      var c, t := resto[0], resto[1..];
      if c == "" || c == "." {
        ResolvidoEhReto(raiz, destino, t, elos);
      } else if c == ".." {
        if destino == [] {
          ResolvidoEhReto(raiz, [], t, elos);
        } else {
          var n := |destino| - 1;
          assert destino == destino[..n] + [destino[n]];
          BuscaDoPai(raiz, destino[..n], destino[n]);
          ResolvidoEhReto(raiz, destino[..n], t, elos);
        }
      } else {
        match Busca(raiz, destino + [c])
        case Some(Diretorio(_)) => ResolvidoEhReto(raiz, destino + [c], t, elos);
        case Some(Elo(absoluto, alvo)) =>
          if elos > 0 {
            ResolvidoEhReto(raiz, if absoluto then [] else destino, alvo + t, elos - 1);
          }
        case _ =>
      }
    }
  }

  /** A link stands for its target: met after a plain directory, it is as if the
      target were written in its place, relative to that directory or to the root,
      with one link less to follow. */
  lemma EloVale(raiz: No, d: Componentes, c: string, t: Componentes, elos: nat)
    requires Nomes(d) && Nome(c) && Busca(raiz, d).Some? && Busca(raiz, d).value.Diretorio?
    requires Busca(raiz, d + [c]).Some? && Busca(raiz, d + [c]).value.Elo?
    ensures var elo := Busca(raiz, d + [c]).value;
            Resolver(raiz, [], d + ([c] + t), elos) ==
            (if elos == 0 then None else Resolver(raiz, [], (if elo.absoluto then [] else d) + (elo.alvo + t), elos - 1))
  {
    var elo := Busca(raiz, d + [c]).value;
    DepoisDeDiretorio(raiz, d, [c] + t, elos);
    assert ([c] + t)[1..] == t;
    if elos > 0 {
      if elo.absoluto {
        assert [] + (elo.alvo + t) == elo.alvo + t;
      } else {
        DepoisDeDiretorio(raiz, d, elo.alvo + t, elos - 1);
      }
    }
  }

  /** A file ends a path: nothing is found beyond it. */
  lemma ArquivoEncerra(raiz: No, d: Componentes, c: string, t: Componentes, elos: nat)
    requires Nomes(d) && Nome(c) && Busca(raiz, d).Some? && Busca(raiz, d).value.Diretorio?
    requires Busca(raiz, d + [c]) == Some(Arquivo)
    ensures Resolver(raiz, [], d + ([c] + t), elos) == if t == [] then Some((d + [c], elos)) else None
  {
    DepoisDeDiretorio(raiz, d, [c] + t, elos);
    assert ([c] + t)[1..] == t;
  }

  lemma DepoisDeDiretorio(raiz: No, d: Componentes, resto: Componentes, elos: nat)
    requires Nomes(d) && Busca(raiz, d).Some? && Busca(raiz, d).value.Diretorio?
    ensures Resolver(raiz, [], d + resto, elos) == Resolver(raiz, d, resto, elos)
  {
    assert [] + d == d;
    CaminhoRetoSeResolve(raiz, [], d, elos);
    ResolverEmPartes(raiz, [], d, resto, elos);
  }

  /** go.mod counts exactly when what its path leads to, links followed, is a
      regular file: here, one that is a link to another name of its directory. */
  lemma GoModPorElo(raiz: No, projeto: Componentes, alvo: string, n: nat)
    requires Nomes(projeto) && Nome(alvo) && n > 0
    requires Busca(raiz, projeto).Some? && Busca(raiz, projeto).value.Diretorio?
    requires Busca(raiz, projeto + ["go.mod"]) == Some(Elo(false, [alvo])) && Busca(raiz, projeto + [alvo]).Some?
    requires !Busca(raiz, projeto + [alvo]).value.Elo?
    ensures TemGoMod(raiz, projeto, n) <==> Busca(raiz, projeto + [alvo]).value == Arquivo
  {
    EloVale(raiz, projeto, "go.mod", [], n);
    assert ["go.mod"] + [] == ["go.mod"] && [alvo] + [] == [alvo];
    assert [] + (projeto + [alvo]) == projeto + [alvo];
    CaminhoRetoSeResolve(raiz, [], projeto + [alvo], n - 1);
  }

  // ---- The two checks of projeto.go ----

  predicate ExisteSemElo(raiz: No, caminho: Componentes, n: nat) {
    Lstat(raiz, caminho, n).Some? && !Lstat(raiz, caminho, n).value.Elo?
  }

  /** Every prefix of the directory exists in the clone and is not a link. */
  predicate SemElos(raiz: No, repositorio: Componentes, diretorio: Componentes, n: nat) {
    forall i :: 1 <= i <= |diretorio| ==> ExisteSemElo(raiz, repositorio + diretorio[..i], n)
  }

  method ExigirSemLinks(raiz: No, repositorio: Componentes, diretorio: Componentes, n: nat) returns (ok: bool)
    ensures ok <==> SemElos(raiz, repositorio, diretorio, n)
  {
    var caminho := repositorio;
    for i := 0 to |diretorio|
      invariant caminho == repositorio + diretorio[..i]
      invariant forall j :: 1 <= j <= i ==> ExisteSemElo(raiz, repositorio + diretorio[..j], n)
    {
      caminho := caminho + [diretorio[i]];
      assert caminho == repositorio + diretorio[..i + 1];
      var informacao := Lstat(raiz, caminho, n);
      if informacao.None? || informacao.value.Elo? {
        assert !ExisteSemElo(raiz, repositorio + diretorio[..i + 1], n);
        return false;
      }
    }
    return true;
  }

  function PrefixoComum(a: Componentes, b: Componentes): (n: nat)
    ensures n <= |a| && n <= |b| && a[..n] == b[..n]
    ensures n < |a| && n < |b| ==> a[n] != b[n]
  {
    if a == [] || b == [] || a[0] != b[0] then 0 else 1 + PrefixoComum(a[1..], b[1..])
  }

  /** filepath.Rel of two clean absolute paths; [] stands for ".". */
  function Relativo(base: Componentes, alvo: Componentes): Componentes {
    var n := PrefixoComum(base, alvo);
    seq(|base| - n, _ => "..") + alvo[n..]
  }

  predicate EstaDentro(raiz: Componentes, caminho: Componentes) {
    var r := Relativo(raiz, caminho);
    r == [] || r[0] != ".."
  }

  /** The test on the relative path is containment, for paths of plain names. */
  lemma DentroEhPrefixo(raiz: Componentes, caminho: Componentes)
    requires Nomes(caminho)
    ensures EstaDentro(raiz, caminho) <==> raiz <= caminho
  {
    var n := PrefixoComum(raiz, caminho);
    if raiz <= caminho {
      assert n == |raiz|;
    }
  }

  /** If every component of the directory exists and is not a link, resolving
      the project is resolving the clone and appending the directory. */
  lemma SemElosResolveReto(raiz: No, repositorio: Componentes, diretorio: Componentes, n: nat)
    requires raiz.Diretorio? && Nomes(diretorio) && diretorio != [] && n <= ELOS_DO_EVALSYMLINKS
    requires SemElos(raiz, repositorio, diretorio, n)
    ensures var d := EvalSymlinks(raiz, repositorio);
            && d.Some?
            && Nomes(d.value)
            && Busca(raiz, d.value + diretorio).Some? && !Busca(raiz, d.value + diretorio).value.Elo?
            && EvalSymlinks(raiz, repositorio + diretorio) == Some(d.value + diretorio)
  {
    PrefixosExistem(raiz, repositorio, diretorio, n, |diretorio|);
    assert diretorio[..|diretorio|] == diretorio;
    var r := Resolver(raiz, [], repositorio, n).value;
    MaisElos(raiz, [], repositorio, n, ELOS_DO_EVALSYMLINKS - n);
    ResolvidoEhReto(raiz, [], repositorio, n);
    var e := r.1 + (ELOS_DO_EVALSYMLINKS - n);
    BuscaEmPartes(raiz, r.0, diretorio);
    ResolverEmPartes(raiz, [], repositorio, diretorio, ELOS_DO_EVALSYMLINKS);
    CaminhoRetoSeResolve(raiz, r.0, diretorio, e);
  }

  lemma {:induction false} PrefixosExistem(raiz: No, repositorio: Componentes, diretorio: Componentes, n: nat, i: nat)
    requires raiz.Diretorio? && Nomes(diretorio) && 1 <= i <= |diretorio|
    requires SemElos(raiz, repositorio, diretorio, n)
    ensures var r := Resolver(raiz, [], repositorio, n);
            && r.Some?
            && Busca(raiz, r.value.0).Some? && Busca(raiz, r.value.0).value.Diretorio?
            && Busca(raiz, r.value.0 + diretorio[..i]).Some?
            && !Busca(raiz, r.value.0 + diretorio[..i]).value.Elo?
  {
    var caminho := repositorio + diretorio[..i];
    assert ExisteSemElo(raiz, caminho, n);
    var pai := repositorio + diretorio[..i - 1];
    assert caminho[..|caminho| - 1] == pai && caminho[|caminho| - 1] == diretorio[i - 1];
    assert diretorio[..i] == diretorio[..i - 1] + [diretorio[i - 1]];
    var r := Resolver(raiz, [], repositorio, n);
    if i == 1 {
      assert pai == repositorio;
      assert r.value.0 + diretorio[..1] == r.value.0 + [diretorio[0]];
      BuscaDoPai(raiz, r.value.0, diretorio[0]);
    } else {
      PrefixosExistem(raiz, repositorio, diretorio, n, i - 1);
      var d := r.value.0;
      ResolverEmPartes(raiz, [], repositorio, diretorio[..i - 1], n);
      CaminhoRetoSeResolve(raiz, d, diretorio[..i - 1], r.value.1);
      assert d + diretorio[..i - 1] + [diretorio[i - 1]] == d + diretorio[..i];
    }
  }

  predicate LevaADiretorio(raiz: No, repositorio: Componentes, diretorio: Componentes) {
    var d := EvalSymlinks(raiz, repositorio);
    && d.Some?
    && Busca(raiz, d.value + diretorio).Some?
    && Busca(raiz, d.value + diretorio).value.Diretorio?
  }

  /** What the clone and the directory must be for the project to be located. */
  predicate Acessivel(raiz: No, repositorio: Componentes, diretorio: string, n: nat) {
    diretorio == "" || (SemElos(raiz, repositorio, Segmentos(diretorio), n) && LevaADiretorio(raiz, repositorio, Segmentos(diretorio)))
  }

  function CaminhoDoProjeto(repositorio: Componentes, diretorio: string): Componentes {
    if diretorio == "" then repositorio else repositorio + Segmentos(diretorio)
  }

  datatype Recusa = ComLinks | RepositorioNaoResolve | ProjetoNaoResolve | ForaDoRepositorio | NaoEhDiretorio

  /** localizarProjeto. Its second, third and fourth refusals never happen: once
      the walk has found no link, both resolutions succeed and the project is
      inside. It is accepted exactly when the walk passes and the directory the
      clone resolves to has a directory there. */
  method LocalizarProjeto(raiz: No, repositorio: Componentes, diretorio: string, n: nat)
    returns (r: Result<Componentes, Recusa>)
    requires raiz.Diretorio? && DiretorioValido(diretorio) && n <= ELOS_DO_EVALSYMLINKS
    ensures r.Ok? <==> Acessivel(raiz, repositorio, diretorio, n)
    ensures r.Ok? ==> r.value == CaminhoDoProjeto(repositorio, diretorio)
    ensures diretorio != "" ==>
              var cs := Segmentos(diretorio);
              && (r == Err(ComLinks) <==> !SemElos(raiz, repositorio, cs, n))
              && (r.Err? ==> r.error == ComLinks || r.error == NaoEhDiretorio)
              && (r.Ok? ==>
                    && r.value == repositorio + cs
                    && EvalSymlinks(raiz, repositorio).Some?
                    && EvalSymlinks(raiz, r.value) == Some(EvalSymlinks(raiz, repositorio).value + cs))
              && (r.Ok? <==> SemElos(raiz, repositorio, cs, n) && LevaADiretorio(raiz, repositorio, cs))
  {
    if diretorio == "" {
      return Ok(repositorio);
    }
    var cs := Segmentos(diretorio);
    DiretorioValidoPorSegmentos(diretorio);
    var projeto := repositorio + cs;
    var ok := ExigirSemLinks(raiz, repositorio, cs, n);
    if !ok {
      return Err(ComLinks);
    }
    SemElosResolveReto(raiz, repositorio, cs, n);
    var raizReal := EvalSymlinks(raiz, repositorio);
    if raizReal.None? {
      return Err(RepositorioNaoResolve);
    }
    var projetoReal := EvalSymlinks(raiz, projeto);
    if projetoReal.None? {
      return Err(ProjetoNaoResolve);
    }
    DentroEhPrefixo(raizReal.value, projetoReal.value);
    if !EstaDentro(raizReal.value, projetoReal.value) {
      return Err(ForaDoRepositorio);
    }
    assert [] + projetoReal.value == projetoReal.value;
    CaminhoRetoSeResolve(raiz, [], projetoReal.value, n);
    var informacao := Stat(raiz, projetoReal.value, n);
    if informacao.None? || !informacao.value.Diretorio? {
      return Err(NaoEhDiretorio);
    }
    return Ok(projeto);
  }
}
