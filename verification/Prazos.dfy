/** Deadline arithmetic across the host, the container and `go test`
    (internal/sandbox/variaveis.go, internal/sandbox/conteiner/ambiente.go and
    programa.go, internal/sandbox/golang/linguagem.go). Instants and durations
    are in nanoseconds. */
module Prazos {
  import opened Comum

  type Instante = int

  const SEGUNDO: int := 1_000_000_000
  const DURACAO_MINIMA: int := -0x8000_0000_0000_0000
  const DURACAO_MAXIMA: int := 0x7FFF_FFFF_FFFF_FFFF

  /** A bound on how long one execution may take: the 64-bit subtractions wrap
      only past 292 years. */
  const UM_SECULO: int := 100 * 366 * 86400 * SEGUNDO

  const PRAZO_PADRAO_DO_CONTAINER: int := 600 * SEGUNDO
  const MARGEM_PARA_SUBIR: int := 15 * SEGUNDO
  const PRAZO_MAXIMO: int := 86400 * SEGUNDO
  const MARGEM_PARA_ENTREGAR: int := 30 * SEGUNDO
  const TEMPO_MINIMO_DOS_TESTES: int := 30 * SEGUNDO

  /** int(d.Seconds()): truncation toward zero. */
  function SegundosInteiros(d: int): int {
    if d >= 0 then d / SEGUNDO else -((-d) / SEGUNDO)
  }

  /** time.Time.Sub saturates at the ends of the duration range. */
  function Diferenca(a: Instante, b: Instante): int {
    if a - b < DURACAO_MINIMA then DURACAO_MINIMA
    else if a - b > DURACAO_MAXIMA then DURACAO_MAXIMA
    else a - b
  }

  /** It is the duration nearest to the true difference. */
  lemma DiferencaEhAMaisProxima(a: Instante, b: Instante, d: int)
    requires -0x8000_0000_0000_0000 <= d <= 0x7FFF_FFFF_FFFF_FFFF
    ensures -0x8000_0000_0000_0000 <= Diferenca(a, b) <= 0x7FFF_FFFF_FFFF_FFFF
    ensures Afastamento(Diferenca(a, b), a - b) <= Afastamento(d, a - b)
  {
  }

  function Afastamento(x: int, y: int): nat {
    if x >= y then x - y else y - x
  }

  /** Seconds the host puts in APROVA_PRAZO_SEGUNDOS. */
  function PrazoEmSegundos(limite: Option<Instante>, agora: Instante): int {
    match limite
    case None => SegundosInteiros(PRAZO_PADRAO_DO_CONTAINER)
    case Some(h) =>
      var s := SegundosInteiros(Enrolar64(Diferenca(h, agora) - MARGEM_PARA_SUBIR));
      if s > 1 then s else 1
  }

  /** Numbers strconv.Atoi reads. */
  predicate Int64(n: int) {
    DURACAO_MINIMA <= n <= DURACAO_MAXIMA
  }

  /** The duration the container reads back, None when it refuses the value. */
  function LerPrazo(segundos: int): Option<int> {
    var prazo := Enrolar64(segundos * SEGUNDO);
    if !Int64(segundos) || prazo <= 0 || prazo > PRAZO_MAXIMO then None else Some(prazo)
  }

  /** Time left for `go test` when its stage is reached. */
  function TempoDosTestes(prazoFinal: Instante, agora: Instante): int {
    Enrolar64(Diferenca(prazoFinal, agora) - MARGEM_PARA_ENTREGAR)
  }

  /** The -timeout of `go test` in seconds for the time left, None when the
      tests do not run. */
  function Timeout(restam: int): Option<int> {
    if restam < TEMPO_MINIMO_DOS_TESTES then None else Some(SegundosInteiros(restam))
  }

  function TimeoutDosTestes(prazoFinal: Instante, agora: Instante): Option<int> {
    Timeout(TempoDosTestes(prazoFinal, agora))
  }

  lemma DivisaoInteira(d: int)
    requires d >= 0
    ensures (d / SEGUNDO) * SEGUNDO <= d < (d / SEGUNDO) * SEGUNDO + SEGUNDO
  {
  }

  /** Whatever the host writes, its product by one second fits in 64 bits, so
      the container reads the number the host meant. */
  lemma PrazoDoHostNaoEnrola(limite: Option<Instante>, agora: Instante)
    ensures var s := PrazoEmSegundos(limite, agora);
            1 <= s && Int64(s) && Enrolar64(s * SEGUNDO) == s * SEGUNDO
    ensures limite.None? ==> PrazoEmSegundos(limite, agora) == 600
    ensures limite.Some? && 16_000_000_000 <= limite.value - agora <= UM_SECULO ==>
              var s := PrazoEmSegundos(limite, agora);
              s * 1_000_000_000 <= limite.value - agora - 15_000_000_000 < (s + 1) * 1_000_000_000
  {
    if limite.Some? {
      var d := Enrolar64(Diferenca(limite.value, agora) - MARGEM_PARA_SUBIR);
      assert d <= DURACAO_MAXIMA;
      if d >= 0 {
        DivisaoInteira(d);
      }
    }
  }

  /** Exactly which host deadlines the container accepts: those less than 24 h
      and 16 s away that are not so far in the past that subtracting the margin
      wraps around. */
  lemma PrazoAceitoPeloContainer(h: Instante, agora: Instante)
    ensures LerPrazo(PrazoEmSegundos(Some(h), agora)).Some? <==>
            DURACAO_MINIMA + 15_000_000_000 <= Diferenca(h, agora) < 86_416_000_000_000
  {
    PrazoDoHostNaoEnrola(Some(h), agora);
    var d := Enrolar64(Diferenca(h, agora) - MARGEM_PARA_SUBIR);
    if d >= 0 {
      DivisaoInteira(d);
    }
  }

  /** End to end. The host at `agora` has until `h`; the container starts at
      `inicio`, no later than the 15 s margin; the tests are about to start at
      `antesDosTestes`. If they run, their timeout is at least 30 s and, counted
      from then, ends no later than 30 s before `h`; the container's own
      deadline is no later than `h`. */
  lemma PrazoDePontaAPonta(h: Instante, agora: Instante, inicio: Instante, antesDosTestes: Instante)
    requires agora <= inicio <= agora + 15_000_000_000
    requires inicio <= antesDosTestes <= inicio + UM_SECULO
    ensures var s := PrazoEmSegundos(Some(h), agora);
            LerPrazo(s).Some? ==>
              var prazoFinal := inicio + LerPrazo(s).value;
              var timeout := TimeoutDosTestes(prazoFinal, antesDosTestes);
              timeout.Some? ==>
                && prazoFinal <= h
                && timeout.value >= 30
                && antesDosTestes + timeout.value * 1_000_000_000 <= h - 30_000_000_000
  {
    var s := PrazoEmSegundos(Some(h), agora);
    PrazoDoHostNaoEnrola(Some(h), agora);
    PrazoAceitoPeloContainer(h, agora);
    if LerPrazo(s).Some? {
      var prazoFinal := inicio + LerPrazo(s).value;
      TestesRodam(inicio, LerPrazo(s).value, antesDosTestes);
      if TimeoutDosTestes(prazoFinal, antesDosTestes).Some? {
        DivisaoInteira(Diferenca(h, agora) - MARGEM_PARA_SUBIR);
        DivisaoInteira(TempoDosTestes(prazoFinal, antesDosTestes));
      }
    }
  }

  /** Within a century, the time left is the deadline less 30 s less the clock. */
  lemma TempoSemSaturar(prazoFinal: Instante, agora: Instante)
    requires -UM_SECULO <= prazoFinal - agora <= UM_SECULO
    ensures TempoDosTestes(prazoFinal, agora) == prazoFinal - agora - 30_000_000_000
  {
  }

  /** Exactly when the tests run: at least a minute of the container's own
      deadline is left when their stage is reached. */
  lemma TestesRodam(inicio: Instante, prazo: int, antesDosTestes: Instante)
    requires 0 < prazo <= 86_400_000_000_000 && inicio <= antesDosTestes <= inicio + UM_SECULO
    ensures TimeoutDosTestes(inicio + prazo, antesDosTestes).Some? <==>
            antesDosTestes - inicio <= prazo - 60_000_000_000
  {
  }

  /** The host writes one second exactly when less than 17 s are left, and a
      container given one second never runs the tests. */
  lemma PrazoMinimoNaoRodaTestes(h: Instante, agora: Instante, inicio: Instante, antesDosTestes: Instante)
    requires inicio <= antesDosTestes <= inicio + UM_SECULO
    ensures PrazoEmSegundos(Some(h), agora) == 1 <==>
            DURACAO_MINIMA + 15_000_000_000 <= Diferenca(h, agora) < 17_000_000_000
    ensures LerPrazo(1) == Some(1_000_000_000)
    ensures TimeoutDosTestes(inicio + 1_000_000_000, antesDosTestes) == None
  {
    var d := Enrolar64(Diferenca(h, agora) - MARGEM_PARA_SUBIR);
    if d >= 0 {
      DivisaoInteira(d);
    }
  }

  /** What the container documents: whole seconds from 1 to 86 400. */
  function PrazoDocumentado(segundos: int): Option<int> {
    if 1 <= segundos <= 86400 then Some(segundos * 1_000_000_000) else None
  }

  /** Beyond 9 223 372 036 the product may wrap, and a number far outside the
      range is read as a third of a second. */
  lemma PrazoEnroladoEhAceito()
    ensures LerPrazo(18_446_744_074) == Some(290_448_384)
    ensures PrazoDocumentado(18_446_744_074) == None
  {
  }

  lemma EnrolarPeloResto(n: int)
    ensures var m := n % 0x1_0000_0000_0000_0000;
            Enrolar64(n) == if m < 0x8000_0000_0000_0000 then m else m - 0x1_0000_0000_0000_0000
  {
    var q := n / 0x1_0000_0000_0000_0000;
    assert n == q * 0x1_0000_0000_0000_0000 + n % 0x1_0000_0000_0000_0000;
  }

  /** Exactly when the container keeps to its documentation: the number is in
      the range, or the low 64 bits of its product by one second are not a
      positive duration within 24 h. Up to 9 223 372 036 either way it does
      (PrazoLidoSemEnrolar). */
  lemma PrazoLidoEhODocumentado(segundos: int)
    ensures LerPrazo(segundos) == PrazoDocumentado(segundos) <==>
            1 <= segundos <= 86400 || !Int64(segundos)
            || !(1 <= (segundos * 1_000_000_000) % 0x1_0000_0000_0000_0000 <= 86_400_000_000_000)
  {
    EnrolarPeloResto(segundos * SEGUNDO);
    if 1 <= segundos <= 86400 {
      assert LerPrazo(segundos) == Some(segundos * SEGUNDO);
    }
  }

  lemma PrazoLidoSemEnrolar(segundos: int)
    requires -9_223_372_036 <= segundos <= 9_223_372_036
    ensures LerPrazo(segundos) == PrazoDocumentado(segundos)
  {
  }
}
