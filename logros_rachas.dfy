/**
 * The "rachas y consistencia" achievements: streaks over the date-sorted
 * grades, months and terms without a failure, rising term averages, seven
 * subjects within a year, and the seasonal counts.
 */
module LogrosRachas {
  import opened Common
  import opened Strings
  import opened Dates
  import opened LogrosDatos

  /** A streak of `n` grades satisfying `p` in date order (the `racha` counter loops). */
  predicate RachaOrdenada(notas: seq<Nota>, p: Nota -> bool, n: nat)
  {
    HasRun(OrdenarPorFecha(notas), p, n)
  }

  /** `racha_3_dieces`: three adjacent 10s among the date-sorted grades. */
  predicate Racha3Dieces(notas: seq<Nota>)
  {
    var s := OrdenarPorFecha(notas);
    |s| >= 3 && exists i :: 0 <= i < |s| - 2 && TresDiecesDesde(s, i)
  }

  /** The grades at `i`, `i + 1` and `i + 2` are 10s. */
  predicate TresDiecesDesde(s: seq<Nota>, i: int)
    requires 0 <= i < |s| - 2
  {
    s[i].nota == 10.0 && s[i + 1].nota == 10.0 && s[i + 2].nota == 10.0
  }

  /** The three-adjacent test is the streak of three 10s. */
  lemma Racha3DiecesEsRacha(notas: seq<Nota>)
    ensures Racha3Dieces(notas) <==> RachaOrdenada(notas, NotaIgual(10.0), 3)
  {
    TresDiecesEsRacha(OrdenarPorFecha(notas));
  }

  lemma TresDiecesEsRacha(s: seq<Nota>)
    ensures (|s| >= 3 && exists i :: 0 <= i < |s| - 2 && TresDiecesDesde(s, i)) <==> HasRun(s, NotaIgual(10.0), 3)
  {
    var p := NotaIgual(10.0);
    if |s| >= 3 && exists i :: 0 <= i < |s| - 2 && TresDiecesDesde(s, i) {
      var i :| 0 <= i < |s| - 2 && TresDiecesDesde(s, i);
      assert p(s[i]) && p(s[i + 1]) && p(s[i + 2]);
      RunDeTres(s, p, i);
    }
    if HasRun(s, p, 3) {
      var k :| 0 <= k <= |s| - 3 && RunAt(s, p, k, 3);
      RunDeTres(s, p, k);
      assert TresDiecesDesde(s, k);
    }
  }

  /** A run of three is three adjacent elements. */
  lemma RunDeTres<T>(s: seq<T>, p: T -> bool, k: int)
    requires 0 <= k && k + 3 <= |s|
    ensures RunAt(s, p, k, 3) <==> p(s[k]) && p(s[k + 1]) && p(s[k + 2])
  {
    if p(s[k]) && p(s[k + 1]) && p(s[k + 2]) {
      forall j | k <= j < k + 3 ensures p(s[j]) {
        assert j == k || j == k + 1 || j == k + 2;
      }
    }
  }

  /** `racha_parciales` (5) and `racha_tps` (10): passed partials or practical works in a row. */
  predicate RachaDeTipo(notas: seq<Nota>, tipo: Nota -> bool, n: nat)
  {
    RachaOrdenada(Filter(notas, tipo), NotaAlMenos(4.0), n)
  }

  /** The source's loop for one streak condition. */
  method VerificarRacha(notas: seq<Nota>, p: Nota -> bool, n: nat) returns (b: bool)
    requires n >= 1
    ensures b == RachaOrdenada(notas, p, n)
  {
    var notasOrdenadas := OrdenarPorFecha(notas);
    b := Racha(notasOrdenadas, p, n);
  }

  /**
   * The tiers of the streak achievements are nested: ten passes contain
   * five, five 8s are five 7s, and five 7s are five passes.
   */
  lemma RachasEscalonadas(notas: seq<Nota>)
    ensures RachaOrdenada(notas, NotaAlMenos(4.0), 10) ==> RachaOrdenada(notas, NotaAlMenos(4.0), 5)
    ensures RachaOrdenada(notas, NotaAlMenos(8.0), 5) ==> RachaOrdenada(notas, NotaAlMenos(7.0), 5)
    ensures RachaOrdenada(notas, NotaAlMenos(7.0), 5) ==> RachaOrdenada(notas, NotaAlMenos(4.0), 5)
  {
    var s := OrdenarPorFecha(notas);
    if HasRun(s, NotaAlMenos(4.0), 10) {
      HasRunShorter(s, NotaAlMenos(4.0), 10, 5);
    }
    if HasRun(s, NotaAlMenos(8.0), 5) {
      HasRunWeaken(s, NotaAlMenos(8.0), NotaAlMenos(7.0), 5);
    }
    if HasRun(s, NotaAlMenos(7.0), 5) {
      HasRunWeaken(s, NotaAlMenos(7.0), NotaAlMenos(4.0), 5);
    }
  }

  /** `f"{fecha.year}-{fecha.month:02d}"`. */
  function MesAnio(n: Nota): string
  {
    IntToString(n.fecha.year) + "-" + PadStart(IntToString(n.fecha.month), 2, '0')
  }

  /** `sin_desaprobar_mes`: some month whose grades all pass. */
  predicate SinDesaprobarMes(notas: seq<Nota>)
  {
    AlgunGrupo(notas, MesAnio, TodosCumplen(NotaAlMenos(4.0)))
  }

  /** An enrolment with a truthy `cuatrimestre`: present and not the empty string. */
  predicate ConCuatrimestre(i: Inscripcion)
  {
    i.cuatrimestre.Some? && i.cuatrimestre.value != ""
  }

  function CuatrimestreDe(i: Inscripcion): string
  {
    match i.cuatrimestre case Some(c) => c case None => ""
  }

  /** `todas_materias_aprobadas_cuatri`: some term whose enrolments are all approved. */
  predicate TodasAprobadasCuatri(inscs: seq<Inscripcion>)
  {
    AlgunGrupo(Filter(inscs, ConCuatrimestre), CuatrimestreDe, TodosCumplen(Aprobada))
  }

  /** The term of a month for `mejora_continua`: 1 for February to June, 2 for August to December, else none. */
  function CuatriDeMes(mes: int): (c: int)
    ensures c in {0, 1, 2}
    ensures c == 1 <==> 2 <= mes <= 6
    ensures c == 2 <==> 8 <= mes <= 12
  {
    if 2 <= mes <= 6 then 1 else if 8 <= mes <= 12 then 2 else 0
  }

  predicate EnCuatrimestre(n: Nota) { CuatriDeMes(n.fecha.month) != 0 }

  /** The key `(año, cuatri)` the dictionary entries are sorted by. */
  datatype Periodo = Periodo(anio: int, cuatri: int)

  function PeriodoDe(n: Nota): Periodo { Periodo(n.fecha.year, CuatriDeMes(n.fecha.month)) }

  /** Tuple order on `(año, cuatri)`. */
  predicate PeriodoLe(a: Periodo, b: Periodo)
  {
    a.anio < b.anio || (a.anio == b.anio && a.cuatri <= b.cuatri)
  }

  /** `f"{año}-{cuatrimestre}"`, the dictionary key. */
  function ClavePeriodo(p: Periodo): string
    requires p.anio >= 0 && p.cuatri >= 0
  {
    NatToString(p.anio) + "-" + NatToString(p.cuatri)
  }

  /** `año, cuatri = key.split('-')` then `int(...)` recovers the period from its key. */
  lemma ClavePeriodoRoundTrip(p: Periodo)
    requires p.anio >= 0 && p.cuatri >= 0
    ensures Split(ClavePeriodo(p), '-') == [NatToString(p.anio), NatToString(p.cuatri)]
    ensures ParseNat(Split(ClavePeriodo(p), '-')[0]) == p.anio
    ensures ParseNat(Split(ClavePeriodo(p), '-')[1]) == p.cuatri
  {
    var a, b := NatToString(p.anio), NatToString(p.cuatri);
    DigitsExclude(a, '-');
    DigitsExclude(b, '-');
    SplitTwo(a, b, '-');
    ParseNatToString(p.anio);
    ParseNatToString(p.cuatri);
  }

  /** The grades that fall in a term. */
  function NotasEnCuatrimestre(notas: seq<Nota>): seq<Nota>
  {
    Filter(notas, EnCuatrimestre)
  }

  /** The dictionary's keys in `(año, cuatri)` order, each once. */
  function PeriodosOrdenados(notas: seq<Nota>): seq<Periodo>
  {
    Dedup(SortBy(PeriodosDe(NotasEnCuatrimestre(notas)), PeriodoLe))
  }

  /** The period of each grade, in order. */
  function PeriodosDe(ns: seq<Nota>): (ks: seq<Periodo>)
    ensures |ks| == |ns| && forall i :: 0 <= i < |ns| ==> ks[i] == PeriodoDe(ns[i])
  {
    seq(|ns|, i requires 0 <= i < |ns| => PeriodoDe(ns[i]))
  }

  /** The mean of a group; the groups of a dictionary are never empty. */
  function MediaGrupo(g: seq<Nota>): real
  {
    if g == [] then 0.0 else Mean(g, Valor).value
  }

  /** The averages of the periods, in period order. */
  function PromediosPorPeriodo(notas: seq<Nota>): (r: seq<real>)
    ensures |r| == |PeriodosOrdenados(notas)|
  {
    var ns := NotasEnCuatrimestre(notas);
    var ps := PeriodosOrdenados(notas);
    seq(|ps|, i requires 0 <= i < |ps| => MediaGrupo(Grupo(ns, PeriodoDe, ps[i])))
  }

  /** `mejora_continua`: three or more periods and three consecutive rising averages. */
  predicate MejoraContinua(notas: seq<Nota>)
  {
    var ps := PromediosPorPeriodo(notas);
    |ps| >= 3 && exists i :: 0 <= i < |ps| - 2 && ps[i] < ps[i + 1] < ps[i + 2]
  }

  lemma PeriodoLeTotal()
    ensures TotalPreorder(PeriodoLe)
  {
  }

  /**
   * The sorted keys are exactly the periods of the grades that fall in a
   * term, each once, in strictly increasing `(año, cuatri)` order.
   */
  lemma PeriodosOrdenadosCorrectos(notas: seq<Nota>)
    ensures forall i :: 0 < i < |PeriodosOrdenados(notas)| ==>
      PeriodoLe(PeriodosOrdenados(notas)[i - 1], PeriodosOrdenados(notas)[i]) &&
      PeriodosOrdenados(notas)[i - 1] != PeriodosOrdenados(notas)[i]
    ensures forall n :: n in NotasEnCuatrimestre(notas) ==> PeriodoDe(n) in PeriodosOrdenados(notas)
    ensures forall p :: p in PeriodosOrdenados(notas) ==> exists n :: n in NotasEnCuatrimestre(notas) && PeriodoDe(n) == p
  {
    PeriodosCrecientes(notas);
    PeriodosCubren(notas);
    PeriodosDeLasNotas(notas);
  }

  lemma PeriodosCrecientes(notas: seq<Nota>)
    ensures forall i :: 0 < i < |PeriodosOrdenados(notas)| ==>
      PeriodoLe(PeriodosOrdenados(notas)[i - 1], PeriodosOrdenados(notas)[i]) &&
      PeriodosOrdenados(notas)[i - 1] != PeriodosOrdenados(notas)[i]
  {
    var ks := PeriodosDe(NotasEnCuatrimestre(notas));
    PeriodoLeTotal();
    SortBySorted(ks, PeriodoLe);
    DedupSorted(SortBy(ks, PeriodoLe), PeriodoLe);
  }

  lemma PeriodosCubren(notas: seq<Nota>)
    ensures forall n :: n in NotasEnCuatrimestre(notas) ==> PeriodoDe(n) in PeriodosOrdenados(notas)
  {
    var ns := NotasEnCuatrimestre(notas);
    var ks := PeriodosDe(ns);
    var sorted := SortBy(ks, PeriodoLe);
    forall n | n in ns
      ensures PeriodoDe(n) in PeriodosOrdenados(notas)
    {
      var i :| 0 <= i < |ns| && ns[i] == n;
      assert ks[i] in multiset(sorted);
      var j :| 0 <= j < |sorted| && sorted[j] == ks[i];
    }
  }

  lemma PeriodosDeLasNotas(notas: seq<Nota>)
    ensures forall p :: p in PeriodosOrdenados(notas) ==> exists n :: n in NotasEnCuatrimestre(notas) && PeriodoDe(n) == p
  {
    var ns := NotasEnCuatrimestre(notas);
    var ks := PeriodosDe(ns);
    forall p | p in PeriodosOrdenados(notas)
      ensures exists n :: n in ns && PeriodoDe(n) == p
    {
      assert p in multiset(ks);
      var i :| 0 <= i < |ks| && ks[i] == p;
      assert ns[i] in ns;
    }
  }

  /** An approved enrolment with an approval date. */
  predicate AprobadaConFecha(i: Inscripcion) { Aprobada(i) && i.fechaAprobacion.Some? }

  function FechaAprobacion(i: Inscripcion): Date
  {
    match i.fechaAprobacion case Some(d) => d case None => Date(1970, 1, 1)
  }

  predicate FechaAprobacionLe(a: Inscripcion, b: Inscripcion)
  {
    !DateLt(FechaAprobacion(b), FechaAprobacion(a))
  }

  /** `racha_7_materias`: seven approvals, in date order, spanning less than 365 days. */
  predicate Racha7Materias(inscs: seq<Inscripcion>)
  {
    var aprobadas := Filter(inscs, AprobadaConFecha);
    var s := SortBy(aprobadas, FechaAprobacionLe);
    |aprobadas| >= 7 &&
    exists i :: 0 <= i < |s| - 6 && DayNumber(FechaAprobacion(s[i + 6])) - DayNumber(FechaAprobacion(s[i])) < 365
  }

  /** `sin_desaprobar_20`: twenty grades or more, the last twenty in date order all passed. */
  predicate SinDesaprobar20(notas: seq<Nota>)
  {
    var s := OrdenarPorFecha(notas);
    |notas| >= 20 && forall i :: |s| - 20 <= i < |s| ==> s[i].nota >= 4.0
  }

  /** Twenty final passes are a streak of twenty, and so a streak of ten. */
  lemma SinDesaprobar20EsRacha(notas: seq<Nota>)
    ensures SinDesaprobar20(notas) ==> RachaOrdenada(notas, NotaAlMenos(4.0), 20)
    ensures SinDesaprobar20(notas) ==> RachaOrdenada(notas, NotaAlMenos(4.0), 10)
  {
    var s := OrdenarPorFecha(notas);
    if SinDesaprobar20(notas) {
      assert RunAt(s, NotaAlMenos(4.0), |s| - 20, 20);
      HasRunShorter(s, NotaAlMenos(4.0), 20, 10);
    }
  }

  /** A passed grade dated in one of the months of `meses`. */
  function AprobadaEnMeses(meses: set<int>): Nota -> bool
  {
    (n: Nota) => n.fecha.month in meses && n.nota >= 4.0
  }

  /** `racha_verano` (months 1, 2, 12) and `racha_invierno` (6, 7, 8): three passes in the season. */
  predicate RachaEstacion(notas: seq<Nota>, meses: set<int>)
  {
    Count(notas, AprobadaEnMeses(meses)) >= 3
  }
}
