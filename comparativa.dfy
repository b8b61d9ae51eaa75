/**
 * The period comparison of the statistics page: each grade gets a period
 * label (its year, or its academic term, where January and February belong
 * to the second term of the previous year), the options are the distinct
 * labels newest first, and each chosen period is summarised.
 */
module Comparativa {
  import opened Common
  import opened Strings
  import opened Dates
  import opened Api

  /** The "Comparar por" select. */
  datatype Modo = PorAnio | PorCuatrimestre

  /** `Number(parts[i])`, with `None` for NaN (a missing piece, or one that is not a digit string). */
  function Campo(parts: seq<string>, i: nat): Option<nat>
  {
    if i < |parts| then ParseField(parts[i]) else None
  }

  /** A number interpolated into a template; NaN prints as `NaN`. */
  function Texto(v: Option<int>): (s: string)
    ensures |s| >= 1
  {
    if v.None? then "NaN" else IntToString(v.value)
  }

  /** `año - 1`, NaN staying NaN. */
  function Anterior(v: Option<nat>): Option<int>
  {
    if v.None? then None else Some(v.value - 1)
  }

  /**
   * `getPeriodoLabel(fechaStr, modo)`: `null` for an empty date; the year in
   * `Año` mode; otherwise March to July are the first term, August onward
   * the second, January and February the second term of the year before,
   * and a NaN month matches none of the three tests.
   */
  function EtiquetaPeriodo(fecha: string, modo: Modo): (r: Option<string>)
    ensures fecha == [] ==> r.None?
    ensures modo == PorAnio ==> (r.Some? <==> fecha != [])
    ensures r.Some? ==> |r.value| >= 1
  {
    if fecha == [] then None
    else
      var parts := Split(fecha, '-');
      var anio, mes := Campo(parts, 0), Campo(parts, 1);
      if modo == PorAnio then Some(Texto(if anio.None? then None else Some(anio.value)))
      else if mes.None? then None
      else if 3 <= mes.value <= 7 then Some(Texto(if anio.None? then None else Some(anio.value)) + "-1C")
      else if mes.value >= 8 then Some(Texto(if anio.None? then None else Some(anio.value)) + "-2C")
      else Some(Texto(Anterior(anio)) + "-2C")
  }

  /** The year and the month of a `YYYY-MM-DD` key are its first two fields. */
  lemma CamposDeFecha(d: Date)
    requires d.year >= 0 && 1 <= d.month && 1 <= d.day
    ensures FormatYmd(d) != []
    ensures Campo(Split(FormatYmd(d), '-'), 0) == Some(d.year)
    ensures Campo(Split(FormatYmd(d), '-'), 1) == Some(d.month)
  {
    ParseFormatYmd(d);
    var parts := Split(FormatYmd(d), '-');
    assert |parts| >= 3 && ParseField(parts[0]) == Some(d.year) && ParseField(parts[1]) == Some(d.month);
  }

  /**
   * On a well-formed date every month gets a label: the year in `Año` mode,
   * and in `Cuatrimestre` mode `Y-1C` for March to July, `Y-2C` from August,
   * and `(Y-1)-2C` for January and February.
   */
  lemma EtiquetaDeFecha(d: Date)
    requires d.year >= 0 && 1 <= d.month <= 12 && 1 <= d.day
    ensures EtiquetaPeriodo(FormatYmd(d), PorAnio) == Some(IntToString(d.year))
    ensures 3 <= d.month <= 7 ==> EtiquetaPeriodo(FormatYmd(d), PorCuatrimestre) == Some(IntToString(d.year) + "-1C")
    ensures 8 <= d.month ==> EtiquetaPeriodo(FormatYmd(d), PorCuatrimestre) == Some(IntToString(d.year) + "-2C")
    ensures d.month <= 2 ==> EtiquetaPeriodo(FormatYmd(d), PorCuatrimestre) == Some(IntToString(d.year - 1) + "-2C")
  {
    CamposDeFecha(d);
  }

  /** January and February share the term of the August to December before them. */
  lemma VeranoEnSegundoCuatrimestre(a: Date, b: Date)
    requires a.year >= 0 && 8 <= a.month <= 12 && 1 <= a.day
    requires b.year == a.year + 1 && 1 <= b.month <= 2 && 1 <= b.day
    ensures EtiquetaPeriodo(FormatYmd(a), PorCuatrimestre) == EtiquetaPeriodo(FormatYmd(b), PorCuatrimestre)
  {
    EtiquetaDeFecha(a);
    EtiquetaDeFecha(b);
  }

  /** The truthy labels of the real grades, in order (`.filter(n => n.nota >= 0).map(..).filter(Boolean)`). */
  function Etiquetas(notas: seq<NotaApi>, modo: Modo): seq<string>
  {
    if notas == [] then []
    else
      var e := EtiquetaPeriodo(notas[0].fecha, modo);
      var resto := Etiquetas(notas[1..], modo);
      if notas[0].nota >= 0.0 && e.Some? && e.value != "" then [e.value] + resto else resto
  }

  /** The label `p` belongs to some real grade. */
  predicate DeAlgunaNota(notas: seq<NotaApi>, modo: Modo, p: string)
  {
    exists i :: 0 <= i < |notas| && notas[i].nota >= 0.0 && EtiquetaPeriodo(notas[i].fecha, modo) == Some(p)
  }

  lemma {:induction false} EtiquetasDeNotas(notas: seq<NotaApi>, modo: Modo, p: string)
    ensures p in Etiquetas(notas, modo) <==> DeAlgunaNota(notas, modo, p)
  {
    if notas != [] {
      EtiquetasDeNotas(notas[1..], modo, p);
      if DeAlgunaNota(notas[1..], modo, p) {
        var i :| 0 <= i < |notas[1..]| && notas[1..][i].nota >= 0.0 && EtiquetaPeriodo(notas[1..][i].fecha, modo) == Some(p);
        assert notas[i + 1] == notas[1..][i];
      }
      if DeAlgunaNota(notas, modo, p) {
        var i :| 0 <= i < |notas| && notas[i].nota >= 0.0 && EtiquetaPeriodo(notas[i].fecha, modo) == Some(p);
        if i > 0 {
          assert notas[1..][i - 1] == notas[i];
        }
      }
    }
  }

  /** `[...new Set(labels)].sort().reverse()`. */
  function OpcionesPeriodos(notas: seq<NotaApi>, modo: Modo): seq<string>
  {
    Reverse(SortBy(Distintos(Etiquetas(notas, modo)), StrLe))
  }

  /**
   * The options are exactly the labels of the real grades (sentinels never
   * contribute), each once, newest first.
   */
  lemma OpcionesCorrectas(notas: seq<NotaApi>, modo: Modo)
    ensures forall p :: p in OpcionesPeriodos(notas, modo) <==> DeAlgunaNota(notas, modo, p)
    ensures SinRepetir(OpcionesPeriodos(notas, modo))
    ensures forall i :: 0 < i < |OpcionesPeriodos(notas, modo)| ==>
      StrLe(OpcionesPeriodos(notas, modo)[i], OpcionesPeriodos(notas, modo)[i - 1])
  {
    var ls := Etiquetas(notas, modo);
    forall p
      ensures p in OpcionesPeriodos(notas, modo) <==> DeAlgunaNota(notas, modo, p)
    {
      EtiquetasDeNotas(notas, modo, p);
      MiembroDistintos(ls, p);
      MiembroReverseSort(Distintos(ls), StrLe, p);
    }
    var d := Distintos(ls);
    var t := SortBy(d, StrLe);
    DistintosSinRepetir(ls);
    SinRepetirPermutacion(d, t);
    ReverseSinRepetir(t);
    StrLeTotalPreorder();
    SortBySorted(d, StrLe);
    ReverseDesciende(t, StrLe);
  }

  /** The two selects after the options change (the default-selection effect). */
  function Preseleccion(opciones: seq<string>, periodo1: string, periodo2: string): (r: (string, string))
  {
    var p1 := if |opciones| >= 1 then opciones[0] else periodo1;
    var p2 := if |opciones| >= 2 then opciones[1] else if |opciones| == 1 then opciones[0] else periodo2;
    (p1, p2)
  }

  /**
   * With options present both selects hold options, the first is the newest,
   * and with two or more options they compare two different periods; with
   * none the selects keep their values.
   */
  lemma PreseleccionCorrecta(notas: seq<NotaApi>, modo: Modo, periodo1: string, periodo2: string)
    ensures var o := OpcionesPeriodos(notas, modo);
      var r := Preseleccion(o, periodo1, periodo2);
      (o != [] ==> r.0 in o && r.1 in o && r.0 == o[0]) &&
      (|o| >= 2 ==> r.0 != r.1 && StrLe(r.1, r.0)) &&
      (|o| == 1 ==> r.0 == r.1) &&
      (o == [] ==> r == (periodo1, periodo2))
  {
    OpcionesCorrectas(notas, modo);
  }

  /** The summary of one period; the averages are exact (the `toFixed(2)` rounding is not modelled). */
  datatype Resumen = Resumen(promParciales: real, promFinales: real, aprobadas: nat, max: real, min: real)

  /** The real grades whose label is `periodo`. */
  function EnPeriodo(modo: Modo, periodo: string): NotaApi -> bool
  {
    (n: NotaApi) => n.nota >= 0.0 && EtiquetaPeriodo(n.fecha, modo) == Some(periodo)
  }

  predicate ParcialOTpComputable(n: NotaApi) { (n.esParcial || n.esTp) && n.influyePromedio }

  predicate FinalComputable(n: NotaApi) { n.esFinal && n.influyePromedio }

  predicate FinalAprobado(n: NotaApi) { n.esFinal && n.nota >= 4.0 }

  /** `promediar`: the mean, or 0 for an empty list. */
  function Promediar(arr: seq<NotaApi>): real
  {
    if arr == [] then 0.0 else Mean(arr, Valor).value
  }

  /** `calcularEstadisticas(periodoLabel)`: all zeros for an empty label. */
  function CalcularEstadisticas(notas: seq<NotaApi>, modo: Modo, periodo: string): (e: Resumen)
    ensures periodo == "" ==> e == Resumen(0.0, 0.0, 0, 0.0, 0.0)
    ensures periodo != "" && Filter(notas, EnPeriodo(modo, periodo)) != [] ==>
      e.min <= e.max &&
      forall n :: n in Filter(notas, EnPeriodo(modo, periodo)) ==> e.min <= n.nota <= e.max
  {
    if periodo == "" then Resumen(0.0, 0.0, 0, 0.0, 0.0)
    else
      var filtradas := Filter(notas, EnPeriodo(modo, periodo));
      Resumen(Promediar(Filter(filtradas, ParcialOTpComputable)),
              Promediar(Filter(filtradas, FinalComputable)),
              Count(filtradas, FinalAprobado),
              if filtradas == [] then 0.0 else MaxReal(filtradas, Valor),
              if filtradas == [] then 0.0 else MinReal(filtradas, Valor))
  }

  /**
   * Each summary counts the approved finals of the period, and both averages
   * lie between the period's lowest and highest grade.
   */
  lemma EstadisticasAcotadas(notas: seq<NotaApi>, modo: Modo, periodo: string)
    requires periodo != ""
    ensures var f := Filter(notas, EnPeriodo(modo, periodo));
      var e := CalcularEstadisticas(notas, modo, periodo);
      e.aprobadas == |Filter(f, FinalAprobado)| &&
      (Filter(f, ParcialOTpComputable) != [] ==> e.min <= e.promParciales <= e.max) &&
      (Filter(f, FinalComputable) != [] ==> e.min <= e.promFinales <= e.max)
  {
    var f := Filter(notas, EnPeriodo(modo, periodo));
    var e := CalcularEstadisticas(notas, modo, periodo);
    FilterCount(f, FinalAprobado);
    if Filter(f, ParcialOTpComputable) != [] {
      PromedioEntre(f, ParcialOTpComputable, e.min, e.max);
    }
    if Filter(f, FinalComputable) != [] {
      PromedioEntre(f, FinalComputable, e.min, e.max);
    }
  }

  lemma PromedioEntre(f: seq<NotaApi>, p: NotaApi -> bool, lo: real, hi: real)
    requires forall n :: n in f ==> lo <= n.nota <= hi
    requires Filter(f, p) != []
    ensures lo <= Promediar(Filter(f, p)) <= hi
  {
    MeanBounds(Filter(f, p), Valor, lo, hi);
  }

  /** The trend arrow between two periods. */
  datatype Tendencia = Sube | Baja | Igual

  function TendenciaDe(actual: real, anterior: real): Tendencia
  {
    if actual > anterior then Sube else if actual < anterior then Baja else Igual
  }

  /** Up exactly when the other comparison is down, and flat both ways or neither. */
  lemma TendenciaSimetrica(actual: real, anterior: real)
    ensures TendenciaDe(actual, anterior) == Sube <==> TendenciaDe(anterior, actual) == Baja
    ensures TendenciaDe(actual, anterior) == Igual <==> actual == anterior
    ensures TendenciaDe(actual, anterior) == Igual <==> TendenciaDe(anterior, actual) == Igual
  {
  }
}
