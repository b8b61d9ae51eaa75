/**
 * The "promedios" achievements: thresholds on the overall average, on the
 * averages of partial exams and practical works, of years, halves, thirds
 * and the first term of the history in date order, of subjects and of
 * levels, and the moving averages of `sin_bajar_promedio`.
 */
module LogrosPromedios {
  import opened Common
  import opened LogrosDatos

  /** `promedio_6`, `_7`, `_8`, `_9`, `_9_5` and `top_10_percent`. */
  predicate PromedioAlMenos(notas: seq<Nota>, k: real)
  {
    PromedioGeneral(notas) >= k
  }

  /** `promedio_10`: ten valid grades or more, all of them 10. */
  predicate Promedio10(notas: seq<Nota>)
  {
    var v := Filter(notas, CuentaPromedio);
    |v| >= 10 && forall i :: 0 <= i < |v| ==> v[i].nota == 10.0
  }

  predicate ParcialValido(n: Nota) { n.esParcial && CuentaPromedio(n) }
  predicate TpValido(n: Nota) { n.esTp && CuentaPromedio(n) }

  /** At least `minimo` grades of `g` count towards the average, and some do, and their mean reaches `k`. */
  predicate MediaValidaAlMenos(g: seq<Nota>, minimo: nat, k: real)
  {
    var v := Filter(g, CuentaPromedio);
    |v| >= minimo && v != [] && Mean(v, Valor).value >= k
  }

  /** The same test as a predicate on a group, for the dictionary conditions. */
  function GrupoConMedia(minimo: nat, k: real): seq<Nota> -> bool
  {
    (g: seq<Nota>) => MediaValidaAlMenos(g, minimo, k)
  }

  /** `promedio_parciales_8`: ten valid partial exams or more with a mean of at least 8. */
  predicate PromedioParciales8(notas: seq<Nota>)
  {
    var v := Filter(notas, ParcialValido);
    |v| >= 10 && Mean(v, Valor).value >= 8.0
  }

  /** `promedio_tps_9`: ten valid practical works or more with a mean of at least 9. */
  predicate PromedioTps9(notas: seq<Nota>)
  {
    var v := Filter(notas, TpValido);
    |v| >= 10 && Mean(v, Valor).value >= 9.0
  }

  function Anio(n: Nota): int { n.fecha.year }

  /** `mantener_promedio_8_year`: some calendar year with ten valid grades or more and a mean of at least 8. */
  predicate Mantener8Year(notas: seq<Nota>)
  {
    AlgunGrupo(notas, Anio, GrupoConMedia(10, 8.0))
  }

  /** The dictionary by year and the loop over its entries. */
  method VerificarMantener8Year(notas: seq<Nota>) returns (b: bool)
    ensures b == Mantener8Year(notas)
  {
    b := BuscarGrupo(notas, Anio, GrupoConMedia(10, 8.0));
  }

  /** The valid grades of the first and of the second half of the history in date order. */
  function PrimeraMitad(notas: seq<Nota>): seq<Nota>
  {
    var s := OrdenarPorFecha(notas);
    Filter(s[..|s| / 2], CuentaPromedio)
  }

  function SegundaMitad(notas: seq<Nota>): seq<Nota>
  {
    var s := OrdenarPorFecha(notas);
    Filter(s[|s| / 2..], CuentaPromedio)
  }

  /** `subir_promedio_1punto`: the second half's mean beats the first half's by a point or more. */
  predicate Subir1Punto(notas: seq<Nota>)
  {
    var v1, v2 := PrimeraMitad(notas), SegundaMitad(notas);
    |notas| >= 2 && v1 != [] && v2 != [] && Mean(v2, Valor).value - Mean(v1, Valor).value >= 1.0
  }

  /** `mejor_promedio_ultimo_cuatri`: ten grades or more and a better second half. */
  predicate MejorUltimoCuatri(notas: seq<Nota>)
  {
    var v1, v2 := PrimeraMitad(notas), SegundaMitad(notas);
    |notas| >= 10 && v1 != [] && v2 != [] && Mean(v2, Valor).value > Mean(v1, Valor).value
  }

  /** `mantener_7_50notas`: fifty valid grades or more with a mean of at least 7. */
  predicate Mantener7Con50(notas: seq<Nota>)
  {
    MediaValidaAlMenos(notas, 50, 7.0)
  }

  /** The three thirds of the history in date order; the last one takes the remainder. */
  function Tercios(notas: seq<Nota>): (seq<Nota>, seq<Nota>, seq<Nota>)
  {
    var s := OrdenarPorFecha(notas);
    var t := |s| / 3;
    (s[..t], s[t..2 * t], s[2 * t..])
  }

  /**
   * `recuperacion_promedio`: thirty grades or more, and the middle third's
   * average (`calcular_promedio_tercio`, which is `_calcular_promedio_general`)
   * below both the first and the last, the last above the first.
   */
  predicate RecuperacionPromedio(notas: seq<Nota>)
  {
    var (a, b, c) := Tercios(notas);
    var p1, p2, p3 := PromedioGeneral(a), PromedioGeneral(b), PromedioGeneral(c);
    |notas| >= 30 && p2 < p1 && p3 > p2 && p3 > p1
  }

  /** `promedio_primer_cuatri_8`: the valid grades among the first fifteen by date average at least 8. */
  predicate PrimerCuatri8(notas: seq<Nota>)
  {
    var s := OrdenarPorFecha(notas);
    |notas| != 0 && MediaValidaAlMenos(s[..if 15 < |s| then 15 else |s|], 1, 8.0)
  }

  function AbsReal(x: real): real { if x >= 0.0 then x else -x }

  /** `equilibrado`: five valid partial exams and five valid practical works, their means at most half a point apart. */
  predicate Equilibrado(notas: seq<Nota>)
  {
    var vp, vt := Filter(notas, ParcialValido), Filter(notas, TpValido);
    |vp| >= 5 && |vt| >= 5 && AbsReal(Mean(vp, Valor).value - Mean(vt, Valor).value) <= 0.5
  }

  // ----- sin_bajar_promedio -----

  /**
   * The moving averages of a window: one per pair of positions `j, j + 1`
   * for `j = 0, 2, 4, ...`, kept only when both grades of the pair count.
   */
  function PromediosMoviles(v: seq<Nota>): seq<real>
  {
    PorPares(v, MediaDelPar)
  }

  /** The mean of a pair when both of its grades count, and nothing otherwise. */
  function MediaDelPar(par: seq<Nota>): seq<real>
  {
    var validas := Filter(par, CuentaPromedio);
    if |validas| >= 2 then [Mean(validas, Valor).value] else []
  }

  /** No moving average is below the one before it (the source's `bajando` flag). */
  predicate SinCaida(p: seq<real>)
  {
    forall k :: 1 <= k < |p| ==> p[k] >= p[k - 1]
  }

  predicate VentanaSinBajar(v: seq<Nota>)
  {
    var p := PromediosMoviles(v);
    |p| >= 2 && SinCaida(p)
  }

  /** The window of twenty that starts at position `i`. */
  predicate VentanaSinBajarEn(s: seq<Nota>, i: int)
    requires 0 <= i && i + 20 <= |s|
  {
    VentanaSinBajar(s[i..i + 20])
  }

  /** `sin_bajar_promedio`: some window of twenty consecutive grades by date whose moving averages never drop. */
  predicate SinBajarPromedio(notas: seq<Nota>)
  {
    var s := OrdenarPorFecha(notas);
    |notas| >= 20 && exists i :: 0 <= i <= |s| - 20 && VentanaSinBajarEn(s, i)
  }

  /** The inner loop over the pairs of a window. */
  method CalcularPromediosMoviles(ventana: seq<Nota>) returns (promedios: seq<real>)
    ensures promedios == PromediosMoviles(ventana)
  {
    promedios := [];
    var j := 0;
    while j < |ventana| - 1
      invariant PorParesHasta(ventana, MediaDelPar, j, promedios)
      decreases |ventana| - j
    {
      var validas := Filter(ventana[j..j + 2], CuentaPromedio);
      PorParesAvanza(ventana, MediaDelPar, j, promedios);
      if |validas| >= 2 {
        promedios := promedios + [Mean(validas, Valor).value];
      } else {
        assert promedios + MediaDelPar(ventana[j..j + 2]) == promedios;
      }
      j := j + 2;
    }
    PorParesFin(ventana, MediaDelPar, j, promedios);
  }

  /** The `bajando` loop, with its `break`. */
  method VerificarSinCaida(p: seq<real>) returns (bajando: bool)
    ensures bajando == SinCaida(p)
  {
    bajando := true;
    var k := 1;
    while k < |p|
      invariant 1 <= k
      invariant forall m :: 1 <= m < k && m < |p| ==> p[m] >= p[m - 1]
    {
      if p[k] < p[k - 1] {
        bajando := false;
        break;
      }
      k := k + 1;
    }
  }

  /** The outer loop over the windows of twenty. */
  method VerificarSinBajarPromedio(notas: seq<Nota>) returns (b: bool)
    ensures b == SinBajarPromedio(notas)
  {
    if |notas| < 20 {
      return false;
    }
    var s := OrdenarPorFecha(notas);
    var i := 0;
    while i < |s| - 19
      invariant 0 <= i <= |s| - 19
      invariant forall k :: 0 <= k < i ==> !VentanaSinBajarEn(s, k)
    {
      var promedios := CalcularPromediosMoviles(s[i..i + 20]);
      if |promedios| >= 2 {
        var bajando := VerificarSinCaida(promedios);
        if bajando {
          assert VentanaSinBajarEn(s, i);
          return true;
        }
      }
      i := i + 1;
    }
    return false;
  }

  /** A sequence that never drops is ordered: every later average is at least every earlier one. */
  lemma {:induction false} SinCaidaOrdenada(p: seq<real>, a: int, b: int)
    requires SinCaida(p) && 0 <= a <= b < |p|
    ensures p[a] <= p[b]
    decreases b - a
  {
    if a < b {
      SinCaidaOrdenada(p, a, b - 1);
    }
  }

  /** Each moving average is the mean of a valid pair: at least 4 and, on the 0 to 10 scale, at most 10. */
  lemma {:induction false} PromediosMovilesRango(v: seq<Nota>)
    requires forall i :: 0 <= i < |v| ==> v[i].nota <= 10.0
    ensures |PromediosMoviles(v)| <= |v| / 2
    ensures forall k :: 0 <= k < |PromediosMoviles(v)| ==> 4.0 <= PromediosMoviles(v)[k] <= 10.0
    decreases |v|
  {
    if |v| >= 2 {
      var validas := Filter(v[..2], CuentaPromedio);
      if |validas| >= 2 {
        MeanBounds(validas, Valor, 4.0, 10.0);
      }
      PromediosMovilesRango(v[2..]);
      assert PromediosMoviles(v) == MediaDelPar(v[..2]) + PromediosMoviles(v[2..]);
    }
  }

  // ----- conditions over subjects and levels -----

  /** The grade's enrolment exists (the source's `if inscripcion:`). */
  function ConInscripcion(inscs: seq<Inscripcion>): Nota -> bool
  {
    (n: Nota) => InscripcionDe(inscs, n).Some?
  }

  /** The subject of a grade whose enrolment exists. */
  function MateriaDeNota(inscs: seq<Inscripcion>): Nota -> string
  {
    (n: Nota) => match InscripcionDe(inscs, n) case Some(i) => i.materiaId case None => ""
  }

  /**
   * `promedio_7_todas_materias`: some grade has an enrolment, and every
   * subject with grades has a valid grade and a mean of valid grades of at least 7.
   */
  predicate Promedio7TodasMaterias(notas: seq<Nota>, inscs: seq<Inscripcion>)
  {
    var ns := Filter(notas, ConInscripcion(inscs));
    ns != [] && TodoGrupo(ns, MateriaDeNota(inscs), GrupoConMedia(1, 7.0))
  }

  method VerificarPromedio7TodasMaterias(notas: seq<Nota>, inscs: seq<Inscripcion>) returns (b: bool)
    ensures b == Promedio7TodasMaterias(notas, inscs)
  {
    var ns := Filter(notas, ConInscripcion(inscs));
    b := TodosLosGrupos(ns, MateriaDeNota(inscs), GrupoConMedia(1, 7.0));
  }

  /** The grade's enrolment and that enrolment's subject both exist. */
  function ConMateria(inscs: seq<Inscripcion>, materias: seq<Materia>): Nota -> bool
  {
    (n: Nota) =>
      match InscripcionDe(inscs, n)
      case Some(i) => MateriaPorId(materias, i.materiaId).Some?
      case None => false
  }

  function NivelDeNota(inscs: seq<Inscripcion>, materias: seq<Materia>): Nota -> int
  {
    (n: Nota) =>
      match InscripcionDe(inscs, n)
      case Some(i) => (match MateriaPorId(materias, i.materiaId) case Some(m) => m.nivel case None => 0)
      case None => 0
  }

  /** `promedio_9_nivel`: some level with five valid grades or more and a mean of at least 9. */
  predicate Promedio9Nivel(notas: seq<Nota>, inscs: seq<Inscripcion>, materias: seq<Materia>)
  {
    var ns := Filter(notas, ConMateria(inscs, materias));
    AlgunGrupo(ns, NivelDeNota(inscs, materias), GrupoConMedia(5, 9.0))
  }

  method VerificarPromedio9Nivel(notas: seq<Nota>, inscs: seq<Inscripcion>, materias: seq<Materia>) returns (b: bool)
    ensures b == Promedio9Nivel(notas, inscs, materias)
  {
    var ns := Filter(notas, ConMateria(inscs, materias));
    b := BuscarGrupo(ns, NivelDeNota(inscs, materias), GrupoConMedia(5, 9.0));
  }

  /** `promedio_8_mitad_carrera`: half of the degree done and an overall average of at least 8. */
  predicate Promedio8MitadCarrera(notas: seq<Nota>, inscs: seq<Inscripcion>, materias: seq<Materia>)
  {
    PorcentajeCarrera(inscs, materias) >= 0.5 && PromedioGeneral(notas) >= 8.0
  }

  // ----- properties -----

  /** Ten perfect valid grades make the overall average exactly 10. */
  lemma Promedio10EsDiez(notas: seq<Nota>)
    requires Promedio10(notas)
    ensures PromedioGeneral(notas) == 10.0
    ensures PromedioAlMenos(notas, 9.5)
  {
    var v := Filter(notas, CuentaPromedio);
    MeanBounds(v, Valor, 10.0, 10.0);
    PromedioGeneralEsMedia(notas);
  }

  /** Fifty valid grades averaging 7 give `promedio_7` too. */
  lemma Mantener7Con50EsPromedio7(notas: seq<Nota>)
    requires Mantener7Con50(notas)
    ensures PromedioAlMenos(notas, 7.0)
    ensures Count(notas, CuentaPromedio) >= 50
  {
    PromedioGeneralEsMedia(notas);
    FilterCount(notas, CuentaPromedio);
  }

  /** The typed averages rest on at least ten valid grades overall. */
  lemma PromediosTipadosCuentan(notas: seq<Nota>)
    ensures PromedioParciales8(notas) ==> Count(notas, CuentaPromedio) >= 10
    ensures PromedioTps9(notas) ==> Count(notas, CuentaPromedio) >= 10
    ensures Equilibrado(notas) ==> Count(notas, CuentaPromedio) >= 5
  {
    FilterCount(notas, ParcialValido);
    FilterCount(notas, TpValido);
    CountWeaken(notas, ParcialValido, CuentaPromedio);
    CountWeaken(notas, TpValido, CuentaPromedio);
  }

  /** Gaining a point with ten grades or more is a better second half. */
  lemma Subir1PuntoEsMejorUltimo(notas: seq<Nota>)
    requires |notas| >= 10 && Subir1Punto(notas)
    ensures MejorUltimoCuatri(notas)
  {
  }

  /** The thirds cover the sorted history in order. */
  lemma TerciosParticion(notas: seq<Nota>)
    ensures Tercios(notas).0 + Tercios(notas).1 + Tercios(notas).2 == OrdenarPorFecha(notas)
    ensures |Tercios(notas).0| == |Tercios(notas).1| == |notas| / 3
  {
    var s := OrdenarPorFecha(notas);
    var t := |s| / 3;
    assert s[..t] + s[t..2 * t] + s[2 * t..] == s;
  }

  /** A recovery needs valid grades in the first third: its average must beat a non-negative one. */
  lemma RecuperacionTienePrimerTercio(notas: seq<Nota>)
    requires RecuperacionPromedio(notas)
    ensures Filter(Tercios(notas).0, CuentaPromedio) != []
    ensures Filter(Tercios(notas).2, CuentaPromedio) != []
  {
    var (a, b, c) := Tercios(notas);
    PromedioNoNegativo(b);
    PromedioGeneralEsMedia(a);
    PromedioGeneralEsMedia(c);
  }

  lemma PromedioNoNegativo(notas: seq<Nota>)
    ensures PromedioGeneral(notas) >= 0.0
  {
    if exists i :: 0 <= i < |notas| && CuentaPromedio(notas[i]) {
      PromedioGeneralAprobado(notas);
    }
  }

  /** With a single year of grades, `mantener_promedio_8_year` is the test on the whole history. */
  lemma Mantener8UnAnio(notas: seq<Nota>, y: int)
    requires notas != [] && forall i :: 0 <= i < |notas| ==> notas[i].fecha.year == y
    ensures Mantener8Year(notas) <==> MediaValidaAlMenos(notas, 10, 8.0)
  {
    GrupoUnico(notas, Anio, y);
    assert Anio(notas[0]) == y;
  }

  /** Half the degree and an 8 average imply `promedio_8`. */
  lemma MitadCarreraEsPromedio8(notas: seq<Nota>, inscs: seq<Inscripcion>, materias: seq<Materia>)
    requires Promedio8MitadCarrera(notas, inscs, materias)
    ensures PromedioAlMenos(notas, 8.0)
  {
  }
}
