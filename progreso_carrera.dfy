/**
 * The career-progress card of the dashboard: the counts by status, the
 * elective credits, the per-year bars and the overall percentage, which
 * uses the ratio of the achievement service's career percentage.
 */
module ProgresoCarrera {
  import opened Common
  import opened Api
  import LogrosDatos

  function ConEstado(e: string): InscripcionApi -> bool
  {
    (i: InscripcionApi) => i.estado == e
  }

  /** `inscripciones.filter(i => i.estado === 'aprobada')`. */
  function Aprobadas(inscs: seq<InscripcionApi>): seq<InscripcionApi>
  {
    Filter(inscs, ConEstado("aprobada"))
  }

  /** The number shown for one status. */
  function Cuantas(inscs: seq<InscripcionApi>, e: string): nat
  {
    |Filter(inscs, ConEstado(e))|
  }

  function AprobadaOCursando(i: InscripcionApi): bool
  {
    i.estado == "aprobada" || i.estado == "cursando"
  }

  function Activa(i: InscripcionApi): bool
  {
    AprobadaOCursando(i) || i.estado == "regular"
  }

  /**
   * No enrolment is counted under two statuses, so the three counts never
   * add up to more than the enrolments.
   */
  lemma ConteosDisjuntos(inscs: seq<InscripcionApi>)
    ensures Cuantas(inscs, "aprobada") + Cuantas(inscs, "cursando") + Cuantas(inscs, "regular") <= |inscs|
  {
    FilterCount(inscs, ConEstado("aprobada"));
    FilterCount(inscs, ConEstado("cursando"));
    FilterCount(inscs, ConEstado("regular"));
    CountDisjoint(inscs, AprobadaOCursando, ConEstado("aprobada"), ConEstado("cursando"));
    CountDisjoint(inscs, Activa, AprobadaOCursando, ConEstado("regular"));
  }

  /** `materias.find(mat => mat.id === i.materia_id)`. */
  function MateriaDe(materias: seq<MateriaApi>, id: string): Option<MateriaApi>
  {
    Find(materias, (m: MateriaApi) => m.id == id)
  }

  /** `m?.es_electiva`: an unknown subject is not an elective. */
  function DeElectiva(materias: seq<MateriaApi>): InscripcionApi -> bool
  {
    (i: InscripcionApi) => MateriaDe(materias, i.materiaId).Some? && MateriaDe(materias, i.materiaId).value.esElectiva
  }

  /** `m && !m.es_electiva`: an unknown subject is not obligatory either. */
  function DeObligatoria(materias: seq<MateriaApi>): InscripcionApi -> bool
  {
    (i: InscripcionApi) => MateriaDe(materias, i.materiaId).Some? && !MateriaDe(materias, i.materiaId).value.esElectiva
  }

  /** `m?.creditos || 0`. */
  function Creditos(materias: seq<MateriaApi>): InscripcionApi -> int
  {
    (i: InscripcionApi) =>
      var m := MateriaDe(materias, i.materiaId);
      if m.Some? && m.value.creditos.Some? then m.value.creditos.value else 0
  }

  function ElectivasAprobadas(inscs: seq<InscripcionApi>, materias: seq<MateriaApi>): seq<InscripcionApi>
  {
    Filter(Aprobadas(inscs), DeElectiva(materias))
  }

  /** `creditosObtenidos`. */
  function CreditosObtenidos(inscs: seq<InscripcionApi>, materias: seq<MateriaApi>): int
  {
    SumInt(ElectivasAprobadas(inscs, materias), Creditos(materias))
  }

  predicate EsObligatoria(m: MateriaApi) { !m.esElectiva }

  /** `totalObligatorias`. */
  function TotalObligatorias(materias: seq<MateriaApi>): nat
  {
    |Filter(materias, EsObligatoria)|
  }

  /** `obligatoriasHechas`: approved enrolments of a known obligatory subject. */
  function ObligatoriasHechas(inscs: seq<InscripcionApi>, materias: seq<MateriaApi>): nat
  {
    |Filter(Aprobadas(inscs), DeObligatoria(materias))|
  }

  /** `porcentaje`: `Math.round((hechas + creditos / 20 * 7) / (obligatorias + 7) * 100)`. */
  function Porcentaje(inscs: seq<InscripcionApi>, materias: seq<MateriaApi>): int
  {
    MathRound(LogrosDatos.Progreso(ObligatoriasHechas(inscs, materias), CreditosObtenidos(inscs, materias),
                                   TotalObligatorias(materias)) * 100.0)
  }

  /**
   * With no more done than there are obligatory subjects and between 0 and
   * 20 credits, the percentage lies in `[0, 100]`, and it is 100 when every
   * obligatory subject is done and the 20 credits are reached.
   */
  lemma PorcentajeRango(hechas: int, creditos: int, total: nat)
    requires 0 <= hechas <= total && 0 <= creditos <= 20
    ensures 0 <= MathRound(LogrosDatos.Progreso(hechas, creditos, total) * 100.0) <= 100
    ensures hechas == total && creditos == 20 ==> MathRound(LogrosDatos.Progreso(hechas, creditos, total) * 100.0) == 100
  {
    var n := total as real + 7.0;
    var x := hechas as real + creditos as real / 20.0 * 7.0;
    assert 0.0 <= creditos as real / 20.0 <= 1.0;
    assert 0.0 * n <= x <= 1.0 * n;
    DivBounds(x, n, 0.0, 1.0);
    var p := x / n;
    assert p == LogrosDatos.Progreso(hechas, creditos, total);
    if hechas == total && creditos == 20 {
      assert x == n;
      DivBounds(x, n, 1.0, 1.0);
    }
  }

  lemma PorcentajeAcotado(inscs: seq<InscripcionApi>, materias: seq<MateriaApi>)
    requires ObligatoriasHechas(inscs, materias) <= TotalObligatorias(materias)
    requires 0 <= CreditosObtenidos(inscs, materias) <= 20
    ensures 0 <= Porcentaje(inscs, materias) <= 100
  {
    PorcentajeRango(ObligatoriasHechas(inscs, materias), CreditosObtenidos(inscs, materias), TotalObligatorias(materias));
  }

  // ----- The same records as the achievement service reads them -----

  function AMateria(m: MateriaApi): LogrosDatos.Materia
  {
    LogrosDatos.Materia(m.id, m.nombre, m.nivel, m.esElectiva, m.creditos)
  }

  function AMaterias(ms: seq<MateriaApi>): (r: seq<LogrosDatos.Materia>)
    ensures |r| == |ms| && forall k :: 0 <= k < |ms| ==> r[k] == AMateria(ms[k])
  {
    seq(|ms|, k requires 0 <= k < |ms| => AMateria(ms[k]))
  }

  /** The columns the percentage reads; the others are left empty. */
  function AInscripcion(i: InscripcionApi): LogrosDatos.Inscripcion
  {
    LogrosDatos.Inscripcion(i.id, i.materiaId, i.estado, false, None, None, None)
  }

  function AInscripciones(s: seq<InscripcionApi>): (r: seq<LogrosDatos.Inscripcion>)
    ensures |r| == |s| && forall k :: 0 <= k < |s| ==> r[k] == AInscripcion(s[k])
  {
    seq(|s|, k requires 0 <= k < |s| => AInscripcion(s[k]))
  }

  lemma {:induction false} BuscarIgual(ms: seq<MateriaApi>, id: string)
    ensures LogrosDatos.MateriaPorId(AMaterias(ms), id).Some? == MateriaDe(ms, id).Some?
    ensures MateriaDe(ms, id).Some? ==> LogrosDatos.MateriaPorId(AMaterias(ms), id).value == AMateria(MateriaDe(ms, id).value)
  {
    if ms != [] {
      assert AMaterias(ms)[1..] == AMaterias(ms[1..]);
      BuscarIgual(ms[1..], id);
    }
  }

  /** The page's credits are the service's elective credits. */
  lemma {:induction false} MismosCreditos(inscs: seq<InscripcionApi>, ms: seq<MateriaApi>)
    ensures CreditosObtenidos(inscs, ms) == LogrosDatos.CreditosElectivos(AInscripciones(inscs), AMaterias(ms))
  {
    if inscs != [] {
      var n := |inscs|;
      var ini := inscs[..n - 1];
      var a := AInscripciones(inscs);
      assert a[..n - 1] == AInscripciones(ini);
      MismosCreditos(ini, ms);
      CreditosSnoc(inscs, ms);
      CreditoUltimo(inscs[n - 1], ms);
      assert LogrosDatos.CreditosElectivos(a, AMaterias(ms)) ==
        LogrosDatos.CreditosElectivos(a[..n - 1], AMaterias(ms)) + LogrosDatos.CreditoElectivo(a[n - 1], AMaterias(ms));
    }
  }

  /** The credits of a list with one more enrolment are those of that enrolment on top. */
  lemma CreditosSnoc(inscs: seq<InscripcionApi>, ms: seq<MateriaApi>)
    requires inscs != []
    ensures var x := inscs[|inscs| - 1];
      CreditosObtenidos(inscs, ms) == CreditosObtenidos(inscs[..|inscs| - 1], ms) +
        SumInt(Filter(Filter([x], ConEstado("aprobada")), DeElectiva(ms)), Creditos(ms))
  {
    var ini := inscs[..|inscs| - 1];
    var x := inscs[|inscs| - 1];
    assert inscs == ini + [x];
    FilterAppend(ini, [x], ConEstado("aprobada"));
    FilterAppend(Aprobadas(ini), Filter([x], ConEstado("aprobada")), DeElectiva(ms));
    SumIntAppend(ElectivasAprobadas(ini, ms), Filter(Filter([x], ConEstado("aprobada")), DeElectiva(ms)), Creditos(ms));
  }

  /** One enrolment adds on the page what it adds in the service. */
  lemma CreditoUltimo(x: InscripcionApi, ms: seq<MateriaApi>)
    ensures SumInt(Filter(Filter([x], ConEstado("aprobada")), DeElectiva(ms)), Creditos(ms)) ==
      LogrosDatos.CreditoElectivo(AInscripcion(x), AMaterias(ms))
  {
    BuscarIgual(ms, x.materiaId);
    var ult := Filter(Filter([x], ConEstado("aprobada")), DeElectiva(ms));
    if x.estado == "aprobada" && DeElectiva(ms)(x) {
      assert ult == [x];
    } else {
      assert ult == [];
    }
  }

  lemma {:induction false} MismasObligatorias(ms: seq<MateriaApi>)
    ensures TotalObligatorias(ms) == |Filter(AMaterias(ms), LogrosDatos.Obligatoria)|
  {
    FilterCount(ms, EsObligatoria);
    FilterCount(AMaterias(ms), LogrosDatos.Obligatoria);
    ContarObligatorias(ms);
  }

  lemma {:induction false} ContarObligatorias(ms: seq<MateriaApi>)
    ensures Count(ms, EsObligatoria) == Count(AMaterias(ms), LogrosDatos.Obligatoria)
  {
    if ms != [] {
      assert AMaterias(ms)[1..] == AMaterias(ms[1..]);
      ContarObligatorias(ms[1..]);
    }
  }

  /**
   * The card shows the service's career percentage, rounded to a whole
   * per cent, whenever there are obligatory subjects and the two counts of
   * approved obligatory subjects agree: the card counts approved
   * enrolments, the service subjects with an approved enrolment.
   */
  lemma MismaRazon(inscs: seq<InscripcionApi>, ms: seq<MateriaApi>)
    requires TotalObligatorias(ms) > 0
    requires ObligatoriasHechas(inscs, ms) ==
      LogrosDatos.ConAprobada(Filter(AMaterias(ms), LogrosDatos.Obligatoria), AInscripciones(inscs))
    ensures Porcentaje(inscs, ms) == MathRound(LogrosDatos.PorcentajeCarrera(AInscripciones(inscs), AMaterias(ms)) * 100.0)
  {
    MismosCreditos(inscs, ms);
    MismasObligatorias(ms);
  }

  /**
   * Without obligatory subjects the card still counts the credits, out of
   * 7, where the service reports 0: 20 credits read 100 here.
   */
  lemma SinObligatorias(inscs: seq<InscripcionApi>, ms: seq<MateriaApi>)
    requires TotalObligatorias(ms) == 0 && CreditosObtenidos(inscs, ms) == 20
    ensures Porcentaje(inscs, ms) == 100
    ensures LogrosDatos.PorcentajeCarrera(AInscripciones(inscs), AMaterias(ms)) == 0.0
  {
    MismasObligatorias(ms);
    FilterCount(Aprobadas(inscs), DeObligatoria(ms));
    PorcentajeRango(0, 20, 0);
    assert ObligatoriasHechas(inscs, ms) == 0 by {
      FilterCount(ms, EsObligatoria);
      CountCero(ms, EsObligatoria);
      CountCero(Aprobadas(inscs), DeObligatoria(ms));
      forall k | 0 <= k < |Aprobadas(inscs)| ensures !DeObligatoria(ms)(Aprobadas(inscs)[k]) {
        var m := MateriaDe(ms, Aprobadas(inscs)[k].materiaId);
        assert m.Some? ==> m.value in ms;
      }
    }
  }

  // ----- Per-year bars -----

  /** What `calcularProgresoNivel` returns. */
  datatype Nivel = Nivel(total: nat, hechas: nat)

  function DelNivel(n: int): MateriaApi -> bool
  {
    (m: MateriaApi) => m.nivel == n && !m.esElectiva
  }

  /** `m?.nivel === n && !m?.es_electiva`. */
  function AprobadaDelNivel(materias: seq<MateriaApi>, n: int): InscripcionApi -> bool
  {
    (i: InscripcionApi) =>
      var m := MateriaDe(materias, i.materiaId);
      m.Some? && m.value.nivel == n && !m.value.esElectiva
  }

  /** `calcularProgresoNivel(n)`: `total` is `materiasDelNivel.length || 1`. */
  function CalcularProgresoNivel(inscs: seq<InscripcionApi>, materias: seq<MateriaApi>, n: int): (r: Nivel)
    ensures r.total >= 1
  {
    var t := |Filter(materias, DelNivel(n))|;
    Nivel(if t == 0 then 1 else t, |Filter(Aprobadas(inscs), AprobadaDelNivel(materias, n))|)
  }

  /**
   * A year's bar divides by the number of its obligatory subjects, or by 1
   * when it has none, so never by zero; its count is the approved
   * enrolments of that year's obligatory subjects, a part of the
   * obligatory ones done.
   */
  lemma NivelCorrecto(inscs: seq<InscripcionApi>, materias: seq<MateriaApi>, n: int)
    ensures var r := CalcularProgresoNivel(inscs, materias, n);
      (Count(materias, DelNivel(n)) > 0 ==> r.total == Count(materias, DelNivel(n))) &&
      (Count(materias, DelNivel(n)) == 0 ==> r.total == 1) &&
      r.hechas == Count(Aprobadas(inscs), AprobadaDelNivel(materias, n)) &&
      r.hechas <= ObligatoriasHechas(inscs, materias)
  {
    FilterCount(materias, DelNivel(n));
    FilterCount(Aprobadas(inscs), AprobadaDelNivel(materias, n));
    FilterCount(Aprobadas(inscs), DeObligatoria(materias));
    CountWeaken(Aprobadas(inscs), AprobadaDelNivel(materias, n), DeObligatoria(materias));
  }
}
