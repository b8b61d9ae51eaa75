/**
 * The dashboard's counters: pending grades, approved obligatory subjects,
 * elective credits and the three averages.
 */
module Dashboard {
  import opened Common
  import opened Api
  import opened ProgresoCarrera

  /** `n.nota === -1`: a planned exam with no grade yet. */
  predicate Pendiente(n: NotaApi) { n.nota == -1.0 }

  function NotasPendientes(notas: seq<NotaApi>): seq<NotaApi>
  {
    Filter(notas, Pendiente)
  }

  /** A grade is pending iff it is the `-1` placeholder, and a pending grade never counts toward an average. */
  lemma PendientesExactas(notas: seq<NotaApi>, i: int)
    requires 0 <= i < |notas|
    ensures notas[i] in NotasPendientes(notas) <==> notas[i].nota == -1.0
    ensures notas[i] in NotasPendientes(notas) ==> !Computa(notas[i])
  {
    var r := NotasPendientes(notas);
    if notas[i] in r {
      var k :| 0 <= k < |r| && r[k] == notas[i];
    }
  }

  /** `materiasAprobadasCount - electivasAprobadas.length`. */
  function ObligatoriasAprobadas(inscs: seq<InscripcionApi>, materias: seq<MateriaApi>): int
  {
    |Aprobadas(inscs)| - |ElectivasAprobadas(inscs, materias)|
  }

  function Conocida(materias: seq<MateriaApi>): InscripcionApi -> bool
  {
    (i: InscripcionApi) => MateriaDe(materias, i.materiaId).Some?
  }

  function SinMateria(materias: seq<MateriaApi>): InscripcionApi -> bool
  {
    (i: InscripcionApi) => MateriaDe(materias, i.materiaId).None?
  }

  function Siempre(i: InscripcionApi): bool { true }

  /**
   * The dashboard's obligatory count is the career card's approved
   * obligatory enrolments plus the approved enrolments of an unknown
   * subject, so the two agree exactly when every approved enrolment names
   * a known subject.
   */
  lemma ObligatoriasDesglose(inscs: seq<InscripcionApi>, materias: seq<MateriaApi>)
    ensures ObligatoriasAprobadas(inscs, materias) ==
      ObligatoriasHechas(inscs, materias) + Count(Aprobadas(inscs), SinMateria(materias))
    ensures ObligatoriasAprobadas(inscs, materias) >= ObligatoriasHechas(inscs, materias)
    ensures (forall k :: 0 <= k < |Aprobadas(inscs)| ==> !SinMateria(materias)(Aprobadas(inscs)[k])) ==>
      ObligatoriasAprobadas(inscs, materias) == ObligatoriasHechas(inscs, materias)
  {
    var a := Aprobadas(inscs);
    CountDisjoint(a, Conocida(materias), DeElectiva(materias), DeObligatoria(materias));
    CountDisjoint(a, Siempre, Conocida(materias), SinMateria(materias));
    CountTodos(a, Siempre);
    FilterCount(a, DeElectiva(materias));
    FilterCount(a, DeObligatoria(materias));
    CountCero(a, SinMateria(materias));
  }

  /** `notasValidas`: grades that count, excluding the `-1` placeholders. */
  function PromedioGeneral(notas: seq<NotaApi>): real
  {
    PromedioDe(notas, Computa)
  }

  /** `(n.es_parcial || n.es_tp) && n.influye_promedio`, as written: a placeholder passes. */
  predicate ParcialEscrito(n: NotaApi) { (n.esParcial || n.esTp) && n.influyePromedio }

  /** `n.es_final && n.influye_promedio`, as written. */
  predicate FinalEscrito(n: NotaApi) { n.esFinal && n.influyePromedio }

  function PromedioParcialesEscrito(notas: seq<NotaApi>): real
  {
    PromedioDe(notas, ParcialEscrito)
  }

  function PromedioFinalesEscrito(notas: seq<NotaApi>): real
  {
    PromedioDe(notas, FinalEscrito)
  }

  /**
   * A partial saved as `-1` and marked as counting (as the pending-grade box
   * sends when `-1` is typed into it) drags the partials average down: with
   * an 8 the average reads 3.5, and it can even be negative. The
   * placeholders the event route stores do not count, so they are not such
   * grades.
   */
  lemma CentinelaEnParciales()
    ensures var real8 := NotaApi("a", "i", "m", "Parcial 1", 8.0, "2024-05-01", false, true, false, true);
      var plan := NotaApi("b", "i", "m", "Parcial 2", -1.0, "2024-06-01", false, true, false, true);
      PromedioParcialesEscrito([real8, plan]) == 3.5 && PromedioParciales([real8, plan]) == 8.0 &&
      PromedioParcialesEscrito([plan]) == -1.0
  {
    var real8 := NotaApi("a", "i", "m", "Parcial 1", 8.0, "2024-05-01", false, true, false, true);
    var plan := NotaApi("b", "i", "m", "Parcial 2", -1.0, "2024-06-01", false, true, false, true);
    assert [real8, plan][1..] == [plan];
    assert Filter([real8, plan], ParcialEscrito) == [real8, plan];
    assert Filter([real8, plan], ParcialReal) == [real8];
    assert Filter([plan], ParcialEscrito) == [plan];
  }

  /** The partials test with the placeholder excluded, as the general average already does. */
  predicate ParcialReal(n: NotaApi) { ParcialEscrito(n) && NoCentinela(n) }

  predicate FinalReal(n: NotaApi) { FinalEscrito(n) && NoCentinela(n) }

  function PromedioParciales(notas: seq<NotaApi>): real
  {
    PromedioDe(notas, ParcialReal)
  }

  function PromedioFinales(notas: seq<NotaApi>): real
  {
    PromedioDe(notas, FinalReal)
  }

  /** With grades of at most 10, each average is in `[0, 10]`, `0` when its set is empty. */
  lemma PromediosEnRango(notas: seq<NotaApi>)
    requires forall i :: 0 <= i < |notas| ==> notas[i].nota <= 10.0
    ensures 0.0 <= PromedioGeneral(notas) <= 10.0
    ensures 0.0 <= PromedioParciales(notas) <= 10.0
    ensures 0.0 <= PromedioFinales(notas) <= 10.0
  {
    PromedioAcotado(notas, Computa, 0.0, 10.0);
    PromedioAcotado(notas, ParcialReal, 0.0, 10.0);
    PromedioAcotado(notas, FinalReal, 0.0, 10.0);
  }

  /** Without placeholders the written averages are the corrected ones. */
  lemma SinCentinelas(notas: seq<NotaApi>)
    requires forall i :: 0 <= i < |notas| ==> NoCentinela(notas[i])
    ensures PromedioParcialesEscrito(notas) == PromedioParciales(notas)
    ensures PromedioFinalesEscrito(notas) == PromedioFinales(notas)
  {
    MismoFiltro(notas, ParcialEscrito, ParcialReal);
    MismoFiltro(notas, FinalEscrito, FinalReal);
  }

  lemma {:induction false} MismoFiltro(notas: seq<NotaApi>, p: NotaApi -> bool, q: NotaApi -> bool)
    requires forall i :: 0 <= i < |notas| ==> p(notas[i]) == q(notas[i])
    ensures Filter(notas, p) == Filter(notas, q)
  {
    if notas != [] {
      assert forall i :: 1 <= i < |notas| ==> notas[1..][i - 1] == notas[i];
      MismoFiltro(notas[1..], p, q);
    }
  }
}
