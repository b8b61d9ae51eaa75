/**
 * The subject page: its three averages over the real grades, the class
 * progress bar, and the save requests of its grade and class dialogs.
 */
module DetalleMateria {
  import opened Common
  import opened Api
  import Dashboard

  /** `notasReales`: the `-1` placeholders of planned exams are dropped. */
  function NotasReales(notas: seq<NotaApi>): seq<NotaApi>
  {
    Filter(notas, NoCentinela)
  }

  predicate Influye(n: NotaApi) { n.influyePromedio }

  /** `calcularPromedioGral`. */
  function PromedioGral(notas: seq<NotaApi>): real
  {
    PromedioDe(NotasReales(notas), Influye)
  }

  /** `calcularPromedioParciales`. */
  function PromedioParciales(notas: seq<NotaApi>): real
  {
    PromedioDe(NotasReales(notas), Dashboard.ParcialEscrito)
  }

  /** `calcularPromedioFinales`. */
  function PromedioFinales(notas: seq<NotaApi>): real
  {
    PromedioDe(NotasReales(notas), Dashboard.FinalEscrito)
  }

  /** No negative grade survives `notasReales`, and every other one does. */
  lemma NotasRealesExactas(notas: seq<NotaApi>, i: int)
    requires 0 <= i < |notas|
    ensures notas[i] in NotasReales(notas) <==> notas[i].nota >= 0.0
    ensures forall k :: 0 <= k < |NotasReales(notas)| ==> NotasReales(notas)[k].nota >= 0.0
  {
    var r := NotasReales(notas);
    if notas[i] in r {
      var k :| 0 <= k < |r| && r[k] == notas[i];
    }
  }

  /**
   * Over the same grades the subject page and the dashboard agree on the
   * general average, and the subject page's partial and final averages are
   * the dashboard's once the placeholders are excluded there too.
   */
  lemma IgualQueDashboard(notas: seq<NotaApi>)
    ensures PromedioGral(notas) == Dashboard.PromedioGeneral(notas)
    ensures PromedioParciales(notas) == Dashboard.PromedioParciales(notas)
    ensures PromedioFinales(notas) == Dashboard.PromedioFinales(notas)
  {
    FilterFilter(notas, NoCentinela, Influye, Computa);
    FilterFilter(notas, NoCentinela, Dashboard.ParcialEscrito, Dashboard.ParcialReal);
    FilterFilter(notas, NoCentinela, Dashboard.FinalEscrito, Dashboard.FinalReal);
  }

  /** Every average of the page lies in `[0, 10]` for grades of at most 10. */
  lemma PromediosEnRango(notas: seq<NotaApi>)
    requires forall i :: 0 <= i < |notas| ==> notas[i].nota <= 10.0
    ensures 0.0 <= PromedioGral(notas) <= 10.0
    ensures 0.0 <= PromedioParciales(notas) <= 10.0
    ensures 0.0 <= PromedioFinales(notas) <= 10.0
  {
    IgualQueDashboard(notas);
    Dashboard.PromediosEnRango(notas);
  }

  /** `progreso`: `Math.round(progreso_clases / total_clases * 100)`, or 0 without a total. */
  function ProgresoClases(progreso: int, total: int): int
  {
    if total > 0 then MathRound(progreso as real / total as real * 100.0) else 0
  }

  /** The bar is 0 without classes, within `[0, 100]` for up to `total` classes given, and full when all are. */
  lemma ProgresoRango(progreso: int, total: int)
    ensures total <= 0 ==> ProgresoClases(progreso, total) == 0
    ensures 0 <= progreso <= total ==> 0 <= ProgresoClases(progreso, total) <= 100
    ensures 0 < progreso == total ==> ProgresoClases(progreso, total) == 100
  {
    if 0 <= progreso <= total && total > 0 {
      var p := progreso as real / total as real;
      assert p * total as real == progreso as real;
      assert 0.0 <= p <= 1.0;
      if progreso == total {
        assert p == 1.0;
      }
    }
  }

  /** What a save sends: an update of an existing record or a creation for this enrolment. */
  datatype Envio<T> = Actualizar(id: string, datos: T) | Crear(datos: T, inscripcionId: string)

  /** `if (data.id) update(data.id, data) else create({...data, inscripcion_id})`: an empty id is falsy. */
  function Guardar<T>(id: Option<string>, datos: T, inscripcionId: string): (e: Envio<T>)
    ensures e.Actualizar? <==> id.Some? && id.value != ""
    ensures e.datos == datos
    ensures e.Actualizar? ==> e.id == id.value
    ensures e.Crear? ==> e.inscripcionId == inscripcionId
  {
    if id.Some? && id.value != "" then Actualizar(id.value, datos) else Crear(datos, inscripcionId)
  }

  /** `numeroClase={clases.length + 1}`: one past the classes already recorded. */
  function NumeroClaseSiguiente<T>(clases: seq<T>): int
  {
    |clases| + 1
  }
}
