/**
 * The "primeros pasos" achievements: a first grade, a first grade at or
 * above each mark, the first regular, approved and promoted subjects, the
 * first partial exam and practical work, the first level, five subjects,
 * an average of 5 and ten percent of the career.
 */
module LogrosPrimeros {
  import opened Common
  import opened LogrosDatos
  import opened LogrosCarrera

  /** `primer_2`: the code only asks for one grade of any value. */
  predicate Primer2(notas: seq<Nota>) { |notas| >= 1 }

  /** `primer_4` to `primer_9`: some grade reaches `k`. */
  predicate PrimerAlMenos(notas: seq<Nota>, k: real)
  {
    exists i :: 0 <= i < |notas| && notas[i].nota >= k
  }

  /** `primer_10`: some grade is exactly 10. */
  predicate Primer10(notas: seq<Nota>)
  {
    exists i :: 0 <= i < |notas| && notas[i].nota == 10.0
  }

  /** `primera_materia_regular` and `primera_materia_aprobada`: some enrolment has status `e`. */
  predicate PrimeraConEstado(inscs: seq<Inscripcion>, e: string)
  {
    exists i :: 0 <= i < |inscs| && inscs[i].estado == e
  }

  /** `primera_materia_directa`: some enrolment approved by promotion. */
  predicate PrimeraDirecta(inscs: seq<Inscripcion>)
  {
    exists i :: 0 <= i < |inscs| && Aprobada(inscs[i]) && inscs[i].promocionada
  }

  /** `10_notas`. */
  predicate DiezNotas(notas: seq<Nota>) { |notas| >= 10 }

  /** `primer_parcial`, `primer_tp`. */
  predicate PrimerParcial(notas: seq<Nota>) { exists i :: 0 <= i < |notas| && notas[i].esParcial }
  predicate PrimerTp(notas: seq<Nota>) { exists i :: 0 <= i < |notas| && notas[i].esTp }

  /** `primera_desaprobada`: some grade below 4. */
  predicate PrimeraDesaprobada(notas: seq<Nota>)
  {
    exists i :: 0 <= i < |notas| && notas[i].nota < 4.0
  }

  /** `primer_nivel`: the same test as the completion of level 1. */
  predicate PrimerNivel(inscs: seq<Inscripcion>, materias: seq<Materia>)
  {
    NivelCompleto(inscs, materias, 1)
  }

  /** `5_materias`: five approved enrolments. */
  predicate CincoMaterias(inscs: seq<Inscripcion>) { Count(inscs, Aprobada) >= 5 }

  /** `promedio_5`. */
  predicate Promedio5(notas: seq<Nota>) { PromedioGeneral(notas) >= 5.0 }

  /** `10_percent_carrera`. */
  predicate DiezPercentCarrera(inscs: seq<Inscripcion>, materias: seq<Materia>)
  {
    PorcentajeCarrera(inscs, materias) >= 0.10
  }

  /** The first-grade tiers are nested: reaching a mark reaches every lower one, and a 10 reaches all. */
  lemma PrimerAlMenosEscalonado(notas: seq<Nota>, k: real, k': real)
    requires k <= k'
    ensures PrimerAlMenos(notas, k') ==> PrimerAlMenos(notas, k)
    ensures Primer10(notas) ==> PrimerAlMenos(notas, 9.0) && Primer2(notas)
  {
    if Primer10(notas) {
      var i :| 0 <= i < |notas| && notas[i].nota == 10.0;
      assert notas[i].nota >= 9.0;
    }
  }

  /** A first achievement is never lost when a grade is added. */
  lemma PrimerosMonotonos(notas: seq<Nota>, n: Nota, k: real)
    ensures PrimerAlMenos(notas, k) ==> PrimerAlMenos(notas + [n], k)
    ensures PrimeraDesaprobada(notas) ==> PrimeraDesaprobada(notas + [n])
    ensures PrimerAlMenos(notas + [n], k) <==> PrimerAlMenos(notas, k) || n.nota >= k
  {
    var t := notas + [n];
    assert forall i :: 0 <= i < |notas| ==> t[i] == notas[i];
    assert t[|notas|] == n;
    if PrimerAlMenos(t, k) && n.nota < k {
      var i :| 0 <= i < |t| && t[i].nota >= k;
      assert i < |notas|;
    }
  }

  /** The average of 5 in exact form: counting grades whose sum is at least 5 times their number. */
  lemma Promedio5Exacto(notas: seq<Nota>)
    ensures Promedio5(notas) <==>
      var v := Filter(notas, CuentaPromedio);
      v != [] && SumReal(v, Valor) >= 5.0 * Len(v)
  {
    var v := Filter(notas, CuentaPromedio);
    PromedioDeFiltradas(notas, v);
    UmbralCinco(PromedioGeneral(notas), v);
  }

  /** The general average is 0.0 without counting grades and their mean otherwise. */
  lemma PromedioDeFiltradas(notas: seq<Nota>, v: seq<Nota>)
    requires v == Filter(notas, CuentaPromedio)
    ensures v == [] ==> PromedioGeneral(notas) == 0.0
    ensures v != [] ==> PromedioGeneral(notas) == Mean(v, Valor).value
  {
  }

  /** A value that is 0 on no grades and their mean otherwise reaches 5 iff their sum reaches 5 times their number. */
  lemma UmbralCinco(p: real, v: seq<Nota>)
    requires v == [] ==> p == 0.0
    requires v != [] ==> p == Mean(v, Valor).value
    ensures p >= 5.0 <==> v != [] && SumReal(v, Valor) >= 5.0 * Len(v)
  {
    if v != [] {
      MeanAtLeast(v, Valor, 5.0);
    }
  }
}
