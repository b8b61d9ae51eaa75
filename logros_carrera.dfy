/**
 * The "progreso de carrera" achievements: thresholds on the career
 * percentage, completed levels (years), counts of approved subjects, all
 * obligatory subjects, and electives.
 */
module LogrosCarrera {
  import opened Common
  import opened LogrosDatos

  /** `_condicion_porcentaje_carrera`: the career percentage reaches `p` percent. */
  predicate PorcentajeAlcanzado(inscs: seq<Inscripcion>, materias: seq<Materia>, p: real)
  {
    PorcentajeCarrera(inscs, materias) >= p / 100.0
  }

  /** The obligatory subjects of one level, in order. */
  function ObligatoriasDelNivel(materias: seq<Materia>, nivel: int): (r: seq<Materia>)
    ensures forall i :: 0 <= i < |r| ==> r[i] in materias && r[i].nivel == nivel && !r[i].esElectiva
    ensures forall i :: 0 <= i < |materias| && materias[i].nivel == nivel && !materias[i].esElectiva ==>
      materias[i] in r
  {
    Filter(materias, (m: Materia) => m.nivel == nivel && !m.esElectiva)
  }

  /**
   * `_condicion_nivel_completo`: False when the level has no obligatory
   * subject, else every one of them has an approved enrolment.
   */
  predicate NivelCompleto(inscs: seq<Inscripcion>, materias: seq<Materia>, nivel: int)
  {
    var ms := ObligatoriasDelNivel(materias, nivel);
    ms != [] && TodasConAprobada(ms, inscs)
  }

  /** The source's loop over the level's subjects decides the same thing. */
  method VerificarNivelCompleto(inscs: seq<Inscripcion>, materias: seq<Materia>, nivel: int) returns (b: bool)
    ensures b == NivelCompleto(inscs, materias, nivel)
  {
    var materiasNivel := ObligatoriasDelNivel(materias, nivel);
    b := TodasAprobadas(materiasNivel, inscs);
  }

  /**
   * A level is complete iff it has an obligatory subject and each of its
   * obligatory subjects has an enrolment with status `aprobada`.
   */
  lemma NivelCompletoIff(inscs: seq<Inscripcion>, materias: seq<Materia>, nivel: int)
    ensures NivelCompleto(inscs, materias, nivel) <==>
      (exists i :: 0 <= i < |materias| && materias[i].nivel == nivel && !materias[i].esElectiva) &&
      (forall i :: 0 <= i < |materias| && materias[i].nivel == nivel && !materias[i].esElectiva ==>
         TieneAprobada(inscs, materias[i].id))
  {
    var ms := ObligatoriasDelNivel(materias, nivel);
    TodasConAprobadaIff(ms, inscs);
    if ms != [] {
      var j :| 0 <= j < |materias| && materias[j] == ms[0];
    }
    if exists i :: 0 <= i < |materias| && materias[i].nivel == nivel && !materias[i].esElectiva {
      var i :| 0 <= i < |materias| && materias[i].nivel == nivel && !materias[i].esElectiva;
      assert materias[i] in ms;
    }
    if TodasConAprobada(ms, inscs) {
      forall i | 0 <= i < |materias| && materias[i].nivel == nivel && !materias[i].esElectiva
        ensures TieneAprobada(inscs, materias[i].id)
      {
        var k :| 0 <= k < |ms| && ms[k] == materias[i];
      }
    }
  }

  /** A level without obligatory subjects is never complete. */
  lemma NivelVacioIncompleto(inscs: seq<Inscripcion>, materias: seq<Materia>, nivel: int)
    requires forall i :: 0 <= i < |materias| ==> materias[i].nivel != nivel || materias[i].esElectiva
    ensures !NivelCompleto(inscs, materias, nivel)
  {
    NivelCompletoIff(inscs, materias, nivel);
  }

  /** `10_materias_aprobadas` to `30_materias_aprobadas`. */
  predicate MateriasAprobadas(inscs: seq<Inscripcion>, k: nat) { Count(inscs, Aprobada) >= k }

  /** `todas_obligatorias`: there are obligatory subjects and each has an approved enrolment. */
  predicate TodasObligatorias(inscs: seq<Inscripcion>, materias: seq<Materia>)
  {
    var ms := Filter(materias, Obligatoria);
    ms != [] && TodasConAprobada(ms, inscs)
  }

  /** Approving every obligatory subject completes every level that has one. */
  lemma TodasObligatoriasCompletaNiveles(inscs: seq<Inscripcion>, materias: seq<Materia>, nivel: int)
    requires TodasObligatorias(inscs, materias)
    requires exists i :: 0 <= i < |materias| && materias[i].nivel == nivel && !materias[i].esElectiva
    ensures NivelCompleto(inscs, materias, nivel)
  {
    var ms := Filter(materias, Obligatoria);
    TodasConAprobadaIff(ms, inscs);
    forall i | 0 <= i < |materias| && materias[i].nivel == nivel && !materias[i].esElectiva
      ensures TieneAprobada(inscs, materias[i].id)
    {
      assert Obligatoria(materias[i]);
      var k :| 0 <= k < |ms| && ms[k] == materias[i];
    }
    NivelCompletoIff(inscs, materias, nivel);
  }

  /** An approved enrolment of an elective subject (the first subject with its id). */
  predicate ElectivaAprobada(materias: seq<Materia>, i: Inscripcion)
  {
    Aprobada(i) &&
    match MateriaPorId(materias, i.materiaId)
    case Some(m) => m.esElectiva
    case None => false
  }

  /** `primera_electiva`. */
  predicate PrimeraElectiva(inscs: seq<Inscripcion>, materias: seq<Materia>)
  {
    exists i :: 0 <= i < |inscs| && ElectivaAprobada(materias, inscs[i])
  }

  function ElectivasAprobadas(inscs: seq<Inscripcion>, materias: seq<Materia>): nat
  {
    Count(inscs, EsElectivaAprobada(materias))
  }

  function EsElectivaAprobada(materias: seq<Materia>): Inscripcion -> bool
  {
    (i: Inscripcion) => ElectivaAprobada(materias, i)
  }

  /** `3_electivas`. */
  predicate TresElectivas(inscs: seq<Inscripcion>, materias: seq<Materia>)
  {
    ElectivasAprobadas(inscs, materias) >= 3
  }

  /** The counting loop of `3_electivas`. */
  method ContarElectivasAprobadas(inscs: seq<Inscripcion>, materias: seq<Materia>) returns (n: nat)
    ensures n == ElectivasAprobadas(inscs, materias)
  {
    n := 0;
    var i := 0;
    while i < |inscs|
      invariant 0 <= i <= |inscs|
      invariant n == ElectivasAprobadas(inscs[..i], materias)
    {
      CountSnoc(inscs, i, EsElectivaAprobada(materias));
      if inscs[i].estado == "aprobada" {
        var materia := MateriaPorId(materias, inscs[i].materiaId);
        if materia.Some? && materia.value.esElectiva {
          n := n + 1;
        }
      }
      i := i + 1;
    }
    assert inscs[..i] == inscs;
  }

  /** Three approved electives include a first one. */
  lemma TresElectivasImplicaPrimera(inscs: seq<Inscripcion>, materias: seq<Materia>)
    ensures TresElectivas(inscs, materias) ==> PrimeraElectiva(inscs, materias)
  {
    CountCero(inscs, EsElectivaAprobada(materias));
  }

  /** `todas_electivas`: there are electives and each has an approved enrolment. */
  predicate TodasElectivas(inscs: seq<Inscripcion>, materias: seq<Materia>)
  {
    var ms := Filter(materias, (m: Materia) => m.esElectiva);
    ms != [] && TodasConAprobada(ms, inscs)
  }

  /** The percentage tiers are nested. */
  lemma PorcentajeEscalonado(inscs: seq<Inscripcion>, materias: seq<Materia>, p: real, p': real)
    requires p <= p'
    ensures PorcentajeAlcanzado(inscs, materias, p') ==> PorcentajeAlcanzado(inscs, materias, p)
  {
  }

  /** The approved-subject tiers are nested, and adding an enrolment never loses one. */
  lemma MateriasAprobadasMonotona(inscs: seq<Inscripcion>, i: Inscripcion, k: nat, k': nat)
    requires k <= k'
    ensures MateriasAprobadas(inscs, k') ==> MateriasAprobadas(inscs, k)
    ensures MateriasAprobadas(inscs, k) ==> MateriasAprobadas(inscs + [i], k)
  {
    CountMonotone(inscs, [i], Aprobada);
  }
}
