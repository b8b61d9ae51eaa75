/**
 * `check_unlocks`: after an enrolment changes, the professors linked to its
 * subject are unlocked in place: every one of them while the student is
 * taking the subject, only the head of the chair once it is approved.
 */
module GameEngine {
  import opened Common
  import opened LogrosDatos

  /** A `Profesor` row; `desbloqueado` is the column the engine updates. */
  class Profesor {
    const id: string
    const esJefeCatedra: bool
    var desbloqueado: bool

    constructor (id: string, esJefeCatedra: bool, desbloqueado: bool)
      ensures this.id == id && this.esJefeCatedra == esJefeCatedra && this.desbloqueado == desbloqueado
    {
      this.id := id;
      this.esJefeCatedra := esJefeCatedra;
      this.desbloqueado := desbloqueado;
    }
  }

  /** A row of `profesores_materias`: (professor id, subject id). */
  type Vinculo = (string, string)

  predicate Vinculado(vinculos: seq<Vinculo>, profesorId: string, materiaId: string)
  {
    (profesorId, materiaId) in vinculos
  }

  /** Whether the enrolment's status unlocks a linked professor. */
  predicate Desbloquea(estado: string, esJefeCatedra: bool)
  {
    estado == "cursando" || (estado == "aprobada" && esJefeCatedra)
  }

  /**
   * The professor's `desbloqueado` after the call, from the value before it:
   * set when the enrolment exists, the professor is linked to its subject and
   * its status unlocks them, and otherwise kept.
   */
  function DesbloqueadoDespues(antes: bool, insc: Option<Inscripcion>, vinculos: seq<Vinculo>, profesorId: string, esJefeCatedra: bool): bool
  {
    if insc.Some? && Vinculado(vinculos, profesorId, insc.value.materiaId) && Desbloquea(insc.value.estado, esJefeCatedra)
    then true
    else antes
  }

  /** The professors of the join with `profesores_materias` on the subject. */
  function DeLaMateria(vinculos: seq<Vinculo>, materiaId: string): Profesor -> bool
  {
    (p: Profesor) => Vinculado(vinculos, p.id, materiaId)
  }

  /** `check_unlocks(db, inscripcion_id)` over the tables `inscs`, `profesores` and `vinculos`. */
  method CheckUnlocks(inscs: seq<Inscripcion>, inscripcionId: string, profesores: seq<Profesor>, vinculos: seq<Vinculo>)
    modifies set p | p in profesores
    ensures forall p :: p in profesores ==>
      p.desbloqueado == DesbloqueadoDespues(old(p.desbloqueado), Find(inscs, ConId(inscripcionId)), vinculos, p.id, p.esJefeCatedra)
  {
    var insc := Find(inscs, ConId(inscripcionId));
    if insc.None? {
      return;
    }
    var inscripcion := insc.value;
    var linked := Filter(profesores, DeLaMateria(vinculos, inscripcion.materiaId));
    var k := 0;
    while k < |linked|
      invariant 0 <= k <= |linked|
      invariant forall p :: p in profesores ==>
        p.desbloqueado == if p in linked[..k] then DesbloqueadoDespues(old(p.desbloqueado), insc, vinculos, p.id, p.esJefeCatedra)
                          else old(p.desbloqueado)
    {
      var prof := linked[k];
      assert linked[..k + 1] == linked[..k] + [prof];
      if inscripcion.estado == "cursando" {
        prof.desbloqueado := true;
      } else if inscripcion.estado == "aprobada" && prof.esJefeCatedra {
        prof.desbloqueado := true;
      }
      k := k + 1;
    }
    assert linked[..k] == linked;
    forall p | p in profesores && p !in linked
      ensures !Vinculado(vinculos, p.id, inscripcion.materiaId)
    {
      var i :| 0 <= i < |profesores| && profesores[i] == p;
    }
  }

  /** No professor is ever locked again. */
  lemma NuncaBloquea(antes: bool, insc: Option<Inscripcion>, vinculos: seq<Vinculo>, profesorId: string, esJefeCatedra: bool)
    ensures antes ==> DesbloqueadoDespues(antes, insc, vinculos, profesorId, esJefeCatedra)
  {
  }

  /**
   * Exactly who changes: a locked professor becomes unlocked if and only if
   * the enrolment exists, they are linked to its subject, and the status is
   * `cursando`, or `aprobada` and they are the head of the chair.
   */
  lemma QuienSeDesbloquea(insc: Option<Inscripcion>, vinculos: seq<Vinculo>, profesorId: string, esJefeCatedra: bool)
    ensures DesbloqueadoDespues(false, insc, vinculos, profesorId, esJefeCatedra) <==>
      insc.Some? && (profesorId, insc.value.materiaId) in vinculos &&
      (insc.value.estado == "cursando" || (insc.value.estado == "aprobada" && esJefeCatedra))
  {
  }

  /** Running the engine twice on the same enrolment is the same as once. */
  lemma Idempotente(antes: bool, insc: Option<Inscripcion>, vinculos: seq<Vinculo>, profesorId: string, esJefeCatedra: bool)
    ensures var una := DesbloqueadoDespues(antes, insc, vinculos, profesorId, esJefeCatedra);
      DesbloqueadoDespues(una, insc, vinculos, profesorId, esJefeCatedra) == una
  {
  }
}
