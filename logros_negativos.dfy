/**
 * The "negativos" achievements (failures, losing streaks, last-minute
 * study, retaken subjects, near misses) and the "finales" achievements
 * (the whole career approved, with a partial or a final exam, or with a
 * final average).
 */
module LogrosNegativos {
  import opened Common
  import opened Dates
  import opened LogrosDatos
  import opened LogrosRachas
  import opened LogrosPromedios
  import opened LogrosCuriosos

  // ----- primer_tropiezo, peor_nota, casi -----

  /** `primer_tropiezo`: some failed grade. */
  predicate PrimerTropiezo(notas: seq<Nota>) { Existe(notas, NotaMenorQue(4.0)) }

  /** `peor_nota`: some grade of exactly 2. */
  predicate PeorNota(notas: seq<Nota>) { Existe(notas, NotaIgual(2.0)) }

  predicate CasiAprobada(n: Nota) { 3.5 <= n.nota < 4.0 }

  /** `casi`: three grades or more in [3.5, 4). */
  predicate Casi(notas: seq<Nota>) { Count(notas, CasiAprobada) >= 3 }

  /** The worst grade and three near misses are stumbles, the near misses three of them. */
  lemma NegativosSonTropiezos(notas: seq<Nota>)
    ensures PeorNota(notas) ==> PrimerTropiezo(notas)
    ensures Casi(notas) ==> PrimerTropiezo(notas) && Count(notas, NotaMenorQue(4.0)) >= 3
  {
    if PeorNota(notas) {
      var i :| 0 <= i < |notas| && NotaIgual(2.0)(notas[i]);
      assert NotaMenorQue(4.0)(notas[i]);
    }
    if Casi(notas) {
      CountWeaken(notas, CasiAprobada, NotaMenorQue(4.0));
    }
  }

  // ----- mala_racha, racha_4s -----

  /** `mala_racha`: three grades or more and three failures in a row in date order. */
  predicate MalaRacha(notas: seq<Nota>)
  {
    |notas| >= 3 && RachaOrdenada(notas, NotaMenorQue(4.0), 3)
  }

  method VerificarMalaRacha(notas: seq<Nota>) returns (b: bool)
    ensures b == MalaRacha(notas)
  {
    if |notas| < 3 {
      return false;
    }
    b := VerificarRacha(notas, NotaMenorQue(4.0), 3);
  }

  function CercaDeCuatro(): Nota -> bool { (n: Nota) => AbsReal(n.nota - 4.0) < 0.1 }

  /** `racha_4s`: five grades or more and five in a row within 0.1 of 4. */
  predicate Racha4s(notas: seq<Nota>)
  {
    |notas| >= 5 && RachaOrdenada(notas, CercaDeCuatro(), 5)
  }

  method VerificarRacha4s(notas: seq<Nota>) returns (b: bool)
    ensures b == Racha4s(notas)
  {
    if |notas| < 5 {
      return false;
    }
    b := VerificarRacha(notas, CercaDeCuatro(), 5);
  }

  /** A streak in date order is made of the input's own grades: a losing streak is three failures. */
  lemma {:induction false} RachaCuenta(notas: seq<Nota>, p: Nota -> bool, n: nat)
    requires RachaOrdenada(notas, p, n)
    ensures Count(notas, p) >= n
  {
    HasRunCount(OrdenarPorFecha(notas), p, n);
    CountMultiset(OrdenarPorFecha(notas), notas, p);
  }

  lemma MalaRachaTropieza(notas: seq<Nota>)
    requires MalaRacha(notas)
    ensures PrimerTropiezo(notas) && Count(notas, NotaMenorQue(4.0)) >= 3
  {
    RachaCuenta(notas, NotaMenorQue(4.0), 3);
    CountCero(notas, NotaMenorQue(4.0));
  }

  /** Five exact 4s in a row are a streak of 4s; a streak of 4s is five grades close to 4. */
  lemma Racha4sIncluyeCuatros(notas: seq<Nota>)
    ensures |notas| >= 5 && RachaOrdenada(notas, NotaIgual(4.0), 5) ==> Racha4s(notas)
    ensures Racha4s(notas) ==> Count(notas, CercaDeCuatro()) >= 5
  {
    if |notas| >= 5 && RachaOrdenada(notas, NotaIgual(4.0), 5) {
      HasRunWeaken(OrdenarPorFecha(notas), NotaIgual(4.0), CercaDeCuatro(), 5);
    }
    if Racha4s(notas) {
      RachaCuenta(notas, CercaDeCuatro(), 5);
    }
  }

  // ----- procrastinador -----

  /** A passed partial or final exam dated the day after `d` (`(fecha_examen - fecha_sesion).days == 1`). */
  predicate ExamenAprobadoAlDiaSiguiente(n: Nota, d: Date)
  {
    (n.esParcial || n.esFinal) && DayNumber(n.fecha) - DayNumber(d) == 1 && n.nota >= 4.0
  }

  /** Some exam follows the date by one day. */
  predicate VisperaDe(notas: seq<Nota>, d: Date)
  {
    exists j :: 0 <= j < |notas| && ExamenAprobadoAlDiaSiguiente(notas[j], d)
  }

  function EsVispera(notas: seq<Nota>): Sesion -> bool
  {
    (s: Sesion) => VisperaDe(notas, s.fecha)
  }

  /** The inner loop of `procrastinador`, which breaks at the first such exam. */
  method BuscarExamenSiguiente(notas: seq<Nota>, d: Date) returns (encontrada: bool)
    ensures encontrada == VisperaDe(notas, d)
  {
    var j := 0;
    while j < |notas|
      invariant 0 <= j <= |notas|
      invariant forall k :: 0 <= k < j ==> !ExamenAprobadoAlDiaSiguiente(notas[k], d)
    {
      if ExamenAprobadoAlDiaSiguiente(notas[j], d) {
        return true;
      }
      j := j + 1;
    }
    return false;
  }

  /**
   * `procrastinador`: sessions exist and five of them fall the day before a
   * passed exam (the counter is tested after every session, so reaching 5
   * at any point is reaching it at the end).
   */
  predicate Procrastinador(notas: seq<Nota>, sesiones: seq<Sesion>)
  {
    sesiones != [] && Count(sesiones, EsVispera(notas)) >= 5
  }

  method VerificarProcrastinador(notas: seq<Nota>, sesiones: seq<Sesion>) returns (b: bool)
    ensures b == Procrastinador(notas, sesiones)
  {
    if sesiones == [] {
      return false;
    }
    var vispera := EsVispera(notas);
    var contador := 0;
    var i := 0;
    while i < |sesiones|
      invariant 0 <= i <= |sesiones|
      invariant contador == Count(sesiones[..i], vispera) < 5
    {
      var encontrada := BuscarExamenSiguiente(notas, sesiones[i].fecha);
      ContadorPaso(notas, sesiones, i, encontrada);
      if encontrada {
        contador := contador + 1;
        if contador >= 5 {
          CountPrefix(sesiones, i + 1, vispera);
          return true;
        }
      }
      i := i + 1;
    }
    assert sesiones[..i] == sesiones;
    return false;
  }

  lemma ContadorPaso(notas: seq<Nota>, sesiones: seq<Sesion>, i: int, encontrada: bool)
    requires 0 <= i < |sesiones| && encontrada == VisperaDe(notas, sesiones[i].fecha)
    ensures Count(sesiones[..i + 1], EsVispera(notas)) ==
      Count(sesiones[..i], EsVispera(notas)) + (if encontrada then 1 else 0)
  {
    CountSnoc(sesiones, i, EsVispera(notas));
  }

  predicate ExamenAprobado(n: Nota) { (n.esParcial || n.esFinal) && n.nota >= 4.0 }

  /** Last-minute study takes five sessions and some passed exam. */
  lemma ProcrastinadorNecesita(notas: seq<Nota>, sesiones: seq<Sesion>)
    requires Procrastinador(notas, sesiones)
    ensures |sesiones| >= 5 && Existe(notas, ExamenAprobado)
  {
    CountCero(sesiones, EsVispera(notas));
    var i :| 0 <= i < |sesiones| && EsVispera(notas)(sesiones[i]);
    var j :| 0 <= j < |notas| && ExamenAprobadoAlDiaSiguiente(notas[j], sesiones[i].fecha);
    assert ExamenAprobado(notas[j]);
  }

  // ----- recursante -----

  function MateriaIdDe(i: Inscripcion): string { i.materiaId }

  function MasDeUna(): seq<Inscripcion> -> bool { (g: seq<Inscripcion>) => |g| > 1 }

  /** `recursante`: some subject is counted on more than one enrolment. */
  predicate Recursante(inscs: seq<Inscripcion>)
  {
    AlgunGrupo(inscs, MateriaIdDe, MasDeUna())
  }

  method VerificarRecursante(inscs: seq<Inscripcion>) returns (b: bool)
    ensures b == Recursante(inscs)
  {
    b := BuscarGrupo(inscs, MateriaIdDe, MasDeUna());
  }

  function DeMateria(m: string): Inscripcion -> bool { (i: Inscripcion) => i.materiaId == m }

  predicate DosInscripciones(inscs: seq<Inscripcion>)
  {
    exists i, j :: 0 <= i < j < |inscs| && inscs[i].materiaId == inscs[j].materiaId
  }

  /** Two elements satisfying `p` sit at two distinct positions. */
  lemma {:induction false} CountDos<T>(s: seq<T>, p: T -> bool)
    requires Count(s, p) >= 2
    ensures exists i, j :: 0 <= i < j < |s| && p(s[i]) && p(s[j])
  {
    if p(s[0]) {
      assert Count(s[1..], p) >= 1;
      CountCero(s[1..], p);
      var j :| 0 <= j < |s[1..]| && p(s[1..][j]);
      assert p(s[0]) && p(s[j + 1]);
    } else {
      CountDos(s[1..], p);
      var i, j :| 0 <= i < j < |s[1..]| && p(s[1..][i]) && p(s[1..][j]);
      assert p(s[i + 1]) && p(s[j + 1]);
    }
  }

  /** Two positions satisfying `p` make a count of two or more. */
  lemma {:induction false} CountDosDe<T>(s: seq<T>, p: T -> bool, i: int, j: int)
    requires 0 <= i < j < |s| && p(s[i]) && p(s[j])
    ensures Count(s, p) >= 2
  {
    assert p(s[1..][j - 1]);
    CountCero(s[1..], p);
    if i > 0 {
      CountDosDe(s[1..], p, i - 1, j - 1);
    }
  }

  /** Retaking is two enrolments of the same subject, at two positions of the list. */
  lemma RecursanteIff(inscs: seq<Inscripcion>)
    ensures Recursante(inscs) <==> DosInscripciones(inscs)
  {
    if Recursante(inscs) {
      RecursanteDos(inscs);
    }
    if DosInscripciones(inscs) {
      DosRecursante(inscs);
    }
  }

  lemma RecursanteDos(inscs: seq<Inscripcion>)
    requires Recursante(inscs)
    ensures DosInscripciones(inscs)
  {
    var k :| 0 <= k < |inscs| && MasDeUna()(Grupo(inscs, MateriaIdDe, MateriaIdDe(inscs[k])));
    var m := inscs[k].materiaId;
    GrupoTamanio(inscs, MateriaIdDe, m, DeMateria(m));
    CountDos(inscs, DeMateria(m));
    var i, j :| 0 <= i < j < |inscs| && DeMateria(m)(inscs[i]) && DeMateria(m)(inscs[j]);
  }

  lemma DosRecursante(inscs: seq<Inscripcion>)
    requires DosInscripciones(inscs)
    ensures Recursante(inscs)
  {
    var i, j :| 0 <= i < j < |inscs| && inscs[i].materiaId == inscs[j].materiaId;
    var m := inscs[i].materiaId;
    CountDosDe(inscs, DeMateria(m), i, j);
    GrupoTamanio(inscs, MateriaIdDe, m, DeMateria(m));
    assert MasDeUna()(Grupo(inscs, MateriaIdDe, MateriaIdDe(inscs[i])));
  }

  // ----- finales -----

  /** `ultimo_parcial`: every obligatory subject approved (vacuously without any) and some partial exam. */
  predicate UltimoParcial(inscs: seq<Inscripcion>, materias: seq<Materia>, notas: seq<Nota>)
  {
    TodasConAprobada(Filter(materias, Obligatoria), inscs) && Existe(notas, EsParcial)
  }

  /** `ultimo_final`: every obligatory subject approved and some final exam. */
  predicate UltimoFinal(inscs: seq<Inscripcion>, materias: seq<Materia>, notas: seq<Nota>)
  {
    TodasConAprobada(Filter(materias, Obligatoria), inscs) && Existe(notas, EsFinal)
  }

  /** `todas_aprobadas`: every subject of the catalogue approved, vacuously true for an empty catalogue. */
  predicate TodasAprobadasCarrera(inscs: seq<Inscripcion>, materias: seq<Materia>)
  {
    TodasConAprobada(materias, inscs)
  }

  /** `promedio_final_8` and `_9`: the whole catalogue approved and a general average of at least `k`. */
  predicate PromedioFinal(notas: seq<Nota>, inscs: seq<Inscripcion>, materias: seq<Materia>, k: real)
  {
    var v := Filter(notas, CuentaPromedio);
    TodasConAprobada(materias, inscs) && v != [] && Mean(v, Valor).value >= k
  }

  /** Approving the whole catalogue approves its obligatory part, so with an exam it earns the last-exam achievements. */
  lemma TodasAprobadasCompletaFinales(inscs: seq<Inscripcion>, materias: seq<Materia>, notas: seq<Nota>)
    requires TodasAprobadasCarrera(inscs, materias)
    ensures Existe(notas, EsParcial) ==> UltimoParcial(inscs, materias, notas)
    ensures Existe(notas, EsFinal) ==> UltimoFinal(inscs, materias, notas)
  {
    var ms := Filter(materias, Obligatoria);
    forall i | 0 <= i < |ms|
      ensures AprobadaDe(inscs, ms[i].id).Some?
    {
      var j :| 0 <= j < |materias| && materias[j] == ms[i];
    }
  }

  /** The final averages are tiered, imply the whole catalogue approved, and equal the general average. */
  lemma PromediosFinalesEscalonados(notas: seq<Nota>, inscs: seq<Inscripcion>, materias: seq<Materia>)
    ensures PromedioFinal(notas, inscs, materias, 9.0) ==> PromedioFinal(notas, inscs, materias, 8.0)
    ensures PromedioFinal(notas, inscs, materias, 8.0) ==> TodasAprobadasCarrera(inscs, materias) && PromedioGeneral(notas) >= 8.0
  {
  }

  /** With an empty catalogue the career counts as approved. */
  lemma CatalogoVacio(inscs: seq<Inscripcion>, notas: seq<Nota>)
    ensures TodasAprobadasCarrera(inscs, [])
    ensures Existe(notas, EsParcial) ==> UltimoParcial(inscs, [], notas)
  {
  }
}
