/**
 * The "especialidades" achievements: the subjects whose names carry an
 * area's keywords are all approved above a threshold, or their averages
 * average 9 or more, or the first of them is approved above a threshold.
 */
module LogrosEspecialidades {
  import opened Common
  import opened LogrosDatos

  const PalabrasMatematico: seq<string> := ["análisis", "álgebra", "matemática", "matematica", "cálculo", "calculo"]
  const PalabrasProgramador: seq<string> := ["programación", "programacion", "algoritmo", "software", "lenguaje"]
  const PalabrasFisico: seq<string> := ["física", "fisica"]
  const PalabrasIngenieroSoftware: seq<string> := ["ingeniería", "ingenieria", "software", "desarrollo", "sistema"]
  const PalabrasRedes: seq<string> := ["redes", "comunicación", "comunicacion"]
  const PalabrasBaseDeDatos: seq<string> := ["base de datos", "bases de datos", "bd", "database"]
  const PalabrasIa: seq<string> := ["inteligencia artificial", "ia", "aprendizaje", "machine learning"]
  const PalabrasSistemasOperativos: seq<string> := ["sistemas operativos", "sistema operativo"]
  const PalabrasAlgoritmico: seq<string> := ["algoritmo", "estructura de datos", "algoritmos"]
  const PalabrasArquitecto: seq<string> := ["arquitectura"]

  /**
   * `matematico` (7), `programador` (8), `fisico` (7), `ingeniero_software` (8),
   * `ia_specialist` (9): the area has subjects, and each is approved with an
   * average of at least `minima`.
   */
  predicate Especialidad(materias: seq<Materia>, palabras: seq<string>, notas: seq<Nota>, inscs: seq<Inscripcion>, minima: real)
  {
    var ms := PorPalabrasClave(materias, palabras);
    var cumple := CumpleMinima(notas, inscs, minima);
    ms != [] && forall i :: 0 <= i < |ms| ==> cumple(ms[i])
  }

  /** The source's loop, returning False at the first subject that falls short. */
  method VerificarEspecialidad(materias: seq<Materia>, palabras: seq<string>, notas: seq<Nota>, inscs: seq<Inscripcion>, minima: real)
    returns (b: bool)
    ensures b == Especialidad(materias, palabras, notas, inscs, minima)
  {
    var ms := FiltrarPorPalabrasClave(materias, palabras);
    if ms == [] {
      return false;
    }
    var cumple := CumpleMinima(notas, inscs, minima);
    var i := 0;
    while i < |ms|
      invariant 0 <= i <= |ms|
      invariant TodosHasta(ms, cumple, i)
    {
      if !cumple(ms[i]) {
        return false;
      }
      TodosHastaPaso(ms, cumple, i);
      i := i + 1;
    }
    return true;
  }

  /** The area holds exactly when some subject matches and every matching subject meets the threshold. */
  lemma EspecialidadIff(materias: seq<Materia>, palabras: seq<string>, notas: seq<Nota>, inscs: seq<Inscripcion>, minima: real)
    ensures Especialidad(materias, palabras, notas, inscs, minima) <==>
      (exists j :: 0 <= j < |materias| && TienePalabra(materias[j].nombre, palabras)) &&
      (forall j :: 0 <= j < |materias| && TienePalabra(materias[j].nombre, palabras) ==>
         MateriaCumple(materias[j].id, notas, inscs, minima))
  {
    if Especialidad(materias, palabras, notas, inscs, minima) {
      EspecialidadCubre(materias, palabras, notas, inscs, minima);
    }
    if (exists j :: 0 <= j < |materias| && TienePalabra(materias[j].nombre, palabras)) &&
       (forall j :: 0 <= j < |materias| && TienePalabra(materias[j].nombre, palabras) ==>
          MateriaCumple(materias[j].id, notas, inscs, minima))
    {
      EspecialidadDesdeArea(materias, palabras, notas, inscs, minima);
    }
  }

  lemma EspecialidadCubre(materias: seq<Materia>, palabras: seq<string>, notas: seq<Nota>, inscs: seq<Inscripcion>, minima: real)
    requires Especialidad(materias, palabras, notas, inscs, minima)
    ensures exists j :: 0 <= j < |materias| && TienePalabra(materias[j].nombre, palabras)
    ensures forall j :: 0 <= j < |materias| && TienePalabra(materias[j].nombre, palabras) ==>
      MateriaCumple(materias[j].id, notas, inscs, minima)
  {
    var ms := PorPalabrasClave(materias, palabras);
    assert ms[0] in materias;
    forall j | 0 <= j < |materias| && TienePalabra(materias[j].nombre, palabras)
      ensures MateriaCumple(materias[j].id, notas, inscs, minima)
    {
      var k :| 0 <= k < |ms| && ms[k] == materias[j];
      assert CumpleMinima(notas, inscs, minima)(ms[k]);
    }
  }

  lemma EspecialidadDesdeArea(materias: seq<Materia>, palabras: seq<string>, notas: seq<Nota>, inscs: seq<Inscripcion>, minima: real)
    requires exists j :: 0 <= j < |materias| && TienePalabra(materias[j].nombre, palabras)
    requires forall j :: 0 <= j < |materias| && TienePalabra(materias[j].nombre, palabras) ==>
      MateriaCumple(materias[j].id, notas, inscs, minima)
    ensures Especialidad(materias, palabras, notas, inscs, minima)
  {
    var ms := PorPalabrasClave(materias, palabras);
    var j :| 0 <= j < |materias| && TienePalabra(materias[j].nombre, palabras);
    assert materias[j] in ms;
    forall i | 0 <= i < |ms|
      ensures CumpleMinima(notas, inscs, minima)(ms[i])
    {
      MateriaDelArea(materias, palabras, notas, inscs, minima, ms[i]);
    }
  }

  /** A subject of the table in the area, when all of the area meets the threshold, meets it. */
  lemma MateriaDelArea(materias: seq<Materia>, palabras: seq<string>, notas: seq<Nota>, inscs: seq<Inscripcion>, minima: real, m: Materia)
    requires m in materias && TienePalabra(m.nombre, palabras)
    requires forall j :: 0 <= j < |materias| && TienePalabra(materias[j].nombre, palabras) ==>
      MateriaCumple(materias[j].id, notas, inscs, minima)
    ensures MateriaCumple(m.id, notas, inscs, minima)
  {
    var k :| 0 <= k < |materias| && materias[k] == m;
  }

  /** A stricter threshold is harder to meet. */
  lemma EspecialidadMonotona(materias: seq<Materia>, palabras: seq<string>, notas: seq<Nota>, inscs: seq<Inscripcion>, a: real, b: real)
    requires a <= b && Especialidad(materias, palabras, notas, inscs, b)
    ensures Especialidad(materias, palabras, notas, inscs, a)
  {
  }

  function CumpleMinima(notas: seq<Nota>, inscs: seq<Inscripcion>, minima: real): Materia -> bool
  {
    (m: Materia) => MateriaCumple(m.id, notas, inscs, minima)
  }

  function PromedioDe(notas: seq<Nota>, inscs: seq<Inscripcion>): Materia -> real
  {
    (m: Materia) => PromedioMateria(m.id, notas, inscs)
  }

  /**
   * `redes_experto` and `bd_master`: some subject of the area is approved
   * (average at least 4), and the mean of the approved ones' averages is at least 9.
   */
  predicate PromedioEspecialidad(materias: seq<Materia>, palabras: seq<string>, notas: seq<Nota>, inscs: seq<Inscripcion>)
  {
    var aprobadas := Filter(PorPalabrasClave(materias, palabras), CumpleMinima(notas, inscs, 4.0));
    aprobadas != [] && Mean(aprobadas, PromedioDe(notas, inscs)).value >= 9.0
  }

  /** The loop that collects the approved subjects of the area, then the mean of their averages. */
  method VerificarPromedioEspecialidad(materias: seq<Materia>, palabras: seq<string>, notas: seq<Nota>, inscs: seq<Inscripcion>)
    returns (b: bool)
    ensures b == PromedioEspecialidad(materias, palabras, notas, inscs)
  {
    var ms := FiltrarPorPalabrasClave(materias, palabras);
    var cumple := CumpleMinima(notas, inscs, 4.0);
    var aprobadas: seq<Materia> := [];
    var i := 0;
    while i < |ms|
      invariant 0 <= i <= |ms|
      invariant aprobadas == Filter(ms[..i], cumple)
    {
      FilterSnoc(ms, i, cumple);
      if MateriaCumple(ms[i].id, notas, inscs, 4.0) {
        assert cumple(ms[i]);
        aprobadas := aprobadas + [ms[i]];
      }
      i := i + 1;
    }
    assert ms[..i] == ms;
    if aprobadas == [] {
      return false;
    }
    b := Mean(aprobadas, PromedioDe(notas, inscs)).value >= 9.0;
  }

  predicate DelAreaConMinima(m: Materia, palabras: seq<string>, notas: seq<Nota>, inscs: seq<Inscripcion>, minima: real)
  {
    TienePalabra(m.nombre, palabras) && MateriaCumple(m.id, notas, inscs, minima)
  }

  /** A mean of averages of 9 needs some approved subject of the area with an average of 9 or more. */
  lemma PromedioEspecialidadTieneNueve(materias: seq<Materia>, palabras: seq<string>, notas: seq<Nota>, inscs: seq<Inscripcion>)
    requires PromedioEspecialidad(materias, palabras, notas, inscs)
    ensures exists j :: 0 <= j < |materias| && DelAreaConMinima(materias[j], palabras, notas, inscs, 9.0)
  {
    var ms := PorPalabrasClave(materias, palabras);
    var aprobadas := Filter(ms, CumpleMinima(notas, inscs, 4.0));
    var f := PromedioDe(notas, inscs);
    var hi := MaxReal(aprobadas, f);
    MeanBounds(aprobadas, f, MinReal(aprobadas, f), hi);
    var k :| 0 <= k < |aprobadas| && f(aprobadas[k]) == hi;
    assert aprobadas[k] in ms;
    var j :| 0 <= j < |materias| && materias[j] == aprobadas[k];
    assert DelAreaConMinima(materias[j], palabras, notas, inscs, 9.0);
  }

  /**
   * `sistemas_operativos_guru` (10), `algoritmico` (9), `arquitecto` (9):
   * the FIRST subject of the area is approved with an average of at least `minima`.
   */
  predicate PrimeraDelArea(materias: seq<Materia>, palabras: seq<string>, notas: seq<Nota>, inscs: seq<Inscripcion>, minima: real)
  {
    var ms := PorPalabrasClave(materias, palabras);
    ms != [] && MateriaCumple(ms[0].id, notas, inscs, minima)
  }

  /** All subjects meeting the threshold includes the first one. */
  lemma EspecialidadIncluyePrimera(materias: seq<Materia>, palabras: seq<string>, notas: seq<Nota>, inscs: seq<Inscripcion>, minima: real)
    requires Especialidad(materias, palabras, notas, inscs, minima)
    ensures PrimeraDelArea(materias, palabras, notas, inscs, minima)
  {
  }

  /** The achievements by id, with the source's keywords and thresholds. */
  predicate Matematico(d: Datos) { Especialidad(d.materias, PalabrasMatematico, d.notas, d.inscripciones, 7.0) }
  predicate Programador(d: Datos) { Especialidad(d.materias, PalabrasProgramador, d.notas, d.inscripciones, 8.0) }
  predicate Fisico(d: Datos) { Especialidad(d.materias, PalabrasFisico, d.notas, d.inscripciones, 7.0) }
  predicate IngenieroSoftware(d: Datos) { Especialidad(d.materias, PalabrasIngenieroSoftware, d.notas, d.inscripciones, 8.0) }
  predicate RedesExperto(d: Datos) { PromedioEspecialidad(d.materias, PalabrasRedes, d.notas, d.inscripciones) }
  predicate BdMaster(d: Datos) { PromedioEspecialidad(d.materias, PalabrasBaseDeDatos, d.notas, d.inscripciones) }
  predicate IaSpecialist(d: Datos) { Especialidad(d.materias, PalabrasIa, d.notas, d.inscripciones, 9.0) }
  predicate SistemasOperativosGuru(d: Datos) { PrimeraDelArea(d.materias, PalabrasSistemasOperativos, d.notas, d.inscripciones, 10.0) }
  predicate Algoritmico(d: Datos) { PrimeraDelArea(d.materias, PalabrasAlgoritmico, d.notas, d.inscripciones, 9.0) }
  predicate Arquitecto(d: Datos) { PrimeraDelArea(d.materias, PalabrasArquitecto, d.notas, d.inscripciones, 9.0) }
}
