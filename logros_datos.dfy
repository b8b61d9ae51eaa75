/**
 * The records the achievement service reads (grades, enrolments, subjects
 * and study sessions) and the helpers its conditions share: the general
 * average, the average of one subject, the career percentage, keyword
 * filtering of subjects, date order, grouping, and streaks.
 */
module LogrosDatos {
  import opened Common
  import opened Strings
  import opened Dates

  /** A grade (`Nota`) with the columns the conditions read; `fecha` is NOT NULL. */
  datatype Nota = Nota(
    id: string, inscripcionId: string, nota: real, fecha: Date,
    esParcial: bool, esFinal: bool, esTp: bool, influyePromedio: bool)

  /** An enrolment (`InscripcionMateria`); nullable columns are options. */
  datatype Inscripcion = Inscripcion(
    id: string, materiaId: string, estado: string, promocionada: bool,
    cuatrimestre: Option<string>, fechaInscripcion: Option<Date>, fechaAprobacion: Option<Date>)

  /** A subject (`Materia`). */
  datatype Materia = Materia(id: string, nombre: string, nivel: int, esElectiva: bool, creditos: Option<int>)

  /** A study session; `hora` is the hour of the NOT NULL `hora_inicio`. */
  datatype Sesion = Sesion(fecha: Date, hora: int, duracionMinutos: int, tipo: string)

  function Valor(n: Nota): real { n.nota }

  /** The four lists every condition may read: grades, enrolments, subjects and sessions. */
  datatype Datos = Datos(notas: seq<Nota>, inscripciones: seq<Inscripcion>, materias: seq<Materia>, sesiones: seq<Sesion>)

  /** `n.nota >= k`, `n.nota == k` and `n.nota < k` as predicates on a grade. */
  function NotaAlMenos(k: real): Nota -> bool { (n: Nota) => n.nota >= k }
  function NotaIgual(k: real): Nota -> bool { (n: Nota) => n.nota == k }
  function NotaMenorQue(k: real): Nota -> bool { (n: Nota) => n.nota < k }

  predicate EsParcial(n: Nota) { n.esParcial }
  predicate EsTp(n: Nota) { n.esTp }
  predicate EsFinal(n: Nota) { n.esFinal }

  /** An enrolment with a given status. */
  function ConEstado(e: string): Inscripcion -> bool { (i: Inscripcion) => i.estado == e }

  /** The filter the averages use: `n.influye_promedio and n.nota >= 4`. */
  predicate CuentaPromedio(n: Nota) { n.influyePromedio && n.nota >= 4.0 }

  predicate Aprobada(i: Inscripcion) { i.estado == "aprobada" }

  predicate Obligatoria(m: Materia) { !m.esElectiva }

  // ----- Averages -----

  /** `_calcular_promedio_general`: the mean of the grades that count, 0.0 when none does. */
  function PromedioGeneral(notas: seq<Nota>): (r: real)
    ensures (forall i :: 0 <= i < |notas| ==> !CuentaPromedio(notas[i])) ==> r == 0.0
  {
    var v := Filter(notas, CuentaPromedio);
    if v == [] then 0.0 else Mean(v, Valor).value
  }

  /** Once some grade counts, the average is at least 4: a failed grade never drags it down. */
  lemma PromedioGeneralAprobado(notas: seq<Nota>)
    requires exists i :: 0 <= i < |notas| && CuentaPromedio(notas[i])
    ensures PromedioGeneral(notas) >= 4.0
  {
    var v := Filter(notas, CuentaPromedio);
    var i :| 0 <= i < |notas| && CuentaPromedio(notas[i]);
    assert notas[i] in v;
    SumRealLowerBound(v, Valor, 4.0);
    MeanAtLeast(v, Valor, 4.0);
  }

  /**
   * A positive threshold on the general average: some grade counts and
   * the mean of the counting grades reaches it (a failed or excluded grade
   * never helps; MeanAtLeast restates the mean threshold as a sum).
   */
  lemma PromedioGeneralAlMenos(notas: seq<Nota>, k: real)
    requires k > 0.0
    ensures PromedioGeneral(notas) >= k <==>
      Filter(notas, CuentaPromedio) != [] && Mean(Filter(notas, CuentaPromedio), Valor).value >= k
  {
    PromedioGeneralEsMedia(notas);
  }

  /** The general average is the mean of the counting grades, 0.0 without one. */
  lemma PromedioGeneralEsMedia(notas: seq<Nota>)
    ensures Filter(notas, CuentaPromedio) == [] ==> PromedioGeneral(notas) == 0.0
    ensures Filter(notas, CuentaPromedio) != [] ==>
      PromedioGeneral(notas) == Mean(Filter(notas, CuentaPromedio), Valor).value
  {
  }

  /** Only counting grades matter: adding one that does not count leaves the average unchanged. */
  lemma PromedioIgnoraNoValidas(notas: seq<Nota>, n: Nota)
    requires !CuentaPromedio(n)
    ensures PromedioGeneral(notas + [n]) == PromedioGeneral(notas)
  {
    FilterAppend(notas, [n], CuentaPromedio);
    assert Filter([n], CuentaPromedio) == [];
    assert Filter(notas, CuentaPromedio) + [] == Filter(notas, CuentaPromedio);
  }

  /** With grades on the 0 to 10 scale the general average stays on it. */
  lemma PromedioGeneralEscala(notas: seq<Nota>)
    requires forall i :: 0 <= i < |notas| ==> notas[i].nota <= 10.0
    ensures 0.0 <= PromedioGeneral(notas) <= 10.0
  {
    var v := Filter(notas, CuentaPromedio);
    if v != [] {
      MeanBounds(v, Valor, 4.0, 10.0);
    }
  }

  /** The first approved enrolment of a subject (`next(...)` over the enrolments). */
  function AprobadaDe(inscs: seq<Inscripcion>, materiaId: string): (r: Option<Inscripcion>)
    ensures r.None? <==> forall i :: 0 <= i < |inscs| ==> !(inscs[i].materiaId == materiaId && Aprobada(inscs[i]))
    ensures r.Some? ==> r.value in inscs && r.value.materiaId == materiaId && Aprobada(r.value)
  {
    Find(inscs, (i: Inscripcion) => i.materiaId == materiaId && Aprobada(i))
  }

  /** The grades recorded on one enrolment. */
  function NotasDe(notas: seq<Nota>, inscripcionId: string): (r: seq<Nota>)
    ensures forall i :: 0 <= i < |r| ==> r[i] in notas && r[i].inscripcionId == inscripcionId
    ensures forall i :: 0 <= i < |notas| && notas[i].inscripcionId == inscripcionId ==> notas[i] in r
  {
    Filter(notas, (n: Nota) => n.inscripcionId == inscripcionId)
  }

  /**
   * `_obtener_promedio_materia`: the mean of ALL grades of the subject's
   * first approved enrolment, 0.0 without one or without grades.
   */
  function PromedioMateria(materiaId: string, notas: seq<Nota>, inscs: seq<Inscripcion>): (r: real)
    ensures AprobadaDe(inscs, materiaId).None? ==> r == 0.0
  {
    match AprobadaDe(inscs, materiaId)
    case None => 0.0
    case Some(insc) =>
      var ns := NotasDe(notas, insc.id);
      if ns == [] then 0.0 else Mean(ns, Valor).value
  }

  /** With grades on the 0 to 10 scale a subject's average stays on it. */
  lemma PromedioMateriaEscala(materiaId: string, notas: seq<Nota>, inscs: seq<Inscripcion>)
    requires forall i :: 0 <= i < |notas| ==> 0.0 <= notas[i].nota <= 10.0
    ensures 0.0 <= PromedioMateria(materiaId, notas, inscs) <= 10.0
  {
    match AprobadaDe(inscs, materiaId)
    case None =>
    case Some(insc) =>
      var ns := NotasDe(notas, insc.id);
      if ns != [] {
        MeanBounds(ns, Valor, 0.0, 10.0);
      }
  }

  /** `_materia_cumple_condicion`: approved and with at least `minima` as its average. */
  predicate MateriaCumple(materiaId: string, notas: seq<Nota>, inscs: seq<Inscripcion>, minima: real)
  {
    AprobadaDe(inscs, materiaId).Some? && PromedioMateria(materiaId, notas, inscs) >= minima
  }

  /** `next((i for i in inscripciones if i.id == nota.inscripcion_id), None)`. */
  function InscripcionDe(inscs: seq<Inscripcion>, n: Nota): (r: Option<Inscripcion>)
    ensures r.None? <==> forall i :: 0 <= i < |inscs| ==> inscs[i].id != n.inscripcionId
    ensures r.Some? ==> r.value in inscs && r.value.id == n.inscripcionId
  {
    Find(inscs, ConId(n.inscripcionId))
  }

  function ConId(id: string): Inscripcion -> bool { (i: Inscripcion) => i.id == id }

  // ----- Keyword filter -----

  /** Some keyword occurs in the lower-cased name. */
  predicate TienePalabra(nombre: string, palabras: seq<string>)
  {
    exists k :: 0 <= k < |palabras| && Contains(Lower(nombre), palabras[k])
  }

  /** `_filtrar_materias_por_palabras_clave`: the subjects, in order, whose name has a keyword. */
  function PorPalabrasClave(materias: seq<Materia>, palabras: seq<string>): (r: seq<Materia>)
    ensures |r| <= |materias|
    ensures forall i :: 0 <= i < |r| ==> r[i] in materias && TienePalabra(r[i].nombre, palabras)
    ensures forall i :: 0 <= i < |materias| && TienePalabra(materias[i].nombre, palabras) ==> materias[i] in r
  {
    if materias == [] then []
    else
      var init := materias[..|materias| - 1];
      var m := materias[|materias| - 1];
      assert forall i :: 0 <= i < |init| ==> init[i] == materias[i];
      PorPalabrasClave(init, palabras) + (if TienePalabra(m.nombre, palabras) then [m] else [])
  }

  /** The source's loop: each name is tried against the keywords until one matches. */
  method FiltrarPorPalabrasClave(materias: seq<Materia>, palabras: seq<string>) returns (resultados: seq<Materia>)
    ensures resultados == PorPalabrasClave(materias, palabras)
  {
    resultados := [];
    var i := 0;
    while i < |materias|
      invariant 0 <= i <= |materias|
      invariant resultados == PorPalabrasClave(materias[..i], palabras)
    {
      var nombreLower := Lower(materias[i].nombre);
      var j := 0;
      var hallada := false;
      while j < |palabras| && !hallada
        invariant 0 <= j <= |palabras|
        invariant hallada <==> TienePalabra(materias[i].nombre, palabras[..j])
      {
        if Contains(nombreLower, palabras[j]) {
          hallada := true;
        }
        assert palabras[..j + 1][j] == palabras[j];
        assert forall k :: 0 <= k < j ==> palabras[..j + 1][k] == palabras[..j][k];
        j := j + 1;
      }
      if hallada {
        assert forall k :: 0 <= k < j ==> palabras[..j][k] == palabras[k];
        resultados := resultados + [materias[i]];
      } else {
        assert palabras[..j] == palabras;
      }
      assert materias[..i + 1][..i] == materias[..i];
      i := i + 1;
    }
    assert materias[..i] == materias;
  }

  // ----- Career percentage -----

  function CreditosDe(m: Materia): int
  {
    match m.creditos case Some(c) => c case None => 0
  }

  /** The subject with a given id (`next(m for m in materias if m.id == ...)`). */
  function MateriaPorId(materias: seq<Materia>, id: string): (r: Option<Materia>)
    ensures r.None? <==> forall i :: 0 <= i < |materias| ==> materias[i].id != id
    ensures r.Some? ==> r.value in materias && r.value.id == id
  {
    Find(materias, (m: Materia) => m.id == id)
  }

  /** How many subjects of `ms` have an approved enrolment. */
  function ConAprobada(ms: seq<Materia>, inscs: seq<Inscripcion>): (n: nat)
    ensures n <= |ms|
  {
    if ms == [] then 0
    else ConAprobada(ms[..|ms| - 1], inscs) + (if AprobadaDe(inscs, ms[|ms| - 1].id).Some? then 1 else 0)
  }

  /** What one enrolment adds to the elective credits: those of its subject if approved and elective. */
  function CreditoElectivo(i: Inscripcion, materias: seq<Materia>): int
  {
    if Aprobada(i) then
      match MateriaPorId(materias, i.materiaId)
      case Some(m) => if m.esElectiva then CreditosDe(m) else 0
      case None => 0
    else 0
  }

  function CreditosElectivos(inscs: seq<Inscripcion>, materias: seq<Materia>): int
  {
    if inscs == [] then 0
    else CreditosElectivos(inscs[..|inscs| - 1], materias) + CreditoElectivo(inscs[|inscs| - 1], materias)
  }

  /**
   * `_calcular_porcentaje_carrera`: approved obligatory subjects plus 7 for
   * every 20 elective credits, over the obligatory subjects plus 7; 0.0
   * without obligatory subjects.
   */
  function PorcentajeCarrera(inscs: seq<Inscripcion>, materias: seq<Materia>): (r: real)
    ensures Filter(materias, Obligatoria) == [] ==> r == 0.0
  {
    var obligatorias := Filter(materias, Obligatoria);
    if obligatorias == [] then 0.0
    else
      Progreso(ConAprobada(obligatorias, inscs), CreditosElectivos(inscs, materias), |obligatorias|)
  }

  /** `(obligatorias_aprobadas + creditos / 20 * 7) / (len(obligatorias) + 7)`. */
  function Progreso(aprobadas: int, creditos: int, obligatorias: nat): real
  {
    (aprobadas as real + creditos as real / 20.0 * 7.0) / (obligatorias as real + 7.0)
  }

  /** The two counting loops of `_calcular_porcentaje_carrera`. */
  method CalcularPorcentajeCarrera(inscs: seq<Inscripcion>, materias: seq<Materia>) returns (progreso: real)
    ensures progreso == PorcentajeCarrera(inscs, materias)
  {
    var obligatorias := Filter(materias, Obligatoria);
    if obligatorias == [] {
      return 0.0;
    }
    var obligatoriasAprobadas := ContarConAprobada(obligatorias, inscs);
    var creditosObtenidos := SumarCreditosElectivos(inscs, materias);
    progreso := Progreso(obligatoriasAprobadas, creditosObtenidos, |obligatorias|);
  }

  /** The first loop: obligatory subjects with an approved enrolment. */
  method ContarConAprobada(obligatorias: seq<Materia>, inscs: seq<Inscripcion>) returns (n: nat)
    ensures n == ConAprobada(obligatorias, inscs)
  {
    n := 0;
    var i := 0;
    while i < |obligatorias|
      invariant 0 <= i <= |obligatorias|
      invariant n == ConAprobada(obligatorias[..i], inscs)
    {
      var inscripcion := AprobadaDe(inscs, obligatorias[i].id);
      if inscripcion.Some? {
        n := n + 1;
      }
      assert obligatorias[..i + 1][..i] == obligatorias[..i];
      i := i + 1;
    }
    assert obligatorias[..i] == obligatorias;
  }

  /** The second loop: credits of the approved electives, `materia.creditos or 0`. */
  method SumarCreditosElectivos(inscs: seq<Inscripcion>, materias: seq<Materia>) returns (creditos: int)
    ensures creditos == CreditosElectivos(inscs, materias)
  {
    creditos := 0;
    var j := 0;
    while j < |inscs|
      invariant 0 <= j <= |inscs|
      invariant creditos == CreditosElectivos(inscs[..j], materias)
    {
      if Aprobada(inscs[j]) {
        var materia := MateriaPorId(materias, inscs[j].materiaId);
        if materia.Some? && materia.value.esElectiva {
          creditos := creditos + CreditosDe(materia.value);
        }
      }
      assert inscs[..j + 1][..j] == inscs[..j];
      j := j + 1;
    }
    assert inscs[..j] == inscs;
  }

  lemma DivAtMostOne(x: real, n: real)
    requires 0.0 < n && x <= n
    ensures x / n <= 1.0
  {
    assert x / n * n == x;
  }

  /**
   * The percentage is never negative, and it reaches 1 only when every
   * obligatory subject is approved or the electives exceed 20 credits.
   */
  lemma PorcentajeCarreraRango(inscs: seq<Inscripcion>, materias: seq<Materia>)
    requires CreditosElectivos(inscs, materias) >= 0
    ensures PorcentajeCarrera(inscs, materias) >= 0.0
    ensures CreditosElectivos(inscs, materias) <= 20 ==> PorcentajeCarrera(inscs, materias) <= 1.0
  {
    var obligatorias := Filter(materias, Obligatoria);
    if obligatorias != [] {
      var a := ConAprobada(obligatorias, inscs) as real;
      var c := CreditosElectivos(inscs, materias) as real;
      var n := |obligatorias| as real + 7.0;
      assert a <= n - 7.0;
      var x := a + c / 20.0 * 7.0;
      assert x >= 0.0;
      assert PorcentajeCarrera(inscs, materias) == x / n;
      if c <= 20.0 {
        assert c / 20.0 * 7.0 <= 7.0;
        DivAtMostOne(x, n);
      }
    }
  }

  // ----- Date order -----

  /** Python's `date` order, which compares (year, month, day). */
  predicate FechaLe(a: Nota, b: Nota) { !DateLt(b.fecha, a.fecha) }

  lemma FechaLeTotal()
    ensures TotalPreorder(FechaLe)
  {
  }

  /** `sorted(notas, key=lambda x: x.fecha)`: stable, so grades of one day keep their order. */
  function OrdenarPorFecha(notas: seq<Nota>): (r: seq<Nota>)
    ensures |r| == |notas| && multiset(r) == multiset(notas)
  {
    SortBy(notas, FechaLe)
  }

  lemma OrdenadasPorFecha(notas: seq<Nota>)
    ensures SortedBy(OrdenarPorFecha(notas), FechaLe)
  {
    FechaLeTotal();
    SortBySorted(notas, FechaLe);
  }

  /** Sorting keeps the grades themselves: each sorted grade is one of the input. */
  lemma OrdenarPorFechaMiembros(notas: seq<Nota>)
    ensures forall i :: 0 <= i < |OrdenarPorFecha(notas)| ==> OrdenarPorFecha(notas)[i] in notas
  {
    var s := OrdenarPorFecha(notas);
    forall i | 0 <= i < |s|
      ensures s[i] in notas
    {
      assert s[i] in multiset(s);
    }
  }

  // ----- Grouping -----

  /** The dictionary entry for key `k`: the elements with that key, in input order. */
  function Grupo<T, K(==)>(s: seq<T>, clave: T -> K, k: K): (g: seq<T>)
    ensures |g| <= |s|
    ensures forall i :: 0 <= i < |g| ==> g[i] in s && clave(g[i]) == k
    ensures forall i :: 0 <= i < |s| && clave(s[i]) == k ==> s[i] in g
  {
    if s == [] then []
    else
      var init := s[..|s| - 1];
      assert forall i :: 0 <= i < |init| ==> init[i] == s[i];
      Grupo(init, clave, k) + (if clave(s[|s| - 1]) == k then [s[|s| - 1]] else [])
  }

  /** Appending one element extends exactly the group of its own key. */
  lemma GrupoSnoc<T, K>(s: seq<T>, clave: T -> K, x: T, k: K)
    ensures Grupo(s + [x], clave, k) == Grupo(s, clave, k) + (if clave(x) == k then [x] else [])
  {
    assert (s + [x])[..|s|] == s;
  }

  /** A group is non-empty exactly when some element carries its key. */
  lemma GrupoNoVacio<T, K>(s: seq<T>, clave: T -> K, k: K)
    ensures Grupo(s, clave, k) != [] <==> exists i :: 0 <= i < |s| && clave(s[i]) == k
  {
    var g := Grupo(s, clave, k);
    if g != [] {
      var i :| 0 <= i < |s| && s[i] == g[0];
    }
  }

  /** A group holds at most as many elements satisfying `p` as the whole input. */
  lemma {:induction false} GrupoCount<T, K>(s: seq<T>, clave: T -> K, k: K, p: T -> bool)
    ensures Count(Grupo(s, clave, k), p) <= Count(s, p)
  {
    if s != [] {
      var init, last := s[..|s| - 1], s[|s| - 1];
      GrupoCount(init, clave, k, p);
      assert init + [last] == s;
      GrupoSnoc(init, clave, last, k);
      CountAppend(Grupo(init, clave, k), if clave(last) == k then [last] else [], p);
      CountAppend(init, [last], p);
    }
  }

  /** A group's size is the number of elements carrying its key (`dict.get(k, 0) + 1` counting). */
  lemma {:induction false} GrupoTamanio<T, K>(s: seq<T>, clave: T -> K, k: K, p: T -> bool)
    requires forall x :: p(x) <==> clave(x) == k
    ensures |Grupo(s, clave, k)| == Count(s, p)
  {
    if s != [] {
      var init, last := s[..|s| - 1], s[|s| - 1];
      GrupoTamanio(init, clave, k, p);
      assert init + [last] == s;
      CountAppend(init, [last], p);
    }
  }

  /** A member of a group is an input element with the group's key. */
  lemma GrupoMiembro<T, K>(s: seq<T>, clave: T -> K, k: K, x: T)
    requires x in Grupo(s, clave, k)
    ensures x in s && clave(x) == k
  {
  }

  /** When every element carries key `k`, its group is the whole sequence. */
  lemma {:induction false} GrupoUnico<T, K>(s: seq<T>, clave: T -> K, k: K)
    requires forall i :: 0 <= i < |s| ==> clave(s[i]) == k
    ensures Grupo(s, clave, k) == s
  {
    if s != [] {
      var init := s[..|s| - 1];
      GrupoUnico(init, clave, k);
      assert init + [s[|s| - 1]] == s;
    }
  }

  /** The dictionary-filling loop of the grouping conditions. */
  method AgruparPor<T, K(==)>(s: seq<T>, clave: T -> K) returns (m: map<K, seq<T>>)
    ensures forall k :: k in m <==> exists i :: 0 <= i < |s| && clave(s[i]) == k
    ensures forall i :: 0 <= i < |s| ==> clave(s[i]) in m
    ensures forall k :: k in m ==> m[k] == Grupo(s, clave, k) && m[k] != []
  {
    m := map[];
    var i := 0;
    while i < |s|
      invariant 0 <= i <= |s|
      invariant forall k :: k in m <==> Grupo(s[..i], clave, k) != []
      invariant forall k :: k in m ==> m[k] == Grupo(s[..i], clave, k)
    {
      var key := clave(s[i]);
      assert s[..i + 1] == s[..i] + [s[i]];
      forall k
        ensures Grupo(s[..i + 1], clave, k) == Grupo(s[..i], clave, k) + (if key == k then [s[i]] else [])
      {
        GrupoSnoc(s[..i], clave, s[i], k);
      }
      if key !in m {
        assert Grupo(s[..i], clave, key) == [];
        assert Grupo(s[..i + 1], clave, key) == [s[i]];
        m := m[key := [s[i]]];
      } else {
        m := m[key := m[key] + [s[i]]];
      }
      i := i + 1;
    }
    assert s[..i] == s;
    forall k
      ensures Grupo(s, clave, k) != [] <==> exists i :: 0 <= i < |s| && clave(s[i]) == k
    {
      GrupoNoVacio(s, clave, k);
    }
    forall j | 0 <= j < |s|
      ensures clave(s[j]) in m
    {
      assert s[j] in Grupo(s, clave, clave(s[j]));
    }
  }

  /** Some group of the dictionary satisfies `p`. */
  predicate AlgunGrupo<T, K(==)>(s: seq<T>, clave: T -> K, p: seq<T> -> bool)
  {
    exists i :: 0 <= i < |s| && p(Grupo(s, clave, clave(s[i])))
  }

  /** Every group of the dictionary satisfies `p`. */
  predicate TodoGrupo<T, K(==)>(s: seq<T>, clave: T -> K, p: seq<T> -> bool)
  {
    forall i :: 0 <= i < |s| ==> p(Grupo(s, clave, clave(s[i])))
  }

  /** The group test "non-empty and every element satisfies `p`". */
  function TodosCumplen<T>(p: T -> bool): seq<T> -> bool
  {
    (g: seq<T>) => g != [] && forall i :: 0 <= i < |g| ==> p(g[i])
  }

  /** Some group passes entirely: some element whose key-mates all satisfy `p`. */
  lemma AlgunGrupoTodos<T, K>(s: seq<T>, clave: T -> K, p: T -> bool)
    ensures AlgunGrupo(s, clave, TodosCumplen(p)) <==>
      exists i :: 0 <= i < |s| && forall j :: 0 <= j < |s| && clave(s[j]) == clave(s[i]) ==> p(s[j])
  {
    if AlgunGrupo(s, clave, TodosCumplen(p)) {
      var i :| 0 <= i < |s| && TodosCumplen(p)(Grupo(s, clave, clave(s[i])));
      var g := Grupo(s, clave, clave(s[i]));
      forall j | 0 <= j < |s| && clave(s[j]) == clave(s[i])
        ensures p(s[j])
      {
        assert s[j] in g;
      }
    }
    if exists i :: 0 <= i < |s| && forall j :: 0 <= j < |s| && clave(s[j]) == clave(s[i]) ==> p(s[j]) {
      var i :| 0 <= i < |s| && forall j :: 0 <= j < |s| && clave(s[j]) == clave(s[i]) ==> p(s[j]);
      var g := Grupo(s, clave, clave(s[i]));
      assert s[i] in g;
      forall k | 0 <= k < |g|
        ensures p(g[k])
      {
        var j :| 0 <= j < |s| && s[j] == g[k];
      }
    }
  }

  /** `for grupo in d.values(): if p(grupo): return True`, after filling `d`. */
  method BuscarGrupo<T, K(==)>(s: seq<T>, clave: T -> K, p: seq<T> -> bool) returns (b: bool)
    ensures b == AlgunGrupo(s, clave, p)
  {
    var m := AgruparPor(s, clave);
    var pendientes := m.Keys;
    while pendientes != {}
      invariant pendientes <= m.Keys
      invariant forall k :: k in m.Keys - pendientes ==> !p(m[k])
      decreases pendientes
    {
      var k :| k in pendientes;
      if p(m[k]) {
        var i :| 0 <= i < |s| && clave(s[i]) == k;
        return true;
      }
      pendientes := pendientes - {k};
    }
    forall i | 0 <= i < |s|
      ensures !p(Grupo(s, clave, clave(s[i])))
    {
      assert clave(s[i]) in m;
    }
    return false;
  }

  /** `for grupo in d.values(): if not p(grupo): return False`, then `return len(d) > 0`. */
  method TodosLosGrupos<T, K(==)>(s: seq<T>, clave: T -> K, p: seq<T> -> bool) returns (b: bool)
    ensures b == (s != [] && TodoGrupo(s, clave, p))
  {
    var m := AgruparPor(s, clave);
    var pendientes := m.Keys;
    while pendientes != {}
      invariant pendientes <= m.Keys
      invariant forall k :: k in m.Keys - pendientes ==> p(m[k])
      decreases pendientes
    {
      var k :| k in pendientes;
      if !p(m[k]) {
        var i :| 0 <= i < |s| && clave(s[i]) == k;
        return false;
      }
      pendientes := pendientes - {k};
    }
    forall i | 0 <= i < |s|
      ensures p(Grupo(s, clave, clave(s[i])))
    {
      assert clave(s[i]) in m;
    }
    if s != [] {
      assert clave(s[0]) in m;
    }
    return |m| > 0;
  }

  // ----- Level completion -----

  /** Every subject of `ms` has an approved enrolment. */
  predicate TodasConAprobada(ms: seq<Materia>, inscs: seq<Inscripcion>)
  {
    forall i :: 0 <= i < |ms| ==> AprobadaDe(inscs, ms[i].id).Some?
  }

  /** Some enrolment of the subject has status `aprobada`. */
  predicate TieneAprobada(inscs: seq<Inscripcion>, materiaId: string)
  {
    exists j :: 0 <= j < |inscs| && inscs[j].materiaId == materiaId && Aprobada(inscs[j])
  }

  /** In the enrolments' own terms: each subject has an enrolment of it with status `aprobada`. */
  lemma TodasConAprobadaIff(ms: seq<Materia>, inscs: seq<Inscripcion>)
    ensures TodasConAprobada(ms, inscs) <==> forall i :: 0 <= i < |ms| ==> TieneAprobada(inscs, ms[i].id)
  {
    forall i | 0 <= i < |ms|
      ensures AprobadaDe(inscs, ms[i].id).Some? <==> TieneAprobada(inscs, ms[i].id)
    {
      if AprobadaDe(inscs, ms[i].id).Some? {
        var r := AprobadaDe(inscs, ms[i].id).value;
        var j :| 0 <= j < |inscs| && inscs[j] == r;
      }
    }
  }

  /**
   * The loop shared by the level conditions: False on an empty list,
   * False at the first subject without an approved enrolment, else True.
   */
  method TodasAprobadas(ms: seq<Materia>, inscs: seq<Inscripcion>) returns (b: bool)
    ensures b == (ms != [] && TodasConAprobada(ms, inscs))
  {
    if ms == [] {
      return false;
    }
    var i := 0;
    while i < |ms|
      invariant 0 <= i <= |ms|
      invariant forall k :: 0 <= k < i ==> AprobadaDe(inscs, ms[k].id).Some?
    {
      var inscripcion := AprobadaDe(inscs, ms[i].id);
      if inscripcion.None? {
        return false;
      }
      i := i + 1;
    }
    return true;
  }

  // ----- Streaks -----

  /** Positions `k` to `k + n - 1` all satisfy `p`. */
  predicate RunAt<T>(s: seq<T>, p: T -> bool, k: int, n: int)
  {
    0 <= k && k + n <= |s| && forall j :: k <= j < k + n ==> p(s[j])
  }

  /** `s` holds `n` consecutive elements that satisfy `p`. */
  predicate HasRun<T>(s: seq<T>, p: T -> bool, n: nat)
  {
    exists k :: 0 <= k <= |s| - n && RunAt(s, p, k, n)
  }

  /**
   * The streak counter of the `racha` conditions: the counter grows on a
   * qualifying element, returns as soon as it reaches `n`, and drops to 0
   * on any other element.
   */
  method Racha<T>(s: seq<T>, p: T -> bool, n: nat) returns (b: bool)
    requires n >= 1
    ensures b == HasRun(s, p, n)
  {
    var racha := 0;
    var i := 0;
    while i < |s|
      invariant 0 <= i <= |s|
      invariant 0 <= racha <= i && racha < n
      invariant forall j :: i - racha <= j < i ==> p(s[j])
      invariant racha < i ==> !p(s[i - racha - 1])
      invariant forall k :: 0 <= k && k + n <= i ==> !RunAt(s, p, k, n)
    {
      if p(s[i]) {
        racha := racha + 1;
        if racha >= n {
          assert RunAt(s, p, i + 1 - n, n);
          return true;
        }
        forall k | 0 <= k && k + n == i + 1
          ensures !RunAt(s, p, k, n)
        {
          assert k <= i - racha && !p(s[i - racha]);
        }
      } else {
        forall k | 0 <= k && k + n == i + 1
          ensures !RunAt(s, p, k, n)
        {
          assert !p(s[i]);
        }
        racha := 0;
      }
      i := i + 1;
    }
    return false;
  }

  /** A streak shortens to any shorter streak: the tiers of one streak condition are nested. */
  lemma HasRunShorter<T>(s: seq<T>, p: T -> bool, n: nat, m: nat)
    requires m <= n && HasRun(s, p, n)
    ensures HasRun(s, p, m)
  {
    var k :| 0 <= k <= |s| - n && RunAt(s, p, k, n);
    assert RunAt(s, p, k, m);
  }

  /** A streak under a stricter test is a streak under a weaker one. */
  lemma HasRunWeaken<T>(s: seq<T>, p: T -> bool, q: T -> bool, n: nat)
    requires forall x :: p(x) ==> q(x)
    requires HasRun(s, p, n)
    ensures HasRun(s, q, n)
  {
    var k :| 0 <= k <= |s| - n && RunAt(s, p, k, n);
    assert RunAt(s, q, k, n);
  }

  /** A streak of `n` means at least `n` qualifying elements overall. */
  lemma HasRunCount<T>(s: seq<T>, p: T -> bool, n: nat)
    requires HasRun(s, p, n)
    ensures Count(s, p) >= n
  {
    var k :| 0 <= k <= |s| - n && RunAt(s, p, k, n);
    var w := s[k..k + n];
    assert s == s[..k] + w + s[k + n..];
    CountAppend(s[..k] + w, s[k + n..], p);
    CountAppend(s[..k], w, p);
    CountAll(w, p);
  }

  lemma {:induction false} CountAll<T>(s: seq<T>, p: T -> bool)
    requires forall j :: 0 <= j < |s| ==> p(s[j])
    ensures Count(s, p) == |s|
  {
    if s != [] {
      CountAll(s[1..], p);
    }
  }
}
