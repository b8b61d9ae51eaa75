/**
 * The "desafíos especiales" achievements: recoveries inside a subject,
 * a comeback between the halves of the history, runs of consecutive
 * study days, long study days and sessions, fast approvals, perfect
 * periods, repeated subjects and summer approvals.
 */
module LogrosDesafios {
  import opened Common
  import opened Dates
  import opened LogrosDatos
  import opened LogrosRachas
  import opened LogrosPromedios

  // ----- recuperacion_epica -----

  /** A partial exam whose enrolment exists. */
  predicate ParcialInscripto(inscs: seq<Inscripcion>, n: Nota)
  {
    n.esParcial && InscripcionDe(inscs, n).Some?
  }

  function ParcialConInscripcion(inscs: seq<Inscripcion>): Nota -> bool
  {
    (n: Nota) => ParcialInscripto(inscs, n)
  }

  /** A failed partial at position `i` and a 10 at a later position `j`, one to thirty days later. */
  predicate RecuperoEn(s: seq<Nota>, i: int, j: int)
    requires 0 <= i < j < |s|
  {
    var d := DayNumber(s[j].fecha) - DayNumber(s[i].fecha);
    s[i].esParcial && s[i].nota < 4.0 && s[j].nota == 10.0 && 1 <= d <= 30
  }

  /** The nested loops over one subject's partial exams in date order. */
  predicate RecuperoEnGrupo(g: seq<Nota>)
  {
    var s := OrdenarPorFecha(g);
    exists i, j :: 0 <= i < j < |s| && RecuperoEn(s, i, j)
  }

  function Recupero(): seq<Nota> -> bool { (g: seq<Nota>) => RecuperoEnGrupo(g) }

  /** `recuperacion_epica`: in some subject a failed partial is followed by a 10 within thirty days. */
  predicate RecuperacionEpica(notas: seq<Nota>, inscs: seq<Inscripcion>)
  {
    var ns := Filter(notas, ParcialConInscripcion(inscs));
    AlgunGrupo(ns, MateriaDeNota(inscs), Recupero())
  }

  method VerificarRecuperacionEpica(notas: seq<Nota>, inscs: seq<Inscripcion>) returns (b: bool)
    ensures b == RecuperacionEpica(notas, inscs)
  {
    var ns := Filter(notas, ParcialConInscripcion(inscs));
    b := BuscarGrupo(ns, MateriaDeNota(inscs), Recupero());
  }

  /** A failed partial exam `a` and a 10 `b` of the same subject, one to thirty days later. */
  predicate ParRecuperado(inscs: seq<Inscripcion>, a: Nota, b: Nota)
  {
    a.esParcial && a.nota < 4.0 && b.nota == 10.0 &&
    MateriaDeNota(inscs)(a) == MateriaDeNota(inscs)(b) &&
    1 <= DayNumber(b.fecha) - DayNumber(a.fecha) <= 30
  }

  /** An epic recovery rests on such a pair among the grades. */
  lemma RecuperacionEpicaTestigos(notas: seq<Nota>, inscs: seq<Inscripcion>)
    requires RecuperacionEpica(notas, inscs)
    ensures exists a, b :: a in notas && b in notas && ParRecuperado(inscs, a, b)
  {
    var ns := Filter(notas, ParcialConInscripcion(inscs));
    var clave := MateriaDeNota(inscs);
    var k :| 0 <= k < |ns| && Recupero()(Grupo(ns, clave, clave(ns[k])));
    var key := clave(ns[k]);
    var g := Grupo(ns, clave, key);
    assert RecuperoEnGrupo(g);
    forall x | x in g
      ensures clave(x) == key
    {
      GrupoMiembro(ns, clave, key, x);
    }
    ParEnGrupo(g, inscs, key);
    var a, b :| a in g && b in g && ParRecuperado(inscs, a, b);
    GrupoMiembro(ns, clave, key, a);
    GrupoMiembro(ns, clave, key, b);
  }

  /** A recovery in the sorted group of one subject is a pair of its grades. */
  lemma ParEnGrupo(g: seq<Nota>, inscs: seq<Inscripcion>, key: string)
    requires RecuperoEnGrupo(g)
    requires forall x :: x in g ==> MateriaDeNota(inscs)(x) == key
    ensures exists a, b :: a in g && b in g && ParRecuperado(inscs, a, b)
  {
    var s := OrdenarPorFecha(g);
    var i, j :| 0 <= i < j < |s| && RecuperoEn(s, i, j);
    OrdenarPorFechaMiembros(g);
    var a, b := s[i], s[j];
    assert a in g && b in g;
    assert ParRecuperado(inscs, a, b);
  }

  // ----- comeback, resistencia, salvado_por_la_campana -----

  /** `comeback`: ten grades or more, the first half's mean at most 6 and the second half's at least 8. */
  predicate Comeback(notas: seq<Nota>)
  {
    var v1, v2 := PrimeraMitad(notas), SegundaMitad(notas);
    |notas| >= 10 && v1 != [] && v2 != [] && Mean(v1, Valor).value <= 6.0 && Mean(v2, Valor).value >= 8.0
  }

  /** A comeback also gains a point and improves the second half. */
  lemma ComebackMejora(notas: seq<Nota>)
    requires Comeback(notas)
    ensures Subir1Punto(notas) && MejorUltimoCuatri(notas)
  {
  }

  /** Some group of three grades or more whose subject has an approved enrolment. */
  function TresYAprobada(inscs: seq<Inscripcion>): seq<Nota> -> bool
  {
    (g: seq<Nota>) => |g| >= 3 && AprobadaDe(inscs, MateriaDeNota(inscs)(g[0])).Some?
  }

  /** `resistencia`: a subject with three grades or more and an approved enrolment. */
  predicate Resistencia(notas: seq<Nota>, inscs: seq<Inscripcion>)
  {
    var ns := Filter(notas, ConInscripcion(inscs));
    AlgunGrupo(ns, MateriaDeNota(inscs), TresYAprobada(inscs))
  }

  method VerificarResistencia(notas: seq<Nota>, inscs: seq<Inscripcion>) returns (b: bool)
    ensures b == Resistencia(notas, inscs)
  {
    var ns := Filter(notas, ConInscripcion(inscs));
    b := BuscarGrupo(ns, MateriaDeNota(inscs), TresYAprobada(inscs));
  }

  /** Resistance needs three grades and an approved enrolment. */
  lemma ResistenciaNecesita(notas: seq<Nota>, inscs: seq<Inscripcion>)
    requires Resistencia(notas, inscs)
    ensures |notas| >= 3
    ensures exists i :: 0 <= i < |inscs| && Aprobada(inscs[i])
  {
    var ns := Filter(notas, ConInscripcion(inscs));
    var clave := MateriaDeNota(inscs);
    var k :| 0 <= k < |ns| && TresYAprobada(inscs)(Grupo(ns, clave, clave(ns[k])));
    var g := Grupo(ns, clave, clave(ns[k]));
    var r := AprobadaDe(inscs, clave(g[0])).value;
    var i :| 0 <= i < |inscs| && inscs[i] == r;
  }

  /** `abs(n.nota - 4.0) < 0.01`. */
  predicate CasiCuatro(n: Nota) { -0.01 < n.nota - 4.0 < 0.01 }

  /** The grade is a 4 that closes its enrolment's grades by date, after an earlier failed grade. */
  predicate CierraConCuatro(notas: seq<Nota>, n4: Nota)
  {
    var s := OrdenarPorFecha(NotasDe(notas, n4.inscripcionId));
    CasiCuatro(n4) && s != [] && s[|s| - 1].id == n4.id && |s| > 1 &&
    exists k :: 0 <= k < |s| - 1 && s[k].nota < 4.0
  }

  /** `salvado_por_la_campana`. */
  predicate SalvadoPorLaCampana(notas: seq<Nota>)
  {
    exists i :: 0 <= i < |notas| && CierraConCuatro(notas, notas[i])
  }

  predicate DesaprobadaYCuatro(a: Nota, b: Nota)
  {
    a.nota < 4.0 && CasiCuatro(b) && a.inscripcionId == b.inscripcionId
  }

  /** Being saved by the bell needs a failed grade and a 4 of the same enrolment. */
  lemma SalvadoTieneDesaprobada(notas: seq<Nota>)
    requires SalvadoPorLaCampana(notas)
    ensures exists i, j :: 0 <= i < |notas| && 0 <= j < |notas| && DesaprobadaYCuatro(notas[i], notas[j])
  {
    var j :| 0 <= j < |notas| && CierraConCuatro(notas, notas[j]);
    var ns := NotasDe(notas, notas[j].inscripcionId);
    var s := OrdenarPorFecha(ns);
    var k :| 0 <= k < |s| - 1 && s[k].nota < 4.0;
    assert s[k] in multiset(ns);
    assert s[k] in ns;
    var i :| 0 <= i < |notas| && notas[i] == s[k];
    assert DesaprobadaYCuatro(notas[i], notas[j]);
  }

  // ----- runs of study days -----

  predicate IntLe(a: int, b: int) { a <= b }

  lemma IntLeTotal()
    ensures TotalPreorder(IntLe)
  {
  }

  /** `sorted(list(set(fechas)))`: the distinct days in increasing order. */
  function DiasUnicos(dias: seq<int>): seq<int>
  {
    Dedup(SortBy(dias, IntLe))
  }

  predicate Creciente(u: seq<int>) { forall i :: 0 < i < |u| ==> u[i - 1] < u[i] }

  lemma DiasUnicosCorrectos(dias: seq<int>)
    ensures Creciente(DiasUnicos(dias))
    ensures forall d :: d in DiasUnicos(dias) <==> d in dias
  {
    var sorted := SortBy(dias, IntLe);
    IntLeTotal();
    SortBySorted(dias, IntLe);
    DedupSorted(sorted, IntLe);
    forall d | d in dias
      ensures d in DiasUnicos(dias)
    {
      assert d in multiset(sorted);
      var j :| 0 <= j < |sorted| && sorted[j] == d;
    }
    forall d | d in DiasUnicos(dias)
      ensures d in dias
    {
      assert d in multiset(dias);
    }
  }

  /** The `n`-th distinct day after the one at `i` is exactly `n - 1` days later. */
  predicate SaltoEn(u: seq<int>, n: nat, i: int)
    requires n >= 1 && 0 <= i && i + n <= |u|
  {
    u[i + n - 1] - u[i] == n - 1
  }

  /** The `range(len(fechas_unicas) - (n - 1))` loop of `madrugador`, `noctambulo` and `disciplinado`. */
  predicate RachaDias(u: seq<int>, n: nat)
  {
    n >= 1 && exists i :: 0 <= i <= |u| - n && SaltoEn(u, n, i)
  }

  method VerificarRachaDias(u: seq<int>, n: nat) returns (b: bool)
    requires n >= 1
    ensures b == RachaDias(u, n)
  {
    var i := 0;
    while i < |u| - (n - 1)
      invariant 0 <= i
      invariant forall k :: 0 <= k < i && k + n <= |u| ==> !SaltoEn(u, n, k)
    {
      if u[i + n - 1] - u[i] == n - 1 {
        assert SaltoEn(u, n, i);
        return true;
      }
      i := i + 1;
    }
    return false;
  }

  lemma {:induction false} CrecienteSalto(u: seq<int>, a: int, b: int)
    requires Creciente(u) && 0 <= a <= b < |u|
    ensures u[b] - u[a] >= b - a
    decreases b - a
  {
    if a < b {
      CrecienteSalto(u, a, b - 1);
    }
  }

  /** Days `d` to `d + n - 1` all occur. */
  predicate DiasCubiertos(u: seq<int>, d: int, n: nat)
  {
    forall x :: d <= x < d + n ==> x in u
  }

  lemma {:induction false} Cubre(u: seq<int>, d: int, n: nat, i: int, k: int)
    requires Creciente(u) && DiasCubiertos(u, d, n) && 0 <= i < |u| && u[i] == d && 0 <= k < n
    ensures i + k < |u| && u[i + k] == d + k
    decreases k
  {
    if k > 0 {
      Cubre(u, d, n, i, k - 1);
      assert d + k in u;
      var j :| 0 <= j < |u| && u[j] == d + k;
      if j < i + k {
        CrecienteSalto(u, j, i + k - 1);
      } else {
        CrecienteSalto(u, i + k, j);
      }
    }
  }

  /** On increasing distinct days, the loop's test finds exactly a run of `n` calendar days in a row. */
  lemma RachaDiasIff(u: seq<int>, n: nat)
    requires Creciente(u) && n >= 1
    ensures RachaDias(u, n) <==> exists d :: DiasCubiertos(u, d, n)
  {
    if RachaDias(u, n) {
      var i :| 0 <= i <= |u| - n && SaltoEn(u, n, i);
      forall x | u[i] <= x < u[i] + n
        ensures x in u
      {
        var k := x - u[i];
        CrecienteSalto(u, i, i + k);
        CrecienteSalto(u, i + k, i + n - 1);
        assert u[i + k] == x;
      }
      assert DiasCubiertos(u, u[i], n);
    }
    if exists d :: DiasCubiertos(u, d, n) {
      var d :| DiasCubiertos(u, d, n);
      assert d + 0 in u;
      var i :| 0 <= i < |u| && u[i] == d;
      Cubre(u, d, n, i, n - 1);
      assert SaltoEn(u, n, i);
    }
  }

  /** The run test on the distinct sorted days is the run test on the days as recorded. */
  lemma RachaDiasUnicos(dias: seq<int>, n: nat)
    requires n >= 1
    ensures RachaDias(DiasUnicos(dias), n) <==> exists d :: DiasCubiertos(dias, d, n)
  {
    var u := DiasUnicos(dias);
    DiasUnicosCorrectos(dias);
    RachaDiasIff(u, n);
    if exists d :: DiasCubiertos(dias, d, n) {
      var d :| DiasCubiertos(dias, d, n);
      assert DiasCubiertos(u, d, n);
    }
    if exists d :: DiasCubiertos(u, d, n) {
      var d :| DiasCubiertos(u, d, n);
      assert DiasCubiertos(dias, d, n);
    }
  }

  /** The days, as ordinals, of the sessions that satisfy `p`. */
  function DiasDe(sesiones: seq<Sesion>, p: Sesion -> bool): seq<int>
  {
    var f := Filter(sesiones, p);
    seq(|f|, i requires 0 <= i < |f| => DayNumber(f[i].fecha))
  }

  predicate Madrugadora(s: Sesion) { s.hora < 6 }
  predicate Nocturna(s: Sesion) { s.hora >= 23 }
  predicate Cualquiera(s: Sesion) { true }

  /** `madrugador`: seven sessions or more and seven calendar days in a row with a session before 6. */
  predicate Madrugador(sesiones: seq<Sesion>)
  {
    |sesiones| >= 7 && RachaDias(DiasUnicos(DiasDe(sesiones, Madrugadora)), 7)
  }

  /** `noctambulo`: ten sessions or more and ten days in a row with a session from 23 on. */
  predicate Noctambulo(sesiones: seq<Sesion>)
  {
    |sesiones| >= 10 && RachaDias(DiasUnicos(DiasDe(sesiones, Nocturna)), 10)
  }

  /** `disciplinado`: thirty sessions or more and thirty days in a row with some session. */
  predicate Disciplinado(sesiones: seq<Sesion>)
  {
    |sesiones| >= 30 && RachaDias(DiasUnicos(DiasDe(sesiones, Cualquiera)), 30)
  }

  // ----- maraton, sprint, multitasker, velocidad -----

  function FechaDe(s: Sesion): Date { s.fecha }
  function HorasDe(s: Sesion): real { s.duracionMinutos as real / 60.0 }
  function MinutosDe(s: Sesion): int { s.duracionMinutos }

  function HorasAlMenos(h: real): seq<Sesion> -> bool
  {
    (g: seq<Sesion>) => SumReal(g, HorasDe) >= h
  }

  /** `maraton`: a day whose sessions add up to eight hours or more. */
  predicate Maraton(sesiones: seq<Sesion>)
  {
    sesiones != [] && AlgunGrupo(sesiones, FechaDe, HorasAlMenos(8.0))
  }

  method VerificarMaraton(sesiones: seq<Sesion>) returns (b: bool)
    ensures b == Maraton(sesiones)
  {
    if sesiones == [] {
      return false;
    }
    b := BuscarGrupo(sesiones, FechaDe, HorasAlMenos(8.0));
  }

  /** Summing hours is summing minutes over 60: eight hours is 480 minutes. */
  lemma {:induction false} HorasSonMinutos(g: seq<Sesion>)
    ensures SumReal(g, HorasDe) == SumInt(g, MinutosDe) as real / 60.0
    ensures SumReal(g, HorasDe) >= 8.0 <==> SumInt(g, MinutosDe) >= 480
  {
    if g != [] {
      HorasSonMinutos(g[1..]);
    }
  }

  /** `sprint`: one session of four hours or more. */
  predicate Sprint(sesiones: seq<Sesion>)
  {
    exists i :: 0 <= i < |sesiones| && sesiones[i].duracionMinutos >= 240
  }

  /** A sprint is a session of at least four hours: half a marathon day. */
  lemma SprintEsMedioMaraton(sesiones: seq<Sesion>)
    requires Sprint(sesiones)
    ensures exists i :: 0 <= i < |sesiones| && HorasDe(sesiones[i]) >= 4.0
  {
    var i :| 0 <= i < |sesiones| && sesiones[i].duracionMinutos >= 240;
    assert HorasDe(sesiones[i]) >= 4.0;
  }

  /** `multitasker`: six enrolments or more in course. */
  predicate Multitasker(inscs: seq<Inscripcion>) { Count(inscs, ConEstado("cursando")) >= 6 }

  /** Approved with both dates, at most thirty days after the enrolment (an earlier approval counts too). */
  predicate AprobadaRapido(i: Inscripcion)
  {
    Aprobada(i) && i.fechaInscripcion.Some? && i.fechaAprobacion.Some? &&
    DayNumber(i.fechaAprobacion.value) - DayNumber(i.fechaInscripcion.value) <= 30
  }

  /** `velocidad`. */
  predicate Velocidad(inscs: seq<Inscripcion>) { exists i :: 0 <= i < |inscs| && AprobadaRapido(inscs[i]) }

  // ----- perfeccion_cuatri, pomodoro_master, recursante_exitoso, intensivo_verano -----

  /** `abs(n.nota - 10.0) < 0.01`. */
  predicate CasiDiez(n: Nota) { -0.01 < n.nota - 10.0 < 0.01 }

  /** `perfeccion_cuatri`: five grades or more and five adjacent ones, by date, within 0.01 of 10. */
  predicate PerfeccionCuatri(notas: seq<Nota>)
  {
    |notas| >= 5 && HasRun(OrdenarPorFecha(notas), CasiDiez, 5)
  }

  /** Five exact tens in a row are a perfect period. */
  lemma PerfeccionDeDieces(notas: seq<Nota>)
    requires RachaOrdenada(notas, NotaIgual(10.0), 5)
    ensures PerfeccionCuatri(notas)
  {
    HasRunWeaken(OrdenarPorFecha(notas), NotaIgual(10.0), CasiDiez, 5);
    var k :| 0 <= k <= |OrdenarPorFecha(notas)| - 5 && RunAt(OrdenarPorFecha(notas), CasiDiez, k, 5);
  }

  predicate EsPomodoro(s: Sesion) { s.tipo == "pomodoro" }

  /** `pomodoro_master`: a hundred Pomodoro sessions. */
  predicate PomodoroMaster(sesiones: seq<Sesion>)
  {
    sesiones != [] && Count(sesiones, EsPomodoro) >= 100
  }

  /** The grades of a list of enrolments, enrolment by enrolment (`notas_materia.extend`). */
  function NotasDeInscripciones(notas: seq<Nota>, g: seq<Inscripcion>): (r: seq<Nota>)
    ensures forall k :: 0 <= k < |r| ==> r[k] in notas
  {
    if g == [] then []
    else
      var a := NotasDe(notas, g[0].id);
      var b := NotasDeInscripciones(notas, g[1..]);
      assert forall k :: 0 <= k < |a + b| ==> (a + b)[k] in a || (a + b)[k] in b;
      a + b
  }

  function MateriaDeInscripcion(i: Inscripcion): string { i.materiaId }

  /** Two enrolments or more, one approved, and all their grades averaging 9 or more. */
  function RecursadaConNueve(notas: seq<Nota>): seq<Inscripcion> -> bool
  {
    (g: seq<Inscripcion>) =>
      |g| >= 2 && (exists k :: 0 <= k < |g| && Aprobada(g[k])) &&
      var ns := NotasDeInscripciones(notas, g);
      ns != [] && Mean(ns, Valor).value >= 9.0
  }

  /** `recursante_exitoso`: a subject taken more than once, approved, with a 9 average over all its grades. */
  predicate RecursanteExitoso(notas: seq<Nota>, inscs: seq<Inscripcion>)
  {
    AlgunGrupo(inscs, MateriaDeInscripcion, RecursadaConNueve(notas))
  }

  method VerificarRecursanteExitoso(notas: seq<Nota>, inscs: seq<Inscripcion>) returns (b: bool)
    ensures b == RecursanteExitoso(notas, inscs)
  {
    b := BuscarGrupo(inscs, MateriaDeInscripcion, RecursadaConNueve(notas));
  }

  predicate AprobadaEnVerano(i: Inscripcion)
  {
    Aprobada(i) && i.fechaAprobacion.Some? && i.fechaAprobacion.value.month in {1, 2, 12}
  }

  /** `intensivo_verano`: three approvals in December, January or February. */
  predicate IntensivoVerano(inscs: seq<Inscripcion>) { Count(inscs, AprobadaEnVerano) >= 3 }

  /** The counting loop, which returns as soon as the count reaches 3. */
  method VerificarIntensivoVerano(inscs: seq<Inscripcion>) returns (b: bool)
    ensures b == IntensivoVerano(inscs)
  {
    var aprobadasVerano := 0;
    var i := 0;
    while i < |inscs|
      invariant 0 <= i <= |inscs|
      invariant aprobadasVerano == Count(inscs[..i], AprobadaEnVerano) < 3
    {
      assert inscs[..i + 1] == inscs[..i] + [inscs[i]];
      CountAppend(inscs[..i], [inscs[i]], AprobadaEnVerano);
      if AprobadaEnVerano(inscs[i]) {
        aprobadasVerano := aprobadasVerano + 1;
        if aprobadasVerano >= 3 {
          CountMonotone(inscs[..i + 1], inscs[i + 1..], AprobadaEnVerano);
          assert inscs[..i + 1] + inscs[i + 1..] == inscs;
          return true;
        }
      }
      i := i + 1;
    }
    assert inscs[..i] == inscs;
    return false;
  }
}
