/**
 * The "curiosos" achievements: patterns in the truncated grades of the
 * history in date order, grades on special dates, sessions on holidays
 * or at midnight, and counts per day or per value.
 */
module LogrosCuriosos {
  import opened Common
  import opened Dates
  import opened LogrosDatos
  import opened LogrosColecciones
  import opened LogrosPromedios
  import opened LogrosRecovery

  /** `int(n.nota)`. */
  function Entero(n: Nota): int { Trunc(n.nota) }

  // ----- nota_capicua -----

  predicate TresIgualesEn(s: seq<Nota>, i: int)
    requires 0 <= i && i + 3 <= |s|
  {
    Entero(s[i]) == Entero(s[i + 1]) == Entero(s[i + 2])
  }

  /** `nota_capicua`: three grades or more and three consecutive ones, in date order, with the same integer part. */
  predicate NotaCapicua(notas: seq<Nota>)
  {
    var s := OrdenarPorFecha(notas);
    |notas| >= 3 && exists i :: 0 <= i && i + 3 <= |s| && TresIgualesEn(s, i)
  }

  /** Three equal integer parts in a row are an integer part held by three grades. */
  lemma CapicuaRepite(notas: seq<Nota>)
    requires NotaCapicua(notas)
    ensures ValorRepetido(notas, 3)
  {
    var s := OrdenarPorFecha(notas);
    var i :| 0 <= i && i + 3 <= |s| && TresIgualesEn(s, i);
    var p := EnteroIgual(Entero(s[i]));
    assert RunAt(s, p, i, 3);
    HasRunCount(s, p, 3);
    CountMultiset(s, notas, p);
    OrdenarPorFechaMiembros(notas);
    ValorRepetidoTestigo(notas, s[i], 3);
  }

  /** A grade of the history whose integer part `veces` grades share. */
  lemma ValorRepetidoTestigo(notas: seq<Nota>, x: Nota, veces: nat)
    requires x in notas && Count(notas, EnteroIgual(Entero(x))) >= veces
    ensures ValorRepetido(notas, veces)
  {
    var k :| 0 <= k < |notas| && notas[k] == x;
  }

  // ----- fibonacci -----

  predicate Patron2358(s: seq<Nota>, i: int)
    requires 0 <= i && i + 4 <= |s|
  {
    Entero(s[i]) == 2 && Entero(s[i + 1]) == 3 && Entero(s[i + 2]) == 5 && Entero(s[i + 3]) == 8
  }

  predicate Patron1123(s: seq<Nota>, i: int)
    requires 0 <= i && i + 4 <= |s|
  {
    Entero(s[i]) == 1 && Entero(s[i + 1]) == 1 && Entero(s[i + 2]) == 2 && Entero(s[i + 3]) == 3
  }

  predicate Patron358(s: seq<Nota>, i: int)
    requires 0 <= i && i + 3 <= |s|
  {
    Entero(s[i]) == 3 && Entero(s[i + 1]) == 5 && Entero(s[i + 2]) == 8
  }

  /** The source's window: four grades from `i`, with the three-grade pattern tested inside it. */
  predicate VentanaComoEscrita(s: seq<Nota>, i: int)
    requires 0 <= i && i + 4 <= |s|
  {
    Patron2358(s, i) || Patron358(s, i) || Patron1123(s, i)
  }

  /** `fibonacci` as written: `range(len - 3)` only visits windows of four grades. */
  predicate FibonacciComoEscrito(notas: seq<Nota>)
  {
    var s := OrdenarPorFecha(notas);
    |notas| >= 3 && exists i :: 0 <= i && i + 4 <= |s| && VentanaComoEscrita(s, i)
  }

  /** `_condicion_fibonacci`: the loop over `range(len - 3)`, returning at the first matching window. */
  method VerificarFibonacciComoEscrito(notas: seq<Nota>) returns (b: bool)
    ensures b == FibonacciComoEscrito(notas)
  {
    if |notas| < 3 {
      return false;
    }
    var s := OrdenarPorFecha(notas);
    var i := 0;
    while i < |s| - 3
      invariant 0 <= i && (|s| >= 3 ==> i <= |s| - 3)
      invariant forall j :: 0 <= j < i ==> !VentanaComoEscrita(s, j)
    {
      var a, c, d, e := Entero(s[i]), Entero(s[i + 1]), Entero(s[i + 2]), Entero(s[i + 3]);
      if (a == 2 && c == 3 && d == 5 && e == 8) || (a == 3 && c == 5 && d == 8) || (a == 1 && c == 1 && d == 2 && e == 3) {
        assert VentanaComoEscrita(s, i);
        return true;
      }
      i := i + 1;
    }
    return false;
  }

  /** Each pattern tested on a window of its own length. */
  predicate VentanaFibonacci(s: seq<Nota>, i: int)
    requires 0 <= i && i + 3 <= |s|
  {
    Patron358(s, i) || (i + 4 <= |s| && (Patron2358(s, i) || Patron1123(s, i)))
  }

  /** `fibonacci` as intended: 3-5-8 also counts as the last three grades. */
  predicate Fibonacci(notas: seq<Nota>)
  {
    var s := OrdenarPorFecha(notas);
    |notas| >= 3 && exists i :: 0 <= i && i + 3 <= |s| && VentanaFibonacci(s, i)
  }

  /** The corrected loop over `range(len - 2)`, testing the four-grade patterns where they fit. */
  method VerificarFibonacci(notas: seq<Nota>) returns (b: bool)
    ensures b == Fibonacci(notas)
  {
    if |notas| < 3 {
      return false;
    }
    var s := OrdenarPorFecha(notas);
    var i := 0;
    while i + 3 <= |s|
      invariant 0 <= i <= |s| - 2
      invariant forall j :: 0 <= j < i ==> !VentanaFibonacci(s, j)
    {
      var a, c, d := Entero(s[i]), Entero(s[i + 1]), Entero(s[i + 2]);
      if a == 3 && c == 5 && d == 8 {
        assert VentanaFibonacci(s, i);
        return true;
      }
      if i + 4 <= |s| {
        var e := Entero(s[i + 3]);
        if (a == 2 && c == 3 && d == 5 && e == 8) || (a == 1 && c == 1 && d == 2 && e == 3) {
          assert VentanaFibonacci(s, i);
          return true;
        }
      }
      i := i + 1;
    }
    return false;
  }

  /** Everything the source detects is detected by the corrected condition. */
  lemma FibonacciComoEscritoImplica(notas: seq<Nota>)
    requires FibonacciComoEscrito(notas)
    ensures Fibonacci(notas)
  {
    var s := OrdenarPorFecha(notas);
    var i :| 0 <= i && i + 4 <= |s| && VentanaComoEscrita(s, i);
    assert VentanaFibonacci(s, i);
  }

  function NotaDe(valor: real, dia: int): Nota
  {
    Nota("n", "i", valor, Date(2024, 3, dia), true, false, false, true)
  }

  /** Three grades 3, 5 and 8 on consecutive days: the intended pattern, missed by the loop as written. */
  lemma FibonacciFinalPerdido()
    ensures var notas := [NotaDe(3.0, 1), NotaDe(5.0, 2), NotaDe(8.0, 3)];
      !FibonacciComoEscrito(notas) && Fibonacci(notas)
  {
    var notas := [NotaDe(3.0, 1), NotaDe(5.0, 2), NotaDe(8.0, 3)];
    TestigoOrdenado();
    assert Patron358(notas, 0);
    assert VentanaFibonacci(OrdenarPorFecha(notas), 0);
  }

  lemma TestigoOrdenado()
    ensures var notas := [NotaDe(3.0, 1), NotaDe(5.0, 2), NotaDe(8.0, 3)];
      OrdenarPorFecha(notas) == notas
  {
    var notas := [NotaDe(3.0, 1), NotaDe(5.0, 2), NotaDe(8.0, 3)];
    assert SortedBy(notas, FechaLe);
    SortByIdentity(notas, FechaLe);
  }

  // ----- lucky_7, monotonia -----

  function EnteroIgual(v: int): Nota -> bool { (n: Nota) => Entero(n) == v }

  /** `lucky_7`: seven grades or more whose integer part is 7. */
  predicate Lucky7(notas: seq<Nota>)
  {
    Count(notas, EnteroIgual(7)) >= 7
  }

  function DiezOMas(): seq<Nota> -> bool { (g: seq<Nota>) => |g| >= 10 }

  /** `monotonia`: ten grades or more and some integer part counted ten times. */
  predicate Monotonia(notas: seq<Nota>)
  {
    |notas| >= 10 && AlgunGrupo(notas, Entero, DiezOMas())
  }

  predicate ValorRepetido(notas: seq<Nota>, veces: nat)
  {
    exists i :: 0 <= i < |notas| && Count(notas, EnteroIgual(Entero(notas[i]))) >= veces
  }

  /** The counter dictionary is a count per value: monotony is a value held by ten grades. */
  lemma MonotoniaIff(notas: seq<Nota>)
    ensures Monotonia(notas) <==> |notas| >= 10 && ValorRepetido(notas, 10)
  {
    if Monotonia(notas) {
      var i :| 0 <= i < |notas| && DiezOMas()(Grupo(notas, Entero, Entero(notas[i])));
      GrupoTamanio(notas, Entero, Entero(notas[i]), EnteroIgual(Entero(notas[i])));
    }
    if |notas| >= 10 && ValorRepetido(notas, 10) {
      var i :| 0 <= i < |notas| && Count(notas, EnteroIgual(Entero(notas[i]))) >= 10;
      GrupoTamanio(notas, Entero, Entero(notas[i]), EnteroIgual(Entero(notas[i])));
      assert DiezOMas()(Grupo(notas, Entero, Entero(notas[i])));
    }
  }

  /** Ten sevens are both a monotony and a lucky seven. */
  lemma DiezSietes(notas: seq<Nota>)
    requires Count(notas, EnteroIgual(7)) >= 10
    ensures Monotonia(notas) && Lucky7(notas)
  {
    CountCero(notas, EnteroIgual(7));
    var i :| 0 <= i < |notas| && EnteroIgual(7)(notas[i]);
    assert Count(notas, EnteroIgual(Entero(notas[i]))) >= 10 by {
      assert EnteroIgual(Entero(notas[i])) == EnteroIgual(7);
    }
    MonotoniaIff(notas);
  }

  // ----- perfeccion_triple, maratonista_notas -----

  function TresDieces(): seq<Nota> -> bool { (g: seq<Nota>) => Count(g, NotaIgual(10.0)) >= 3 }

  /** `perfeccion_triple`: three tens on one day. */
  predicate PerfeccionTriple(notas: seq<Nota>)
  {
    AlgunGrupo(notas, FechaDeNota, TresDieces())
  }

  method VerificarPerfeccionTriple(notas: seq<Nota>) returns (b: bool)
    ensures b == PerfeccionTriple(notas)
  {
    b := BuscarGrupo(notas, FechaDeNota, TresDieces());
  }

  /** Three tens on one day are three tens. */
  lemma PerfeccionTripleColecciona(notas: seq<Nota>)
    requires PerfeccionTriple(notas)
    ensures Coleccionista(notas, 3)
  {
    var i :| 0 <= i < |notas| && TresDieces()(Grupo(notas, FechaDeNota, FechaDeNota(notas[i])));
    GrupoCount(notas, FechaDeNota, FechaDeNota(notas[i]), NotaIgual(10.0));
  }

  function VeinteOMas(): seq<Nota> -> bool { (g: seq<Nota>) => |g| >= 20 }

  /** `maratonista_notas`: twenty grades on one day. */
  predicate MaratonistaNotas(notas: seq<Nota>)
  {
    AlgunGrupo(notas, FechaDeNota, VeinteOMas())
  }

  function MismaFecha(d: Date): Nota -> bool { (n: Nota) => n.fecha == d }

  predicate DiaConNotas(notas: seq<Nota>, veces: nat)
  {
    exists i :: 0 <= i < |notas| && Count(notas, MismaFecha(notas[i].fecha)) >= veces
  }

  /** Counting per date is grouping per date. */
  lemma MaratonistaIff(notas: seq<Nota>)
    ensures MaratonistaNotas(notas) <==> DiaConNotas(notas, 20)
  {
    if MaratonistaNotas(notas) {
      var i :| 0 <= i < |notas| && VeinteOMas()(Grupo(notas, FechaDeNota, FechaDeNota(notas[i])));
      GrupoTamanio(notas, FechaDeNota, notas[i].fecha, MismaFecha(notas[i].fecha));
    }
    if DiaConNotas(notas, 20) {
      var i :| 0 <= i < |notas| && Count(notas, MismaFecha(notas[i].fecha)) >= 20;
      GrupoTamanio(notas, FechaDeNota, notas[i].fecha, MismaFecha(notas[i].fecha));
      assert VeinteOMas()(Grupo(notas, FechaDeNota, FechaDeNota(notas[i])));
    }
  }

  // ----- viernes_13 -----

  /** `weekday() == 4`, the thirteenth, and approved. */
  predicate AprobadaViernes13(n: Nota)
  {
    PyWeekday(n.fecha) == 4 && n.fecha.day == 13 && n.nota >= 4.0
  }

  predicate Viernes13(notas: seq<Nota>)
  {
    exists i :: 0 <= i < |notas| && AprobadaViernes13(notas[i])
  }

  /** Python's Friday (4, Monday first) is JavaScript's day 5 (Sunday first). */
  lemma Viernes13EsViernes(notas: seq<Nota>)
    requires Viernes13(notas)
    ensures exists i :: 0 <= i < |notas| && JsWeekday(notas[i].fecha) == 5 && notas[i].fecha.day == 13
  {
    var i :| 0 <= i < |notas| && AprobadaViernes13(notas[i]);
    WeekdayConventions(notas[i].fecha);
  }

  // ----- año_nuevo, navidad, medianoche -----

  predicate Existe<T>(s: seq<T>, p: T -> bool)
  {
    exists i :: 0 <= i < |s| && p(s[i])
  }

  predicate EsAnioNuevo(s: Sesion) { s.fecha.month == 1 && s.fecha.day == 1 }
  predicate EsNavidad(s: Sesion) { s.fecha.month == 12 && s.fecha.day == 25 }
  predicate EsMedianoche(s: Sesion) { s.hora == 0 }

  /** `año_nuevo`, `navidad` and `medianoche`: some session on January 1st, on December 25th, or starting in hour 0. */
  predicate AnioNuevo(sesiones: seq<Sesion>) { Existe(sesiones, EsAnioNuevo) }
  predicate Navidad(sesiones: seq<Sesion>) { Existe(sesiones, EsNavidad) }
  predicate Medianoche(sesiones: seq<Sesion>) { Existe(sesiones, EsMedianoche) }

  /** The loops that return at the first match: a condition of two lists is a condition of one of them. */
  lemma {:induction false} ExisteAppend<T>(s: seq<T>, t: seq<T>, p: T -> bool)
    ensures Existe(s + t, p) <==> Existe(s, p) || Existe(t, p)
  {
    if Existe(s + t, p) {
      var i :| 0 <= i < |s + t| && p((s + t)[i]);
      if i >= |s| {
        assert t[i - |s|] == (s + t)[i];
      }
    }
    if Existe(t, p) {
      var i :| 0 <= i < |t| && p(t[i]);
      assert (s + t)[|s| + i] == t[i];
    }
    if Existe(s, p) {
      var i :| 0 <= i < |s| && p(s[i]);
      assert (s + t)[i] == s[i];
    }
  }

  /** The search loop of `año_nuevo` (the same shape serves `navidad` and `medianoche`). */
  method VerificarExiste<T>(s: seq<T>, p: T -> bool) returns (b: bool)
    ensures b == Existe(s, p)
  {
    var i := 0;
    while i < |s|
      invariant 0 <= i <= |s|
      invariant forall j :: 0 <= j < i ==> !p(s[j])
    {
      if p(s[i]) {
        return true;
      }
      i := i + 1;
    }
    return false;
  }

  // ----- coleccionista_dieces, equilibrio_zen, escalera -----

  /** `coleccionista_dieces`: twenty grades or more, all of them 10. */
  predicate ColeccionistaDieces(notas: seq<Nota>)
  {
    |notas| >= 20 && forall i :: 0 <= i < |notas| ==> notas[i].nota == 10.0
  }

  /** Twenty grades that are all tens are twenty tens, and no lucky seven. */
  lemma ColeccionistaDiecesEsColeccion(notas: seq<Nota>)
    requires ColeccionistaDieces(notas)
    ensures Coleccionista(notas, 20) && !Lucky7(notas)
  {
    CountAll(notas, NotaIgual(10.0));
    assert forall i :: 0 <= i < |notas| ==> !EnteroIgual(7)(notas[i]);
    CountCero(notas, EnteroIgual(7));
  }

  /** `equilibrio_zen`: some valid grade, and a mean of valid grades within 0.01 of 7. */
  predicate EquilibrioZen(notas: seq<Nota>)
  {
    var v := Filter(notas, CuentaPromedio);
    v != [] && AbsReal(Mean(v, Valor).value - 7.0) < 0.01
  }

  predicate PeorQue(v: seq<Nota>, m: real)
  {
    exists i :: 0 <= i < |v| && v[i].nota < m
  }

  /** The zen mean is the general average, and it lies between a valid grade above 6.99 and one below 7.01. */
  lemma EquilibrioZenEntreNotas(notas: seq<Nota>)
    requires EquilibrioZen(notas)
    ensures 6.99 < PromedioGeneral(notas) < 7.01
    ensures MejorQue(Filter(notas, CuentaPromedio), 6.99) && PeorQue(Filter(notas, CuentaPromedio), 7.01)
  {
    var v := Filter(notas, CuentaPromedio);
    MediaSuperaTieneNota(v, 6.99);
    var lo := MinReal(v, Valor);
    MeanBounds(v, Valor, lo, MaxReal(v, Valor));
    var k :| 0 <= k < |v| && Valor(v[k]) == lo;
  }

  predicate EscaleraEn(s: seq<Nota>, i: int)
    requires 0 <= i && i + 7 <= |s|
  {
    forall j :: i <= j < i + 7 ==> Entero(s[j]) == 4 + j - i
  }

  /** `escalera`: seven grades or more and seven consecutive ones, in date order, with integer parts 4 to 10. */
  predicate Escalera(notas: seq<Nota>)
  {
    var s := OrdenarPorFecha(notas);
    |notas| >= 7 && exists i :: 0 <= i && i + 7 <= |s| && EscaleraEn(s, i)
  }

  /** A larger integer part means a larger grade. */
  lemma EnteroMenor(a: Nota, b: Nota)
    requires Entero(a) >= 1 && Entero(a) < Entero(b)
    ensures a.nota < b.nota
  {
  }

  /** The staircase rises strictly, so it is also an improving streak. */
  lemma EscaleraMejora(notas: seq<Nota>)
    requires Escalera(notas)
    ensures Mejorando(notas)
  {
    var s := OrdenarPorFecha(notas);
    var i :| 0 <= i && i + 7 <= |s| && EscaleraEn(s, i);
    forall j | i <= j < i + 4
      ensures s[j].nota < s[j + 1].nota
    {
      EnteroMenor(s[j], s[j + 1]);
    }
    assert CrecienteEn(s, i, 5);
  }

  // ----- primer_dia_clases -----

  /** The enrolment dates that are set, in enrolment order. */
  function FechasInscripcion(inscs: seq<Inscripcion>): (r: seq<Date>)
    ensures forall d :: d in r <==> exists i :: 0 <= i < |inscs| && inscs[i].fechaInscripcion == Some(d)
  {
    if inscs == [] then []
    else
      var resto := FechasInscripcion(inscs[1..]);
      assert forall i :: 1 <= i < |inscs| ==> inscs[i] == inscs[1..][i - 1];
      match inscs[0].fechaInscripcion
      case Some(d) => [d] + resto
      case None => resto
  }

  /** `min` over dates. */
  function MinFecha(ds: seq<Date>): (m: Date)
    requires ds != []
    ensures m in ds
    ensures forall i :: 0 <= i < |ds| ==> !DateLt(ds[i], m)
  {
    if |ds| == 1 then ds[0]
    else
      var resto := MinFecha(ds[1..]);
      assert forall i :: 1 <= i < |ds| ==> ds[i] == ds[1..][i - 1];
      if DateLt(resto, ds[0]) then resto else ds[0]
  }

  /** `primer_dia_clases`: a grade dated on the earliest enrolment date. */
  predicate PrimerDiaClases(notas: seq<Nota>, inscs: seq<Inscripcion>)
  {
    var fs := FechasInscripcion(inscs);
    notas != [] && inscs != [] && fs != [] && exists i :: 0 <= i < |notas| && notas[i].fecha == MinFecha(fs)
  }

  predicate NoDespuesDeInscripciones(d: Date, inscs: seq<Inscripcion>)
  {
    forall k :: 0 <= k < |inscs| && inscs[k].fechaInscripcion.Some? ==> !DateLt(inscs[k].fechaInscripcion.value, d)
  }

  /** The grade of the first day is dated no later than any enrolment, and on one of them. */
  lemma PrimerDiaEsElPrimero(notas: seq<Nota>, inscs: seq<Inscripcion>)
    requires PrimerDiaClases(notas, inscs)
    ensures exists i :: 0 <= i < |notas| && NoDespuesDeInscripciones(notas[i].fecha, inscs)
    ensures exists k :: 0 <= k < |inscs| && inscs[k].fechaInscripcion.Some? && Existe(notas, MismaFecha(inscs[k].fechaInscripcion.value))
  {
    var fs := FechasInscripcion(inscs);
    var m := MinFecha(fs);
    var i :| 0 <= i < |notas| && notas[i].fecha == m;
    forall k | 0 <= k < |inscs| && inscs[k].fechaInscripcion.Some?
      ensures !DateLt(inscs[k].fechaInscripcion.value, m)
    {
      var d := inscs[k].fechaInscripcion.value;
      assert d in fs;
      var j :| 0 <= j < |fs| && fs[j] == d;
    }
    assert NoDespuesDeInscripciones(notas[i].fecha, inscs);
    var k :| 0 <= k < |inscs| && inscs[k].fechaInscripcion == Some(m);
    assert MismaFecha(m)(notas[i]);
  }
}
