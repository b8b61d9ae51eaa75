/**
 * The category chart of the statistics page: each real final grade whose
 * enrolment and subject are found is added once to "básicas" or
 * "especialidad" and once to "anuales" or "cuatrimestrales", and the chart
 * shows the four averages in a fixed order.
 */
module RendimientoCategorias {
  import opened Common
  import opened Strings
  import opened Api

  /** A real final grade: the only ones the chart reads. */
  predicate FinalValida(n: NotaApi) { n.esFinal && n.nota >= 0.0 }

  function ConId(id: string): InscripcionApi -> bool
  {
    (i: InscripcionApi) => i.id == id
  }

  function MateriaConId(id: string): MateriaApi -> bool
  {
    (m: MateriaApi) => m.id == id
  }

  /** The subject of a grade, through its enrolment; `None` when either lookup fails. */
  function MateriaDe(n: NotaApi, inscs: seq<InscripcionApi>, materias: seq<MateriaApi>): Option<MateriaApi>
  {
    var insc := Find(inscs, ConId(n.inscripcionId));
    if insc.None? then None else Find(materias, MateriaConId(insc.value.materiaId))
  }

  /** `modalidad === 'A' || modalidad.includes('ANUAL')` on the upper-cased field. */
  predicate EsAnual(m: MateriaApi)
  {
    var modalidad := Upper(m.modalidad);
    modalidad == "A" || Contains(modalidad, "ANUAL")
  }

  /** Level 3 or above, an elective, or a name that mentions systems, programming or design. */
  predicate EsEspecialidad(m: MateriaApi)
  {
    var nombre := Lower(m.nombre);
    m.nivel >= 3 || m.esElectiva ||
    Contains(nombre, "sistemas") || Contains(nombre, "programación") || Contains(nombre, "diseño")
  }

  datatype Categoria = Basica | Especialidad | Anual | Cuat

  /** The categories a subject falls in: one of the department pair and one of the length pair. */
  predicate EnCategoria(m: MateriaApi, k: Categoria)
  {
    match k
    case Basica => !EsEspecialidad(m)
    case Especialidad => EsEspecialidad(m)
    case Anual => EsAnual(m)
    case Cuat => !EsAnual(m)
  }

  /** The grade is added to category `k`. */
  function Suma(inscs: seq<InscripcionApi>, materias: seq<MateriaApi>, k: Categoria): NotaApi -> bool
  {
    (n: NotaApi) => var m := MateriaDe(n, inscs, materias); m.Some? && EnCategoria(m.value, k)
  }

  /** The grade is added at all: its enrolment and its subject are found. */
  function Clasificada(inscs: seq<InscripcionApi>, materias: seq<MateriaApi>): NotaApi -> bool
  {
    (n: NotaApi) => MateriaDe(n, inscs, materias).Some?
  }

  /** A `{ s, c }` accumulator. */
  datatype Acum = Acum(s: real, c: nat)

  /** The sum and the count of the grades of `v` that pass `p`. */
  function Resumido(v: seq<NotaApi>, p: NotaApi -> bool): Acum
  {
    Acum(SumReal(Filter(v, p), Valor), |Filter(v, p)|)
  }

  /** The `stats` object. */
  datatype Stats = Stats(basica: Acum, especialidad: Acum, anual: Acum, cuat: Acum)

  /** The totals over grades already filtered to the real finals. */
  function Totales(v: seq<NotaApi>, inscs: seq<InscripcionApi>, materias: seq<MateriaApi>): Stats
  {
    Stats(Resumido(v, Suma(inscs, materias, Basica)), Resumido(v, Suma(inscs, materias, Especialidad)),
          Resumido(v, Suma(inscs, materias, Anual)), Resumido(v, Suma(inscs, materias, Cuat)))
  }

  /** What `stats` holds after the loop. */
  function Esperado(notas: seq<NotaApi>, inscs: seq<InscripcionApi>, materias: seq<MateriaApi>): Stats
  {
    Totales(Filter(notas, FinalValida), inscs, materias)
  }

  /** One bar of the chart; the average is exact (the `toFixed(2)` rounding is not modelled). */
  datatype Barra = Barra(name: string, promedio: real, color: string)

  function Promedio(a: Acum): real
  {
    if a.c > 0 then a.s / a.c as real else 0.0
  }

  /** The four bars, in the chart's fixed order. */
  function Data(st: Stats): seq<Barra>
  {
    [Barra("Básicas", Promedio(st.basica), "#6366f1"),
     Barra("Especialidad", Promedio(st.especialidad), "#8b5cf6"),
     Barra("Anuales", Promedio(st.anual), "#ec4899"),
     Barra("Cuatrimestrales", Promedio(st.cuat), "#f43f5e")]
  }

  /** `stats[key].s += n.nota; stats[key].c++` when the grade goes to `key`. */
  function Anotar(a: Acum, n: NotaApi, entra: bool): Acum
  {
    if entra then Acum(a.s + n.nota, a.c + 1) else a
  }

  lemma AnotarPaso(v: seq<NotaApi>, i: int, p: NotaApi -> bool, a: Acum)
    requires 0 <= i < |v| && a == Resumido(v[..i], p)
    ensures Anotar(a, v[i], p(v[i])) == Resumido(v[..i + 1], p)
  {
    FilterSnoc(v, i, p);
    var f := Filter(v[..i], p);
    if p(v[i]) {
      SumRealSnoc(f, v[i], Valor);
    } else {
      assert Filter(v[..i + 1], p) == f + [];
      assert f + [] == f;
    }
  }

  /** One iteration's update of `stats` for a grade whose subject lookup gave `m`. */
  function Anotada(st: Stats, n: NotaApi, m: Option<MateriaApi>): Stats
  {
    if m.None? then st
    else
      var esp, anual := EsEspecialidad(m.value), EsAnual(m.value);
      Stats(Anotar(st.basica, n, !esp), Anotar(st.especialidad, n, esp),
            Anotar(st.anual, n, anual), Anotar(st.cuat, n, !anual))
  }

  /** `stats` holds the totals of the first `i` real finals. */
  ghost predicate Acumulados(st: Stats, v: seq<NotaApi>, i: int, inscs: seq<InscripcionApi>, materias: seq<MateriaApi>)
  {
    0 <= i <= |v| && st == Totales(v[..i], inscs, materias)
  }

  lemma AcumuladosPaso(st: Stats, v: seq<NotaApi>, i: int, inscs: seq<InscripcionApi>, materias: seq<MateriaApi>)
    requires Acumulados(st, v, i, inscs, materias) && i < |v|
    ensures Acumulados(Anotada(st, v[i], MateriaDe(v[i], inscs, materias)), v, i + 1, inscs, materias)
  {
    var n, m := v[i], MateriaDe(v[i], inscs, materias);
    AnotarPaso(v, i, Suma(inscs, materias, Basica), st.basica);
    AnotarPaso(v, i, Suma(inscs, materias, Especialidad), st.especialidad);
    AnotarPaso(v, i, Suma(inscs, materias, Anual), st.anual);
    AnotarPaso(v, i, Suma(inscs, materias, Cuat), st.cuat);
    SumaSegunMateria(n, inscs, materias);
    var nuevo := Stats(Anotar(st.basica, n, Suma(inscs, materias, Basica)(n)),
                       Anotar(st.especialidad, n, Suma(inscs, materias, Especialidad)(n)),
                       Anotar(st.anual, n, Suma(inscs, materias, Anual)(n)),
                       Anotar(st.cuat, n, Suma(inscs, materias, Cuat)(n)));
    assert nuevo == Totales(v[..i + 1], inscs, materias);
    assert Anotada(st, n, m) == nuevo;
  }

  /** Which totals a grade enters, from the subject its lookups give. */
  lemma SumaSegunMateria(n: NotaApi, inscs: seq<InscripcionApi>, materias: seq<MateriaApi>)
    ensures var m := MateriaDe(n, inscs, materias);
      (m.None? ==> !Suma(inscs, materias, Basica)(n) && !Suma(inscs, materias, Especialidad)(n) &&
                   !Suma(inscs, materias, Anual)(n) && !Suma(inscs, materias, Cuat)(n)) &&
      (m.Some? ==> Suma(inscs, materias, Basica)(n) == !EsEspecialidad(m.value) &&
                   Suma(inscs, materias, Especialidad)(n) == EsEspecialidad(m.value) &&
                   Suma(inscs, materias, Anual)(n) == EsAnual(m.value) &&
                   Suma(inscs, materias, Cuat)(n) == !EsAnual(m.value))
  {
  }

  /** The `forEach` over the real finals and the chart built from its totals. */
  method CalcularData(materias: seq<MateriaApi>, notas: seq<NotaApi>, inscs: seq<InscripcionApi>) returns (data: seq<Barra>)
    ensures data == Data(Esperado(notas, inscs, materias))
  {
    var stats := Stats(Acum(0.0, 0), Acum(0.0, 0), Acum(0.0, 0), Acum(0.0, 0));
    var notasValidas := Filter(notas, FinalValida);
    var i := 0;
    while i < |notasValidas|
      invariant Acumulados(stats, notasValidas, i, inscs, materias)
    {
      var n := notasValidas[i];
      AcumuladosPaso(stats, notasValidas, i, inscs, materias);
      ghost var antes := stats;
      var insc := Find(inscs, ConId(n.inscripcionId));
      if insc.Some? {
        var m := Find(materias, MateriaConId(insc.value.materiaId));
        if m.Some? {
          if EsEspecialidad(m.value) {
            stats := stats.(especialidad := Anotar(stats.especialidad, n, true));
          } else {
            stats := stats.(basica := Anotar(stats.basica, n, true));
          }
          if EsAnual(m.value) {
            stats := stats.(anual := Anotar(stats.anual, n, true));
          } else {
            stats := stats.(cuat := Anotar(stats.cuat, n, true));
          }
        }
      }
      assert stats == Anotada(antes, n, MateriaDe(n, inscs, materias));
      i := i + 1;
    }
    assert notasValidas[..i] == notasValidas;
    data := Data(stats);
  }

  /** Summing over a test that splits into two disjoint tests. */
  lemma {:induction false} ResumidoDisjunto(v: seq<NotaApi>, r: NotaApi -> bool, p: NotaApi -> bool, q: NotaApi -> bool)
    requires forall x :: r(x) == (p(x) || q(x))
    requires forall x :: !(p(x) && q(x))
    ensures Resumido(v, r).s == Resumido(v, p).s + Resumido(v, q).s
    ensures Resumido(v, r).c == Resumido(v, p).c + Resumido(v, q).c
  {
    if v != [] {
      ResumidoDisjunto(v[1..], r, p, q);
      Cabeza(v, r);
      Cabeza(v, p);
      Cabeza(v, q);
    }
  }

  /** The filtered sum and count split into the head and the rest. */
  lemma Cabeza(v: seq<NotaApi>, p: NotaApi -> bool)
    requires v != []
    ensures Resumido(v, p).s == (if p(v[0]) then v[0].nota else 0.0) + Resumido(v[1..], p).s
    ensures Resumido(v, p).c == (if p(v[0]) then 1 else 0) + Resumido(v[1..], p).c
  {
    var resto := Filter(v[1..], p);
    if p(v[0]) {
      assert Filter(v, p) == [v[0]] + resto;
      assert ([v[0]] + resto)[1..] == resto;
    } else {
      assert Filter(v, p) == [] + resto;
      assert [] + resto == resto;
    }
  }

  /**
   * Every counted grade is counted once in each pair: the department pair
   * and the length pair have the same totals, those of the grades whose
   * subject is found.
   */
  lemma ParesIguales(notas: seq<NotaApi>, inscs: seq<InscripcionApi>, materias: seq<MateriaApi>)
    ensures var st := Esperado(notas, inscs, materias);
      var todas := Resumido(Filter(notas, FinalValida), Clasificada(inscs, materias));
      st.basica.c + st.especialidad.c == todas.c == st.anual.c + st.cuat.c &&
      st.basica.s + st.especialidad.s == todas.s == st.anual.s + st.cuat.s
  {
    var v := Filter(notas, FinalValida);
    var r := Clasificada(inscs, materias);
    ResumidoDisjunto(v, r, Suma(inscs, materias, Basica), Suma(inscs, materias, Especialidad));
    ResumidoDisjunto(v, r, Suma(inscs, materias, Anual), Suma(inscs, materias, Cuat));
  }

  /**
   * A grade the chart skips changes nothing: one that is not a real final,
   * or whose enrolment or subject cannot be found.
   */
  lemma Ignorada(notas: seq<NotaApi>, n: NotaApi, inscs: seq<InscripcionApi>, materias: seq<MateriaApi>)
    requires !FinalValida(n) || MateriaDe(n, inscs, materias).None?
    ensures Esperado(notas + [n], inscs, materias) == Esperado(notas, inscs, materias)
  {
    var v := Filter(notas, FinalValida);
    FilterAppend(notas, [n], FinalValida);
    if FinalValida(n) {
      assert Filter(notas + [n], FinalValida) == v + [n];
      IgnoradaEn(v, n, Suma(inscs, materias, Basica));
      IgnoradaEn(v, n, Suma(inscs, materias, Especialidad));
      IgnoradaEn(v, n, Suma(inscs, materias, Anual));
      IgnoradaEn(v, n, Suma(inscs, materias, Cuat));
    } else {
      assert Filter([n], FinalValida) == [];
      assert v + [] == v;
    }
  }

  lemma IgnoradaEn(v: seq<NotaApi>, n: NotaApi, p: NotaApi -> bool)
    requires !p(n)
    ensures Resumido(v + [n], p) == Resumido(v, p)
  {
    FilterAppend(v, [n], p);
    assert Filter([n], p) == [];
    assert Filter(v, p) + [] == Filter(v, p);
  }

  /** With grades on the 0 to 10 scale every bar is on that scale too; an empty category shows 0. */
  lemma BarrasAcotadas(notas: seq<NotaApi>, inscs: seq<InscripcionApi>, materias: seq<MateriaApi>)
    requires forall n :: n in notas ==> n.nota <= 10.0
    ensures var d := Data(Esperado(notas, inscs, materias));
      |d| == 4 && forall i :: 0 <= i < 4 ==> 0.0 <= d[i].promedio <= 10.0
  {
    var v := Filter(notas, FinalValida);
    assert forall i :: 0 <= i < |v| ==> 0.0 <= v[i].nota <= 10.0;
    EnEscala(v, Suma(inscs, materias, Basica));
    EnEscala(v, Suma(inscs, materias, Especialidad));
    EnEscala(v, Suma(inscs, materias, Anual));
    EnEscala(v, Suma(inscs, materias, Cuat));
    DataEnEscala(Esperado(notas, inscs, materias));
  }

  lemma DataEnEscala(st: Stats)
    requires 0.0 <= Promedio(st.basica) <= 10.0 && 0.0 <= Promedio(st.especialidad) <= 10.0
    requires 0.0 <= Promedio(st.anual) <= 10.0 && 0.0 <= Promedio(st.cuat) <= 10.0
    ensures |Data(st)| == 4 && forall i :: 0 <= i < 4 ==> 0.0 <= Data(st)[i].promedio <= 10.0
  {
  }

  lemma EnEscala(v: seq<NotaApi>, p: NotaApi -> bool)
    requires forall i :: 0 <= i < |v| ==> 0.0 <= v[i].nota <= 10.0
    ensures 0.0 <= Promedio(Resumido(v, p)) <= 10.0
  {
    var g := Filter(v, p);
    if g != [] {
      forall i | 0 <= i < |g| ensures 0.0 <= Valor(g[i]) <= 10.0 {
        var j :| 0 <= j < |v| && v[j] == g[i];
      }
      MeanBounds(g, Valor, 0.0, 10.0);
      FilterCount(v, p);
    }
  }
}
