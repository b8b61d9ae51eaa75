/**
 * The "recovery" achievements: a 2 and a 10 in one enrolment, retaken
 * exams in an approved subject, passed make-up partials, approvals after
 * two failed partials, a promotion after a low first partial, a
 * three-point rise between four-month periods, and late improvements.
 */
module LogrosRecovery {
  import opened Common
  import opened Strings
  import opened Dates
  import opened LogrosDatos
  import opened LogrosPromedios

  // ----- de_2_a_10 -----

  function InscripcionIdDe(n: Nota): string { n.inscripcionId }

  predicate TieneDosYDiez(g: seq<Nota>)
  {
    (exists i :: 0 <= i < |g| && g[i].nota == 2.0) && (exists j :: 0 <= j < |g| && g[j].nota == 10.0)
  }

  /** A group with a 2 and a 10. */
  function DosYDiez(): seq<Nota> -> bool
  {
    (g: seq<Nota>) => TieneDosYDiez(g)
  }

  /** `de_2_a_10`: some enrolment's grades include a 2 and a 10. */
  predicate De2A10(notas: seq<Nota>)
  {
    AlgunGrupo(notas, InscripcionIdDe, DosYDiez())
  }

  method VerificarDe2A10(notas: seq<Nota>) returns (b: bool)
    ensures b == De2A10(notas)
  {
    b := BuscarGrupo(notas, InscripcionIdDe, DosYDiez());
  }

  predicate DosYDiezDe(a: Nota, b: Nota)
  {
    a.nota == 2.0 && b.nota == 10.0 && a.inscripcionId == b.inscripcionId
  }

  predicate HayDosYDiez(notas: seq<Nota>)
  {
    exists i, j :: 0 <= i < |notas| && 0 <= j < |notas| && DosYDiezDe(notas[i], notas[j])
  }

  /** The dictionary adds nothing: a 2 and a 10 of the same enrolment, both ways. */
  lemma De2A10Iff(notas: seq<Nota>)
    ensures De2A10(notas) <==> HayDosYDiez(notas)
  {
    if De2A10(notas) {
      De2A10Testigos(notas);
    }
    if HayDosYDiez(notas) {
      var i, j :| 0 <= i < |notas| && 0 <= j < |notas| && DosYDiezDe(notas[i], notas[j]);
      De2A10DesdePar(notas, i, j);
    }
  }

  lemma De2A10DesdePar(notas: seq<Nota>, i: int, j: int)
    requires 0 <= i < |notas| && 0 <= j < |notas| && DosYDiezDe(notas[i], notas[j])
    ensures De2A10(notas)
  {
    var g := Grupo(notas, InscripcionIdDe, InscripcionIdDe(notas[i]));
    assert notas[i] in g && notas[j] in g;
    var a :| 0 <= a < |g| && g[a] == notas[i];
    var b :| 0 <= b < |g| && g[b] == notas[j];
    assert TieneDosYDiez(g);
    assert DosYDiez()(g);
  }

  lemma De2A10Testigos(notas: seq<Nota>)
    requires De2A10(notas)
    ensures HayDosYDiez(notas)
  {
    var k :| 0 <= k < |notas| && DosYDiez()(Grupo(notas, InscripcionIdDe, InscripcionIdDe(notas[k])));
    var key := InscripcionIdDe(notas[k]);
    var g := Grupo(notas, InscripcionIdDe, key);
    assert TieneDosYDiez(g);
    var a :| 0 <= a < |g| && g[a].nota == 2.0;
    var b :| 0 <= b < |g| && g[b].nota == 10.0;
    GrupoMiembro(notas, InscripcionIdDe, key, g[a]);
    GrupoMiembro(notas, InscripcionIdDe, key, g[b]);
    var i :| 0 <= i < |notas| && notas[i] == g[a];
    var j :| 0 <= j < |notas| && notas[j] == g[b];
    assert DosYDiezDe(notas[i], notas[j]);
  }

  // ----- segunda_oportunidad, nunca_me_rindo -----

  function FechaDeNota(n: Nota): Date { n.fecha }

  /** The distinct dates of the grades of `g` that satisfy `p`. */
  function FechasDe(g: seq<Nota>, p: Nota -> bool): set<Date>
  {
    Imagen(g, p, FechaDeNota)
  }

  predicate EsExamen(n: Nota) { n.esParcial || n.esFinal }

  /**
   * A subject's group: partial-exam (or exam) dates counted against a
   * bound, and an approved enrolment of the subject.
   */
  function ExamenesYAprobada(inscs: seq<Inscripcion>, p: Nota -> bool, exacto: bool, k: nat): seq<Nota> -> bool
  {
    (g: seq<Nota>) =>
      g != [] &&
      (if exacto then |FechasDe(g, p)| == k else |FechasDe(g, p)| >= k) &&
      AprobadaDe(inscs, MateriaDeNota(inscs)(g[0])).Some?
  }

  /** Some subject, over the grades that have an enrolment, passes `ExamenesYAprobada`. */
  predicate AlgunaMateriaConExamenes(notas: seq<Nota>, inscs: seq<Inscripcion>, p: Nota -> bool, exacto: bool, k: nat)
  {
    var ns := Filter(notas, ConInscripcion(inscs));
    AlgunGrupo(ns, MateriaDeNota(inscs), ExamenesYAprobada(inscs, p, exacto, k))
  }

  /**
   * `segunda_oportunidad`: an approved subject whose partial exams were sat
   * on exactly two dates. Subjects without grades are skipped, so the
   * dictionary keyed by every enrolled subject is the grouping of the
   * grades that have an enrolment.
   */
  predicate SegundaOportunidad(notas: seq<Nota>, inscs: seq<Inscripcion>)
  {
    AlgunaMateriaConExamenes(notas, inscs, EsParcial, true, 2)
  }

  /** `nunca_me_rindo`: an approved subject with partial or final exams on four dates or more. */
  predicate NuncaMeRindo(notas: seq<Nota>, inscs: seq<Inscripcion>)
  {
    AlgunaMateriaConExamenes(notas, inscs, EsExamen, false, 4)
  }

  method VerificarSegundaOportunidad(notas: seq<Nota>, inscs: seq<Inscripcion>) returns (b: bool)
    ensures b == SegundaOportunidad(notas, inscs)
  {
    var ns := Filter(notas, ConInscripcion(inscs));
    b := BuscarGrupo(ns, MateriaDeNota(inscs), ExamenesYAprobada(inscs, EsParcial, true, 2));
  }

  method VerificarNuncaMeRindo(notas: seq<Nota>, inscs: seq<Inscripcion>) returns (b: bool)
    ensures b == NuncaMeRindo(notas, inscs)
  {
    var ns := Filter(notas, ConInscripcion(inscs));
    b := BuscarGrupo(ns, MateriaDeNota(inscs), ExamenesYAprobada(inscs, EsExamen, false, 4));
  }

  /**
   * `k` distinct exam dates need `k` exam grades, and the subject needs an
   * approved enrolment: two partials for a second chance, four exams for
   * never giving up.
   */
  lemma ExamenesNecesitan(notas: seq<Nota>, inscs: seq<Inscripcion>, p: Nota -> bool, exacto: bool, k: nat)
    requires AlgunaMateriaConExamenes(notas, inscs, p, exacto, k)
    ensures Count(notas, p) >= k
    ensures exists i :: 0 <= i < |inscs| && Aprobada(inscs[i])
  {
    var ns := Filter(notas, ConInscripcion(inscs));
    var clave := MateriaDeNota(inscs);
    var j :| 0 <= j < |ns| && ExamenesYAprobada(inscs, p, exacto, k)(Grupo(ns, clave, clave(ns[j])));
    var g := Grupo(ns, clave, clave(ns[j]));
    ExamenesDelGrupo(notas, inscs, p, exacto, k, g, clave(ns[j]));
    AprobadaDelGrupo(inscs, p, exacto, k, g);
  }

  /** A group that passes has its subject's approved enrolment somewhere in the list. */
  lemma AprobadaDelGrupo(inscs: seq<Inscripcion>, p: Nota -> bool, exacto: bool, k: nat, g: seq<Nota>)
    requires ExamenesYAprobada(inscs, p, exacto, k)(g)
    ensures exists i :: 0 <= i < |inscs| && Aprobada(inscs[i])
  {
    var r := AprobadaDe(inscs, MateriaDeNota(inscs)(g[0])).value;
    var i :| 0 <= i < |inscs| && inscs[i] == r;
  }

  /** The exam grades of one subject's group are exam grades of the history. */
  lemma ExamenesDelGrupo(notas: seq<Nota>, inscs: seq<Inscripcion>, p: Nota -> bool, exacto: bool, k: nat, g: seq<Nota>, key: string)
    requires g == Grupo(Filter(notas, ConInscripcion(inscs)), MateriaDeNota(inscs), key)
    requires ExamenesYAprobada(inscs, p, exacto, k)(g)
    ensures Count(notas, p) >= k
  {
    var ns := Filter(notas, ConInscripcion(inscs));
    ImagenAcotada(g, p, FechaDeNota);
    GrupoCount(ns, MateriaDeNota(inscs), key, p);
    CountFilter(notas, ConInscripcion(inscs), p);
  }

  // ----- recuperatorio_salvador -----

  /** The order of `key=lambda x: (x.inscripcion_id, x.fecha)`. */
  predicate IdFechaLe(a: Nota, b: Nota)
  {
    if a.inscripcionId == b.inscripcionId then !DateLt(b.fecha, a.fecha)
    else StrLe(a.inscripcionId, b.inscripcionId)
  }

  /** The tuple order is total and transitive, so the insertion sort is the one Python's `sorted` gives. */
  lemma IdFechaLeTotal()
    ensures TotalPreorder(IdFechaLe)
  {
    forall a: Nota, b: Nota
      ensures IdFechaLe(a, b) || IdFechaLe(b, a)
    {
      StrLeTotal(a.inscripcionId, b.inscripcionId);
    }
    forall a: Nota, b: Nota, c: Nota | IdFechaLe(a, b) && IdFechaLe(b, c)
      ensures IdFechaLe(a, c)
    {
      if a.inscripcionId != b.inscripcionId && b.inscripcionId != c.inscripcionId {
        StrLeTrans(a.inscripcionId, b.inscripcionId, c.inscripcionId);
        if a.inscripcionId == c.inscripcionId {
          StrLeAntisym(a.inscripcionId, b.inscripcionId);
        }
      }
    }
  }

  /** The partials come out ordered by enrolment and date, as a permutation of the partials. */
  lemma ParcialesOrdenadosCorrectos(notas: seq<Nota>)
    ensures SortedBy(ParcialesOrdenados(notas), IdFechaLe)
    ensures multiset(ParcialesOrdenados(notas)) == multiset(Filter(notas, EsParcial))
  {
    IdFechaLeTotal();
    SortBySorted(Filter(notas, EsParcial), IdFechaLe);
  }

  /** A failed partial immediately followed, in the same enrolment, by a passed one. */
  predicate Recuperatorio(a: Nota, b: Nota)
  {
    a.inscripcionId == b.inscripcionId && a.nota < 4.0 && b.nota >= 4.0
  }

  /** The adjacent pairs `(s[i-1], s[i])` that are make-ups, counted from the front. */
  function Recuperatorios(s: seq<Nota>): nat
  {
    if |s| < 2 then 0 else (if Recuperatorio(s[0], s[1]) then 1 else 0) + Recuperatorios(s[1..])
  }

  /** The partial exams, sorted by enrolment and then by date. */
  function ParcialesOrdenados(notas: seq<Nota>): seq<Nota>
  {
    SortBy(Filter(notas, EsParcial), IdFechaLe)
  }

  /** `recuperatorio_salvador`: five passed make-ups or more. */
  predicate RecuperatorioSalvador(notas: seq<Nota>)
  {
    Recuperatorios(ParcialesOrdenados(notas)) >= 5
  }

  lemma {:induction false} RecuperatoriosSnoc(s: seq<Nota>, x: Nota)
    requires s != []
    ensures Recuperatorios(s + [x]) == Recuperatorios(s) + (if Recuperatorio(s[|s| - 1], x) then 1 else 0)
    decreases |s|
  {
    if |s| == 1 {
      assert (s + [x])[1..] == [x];
    } else {
      assert (s + [x])[1..] == s[1..] + [x];
      RecuperatoriosSnoc(s[1..], x);
    }
  }

  /** The counting loop over `i = 1 .. len - 1`. */
  method ContarRecuperatorios(s: seq<Nota>) returns (n: nat)
    ensures n == Recuperatorios(s)
  {
    n := 0;
    if |s| < 2 {
      return;
    }
    var i := 1;
    while i < |s|
      invariant 1 <= i <= |s|
      invariant n == Recuperatorios(s[..i])
    {
      assert s[..i + 1] == s[..i] + [s[i]];
      assert s[..i][i - 1] == s[i - 1];
      RecuperatoriosSnoc(s[..i], s[i]);
      if Recuperatorio(s[i - 1], s[i]) {
        n := n + 1;
      }
      i := i + 1;
    }
    assert s[..i] == s;
  }

  /** Every make-up follows its own failed partial: there are no more make-ups than failed partials, nor than pairs. */
  lemma {:induction false} RecuperatoriosAcotados(s: seq<Nota>)
    ensures Recuperatorios(s) <= Count(s, NotaMenorQue(4.0))
    ensures |s| >= 1 ==> Recuperatorios(s) <= |s| - 1
  {
    if |s| >= 2 {
      RecuperatoriosAcotados(s[1..]);
    }
  }

  // ----- remontada, milagro -----

  function ParcialesDe(notas: seq<Nota>, inscripcionId: string): seq<Nota>
  {
    OrdenarPorFecha(Filter(NotasDe(notas, inscripcionId), EsParcial))
  }

  /** Approved, with two partial exams or more, the first two by date both failed. */
  predicate RemontadaEn(notas: seq<Nota>, i: Inscripcion)
  {
    var ps := ParcialesDe(notas, i.id);
    Aprobada(i) && |ps| >= 2 && ps[0].nota < 4.0 && ps[1].nota < 4.0
  }

  /** `remontada`. */
  predicate Remontada(notas: seq<Nota>, inscs: seq<Inscripcion>)
  {
    exists k :: 0 <= k < |inscs| && RemontadaEn(notas, inscs[k])
  }

  /** Promoted, with a first partial exam by date below 6. */
  predicate MilagroEn(notas: seq<Nota>, i: Inscripcion)
  {
    var ps := ParcialesDe(notas, i.id);
    i.promocionada && ps != [] && ps[0].nota < 6.0
  }

  /** `milagro`. */
  predicate Milagro(notas: seq<Nota>, inscs: seq<Inscripcion>)
  {
    exists k :: 0 <= k < |inscs| && MilagroEn(notas, inscs[k])
  }

  /** The first partial by date is a partial exam of the enrolment. */
  lemma PrimerParcial(notas: seq<Nota>, inscripcionId: string)
    requires ParcialesDe(notas, inscripcionId) != []
    ensures ParcialesDe(notas, inscripcionId)[0] in notas
    ensures ParcialesDe(notas, inscripcionId)[0].inscripcionId == inscripcionId
    ensures ParcialesDe(notas, inscripcionId)[0].esParcial
  {
    var f := Filter(NotasDe(notas, inscripcionId), EsParcial);
    var ps := OrdenarPorFecha(f);
    assert ps[0] in multiset(f);
    assert ps[0] in f;
  }

  predicate ParcialDesaprobadoDe(n: Nota, i: Inscripcion)
  {
    n.inscripcionId == i.id && n.esParcial && n.nota < 4.0
  }

  /** A comeback has an approved enrolment with a failed partial exam among the grades. */
  lemma RemontadaTestigo(notas: seq<Nota>, inscs: seq<Inscripcion>)
    requires Remontada(notas, inscs)
    ensures exists k, j :: 0 <= k < |inscs| && 0 <= j < |notas| && Aprobada(inscs[k]) && ParcialDesaprobadoDe(notas[j], inscs[k])
  {
    var k :| 0 <= k < |inscs| && RemontadaEn(notas, inscs[k]);
    PrimerParcial(notas, inscs[k].id);
    var p := ParcialesDe(notas, inscs[k].id)[0];
    var j :| 0 <= j < |notas| && notas[j] == p;
    assert ParcialDesaprobadoDe(notas[j], inscs[k]);
  }

  predicate ParcialBajoDe(n: Nota, i: Inscripcion)
  {
    n.inscripcionId == i.id && n.esParcial && n.nota < 6.0
  }

  /** A miracle has a promoted enrolment with a partial exam below 6 among the grades. */
  lemma MilagroTestigo(notas: seq<Nota>, inscs: seq<Inscripcion>)
    requires Milagro(notas, inscs)
    ensures exists k, j :: 0 <= k < |inscs| && 0 <= j < |notas| && inscs[k].promocionada && ParcialBajoDe(notas[j], inscs[k])
  {
    var k :| 0 <= k < |inscs| && MilagroEn(notas, inscs[k]);
    PrimerParcial(notas, inscs[k].id);
    var p := ParcialesDe(notas, inscs[k].id)[0];
    var j :| 0 <= j < |notas| && notas[j] == p;
    assert ParcialBajoDe(notas[j], inscs[k]);
  }

  // ----- phoenix_rise -----

  /** `f"{fecha.year}-{(fecha.month-1)//4+1}"`: four-month periods 1 to 3 (floor and Euclidean division agree for a divisor of 4). */
  function ClaveCuatrimestral(n: Nota): string
  {
    IntToString(n.fecha.year) + "-" + IntToString((n.fecha.month - 1) / 4 + 1)
  }

  /** `sorted(notas_por_periodo.keys())`: the distinct keys in string order. */
  function ClavesOrdenadas(notas: seq<Nota>): seq<string>
  {
    Dedup(SortBy(seq(|notas|, i requires 0 <= i < |notas| => ClaveCuatrimestral(notas[i])), StrLe))
  }

  /** The averages of the periods that have valid grades, in key order. */
  function PromediosPorClave(notas: seq<Nota>, claves: seq<string>): (r: seq<real>)
    ensures |r| <= |claves|
    ensures forall i :: 0 <= i < |r| ==> r[i] >= 4.0
  {
    if claves == [] then []
    else
      var v := Filter(Grupo(notas, ClaveCuatrimestral, claves[0]), CuentaPromedio);
      var resto := PromediosPorClave(notas, claves[1..]);
      if v == [] then resto
      else
        MediaValidaCuatro(v);
        [Mean(v, Valor).value] + resto
  }

  lemma MediaValidaCuatro(v: seq<Nota>)
    requires v != [] && forall i :: 0 <= i < |v| ==> CuentaPromedio(v[i])
    ensures Mean(v, Valor).value >= 4.0
  {
    SumRealLowerBound(v, Valor, 4.0);
    MeanAtLeast(v, Valor, 4.0);
  }

  /** `phoenix_rise`: ten grades or more, two periods or more, and a rise of three points between consecutive averages. */
  predicate PhoenixRise(notas: seq<Nota>)
  {
    var claves := ClavesOrdenadas(notas);
    var ps := PromediosPorClave(notas, claves);
    |notas| >= 10 && |claves| >= 2 && exists i :: 1 <= i < |ps| && ps[i] - ps[i - 1] >= 3.0
  }

  predicate AlgunoAlMenos(ps: seq<real>, k: real)
  {
    exists i :: 0 <= i < |ps| && ps[i] >= k
  }

  /** A rise of three points from an average of valid grades ends at 7 or more. */
  lemma PhoenixLlegaASiete(notas: seq<Nota>)
    requires PhoenixRise(notas)
    ensures AlgunoAlMenos(PromediosPorClave(notas, ClavesOrdenadas(notas)), 7.0)
  {
    var ps := PromediosPorClave(notas, ClavesOrdenadas(notas));
    var i :| 1 <= i < |ps| && ps[i] - ps[i - 1] >= 3.0;
    assert ps[i - 1] >= 4.0;
  }

  /** The keys are distinct and in string order. */
  lemma ClavesOrdenadasCorrectas(notas: seq<Nota>)
    ensures forall i :: 0 < i < |ClavesOrdenadas(notas)| ==>
      StrLe(ClavesOrdenadas(notas)[i - 1], ClavesOrdenadas(notas)[i]) && ClavesOrdenadas(notas)[i - 1] != ClavesOrdenadas(notas)[i]
  {
    var ks := seq(|notas|, i requires 0 <= i < |notas| => ClaveCuatrimestral(notas[i]));
    StrLeTotalPreorder();
    SortBySorted(ks, StrLe);
    DedupSorted(SortBy(ks, StrLe), StrLe);
  }

  // ----- del_abismo, resiliencia, mejor_version -----

  /** `del_abismo`: ten grades or more, the first half's mean below 5 and the second half's at least 7. */
  predicate DelAbismo(notas: seq<Nota>)
  {
    var v1, v2 := PrimeraMitad(notas), SegundaMitad(notas);
    |notas| >= 10 && v1 != [] && v2 != [] && Mean(v1, Valor).value < 5.0 && Mean(v2, Valor).value >= 7.0
  }

  /** Out of the abyss is a better second half, by two points or more. */
  lemma DelAbismoMejora(notas: seq<Nota>)
    requires DelAbismo(notas)
    ensures MejorUltimoCuatri(notas) && Subir1Punto(notas)
  {
  }

  function DesaprobadaConInscripcion(inscs: seq<Inscripcion>): Nota -> bool
  {
    (n: Nota) => n.nota < 4.0 && InscripcionDe(inscs, n).Some?
  }

  /** The subjects, through their enrolments, of the failed grades. */
  function MateriasDesaprobadas(notas: seq<Nota>, inscs: seq<Inscripcion>): set<string>
  {
    Imagen(notas, DesaprobadaConInscripcion(inscs), MateriaDeNota(inscs))
  }

  /** `resiliencia`: failed grades in three subjects or more and five approved enrolments. */
  predicate Resiliencia(notas: seq<Nota>, inscs: seq<Inscripcion>)
  {
    |MateriasDesaprobadas(notas, inscs)| >= 3 && Count(inscs, Aprobada) >= 5
  }

  /** Failures in three subjects take three failed grades. */
  lemma ResilienciaNecesita(notas: seq<Nota>, inscs: seq<Inscripcion>)
    requires Resiliencia(notas, inscs)
    ensures Count(notas, NotaMenorQue(4.0)) >= 3
  {
    ImagenAcotada(notas, DesaprobadaConInscripcion(inscs), MateriaDeNota(inscs));
    CountWeaken(notas, DesaprobadaConInscripcion(inscs), NotaMenorQue(4.0));
  }

  /** The valid grades of the first and of the last third (`[-tercio:]`) of the history in date order. */
  function PrimerTercio(notas: seq<Nota>): seq<Nota>
  {
    var s := OrdenarPorFecha(notas);
    Filter(s[..|s| / 3], CuentaPromedio)
  }

  function UltimoTercio(notas: seq<Nota>): seq<Nota>
  {
    var s := OrdenarPorFecha(notas);
    Filter(s[|s| - |s| / 3..], CuentaPromedio)
  }

  /** `mejor_version`: ten grades or more, thirds of three or more, and a better last third. */
  predicate MejorVersion(notas: seq<Nota>)
  {
    var v1, v3 := PrimerTercio(notas), UltimoTercio(notas);
    |notas| >= 10 && |notas| / 3 >= 3 && v1 != [] && v3 != [] && Mean(v3, Valor).value > Mean(v1, Valor).value
  }

  predicate MejorQue(v: seq<Nota>, m: real)
  {
    exists i :: 0 <= i < |v| && v[i].nota > m
  }

  /** A mean above `m` needs a grade above `m`. */
  lemma MediaSuperaTieneNota(v: seq<Nota>, m: real)
    requires v != [] && Mean(v, Valor).value > m
    ensures MejorQue(v, m)
  {
    var hi := MaxReal(v, Valor);
    MeanBounds(v, Valor, MinReal(v, Valor), hi);
    var k :| 0 <= k < |v| && Valor(v[k]) == hi;
  }

  /** A better last third holds a valid grade above the first third's mean. */
  lemma MejorVersionTieneMejorNota(notas: seq<Nota>)
    requires MejorVersion(notas)
    ensures MejorQue(UltimoTercio(notas), Mean(PrimerTercio(notas), Valor).value)
  {
    MediaSuperaTieneNota(UltimoTercio(notas), Mean(PrimerTercio(notas), Valor).value);
  }

  /** With ten grades a third is at least three long, so the `tercio < 3` test never fires. */
  lemma MejorVersionTercio(notas: seq<Nota>)
    requires |notas| >= 10
    ensures |OrdenarPorFecha(notas)| / 3 >= 3
  {
  }
}
