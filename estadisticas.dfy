/**
 * The statistics page: how often each grade occurs, the average by weekday,
 * month or year, the average of the exam sessions (February/March, July,
 * December) that excludes direct approvals, the running average over time,
 * and the streak of passing grades that ends with the latest one.
 */
module Estadisticas {
  import opened Common
  import opened Strings
  import opened Dates
  import opened Api

  const DiasSemana: seq<string> := ["Lun", "Mar", "Mié", "Jue", "Vie", "Sáb", "Dom"]
  const Meses: seq<string> := ["Ene", "Feb", "Mar", "Abr", "May", "Jun", "Jul", "Ago", "Sep", "Oct", "Nov", "Dic"]

  /** The mean of the grades, or 0 for none: the `cant ? suma / cant : 0` of the page. */
  function PromedioO0(g: seq<NotaApi>): real
  {
    if g == [] then 0.0 else SumReal(g, Valor) / Len(g)
  }

  lemma PromedioO0Acotado(g: seq<NotaApi>, lo: real, hi: real)
    requires lo <= 0.0 <= hi
    requires forall i :: 0 <= i < |g| ==> lo <= g[i].nota <= hi
    ensures lo <= PromedioO0(g) <= hi
  {
    if g != [] {
      MeanBounds(g, Valor, lo, hi);
    }
  }

  // ----- 1. Grade frequency -----

  /** A real grade whose `Math.round` is `v`. */
  function RedondeaA(v: int): NotaApi -> bool
  {
    (n: NotaApi) => n.nota >= 0.0 && RoundHalfUp(n.nota) == v
  }

  /** `notasReales.filter(n => Math.round(n.nota) === v).length`. */
  function Frecuencia(notas: seq<NotaApi>, v: int): nat
  {
    |Filter(Filter(notas, NoCentinela), RedondeaA(v))|
  }

  /** `dataFrecuencia`: for each grade 1 to 10, how many real grades round to it. */
  function DataFrecuencia(notas: seq<NotaApi>): seq<(int, nat)>
  {
    seq(10, i requires 0 <= i < 10 => (i + 1, Frecuencia(notas, i + 1)))
  }

  lemma FrecuenciaCuenta(notas: seq<NotaApi>, v: int)
    ensures Frecuencia(notas, v) == Count(notas, RedondeaA(v))
  {
    FilterNarrow(notas, NoCentinela, RedondeaA(v));
    FilterCount(notas, RedondeaA(v));
  }

  /** Bucket `i` is grade `i + 1`, and counts exactly the real grades that round to it. */
  lemma FrecuenciaBuckets(notas: seq<NotaApi>, i: int)
    requires 0 <= i < 10
    ensures |DataFrecuencia(notas)| == 10
    ensures DataFrecuencia(notas)[i] == (i + 1, Count(notas, RedondeaA(i + 1)))
  {
    FrecuenciaCuenta(notas, i + 1);
  }

  /** A real grade that rounds to a value from 1 to `k`. */
  function RedondeaHasta(k: int): NotaApi -> bool
  {
    (n: NotaApi) => n.nota >= 0.0 && 1 <= RoundHalfUp(n.nota) <= k
  }

  function Cantidad(b: (int, nat)): int { b.1 }

  lemma {:induction false} FrecuenciaPrefijo(notas: seq<NotaApi>, k: nat)
    requires k <= 10
    ensures SumInt(DataFrecuencia(notas)[..k], Cantidad) == Count(notas, RedondeaHasta(k))
  {
    var r := DataFrecuencia(notas);
    if k == 0 {
      CountCero(notas, RedondeaHasta(0));
    } else {
      FrecuenciaPrefijo(notas, k - 1);
      SumIntSnoc(r, k, Cantidad);
      FrecuenciaBuckets(notas, k - 1);
      CountDisjoint(notas, RedondeaHasta(k), RedondeaHasta(k - 1), RedondeaA(k));
    }
  }

  /**
   * The ten buckets together count every real grade that rounds into the
   * scale: on grades from 0.5 to 10 none is lost and none counted twice.
   */
  lemma FrecuenciaTotal(notas: seq<NotaApi>)
    ensures SumInt(DataFrecuencia(notas), Cantidad) == Count(notas, RedondeaHasta(10))
    ensures (forall i :: 0 <= i < |notas| ==> 0.5 <= notas[i].nota <= 10.0) ==>
      SumInt(DataFrecuencia(notas), Cantidad) == |notas|
  {
    FrecuenciaPrefijo(notas, 10);
    assert DataFrecuencia(notas)[..10] == DataFrecuencia(notas);
    if forall i :: 0 <= i < |notas| ==> 0.5 <= notas[i].nota <= 10.0 {
      CountTodos(notas, RedondeaHasta(10));
    }
  }

  lemma {:induction false} CountTodos(s: seq<NotaApi>, p: NotaApi -> bool)
    requires forall i :: 0 <= i < |s| ==> p(s[i])
    ensures Count(s, p) == |s|
  {
    if s != [] {
      CountTodos(s[1..], p);
    }
  }

  // ----- 2. Average by weekday, month or year -----

  /** `getDay() === 0 ? 6 : getDay() - 1`: the week starts on Monday. */
  function IndiceDia(d: Date): (i: int)
    ensures 0 <= i < 7
    ensures i == PyWeekday(d)
  {
    WeekdayConventions(d);
    var w := JsWeekday(d);
    if w == 0 then 6 else w - 1
  }

  /**
   * The bucket of a grade in a view: the day or month name, or the year as
   * text; an Invalid Date lands in `undefined` or `NaN`, a missing date in none.
   */
  function Clave(n: NotaApi, vista: string): Option<string>
  {
    match ParseSafeDate(n.fecha)
    case Nula => None
    case Invalida => Some(if vista == "dia" || vista == "mes" then "undefined" else "NaN")
    case Valida(d) =>
      Some(if vista == "dia" then DiasSemana[IndiceDia(d)]
           else if vista == "mes" then Meses[d.month - 1]
           else IntToString(d.year))
  }

  /**
   * The bucket of each grade in a view. The grouping below is stated for any
   * such bucket function `clave`; the page's is `ClaveDe(vista)`.
   */
  function ClaveDe(vista: string): NotaApi -> Option<string>
  {
    (n: NotaApi) => Clave(n, vista)
  }

  function EnClave(clave: NotaApi -> Option<string>, key: string): NotaApi -> bool
  {
    (n: NotaApi) => n.nota >= 0.0 && clave(n) == Some(key)
  }

  /** The real grades of one bucket. */
  function Grupo(notas: seq<NotaApi>, clave: NotaApi -> Option<string>, key: string): seq<NotaApi>
  {
    Filter(notas, EnClave(clave, key))
  }

  /** The buckets in the order `Object.keys` creates them: first appearance. */
  function Primeras(s: seq<NotaApi>, clave: NotaApi -> Option<string>): seq<string>
  {
    if s == [] then []
    else
      var p := Primeras(s[..|s| - 1], clave);
      var n := s[|s| - 1];
      var c := clave(n);
      if n.nota >= 0.0 && c.Some? && c.value !in p then p + [c.value] else p
  }

  /** The buckets are exactly those that hold a real grade, each once. */
  lemma {:induction false} PrimerasClaves(s: seq<NotaApi>, clave: NotaApi -> Option<string>)
    ensures forall k :: k in Primeras(s, clave) <==> Grupo(s, clave, k) != []
    ensures forall i, j :: 0 <= i < j < |Primeras(s, clave)| ==> Primeras(s, clave)[i] != Primeras(s, clave)[j]
  {
    if s != [] {
      var ini := s[..|s| - 1];
      PrimerasClaves(ini, clave);
      assert s[..|s| - 1 + 1] == s;
      forall k
        ensures Grupo(s, clave, k) == Grupo(ini, clave, k) + (if EnClave(clave, k)(s[|s| - 1]) then [s[|s| - 1]] else [])
      {
        FilterSnoc(s, |s| - 1, EnClave(clave, k));
      }
    }
  }

  /** The labels of the chart: the fixed week or year, or the buckets sorted as strings. */
  function Etiquetas(vista: string, primeras: seq<string>): seq<string>
  {
    if vista == "dia" then DiasSemana
    else if vista == "mes" then Meses
    else SortBy(primeras, StrLe)
  }

  /** Each label with the average of its bucket, 0 for an empty one. */
  function Tabla(notas: seq<NotaApi>, base: seq<string>, clave: NotaApi -> Option<string>): seq<(string, real)>
  {
    seq(|base|, i requires 0 <= i < |base| => (base[i], PromedioO0(Grupo(notas, clave, base[i]))))
  }

  function Base(notas: seq<NotaApi>, vista: string): seq<string>
  {
    Etiquetas(vista, Primeras(notas, ClaveDe(vista)))
  }

  /** `dataTemporal`. */
  function DataTemporal(notas: seq<NotaApi>, vista: string): seq<(string, real)>
  {
    Tabla(notas, Base(notas, vista), ClaveDe(vista))
  }

  lemma TablaEntrada(notas: seq<NotaApi>, base: seq<string>, clave: NotaApi -> Option<string>, i: int)
    requires 0 <= i < |base|
    ensures |Tabla(notas, base, clave)| == |base|
    ensures Tabla(notas, base, clave)[i] == (base[i], PromedioO0(Grupo(notas, clave, base[i])))
  {
  }

  /**
   * The labels: the seven weekdays from Monday or the twelve months in order;
   * in the year view every bucket that holds a grade, each once, in string order.
   */
  lemma TemporalEtiquetas(notas: seq<NotaApi>, vista: string)
    ensures var r := DataTemporal(notas, vista);
      (vista == "dia" ==> |r| == 7 && forall i :: 0 <= i < 7 ==> r[i].0 == DiasSemana[i]) &&
      (vista == "mes" ==> |r| == 12 && forall i :: 0 <= i < 12 ==> r[i].0 == Meses[i])
    ensures vista != "dia" && vista != "mes" ==>
      var r := DataTemporal(notas, vista);
      |r| == |Primeras(notas, ClaveDe(vista))| &&
      (forall i :: 0 < i < |r| ==> StrLe(r[i - 1].0, r[i].0)) &&
      (forall k :: (exists i :: 0 <= i < |r| && r[i].0 == k) <==> Grupo(notas, ClaveDe(vista), k) != [])
  {
    var clave := ClaveDe(vista);
    var p := Primeras(notas, clave);
    var b := Etiquetas(vista, p);
    TablaEtiquetas(notas, b, clave);
    if vista != "dia" && vista != "mes" {
      PrimerasClaves(notas, clave);
      EtiquetasOrdenadas(p);
    }
  }

  lemma TablaEtiquetas(notas: seq<NotaApi>, base: seq<string>, clave: NotaApi -> Option<string>)
    ensures var r := Tabla(notas, base, clave);
      |r| == |base| && forall i :: 0 <= i < |r| ==> r[i].0 == base[i]
  {
  }

  /** Sorted as strings, the buckets keep each of them and only them. */
  lemma EtiquetasOrdenadas(p: seq<string>)
    ensures var b := SortBy(p, StrLe);
      |b| == |p| && (forall i :: 0 < i < |b| ==> StrLe(b[i - 1], b[i])) &&
      (forall k :: (exists i :: 0 <= i < |b| && b[i] == k) <==> k in p)
  {
    var b := SortBy(p, StrLe);
    StrLeTotalPreorder();
    SortBySorted(p, StrLe);
    forall k
      ensures (exists i :: 0 <= i < |b| && b[i] == k) <==> k in p
    {
      assert k in b <==> k in multiset(p);
    }
  }

  /** An average of grades from 0 to `hi`: 0 for none, else the sum over the count, within the range. */
  lemma PromedioDe(g: seq<NotaApi>, hi: real)
    requires forall j :: 0 <= j < |g| ==> 0.0 <= g[j].nota <= hi
    ensures g == [] ==> PromedioO0(g) == 0.0
    ensures g != [] ==> PromedioO0(g) == Mean(g, Valor).value && 0.0 <= PromedioO0(g) <= hi
  {
    if g != [] {
      MeanBounds(g, Valor, 0.0, hi);
    }
  }

  lemma GrupoAcotado(notas: seq<NotaApi>, clave: NotaApi -> Option<string>, key: string, hi: real)
    requires forall j :: 0 <= j < |notas| ==> notas[j].nota <= hi
    ensures var g := Grupo(notas, clave, key); forall j :: 0 <= j < |g| ==> 0.0 <= g[j].nota <= hi
  {
    var g := Grupo(notas, clave, key);
    forall j | 0 <= j < |g|
      ensures 0.0 <= g[j].nota <= hi
    {
      assert g[j] in notas;
    }
  }

  /** Each entry is the average of its bucket, 0 when it is empty, and within the grades' range. */
  lemma TemporalPromedios(notas: seq<NotaApi>, vista: string, i: int, hi: real)
    requires 0 <= i < |Base(notas, vista)|
    requires forall j :: 0 <= j < |notas| ==> notas[j].nota <= hi
    ensures var r := DataTemporal(notas, vista); var g := Grupo(notas, ClaveDe(vista), r[i].0);
      (g == [] ==> r[i].1 == 0.0) &&
      (g != [] ==> r[i].1 == Mean(g, Valor).value && 0.0 <= r[i].1 <= hi)
  {
    var clave := ClaveDe(vista);
    var b := Base(notas, vista);
    TablaEntrada(notas, b, clave, i);
    GrupoAcotado(notas, clave, b[i], hi);
    PromedioDe(Grupo(notas, clave, b[i]), hi);
  }

  /** `Object.keys(agrupar)`: insert `k` at its first appearance. */
  function Registrar(orden: seq<string>, k: string): seq<string>
  {
    if k in orden then orden else orden + [k]
  }

  lemma GrupoSnoc(s: seq<NotaApi>, i: int, clave: NotaApi -> Option<string>, k: string)
    requires 0 <= i < |s|
    ensures Grupo(s[..i + 1], clave, k) == Grupo(s[..i], clave, k) + (if EnClave(clave, k)(s[i]) then [s[i]] else [])
  {
    FilterSnoc(s, i, EnClave(clave, k));
  }

  lemma PrimerasSnoc(s: seq<NotaApi>, i: int, clave: NotaApi -> Option<string>)
    requires 0 <= i < |s|
    ensures var n := s[i]; var c := clave(n);
      Primeras(s[..i + 1], clave) ==
        if n.nota >= 0.0 && c.Some? then Registrar(Primeras(s[..i], clave), c.value) else Primeras(s[..i], clave)
  {
    var t := s[..i + 1];
    assert t[..|t| - 1] == s[..i];
    assert t[|t| - 1] == s[i];
  }

  /** Each bucket of `agrupar` holds the sum and the count of its grades in `s`. */
  ghost predicate Sumas(agrupar: map<string, (real, nat)>, s: seq<NotaApi>, clave: NotaApi -> Option<string>)
  {
    forall k :: k in agrupar ==> agrupar[k] == (SumReal(Grupo(s, clave, k), Valor), |Grupo(s, clave, k)|)
  }

  /** `agrupar[key].suma += nota; agrupar[key].cant++`, the bucket created empty first. */
  function Anotar(agrupar: map<string, (real, nat)>, key: string, nota: real): map<string, (real, nat)>
  {
    var par := if key in agrupar then agrupar[key] else (0.0, 0);
    agrupar[key := (par.0 + nota, par.1 + 1)]
  }

  /** One step of the `forEach`: the grade's bucket gains its grade, the others stay. */
  lemma SumasPaso(agrupar: map<string, (real, nat)>, s: seq<NotaApi>, i: int, clave: NotaApi -> Option<string>)
    requires 0 <= i < |s| && s[i].nota >= 0.0 && clave(s[i]).Some?
    requires Sumas(agrupar, s[..i], clave)
    requires forall k :: k !in agrupar ==> Grupo(s[..i], clave, k) == []
    ensures Sumas(Anotar(agrupar, clave(s[i]).value, s[i].nota), s[..i + 1], clave)
  {
    var n := s[i];
    var key := clave(n).value;
    var nuevo := Anotar(agrupar, key, n.nota);
    forall k | k in nuevo
      ensures nuevo[k] == (SumReal(Grupo(s[..i + 1], clave, k), Valor), |Grupo(s[..i + 1], clave, k)|)
    {
      GrupoSnoc(s, i, clave, k);
      if k == key {
        assert EnClave(clave, k)(n);
        AnotarPropia(agrupar, key, n, Grupo(s[..i], clave, k));
      } else {
        assert !EnClave(clave, k)(n);
        assert Grupo(s[..i], clave, k) + [] == Grupo(s[..i], clave, k);
      }
    }
  }

  /** The bucket that gains the grade holds the sum and count of its old grades and the new one. */
  lemma AnotarPropia(agrupar: map<string, (real, nat)>, key: string, n: NotaApi, g: seq<NotaApi>)
    requires key in agrupar ==> agrupar[key] == (SumReal(g, Valor), |g|)
    requires key !in agrupar ==> g == []
    ensures Anotar(agrupar, key, n.nota)[key] == (SumReal(g + [n], Valor), |g + [n]|)
  {
    SumRealSnoc(g, n, Valor);
  }

  lemma SumasIgual(agrupar: map<string, (real, nat)>, s: seq<NotaApi>, i: int, clave: NotaApi -> Option<string>)
    requires 0 <= i < |s| && clave(s[i]).None?
    requires Sumas(agrupar, s[..i], clave)
    ensures Sumas(agrupar, s[..i + 1], clave)
  {
    forall k | k in agrupar
      ensures Grupo(s[..i + 1], clave, k) == Grupo(s[..i], clave, k)
    {
      GrupoSnoc(s, i, clave, k);
    }
  }

  /** What the `forEach` has built after the grades `s`: the buckets in order, each with its sum and count. */
  ghost predicate Agrupado(agrupar: map<string, (real, nat)>, orden: seq<string>, s: seq<NotaApi>, clave: NotaApi -> Option<string>)
  {
    orden == Primeras(s, clave) && (forall k :: k in agrupar <==> k in orden) && Sumas(agrupar, s, clave)
  }

  lemma AgrupadoPaso(agrupar: map<string, (real, nat)>, orden: seq<string>, s: seq<NotaApi>, i: int, clave: NotaApi -> Option<string>)
    requires 0 <= i < |s| && s[i].nota >= 0.0
    requires Agrupado(agrupar, orden, s[..i], clave)
    ensures var c := clave(s[i]);
      (c.Some? ==> Agrupado(Anotar(agrupar, c.value, s[i].nota), Registrar(orden, c.value), s[..i + 1], clave)) &&
      (c.None? ==> Agrupado(agrupar, orden, s[..i + 1], clave))
  {
    PrimerasSnoc(s, i, clave);
    PrimerasClaves(s[..i], clave);
    var c := clave(s[i]);
    if c.Some? {
      SumasPaso(agrupar, s, i, clave);
    } else {
      SumasIgual(agrupar, s, i, clave);
    }
  }

  /** The `forEach` that fills `agrupar` with each bucket's sum and count, in first-appearance order. */
  method Agrupar(reales: seq<NotaApi>, clave: NotaApi -> Option<string>) returns (agrupar: map<string, (real, nat)>, orden: seq<string>)
    requires forall j :: 0 <= j < |reales| ==> reales[j].nota >= 0.0
    ensures orden == Primeras(reales, clave)
    ensures forall k :: k in agrupar <==> k in orden
    ensures forall k :: k in agrupar ==>
      agrupar[k] == (SumReal(Grupo(reales, clave, k), Valor), |Grupo(reales, clave, k)|)
  {
    agrupar := map[];
    orden := [];
    var i := 0;
    while i < |reales|
      invariant 0 <= i <= |reales|
      invariant Agrupado(agrupar, orden, reales[..i], clave)
    {
      var n := reales[i];
      AgrupadoPaso(agrupar, orden, reales, i, clave);
      var c := clave(n);
      if c.Some? {
        var key := c.value;
        agrupar := Anotar(agrupar, key, n.nota);
        orden := Registrar(orden, key);
      }
      i := i + 1;
    }
    assert reales[..i] == reales;
  }

  /** `agrupar[k] ? suma / cant : 0`: the average of a label's bucket. */
  function Media(agrupar: map<string, (real, nat)>, k: string): real
  {
    if k in agrupar && agrupar[k].1 > 0 then agrupar[k].0 / agrupar[k].1 as real else 0.0
  }

  /** Over the grouping of the real grades, a label's average is that of its bucket among all grades. */
  lemma MediaGrupo(notas: seq<NotaApi>, clave: NotaApi -> Option<string>, agrupar: map<string, (real, nat)>,
                   orden: seq<string>, k: string)
    requires orden == Primeras(Filter(notas, NoCentinela), clave)
    requires forall k :: k in agrupar <==> k in orden
    requires Sumas(agrupar, Filter(notas, NoCentinela), clave)
    ensures Media(agrupar, k) == PromedioO0(Grupo(notas, clave, k))
  {
    GrupoReales(notas, clave, k);
    PrimerasClaves(Filter(notas, NoCentinela), clave);
  }

  /** `dataTemporal`: the grouping over the real grades, then the labels and the averages. */
  method AgruparTemporal(notas: seq<NotaApi>, vista: string) returns (r: seq<(string, real)>)
    ensures r == DataTemporal(notas, vista)
  {
    var clave := ClaveDe(vista);
    var reales := Filter(notas, NoCentinela);
    var agrupar, orden := Agrupar(reales, clave);
    assert Sumas(agrupar, reales, clave);
    PrimerasReales(notas, clave);
    var base := Etiquetas(vista, orden);
    assert base == Base(notas, vista);
    r := seq(|base|, i requires 0 <= i < |base| => (base[i], Media(agrupar, base[i])));
    MediasTabla(notas, clave, agrupar, orden, base, r);
  }

  /** The `map` over the labels gives the table of the bucket averages. */
  lemma MediasTabla(notas: seq<NotaApi>, clave: NotaApi -> Option<string>, agrupar: map<string, (real, nat)>,
                    orden: seq<string>, base: seq<string>, r: seq<(string, real)>)
    requires orden == Primeras(Filter(notas, NoCentinela), clave)
    requires forall k :: k in agrupar <==> k in orden
    requires Sumas(agrupar, Filter(notas, NoCentinela), clave)
    requires |r| == |base| && forall i :: 0 <= i < |base| ==> r[i] == (base[i], Media(agrupar, base[i]))
    ensures r == Tabla(notas, base, clave)
  {
    forall i | 0 <= i < |base|
      ensures r[i] == Tabla(notas, base, clave)[i]
    {
      TablaEntrada(notas, base, clave, i);
      MediaGrupo(notas, clave, agrupar, orden, base[i]);
    }
    assert |Tabla(notas, base, clave)| == |base|;
  }

  /** A bucket holds real grades only, so it is the same over the real grades. */
  lemma GrupoReales(notas: seq<NotaApi>, clave: NotaApi -> Option<string>, key: string)
    ensures Grupo(Filter(notas, NoCentinela), clave, key) == Grupo(notas, clave, key)
  {
    FilterNarrow(notas, NoCentinela, EnClave(clave, key));
  }

  /** The buckets of the real grades are those of all grades: a placeholder belongs to none. */
  lemma {:induction false} PrimerasReales(notas: seq<NotaApi>, clave: NotaApi -> Option<string>)
    ensures Primeras(Filter(notas, NoCentinela), clave) == Primeras(notas, clave)
    decreases |notas|
  {
    if notas != [] {
      var ini := notas[..|notas| - 1];
      var n := notas[|notas| - 1];
      var f := Filter(ini, NoCentinela);
      PrimerasReales(ini, clave);
      assert Filter(notas, NoCentinela) == f + (if n.nota >= 0.0 then [n] else []) by {
        FilterSnoc(notas, |notas| - 1, NoCentinela);
        assert notas[..|notas| - 1 + 1] == notas;
      }
      PrimerasAnadir(ini, n, clave);
      Ultimo(notas);
      if n.nota >= 0.0 {
        PrimerasAnadir(f, n, clave);
      } else {
        assert f + [] == f;
      }
    }
  }

  lemma PrimerasAnadir(s: seq<NotaApi>, n: NotaApi, clave: NotaApi -> Option<string>)
    ensures var c := clave(n);
      Primeras(s + [n], clave) == if n.nota >= 0.0 && c.Some? then Registrar(Primeras(s, clave), c.value) else Primeras(s, clave)
  {
    assert (s + [n])[..|s|] == s;
  }

  // ----- 3. Exam sessions -----

  datatype Turno = FebMar | Julio | Dic

  function NombreTurno(t: Turno): string
  {
    match t
    case FebMar => "Feb/Mar"
    case Julio => "Julio"
    case Dic => "Dic"
  }

  /** Months 2 and 3, 7 and 12 are exam sessions; the others belong to none. */
  function TurnoDeMes(mes: int): Option<Turno>
  {
    if mes == 2 || mes == 3 then Some(FebMar)
    else if mes == 7 then Some(Julio)
    else if mes == 12 then Some(Dic)
    else None
  }

  function ConId(id: string): InscripcionApi -> bool
  {
    (i: InscripcionApi) => i.id == id
  }

  /** Regularised before being approved: not a direct approval. */
  predicate NoDirecta(insc: InscripcionApi)
  {
    insc.fechaRegularizacion.Some? && insc.fechaRegularizacion.value != "" &&
    insc.fechaRegularizacion != insc.fechaAprobacion
  }

  /** A real final grade of an enrolment that was regularised first. */
  predicate Considerada(n: NotaApi, inscs: seq<InscripcionApi>)
  {
    n.esFinal && n.nota >= 0.0 &&
    var insc := Find(inscs, ConId(n.inscripcionId));
    insc.Some? && NoDirecta(insc.value)
  }

  function TurnoDe(n: NotaApi): Option<Turno>
  {
    match ParseSafeDate(n.fecha)
    case Valida(d) => TurnoDeMes(d.month)
    case _ => None
  }

  /**
   * Where the `forEach` sends a real final grade: nowhere, into an exception
   * (a considered grade without a date: `parseSafeDate` gives `null` and
   * `.getMonth()` throws), or into the sum and count of an exam session.
   */
  datatype Destino = Fuera | Lanza | Sesion(t: Turno)

  function DestinoDe(n: NotaApi, inscs: seq<InscripcionApi>): Destino
  {
    if !Considerada(n, inscs) then Fuera
    else if n.fecha == "" then Lanza
    else match TurnoDe(n)
      case Some(t) => Sesion(t)
      case None => Fuera
  }

  /**
   * The session average is stated for any destination function `destino`;
   * the page's is `Destinos(inscs)`.
   */
  function Destinos(inscs: seq<InscripcionApi>): NotaApi -> Destino
  {
    (n: NotaApi) => DestinoDe(n, inscs)
  }

  function Lanzan(destino: NotaApi -> Destino): NotaApi -> bool
  {
    (n: NotaApi) => destino(n) == Lanza
  }

  function EnSesion(destino: NotaApi -> Destino, t: Turno): NotaApi -> bool
  {
    (n: NotaApi) => destino(n) == Sesion(t)
  }

  function Positivo(e: (string, real)): bool { e.1 > 0.0 }

  function FinalReal(n: NotaApi): bool { n.esFinal && n.nota >= 0.0 }

  /** The three sessions in order with the average of their grades, without those that average 0. */
  function Sesiones(finales: seq<NotaApi>, destino: NotaApi -> Destino): seq<(string, real)>
  {
    Filter([(NombreTurno(FebMar), PromedioO0(Filter(finales, EnSesion(destino, FebMar)))),
            (NombreTurno(Julio), PromedioO0(Filter(finales, EnSesion(destino, Julio)))),
            (NombreTurno(Dic), PromedioO0(Filter(finales, EnSesion(destino, Dic))))], Positivo)
  }

  /** The sessions over the real finals; `None` where the page throws. */
  function Turnos(finales: seq<NotaApi>, destino: NotaApi -> Destino): Option<seq<(string, real)>>
  {
    if Find(finales, Lanzan(destino)).Some? then None else Some(Sesiones(finales, destino))
  }

  /** `dataTurnos`. */
  function DataTurnos(notas: seq<NotaApi>, inscs: seq<InscripcionApi>): Option<seq<(string, real)>>
  {
    Turnos(Filter(notas, FinalReal), Destinos(inscs))
  }

  lemma SesionesForma(finales: seq<NotaApi>, destino: NotaApi -> Destino, t: Turno)
    ensures var r := Sesiones(finales, destino);
      |r| <= 3 && (forall i :: 0 <= i < |r| ==> r[i].1 > 0.0) &&
      ((exists i :: 0 <= i < |r| && r[i].0 == NombreTurno(t)) <==>
        PromedioO0(Filter(finales, EnSesion(destino, t))) > 0.0)
  {
    var a := PromedioO0(Filter(finales, EnSesion(destino, FebMar)));
    var b := PromedioO0(Filter(finales, EnSesion(destino, Julio)));
    var c := PromedioO0(Filter(finales, EnSesion(destino, Dic)));
    TresSesiones(a, b, c, t);
    assert DeTurno(t, a, b, c) == PromedioO0(Filter(finales, EnSesion(destino, t)));
  }

  /** The value of session `t` among the three. */
  function DeTurno(t: Turno, a: real, b: real, c: real): real
  {
    match t
    case FebMar => a
    case Julio => b
    case Dic => c
  }

  lemma TresSesiones(a: real, b: real, c: real, t: Turno)
    ensures var r := Filter([(NombreTurno(FebMar), a), (NombreTurno(Julio), b), (NombreTurno(Dic), c)], Positivo);
      |r| <= 3 && (forall i :: 0 <= i < |r| ==> r[i].1 > 0.0) &&
      ((exists i :: 0 <= i < |r| && r[i].0 == NombreTurno(t)) <==> DeTurno(t, a, b, c) > 0.0)
  {
    var e := [(NombreTurno(FebMar), a), (NombreTurno(Julio), b), (NombreTurno(Dic), c)];
    var k := match t case FebMar => 0 case Julio => 1 case Dic => 2;
    assert e[k] == (NombreTurno(t), DeTurno(t, a, b, c));
    assert |e[0].0| == 7 && |e[1].0| == 5 && |e[2].0| == 3;
    FiltroPositivo(e, k);
  }

  /** Filtering named values on their sign keeps a name exactly when its value is positive. */
  lemma FiltroPositivo(e: seq<(string, real)>, k: int)
    requires 0 <= k < |e|
    requires forall i, j :: 0 <= i < j < |e| ==> e[i].0 != e[j].0
    ensures e[k].1 > 0.0 ==> exists i :: 0 <= i < |Filter(e, Positivo)| && Filter(e, Positivo)[i].0 == e[k].0
    ensures e[k].1 <= 0.0 ==> forall i :: 0 <= i < |Filter(e, Positivo)| ==> Filter(e, Positivo)[i].0 != e[k].0
  {
    var r := Filter(e, Positivo);
    if e[k].1 > 0.0 {
      assert Positivo(e[k]);
      var i :| 0 <= i < |r| && r[i] == e[k];
      assert r[i].0 == e[k].0;
    } else {
      forall i | 0 <= i < |r|
        ensures r[i].0 != e[k].0
      {
        assert r[i] in e && Positivo(r[i]);
        var j :| 0 <= j < |e| && e[j] == r[i];
        assert j != k;
      }
    }
  }

  /**
   * The sessions shown: at most three, each with a positive average, and a
   * session is shown exactly when its considered grades average above 0.
   */
  lemma TurnosForma(notas: seq<NotaApi>, inscs: seq<InscripcionApi>, t: Turno)
    requires DataTurnos(notas, inscs).Some?
    ensures var r := DataTurnos(notas, inscs).value;
      |r| <= 3 && (forall i :: 0 <= i < |r| ==> r[i].1 > 0.0) &&
      ((exists i :: 0 <= i < |r| && r[i].0 == NombreTurno(t)) <==>
        PromedioO0(Filter(Filter(notas, FinalReal), EnSesion(Destinos(inscs), t))) > 0.0)
  {
    SesionesForma(Filter(notas, FinalReal), Destinos(inscs), t);
  }

  /** A session's grades are the real finals of enrolments regularised first, dated in its months. */
  lemma SesionMiembros(notas: seq<NotaApi>, inscs: seq<InscripcionApi>, t: Turno, n: NotaApi)
    ensures n in Filter(Filter(notas, FinalReal), EnSesion(Destinos(inscs), t)) <==>
      n in notas && Considerada(n, inscs) && n.fecha != "" && TurnoDe(n) == Some(t)
  {
    var f := Filter(notas, FinalReal);
    if n in notas && Considerada(n, inscs) && n.fecha != "" && TurnoDe(n) == Some(t) {
      var i :| 0 <= i < |notas| && notas[i] == n;
      assert n in f;
      var j :| 0 <= j < |f| && f[j] == n;
      assert EnSesion(Destinos(inscs), t)(f[j]);
    }
  }

  lemma FindAppendNone(s: seq<NotaApi>, n: NotaApi, p: NotaApi -> bool)
    requires !p(n)
    ensures Find(s + [n], p).None? <==> Find(s, p).None?
  {
    assert forall i :: 0 <= i < |s| ==> (s + [n])[i] == s[i];
    assert (s + [n])[|s|] == n;
  }

  /** A grade the `forEach` sends nowhere changes nothing. */
  lemma TurnosFuera(finales: seq<NotaApi>, destino: NotaApi -> Destino, n: NotaApi)
    requires destino(n) == Fuera
    ensures Turnos(finales + [n], destino) == Turnos(finales, destino)
  {
    FindAppendNone(finales, n, Lanzan(destino));
    forall t
      ensures Filter(finales + [n], EnSesion(destino, t)) == Filter(finales, EnSesion(destino, t))
    {
      FilterAppend(finales, [n], EnSesion(destino, t));
      assert Filter([n], EnSesion(destino, t)) == [];
      assert Filter(finales, EnSesion(destino, t)) + [] == Filter(finales, EnSesion(destino, t));
    }
  }

  /**
   * A grade that is not a considered final (a direct approval, say), or one
   * dated in a month of no session, changes nothing.
   */
  lemma TurnosIgnoran(notas: seq<NotaApi>, inscs: seq<InscripcionApi>, n: NotaApi)
    requires !Considerada(n, inscs) || (n.fecha != "" && TurnoDe(n).None?)
    ensures DataTurnos(notas + [n], inscs) == DataTurnos(notas, inscs)
  {
    var f := Filter(notas, FinalReal);
    FilterAppend(notas, [n], FinalReal);
    if FinalReal(n) {
      assert Filter([n], FinalReal) == [n];
      TurnosFuera(f, Destinos(inscs), n);
    } else {
      assert Filter([n], FinalReal) == [];
      assert f + [] == f;
    }
  }

  /** `turnos[t].suma += n.nota` for the grade's own session only. */
  function Suma(d: Destino, t: Turno, suma: real, nota: real): real
  {
    if d == Sesion(t) then suma + nota else suma
  }

  /** `turnos[t].cant++` for the grade's own session only. */
  function Cuenta(d: Destino, t: Turno, cant: nat): nat
  {
    if d == Sesion(t) then cant + 1 else cant
  }

  /** The sum and the count of one session's grades among `s`. */
  ghost predicate Acumulado(s: seq<NotaApi>, destino: NotaApi -> Destino, t: Turno, suma: real, cant: nat)
  {
    suma == SumReal(Filter(s, EnSesion(destino, t)), Valor) && cant == |Filter(s, EnSesion(destino, t))|
  }

  lemma AcumuladoPaso(s: seq<NotaApi>, i: int, destino: NotaApi -> Destino, t: Turno, suma: real, cant: nat)
    requires 0 <= i < |s|
    requires Acumulado(s[..i], destino, t, suma, cant)
    ensures Acumulado(s[..i + 1], destino, t, Suma(destino(s[i]), t, suma, s[i].nota), Cuenta(destino(s[i]), t, cant))
  {
    var g := Filter(s[..i], EnSesion(destino, t));
    FilterSnoc(s, i, EnSesion(destino, t));
    if destino(s[i]) == Sesion(t) {
      SumRealAppend(g, [s[i]], Valor);
      assert SumReal([s[i]], Valor) == s[i].nota + SumReal([s[i]][1..], Valor);
    } else {
      assert g + [] == g;
    }
  }

  /** After the grades `s`: none has thrown, and each session holds its sum and count. */
  ghost predicate Parcial(s: seq<NotaApi>, destino: NotaApi -> Destino,
                          sF: real, cF: nat, sJ: real, cJ: nat, sD: real, cD: nat)
  {
    (forall j :: 0 <= j < |s| ==> destino(s[j]) != Lanza) &&
    Acumulado(s, destino, FebMar, sF, cF) && Acumulado(s, destino, Julio, sJ, cJ) &&
    Acumulado(s, destino, Dic, sD, cD)
  }

  lemma ParcialPaso(s: seq<NotaApi>, i: int, destino: NotaApi -> Destino,
                    sF: real, cF: nat, sJ: real, cJ: nat, sD: real, cD: nat)
    requires 0 <= i < |s| && destino(s[i]) != Lanza
    requires Parcial(s[..i], destino, sF, cF, sJ, cJ, sD, cD)
    ensures var d := destino(s[i]); var x := s[i].nota;
      Parcial(s[..i + 1], destino, Suma(d, FebMar, sF, x), Cuenta(d, FebMar, cF),
              Suma(d, Julio, sJ, x), Cuenta(d, Julio, cJ), Suma(d, Dic, sD, x), Cuenta(d, Dic, cD))
  {
    AcumuladoPaso(s, i, destino, FebMar, sF, cF);
    AcumuladoPaso(s, i, destino, Julio, sJ, cJ);
    AcumuladoPaso(s, i, destino, Dic, sD, cD);
    forall j | 0 <= j < i + 1
      ensures destino(s[j]) != Lanza
    {
      if j < i {
        assert s[j] == s[..i][j];
      }
    }
  }

  /** `cant ? suma / cant : 0`. */
  function Promedio(suma: real, cant: nat): real
  {
    if cant > 0 then suma / cant as real else 0.0
  }

  /** Once every grade has passed without throwing, the three sums give the sessions' averages. */
  lemma ParcialTurnos(finales: seq<NotaApi>, destino: NotaApi -> Destino,
                      sF: real, cF: nat, sJ: real, cJ: nat, sD: real, cD: nat)
    requires Parcial(finales, destino, sF, cF, sJ, cJ, sD, cD)
    ensures Turnos(finales, destino) ==
      Some(Filter([(NombreTurno(FebMar), Promedio(sF, cF)), (NombreTurno(Julio), Promedio(sJ, cJ)),
                   (NombreTurno(Dic), Promedio(sD, cD))], Positivo))
  {
    assert Find(finales, Lanzan(destino)).None?;
  }

  /** The one `forEach` over the real finals, three sums and three counts. */
  method SumarTurnos(finales: seq<NotaApi>, destino: NotaApi -> Destino) returns (r: Option<seq<(string, real)>>)
    ensures r == Turnos(finales, destino)
  {
    var sF, sJ, sD := 0.0, 0.0, 0.0;
    var cF, cJ, cD: nat := 0, 0, 0;
    var i := 0;
    while i < |finales|
      invariant 0 <= i <= |finales|
      invariant Parcial(finales[..i], destino, sF, cF, sJ, cJ, sD, cD)
    {
      var n := finales[i];
      var d := destino(n);
      if d == Lanza {
        assert Lanzan(destino)(finales[i]);
        return None;
      }
      ParcialPaso(finales, i, destino, sF, cF, sJ, cJ, sD, cD);
      sF, cF := Suma(d, FebMar, sF, n.nota), Cuenta(d, FebMar, cF);
      sJ, cJ := Suma(d, Julio, sJ, n.nota), Cuenta(d, Julio, cJ);
      sD, cD := Suma(d, Dic, sD, n.nota), Cuenta(d, Dic, cD);
      i := i + 1;
    }
    assert finales[..i] == finales;
    ParcialTurnos(finales, destino, sF, cF, sJ, cJ, sD, cD);
    var turnos := [(NombreTurno(FebMar), Promedio(sF, cF)),
                   (NombreTurno(Julio), Promedio(sJ, cJ)),
                   (NombreTurno(Dic), Promedio(sD, cD))];
    r := Some(Filter(turnos, Positivo));
  }

  /** `dataTurnos`: the real finals, then the `forEach`. */
  method CalcularTurnos(notas: seq<NotaApi>, inscs: seq<InscripcionApi>) returns (r: Option<seq<(string, real)>>)
    ensures r == DataTurnos(notas, inscs)
  {
    var finales := Filter(notas, FinalReal);
    r := SumarTurnos(finales, Destinos(inscs));
  }

  // ----- 4. The running average -----

  function PorFecha(): (NotaApi, NotaApi) -> bool
  {
    (a: NotaApi, b: NotaApi) => StrLe(a.fecha, b.fecha)
  }

  /** The grades that count toward the average, oldest first. */
  function Cronologicas(notas: seq<NotaApi>): seq<NotaApi>
  {
    SortBy(Filter(notas, Computa), PorFecha())
  }

  /** The points of the chart: each grade's date with the mean of it and those before it. */
  function Puntos(o: seq<NotaApi>): (p: seq<(string, real)>)
    ensures |p| == |o|
  {
    if o == [] then []
    else Puntos(o[..|o| - 1]) + [(o[|o| - 1].fecha, SumReal(o, Valor) / |o| as real)]
  }

  /** `slice(-k)`: the last `k` elements, or all of them. */
  function Ultimos<T>(s: seq<T>, k: nat): (r: seq<T>)
    ensures |r| == if |s| <= k then |s| else k
    ensures forall i :: 0 <= i < |r| ==> r[i] == s[|s| - |r| + i]
  {
    if |s| <= k then s else s[|s| - k..]
  }

  function SinFecha(n: NotaApi): bool { n.fecha == "" }

  /** `dataEvolucion`; `None` where a grade without a date makes the label throw. */
  function DataEvolucion(notas: seq<NotaApi>): Option<seq<(string, real)>>
  {
    var o := Cronologicas(notas);
    if Find(o, SinFecha).Some? then None else Some(Ultimos(Puntos(o), 15))
  }

  /**
   * At most fifteen points, the latest ones, and the last of them is the
   * average of every grade that counts.
   */
  lemma EvolucionUltimo(notas: seq<NotaApi>)
    requires DataEvolucion(notas).Some?
    ensures var r := DataEvolucion(notas).value; var c := Filter(notas, Computa);
      |r| == (if |c| <= 15 then |c| else 15) &&
      (c != [] ==> r[|r| - 1].1 == SumReal(c, Valor) / Len(c))
  {
    var c := Filter(notas, Computa);
    var o := Cronologicas(notas);
    var r := DataEvolucion(notas).value;
    assert |o| == |c| && multiset(o) == multiset(c);
    assert r == Ultimos(Puntos(o), 15);
    assert |Puntos(o)| == |o|;
    if c != [] {
      var u := Puntos(o)[|o| - 1];
      assert r[|r| - 1] == u;
      assert u.1 == SumReal(o, Valor) / |o| as real by {
        PuntosEntrada(o, |o| - 1);
        assert o[..|o|] == o;
      }
      assert SumReal(o, Valor) == SumReal(c, Valor) by {
        SumRealMultiset(o, c, Valor);
      }
    }
  }

  /** Point `i` is the date of the `i`-th grade and the mean of the first `i + 1`. */
  lemma {:induction false} PuntosEntrada(o: seq<NotaApi>, i: int)
    requires 0 <= i < |o|
    ensures Puntos(o)[i] == (o[i].fecha, SumReal(o[..i + 1], Valor) / (i + 1) as real)
  {
    if i == |o| - 1 {
      assert o[..i + 1] == o;
    } else {
      var ini := o[..|o| - 1];
      PuntosEntrada(ini, i);
      assert ini[..i + 1] == o[..i + 1];
    }
  }

  lemma PuntosSnoc(o: seq<NotaApi>, i: int)
    requires 0 <= i < |o|
    ensures Puntos(o[..i + 1]) == Puntos(o[..i]) + [(o[i].fecha, SumReal(o[..i + 1], Valor) / (i + 1) as real)]
  {
    var t := o[..i + 1];
    assert t[..|t| - 1] == o[..i];
  }

  /** Every point lies within the range of the grades. */
  lemma EvolucionAcotada(notas: seq<NotaApi>, hi: real, i: int)
    requires DataEvolucion(notas).Some?
    requires forall j :: 0 <= j < |notas| ==> notas[j].nota <= hi
    requires 0 <= i < |DataEvolucion(notas).value|
    ensures 0.0 <= DataEvolucion(notas).value[i].1 <= hi
  {
    var o := Cronologicas(notas);
    var p := Puntos(o);
    var r := DataEvolucion(notas).value;
    var k := |p| - |r| + i;
    assert r[i] == p[k];
    CronologicasAcotadas(notas, hi);
    PuntoAcotado(o, k, hi);
  }

  lemma CronologicasAcotadas(notas: seq<NotaApi>, hi: real)
    requires forall j :: 0 <= j < |notas| ==> notas[j].nota <= hi
    ensures var o := Cronologicas(notas); forall j :: 0 <= j < |o| ==> 0.0 <= o[j].nota <= hi
  {
    var o := Cronologicas(notas);
    var c := Filter(notas, Computa);
    forall j | 0 <= j < |o|
      ensures 0.0 <= o[j].nota <= hi
    {
      assert o[j] in multiset(o);
      assert o[j] in c;
    }
  }

  lemma PuntoAcotado(o: seq<NotaApi>, k: int, hi: real)
    requires 0 <= k < |o|
    requires forall j :: 0 <= j < |o| ==> 0.0 <= o[j].nota <= hi
    ensures 0.0 <= Puntos(o)[k].1 <= hi
  {
    var pre := o[..k + 1];
    assert forall j :: 0 <= j < |pre| ==> 0.0 <= Valor(pre[j]) <= hi by {
      forall j | 0 <= j < |pre| ensures 0.0 <= Valor(pre[j]) <= hi {
        assert pre[j] == o[j];
      }
    }
    SumRealLowerBound(pre, Valor, 0.0);
    SumRealUpperBound(pre, Valor, hi);
    DivBounds(SumReal(pre, Valor), (k + 1) as real, 0.0, hi);
    PuntosEntrada(o, k);
  }

  /** The `map` that keeps a running `suma`; `None` where a label throws. */
  method Acumular(o: seq<NotaApi>) returns (r: Option<seq<(string, real)>>)
    ensures r == if Find(o, SinFecha).Some? then None else Some(Puntos(o))
  {
    var suma := 0.0;
    var puntos: seq<(string, real)> := [];
    var i := 0;
    while i < |o|
      invariant 0 <= i <= |o|
      invariant suma == SumReal(o[..i], Valor)
      invariant puntos == Puntos(o[..i])
      invariant forall j :: 0 <= j < i ==> !SinFecha(o[j])
    {
      var n := o[i];
      if n.fecha == "" {
        assert SinFecha(o[i]);
        return None;
      }
      SumaPaso(o, i);
      PuntosSnoc(o, i);
      suma := suma + n.nota;
      puntos := puntos + [(n.fecha, suma / (i + 1) as real)];
      i := i + 1;
    }
    assert o[..i] == o;
    r := Some(puntos);
  }

  /** `dataEvolucion`: the counted grades oldest first, their running averages, then `slice(-15)`. */
  method CalcularEvolucion(notas: seq<NotaApi>) returns (r: Option<seq<(string, real)>>)
    ensures r == DataEvolucion(notas)
  {
    var o := Cronologicas(notas);
    var puntos := Acumular(o);
    r := if puntos.None? then None else Some(Ultimos(puntos.value, 15));
  }

  lemma SumaPaso(o: seq<NotaApi>, i: int)
    requires 0 <= i < |o|
    ensures SumReal(o[..i + 1], Valor) == SumReal(o[..i], Valor) + o[i].nota
  {
    assert o[..i + 1] == o[..i] + [o[i]];
    SumRealAppend(o[..i], [o[i]], Valor);
    assert SumReal([o[i]], Valor) == o[i].nota + SumReal([o[i]][1..], Valor);
  }

  // ----- 5. The streak of passing grades -----

  /** How many grades from the front pass, up to the first that does not. */
  function RachaInicial(s: seq<NotaApi>): (r: nat)
    ensures r <= |s|
    ensures forall j :: 0 <= j < r ==> s[j].nota >= 4.0
    ensures r < |s| ==> s[r].nota < 4.0
  {
    if s == [] || s[0].nota < 4.0 then 0 else 1 + RachaInicial(s[1..])
  }

  function Recientes(): (NotaApi, NotaApi) -> bool
  {
    (a: NotaApi, b: NotaApi) => StrLe(b.fecha, a.fecha)
  }

  /** The real grades, newest first (the comparator `b - a`; equal dates keep their order). */
  function Crono(notas: seq<NotaApi>): seq<NotaApi>
  {
    SortBy(Filter(notas, NoCentinela), Recientes())
  }

  /** `consistencia.racha`: 0 with fewer than two grades that count, else the leading passing run. */
  function Racha(notas: seq<NotaApi>): nat
  {
    if |Filter(notas, Computa)| < 2 then 0 else RachaInicial(Crono(notas))
  }

  /**
   * The streak is 0 with fewer than two grades that count; otherwise the
   * newest `r` real grades all pass and, unless every one passes, the next is a fail.
   */
  lemma RachaSignificado(notas: seq<NotaApi>)
    ensures |Filter(notas, Computa)| < 2 ==> Racha(notas) == 0
    ensures |Filter(notas, Computa)| >= 2 ==>
      var c := Crono(notas); var r := Racha(notas);
      r <= |c| && (forall j :: 0 <= j < r ==> c[j].nota >= 4.0) && (r < |c| ==> c[r].nota < 4.0)
  {
  }

  /** The `for ... of` with `break`. */
  method CalcularRacha(notas: seq<NotaApi>) returns (racha: nat)
    ensures racha == Racha(notas)
  {
    var validas := Filter(notas, Computa);
    if |validas| < 2 {
      return 0;
    }
    var crono := Crono(notas);
    racha := 0;
    var k := 0;
    while k < |crono|
      invariant 0 <= k <= |crono|
      invariant racha == k
      invariant forall j :: 0 <= j < k ==> crono[j].nota >= 4.0
    {
      if crono[k].nota >= 4.0 {
        racha := racha + 1;
      } else {
        break;
      }
      k := k + 1;
    }
    RachaUnica(crono, racha);
  }

  lemma {:induction false} RachaUnica(s: seq<NotaApi>, r: nat)
    requires r <= |s|
    requires forall j :: 0 <= j < r ==> s[j].nota >= 4.0
    requires r < |s| ==> s[r].nota < 4.0
    ensures RachaInicial(s) == r
  {
    if r > 0 {
      RachaUnica(s[1..], r - 1);
    }
  }
}
