/**
 * The records the pages receive from the REST API, as JSON objects with the
 * fields the pages read, and the local-date parse the pages share: a
 * `YYYY-MM-DD` string split on `-` into `new Date(y, m - 1, d)`.
 */
module Api {
  import opened Common
  import opened Strings
  import opened Dates

  /** A grade; `fecha` is its `YYYY-MM-DD` date. */
  datatype NotaApi = NotaApi(id: string, inscripcionId: string, materiaId: string, titulo: string,
                             nota: real, fecha: string, esFinal: bool, esParcial: bool, esTp: bool,
                             influyePromedio: bool)

  /** An enrolment; a missing or empty date field is `None`. */
  datatype InscripcionApi = InscripcionApi(id: string, materiaId: string, estado: string,
                                           fechaRegularizacion: Option<string>, fechaAprobacion: Option<string>,
                                           progresoClases: int, totalClases: int)

  /** A subject of the curriculum; `creditos` is `None` where the field is missing. */
  datatype MateriaApi = MateriaApi(id: string, nombre: string, codigo: string, numero: int, nivel: int,
                                   esElectiva: bool, creditos: Option<int>, modalidad: string)

  /** A correlativity edge: to take `materiaId` one needs `correlativaId` in status `tipo`. */
  datatype CorrelativaApi = CorrelativaApi(materiaId: string, correlativaId: string, tipo: string)

  function Valor(n: NotaApi): real { n.nota }

  /** Not the `-1` placeholder of a planned exam. */
  predicate NoCentinela(n: NotaApi) { n.nota >= 0.0 }

  /** Counts toward the average. */
  predicate Computa(n: NotaApi) { n.influyePromedio && n.nota >= 0.0 }

  /**
   * `validas.length ? sum / validas.length : 0`, the average the dashboard
   * and the subject page show before `toFixed(2)`.
   */
  function PromedioDe(notas: seq<NotaApi>, p: NotaApi -> bool): (r: real)
    ensures Filter(notas, p) == [] ==> r == 0.0
  {
    var v := Filter(notas, p);
    if v == [] then 0.0 else Mean(v, Valor).value
  }

  /** The average lies within any bounds of the grades it takes, or is the 0 of an empty set. */
  lemma PromedioAcotado(notas: seq<NotaApi>, p: NotaApi -> bool, lo: real, hi: real)
    requires lo <= 0.0 <= hi
    requires forall i :: 0 <= i < |notas| && p(notas[i]) ==> lo <= notas[i].nota <= hi
    ensures lo <= PromedioDe(notas, p) <= hi
  {
    var v := Filter(notas, p);
    if v != [] {
      forall k | 0 <= k < |v| ensures lo <= Valor(v[k]) <= hi {
        var j :| 0 <= j < |notas| && notas[j] == v[k];
      }
      MeanBounds(v, Valor, lo, hi);
    }
  }

  /**
   * What a date string becomes: `null` for an empty one, an Invalid Date
   * when a field is not a number, and otherwise a calendar date.
   */
  datatype Fecha = Nula | Invalida | Valida(d: Date)

  /**
   * `parseSafeDate(s)` of the statistics page: empty gives `null`; otherwise
   * `s.split('-').map(Number)` into `new Date(y, m - 1, d)`.
   */
  function ParseSafeDate(s: string): (f: Fecha)
    ensures f.Valida? ==> ValidDate(f.d)
    ensures f.Nula? <==> s == []
  {
    if s == [] then Nula
    else
      match ParseYmd(s)
      case None => Invalida
      case Some(p) =>
        var d := JsLocalDate(p.year, p.month, p.day);
        if ValidDate(d) then Valida(d) else Invalida
  }

  /** The key format of the calendar pages reads back as the local date it names. */
  lemma ParseSafeDateFormat(d: Date)
    requires ValidDate(d) && d.year >= 100
    ensures ParseSafeDate(FormatYmd(d)) == Valida(d)
  {
    ParseFormatYmd(d);
    assert |FormatYmd(d)| > 0 by {
      PadTwoLength(d.month);
    }
  }

  // ----- Instants -----

  /** Milliseconds in a day. */
  const MsDia: int := 86400000

  /**
   * `startOfDay(t)`. Instants are milliseconds on the local-time scale on
   * which the day of ordinal `DayNumber(d)` starts at `DayNumber(d) * MsDia`.
   */
  function InicioDelDia(t: int): (r: int)
    ensures r <= t < r + MsDia
    ensures r % MsDia == 0
  {
    (t / MsDia) * MsDia
  }

  /**
   * `getFechaLocal(s).getTime()` and `parseLocalDate(s).getTime()`: an
   * empty value is the current instant `ahora`, a date string is the
   * local midnight of its date, and `None` is the NaN of an Invalid Date.
   */
  function MomentoLocal(s: string, ahora: int): Option<int>
  {
    if s == [] then Some(ahora)
    else
      match ParseSafeDate(s)
      case Valida(d) => Some(DayNumber(d) * MsDia)
      case _ => None
  }

  /**
   * A dated value lands on the midnight of its date, an empty one on the
   * current instant, and the `YYYY-MM-DD` key of a date on that date.
   */
  lemma MomentoLocalCasos(s: string, ahora: int, d: Date)
    requires ValidDate(d) && d.year >= 100
    ensures s == [] ==> MomentoLocal(s, ahora) == Some(ahora)
    ensures ParseSafeDate(s).Valida? ==> MomentoLocal(s, ahora) == Some(DayNumber(ParseSafeDate(s).d) * MsDia)
    ensures ParseSafeDate(s).Invalida? <==> MomentoLocal(s, ahora).None?
    ensures MomentoLocal(FormatYmd(d), ahora) == Some(DayNumber(d) * MsDia)
  {
    ParseSafeDateFormat(d);
  }

  /** date-fns `differenceInDays(a, b)`: whole days from `b` to `a`, truncated toward zero. */
  function DiferenciaDias(a: int, b: int): (r: int)
    ensures a >= b ==> r >= 0 && r * MsDia <= a - b < (r + 1) * MsDia
    ensures a < b ==> r <= 0 && (r - 1) * MsDia < a - b <= r * MsDia
  {
    if a >= b then (a - b) / MsDia else -((b - a) / MsDia)
  }

  /** Two midnights are as many days apart as their ordinals; an instant of today is 0 days after its midnight. */
  lemma DiferenciaMedianoches(x: int, y: int, t: int)
    ensures DiferenciaDias(x * MsDia, y * MsDia) == x - y
    ensures DiferenciaDias(t, InicioDelDia(t)) == 0
  {
    var r := DiferenciaDias(x * MsDia, y * MsDia);
    if x >= y {
      assert r * MsDia <= (x - y) * MsDia < (r + 1) * MsDia;
    } else {
      assert (r - 1) * MsDia < (x - y) * MsDia <= r * MsDia;
    }
  }

  // ----- Subjects open to an enrolment -----

  /** Some enrolment in `m` is `cursando` or `regular` (ids compared as strings). */
  predicate CursaORegulariza(inscs: seq<InscripcionApi>, m: MateriaApi)
  {
    exists i :: 0 <= i < |inscs| && inscs[i].materiaId == m.id && (inscs[i].estado == "cursando" || inscs[i].estado == "regular")
  }

  function Habilita(inscs: seq<InscripcionApi>): MateriaApi -> bool
  {
    (m: MateriaApi) => CursaORegulariza(inscs, m)
  }

  /** `materiasFiltradas` of the planning page and `materiasHabilitadas` of the community page. */
  function MateriasHabilitadas(materias: seq<MateriaApi>, inscs: seq<InscripcionApi>): seq<MateriaApi>
  {
    Filter(materias, Habilita(inscs))
  }

  /**
   * The list holds exactly the subjects with a `cursando` or `regular`
   * enrolment, in catalogue order, each as often as in the catalogue.
   */
  lemma HabilitadasExactas(materias: seq<MateriaApi>, inscs: seq<InscripcionApi>, m: MateriaApi)
    ensures m in MateriasHabilitadas(materias, inscs) <==> m in materias && CursaORegulariza(inscs, m)
    ensures multiset(MateriasHabilitadas(materias, inscs))[m] == if CursaORegulariza(inscs, m) then multiset(materias)[m] else 0
  {
    if m in materias && CursaORegulariza(inscs, m) {
      var k :| 0 <= k < |materias| && materias[k] == m;
    }
    FilterMultiset(materias, Habilita(inscs), m);
  }
}
