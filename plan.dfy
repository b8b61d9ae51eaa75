/**
 * The planning page: the list of planned events sorted by date with the
 * days left to each, the upcoming part of that list, the calendar tiles
 * marked by an event, and the create-or-update choice of its save.
 */
module Plan {
  import opened Common
  import opened Strings
  import opened Dates
  import opened Api
  import ModalEventoPlan

  /** A planned event as the `planificacion` endpoint lists it. */
  datatype EventoPlan = EventoPlan(id: string, titulo: string, fecha: string, tipo: string, color: string)

  /** An entry of `todosLosEventos`: the event, `objFecha.getTime()` and `diasRestantes`; `None` is NaN. */
  datatype Fila = Fila(ev: EventoPlan, objFecha: Option<int>, diasRestantes: Option<int>)

  /** The entry of one event; `ahora` is the current instant and `startOfDay(ahora)` is today. */
  function FilaDe(ev: EventoPlan, ahora: int): Fila
  {
    var t := MomentoLocal(ev.fecha, ahora);
    Fila(ev, t, if t.Some? then Some(DiferenciaDias(t.value, InicioDelDia(ahora))) else None)
  }

  /** `eventos.map(...)`. */
  function Filas(eventos: seq<EventoPlan>, ahora: int): seq<Fila>
  {
    seq(|eventos|, i requires 0 <= i < |eventos| => FilaDe(eventos[i], ahora))
  }

  /**
   * The comparator `a.objFecha - b.objFecha`. With an Invalid Date it is
   * NaN and ECMAScript leaves the order to the engine; the model places
   * such an entry as if at instant 0.
   */
  function Clave(f: Fila): int
  {
    if f.objFecha.Some? then f.objFecha.value else 0
  }

  predicate FilaLe(a: Fila, b: Fila)
  {
    Clave(a) <= Clave(b)
  }

  lemma FilaLeTotal()
    ensures TotalPreorder(FilaLe)
  {
  }

  /** `todosLosEventos`. */
  function TodosLosEventos(eventos: seq<EventoPlan>, ahora: int): seq<Fila>
  {
    SortBy(Filas(eventos, ahora), FilaLe)
  }

  /**
   * The days left to an event: none for an Invalid Date, 0 for an event
   * without a date (it stands for the current instant), and otherwise the
   * difference between its date's and today's day ordinals.
   */
  lemma DiasRestantesCasos(ev: EventoPlan, ahora: int)
    ensures ev.fecha == [] ==> FilaDe(ev, ahora).diasRestantes == Some(0)
    ensures ParseSafeDate(ev.fecha).Invalida? <==> FilaDe(ev, ahora).diasRestantes.None?
    ensures ParseSafeDate(ev.fecha).Valida? ==>
      FilaDe(ev, ahora).diasRestantes == Some(DayNumber(ParseSafeDate(ev.fecha).d) - ahora / MsDia)
  {
    DiferenciaMedianoches(0, 0, ahora);
    if ParseSafeDate(ev.fecha).Valida? {
      DiferenciaMedianoches(DayNumber(ParseSafeDate(ev.fecha).d), ahora / MsDia, ahora);
    }
  }

  /**
   * `todosLosEventos` lists every event once, earliest first, each with the
   * instant and the days left that its own date gives.
   */
  lemma TodosOrdenados(eventos: seq<EventoPlan>, ahora: int)
    ensures |TodosLosEventos(eventos, ahora)| == |eventos|
    ensures multiset(TodosLosEventos(eventos, ahora)) == multiset(Filas(eventos, ahora))
    ensures SortedBy(TodosLosEventos(eventos, ahora), FilaLe)
    ensures forall k :: 0 <= k < |TodosLosEventos(eventos, ahora)| ==>
      TodosLosEventos(eventos, ahora)[k].ev in eventos &&
      TodosLosEventos(eventos, ahora)[k] == FilaDe(TodosLosEventos(eventos, ahora)[k].ev, ahora)
  {
    FilaLeTotal();
    SortBySorted(Filas(eventos, ahora), FilaLe);
    var t := TodosLosEventos(eventos, ahora);
    var f := Filas(eventos, ahora);
    forall k | 0 <= k < |t| ensures t[k].ev in eventos && t[k] == FilaDe(t[k].ev, ahora) {
      assert t[k] in multiset(f);
      var i :| 0 <= i < |f| && f[i] == t[k];
      assert f[i] == FilaDe(eventos[i], ahora);
    }
  }

  predicate Futura(f: Fila)
  {
    f.diasRestantes.Some? && f.diasRestantes.value >= 0
  }

  /** `eventosFuturos`. */
  function EventosFuturos(eventos: seq<EventoPlan>, ahora: int): seq<Fila>
  {
    Filter(TodosLosEventos(eventos, ahora), Futura)
  }

  /**
   * The upcoming list is the entries with no negative day count, still
   * earliest first; an event is in it iff it has no date or a date that is
   * not before today.
   */
  lemma FuturosExactos(eventos: seq<EventoPlan>, ahora: int, f: Fila)
    ensures f in EventosFuturos(eventos, ahora) <==> f in TodosLosEventos(eventos, ahora) && Futura(f)
    ensures SortedBy(EventosFuturos(eventos, ahora), FilaLe)
    ensures f in TodosLosEventos(eventos, ahora) ==>
      (Futura(f) <==> f.ev.fecha == [] ||
                      (ParseSafeDate(f.ev.fecha).Valida? && DayNumber(ParseSafeDate(f.ev.fecha).d) >= ahora / MsDia))
  {
    var t := TodosLosEventos(eventos, ahora);
    if f in t {
      var k :| 0 <= k < |t| && t[k] == f;
    }
    FilaLeTotal();
    TodosOrdenados(eventos, ahora);
    FilterOrdenado(t, FilaLe, Futura);
    if f in t {
      DiasRestantesCasos(f.ev, ahora);
    }
  }

  // ----- Calendar tiles -----

  /** The tile key `${y}-${m}-${d}`: the year is not padded, month and day are. */
  function ClaveTile(d: Date): string
    requires d.year >= 0 && 1 <= d.month && 1 <= d.day
  {
    NatToString(d.year) + "-" + PadStart(NatToString(d.month), 2, '0') + "-" + PadStart(NatToString(d.day), 2, '0')
  }

  function ConFecha(clave: string): EventoPlan -> bool
  {
    (e: EventoPlan) => e.fecha == clave
  }

  /** `tileClassName`: the tile is marked when `eventos.find(e => e.fecha === key)` finds one. */
  predicate Marcada(eventos: seq<EventoPlan>, d: Date)
    requires d.year >= 0 && 1 <= d.month && 1 <= d.day
  {
    Find(eventos, ConFecha(ClaveTile(d))).Some?
  }

  lemma DigitosAnio(y: nat)
    requires y >= 1000
    ensures |NatToString(y)| >= 4
  {
    var a: nat := y / 10;
    var b: nat := a / 10;
    assert b >= 10;
    UnDigitoMas(y);
    UnDigitoMas(a);
    UnDigitoMas(b);
  }

  lemma UnDigitoMas(n: nat)
    requires n >= 10
    ensures |NatToString(n)| == |NatToString(n / 10)| + 1
  {
  }

  /**
   * A tile is marked iff some event's date text equals its key; from year
   * 1000 on the key is the zero-padded `YYYY-MM-DD` text of the date, so
   * every event that marks a tile is listed at that day's midnight.
   */
  lemma TileMarcada(eventos: seq<EventoPlan>, d: Date, ahora: int)
    requires ValidDate(d) && d.year >= 0
    ensures Marcada(eventos, d) <==> exists i :: 0 <= i < |eventos| && eventos[i].fecha == ClaveTile(d)
    ensures d.year >= 1000 ==> ClaveTile(d) == FormatYmd(d)
    ensures d.year >= 1000 ==> forall i :: 0 <= i < |eventos| && eventos[i].fecha == ClaveTile(d) ==>
      FilaDe(eventos[i], ahora).objFecha == Some(DayNumber(d) * MsDia) &&
      FilaDe(eventos[i], ahora).diasRestantes == Some(DayNumber(d) - ahora / MsDia)
  {
    if d.year >= 1000 {
      DigitosAnio(d.year);
      assert PadStart(NatToString(d.year), 4, '0') == NatToString(d.year);
      MomentoLocalCasos(FormatYmd(d), ahora, d);
      DiferenciaMedianoches(DayNumber(d), ahora / MsDia, ahora);
    }
  }

  // ----- Saving -----

  /** What the mutation sends. */
  datatype Peticion = Actualizar(id: string, datos: ModalEventoPlan.Payload) | Crear(datos: ModalEventoPlan.Payload)

  /** `mutationFn`: `update(data.id, data)` when `data.id` is truthy, `create(data)` otherwise. */
  function Mutacion(p: ModalEventoPlan.Payload): Peticion
  {
    if p.id.Some? && p.id.value != "" then Actualizar(p.id.value, p) else Crear(p)
  }

  /**
   * A new event is created and an edited one updated under its own id,
   * unless that id is empty; the payload goes unchanged either way.
   */
  lemma MutacionCorrecta(f: ModalEventoPlan.Form, editar: Option<ModalEventoPlan.EventoEditar>)
    requires ModalEventoPlan.Enviar(f, editar).Some?
    ensures var m := Mutacion(ModalEventoPlan.Enviar(f, editar).value);
      m.datos == ModalEventoPlan.Enviar(f, editar).value &&
      (m.Actualizar? <==> editar.Some? && editar.value.id != "") &&
      (m.Actualizar? ==> m.id == editar.value.id)
  {
  }
}
