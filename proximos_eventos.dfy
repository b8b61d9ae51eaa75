/**
 * The dashboard's upcoming-events card: the planned events from today to
 * the day before two weeks ahead, earliest first, and the HOY badge.
 */
module ProximosEventos {
  import opened Common
  import opened Dates
  import opened Api
  import Plan

  /** `parseLocalDate(ev.fecha).getTime()`; `ahora` is the instant the card renders at. */
  function Momento(ev: Plan.EventoPlan, ahora: int): Option<int>
  {
    MomentoLocal(ev.fecha, ahora)
  }

  /** The first filter: `isAfter(fechaEv, hoy) || fechaEv.getTime() === hoy.getTime()`. */
  function DesdeHoy(ahora: int): Plan.EventoPlan -> bool
  {
    (ev: Plan.EventoPlan) => Momento(ev, ahora).Some? && Momento(ev, ahora).value >= InicioDelDia(ahora)
  }

  /** The second filter: `isBefore(fecha, addDays(hoy, 14))`. */
  function AntesDelLimite(ahora: int): Plan.EventoPlan -> bool
  {
    (ev: Plan.EventoPlan) => Momento(ev, ahora).Some? && Momento(ev, ahora).value < InicioDelDia(ahora) + 14 * MsDia
  }

  /** Both filters at once. */
  predicate EnVentana(ev: Plan.EventoPlan, ahora: int)
  {
    Momento(ev, ahora).Some? && InicioDelDia(ahora) <= Momento(ev, ahora).value < InicioDelDia(ahora) + 14 * MsDia
  }

  function Ventana(ahora: int): Plan.EventoPlan -> bool
  {
    (ev: Plan.EventoPlan) => EnVentana(ev, ahora)
  }

  /** The comparator `parseLocalDate(a.fecha) - parseLocalDate(b.fecha)`; every kept event has an instant. */
  function Clave(ev: Plan.EventoPlan, ahora: int): int
  {
    if Momento(ev, ahora).Some? then Momento(ev, ahora).value else 0
  }

  function AntesQue(ahora: int): (Plan.EventoPlan, Plan.EventoPlan) -> bool
  {
    (a: Plan.EventoPlan, b: Plan.EventoPlan) => Clave(a, ahora) <= Clave(b, ahora)
  }

  /** `eventosFiltrados`. */
  function EventosFiltrados(eventos: seq<Plan.EventoPlan>, ahora: int): seq<Plan.EventoPlan>
  {
    SortBy(Filter(Filter(eventos, DesdeHoy(ahora)), AntesDelLimite(ahora)), AntesQue(ahora))
  }

  /**
   * An event is on the card iff it is in the list and its instant lies in
   * `[today, today + 14 days)`; the card repeats and loses no kept event and
   * lists them earliest first.
   */
  lemma VentanaExacta(eventos: seq<Plan.EventoPlan>, ahora: int, ev: Plan.EventoPlan)
    ensures ev in EventosFiltrados(eventos, ahora) <==> ev in eventos && EnVentana(ev, ahora)
    ensures multiset(EventosFiltrados(eventos, ahora)) == multiset(Filter(eventos, Ventana(ahora)))
    ensures SortedBy(EventosFiltrados(eventos, ahora), AntesQue(ahora))
  {
    FilterFilter(eventos, DesdeHoy(ahora), AntesDelLimite(ahora), Ventana(ahora));
    var v := Filter(eventos, Ventana(ahora));
    assert TotalPreorder(AntesQue(ahora));
    SortBySorted(v, AntesQue(ahora));
    var r := EventosFiltrados(eventos, ahora);
    if ev in r {
      assert ev in multiset(v);
    }
    if ev in eventos && EnVentana(ev, ahora) {
      assert ev in multiset(r);
    }
  }

  /**
   * The window by date: a dated event is in it iff its date is one of the
   * fourteen days starting today; an undated one always is; an Invalid Date
   * never.
   */
  lemma VentanaPorFecha(ev: Plan.EventoPlan, ahora: int)
    ensures ParseSafeDate(ev.fecha).Valida? ==>
      (EnVentana(ev, ahora) <==> ahora / MsDia <= DayNumber(ParseSafeDate(ev.fecha).d) < ahora / MsDia + 14)
    ensures ev.fecha == [] ==> EnVentana(ev, ahora)
    ensures ParseSafeDate(ev.fecha).Invalida? ==> !EnVentana(ev, ahora)
  {
  }

  /** The HOY badge: the event's instant is today's midnight. */
  predicate EsHoy(ev: Plan.EventoPlan, ahora: int)
  {
    Momento(ev, ahora) == Some(InicioDelDia(ahora))
  }

  /**
   * A dated event shows HOY iff it falls today; an undated one stands for
   * the instant of rendering and shows it only when that is exactly
   * midnight.
   */
  lemma HoyExacto(ev: Plan.EventoPlan, ahora: int)
    ensures ParseSafeDate(ev.fecha).Valida? ==> (EsHoy(ev, ahora) <==> DayNumber(ParseSafeDate(ev.fecha).d) == ahora / MsDia)
    ensures ev.fecha == [] ==> (EsHoy(ev, ahora) <==> ahora % MsDia == 0)
    ensures EsHoy(ev, ahora) ==> EnVentana(ev, ahora)
  {
    if ParseSafeDate(ev.fecha).Valida? {
      var n := DayNumber(ParseSafeDate(ev.fecha).d);
      var h := ahora / MsDia;
      assert n * MsDia == h * MsDia <==> n == h;
    }
  }
}
