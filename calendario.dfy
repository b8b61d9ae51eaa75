/**
 * The academic calendar page: the month grid with its leading blanks and
 * one cell per day holding that day's events, split into the generic
 * events of the imported calendar and the user's own, and the month
 * navigation of the fixed year.
 */
module Calendario {
  import opened Common
  import opened Strings
  import opened Dates
  import Api

  /** An event of the calendar endpoint. */
  datatype EventoCal = EventoCal(fecha: string, tipo: string, esPersonal: bool, actividad: string)

  /** A day cell of the grid. */
  datatype Celda = Celda(dia: int, fecha: string, ev: seq<EventoCal>)

  /** `useState(2026)`: the year is never changed. */
  const Anio: nat := 2026

  /** `${año}-${String(mes + 1).padStart(2, '0')}-${String(d).padStart(2, '0')}`. */
  function FechaCelda(mes: int, d: int): string
    requires 0 <= mes < 12 && d >= 1
  {
    NatToString(Anio) + "-" + PadStart(NatToString(mes + 1), 2, '0') + "-" + PadStart(NatToString(d), 2, '0')
  }

  function DelDia(f: string): EventoCal -> bool
  {
    (e: EventoCal) => e.fecha == f
  }

  function CeldaDe(mes: int, d: int, eventos: seq<EventoCal>): Celda
    requires 0 <= mes < 12 && d >= 1
  {
    Celda(d, FechaCelda(mes, d), Filter(eventos, DelDia(FechaCelda(mes, d))))
  }

  /** `new Date(año, mes, 1).getDay()`. */
  function PrimerDia(mes: int): int
  {
    JsWeekday(Date(Anio, mes + 1, 1))
  }

  /** `new Date(año, mes + 1, 0).getDate()`: the last day of the month. */
  function UltimoDia(mes: int): int
  {
    DaysInMonth(Anio, mes + 1)
  }

  /**
   * `getDias()`: `primerDia` blanks, then one cell per day of the month, so
   * the first day falls in its weekday's column.
   */
  method GetDias(mes: int, eventos: seq<EventoCal>) returns (celdas: seq<Option<Celda>>)
    requires 0 <= mes < 12
    ensures |celdas| == PrimerDia(mes) + UltimoDia(mes)
    ensures Grilla(celdas, mes, PrimerDia(mes), eventos)
  {
    var primerDia := PrimerDia(mes);
    var ultimoDia := UltimoDia(mes);
    celdas := Celdas(mes, primerDia, ultimoDia, eventos);
  }

  /**
   * The first `blancos` entries are blanks and entry `k` after them is the
   * cell of day `k - blancos + 1`.
   */
  predicate Grilla(celdas: seq<Option<Celda>>, mes: int, blancos: int, eventos: seq<EventoCal>)
    requires 0 <= mes < 12
  {
    0 <= blancos <= |celdas| &&
    (forall k :: 0 <= k < blancos ==> celdas[k].None?) &&
    (forall k :: blancos <= k < |celdas| ==> celdas[k] == Some(CeldaDe(mes, k - blancos + 1, eventos)))
  }

  /** The two loops of `getDias`, given the weekday of the 1st and the length of the month. */
  method Celdas(mes: int, primerDia: nat, ultimoDia: nat, eventos: seq<EventoCal>) returns (celdas: seq<Option<Celda>>)
    requires 0 <= mes < 12
    ensures |celdas| == primerDia + ultimoDia
    ensures Grilla(celdas, mes, primerDia, eventos)
  {
    celdas := [];
    var i := 0;
    while i < primerDia
      invariant 0 <= i <= primerDia
      invariant |celdas| == i && forall k :: 0 <= k < i ==> celdas[k].None?
    {
      celdas := celdas + [None];
      i := i + 1;
    }
    var d := 1;
    while d <= ultimoDia
      invariant 1 <= d <= ultimoDia + 1
      invariant |celdas| == primerDia + d - 1
      invariant Grilla(celdas, mes, primerDia, eventos)
    {
      GrillaSnoc(celdas, mes, primerDia, eventos, d);
      celdas := celdas + [Some(CeldaDe(mes, d, eventos))];
      d := d + 1;
    }
  }

  /** Appending the cell of the next day keeps the grid. */
  lemma GrillaSnoc(celdas: seq<Option<Celda>>, mes: int, blancos: int, eventos: seq<EventoCal>, d: int)
    requires 0 <= mes < 12 && d >= 1
    requires Grilla(celdas, mes, blancos, eventos) && |celdas| == blancos + d - 1
    ensures Grilla(celdas + [Some(CeldaDe(mes, d, eventos))], mes, blancos, eventos)
  {
    var c := celdas + [Some(CeldaDe(mes, d, eventos))];
    forall k | blancos <= k < |c| ensures c[k] == Some(CeldaDe(mes, k - blancos + 1, eventos)) {
      if k < |celdas| {
        assert c[k] == celdas[k];
      }
    }
  }

  lemma AnioTexto()
    ensures NatToString(Anio) == "2026"
  {
    assert NatToString(2) == "2";
    assert NatToString(20) == "20";
    assert NatToString(202) == "202";
  }

  /**
   * A day cell's key is the `YYYY-MM-DD` text of its date, which reads back
   * as that date, and its events are exactly those with that key.
   */
  lemma CeldaCorrecta(mes: int, d: int, eventos: seq<EventoCal>, e: EventoCal)
    requires 0 <= mes < 12 && 1 <= d <= UltimoDia(mes)
    ensures CeldaDe(mes, d, eventos).fecha == FormatYmd(Date(Anio, mes + 1, d))
    ensures Api.ParseSafeDate(CeldaDe(mes, d, eventos).fecha) == Api.Valida(Date(Anio, mes + 1, d))
    ensures e in CeldaDe(mes, d, eventos).ev <==> e in eventos && e.fecha == CeldaDe(mes, d, eventos).fecha
  {
    AnioTexto();
    assert PadStart(NatToString(Anio), 4, '0') == NatToString(Anio);
    assert ValidDate(Date(Anio, mes + 1, d));
    Api.ParseSafeDateFormat(Date(Anio, mes + 1, d));
    var r := CeldaDe(mes, d, eventos).ev;
    if e in r {
      var k :| 0 <= k < |r| && r[k] == e;
    }
  }

  predicate Personal(e: EventoCal) { e.esPersonal }

  predicate Generico(e: EventoCal) { !e.esPersonal }

  /** The coloured bands and the text lines of a cell lose and repeat no event. */
  lemma ReparteEventos(ev: seq<EventoCal>)
    ensures multiset(Filter(ev, Generico)) + multiset(Filter(ev, Personal)) == multiset(ev)
    ensures |Filter(ev, Generico)| + |Filter(ev, Personal)| == |ev|
    ensures forall i :: 0 <= i < |Filter(ev, Personal)| ==> Filter(ev, Personal)[i].esPersonal
    ensures forall i :: 0 <= i < |Filter(ev, Generico)| ==> !Filter(ev, Generico)[i].esPersonal
  {
    forall x ensures (multiset(Filter(ev, Generico)) + multiset(Filter(ev, Personal)))[x] == multiset(ev)[x] {
      FilterMultiset(ev, Generico, x);
      FilterMultiset(ev, Personal, x);
    }
    assert multiset(Filter(ev, Generico)) + multiset(Filter(ev, Personal)) == multiset(ev);
    assert |multiset(Filter(ev, Generico)) + multiset(Filter(ev, Personal))| == |multiset(ev)|;
  }

  /** The arrows: the month wraps around and the year stays. */
  function MesAnterior(m: int): int { if m == 0 then 11 else m - 1 }

  function MesSiguiente(m: int): int { if m == 11 then 0 else m + 1 }

  /** Both arrows keep the month in `0..11` and undo each other; December is followed by January of the same year. */
  lemma Navegacion(m: int)
    requires 0 <= m <= 11
    ensures 0 <= MesAnterior(m) <= 11 && 0 <= MesSiguiente(m) <= 11
    ensures MesSiguiente(MesAnterior(m)) == m && MesAnterior(MesSiguiente(m)) == m
    ensures MesSiguiente(11) == 0 && MesAnterior(0) == 11
  {
  }

  /** The page's month state. */
  class Pagina {
    var mesActual: int

    predicate Valido()
      reads this
    {
      0 <= mesActual <= 11
    }

    /** `useState(new Date().getMonth())`. */
    constructor(mesHoy: int)
      requires 0 <= mesHoy <= 11
      ensures mesActual == mesHoy && Valido()
    {
      mesActual := mesHoy;
    }

    method Anterior()
      requires Valido()
      modifies this
      ensures mesActual == MesAnterior(old(mesActual)) && Valido()
    {
      mesActual := if mesActual == 0 then 11 else mesActual - 1;
    }

    method Siguiente()
      requires Valido()
      modifies this
      ensures mesActual == MesSiguiente(old(mesActual)) && Valido()
    {
      mesActual := if mesActual == 11 then 0 else mesActual + 1;
    }

    /** The grid of the month shown. */
    method Dias(eventos: seq<EventoCal>) returns (celdas: seq<Option<Celda>>)
      requires Valido()
      ensures |celdas| == PrimerDia(mesActual) + UltimoDia(mesActual)
      ensures Grilla(celdas, mesActual, PrimerDia(mesActual), eventos)
    {
      celdas := GetDias(mesActual, eventos);
    }
  }
}
