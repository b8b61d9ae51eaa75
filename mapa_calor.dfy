/**
 * The weekly heat map of study time: the minutes of the sessions of each
 * weekday, a scale whose top is at least an hour, a colour bucket per day,
 * and the tooltip and cell texts.
 */
module MapaCalor {
  import opened Common
  import opened Strings
  import opened Dates
  import opened Api

  /** A study session; `fecha` is empty when missing, and `duracionMinutos` may be missing. */
  datatype Sesion = Sesion(fecha: string, duracionMinutos: Option<int>)

  /** `getLocalDay(fechaStr)`: -1 without a date, `None` for the NaN of an Invalid Date, else the weekday (0 Sunday). */
  function DiaLocal(fecha: string): (r: Option<int>)
    ensures r.Some? ==> -1 <= r.value < 7
    ensures fecha == [] <==> r == Some(-1)
  {
    match ParseSafeDate(fecha)
    case Nula => Some(-1)
    case Invalida => None
    case Valida(d) => Some(JsWeekday(d))
  }

  /** `s.duracion_minutos || 0`. */
  function Duracion(s: Sesion): int
  {
    if s.duracionMinutos.None? then 0 else s.duracionMinutos.value
  }

  function DelDia(idx: int): Sesion -> bool
  {
    (s: Sesion) => DiaLocal(s.fecha) == Some(idx)
  }

  /** `minutosPorDia`: for each of the seven weekdays, the minutes of its sessions. */
  function MinutosPorDia(sesiones: seq<Sesion>): (r: seq<int>)
    ensures |r| == 7
    ensures forall i :: 0 <= i < 7 ==> r[i] == SumInt(Filter(sesiones, DelDia(i)), Duracion)
  {
    seq(7, i requires 0 <= i < 7 => SumInt(Filter(sesiones, DelDia(i)), Duracion))
  }

  /** One more session adds its minutes to its own weekday and to no other. */
  lemma AgregarSesion(sesiones: seq<Sesion>, s: Sesion, i: int)
    requires 0 <= i < 7
    ensures MinutosPorDia(sesiones + [s])[i]
         == MinutosPorDia(sesiones)[i] + (if DiaLocal(s.fecha) == Some(i) then Duracion(s) else 0)
  {
    var f := Filter(sesiones, DelDia(i));
    FilterAppend(sesiones, [s], DelDia(i));
    if DiaLocal(s.fecha) == Some(i) {
      assert Filter([s], DelDia(i)) == [s];
      var g := f + [s];
      SumIntSnoc(g, |g|, Duracion);
      assert g[..|g|] == g && g[..|g| - 1] == f;
    } else {
      assert Filter([s], DelDia(i)) == [];
      assert f + [] == f;
    }
  }

  /** A session without a date has weekday -1 and adds to no day of the map. */
  lemma SinFechaNoCuenta(sesiones: seq<Sesion>, s: Sesion)
    requires s.fecha == []
    ensures MinutosPorDia(sesiones + [s]) == MinutosPorDia(sesiones)
  {
    forall i | 0 <= i < 7
      ensures MinutosPorDia(sesiones + [s])[i] == MinutosPorDia(sesiones)[i]
    {
      AgregarSesion(sesiones, s, i);
    }
  }

  /** `Math.max(...xs, 60)`. */
  function MaxDesde(xs: seq<int>, m: int): (r: int)
    ensures r >= m && forall i :: 0 <= i < |xs| ==> xs[i] <= r
    ensures r == m || exists i :: 0 <= i < |xs| && xs[i] == r
  {
    if xs == [] then m
    else
      var resto := MaxDesde(xs[1..], m);
      assert forall i :: 1 <= i < |xs| ==> xs[i] == xs[1..][i - 1];
      if xs[0] > resto then xs[0] else resto
  }

  /** `maxMinutos`: at least an hour, and at least every day's total. */
  function MaxMinutos(sesiones: seq<Sesion>): (r: int)
    ensures r >= 60
    ensures forall i :: 0 <= i < 7 ==> MinutosPorDia(sesiones)[i] <= r
  {
    MaxDesde(MinutosPorDia(sesiones), 60)
  }

  /** The five styles of `getColor`, from no activity to the top quarter. */
  datatype Color = Vacio | Bajo | Medio | Alto | Maximo

  /** `getColor(minutos)`: empty for 0, then by `minutos / maxMinutos` against 0.25, 0.5 and 0.75. */
  function GetColor(minutos: real, maxMinutos: real): Color
    requires maxMinutos > 0.0
  {
    if minutos == 0.0 then Vacio
    else
      var intensidad := minutos / maxMinutos;
      if intensidad < 0.25 then Bajo
      else if intensidad < 0.5 then Medio
      else if intensidad < 0.75 then Alto
      else Maximo
  }

  function Nivel(c: Color): nat
  {
    match c
    case Vacio => 0
    case Bajo => 1
    case Medio => 2
    case Alto => 3
    case Maximo => 4
  }

  /** The buckets in integer form: `4 * m < max`, `2 * m < max`, `4 * m < 3 * max`. */
  lemma ColorEntero(m: int, max: int)
    requires max > 0 && m != 0
    ensures GetColor(m as real, max as real) == Bajo <==> 4 * m < max
    ensures GetColor(m as real, max as real) == Medio <==> max <= 4 * m && 2 * m < max
    ensures GetColor(m as real, max as real) == Alto <==> max <= 2 * m && 4 * m < 3 * max
    ensures GetColor(m as real, max as real) == Maximo <==> 3 * max <= 4 * m
  {
    var r, mx := m as real, max as real;
    CocienteMenor(r, mx, 0.25);
    CocienteMenor(r, mx, 0.5);
    CocienteMenor(r, mx, 0.75);
  }

  lemma CocienteMenor(r: real, mx: real, c: real)
    requires mx > 0.0
    ensures r / mx < c <==> r < c * mx
  {
    var x := r / mx;
    assert r == x * mx;
    if x < c {
      assert (c - x) * mx > 0.0;
    } else {
      assert (x - c) * mx >= 0.0;
    }
  }

  /** More minutes never fall in a paler bucket. */
  lemma ColorMonotono(a: real, b: real, max: real)
    requires max > 0.0 && 0.0 < a <= b
    ensures Nivel(GetColor(a, max)) <= Nivel(GetColor(b, max))
  {
    assert a / max <= b / max by {
      assert a / max * max == a && b / max * max == b;
    }
  }

  /** The legend's five swatches `[0, 0.2, 0.5, 0.8, 1] * maxMinutos`. */
  function Leyenda(maxMinutos: real): seq<Color>
    requires maxMinutos > 0.0
  {
    [GetColor(0.0 * maxMinutos, maxMinutos), GetColor(0.2 * maxMinutos, maxMinutos),
     GetColor(0.5 * maxMinutos, maxMinutos), GetColor(0.8 * maxMinutos, maxMinutos),
     GetColor(1.0 * maxMinutos, maxMinutos)]
  }

  /**
   * Whatever the scale, the legend shows the empty, the low, the high and
   * twice the top style: 0.5 falls past the `< 0.5` test, so the medium
   * style never appears in it.
   */
  lemma LeyendaFija(maxMinutos: real)
    requires maxMinutos > 0.0
    ensures Leyenda(maxMinutos) == [Vacio, Bajo, Alto, Maximo, Maximo]
  {
    assert 0.2 * maxMinutos / maxMinutos == 0.2;
    assert 0.5 * maxMinutos / maxMinutos == 0.5;
    assert 0.8 * maxMinutos / maxMinutos == 0.8;
    assert 1.0 * maxMinutos / maxMinutos == 1.0;
  }

  /** `formatTiempo(totalMinutos)`: the tooltip text. */
  function FormatTiempo(totalMinutos: int): string
  {
    if totalMinutos == 0 then "Sin actividad"
    else
      var horas := totalMinutos / 60;
      var mins := JsRem(totalMinutos, 60);
      if horas == 0 then IntToString(mins) + "m"
      else IntToString(horas) + "h " + (if mins > 0 then IntToString(mins) + "m" else "")
  }

  /**
   * For a positive time: below an hour only the minutes; from an hour on
   * the hours and, only when there are any, the remaining minutes, so whole
   * hours keep a trailing space.
   */
  lemma FormatTiempoPositivo(h: nat, m: nat)
    requires m < 60 && h * 60 + m > 0
    ensures h == 0 ==> FormatTiempo(m) == NatToString(m) + "m"
    ensures h > 0 && m > 0 ==> FormatTiempo(h * 60 + m) == NatToString(h) + "h " + NatToString(m) + "m"
    ensures h > 0 && m == 0 ==> FormatTiempo(h * 60) == NatToString(h) + "h "
  {
    if h == 0 {
      TiempoMinutos(m);
    } else if m > 0 {
      TiempoHorasMinutos(h, m);
    } else {
      TiempoHoras(h);
    }
  }

  lemma TiempoMinutos(m: nat)
    requires 0 < m < 60
    ensures FormatTiempo(m) == NatToString(m) + "m"
  {
    HorasMinutos(0, m);
  }

  lemma TiempoHorasMinutos(h: nat, m: nat)
    requires h > 0 && 0 < m < 60
    ensures FormatTiempo(h * 60 + m) == NatToString(h) + "h " + NatToString(m) + "m"
  {
    HorasMinutos(h, m);
  }

  lemma TiempoHoras(h: nat)
    requires h > 0
    ensures FormatTiempo(h * 60) == NatToString(h) + "h "
  {
    var t := h * 60;
    HorasMinutos(h, 0);
    assert t / 60 == h;
    assert JsRem(t, 60) == 0;
    assert t != 0;
    var nh := IntToString(h) + "h ";
    assert FormatTiempo(t) == nh + "";
    assert nh + "" == nh;
  }

  /** The hours and minutes of `h * 60 + m` read back as `h` and `m`. */
  lemma HorasMinutos(h: nat, m: nat)
    requires m < 60
    ensures (h * 60 + m) / 60 == h && (h * 60 + m) % 60 == m
  {
  }

  /** Only no time at all reads "Sin actividad": every other text ends in `m` or in the space after `h`. */
  lemma SinActividadSoloCero(t: int)
    ensures FormatTiempo(t) == "Sin actividad" <==> t == 0
  {
    if t != 0 {
      var s := FormatTiempo(t);
      assert s[|s| - 1] == 'm' || s[|s| - 1] == ' ';
      assert "Sin actividad"[12] == 'd';
    }
  }

  /** The text inside a cell: whole hours from 60 minutes, minutes below, nothing for 0. */
  function EtiquetaCelda(mins: int): (r: string)
    ensures mins <= 0 <==> r == ""
  {
    if mins > 0 then (if mins >= 60 then IntToString(mins / 60) + "h" else IntToString(mins) + "m") else ""
  }

  /** A cell shows the head of its tooltip: the hours with their `h`, or the whole minutes below an hour. */
  lemma EtiquetaEnTooltip(mins: int)
    requires mins > 0
    ensures mins >= 60 ==> FormatTiempo(mins)[..|EtiquetaCelda(mins)|] == EtiquetaCelda(mins)
    ensures mins < 60 ==> FormatTiempo(mins) == EtiquetaCelda(mins)
  {
    if mins >= 60 {
      var e := EtiquetaCelda(mins);
      var t := FormatTiempo(mins);
      assert t == e + " " + (if JsRem(mins, 60) > 0 then IntToString(JsRem(mins, 60)) + "m" else "");
    }
  }
}
