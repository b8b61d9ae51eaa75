/**
 * The flashcard study screen: the deck of the selected subject, filtered by
 * difficulty and ordered with the cards due for review first, and the study
 * session that walks through it, counting right and wrong answers and the
 * streaks of right ones, driven by the buttons and the keyboard.
 */
module Flashcards {
  import opened Common

  /**
   * A flashcard row. `proximaRevision` is the instant of `new Date(proxima_revision)`,
   * or `None` for an Invalid Date, which compares false with everything.
   */
  datatype Flashcard = Flashcard(id: string, materiaId: string, dificultad: int, proximaRevision: Option<int>)

  // ----- The deck -----

  /** The difficulty modes; anything but the three named ones keeps every card. */
  predicate Admite(modo: string, dificultad: int)
  {
    if modo == "facil" then dificultad <= 2
    else if modo == "media" then dificultad == 3
    else if modo == "dificil" then dificultad >= 4
    else true
  }

  function DeMateria(materia: string): Flashcard -> bool
  {
    (f: Flashcard) => f.materiaId == materia
  }

  function EnModo(modo: string): Flashcard -> bool
  {
    (f: Flashcard) => Admite(modo, f.dificultad)
  }

  /** The card is due: its next review is not after `ahora`. */
  predicate Pendiente(f: Flashcard, ahora: int)
  {
    f.proximaRevision.Some? && f.proximaRevision.value <= ahora
  }

  /** The comparator of the non-random order: due cards first, then by ascending difficulty. */
  predicate Antes(ahora: int, a: Flashcard, b: Flashcard)
  {
    if Pendiente(a, ahora) != Pendiente(b, ahora) then Pendiente(a, ahora)
    else a.dificultad <= b.dificultad
  }

  function Orden(ahora: int): (Flashcard, Flashcard) -> bool
  {
    (a: Flashcard, b: Flashcard) => Antes(ahora, a, b)
  }

  /** `cardsMateria` in the non-random order: the subject's cards, the mode's filter, the sort. */
  function Mazo(cards: seq<Flashcard>, materia: string, modo: string, ahora: int): seq<Flashcard>
  {
    SortBy(Filter(Filter(cards, DeMateria(materia)), EnModo(modo)), Orden(ahora))
  }

  lemma OrdenTotal(ahora: int)
    ensures TotalPreorder(Orden(ahora))
  {
  }

  /** Filtering twice keeps exactly the elements that pass both filters. */
  lemma FiltroDoble(s: seq<Flashcard>, materia: string, modo: string, x: Flashcard)
    ensures multiset(Filter(Filter(s, DeMateria(materia)), EnModo(modo)))[x] ==
      if x.materiaId == materia && Admite(modo, x.dificultad) then multiset(s)[x] else 0
  {
    FilterMultiset(Filter(s, DeMateria(materia)), EnModo(modo), x);
    FilterMultiset(s, DeMateria(materia), x);
  }

  /**
   * The deck holds each card of the subject that the mode admits, as many
   * times as the input holds it, and nothing else.
   */
  lemma MazoContenido(cards: seq<Flashcard>, materia: string, modo: string, ahora: int, x: Flashcard)
    ensures multiset(Mazo(cards, materia, modo, ahora))[x] ==
      if x.materiaId == materia && Admite(modo, x.dificultad) then multiset(cards)[x] else 0
    ensures x in Mazo(cards, materia, modo, ahora) <==>
      x in cards && x.materiaId == materia && Admite(modo, x.dificultad)
  {
    FiltroDoble(cards, materia, modo, x);
    var m := Mazo(cards, materia, modo, ahora);
    assert x in m <==> multiset(m)[x] > 0;
    assert x in cards <==> multiset(cards)[x] > 0;
  }

  /** Adjacent order extends to every pair of a sorted deck. */
  lemma {:induction false} OrdenadoPares(m: seq<Flashcard>, ahora: int, i: int, j: int)
    requires SortedBy(m, Orden(ahora))
    requires 0 <= i < j < |m|
    ensures Antes(ahora, m[i], m[j])
    decreases j - i
  {
    if i + 1 < j {
      OrdenadoPares(m, ahora, i + 1, j);
      assert Antes(ahora, m[i], m[i + 1]);
    } else {
      assert Orden(ahora)(m[j - 1], m[j]);
    }
  }

  /**
   * Every due card of the deck comes before every card that is not due, and
   * among cards with the same status the difficulty never decreases.
   */
  lemma MazoOrdenado(cards: seq<Flashcard>, materia: string, modo: string, ahora: int, i: int, j: int)
    requires 0 <= i < j < |Mazo(cards, materia, modo, ahora)|
    ensures var m := Mazo(cards, materia, modo, ahora);
      (Pendiente(m[j], ahora) ==> Pendiente(m[i], ahora)) &&
      (Pendiente(m[i], ahora) == Pendiente(m[j], ahora) ==> m[i].dificultad <= m[j].dificultad)
  {
    OrdenTotal(ahora);
    SortBySorted(Filter(Filter(cards, DeMateria(materia)), EnModo(modo)), Orden(ahora));
    OrdenadoPares(Mazo(cards, materia, modo, ahora), ahora, i, j);
  }

  // ----- The session -----

  /** One answer of `historialRespuestas`; the response time and the timestamp are left out. */
  datatype Respuesta = Respuesta(flashcardId: string, correcta: bool)

  /** `estadisticas` without `tiempoPromedio`. */
  datatype Stats = Stats(total: nat, correctas: nat, incorrectas: nat, rachaActual: nat, mejorRacha: nat)

  datatype Sesion = Sesion(modoEstudio: bool, indice: nat, mostrarRespuesta: bool, mostrarEstadisticas: bool,
                           historial: seq<Respuesta>, stats: Stats)

  const StatsCero := Stats(0, 0, 0, 0, 0)

  const SesionInicial := Sesion(false, 0, false, false, [], StatsCero)

  function Max(a: nat, b: nat): nat { if a >= b then a else b }

  /** The counters after one more answer. */
  function Registrar(st: Stats, correcta: bool): Stats
  {
    var racha := if correcta then st.rachaActual + 1 else 0;
    Stats(st.total + 1, st.correctas + (if correcta then 1 else 0), st.incorrectas + (if correcta then 0 else 1),
          racha, Max(st.mejorRacha, racha))
  }

  /**
   * `handleSiguiente(correcta)`: nothing without a current card; otherwise the
   * answer is recorded, the card is turned face down, and the session moves to
   * the next card or, on the last one, to the summary.
   */
  function Siguiente(s: Sesion, mazo: seq<Flashcard>, correcta: bool): Sesion
  {
    if s.indice >= |mazo| then s
    else
      var t := s.(historial := s.historial + [Respuesta(mazo[s.indice].id, correcta)],
                  stats := Registrar(s.stats, correcta),
                  mostrarRespuesta := false);
      if s.indice < |mazo| - 1 then t.(indice := s.indice + 1) else t.(mostrarEstadisticas := true)
  }

  /** `handleAnterior`: one card back, unless on the first one. */
  function Anterior(s: Sesion): Sesion
  {
    if s.indice > 0 then s.(mostrarRespuesta := false, indice := s.indice - 1) else s
  }

  /** `handleVoltear`. */
  function Voltear(s: Sesion): Sesion
  {
    s.(mostrarRespuesta := !s.mostrarRespuesta)
  }

  /** What a key does while studying. */
  datatype Accion = Girar | Responder(correcta: bool) | Retroceder | Ignorar

  /** The `keydown` switch as written: `1` answers right and `2` answers wrong. */
  function AccionDeTecla(key: string): Accion
  {
    if key == " " || key == "Spacebar" then Girar
    else if key == "ArrowRight" then Responder(true)
    else if key == "ArrowLeft" then Retroceder
    else if key == "1" || key == "2" then Responder(key == "1")
    else Ignorar
  }

  /** The on-screen legend under the card: which answer each number key stands for. */
  function Leyenda(key: string): Option<bool>
  {
    if key == "1" then Some(false)      // "Incorrecto"
    else if key == "2" then Some(true)  // "Correcto"
    else None
  }

  /** The switch with the number keys as the legend shows them. */
  function AccionSegunLeyenda(key: string): Accion
  {
    if key == "1" || key == "2" then Responder(key == "2") else AccionDeTecla(key)
  }

  /** Every number key of the legend records the answer the legend names for it. */
  lemma LeyendaRespetada(key: string)
    requires Leyenda(key).Some?
    ensures AccionSegunLeyenda(key) == Responder(Leyenda(key).value)
  {
  }

  /** The corrected switch differs from the one as written only on the two number keys. */
  lemma LeyendaSoloNumeros(key: string)
    ensures AccionSegunLeyenda(key) != AccionDeTecla(key) <==> key == "1" || key == "2"
  {
  }

  /** As written, both number keys record the opposite of what the legend says. */
  lemma TeclasContraLeyenda(key: string)
    requires Leyenda(key).Some?
    ensures AccionDeTecla(key) == Responder(!Leyenda(key).value)
  {
  }

  function Aplicar(s: Sesion, mazo: seq<Flashcard>, a: Accion): Sesion
  {
    match a
    case Girar => Voltear(s)
    case Responder(c) => Siguiente(s, mazo, c)
    case Retroceder => Anterior(s)
    case Ignorar => s
  }

  /** `handleKeyDown`: keys only act in study mode. */
  function Tecla(s: Sesion, mazo: seq<Flashcard>, key: string): Sesion
  {
    if s.modoEstudio then Aplicar(s, mazo, AccionDeTecla(key)) else s
  }

  /** "Estudiar" is disabled on an empty deck. */
  function Estudiar(s: Sesion, mazo: seq<Flashcard>): Sesion
  {
    if |mazo| == 0 then s else s.(modoEstudio := true)
  }

  /** Clicking card `i` of the deck's list starts the session there. */
  function EstudiarDesde(s: Sesion, i: nat): Sesion
  {
    s.(indice := i, modoEstudio := true)
  }

  /** The back arrow of the study screen. */
  function Salir(s: Sesion): Sesion
  {
    s.(modoEstudio := false, indice := 0, mostrarRespuesta := false)
  }

  /** FINALIZAR: the summary closes, study mode ends and every counter starts over. */
  function Finalizar(s: Sesion): Sesion
  {
    s.(mostrarEstadisticas := false, modoEstudio := false, indice := 0, historial := [], stats := StatsCero)
  }

  /** REPETIR: as FINALIZAR, but study mode stays as it was. */
  function Repetir(s: Sesion): Sesion
  {
    s.(mostrarEstadisticas := false, indice := 0, historial := [], stats := StatsCero)
  }

  // ----- What the counters mean -----

  function EsAcierto(r: Respuesta): bool { r.correcta }

  function EsFallo(r: Respuesta): bool { !r.correcta }

  /** The answers `h[i..i+k]` are all right. */
  predicate Tramo(h: seq<Respuesta>, i: int, k: int)
  {
    0 <= i && 0 <= k && i + k <= |h| && forall j :: i <= j < i + k ==> h[j].correcta
  }

  /**
   * The counters agree with the answers given: the totals count them,
   * `rachaActual` is the run of right answers the history ends with, and
   * `mejorRacha` the longest run of right answers anywhere in it.
   */
  ghost predicate Coherente(st: Stats, h: seq<Respuesta>)
  {
    st.total == |h| && st.correctas == Count(h, EsAcierto) && st.incorrectas == Count(h, EsFallo) &&
    st.rachaActual <= |h| && Tramo(h, |h| - st.rachaActual, st.rachaActual) &&
    (st.rachaActual < |h| ==> !h[|h| - st.rachaActual - 1].correcta) &&
    st.mejorRacha <= |h| && (exists i :: Tramo(h, i, st.mejorRacha)) &&
    (forall i, k :: Tramo(h, i, k) ==> k <= st.mejorRacha)
  }

  /** The session never points past its deck, and its counters match its history. */
  ghost predicate Valida(s: Sesion, n: nat)
  {
    (s.indice < n || s.indice == 0) && Coherente(s.stats, s.historial)
  }

  lemma {:induction false} CountUno(h: seq<Respuesta>, r: Respuesta)
    ensures Count(h + [r], EsAcierto) == Count(h, EsAcierto) + (if r.correcta then 1 else 0)
    ensures Count(h + [r], EsFallo) == Count(h, EsFallo) + (if r.correcta then 0 else 1)
  {
    CountAppend(h, [r], EsAcierto);
    CountAppend(h, [r], EsFallo);
    assert [r][1..] == [];
  }

  /** A run that ends at the last answer is no longer than the trailing run. */
  lemma TramoFinal(h: seq<Respuesta>, racha: nat, i: int, k: int)
    requires racha <= |h| && (racha < |h| ==> !h[|h| - racha - 1].correcta)
    requires Tramo(h, i, k) && i + k == |h|
    ensures k <= racha
  {
  }

  /** One more answer keeps the counters coherent with the longer history. */
  lemma RegistrarCoherente(st: Stats, h: seq<Respuesta>, r: Respuesta)
    requires Coherente(st, h)
    ensures Coherente(Registrar(st, r.correcta), h + [r])
  {
    var h2 := h + [r];
    var st2 := Registrar(st, r.correcta);
    CountUno(h, r);
    var racha := st2.rachaActual;
    if r.correcta {
      assert forall j :: |h2| - racha <= j < |h2| ==> h2[j].correcta by {
        forall j | |h2| - racha <= j < |h2|
          ensures h2[j].correcta
        {
          if j < |h| {
            assert h2[j] == h[j];
          }
        }
      }
      if racha < |h2| {
        assert h2[|h2| - racha - 1] == h[|h| - st.rachaActual - 1];
      }
    }
    assert Tramo(h2, |h2| - racha, racha);
    var i0 :| Tramo(h, i0, st.mejorRacha);
    assert Tramo(h2, i0, st.mejorRacha);
    if st2.mejorRacha == racha {
      assert Tramo(h2, |h2| - racha, st2.mejorRacha);
    } else {
      assert Tramo(h2, i0, st2.mejorRacha);
    }
    forall i, k | Tramo(h2, i, k)
      ensures k <= st2.mejorRacha
    {
      if i + k <= |h| {
        forall j | i <= j < i + k
          ensures h[j].correcta
        {
          assert h2[j] == h[j];
        }
        assert Tramo(h, i, k);
      } else {
        TramoFinal(h2, racha, i, k);
      }
    }
  }

  lemma CeroCoherente()
    ensures Coherente(StatsCero, [])
  {
    assert Tramo([], 0, 0);
  }

  /** Every way the screen changes the session keeps it valid for its deck. */
  lemma SiguienteValida(s: Sesion, mazo: seq<Flashcard>, correcta: bool)
    requires Valida(s, |mazo|)
    ensures Valida(Siguiente(s, mazo, correcta), |mazo|)
  {
    if s.indice < |mazo| {
      RegistrarCoherente(s.stats, s.historial, Respuesta(mazo[s.indice].id, correcta));
    }
  }

  lemma TeclaValida(s: Sesion, mazo: seq<Flashcard>, key: string)
    requires Valida(s, |mazo|)
    ensures Valida(Tecla(s, mazo, key), |mazo|)
  {
    if s.modoEstudio && AccionDeTecla(key).Responder? {
      SiguienteValida(s, mazo, AccionDeTecla(key).correcta);
    }
  }

  lemma ReiniciosValidos(s: Sesion, n: nat, i: nat)
    requires Valida(s, n)
    requires i < n
    ensures Valida(Anterior(s), n) && Valida(Voltear(s), n) && Valida(Salir(s), n)
    ensures Valida(Finalizar(s), n) && Valida(Repetir(s), n) && Valida(EstudiarDesde(s, i), n)
  {
    CeroCoherente();
  }

  /**
   * The counters' own relations: right and wrong answers add up to the total,
   * and the current streak is never longer than the best one.
   */
  lemma CoherenteSuma(st: Stats, h: seq<Respuesta>)
    requires Coherente(st, h)
    ensures st.correctas + st.incorrectas == st.total
    ensures st.rachaActual <= st.mejorRacha <= st.total
    ensures st.rachaActual <= st.correctas
  {
    CountSplit(h);
    assert Tramo(h, |h| - st.rachaActual, st.rachaActual);
    TramoAciertos(h, |h| - st.rachaActual, st.rachaActual);
  }

  lemma {:induction false} CountSplit(h: seq<Respuesta>)
    ensures Count(h, EsAcierto) + Count(h, EsFallo) == |h|
  {
    if h != [] {
      CountSplit(h[1..]);
    }
  }

  /** A run of `k` right answers holds at least `k` of them. */
  lemma {:induction false} TramoAciertos(h: seq<Respuesta>, i: int, k: int)
    requires Tramo(h, i, k)
    ensures k <= Count(h, EsAcierto)
    decreases |h|
  {
    if k > 0 {
      assert h == [h[0]] + h[1..];
      if i == 0 {
        assert h[0].correcta;
        assert Tramo(h[1..], 0, k - 1) by {
          forall j | 0 <= j < k - 1
            ensures h[1..][j].correcta
          {
            assert h[1..][j] == h[j + 1];
          }
        }
        TramoAciertos(h[1..], 0, k - 1);
      } else {
        assert Tramo(h[1..], i - 1, k) by {
          forall j | i - 1 <= j < i - 1 + k
            ensures h[1..][j].correcta
          {
            assert h[1..][j] == h[j + 1];
          }
        }
        TramoAciertos(h[1..], i - 1, k);
      }
    }
  }

  // ----- Navigation -----

  /**
   * On any card but the last, answering moves to the following card; on the
   * last one it stays and opens the summary. Either way exactly one answer is
   * recorded, for the card on screen.
   */
  lemma SiguienteAvanza(s: Sesion, mazo: seq<Flashcard>, correcta: bool)
    requires s.indice < |mazo|
    ensures var t := Siguiente(s, mazo, correcta);
      t.historial == s.historial + [Respuesta(mazo[s.indice].id, correcta)] &&
      t.stats.total == s.stats.total + 1 && !t.mostrarRespuesta &&
      (s.indice + 1 < |mazo| ==> t.indice == s.indice + 1 && t.mostrarEstadisticas == s.mostrarEstadisticas) &&
      (s.indice + 1 == |mazo| ==> t.indice == s.indice && t.mostrarEstadisticas)
  {
  }

  /** Going back and then answering wrong returns to the same card. */
  lemma AnteriorSiguiente(s: Sesion, mazo: seq<Flashcard>)
    requires 0 < s.indice < |mazo|
    ensures Siguiente(Anterior(s), mazo, false).indice == s.indice
  {
  }

  /** `porcentajeExito`: the rounded share of right answers, 0 before any answer. */
  function PorcentajeExito(st: Stats): (p: int)
    requires st.correctas <= st.total
    ensures 0 <= p <= 100
    ensures st.total > 0 && st.correctas == st.total ==> p == 100
    ensures st.correctas == 0 ==> p == 0
    ensures st.total > 0 ==> p as real - 0.5 <= 100.0 * st.correctas as real / st.total as real < p as real + 0.5
  {
    if st.total > 0 then
      var q := st.correctas as real / st.total as real;
      var x := q * 100.0;
      assert q * st.total as real == st.correctas as real;
      assert x == 100.0 * st.correctas as real / st.total as real;
      assert q <= 1.0;
      assert st.correctas == st.total ==> q == 1.0 by {
        if st.correctas == st.total {
          assert q * st.total as real == 1.0 * st.total as real;
        }
      }
      RoundHalfUp(x)
    else 0
  }

  /** The class's session: the state variables of the component and its handlers. */
  class Sesiones {
    var modoEstudio: bool
    var indiceActual: nat
    var mostrarRespuesta: bool
    var mostrarEstadisticas: bool
    var historialRespuestas: seq<Respuesta>
    var estadisticas: Stats

    function State(): Sesion
      reads this
    {
      Sesion(modoEstudio, indiceActual, mostrarRespuesta, mostrarEstadisticas, historialRespuestas, estadisticas)
    }

    constructor ()
      ensures State() == SesionInicial
    {
      modoEstudio := false;
      indiceActual := 0;
      mostrarRespuesta := false;
      mostrarEstadisticas := false;
      historialRespuestas := [];
      estadisticas := StatsCero;
    }

    /** `handleSiguiente`; the delayed index change is taken as immediate. */
    method HandleSiguiente(mazo: seq<Flashcard>, correcta: bool)
      modifies this
      ensures State() == Siguiente(old(State()), mazo, correcta)
    {
      if indiceActual >= |mazo| {
        return;
      }
      var actual := mazo[indiceActual];
      historialRespuestas := historialRespuestas + [Respuesta(actual.id, correcta)];
      var prev := estadisticas;
      var nuevaRacha := if correcta then prev.rachaActual + 1 else 0;
      estadisticas := Stats(prev.total + 1,
                            prev.correctas + (if correcta then 1 else 0),
                            prev.incorrectas + (if correcta then 0 else 1),
                            nuevaRacha,
                            if prev.mejorRacha >= nuevaRacha then prev.mejorRacha else nuevaRacha);
      mostrarRespuesta := false;
      if indiceActual < |mazo| - 1 {
        indiceActual := indiceActual + 1;
      } else {
        mostrarEstadisticas := true;
      }
    }

    method HandleAnterior()
      modifies this
      ensures State() == Anterior(old(State()))
    {
      if indiceActual > 0 {
        mostrarRespuesta := false;
        indiceActual := indiceActual - 1;
      }
    }

    method HandleVoltear()
      modifies this
      ensures State() == Voltear(old(State()))
    {
      mostrarRespuesta := !mostrarRespuesta;
    }

    /** `handleKeyDown`, the switch as written. */
    method HandleKeyDown(mazo: seq<Flashcard>, key: string)
      modifies this
      ensures State() == Tecla(old(State()), mazo, key)
    {
      if !modoEstudio {
        return;
      }
      if key == " " || key == "Spacebar" {
        HandleVoltear();
      } else if key == "ArrowRight" {
        HandleSiguiente(mazo, true);
      } else if key == "ArrowLeft" {
        HandleAnterior();
      } else if key == "1" || key == "2" {
        HandleSiguiente(mazo, key == "1");
      }
    }

    /** The FINALIZAR button of the summary. */
    method PulsarFinalizar()
      modifies this
      ensures State() == Finalizar(old(State()))
    {
      mostrarEstadisticas := false;
      modoEstudio := false;
      indiceActual := 0;
      historialRespuestas := [];
      estadisticas := StatsCero;
    }

    /** The REPETIR button of the summary. */
    method PulsarRepetir()
      modifies this
      ensures State() == Repetir(old(State()))
    {
      mostrarEstadisticas := false;
      indiceActual := 0;
      historialRespuestas := [];
      estadisticas := StatsCero;
    }
  }
}
