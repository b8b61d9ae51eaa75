/**
 * The "tiempo y dedicación" achievements: total study hours, an early
 * Sunday session and a long weekend day.
 */
module LogrosTiempo {
  import opened Common
  import opened Dates
  import opened LogrosDatos
  import opened LogrosDesafios

  /** `100_horas_estudio`, `500_` and `1000_`: some session, and the minutes over 60 reach `h`. */
  predicate HorasEstudio(sesiones: seq<Sesion>, h: real)
  {
    sesiones != [] && SumInt(sesiones, MinutosDe) as real / 60.0 >= h
  }

  /** Whole hours are sixty minutes each. */
  lemma HorasEstudioMinutos(sesiones: seq<Sesion>, h: nat)
    ensures HorasEstudio(sesiones, h as real) <==> sesiones != [] && SumInt(sesiones, MinutosDe) >= 60 * h
  {
  }

  /** Another session that lasts no less than zero minutes keeps the total. */
  lemma HorasEstudioMonotonas(sesiones: seq<Sesion>, s: Sesion, h: real)
    requires s.duracionMinutos >= 0 && HorasEstudio(sesiones, h)
    ensures HorasEstudio(sesiones + [s], h)
  {
    SumIntAppend(sesiones, [s], MinutosDe);
    assert [s][1..] == [];
  }

  /** The tiers are nested. */
  lemma HorasEscalonadas(sesiones: seq<Sesion>)
    ensures HorasEstudio(sesiones, 1000.0) ==> HorasEstudio(sesiones, 500.0)
    ensures HorasEstudio(sesiones, 500.0) ==> HorasEstudio(sesiones, 100.0)
  {
  }

  /** A Sunday session (`weekday() == 6`) started before 8. */
  predicate DomingoTemprano(s: Sesion) { PyWeekday(s.fecha) == 6 && s.hora < 8 }

  /** `madrugon_domingo`. */
  predicate MadrugonDomingo(sesiones: seq<Sesion>)
  {
    exists i :: 0 <= i < |sesiones| && DomingoTemprano(sesiones[i])
  }

  /** Sunday in Python's numbering is Sunday in JavaScript's too. */
  lemma MadrugonEsDomingo(s: Sesion)
    requires DomingoTemprano(s)
    ensures JsWeekday(s.fecha) == 0
  {
    WeekdayConventions(s.fecha);
  }

  predicate EnFinDeSemana(s: Sesion) { PyWeekday(s.fecha) >= 5 }

  /** `fin_de_semana_warrior`: a Saturday or Sunday whose sessions add up to ten hours. */
  predicate FinDeSemanaWarrior(sesiones: seq<Sesion>)
  {
    sesiones != [] && AlgunGrupo(Filter(sesiones, EnFinDeSemana), FechaDe, HorasAlMenos(10.0))
  }

  method VerificarFinDeSemanaWarrior(sesiones: seq<Sesion>) returns (b: bool)
    ensures b == FinDeSemanaWarrior(sesiones)
  {
    if sesiones == [] {
      return false;
    }
    b := BuscarGrupo(Filter(sesiones, EnFinDeSemana), FechaDe, HorasAlMenos(10.0));
  }

  /** Ten weekend hours in a day are 600 minutes of weekend sessions on one date. */
  lemma FinDeSemanaMinutos(sesiones: seq<Sesion>)
    requires FinDeSemanaWarrior(sesiones)
    ensures exists d: Date :: PyWeekday(d) >= 5 && SumInt(Grupo(Filter(sesiones, EnFinDeSemana), FechaDe, d), MinutosDe) >= 600
  {
    var f := Filter(sesiones, EnFinDeSemana);
    var i :| 0 <= i < |f| && HorasAlMenos(10.0)(Grupo(f, FechaDe, FechaDe(f[i])));
    HorasSonMinutos(Grupo(f, FechaDe, FechaDe(f[i])));
    assert EnFinDeSemana(f[i]);
  }
}
