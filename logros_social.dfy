/**
 * The achievement conditions that query the database instead of the four
 * lists: the social ones (groups, shared notes, tutoring, thanks, group
 * sessions), `flashcard_champion` and `tu_cumpleaños`. The tables they
 * read are a `Comunidad` value; an empty user id stands for Python's falsy
 * `usuario_id`, which makes every user-scoped condition false.
 */
module LogrosSocial {
  import opened Common
  import opened Dates
  import opened LogrosDatos

  /** A study group with its creator and the members of the `usuarios_grupos` table. */
  datatype GrupoEstudio = GrupoEstudio(id: string, creadorId: string, integrantes: seq<string>)
  datatype Apunte = Apunte(usuarioId: string)
  datatype Tutoria = Tutoria(tutorId: string, exito: bool)
  datatype Agradecimiento = Agradecimiento(emisorId: string, receptorId: string, tipo: string)
  datatype SesionGrupo = SesionGrupo(grupoId: string)
  datatype Usuario = Usuario(id: string, fechaNacimiento: Option<Date>)
  datatype FlashCard = FlashCard(proximaRevision: Option<Date>)

  /** The tables the database-backed conditions query. */
  datatype Comunidad = Comunidad(
    grupos: seq<GrupoEstudio>, apuntes: seq<Apunte>, tutorias: seq<Tutoria>,
    agradecimientos: seq<Agradecimiento>, sesionesGrupo: seq<SesionGrupo>,
    usuarios: seq<Usuario>, flashcards: seq<FlashCard>)

  function CreadoPor(u: string): GrupoEstudio -> bool { (g: GrupoEstudio) => g.creadorId == u }
  function IntegradoPor(u: string): GrupoEstudio -> bool { (g: GrupoEstudio) => u in g.integrantes }
  function CreadoOIntegrado(u: string): GrupoEstudio -> bool
  {
    (g: GrupoEstudio) => g.creadorId == u || u in g.integrantes
  }
  function ApunteDe(u: string): Apunte -> bool { (a: Apunte) => a.usuarioId == u }
  function TutoriaDe(u: string): Tutoria -> bool { (t: Tutoria) => t.tutorId == u }
  function TutoriaExitosaDe(u: string): Tutoria -> bool { (t: Tutoria) => t.tutorId == u && t.exito }
  function RecibidoPor(u: string): Agradecimiento -> bool { (a: Agradecimiento) => a.receptorId == u }
  function ExplicacionDe(u: string): Agradecimiento -> bool
  {
    (a: Agradecimiento) => a.emisorId == u && a.tipo == "explicacion"
  }

  /** `primer_grupo`: the user created or belongs to at least one group. */
  predicate PrimerGrupo(c: Comunidad, u: string)
  {
    u != "" && Count(c.grupos, CreadoOIntegrado(u)) >= 1
  }

  /** `colaborador`: five shared notes. */
  predicate Colaborador(c: Comunidad, u: string) { u != "" && Count(c.apuntes, ApunteDe(u)) >= 5 }

  /** `tutor`: three tutoring sessions given. */
  predicate Tutor(c: Comunidad, u: string) { u != "" && Count(c.tutorias, TutoriaDe(u)) >= 3 }

  /** `mejor_compañero`: five thanks received. */
  predicate MejorCompanero(c: Comunidad, u: string)
  {
    u != "" && Count(c.agradecimientos, RecibidoPor(u)) >= 5
  }

  /** `lider_equipo`: two groups created. */
  predicate LiderEquipo(c: Comunidad, u: string) { u != "" && Count(c.grupos, CreadoPor(u)) >= 2 }

  /** `networking`: member of three groups. */
  predicate Networking(c: Comunidad, u: string) { u != "" && Count(c.grupos, IntegradoPor(u)) >= 3 }

  /** `explicador`: ten thanks of type "explicacion" sent. */
  predicate Explicador(c: Comunidad, u: string)
  {
    u != "" && Count(c.agradecimientos, ExplicacionDe(u)) >= 10
  }

  /** The rows of `SesionGrupo JOIN GrupoEstudio` for one session whose group the user created. */
  function FilasJoin(grupos: seq<GrupoEstudio>, u: string): SesionGrupo -> int
  {
    (s: SesionGrupo) => Count(grupos, (g: GrupoEstudio) => g.id == s.grupoId && g.creadorId == u)
  }

  /** The size of the join: every pair of a session and the group it belongs to, created by the user. */
  function SesionesOrganizadas(c: Comunidad, u: string): int
  {
    SumInt(c.sesionesGrupo, FilasJoin(c.grupos, u))
  }

  /** `organizador`: five sessions in groups the user created, counted as join rows. */
  predicate Organizador(c: Comunidad, u: string) { u != "" && SesionesOrganizadas(c, u) >= 5 }

  /** `comunidad`: member of two groups, three shared notes and one tutoring session. */
  predicate EnComunidad(c: Comunidad, u: string)
  {
    u != "" && Count(c.grupos, IntegradoPor(u)) >= 2 && Count(c.apuntes, ApunteDe(u)) >= 3 &&
    Count(c.tutorias, TutoriaDe(u)) >= 1
  }

  /** `mentor_senior`: ten successful tutoring sessions. */
  predicate MentorSenior(c: Comunidad, u: string)
  {
    u != "" && Count(c.tutorias, TutoriaExitosaDe(u)) >= 10
  }

  /** A card whose `proxima_revision < hoy`; SQL compares NULL as unknown, which filters the row out. */
  function VencidaAntesDe(hoy: Date): FlashCard -> bool
  {
    (f: FlashCard) => f.proximaRevision.Some? && DateLt(f.proximaRevision.value, hoy)
  }

  /** `flashcard_champion`: a thousand cards in the whole table, or a thousand due before today. */
  predicate FlashcardChampion(c: Comunidad, hoy: Date)
  {
    |c.flashcards| >= 1000 || Count(c.flashcards, VencidaAntesDe(hoy)) >= 1000
  }

  function ConUsuarioId(u: string): Usuario -> bool { (x: Usuario) => x.id == u }

  /** A passing grade dated on the birthday's month and day. */
  function AprobadaEnCumple(nacimiento: Date): Nota -> bool
  {
    (n: Nota) => n.fecha.month == nacimiento.month && n.fecha.day == nacimiento.day && n.nota >= 4.0
  }

  /**
   * `tu_cumpleaños`: the user's record exists and has a birth date, and some
   * grade of theirs, dated on that month and day, passes.
   */
  predicate TuCumpleanos(c: Comunidad, u: string, notas: seq<Nota>)
  {
    u != "" &&
    match Find(c.usuarios, ConUsuarioId(u))
    case None => false
    case Some(usuario) =>
      usuario.fechaNacimiento.Some? &&
      exists i :: 0 <= i < |notas| && AprobadaEnCumple(usuario.fechaNacimiento.value)(notas[i])
  }

  /** A join with at least one row has a session in some group the user created. */
  lemma {:induction false} JoinTieneGrupo(sesiones: seq<SesionGrupo>, grupos: seq<GrupoEstudio>, u: string)
    requires SumInt(sesiones, FilasJoin(grupos, u)) > 0
    ensures Count(grupos, CreadoPor(u)) > 0
  {
    var f := FilasJoin(grupos, u);
    if f(sesiones[0]) > 0 {
      var s := sesiones[0];
      CountWeaken(grupos, (g: GrupoEstudio) => g.id == s.grupoId && g.creadorId == u, CreadoPor(u));
    } else {
      assert sesiones[1..] != [];
      JoinTieneGrupo(sesiones[1..], grupos, u);
    }
  }

  /** Every group achievement includes having a first group. */
  lemma GruposImplicanPrimerGrupo(c: Comunidad, u: string)
    requires LiderEquipo(c, u) || Networking(c, u) || EnComunidad(c, u) || Organizador(c, u)
    ensures PrimerGrupo(c, u)
  {
    CountWeaken(c.grupos, CreadoPor(u), CreadoOIntegrado(u));
    CountWeaken(c.grupos, IntegradoPor(u), CreadoOIntegrado(u));
    if Organizador(c, u) {
      JoinTieneGrupo(c.sesionesGrupo, c.grupos, u);
    }
  }

  /** Ten successful tutoring sessions are in particular three given. */
  lemma MentorEsTutor(c: Comunidad, u: string)
    requires MentorSenior(c, u)
    ensures Tutor(c, u)
  {
    CountWeaken(c.tutorias, TutoriaExitosaDe(u), TutoriaDe(u));
  }

  /** A passing grade of the user's on their birth month and day. */
  predicate CumpleDe(x: Usuario, n: Nota)
  {
    x.fechaNacimiento.Some? && n.nota >= 4.0 &&
    n.fecha.month == x.fechaNacimiento.value.month && n.fecha.day == x.fechaNacimiento.value.day
  }

  /** A birthday achievement has a witness: the user's record and a passing grade on their birthday. */
  lemma CumpleanosTestigo(c: Comunidad, u: string, notas: seq<Nota>)
    requires TuCumpleanos(c, u, notas)
    ensures exists x, n :: x in c.usuarios && x.id == u && n in notas && CumpleDe(x, n)
  {
    var x := Find(c.usuarios, ConUsuarioId(u)).value;
    var i :| 0 <= i < |notas| && AprobadaEnCumple(x.fechaNacimiento.value)(notas[i]);
    assert notas[i] in notas && CumpleDe(x, notas[i]);
  }
}
