/**
 * The community page: the user's groups, the groups suggested from their
 * current courses, the subjects offered for a new group, and the form that
 * creates one.
 */
module Comunidad {
  import opened Common
  import opened Api
  import Social

  /** A group as the list endpoint returns it, with the caller's membership flag. */
  datatype GrupoVista = GrupoVista(id: string, nombre: string, materiaId: string, eresMiembro: bool)

  predicate EsMiembro(g: GrupoVista) { g.eresMiembro }

  /** `misGrupos`. */
  function MisGrupos(grupos: seq<GrupoVista>): seq<GrupoVista>
  {
    Filter(grupos, EsMiembro)
  }

  predicate Cursando(i: InscripcionApi) { i.estado == "cursando" }

  function MateriaIdDe(i: InscripcionApi): string { i.materiaId }

  /** `materiasCursandoIds`: the subject ids of the `cursando` enrolments, in order. */
  function CursandoIds(inscs: seq<InscripcionApi>): seq<string>
  {
    var c := Filter(inscs, Cursando);
    seq(|c|, k requires 0 <= k < |c| => MateriaIdDe(c[k]))
  }

  predicate Sugerido(ids: seq<string>, g: GrupoVista)
  {
    g.materiaId in ids && !g.eresMiembro
  }

  function SugeridoPor(ids: seq<string>): GrupoVista -> bool
  {
    (g: GrupoVista) => Sugerido(ids, g)
  }

  /** `gruposSugeridos`. */
  function GruposSugeridos(grupos: seq<GrupoVista>, inscs: seq<InscripcionApi>): seq<GrupoVista>
  {
    Filter(grupos, SugeridoPor(CursandoIds(inscs)))
  }

  /** A subject id is a current course's iff some `cursando` enrolment names it. */
  lemma CursandoIdsExactos(inscs: seq<InscripcionApi>, m: string)
    ensures m in CursandoIds(inscs) <==> exists i :: 0 <= i < |inscs| && inscs[i].estado == "cursando" && inscs[i].materiaId == m
  {
    var c := Filter(inscs, Cursando);
    var ids := CursandoIds(inscs);
    if m in ids {
      var k :| 0 <= k < |ids| && ids[k] == m;
      assert c[k] in inscs;
      var i :| 0 <= i < |inscs| && inscs[i] == c[k];
    }
    if exists i :: 0 <= i < |inscs| && inscs[i].estado == "cursando" && inscs[i].materiaId == m {
      var i :| 0 <= i < |inscs| && inscs[i].estado == "cursando" && inscs[i].materiaId == m;
      assert inscs[i] in c;
      var k :| 0 <= k < |c| && c[k] == inscs[i];
      assert ids[k] == m;
    }
  }

  /**
   * The user's groups are exactly the groups flagged as theirs; the
   * suggestions are exactly the other groups of a subject they are
   * currently taking, so no group is listed in both tabs.
   */
  lemma Pestanas(grupos: seq<GrupoVista>, inscs: seq<InscripcionApi>, g: GrupoVista)
    ensures g in MisGrupos(grupos) <==> g in grupos && g.eresMiembro
    ensures g in GruposSugeridos(grupos, inscs) <==>
      g in grupos && !g.eresMiembro &&
      exists i :: 0 <= i < |inscs| && inscs[i].estado == "cursando" && inscs[i].materiaId == g.materiaId
    ensures !(g in MisGrupos(grupos) && g in GruposSugeridos(grupos, inscs))
    ensures |MisGrupos(grupos)| + |GruposSugeridos(grupos, inscs)| <= |grupos|
  {
    CursandoIdsExactos(inscs, g.materiaId);
    if g in grupos {
      var k :| 0 <= k < |grupos| && grupos[k] == g;
    }
    var ids := CursandoIds(inscs);
    CountDisjoint(grupos, Unido(ids), EsMiembro, SugeridoPor(ids));
    FilterCount(grupos, EsMiembro);
    FilterCount(grupos, SugeridoPor(ids));
    FilterCount(grupos, Unido(ids));
  }

  function Unido(ids: seq<string>): GrupoVista -> bool
  {
    (g: GrupoVista) => EsMiembro(g) || Sugerido(ids, g)
  }

  /**
   * A suggested group's subject, when it is in the catalogue, is one of the
   * subjects the creation form offers: a course in progress is `cursando`.
   */
  lemma SugeridaHabilitada(grupos: seq<GrupoVista>, inscs: seq<InscripcionApi>, materias: seq<MateriaApi>,
                           g: GrupoVista, m: MateriaApi)
    requires g in GruposSugeridos(grupos, inscs)
    requires m in materias && m.id == g.materiaId
    ensures m in MateriasHabilitadas(materias, inscs)
  {
    Pestanas(grupos, inscs, g);
    HabilitadasExactas(materias, inscs, m);
  }

  /** The creation form; nothing on the page changes the size limit or the privacy flag. */
  datatype Form = Form(nombre: string, descripcion: string, materiaId: string, maxIntegrantes: int, privado: bool)

  const Inicial: Form := Form("", "", "", 10, false)

  /** `handleCrearGrupo`: nothing without a name or a subject. */
  function CrearGrupo(f: Form): Option<Social.GrupoCreate>
  {
    if f.nombre == "" || f.materiaId == "" then None
    else Some(Social.GrupoCreate(f.nombre, Some(f.descripcion), f.materiaId, f.maxIntegrantes, f.privado))
  }

  /**
   * A group is requested iff it has a name and a subject, with the form's
   * fields; a form this page can produce asks for ten members and a public
   * group, so the route's capacity check always lets it through.
   */
  lemma CrearGrupoCorrecto(f: Form, r: Social.Red, u: string, grupoId: string, codigo: string, ahora: nat)
    ensures CrearGrupo(f).Some? <==> f.nombre != "" && f.materiaId != ""
    ensures CrearGrupo(f).Some? ==>
      CrearGrupo(f).value.nombre == f.nombre && CrearGrupo(f).value.materiaId == f.materiaId &&
      CrearGrupo(f).value.descripcion == Some(f.descripcion)
    ensures CrearGrupo(Inicial).None?
    ensures CrearGrupo(f).Some? && f.maxIntegrantes == 10 ==>
      Social.CrearGrupoValidado(r, u, CrearGrupo(f).value, grupoId, codigo, ahora) ==
      Social.CrearGrupo(r, u, CrearGrupo(f).value, grupoId, codigo, ahora)
  {
  }

  /** The page's form state. */
  class Formulario {
    var form: Form

    predicate Valido()
      reads this
    {
      form.maxIntegrantes == 10 && !form.privado
    }

    constructor()
      ensures form == Inicial && Valido()
    {
      form := Inicial;
    }

    method CambiarNombre(nombre: string)
      requires Valido()
      modifies this
      ensures form == old(form).(nombre := nombre) && Valido()
    {
      form := form.(nombre := nombre);
    }

    method CambiarDescripcion(descripcion: string)
      requires Valido()
      modifies this
      ensures form == old(form).(descripcion := descripcion) && Valido()
    {
      form := form.(descripcion := descripcion);
    }

    /** The subject select's `onValueChange`. */
    method ElegirMateria(materiaId: string)
      requires Valido()
      modifies this
      ensures form == old(form).(materiaId := materiaId) && Valido()
    {
      form := form.(materiaId := materiaId);
    }

    method Crear() returns (r: Option<Social.GrupoCreate>)
      requires Valido()
      ensures r == CrearGrupo(form)
      ensures r.Some? ==> r.value.maxIntegrantes == 10 && !r.value.privado
    {
      r := CrearGrupo(form);
    }
  }
}
