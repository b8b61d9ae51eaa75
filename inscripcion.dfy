/**
 * The enrolment page: the status card of each subject (its enrolment status
 * when it has an active one, otherwise whether the correlativity
 * requirements are met), the request the "Inscribirme" button sends, and
 * the subjects listed under each year tab.
 */
module Inscripcion {
  import opened Common
  import opened Strings
  import opened Api

  /** `inscripciones.find(i => i.materia_id === materiaId)`. */
  function InscripcionDe(inscs: seq<InscripcionApi>, materiaId: string): Option<InscripcionApi>
  {
    Find(inscs, (i: InscripcionApi) => i.materiaId == materiaId)
  }

  /** `aprobadasIds`: the subjects with an approved enrolment. */
  function AprobadasIds(inscs: seq<InscripcionApi>): set<string>
  {
    set i | 0 <= i < |inscs| && inscs[i].estado == "aprobada" :: inscs[i].materiaId
  }

  /** One requirement as the pages check it: only the `aprobada` type is looked at. */
  predicate Cumplido(r: CorrelativaApi, aprobadas: set<string>)
  {
    r.tipo == "aprobada" ==> r.correlativaId in aprobadas
  }

  /** `requisitos`: the edges whose `materia_id` is the subject. */
  function Requisitos(correlativas: seq<CorrelativaApi>, materiaId: string): seq<CorrelativaApi>
  {
    Filter(correlativas, DeMateria(materiaId))
  }

  function DeMateria(materiaId: string): CorrelativaApi -> bool
  {
    (c: CorrelativaApi) => c.materiaId == materiaId
  }

  /** `requisitos.every(...)`. */
  predicate CumpleRequisitos(correlativas: seq<CorrelativaApi>, inscs: seq<InscripcionApi>, materiaId: string)
  {
    var req := Requisitos(correlativas, materiaId);
    forall k :: 0 <= k < |req| ==> Cumplido(req[k], AprobadasIds(inscs))
  }

  /**
   * The requirements are met iff every `aprobada` edge of the subject names
   * a subject with an approved enrolment; edges of other types never block.
   */
  lemma CumpleExacto(correlativas: seq<CorrelativaApi>, inscs: seq<InscripcionApi>, materiaId: string)
    ensures CumpleRequisitos(correlativas, inscs, materiaId) <==>
      forall k :: 0 <= k < |correlativas| && correlativas[k].materiaId == materiaId && correlativas[k].tipo == "aprobada" ==>
        exists j :: 0 <= j < |inscs| && inscs[j].estado == "aprobada" && inscs[j].materiaId == correlativas[k].correlativaId
  {
    var req := Requisitos(correlativas, materiaId);
    var ap := AprobadasIds(inscs);
    if CumpleRequisitos(correlativas, inscs, materiaId) {
      forall k | 0 <= k < |correlativas| && correlativas[k].materiaId == materiaId && correlativas[k].tipo == "aprobada"
        ensures exists j :: 0 <= j < |inscs| && inscs[j].estado == "aprobada" && inscs[j].materiaId == correlativas[k].correlativaId
      {
        var c := correlativas[k];
        assert c in req;
        var t :| 0 <= t < |req| && req[t] == c;
        assert Cumplido(req[t], ap);
        assert c.correlativaId in ap;
      }
    } else {
      var t :| 0 <= t < |req| && !Cumplido(req[t], ap);
      var k :| 0 <= k < |correlativas| && correlativas[k] == req[t];
      assert correlativas[k].correlativaId !in ap;
      assert !exists j :: 0 <= j < |inscs| && inscs[j].estado == "aprobada" && inscs[j].materiaId == correlativas[k].correlativaId;
    }
  }

  /** A subject with no edge of its own has its requirements met. */
  lemma SinRequisitos(correlativas: seq<CorrelativaApi>, inscs: seq<InscripcionApi>, materiaId: string)
    requires forall k :: 0 <= k < |correlativas| ==> correlativas[k].materiaId != materiaId
    ensures CumpleRequisitos(correlativas, inscs, materiaId)
  {
    CountCero(correlativas, DeMateria(materiaId));
    FilterCount(correlativas, DeMateria(materiaId));
  }

  /** The card's `label`; each constructor's name is the text shown. */
  datatype Etiqueta = APROBADA | CURSANDO | REGULAR | DISPONIBLE | BLOQUEADA

  /** What `getConfigEstado` returns; `etiqueta` is its `label`, and an absent `isLocked` is false. */
  datatype Config = Config(etiqueta: Etiqueta, color: string, opacity: string, canEnroll: bool, isLocked: bool)

  /** The card classes of each status. */
  const ColorAprobada: string := "bg-emerald-500/10 text-emerald-500 border-emerald-500/20"
  const ColorCursando: string := "bg-slate-500/20 text-slate-400 border-slate-700"
  const ColorRegular: string := "bg-amber-500/10 text-amber-500 border-amber-500/20"
  const ColorDisponible: string := "bg-cyan-500/10 text-cyan-400 border-cyan-500/20"
  const ColorBloqueada: string := "bg-rose-500/10 text-rose-500 border-rose-500/20"

  /** `getConfigEstado(materia)`. */
  function ConfigEstado(materia: MateriaApi, inscs: seq<InscripcionApi>, correlativas: seq<CorrelativaApi>): Config
  {
    ConfigDe(InscripcionDe(inscs, materia.id), CumpleRequisitos(correlativas, inscs, materia.id))
  }

  /** The card for the subject's enrolment, if any, and whether its requirements are met. */
  function ConfigDe(insc: Option<InscripcionApi>, cumple: bool): Config
  {
    if insc.Some? && insc.value.estado == "aprobada" then
      Config(APROBADA, ColorAprobada, "opacity-50", false, false)
    else if insc.Some? && insc.value.estado == "cursando" then
      Config(CURSANDO, ColorCursando, "opacity-50", false, false)
    else if insc.Some? && insc.value.estado == "regular" then
      Config(REGULAR, ColorRegular, "opacity-60", false, false)
    else if cumple then
      Config(DISPONIBLE, ColorDisponible, "opacity-100", true, false)
    else
      Config(BLOQUEADA, ColorBloqueada, "opacity-40", false, true)
  }

  lemma ConfigDeCasos(insc: Option<InscripcionApi>, cumple: bool)
    ensures var c := ConfigDe(insc, cumple);
      var activa := insc.Some? && EstadoActivo(insc.value.estado);
      (c.etiqueta == DISPONIBLE <==> !activa && cumple) &&
      (c.etiqueta == BLOQUEADA <==> !activa && !cumple) &&
      (c.canEnroll <==> c.etiqueta == DISPONIBLE) &&
      (c.isLocked <==> c.etiqueta == BLOQUEADA)
  {
  }

  predicate EstadoActivo(e: string)
  {
    e == "aprobada" || e == "cursando" || e == "regular"
  }

  /** The subject's enrolment is active: approved, in course or regular. */
  predicate Activa(inscs: seq<InscripcionApi>, materiaId: string)
  {
    var insc := InscripcionDe(inscs, materiaId);
    insc.Some? && EstadoActivo(insc.value.estado)
  }

  /** An active enrolment decides the card, upper-cased, and the button is hidden. */
  lemma ConfigActiva(materia: MateriaApi, inscs: seq<InscripcionApi>, correlativas: seq<CorrelativaApi>)
    requires Activa(inscs, materia.id)
    ensures var c := ConfigEstado(materia, inscs, correlativas);
      var insc := InscripcionDe(inscs, materia.id);
      !c.canEnroll && !c.isLocked &&
      c.etiqueta == (if insc.value.estado == "aprobada" then APROBADA
                     else if insc.value.estado == "cursando" then CURSANDO else REGULAR)
  {
  }

  /**
   * Without an active enrolment the subject is DISPONIBLE iff its
   * requirements are met and BLOQUEADA otherwise; DISPONIBLE is the only
   * card that offers enrolment, and BLOQUEADA the only locked one.
   */
  lemma ConfigCorrecta(materia: MateriaApi, inscs: seq<InscripcionApi>, correlativas: seq<CorrelativaApi>)
    ensures var c := ConfigEstado(materia, inscs, correlativas);
      (c.etiqueta == DISPONIBLE <==> !Activa(inscs, materia.id) && CumpleRequisitos(correlativas, inscs, materia.id)) &&
      (c.etiqueta == BLOQUEADA <==> !Activa(inscs, materia.id) && !CumpleRequisitos(correlativas, inscs, materia.id)) &&
      (c.canEnroll <==> c.etiqueta == DISPONIBLE) &&
      (c.isLocked <==> c.etiqueta == BLOQUEADA)
  {
    ConfigDeCasos(InscripcionDe(inscs, materia.id), CumpleRequisitos(correlativas, inscs, materia.id));
  }

  /** A `bloqueada` enrolment does not lock the card by itself: the requirements decide. */
  lemma BloqueadaNoFuerza(materia: MateriaApi, inscs: seq<InscripcionApi>, correlativas: seq<CorrelativaApi>)
    requires InscripcionDe(inscs, materia.id).Some? && InscripcionDe(inscs, materia.id).value.estado == "bloqueada"
    requires CumpleRequisitos(correlativas, inscs, materia.id)
    ensures ConfigEstado(materia, inscs, correlativas).canEnroll
  {
  }

  /** What the "Inscribirme" button sends. */
  datatype Peticion =
    | Actualizar(inscripcionId: string, estado: string)
    | Crear(materiaId: string, materiaCodigo: string, carreraId: string, estado: string, intento: int)

  /** `inscripcionMutation`: an existing enrolment, even a locked one, is moved to `cursando`; otherwise one is created. */
  function Inscribir(materia: MateriaApi, inscs: seq<InscripcionApi>, carreraId: string): Peticion
  {
    var existe := InscripcionDe(inscs, materia.id);
    if existe.Some? then Actualizar(existe.value.id, "cursando")
    else Crear(materia.id, materia.codigo, carreraId, "cursando", 1)
  }

  /**
   * The request updates iff the subject has an enrolment, and then that
   * enrolment; a created one is the first attempt. Either way the status
   * sent is `cursando`.
   */
  lemma InscribirCorrecto(materia: MateriaApi, inscs: seq<InscripcionApi>, carreraId: string)
    ensures var p := Inscribir(materia, inscs, carreraId);
      (p.Actualizar? <==> exists j :: 0 <= j < |inscs| && inscs[j].materiaId == materia.id) &&
      (p.Actualizar? ==> exists j :: 0 <= j < |inscs| && inscs[j].materiaId == materia.id && inscs[j].id == p.inscripcionId) &&
      (p.Crear? ==> p.materiaId == materia.id && p.intento == 1) &&
      p.estado == "cursando"
  {
    var existe := InscripcionDe(inscs, materia.id);
    if existe.Some? {
      var j :| 0 <= j < |inscs| && inscs[j] == existe.value;
    }
  }

  /** The year tab `nivel` with the search text `busqueda`. */
  function EnAnio(materias: seq<MateriaApi>, nivel: int, busqueda: string): seq<MateriaApi>
  {
    Filter(materias, (m: MateriaApi) => m.nivel == nivel && ContainsIgnoreCase(m.nombre, busqueda))
  }

  /** A subject is under tab `nivel` iff it is of that year and its name contains the search text, ignoring case. */
  lemma EnAnioExacto(materias: seq<MateriaApi>, nivel: int, busqueda: string, i: int)
    requires 0 <= i < |materias|
    ensures materias[i] in EnAnio(materias, nivel, busqueda) <==>
      materias[i].nivel == nivel && ContainsIgnoreCase(materias[i].nombre, busqueda)
  {
    var r := EnAnio(materias, nivel, busqueda);
    if materias[i] in r {
      var k :| 0 <= k < |r| && r[k] == materias[i];
    }
  }
}
