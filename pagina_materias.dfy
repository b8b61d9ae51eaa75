/**
 * The subjects page: the status badge of each subject (the same requirement
 * check as the enrolment page), the detail button it enables, the year and
 * elective tabs, and the single expanded correlativity panel.
 */
module PaginaMaterias {
  import opened Common
  import opened Strings
  import opened Api
  import opened Inscripcion

  /** What `getEstado` returns; `etiqueta` is its `label`. */
  datatype Estado = Estado(etiqueta: Etiqueta, color: string, canDetail: bool)

  /** The badge classes of each status. */
  const InsigniaAprobada: string := "bg-emerald-500/10 text-emerald-500"
  const InsigniaRegular: string := "bg-amber-500/10 text-amber-500"
  const InsigniaCursando: string := "bg-cyan-500/10 text-cyan-500"
  const InsigniaDisponible: string := "bg-blue-500/10 text-blue-400"
  const InsigniaBloqueada: string := "bg-rose-500/10 text-rose-500"

  /** `getEstado(materiaId)`: a subject in an active status shows it; any other falls to the requirements. */
  function GetEstado(materiaId: string, inscs: seq<InscripcionApi>, correlativas: seq<CorrelativaApi>): Estado
  {
    var insc := InscripcionDe(inscs, materiaId);
    if insc.Some? && EstadoActivo(insc.value.estado) then
      if insc.value.estado == "aprobada" then Estado(APROBADA, InsigniaAprobada, true)
      else if insc.value.estado == "regular" then Estado(REGULAR, InsigniaRegular, true)
      else Estado(CURSANDO, InsigniaCursando, true)
    else if CumpleRequisitos(correlativas, inscs, materiaId) then
      Estado(DISPONIBLE, InsigniaDisponible, false)
    else
      Estado(BLOQUEADA, InsigniaBloqueada, false)
  }

  /**
   * The detail is open exactly for an active enrolment, and then there is
   * an enrolment whose id the button navigates to; the two pages agree on
   * which subjects are available and which are locked.
   */
  lemma EstadoCorrecto(m: MateriaApi, inscs: seq<InscripcionApi>, correlativas: seq<CorrelativaApi>)
    ensures var e := GetEstado(m.id, inscs, correlativas);
      (e.canDetail <==> Activa(inscs, m.id)) &&
      (e.canDetail ==> InscripcionDe(inscs, m.id).Some?) &&
      (e.etiqueta == DISPONIBLE <==> ConfigEstado(m, inscs, correlativas).etiqueta == DISPONIBLE) &&
      (e.etiqueta == BLOQUEADA <==> ConfigEstado(m, inscs, correlativas).etiqueta == BLOQUEADA) &&
      (e.etiqueta == ConfigEstado(m, inscs, correlativas).etiqueta)
  {
    ConfigCorrecta(m, inscs, correlativas);
  }

  /** `/detalle?id=${insc.id}`, reachable only where `canDetail` holds. */
  function UrlDetalle(materiaId: string, inscs: seq<InscripcionApi>, correlativas: seq<CorrelativaApi>): (r: Option<string>)
    ensures r.Some? <==> GetEstado(materiaId, inscs, correlativas).canDetail
  {
    if GetEstado(materiaId, inscs, correlativas).canDetail
    then Some("/detalle?id=" + InscripcionDe(inscs, materiaId).value.id)
    else None
  }

  /** The tabs `1` to `5` and `E`. */
  datatype Pestana = Anio(n: int) | Electivas

  predicate EnPestana(m: MateriaApi, p: Pestana)
  {
    match p
    case Electivas => m.esElectiva
    case Anio(n) => m.nivel == n && !m.esElectiva
  }

  /** The subjects under tab `p`, with the search text applied after the tab filter. */
  function Listadas(materias: seq<MateriaApi>, p: Pestana, busqueda: string): seq<MateriaApi>
  {
    Filter(Filter(materias, (m: MateriaApi) => EnPestana(m, p)), (m: MateriaApi) => ContainsIgnoreCase(m.nombre, busqueda))
  }

  /**
   * Tab `E` lists the electives and a year tab the compulsory subjects of
   * that year, so an elective appears under no year tab; within a tab the
   * search keeps the names containing the text, ignoring case.
   */
  lemma ListadasExacto(materias: seq<MateriaApi>, p: Pestana, busqueda: string, i: int)
    requires 0 <= i < |materias|
    ensures materias[i] in Listadas(materias, p, busqueda) <==>
      ContainsIgnoreCase(materias[i].nombre, busqueda) &&
      (if p.Electivas? then materias[i].esElectiva else materias[i].nivel == p.n && !materias[i].esElectiva)
  {
    var t := Filter(materias, (m: MateriaApi) => EnPestana(m, p));
    var r := Listadas(materias, p, busqueda);
    if materias[i] in r {
      var k :| 0 <= k < |r| && r[k] == materias[i];
      assert r[k] in t;
      var j :| 0 <= j < |t| && t[j] == materias[i];
    }
  }

  /** `setMateriaExpandida(isExpanded ? null : materia.id)`. */
  function Alternar(expandida: Option<string>, id: string): (r: Option<string>)
    ensures r == None <==> expandida == Some(id)
    ensures r != None ==> r == Some(id)
  {
    if expandida == Some(id) then None else Some(id)
  }

  /** After a click on row `id`, a row shows its panel iff it is `id` and was not already open. */
  lemma AlternarUnico(expandida: Option<string>, id: string, otra: string)
    ensures (Alternar(expandida, id) == Some(otra)) <==> (otra == id && expandida != Some(id))
  {
  }
}
