/**
 * The achievement service's entry points: the dispatch table from an
 * achievement id to its condition (`verificar_logro`), the unlock record
 * store (`desbloquear_logro`) and the pass over every achievement that
 * unlocks the new ones (`verificar_y_desbloquear_logros`).
 */
module LogroService {
  import opened Common
  import opened Strings
  import opened Dates
  import opened LogrosDatos
  import P = LogrosPrimeros
  import R = LogrosRachas
  import Col = LogrosColecciones
  import Pr = LogrosPromedios
  import Car = LogrosCarrera
  import E = LogrosEspecialidades
  import De = LogrosDesafios
  import T = LogrosTiempo
  import Rec = LogrosRecovery
  import So = LogrosSocial
  import Cu = LogrosCuriosos
  import Ne = LogrosNegativos

  /** The "primeros pasos" section of the table. */
  const IdsPrimeros: set<string> := {
    "primer_2", "primer_4", "primer_5", "primer_6", "primer_7",
    "primer_8", "primer_9", "primer_10", "primera_materia_regular", "primera_materia_aprobada",
    "primera_materia_directa", "10_notas", "primer_parcial", "primer_tp", "primera_desaprobada",
    "primer_nivel", "5_materias", "promedio_5", "10_percent_carrera"
  }

  function CondicionPrimeros(id: string, d: Datos, c: So.Comunidad, u: string, hoy: Date): Option<bool>
  {
    var n := d.notas;
    var i := d.inscripciones;
    var m := d.materias;
    var s := d.sesiones;
    match id
    case "primer_2" => Some(P.Primer2(n))
    case "primer_4" => Some(P.PrimerAlMenos(n, 4.0))
    case "primer_5" => Some(P.PrimerAlMenos(n, 5.0))
    case "primer_6" => Some(P.PrimerAlMenos(n, 6.0))
    case "primer_7" => Some(P.PrimerAlMenos(n, 7.0))
    case "primer_8" => Some(P.PrimerAlMenos(n, 8.0))
    case "primer_9" => Some(P.PrimerAlMenos(n, 9.0))
    case "primer_10" => Some(P.Primer10(n))
    case "primera_materia_regular" => Some(P.PrimeraConEstado(i, "regular"))
    case "primera_materia_aprobada" => Some(P.PrimeraConEstado(i, "aprobada"))
    case "primera_materia_directa" => Some(P.PrimeraDirecta(i))
    case "10_notas" => Some(P.DiezNotas(n))
    case "primer_parcial" => Some(P.PrimerParcial(n))
    case "primer_tp" => Some(P.PrimerTp(n))
    case "primera_desaprobada" => Some(P.PrimeraDesaprobada(n))
    case "primer_nivel" => Some(P.PrimerNivel(i, m))
    case "5_materias" => Some(P.CincoMaterias(i))
    case "promedio_5" => Some(P.Promedio5(n))
    case "10_percent_carrera" => Some(P.DiezPercentCarrera(i, m))
    case _ => None
  }

  lemma CondicionPrimerosDefinida(id: string, d: Datos, c: So.Comunidad, u: string, hoy: Date)
    ensures CondicionPrimeros(id, d, c, u, hoy).Some? <==> id in IdsPrimeros
  {
  }

  /** The "rachas y consistencia" section of the table. */
  const IdsRachas: set<string> := {
    "racha_3_dieces", "racha_5_aprobadas", "racha_10_aprobadas", "racha_5_sietes", "racha_5_ochos",
    "sin_desaprobar_mes", "todas_materias_aprobadas_cuatri", "mejora_continua", "racha_parciales", "racha_tps",
    "racha_7_materias", "racha_10_dieces", "sin_desaprobar_20", "racha_verano", "racha_invierno"
  }

  function CondicionRachas(id: string, d: Datos, c: So.Comunidad, u: string, hoy: Date): Option<bool>
  {
    var n := d.notas;
    var i := d.inscripciones;
    var m := d.materias;
    var s := d.sesiones;
    match id
    case "racha_3_dieces" => Some(R.Racha3Dieces(n))
    case "racha_5_aprobadas" => Some(R.RachaOrdenada(n, NotaAlMenos(4.0), 5))
    case "racha_10_aprobadas" => Some(R.RachaOrdenada(n, NotaAlMenos(4.0), 10))
    case "racha_5_sietes" => Some(R.RachaOrdenada(n, NotaAlMenos(7.0), 5))
    case "racha_5_ochos" => Some(R.RachaOrdenada(n, NotaAlMenos(8.0), 5))
    case "sin_desaprobar_mes" => Some(R.SinDesaprobarMes(n))
    case "todas_materias_aprobadas_cuatri" => Some(R.TodasAprobadasCuatri(i))
    case "mejora_continua" => Some(R.MejoraContinua(n))
    case "racha_parciales" => Some(R.RachaDeTipo(n, EsParcial, 5))
    case "racha_tps" => Some(R.RachaDeTipo(n, EsTp, 10))
    case "racha_7_materias" => Some(R.Racha7Materias(i))
    case "racha_10_dieces" => Some(Col.Coleccionista(n, 10))
    case "sin_desaprobar_20" => Some(R.SinDesaprobar20(n))
    case "racha_verano" => Some(R.RachaEstacion(n, {1, 2, 12}))
    case "racha_invierno" => Some(R.RachaEstacion(n, {6, 7, 8}))
    case _ => None
  }

  lemma CondicionRachasDefinida(id: string, d: Datos, c: So.Comunidad, u: string, hoy: Date)
    ensures CondicionRachas(id, d, c, u, hoy).Some? <==> id in IdsRachas
  {
  }

  /** The "colecciones" section of the table. */
  const IdsColecciones: set<string> := {
    "coleccionista_10", "coleccionista_25", "coleccionista_50", "nueves_10", "nueves_25",
    "ochos_20", "50_notas", "100_notas", "200_notas", "500_notas",
    "50_parciales", "100_parciales", "50_tps", "100_tps", "todas_aprobadas_50",
    "sin_doses", "sin_treses", "variedad", "solo_aprobadas_20", "mejorando"
  }

  function CondicionColecciones(id: string, d: Datos, c: So.Comunidad, u: string, hoy: Date): Option<bool>
  {
    var n := d.notas;
    var i := d.inscripciones;
    var m := d.materias;
    var s := d.sesiones;
    match id
    case "coleccionista_10" => Some(Col.Coleccionista(n, 10))
    case "coleccionista_25" => Some(Col.Coleccionista(n, 25))
    case "coleccionista_50" => Some(Col.Coleccionista(n, 50))
    case "nueves_10" => Some(Col.CuentaAlMenos(n, NotaAlMenos(9.0), 10))
    case "nueves_25" => Some(Col.CuentaAlMenos(n, NotaAlMenos(9.0), 25))
    case "ochos_20" => Some(Col.CuentaAlMenos(n, NotaAlMenos(8.0), 20))
    case "50_notas" => Some(Col.CantidadNotas(n, 50))
    case "100_notas" => Some(Col.CantidadNotas(n, 100))
    case "200_notas" => Some(Col.CantidadNotas(n, 200))
    case "500_notas" => Some(Col.CantidadNotas(n, 500))
    case "50_parciales" => Some(Col.CuentaAlMenos(n, EsParcial, 50))
    case "100_parciales" => Some(Col.CuentaAlMenos(n, EsParcial, 100))
    case "50_tps" => Some(Col.CuentaAlMenos(n, EsTp, 50))
    case "100_tps" => Some(Col.CuentaAlMenos(n, EsTp, 100))
    case "todas_aprobadas_50" => Some(Col.PrimerasAprobadas(n, 50))
    case "sin_doses" => Some(Col.SinValor(n, 2.0))
    case "sin_treses" => Some(Col.SinValor(n, 3.0))
    case "variedad" => Some(Col.Variedad(n))
    case "solo_aprobadas_20" => Some(Col.PrimerasAprobadas(n, 20))
    case "mejorando" => Some(Col.Mejorando(n))
    case _ => None
  }

  lemma CondicionColeccionesDefinida(id: string, d: Datos, c: So.Comunidad, u: string, hoy: Date)
    ensures CondicionColecciones(id, d, c, u, hoy).Some? <==> id in IdsColecciones
  {
  }

  /** The "promedios" section of the table. */
  const IdsPromedios: set<string> := {
    "promedio_6", "promedio_7", "promedio_8", "promedio_9", "promedio_9_5",
    "promedio_10", "promedio_parciales_8", "promedio_tps_9", "mantener_promedio_8_year", "subir_promedio_1punto",
    "mantener_7_50notas", "recuperacion_promedio", "promedio_primer_cuatri_8", "mejor_promedio_ultimo_cuatri", "equilibrado",
    "sin_bajar_promedio", "promedio_7_todas_materias", "promedio_8_mitad_carrera", "top_10_percent", "promedio_9_nivel"
  }

  function CondicionPromedios(id: string, d: Datos, c: So.Comunidad, u: string, hoy: Date): Option<bool>
  {
    var n := d.notas;
    var i := d.inscripciones;
    var m := d.materias;
    var s := d.sesiones;
    match id
    case "promedio_6" => Some(Pr.PromedioAlMenos(n, 6.0))
    case "promedio_7" => Some(Pr.PromedioAlMenos(n, 7.0))
    case "promedio_8" => Some(Pr.PromedioAlMenos(n, 8.0))
    case "promedio_9" => Some(Pr.PromedioAlMenos(n, 9.0))
    case "promedio_9_5" => Some(Pr.PromedioAlMenos(n, 9.5))
    case "promedio_10" => Some(Pr.Promedio10(n))
    case "promedio_parciales_8" => Some(Pr.PromedioParciales8(n))
    case "promedio_tps_9" => Some(Pr.PromedioTps9(n))
    case "mantener_promedio_8_year" => Some(Pr.Mantener8Year(n))
    case "subir_promedio_1punto" => Some(Pr.Subir1Punto(n))
    case "mantener_7_50notas" => Some(Pr.Mantener7Con50(n))
    case "recuperacion_promedio" => Some(Pr.RecuperacionPromedio(n))
    case "promedio_primer_cuatri_8" => Some(Pr.PrimerCuatri8(n))
    case "mejor_promedio_ultimo_cuatri" => Some(Pr.MejorUltimoCuatri(n))
    case "equilibrado" => Some(Pr.Equilibrado(n))
    case "sin_bajar_promedio" => Some(Pr.SinBajarPromedio(n))
    case "promedio_7_todas_materias" => Some(Pr.Promedio7TodasMaterias(n, i))
    case "promedio_8_mitad_carrera" => Some(Pr.Promedio8MitadCarrera(n, i, m))
    case "top_10_percent" => Some(Pr.PromedioAlMenos(n, 9.0))
    case "promedio_9_nivel" => Some(Pr.Promedio9Nivel(n, i, m))
    case _ => None
  }

  lemma CondicionPromediosDefinida(id: string, d: Datos, c: So.Comunidad, u: string, hoy: Date)
    ensures CondicionPromedios(id, d, c, u, hoy).Some? <==> id in IdsPromedios
  {
  }

  /** The "progreso de carrera" section of the table. */
  const IdsProgreso: set<string> := {
    "20_percent_carrera", "25_percent_carrera", "33_percent_carrera", "50_percent_carrera", "66_percent_carrera",
    "75_percent_carrera", "90_percent_carrera", "nivel_2_completo", "nivel_3_completo", "nivel_4_completo",
    "nivel_5_completo", "10_materias_aprobadas", "15_materias_aprobadas", "20_materias_aprobadas", "25_materias_aprobadas",
    "30_materias_aprobadas", "todas_obligatorias", "primera_electiva", "3_electivas", "todas_electivas",
    "primer_año_completo", "segundo_año_completo", "tercer_año_completo", "cuarto_año_completo", "quinto_año_completo"
  }

  function CondicionProgreso(id: string, d: Datos, c: So.Comunidad, u: string, hoy: Date): Option<bool>
  {
    var n := d.notas;
    var i := d.inscripciones;
    var m := d.materias;
    var s := d.sesiones;
    match id
    case "20_percent_carrera" => Some(Car.PorcentajeAlcanzado(i, m, 20.0))
    case "25_percent_carrera" => Some(Car.PorcentajeAlcanzado(i, m, 25.0))
    case "33_percent_carrera" => Some(Car.PorcentajeAlcanzado(i, m, 33.0))
    case "50_percent_carrera" => Some(Car.PorcentajeAlcanzado(i, m, 50.0))
    case "66_percent_carrera" => Some(Car.PorcentajeAlcanzado(i, m, 66.0))
    case "75_percent_carrera" => Some(Car.PorcentajeAlcanzado(i, m, 75.0))
    case "90_percent_carrera" => Some(Car.PorcentajeAlcanzado(i, m, 90.0))
    case "nivel_2_completo" => Some(Car.NivelCompleto(i, m, 2))
    case "nivel_3_completo" => Some(Car.NivelCompleto(i, m, 3))
    case "nivel_4_completo" => Some(Car.NivelCompleto(i, m, 4))
    case "nivel_5_completo" => Some(Car.NivelCompleto(i, m, 5))
    case "10_materias_aprobadas" => Some(Car.MateriasAprobadas(i, 10))
    case "15_materias_aprobadas" => Some(Car.MateriasAprobadas(i, 15))
    case "20_materias_aprobadas" => Some(Car.MateriasAprobadas(i, 20))
    case "25_materias_aprobadas" => Some(Car.MateriasAprobadas(i, 25))
    case "30_materias_aprobadas" => Some(Car.MateriasAprobadas(i, 30))
    case "todas_obligatorias" => Some(Car.TodasObligatorias(i, m))
    case "primera_electiva" => Some(Car.PrimeraElectiva(i, m))
    case "3_electivas" => Some(Car.TresElectivas(i, m))
    case "todas_electivas" => Some(Car.TodasElectivas(i, m))
    case "primer_año_completo" => Some(Car.NivelCompleto(i, m, 1))
    case "segundo_año_completo" => Some(Car.NivelCompleto(i, m, 2))
    case "tercer_año_completo" => Some(Car.NivelCompleto(i, m, 3))
    case "cuarto_año_completo" => Some(Car.NivelCompleto(i, m, 4))
    case "quinto_año_completo" => Some(Car.NivelCompleto(i, m, 5))
    case _ => None
  }

  lemma CondicionProgresoDefinida(id: string, d: Datos, c: So.Comunidad, u: string, hoy: Date)
    ensures CondicionProgreso(id, d, c, u, hoy).Some? <==> id in IdsProgreso
  {
  }

  /** The "especialidades" section of the table. */
  const IdsEspecialidades: set<string> := {
    "matematico", "programador", "fisico", "ingeniero_software", "redes_experto",
    "bd_master", "ia_specialist", "sistemas_operativos_guru", "algoritmico", "arquitecto"
  }

  function CondicionEspecialidades(id: string, d: Datos, c: So.Comunidad, u: string, hoy: Date): Option<bool>
  {
    var n := d.notas;
    var i := d.inscripciones;
    var m := d.materias;
    var s := d.sesiones;
    match id
    case "matematico" => Some(E.Matematico(d))
    case "programador" => Some(E.Programador(d))
    case "fisico" => Some(E.Fisico(d))
    case "ingeniero_software" => Some(E.IngenieroSoftware(d))
    case "redes_experto" => Some(E.RedesExperto(d))
    case "bd_master" => Some(E.BdMaster(d))
    case "ia_specialist" => Some(E.IaSpecialist(d))
    case "sistemas_operativos_guru" => Some(E.SistemasOperativosGuru(d))
    case "algoritmico" => Some(E.Algoritmico(d))
    case "arquitecto" => Some(E.Arquitecto(d))
    case _ => None
  }

  lemma CondicionEspecialidadesDefinida(id: string, d: Datos, c: So.Comunidad, u: string, hoy: Date)
    ensures CondicionEspecialidades(id, d, c, u, hoy).Some? <==> id in IdsEspecialidades
  {
  }

  /** The "desafíos especiales" section of the table. */
  const IdsDesafios: set<string> := {
    "recuperacion_epica", "comeback", "resistencia", "salvado_por_la_campana", "madrugador",
    "noctambulo", "maraton", "sprint", "disciplinado", "multitasker",
    "velocidad", "perfeccion_cuatri", "pomodoro_master", "flashcard_champion", "recursante_exitoso",
    "intensivo_verano"
  }

  function CondicionDesafios(id: string, d: Datos, c: So.Comunidad, u: string, hoy: Date): Option<bool>
  {
    var n := d.notas;
    var i := d.inscripciones;
    var m := d.materias;
    var s := d.sesiones;
    match id
    case "recuperacion_epica" => Some(De.RecuperacionEpica(n, i))
    case "comeback" => Some(De.Comeback(n))
    case "resistencia" => Some(De.Resistencia(n, i))
    case "salvado_por_la_campana" => Some(De.SalvadoPorLaCampana(n))
    case "madrugador" => Some(De.Madrugador(s))
    case "noctambulo" => Some(De.Noctambulo(s))
    case "maraton" => Some(De.Maraton(s))
    case "sprint" => Some(De.Sprint(s))
    case "disciplinado" => Some(De.Disciplinado(s))
    case "multitasker" => Some(De.Multitasker(i))
    case "velocidad" => Some(De.Velocidad(i))
    case "perfeccion_cuatri" => Some(De.PerfeccionCuatri(n))
    case "pomodoro_master" => Some(De.PomodoroMaster(s))
    case "flashcard_champion" => Some(So.FlashcardChampion(c, hoy))
    case "recursante_exitoso" => Some(De.RecursanteExitoso(n, i))
    case "intensivo_verano" => Some(De.IntensivoVerano(i))
    case _ => None
  }

  lemma CondicionDesafiosDefinida(id: string, d: Datos, c: So.Comunidad, u: string, hoy: Date)
    ensures CondicionDesafios(id, d, c, u, hoy).Some? <==> id in IdsDesafios
  {
  }

  /** The "tiempo y dedicación" section of the table. */
  const IdsTiempo: set<string> := {
    "100_horas_estudio", "500_horas_estudio", "1000_horas_estudio", "madrugon_domingo", "fin_de_semana_warrior"
  }

  function CondicionTiempo(id: string, d: Datos, c: So.Comunidad, u: string, hoy: Date): Option<bool>
  {
    var n := d.notas;
    var i := d.inscripciones;
    var m := d.materias;
    var s := d.sesiones;
    match id
    case "100_horas_estudio" => Some(T.HorasEstudio(s, 100.0))
    case "500_horas_estudio" => Some(T.HorasEstudio(s, 500.0))
    case "1000_horas_estudio" => Some(T.HorasEstudio(s, 1000.0))
    case "madrugon_domingo" => Some(T.MadrugonDomingo(s))
    case "fin_de_semana_warrior" => Some(T.FinDeSemanaWarrior(s))
    case _ => None
  }

  lemma CondicionTiempoDefinida(id: string, d: Datos, c: So.Comunidad, u: string, hoy: Date)
    ensures CondicionTiempo(id, d, c, u, hoy).Some? <==> id in IdsTiempo
  {
  }

  /** The "recovery" section of the table. */
  const IdsRecovery: set<string> := {
    "de_2_a_10", "segunda_oportunidad", "nunca_me_rindo", "recuperatorio_salvador", "remontada",
    "milagro", "phoenix_rise", "del_abismo", "resiliencia", "mejor_version"
  }

  function CondicionRecovery(id: string, d: Datos, c: So.Comunidad, u: string, hoy: Date): Option<bool>
  {
    var n := d.notas;
    var i := d.inscripciones;
    var m := d.materias;
    var s := d.sesiones;
    match id
    case "de_2_a_10" => Some(Rec.De2A10(n))
    case "segunda_oportunidad" => Some(Rec.SegundaOportunidad(n, i))
    case "nunca_me_rindo" => Some(Rec.NuncaMeRindo(n, i))
    case "recuperatorio_salvador" => Some(Rec.RecuperatorioSalvador(n))
    case "remontada" => Some(Rec.Remontada(n, i))
    case "milagro" => Some(Rec.Milagro(n, i))
    case "phoenix_rise" => Some(Rec.PhoenixRise(n))
    case "del_abismo" => Some(Rec.DelAbismo(n))
    case "resiliencia" => Some(Rec.Resiliencia(n, i))
    case "mejor_version" => Some(Rec.MejorVersion(n))
    case _ => None
  }

  lemma CondicionRecoveryDefinida(id: string, d: Datos, c: So.Comunidad, u: string, hoy: Date)
    ensures CondicionRecovery(id, d, c, u, hoy).Some? <==> id in IdsRecovery
  {
  }

  /** The "social" section of the table. */
  const IdsSocial: set<string> := {
    "primer_grupo", "colaborador", "tutor", "mejor_compañero", "lider_equipo",
    "networking", "explicador", "organizador", "comunidad", "mentor_senior"
  }

  function CondicionSocial(id: string, d: Datos, c: So.Comunidad, u: string, hoy: Date): Option<bool>
  {
    var n := d.notas;
    var i := d.inscripciones;
    var m := d.materias;
    var s := d.sesiones;
    match id
    case "primer_grupo" => Some(So.PrimerGrupo(c, u))
    case "colaborador" => Some(So.Colaborador(c, u))
    case "tutor" => Some(So.Tutor(c, u))
    case "mejor_compañero" => Some(So.MejorCompanero(c, u))
    case "lider_equipo" => Some(So.LiderEquipo(c, u))
    case "networking" => Some(So.Networking(c, u))
    case "explicador" => Some(So.Explicador(c, u))
    case "organizador" => Some(So.Organizador(c, u))
    case "comunidad" => Some(So.EnComunidad(c, u))
    case "mentor_senior" => Some(So.MentorSenior(c, u))
    case _ => None
  }

  lemma CondicionSocialDefinida(id: string, d: Datos, c: So.Comunidad, u: string, hoy: Date)
    ensures CondicionSocial(id, d, c, u, hoy).Some? <==> id in IdsSocial
  {
  }

  /** The "curiosos y divertidos" section of the table. */
  const IdsCuriosos: set<string> := {
    "nota_capicua", "fibonacci", "lucky_7", "perfeccion_triple", "viernes_13",
    "año_nuevo", "navidad", "tu_cumpleaños", "medianoche", "maratonista_notas",
    "coleccionista_dieces", "equilibrio_zen", "escalera", "monotonia", "primer_dia_clases"
  }

  function CondicionCuriosos(id: string, d: Datos, c: So.Comunidad, u: string, hoy: Date): Option<bool>
  {
    var n := d.notas;
    var i := d.inscripciones;
    var m := d.materias;
    var s := d.sesiones;
    match id
    case "nota_capicua" => Some(Cu.NotaCapicua(n))
    case "fibonacci" => Some(Cu.FibonacciComoEscrito(n))
    case "lucky_7" => Some(Cu.Lucky7(n))
    case "perfeccion_triple" => Some(Cu.PerfeccionTriple(n))
    case "viernes_13" => Some(Cu.Viernes13(n))
    case "año_nuevo" => Some(Cu.AnioNuevo(s))
    case "navidad" => Some(Cu.Navidad(s))
    case "tu_cumpleaños" => Some(So.TuCumpleanos(c, u, n))
    case "medianoche" => Some(Cu.Medianoche(s))
    case "maratonista_notas" => Some(Cu.MaratonistaNotas(n))
    case "coleccionista_dieces" => Some(Cu.ColeccionistaDieces(n))
    case "equilibrio_zen" => Some(Cu.EquilibrioZen(n))
    case "escalera" => Some(Cu.Escalera(n))
    case "monotonia" => Some(Cu.Monotonia(n))
    case "primer_dia_clases" => Some(Cu.PrimerDiaClases(n, i))
    case _ => None
  }

  lemma CondicionCuriososDefinida(id: string, d: Datos, c: So.Comunidad, u: string, hoy: Date)
    ensures CondicionCuriosos(id, d, c, u, hoy).Some? <==> id in IdsCuriosos
  {
  }

  /** The "negativos/humorísticos" section of the table. */
  const IdsNegativos: set<string> := {
    "primer_tropiezo", "mala_racha", "procrastinador", "racha_4s", "peor_nota",
    "recursante", "casi"
  }

  function CondicionNegativos(id: string, d: Datos, c: So.Comunidad, u: string, hoy: Date): Option<bool>
  {
    var n := d.notas;
    var i := d.inscripciones;
    var m := d.materias;
    var s := d.sesiones;
    match id
    case "primer_tropiezo" => Some(Ne.PrimerTropiezo(n))
    case "mala_racha" => Some(Ne.MalaRacha(n))
    case "procrastinador" => Some(Ne.Procrastinador(n, s))
    case "racha_4s" => Some(Ne.Racha4s(n))
    case "peor_nota" => Some(Ne.PeorNota(n))
    case "recursante" => Some(Ne.Recursante(i))
    case "casi" => Some(Ne.Casi(n))
    case _ => None
  }

  lemma CondicionNegativosDefinida(id: string, d: Datos, c: So.Comunidad, u: string, hoy: Date)
    ensures CondicionNegativos(id, d, c, u, hoy).Some? <==> id in IdsNegativos
  {
  }

  /** The "finales y graduación" section of the table. */
  const IdsFinales: set<string> := {
    "ultimo_parcial", "ultimo_final", "todas_aprobadas", "promedio_final_8", "promedio_final_9"
  }

  function CondicionFinales(id: string, d: Datos, c: So.Comunidad, u: string, hoy: Date): Option<bool>
  {
    var n := d.notas;
    var i := d.inscripciones;
    var m := d.materias;
    var s := d.sesiones;
    match id
    case "ultimo_parcial" => Some(Ne.UltimoParcial(i, m, n))
    case "ultimo_final" => Some(Ne.UltimoFinal(i, m, n))
    case "todas_aprobadas" => Some(Ne.TodasAprobadasCarrera(i, m))
    case "promedio_final_8" => Some(Ne.PromedioFinal(n, i, m, 8.0))
    case "promedio_final_9" => Some(Ne.PromedioFinal(n, i, m, 9.0))
    case _ => None
  }

  lemma CondicionFinalesDefinida(id: string, d: Datos, c: So.Comunidad, u: string, hoy: Date)
    ensures CondicionFinales(id, d, c, u, hoy).Some? <==> id in IdsFinales
  {
  }

  /** `id` is a key of the dispatch table: an id of one of its sections. */
  predicate EnTabla(id: string)
  {
    id in IdsPrimeros ||
    id in IdsRachas ||
    id in IdsColecciones ||
    id in IdsPromedios ||
    id in IdsProgreso ||
    id in IdsEspecialidades ||
    id in IdsDesafios ||
    id in IdsTiempo ||
    id in IdsRecovery ||
    id in IdsSocial ||
    id in IdsCuriosos ||
    id in IdsNegativos ||
    id in IdsFinales
  }

  /**
   * The condition registered under `id`, evaluated on the user's lists `d`,
   * the database tables `c`, the user id `u` and today's date `hoy`; `None`
   * when the table has no entry for `id`. The sections are merged in order.
   */
  function Condicion(id: string, d: Datos, c: So.Comunidad, u: string, hoy: Date): Option<bool>
  {
    OSino(CondicionPrimeros(id, d, c, u, hoy),
    OSino(CondicionRachas(id, d, c, u, hoy),
    OSino(CondicionColecciones(id, d, c, u, hoy),
    OSino(CondicionPromedios(id, d, c, u, hoy),
    OSino(CondicionProgreso(id, d, c, u, hoy),
    OSino(CondicionEspecialidades(id, d, c, u, hoy),
    OSino(CondicionDesafios(id, d, c, u, hoy),
    OSino(CondicionTiempo(id, d, c, u, hoy),
    OSino(CondicionRecovery(id, d, c, u, hoy),
    OSino(CondicionSocial(id, d, c, u, hoy),
    OSino(CondicionCuriosos(id, d, c, u, hoy),
    OSino(CondicionNegativos(id, d, c, u, hoy),
          CondicionFinales(id, d, c, u, hoy)))))))))))))
  }

  /** The first of two lookups that finds an entry. */
  function OSino(a: Option<bool>, b: Option<bool>): Option<bool>
  {
    if a.Some? then a else b
  }

  /** The dictionary has an entry exactly for the ids of its sections. */
  lemma CondicionDefinida(id: string, d: Datos, c: So.Comunidad, u: string, hoy: Date)
    ensures Condicion(id, d, c, u, hoy).Some? <==> EnTabla(id)
  {
    CondicionPrimerosDefinida(id, d, c, u, hoy);
    CondicionRachasDefinida(id, d, c, u, hoy);
    CondicionColeccionesDefinida(id, d, c, u, hoy);
    CondicionPromediosDefinida(id, d, c, u, hoy);
    CondicionProgresoDefinida(id, d, c, u, hoy);
    CondicionEspecialidadesDefinida(id, d, c, u, hoy);
    CondicionDesafiosDefinida(id, d, c, u, hoy);
    CondicionTiempoDefinida(id, d, c, u, hoy);
    CondicionRecoveryDefinida(id, d, c, u, hoy);
    CondicionSocialDefinida(id, d, c, u, hoy);
    CondicionCuriososDefinida(id, d, c, u, hoy);
    CondicionNegativosDefinida(id, d, c, u, hoy);
    CondicionFinalesDefinida(id, d, c, u, hoy);
  }

  /** `verificar_logro`: the registered condition's verdict, and false for an id without one. */
  predicate VerificarLogro(id: string, d: Datos, c: So.Comunidad, u: string, hoy: Date)
  {
    match Condicion(id, d, c, u, hoy)
    case Some(b) => b
    case None => false
  }

  /** An id outside the table never unlocks anything. */
  lemma DesconocidoNoCumple(id: string, d: Datos, c: So.Comunidad, u: string, hoy: Date)
    requires !EnTabla(id)
    ensures !VerificarLogro(id, d, c, u, hoy)
  {
    CondicionDefinida(id, d, c, u, hoy);
  }

  /** A row of `LogroDesbloqueado`: its id, the unlock timestamp and the JSON context, if any. */
  datatype Registro = Registro(id: string, fecha: nat, contexto: Option<string>)

  /** The row id `ld_{logro}_{usuario}_{timestamp}`. */
  function IdRegistro(logro: string, usuario: string, ts: nat): (r: string)
    ensures StartsWith(r, "ld_" + logro + "_" + usuario + "_")
  {
    "ld_" + logro + "_" + usuario + "_" + NatToString(ts)
  }

  /** The unlocked achievements of user `u`: the achievement halves of the keys held for `u`. */
  function DesbloqueadosDe(m: map<(string, string), Registro>, u: string): set<string>
  {
    set k | k in m.Keys && k.1 == u :: k.0
  }

  /**
   * `desbloquear_logro` on the table `m`, keyed by (achievement, user): a
   * new row when the pair has none, and the table unchanged otherwise.
   */
  function Desbloqueo(m: map<(string, string), Registro>, logro: string, usuario: string, ahora: nat, contexto: Option<string>)
    : (r: map<(string, string), Registro>)
    ensures r.Keys == m.Keys + {(logro, usuario)}
    ensures forall k :: k in m ==> r[k] == m[k]
    ensures (logro, usuario) !in m ==> r[(logro, usuario)] == Registro(IdRegistro(logro, usuario, ahora), ahora, contexto)
  {
    if (logro, usuario) in m then m
    else m[(logro, usuario) := Registro(IdRegistro(logro, usuario, ahora), ahora, contexto)]
  }

  /** A second unlock of the same pair changes nothing, whatever its timestamp and context. */
  lemma DesbloqueoIdempotente(m: map<(string, string), Registro>, logro: string, usuario: string,
                              t1: nat, c1: Option<string>, t2: nat, c2: Option<string>)
    ensures Desbloqueo(Desbloqueo(m, logro, usuario, t1, c1), logro, usuario, t2, c2) == Desbloqueo(m, logro, usuario, t1, c1)
  {
  }

  /** Unlocking each id of `ids` in turn for user `u`, without context (the pass's calls). */
  function DesbloquearTodos(m: map<(string, string), Registro>, ids: seq<string>, u: string, ahora: nat)
    : map<(string, string), Registro>
    decreases |ids|
  {
    if ids == [] then m
    else Desbloqueo(DesbloquearTodos(m, ids[..|ids| - 1], u, ahora), ids[|ids| - 1], u, ahora, None)
  }

  lemma DesbloquearTodosSnoc(m: map<(string, string), Registro>, ids: seq<string>, x: string, u: string, ahora: nat)
    ensures DesbloquearTodos(m, ids + [x], u, ahora) == Desbloqueo(DesbloquearTodos(m, ids, u, ahora), x, u, ahora, None)
  {
    assert (ids + [x])[..|ids|] == ids;
  }

  /** Unlocking a list adds exactly its pairs with `u` and keeps every earlier row. */
  lemma {:induction false} DesbloquearTodosClaves(m: map<(string, string), Registro>, ids: seq<string>, u: string, ahora: nat)
    ensures DesbloquearTodos(m, ids, u, ahora).Keys == m.Keys + set x | x in ids :: (x, u)
    ensures forall k :: k in m ==> DesbloquearTodos(m, ids, u, ahora)[k] == m[k]
    decreases |ids|
  {
    if ids != [] {
      var ini := ids[..|ids| - 1];
      DesbloquearTodosClaves(m, ini, u, ahora);
      assert ids == ini + [ids[|ids| - 1]];
      assert (set x | x in ids :: (x, u)) == (set x | x in ini :: (x, u)) + {(ids[|ids| - 1], u)};
    }
  }

  /** The test the pass applies to each achievement not yet unlocked. */
  function Cumple(d: Datos, c: So.Comunidad, u: string, hoy: Date): string -> bool
  {
    (id: string) => VerificarLogro(id, d, c, u, hoy)
  }

  function NuevoPara(previos: set<string>, cumple: string -> bool): string -> bool
  {
    (id: string) => id !in previos && cumple(id)
  }

  /** The achievements the pass reports: those not unlocked before it whose condition holds, in catalogue order. */
  function Nuevos(logros: seq<string>, previos: set<string>, cumple: string -> bool): seq<string>
  {
    Filter(logros, NuevoPara(previos, cumple))
  }

  /** The `LogroDesbloqueado` table. */
  class LogroStore {
    var desbloqueados: map<(string, string), Registro>

    constructor ()
      ensures desbloqueados == map[]
    {
      desbloqueados := map[];
    }

    /** `desbloquear_logro`: true exactly when the pair had no row, which it then gets. */
    method Desbloquear(logro: string, usuario: string, ahora: nat, contexto: Option<string>) returns (nuevo: bool)
      modifies this
      ensures nuevo <==> (logro, usuario) !in old(desbloqueados)
      ensures desbloqueados == Desbloqueo(old(desbloqueados), logro, usuario, ahora, contexto)
    {
      if (logro, usuario) in desbloqueados {
        return false;
      }
      desbloqueados := desbloqueados[(logro, usuario) := Registro(IdRegistro(logro, usuario, ahora), ahora, contexto)];
      return true;
    }

    /**
     * `verificar_y_desbloquear_logros` over the catalogue `logros`: skips the
     * achievements the user had unlocked when the pass began, unlocks each
     * other one whose condition holds, and returns those in order.
     */
    method VerificarYDesbloquear(logros: seq<string>, d: Datos, c: So.Comunidad, u: string, hoy: Date, ahora: nat)
      returns (nuevos: seq<string>)
      modifies this
      ensures nuevos == Nuevos(logros, DesbloqueadosDe(old(desbloqueados), u), Cumple(d, c, u, hoy))
      ensures desbloqueados == DesbloquearTodos(old(desbloqueados), nuevos, u, ahora)
    {
      nuevos := Pasada(logros, u, Cumple(d, c, u, hoy), ahora);
    }

    /** The loop of the pass, for any condition test `cumple`. */
    method Pasada(logros: seq<string>, u: string, cumple: string -> bool, ahora: nat) returns (nuevos: seq<string>)
      modifies this
      ensures nuevos == Nuevos(logros, DesbloqueadosDe(old(desbloqueados), u), cumple)
      ensures desbloqueados == DesbloquearTodos(old(desbloqueados), nuevos, u, ahora)
    {
      var previos := DesbloqueadosDe(desbloqueados, u);
      nuevos := [];
      var k := 0;
      while k < |logros|
        invariant 0 <= k <= |logros|
        invariant nuevos == Nuevos(logros[..k], previos, cumple)
        invariant desbloqueados == DesbloquearTodos(old(desbloqueados), nuevos, u, ahora)
      {
        var id := logros[k];
        FilterSnoc(logros, k, NuevoPara(previos, cumple));
        if id !in previos && cumple(id) {
          assert NuevoPara(previos, cumple)(id);
          var _ := Desbloquear(id, u, ahora, None);
          DesbloquearTodosSnoc(old(desbloqueados), nuevos, id, u, ahora);
          nuevos := nuevos + [id];
        } else {
          assert !NuevoPara(previos, cumple)(id);
        }
        k := k + 1;
      }
      assert logros[..k] == logros;
    }
  }

  /**
   * What the pass reports was not unlocked before, holds its condition, and
   * is unlocked after; and every achievement that holds its condition is
   * unlocked after the pass, before or by it.
   */
  lemma NuevosCorrectos(m: map<(string, string), Registro>, logros: seq<string>, u: string, cumple: string -> bool, ahora: nat)
    ensures var nuevos := Nuevos(logros, DesbloqueadosDe(m, u), cumple);
      var m' := DesbloquearTodos(m, nuevos, u, ahora);
      (forall i :: 0 <= i < |nuevos| ==> nuevos[i] !in DesbloqueadosDe(m, u) && cumple(nuevos[i]) && nuevos[i] in DesbloqueadosDe(m', u)) &&
      (forall i :: 0 <= i < |logros| && cumple(logros[i]) ==> logros[i] in DesbloqueadosDe(m', u))
  {
    var nuevos := Nuevos(logros, DesbloqueadosDe(m, u), cumple);
    var m' := DesbloquearTodos(m, nuevos, u, ahora);
    DesbloquearTodosClaves(m, nuevos, u, ahora);
    forall i | 0 <= i < |nuevos|
      ensures nuevos[i] in DesbloqueadosDe(m', u)
    {
      assert (nuevos[i], u) in m'.Keys;
    }
    forall i | 0 <= i < |logros| && cumple(logros[i])
      ensures logros[i] in DesbloqueadosDe(m', u)
    {
      if logros[i] in DesbloqueadosDe(m, u) {
        var k :| k in m.Keys && k.1 == u && k.0 == logros[i];
        assert k in m'.Keys;
      } else {
        assert NuevoPara(DesbloqueadosDe(m, u), cumple)(logros[i]);
        assert logros[i] in nuevos;
        assert (logros[i], u) in m'.Keys;
      }
    }
  }

  /** A second pass over the same catalogue and data right after the first reports nothing. */
  lemma SegundaPasadaVacia(m: map<(string, string), Registro>, logros: seq<string>, u: string, cumple: string -> bool, ahora: nat, ahora': nat)
    ensures var m' := DesbloquearTodos(m, Nuevos(logros, DesbloqueadosDe(m, u), cumple), u, ahora);
      Nuevos(logros, DesbloqueadosDe(m', u), cumple) == []
  {
    var m' := DesbloquearTodos(m, Nuevos(logros, DesbloqueadosDe(m, u), cumple), u, ahora);
    NuevosCorrectos(m, logros, u, cumple, ahora);
    var p := NuevoPara(DesbloqueadosDe(m', u), cumple);
    assert forall i :: 0 <= i < |logros| ==> !p(logros[i]);
    FilterCount(logros, p);
    CountCero(logros, p);
  }
}
