/**
 * The subject routes of the backend: enrolments, grades, classes and
 * planning events over four tables. Each handler is a function from the
 * tables before the request to the tables after it and the response; the
 * class `BaseMaterias` holds the tables and runs the handlers as methods
 * that update them in place. An enrolment, grade or class belongs to the
 * authenticated user `u` when its `usuario_id` is `u`.
 */
module Materias {
  import opened Common
  import opened Strings
  import opened Dates

  // ----- Rows -----

  /**
   * The columns of an enrolment that `update_inscripcion` may write
   * (`allowed_fields`); every one of them is nullable, `None` being NULL.
   */
  datatype Editables = Editables(
    estado: Option<string>, cuatrimestre: Option<string>, anoAcademico: Option<int>, promocionada: Option<bool>,
    notaFinal: Option<real>, estadoFinal: Option<string>, observaciones: Option<string>,
    progresoClases: Option<int>, totalClases: Option<int>,
    fechaRegularizacion: Option<Date>, fechaAprobacion: Option<Date>)

  /**
   * An `InscripcionMateria` row: the columns no payload writes, the
   * `fecha_actualizacion` timestamp and the editable columns. Nullable
   * columns are options.
   */
  datatype InscripcionMateria = InscripcionMateria(
    id: string, usuarioId: string, materiaId: string, materiaCodigo: string, carreraId: string,
    intento: int, recursada: bool, fechaInscripcion: Date, fechaActualizacion: nat, campos: Editables)

  /** A `Nota` row. */
  datatype NotaFila = NotaFila(
    id: string, inscripcionId: string, usuarioId: string, materiaId: string,
    tipoEvaluacion: string, numeroEvaluacion: Option<int>, titulo: string, nota: real, fecha: Date,
    esParcial: bool, esFinal: bool, esTp: bool, esRecuperatorio: bool, influyePromedio: bool,
    aprobada: bool, cuatrimestre: Option<string>, observaciones: Option<string>)

  /**
   * A `Clase` row with the columns the handlers read or the tracker shows;
   * `participacion` is nullable, and a NULL flag is stored as false.
   */
  datatype Clase = Clase(
    id: string, inscripcionId: string, numeroClase: int, titulo: string, fecha: Date,
    esCheckpoint: bool, asistio: bool, participacion: Option<int>, completada: bool)

  /** An `EventoPlanificacion` row. */
  datatype Evento = Evento(
    usuarioId: string, titulo: string, fecha: Date, tipo: string, materiaId: Option<string>,
    color: string, prioridad: int, completado: bool)

  /** The four tables, keyed by primary key; events keep their insertion order. */
  datatype Db = Db(
    inscripciones: map<string, InscripcionMateria>, notas: map<string, NotaFila>,
    clases: map<string, Clase>, eventos: seq<Evento>)

  /** A successful response, or the HTTP status of the error raised. */
  datatype Respuesta = Hecho | Rechazo(status: int)

  /** A JSON value of a free-form `dict` payload. */
  datatype Valor = Nulo | Texto(s: string) | Entero(n: int) | Decimal(x: real) | Booleano(b: bool)

  /** Python truthiness of a JSON value. */
  predicate Truthy(v: Valor)
  {
    match v
    case Nulo => false
    case Texto(s) => s != ""
    case Entero(n) => n != 0
    case Decimal(x) => x != 0.0
    case Booleano(b) => b
  }

  /** `data[k]` of the dict the pairs build: the last pair with that key wins. */
  function Buscar(data: seq<(string, Valor)>, k: string): (r: Option<Valor>)
    ensures r.None? <==> forall i :: 0 <= i < |data| ==> data[i].0 != k
    ensures r.Some? ==> (k, r.value) in data
  {
    if data == [] then None
    else if data[|data| - 1].0 == k then Some(data[|data| - 1].1)
    else
      var r := Buscar(data[..|data| - 1], k);
      assert forall p :: p in data[..|data| - 1] ==> p in data;
      r
  }

  predicate DeUsuario(db: Db, inscId: string, u: string)
  {
    inscId in db.inscripciones && db.inscripciones[inscId].usuarioId == u
  }

  /** `o.value`, or `actual` for a missing value. */
  function O<T>(o: Option<T>, actual: T): T
  {
    if o.Some? then o.value else actual
  }

  // ----- Grades: approval and the status a final propagates -----

  /** `nota >= 4 if nota >= 0 else False`: the sentinel branch adds nothing to the threshold. */
  function Aprobada(nota: real): (r: bool)
    ensures r <==> nota >= 4.0
    ensures nota < 0.0 ==> !r
  {
    if nota >= 0.0 then nota >= 4.0 else false
  }

  function EstadoFinal(nota: real): string
  {
    if nota >= 7.0 then "promocionado" else "aprobado"
  }

  /**
   * The enrolment after an approved final: status `aprobada`, the approval
   * date, the final grade and `promocionado` from 7 up, `aprobado` below.
   * Nothing else changes.
   */
  function ConFinal(i: InscripcionMateria, nota: real, fecha: Date): (r: InscripcionMateria)
    ensures r.campos.estado == Some("aprobada") && r.campos.fechaAprobacion == Some(fecha)
    ensures r.campos.notaFinal == Some(nota)
    ensures r.campos.estadoFinal == Some("promocionado") <==> nota >= 7.0
    ensures r.campos.estadoFinal == Some("aprobado") <==> nota < 7.0
    ensures r.(campos := i.campos) == i
    ensures r.campos.(estado := i.campos.estado, fechaAprobacion := i.campos.fechaAprobacion,
                      notaFinal := i.campos.notaFinal, estadoFinal := i.campos.estadoFinal) == i.campos
  {
    i.(campos := i.campos.(estado := Some("aprobada"), fechaAprobacion := Some(fecha), notaFinal := Some(nota),
                           estadoFinal := Some(EstadoFinal(nota))))
  }

  /** The `NotaCreate` payload. */
  datatype NotaCreate = NotaCreate(
    inscripcionId: string, titulo: string, nota: real, fecha: Date, tipoEvaluacion: string,
    esParcial: bool, esFinal: bool, esTp: bool, esRecuperatorio: bool, influyePromedio: bool,
    observaciones: Option<string>, cuatrimestre: Option<string>, numeroEvaluacion: Option<int>)

  /** The grade row `crear_nota` inserts for enrolment `insc`. */
  function NuevaNota(u: string, data: NotaCreate, insc: InscripcionMateria, notaId: string): (n: NotaFila)
    ensures n.aprobada <==> data.nota >= 4.0
    ensures n.id == notaId && n.usuarioId == u && n.inscripcionId == data.inscripcionId
    ensures n.materiaId == insc.materiaId && n.nota == data.nota && n.esFinal == data.esFinal
  {
    NotaFila(notaId, data.inscripcionId, u, insc.materiaId, data.tipoEvaluacion, data.numeroEvaluacion,
             data.titulo, data.nota, data.fecha, data.esParcial, data.esFinal, data.esTp,
             data.esRecuperatorio, data.influyePromedio, Aprobada(data.nota), data.cuatrimestre,
             data.observaciones)
  }

  /** `crear_nota`: 404 unless the enrolment is the user's; an approved final approves the enrolment. */
  function CrearNota(db: Db, u: string, data: NotaCreate, notaId: string): (Db, Respuesta)
  {
    if !DeUsuario(db, data.inscripcionId, u) then (db, Rechazo(404))
    else
      var insc := db.inscripciones[data.inscripcionId];
      var nota := NuevaNota(u, data, insc, notaId);
      var inscs := if data.esFinal && nota.aprobada && data.nota >= 4.0
                   then db.inscripciones[data.inscripcionId := ConFinal(insc, data.nota, data.fecha)]
                   else db.inscripciones;
      (db.(notas := db.notas[notaId := nota], inscripciones := inscs), Hecho)
  }

  /**
   * A field of a payload read with `exclude_unset`: not sent, sent as JSON
   * null, or sent with a value.
   */
  datatype Campo<T> = SinEnviar | EnviadoNulo | Enviado(v: T)

  /** The `NotaUpdate` payload; Pydantic has already checked each sent value's type. */
  datatype NotaUpdate = NotaUpdate(
    titulo: Campo<string>, nota: Campo<real>, fecha: Campo<Date>, tipoEvaluacion: Campo<string>,
    esParcial: Campo<bool>, esFinal: Campo<bool>, esTp: Campo<bool>, esRecuperatorio: Campo<bool>,
    influyePromedio: Campo<bool>, observaciones: Campo<string>, cuatrimestre: Campo<string>)

  /** A NOT NULL column: a null sent for it makes the commit fail. */
  predicate NuloEnObligatoria(c: NotaUpdate)
  {
    c.titulo.EnviadoNulo? || c.nota.EnviadoNulo? || c.fecha.EnviadoNulo? || c.tipoEvaluacion.EnviadoNulo?
  }

  /** `setattr` of a NOT NULL column; only called when no null was sent for it. */
  function Obligatoria<T>(c: Campo<T>, actual: T): T
  {
    if c.Enviado? then c.v else actual
  }

  /** `setattr` of a nullable boolean column; a NULL flag is stored as false. */
  function Bandera(c: Campo<bool>, actual: bool): bool
  {
    match c
    case SinEnviar => actual
    case EnviadoNulo => false
    case Enviado(b) => b
  }

  /** `setattr` of a nullable column: a null clears it. */
  function Anulable<T>(c: Campo<T>, actual: Option<T>): Option<T>
  {
    match c
    case SinEnviar => actual
    case EnviadoNulo => None
    case Enviado(x) => Some(x)
  }

  /** `setattr` of every sent field; the identity columns and `aprobada` are not in the payload. */
  function CambiarNota(n: NotaFila, c: NotaUpdate): (r: NotaFila)
    requires !NuloEnObligatoria(c)
  {
    n.(titulo := Obligatoria(c.titulo, n.titulo), nota := Obligatoria(c.nota, n.nota),
       fecha := Obligatoria(c.fecha, n.fecha), tipoEvaluacion := Obligatoria(c.tipoEvaluacion, n.tipoEvaluacion),
       esParcial := Bandera(c.esParcial, n.esParcial), esFinal := Bandera(c.esFinal, n.esFinal),
       esTp := Bandera(c.esTp, n.esTp), esRecuperatorio := Bandera(c.esRecuperatorio, n.esRecuperatorio),
       influyePromedio := Bandera(c.influyePromedio, n.influyePromedio),
       observaciones := Anulable(c.observaciones, n.observaciones), cuatrimestre := Anulable(c.cuatrimestre, n.cuatrimestre))
  }

  /** Every sent field is read back, nullable ones cleared by a null; nothing else moves. */
  lemma CambiarNotaCampos(n: NotaFila, c: NotaUpdate)
    requires !NuloEnObligatoria(c)
    ensures var r := CambiarNota(n, c);
      r.id == n.id && r.inscripcionId == n.inscripcionId && r.usuarioId == n.usuarioId &&
      r.materiaId == n.materiaId && r.aprobada == n.aprobada &&
      r.numeroEvaluacion == n.numeroEvaluacion &&
      (c.nota.Enviado? ==> r.nota == c.nota.v) && (c.nota.SinEnviar? ==> r.nota == n.nota) &&
      (c.titulo.Enviado? ==> r.titulo == c.titulo.v) && (c.titulo.SinEnviar? ==> r.titulo == n.titulo) &&
      (c.esFinal.Enviado? ==> r.esFinal == c.esFinal.v) && (c.esFinal.SinEnviar? ==> r.esFinal == n.esFinal) &&
      (c.esFinal.EnviadoNulo? ==> !r.esFinal) &&
      (c.observaciones.EnviadoNulo? ==> r.observaciones.None?) &&
      (c.observaciones.Enviado? ==> r.observaciones == Some(c.observaciones.v)) &&
      (c.observaciones.SinEnviar? ==> r.observaciones == n.observaciones) &&
      (c.cuatrimestre.EnviadoNulo? ==> r.cuatrimestre.None?) &&
      (c.cuatrimestre.SinEnviar? ==> r.cuatrimestre == n.cuatrimestre)
  {
  }

  /**
   * `actualizar_nota`: 404 unless the grade is the user's; 500 when `nota`
   * is sent as null (`nota.nota >= 0` raises) or a null reaches another NOT
   * NULL column (the commit fails). `aprobada` is recomputed only when a
   * grade value is sent, and only then can an approved final approve the
   * user's enrolment.
   */
  function ActualizarNota(db: Db, u: string, notaId: string, c: NotaUpdate): (Db, Respuesta)
  {
    if !(notaId in db.notas && db.notas[notaId].usuarioId == u) then (db, Rechazo(404))
    else if NuloEnObligatoria(c) then (db, Rechazo(500))
    else
      var n := CambiarNota(db.notas[notaId], c);
      var n2 := if c.nota.Enviado? then n.(aprobada := Aprobada(n.nota)) else n;
      var inscs := if c.nota.Enviado? && n2.esFinal && n2.aprobada && n2.nota >= 4.0 && DeUsuario(db, n2.inscripcionId, u)
                   then db.inscripciones[n2.inscripcionId := ConFinal(db.inscripciones[n2.inscripcionId], n2.nota, n2.fecha)]
                   else db.inscripciones;
      (db.(notas := db.notas[notaId := n2], inscripciones := inscs), Hecho)
  }

  /** `eliminar_nota`: 404 unless the grade is the user's; otherwise the row is deleted. */
  function EliminarNota(db: Db, u: string, notaId: string): (Db, Respuesta)
  {
    if !(notaId in db.notas && db.notas[notaId].usuarioId == u) then (db, Rechazo(404))
    else (db.(notas := db.notas - {notaId}), Hecho)
  }

  // ----- Enrolments -----

  /** The `InscripcionCreate` payload. */
  datatype InscripcionCreate = InscripcionCreate(
    materiaId: string, materiaCodigo: string, carreraId: string, estado: string, intento: int,
    recursada: bool, fechaInscripcion: Option<Date>, cuatrimestre: Option<string>, anoAcademico: Option<int>)

  /** The key of the unique constraint `uq_inscripcion_usuario_materia_intento`. */
  function Clave(i: InscripcionMateria): (string, string, int)
  {
    (i.usuarioId, i.materiaId, i.intento)
  }

  predicate Duplicada(db: Db, u: string, materiaId: string, intento: int)
  {
    exists k :: k in db.inscripciones && Clave(db.inscripciones[k]) == (u, materiaId, intento)
  }

  /** The new enrolment: today when no date is given, no classes yet. */
  function NuevaInscripcion(u: string, data: InscripcionCreate, inscId: string, hoy: Date, ahora: nat): InscripcionMateria
  {
    InscripcionMateria(inscId, u, data.materiaId, data.materiaCodigo, data.carreraId, data.intento,
                       data.recursada, O(data.fechaInscripcion, hoy), ahora,
                       Editables(Some(data.estado), data.cuatrimestre, data.anoAcademico, Some(false), None, None, None,
                                 Some(0), Some(0), None, None))
  }

  /** `crear_inscripcion`: 400 when the user already holds that (subject, attempt). */
  function CrearInscripcion(db: Db, u: string, data: InscripcionCreate, inscId: string, hoy: Date, ahora: nat): (Db, Respuesta)
  {
    if Duplicada(db, u, data.materiaId, data.intento) then (db, Rechazo(400))
    else (db.(inscripciones := db.inscripciones[inscId := NuevaInscripcion(u, data, inscId, hoy, ahora)]), Hecho)
  }

  /** `eliminar_inscripcion`: the enrolment goes, and every grade and class of it with it. */
  function EliminarInscripcion(db: Db, u: string, inscId: string): (Db, Respuesta)
  {
    if !DeUsuario(db, inscId, u) then (db, Rechazo(404))
    else
      (db.(inscripciones := db.inscripciones - {inscId},
           notas := map k | k in db.notas && db.notas[k].inscripcionId != inscId :: db.notas[k],
           clases := map k | k in db.clases && db.clases[k].inscripcionId != inscId :: db.clases[k]),
       Hecho)
  }

  // ----- The field whitelist of update_inscripcion -----

  /** `allowed_fields`. */
  const Permitidos: set<string> := {
    "estado", "cuatrimestre", "ano_academico", "promocionada", "nota_final", "estado_final",
    "observaciones", "progreso_clases", "total_clases", "fecha_regularizacion", "fecha_aprobacion"}

  /** The columns of the whitelist. */
  datatype Columna = Estado | Cuatrimestre | AnoAcademico | Promocionada | NotaFinal | EstadoFinal
                   | Observaciones | ProgresoClases | TotalClases | FechaRegularizacion | FechaAprobacion

  /** The attribute name of a column. */
  function NombreColumna(c: Columna): string
  {
    match c
    case Estado => "estado"
    case Cuatrimestre => "cuatrimestre"
    case AnoAcademico => "ano_academico"
    case Promocionada => "promocionada"
    case NotaFinal => "nota_final"
    case EstadoFinal => "estado_final"
    case Observaciones => "observaciones"
    case ProgresoClases => "progreso_clases"
    case TotalClases => "total_clases"
    case FechaRegularizacion => "fecha_regularizacion"
    case FechaAprobacion => "fecha_aprobacion"
  }

  /** `key in allowed_fields`: the column a payload key names, if it is whitelisted. */
  function ColumnaDe(k: string): Option<Columna>
  {
    match k
    case "estado" => Some(Estado)
    case "cuatrimestre" => Some(Cuatrimestre)
    case "ano_academico" => Some(AnoAcademico)
    case "promocionada" => Some(Promocionada)
    case "nota_final" => Some(NotaFinal)
    case "estado_final" => Some(Columna.EstadoFinal)
    case "observaciones" => Some(Observaciones)
    case "progreso_clases" => Some(ProgresoClases)
    case "total_clases" => Some(TotalClases)
    case "fecha_regularizacion" => Some(FechaRegularizacion)
    case "fecha_aprobacion" => Some(FechaAprobacion)
    case _ => None
  }

  /** Every column's name is a whitelisted key naming that column. */
  lemma ColumnaDeNombre(c: Columna)
    ensures ColumnaDe(NombreColumna(c)) == Some(c)
    ensures NombreColumna(c) in Permitidos
  {
  }

  /** A key names a column exactly when it is whitelisted, and then it is that column's name. */
  lemma NombreDeColumna(k: string)
    ensures ColumnaDe(k).Some? <==> k in Permitidos
    ensures ColumnaDe(k).Some? ==> NombreColumna(ColumnaDe(k).value) == k
  {
  }

  /** An editable column's value, whatever its type; `Nada` is SQL NULL. */
  datatype Celda = Nada | Txt(s: string) | Num(n: int) | Real(x: real) | Bool(b: bool) | Dia(d: Date)

  function TxtO(o: Option<string>): Celda { if o.Some? then Txt(o.value) else Nada }
  function NumO(o: Option<int>): Celda { if o.Some? then Num(o.value) else Nada }
  function RealO(o: Option<real>): Celda { if o.Some? then Real(o.value) else Nada }
  function BoolO(o: Option<bool>): Celda { if o.Some? then Bool(o.value) else Nada }
  function DiaO(o: Option<Date>): Celda { if o.Some? then Dia(o.value) else Nada }

  /** `getattr(insc, columna)` for the whitelisted columns. */
  function Leer(e: Editables, columna: Columna): Celda
  {
    match columna
    case Estado => TxtO(e.estado)
    case Cuatrimestre => TxtO(e.cuatrimestre)
    case AnoAcademico => NumO(e.anoAcademico)
    case Promocionada => BoolO(e.promocionada)
    case NotaFinal => RealO(e.notaFinal)
    case EstadoFinal => TxtO(e.estadoFinal)
    case Observaciones => TxtO(e.observaciones)
    case ProgresoClases => NumO(e.progresoClases)
    case TotalClases => NumO(e.totalClases)
    case FechaRegularizacion => DiaO(e.fechaRegularizacion)
    case FechaAprobacion => DiaO(e.fechaAprobacion)
  }

  /** `datetime.strptime(s, "%Y-%m-%d")`: four year digits, one or two month and day digits, a real date. */
  function Strptime(s: string): (r: Option<Date>)
    ensures r.Some? ==> ValidDate(r.value) && r.value.year >= 1
  {
    var parts := Split(s, '-');
    if |parts| == 3 && |parts[0]| == 4 && AllDigits(parts[0]) &&
       1 <= |parts[1]| <= 2 && AllDigits(parts[1]) && 1 <= |parts[2]| <= 2 && AllDigits(parts[2])
    then
      var d := Date(ParseNat(parts[0]), ParseNat(parts[1]), ParseNat(parts[2]));
      if d.year >= 1 && ValidDate(d) then Some(d) else None
    else None
  }

  /** What one pair did: nothing, new editable columns, or a failure (`strptime` or the commit raised). */
  datatype Efecto = Ignorado | Asignado(e: Editables) | Falla

  predicate EsFecha(c: Columna) { c == FechaRegularizacion || c == FechaAprobacion }

  predicate EsTexto(c: Columna) { c == Estado || c == Cuatrimestre || c == Columna.EstadoFinal || c == Observaciones }

  predicate EsEntero(c: Columna) { c == AnoAcademico || c == ProgresoClases || c == TotalClases }

  /**
   * The cell the column holds after the commit, or `None` when the request
   * fails: every editable column takes null; a date column parses a
   * non-empty string (a bad one raises) and takes no other value, not even
   * the empty string the handler leaves unparsed; the others take a value
   * of their own type, an integer also fitting the float column.
   */
  function Escrita(col: Columna, v: Valor): Option<Celda>
  {
    match v
    case Nulo => Some(Nada)
    case Texto(s) =>
      if EsFecha(col) then
        (if s != "" && Strptime(s).Some? then Some(Dia(Strptime(s).value)) else None)
      else if EsTexto(col) then Some(Txt(s))
      else None
    case Entero(n) =>
      if col == NotaFinal then Some(Real(n as real)) else if EsEntero(col) then Some(Num(n)) else None
    case Decimal(x) => if col == NotaFinal then Some(Real(x)) else None
    case Booleano(b) => if col == Promocionada then Some(Bool(b)) else None
  }

  /** The cell fits the column's type. */
  predicate Cabe(col: Columna, c: Celda)
  {
    match c
    case Nada => true
    case Txt(_) => EsTexto(col)
    case Num(_) => EsEntero(col)
    case Real(_) => col == NotaFinal
    case Bool(_) => col == Promocionada
    case Dia(_) => EsFecha(col)
  }

  /** Every cell the handler can write fits its column. */
  lemma EscritaCabe(col: Columna, v: Valor)
    ensures Escrita(col, v).Some? ==> Cabe(col, Escrita(col, v).value)
  {
  }

  /** Writing a fitting cell `c` into column `col`. */
  function Escribir(e: Editables, col: Columna, c: Celda): Editables
  {
    match col
    case Estado => e.(estado := if c.Txt? then Some(c.s) else None)
    case Cuatrimestre => e.(cuatrimestre := if c.Txt? then Some(c.s) else None)
    case AnoAcademico => e.(anoAcademico := if c.Num? then Some(c.n) else None)
    case Promocionada => e.(promocionada := if c.Bool? then Some(c.b) else None)
    case NotaFinal => e.(notaFinal := if c.Real? then Some(c.x) else None)
    case EstadoFinal => e.(estadoFinal := if c.Txt? then Some(c.s) else None)
    case Observaciones => e.(observaciones := if c.Txt? then Some(c.s) else None)
    case ProgresoClases => e.(progresoClases := if c.Num? then Some(c.n) else None)
    case TotalClases => e.(totalClases := if c.Num? then Some(c.n) else None)
    case FechaRegularizacion => e.(fechaRegularizacion := if c.Dia? then Some(c.d) else None)
    case FechaAprobacion => e.(fechaAprobacion := if c.Dia? then Some(c.d) else None)
  }

  /** A fitting write is read back. */
  lemma EscribirLeer(e: Editables, col: Columna, c: Celda)
    requires Cabe(col, c)
    ensures Leer(Escribir(e, col, c), col) == c
  {
  }

  /**
   * One pair of the payload: a key off the whitelist is ignored; a
   * whitelisted one is written, or fails as `Escrita` says.
   */
  function AsignarInscripcion(e: Editables, k: string, v: Valor): Efecto
  {
    match ColumnaDe(k)
    case None => Ignorado
    case Some(col) =>
      match Escrita(col, v)
      case None => Falla
      case Some(c) => Asignado(Escribir(e, col, c))
  }

  /**
   * A key off the whitelist is ignored; a whitelisted key fails exactly when
   * its value does not fit, and is otherwise written and read back as the
   * cell its value becomes; in particular a null clears the column.
   */
  lemma AsignarEfecto(e: Editables, k: string, v: Valor)
    ensures k !in Permitidos <==> AsignarInscripcion(e, k, v).Ignorado?
    ensures AsignarInscripcion(e, k, v).Falla? <==> k in Permitidos && Escrita(ColumnaDe(k).value, v).None?
    ensures AsignarInscripcion(e, k, v).Asignado? ==>
      k in Permitidos && Leer(AsignarInscripcion(e, k, v).e, ColumnaDe(k).value) == Escrita(ColumnaDe(k).value, v).value
    ensures k in Permitidos && v.Nulo? ==>
      AsignarInscripcion(e, k, v).Asignado? && Leer(AsignarInscripcion(e, k, v).e, ColumnaDe(k).value) == Nada
  {
    NombreDeColumna(k);
    match ColumnaDe(k)
    case None =>
    case Some(col) =>
      EscritaCabe(col, v);
      if Escrita(col, v).Some? {
        EscribirLeer(e, col, Escrita(col, v).value);
      }
  }

  /** What a value does to each kind of column. */
  lemma EscritaCasos(col: Columna, s: string, n: int, b: bool)
    ensures Escrita(col, Nulo) == Some(Nada)
    ensures EsFecha(col) ==> Escrita(col, Texto("")).None? && Escrita(col, Entero(n)).None?
    ensures EsFecha(col) && s != "" ==> (Escrita(col, Texto(s)).Some? <==> Strptime(s).Some?)
    ensures EsTexto(col) ==> Escrita(col, Texto(s)) == Some(Txt(s)) && Escrita(col, Entero(n)).None?
    ensures EsEntero(col) ==> Escrita(col, Entero(n)) == Some(Num(n)) && Escrita(col, Texto(s)).None?
    ensures Escrita(NotaFinal, Entero(n)) == Some(Real(n as real))
    ensures Escrita(Promocionada, Booleano(b)) == Some(Bool(b)) && Escrita(Promocionada, Texto(s)).None?
  {
  }

  /** Writing one column leaves every other column as it was. */
  lemma EscribirMarco(e: Editables, col: Columna, c: Celda, otra: Columna)
    requires otra != col
    ensures Leer(Escribir(e, col, c), otra) == Leer(e, otra)
  {
  }

  /** A pair leaves every column other than the one its key names as it was. */
  lemma AsignarMarco(e: Editables, k: string, v: Valor, otra: Columna)
    requires AsignarInscripcion(e, k, v).Asignado? && k != NombreColumna(otra)
    ensures Leer(AsignarInscripcion(e, k, v).e, otra) == Leer(e, otra)
  {
    NombreDeColumna(k);
    var col := ColumnaDe(k).value;
    EscribirMarco(e, col, Escrita(col, v).value, otra);
  }

  /** The loop over `data.items()`, in order; `None` when one of them raised. */
  function Aplicar(e: Editables, data: seq<(string, Valor)>): Option<Editables>
    decreases |data|
  {
    if data == [] then Some(e)
    else
      match AsignarInscripcion(e, data[0].0, data[0].1)
      case Falla => None
      case Ignorado => Aplicar(e, data[1..])
      case Asignado(e2) => Aplicar(e2, data[1..])
  }

  /**
   * `update_inscripcion`: 404 unless the user's; 500 when a date fails to
   * parse or the commit rejects a value; else the payload and the timestamp.
   */
  function ActualizarInscripcion(db: Db, u: string, inscId: string, data: seq<(string, Valor)>, ahora: nat): (Db, Respuesta)
  {
    if !DeUsuario(db, inscId, u) then (db, Rechazo(404))
    else
      var i := db.inscripciones[inscId];
      match Aplicar(i.campos, data)
      case None => (db, Rechazo(500))
      case Some(e) => (db.(inscripciones := db.inscripciones[inscId := i.(campos := e, fechaActualizacion := ahora)]), Hecho)
  }

  // ----- Classes and the progress counters -----

  /** The `ClaseCreate` payload. */
  datatype ClaseCreate = ClaseCreate(
    inscripcionId: string, numeroClase: int, titulo: string, fecha: Date,
    esCheckpoint: bool, asistio: bool, participacion: int, completada: bool)

  predicate NumeroUsado(db: Db, inscId: string, numero: int)
  {
    exists k :: k in db.clases && db.clases[k].inscripcionId == inscId && db.clases[k].numeroClase == numero
  }

  function NuevaClase(data: ClaseCreate, claseId: string): Clase
  {
    Clase(claseId, data.inscripcionId, data.numeroClase, data.titulo, data.fecha,
          data.esCheckpoint, data.asistio, Some(data.participacion), data.completada)
  }

  /**
   * `crear_clase`: 404, 400 on a repeated class number; 500 when a counter
   * it has to read is NULL (`None + 1`, or comparing with a NULL total);
   * else the class and the counters.
   */
  function CrearClase(db: Db, u: string, data: ClaseCreate, claseId: string): (Db, Respuesta)
  {
    if !DeUsuario(db, data.inscripcionId, u) then (db, Rechazo(404))
    else if NumeroUsado(db, data.inscripcionId, data.numeroClase) then (db, Rechazo(400))
    else
      var i := db.inscripciones[data.inscripcionId];
      var p := i.campos.progresoClases;
      var t := i.campos.totalClases;
      if (data.completada && p.None?) || t.None? then (db, Rechazo(500))
      else
        var i2 := i.(campos := i.campos.(progresoClases := if data.completada then Some(p.value + 1) else p,
                                         totalClases := if data.numeroClase > t.value then Some(data.numeroClase) else t));
        (db.(clases := db.clases[claseId := NuevaClase(data, claseId)],
             inscripciones := db.inscripciones[data.inscripcionId := i2]), Hecho)
  }

  /** A flag column: a boolean, or a null that the row then reads as false. */
  function Flag(v: Valor): Option<bool>
  {
    match v
    case Booleano(b) => Some(b)
    case Nulo => Some(false)
    case _ => None
  }

  /**
   * One `setattr(clase, key, value)` other than `id`, as the commit takes
   * it: `None` when the value does not fit the column (a wrong type, a null
   * in a NOT NULL column, a date that does not parse); a key of no modelled
   * column leaves the modelled ones alone.
   */
  function AsignarClase(c: Clase, k: string, v: Valor): (r: Option<Clase>)
    ensures r.Some? ==> r.value.id == c.id
  {
    match k
    case "inscripcion_id" => if v.Texto? then Some(c.(inscripcionId := v.s)) else None
    case "numero_clase" => if v.Entero? then Some(c.(numeroClase := v.n)) else None
    case "titulo" => if v.Texto? then Some(c.(titulo := v.s)) else None
    case "fecha" => if v.Texto? && Strptime(v.s).Some? then Some(c.(fecha := Strptime(v.s).value)) else None
    case "es_checkpoint" => if Flag(v).Some? then Some(c.(esCheckpoint := Flag(v).value)) else None
    case "asistio" => if Flag(v).Some? then Some(c.(asistio := Flag(v).value)) else None
    case "completada" => if Flag(v).Some? then Some(c.(completada := Flag(v).value)) else None
    case "participacion" =>
      if v.Entero? then Some(c.(participacion := Some(v.n))) else if v.Nulo? then Some(c.(participacion := None)) else None
    case _ => Some(c)
  }

  /** The `setattr` loop over the payload in order, up to the commit; `None` when the commit fails. */
  function AplicarClase(c: Clase, data: seq<(string, Valor)>): (r: Option<Clase>)
    ensures r.Some? ==> r.value.id == c.id
    decreases |data|
  {
    if data == [] then Some(c)
    else
      match AplicarClase(c, data[..|data| - 1])
      case None => None
      case Some(c1) => AsignarClase(c1, data[|data| - 1].0, data[|data| - 1].1)
  }

  function ConProgreso(i: InscripcionMateria, p: Option<int>): InscripcionMateria
  {
    i.(campos := i.campos.(progresoClases := p))
  }

  /** The payload's `completada` toggles the flag, so the counter has to move. */
  predicate MueveContador(anterior: bool, completada: Option<Valor>)
  {
    completada.Some? && (Truthy(completada.value) != anterior)
  }

  /**
   * The progress after `actualizar_clase`: moved only when `completada` is in
   * the payload and toggles, by +1 when it becomes true and by -1, floored
   * at 0, when it becomes false.
   */
  function ProgresoTrasCambio(p: int, anterior: bool, completada: Option<Valor>): int
  {
    match completada
    case None => p
    case Some(v) =>
      if Truthy(v) && !anterior then p + 1
      else if !Truthy(v) && anterior then (if p - 1 > 0 then p - 1 else 0)
      else p
  }

  /**
   * `actualizar_clase`: 404 for a missing class, 403 unless its enrolment is
   * the user's; 500 when the commit rejects a value or a NULL counter has to
   * move. The enrolment is read before the payload is applied, so its
   * counter moves even if the payload moves the class elsewhere.
   */
  function ActualizarClase(db: Db, u: string, claseId: string, data: seq<(string, Valor)>): (Db, Respuesta)
  {
    if claseId !in db.clases then (db, Rechazo(404))
    else
      var c := db.clases[claseId];
      if !DeUsuario(db, c.inscripcionId, u) then (db, Rechazo(403))
      else
        var i := db.inscripciones[c.inscripcionId];
        var b := Buscar(data, "completada");
        var p := i.campos.progresoClases;
        match AplicarClase(c, data)
        case None => (db, Rechazo(500))
        case Some(c2) =>
          if MueveContador(c.completada, b) && p.None? then (db, Rechazo(500))
          else
            var p2 := if p.Some? then Some(ProgresoTrasCambio(p.value, c.completada, b)) else p;
            (db.(clases := db.clases[claseId := c2],
                 inscripciones := db.inscripciones[c.inscripcionId := ConProgreso(i, p2)]), Hecho)
  }

  /**
   * `eliminar_clase`: 404, 403; 500 when a completed class meets a NULL
   * counter; else one less completed class when there was one to count.
   */
  function EliminarClase(db: Db, u: string, claseId: string): (Db, Respuesta)
  {
    if claseId !in db.clases then (db, Rechazo(404))
    else
      var c := db.clases[claseId];
      if !DeUsuario(db, c.inscripcionId, u) then (db, Rechazo(403))
      else
        var i := db.inscripciones[c.inscripcionId];
        var p := i.campos.progresoClases;
        if c.completada && p.None? then (db, Rechazo(500))
        else
          var p2 := if c.completada && p.value > 0 then Some(p.value - 1) else p;
          (db.(clases := db.clases - {claseId},
               inscripciones := db.inscripciones[c.inscripcionId := ConProgreso(i, p2)]), Hecho)
  }

  // ----- Planning events and the sentinel grade -----

  /** The `EventoCreate` payload. */
  datatype EventoCreate = EventoCreate(
    titulo: string, fecha: Date, tipo: string, materiaId: Option<string>, color: string,
    prioridad: int, completado: bool)

  function EventoDe(u: string, data: EventoCreate): Evento
  {
    Evento(u, data.titulo, data.fecha, data.tipo, data.materiaId, data.color, data.prioridad, data.completado)
  }

  /** An exam or practical work with a (truthy) subject asks for a placeholder grade. */
  predicate PideCentinela(data: EventoCreate)
  {
    (data.tipo == "parcial" || data.tipo == "tp" || data.tipo == "final") &&
    data.materiaId.Some? && data.materiaId.value != ""
  }

  /** An enrolment of the user in the subject that is being taken. */
  predicate Activa(i: InscripcionMateria, u: string, materiaId: string)
  {
    i.usuarioId == u && i.materiaId == materiaId && (i.campos.estado == Some("cursando") || i.campos.estado == Some("regular"))
  }

  /** The empty grade (-1) created for a planned evaluation in enrolment `insc`. */
  function Centinela(u: string, data: EventoCreate, insc: InscripcionMateria, notaId: string): NotaFila
  {
    var parcial := data.tipo == "parcial";
    var final := !parcial && data.tipo == "final";
    NotaFila(notaId, insc.id, u, O(data.materiaId, ""), data.tipo, None, Upper(data.tipo) + ": " + data.titulo,
             -1.0, data.fecha, parcial, final, !parcial && !final, false, false, false, None, None)
  }

  // ----- Dashboard counts -----

  datatype Estadisticas = Estadisticas(
    aprobadas: nat, cursando: nat, bloqueadas: nat, regularizadas: nat, total: nat,
    promedioGeneral: real, creditosAprobados: nat)

  function EnEstado(e: string): InscripcionMateria -> bool { (i: InscripcionMateria) => i.campos.estado == Some(e) }

  /** The dashboard's grade filter: counts toward the average and is not a sentinel. */
  predicate CuentaDashboard(n: NotaFila) { n.influyePromedio && n.nota >= 0.0 }

  function ValorNota(n: NotaFila): real { n.nota }

  /** `get_stats` over the user's enrolments and grades. */
  function EstadisticasDashboard(inscs: seq<InscripcionMateria>, notas: seq<NotaFila>): Estadisticas
  {
    var v := Filter(notas, CuentaDashboard);
    var aprobadas := Count(inscs, EnEstado("aprobada"));
    Estadisticas(aprobadas, Count(inscs, EnEstado("cursando")), Count(inscs, EnEstado("bloqueada")),
                 Count(inscs, EnEstado("regular")), |inscs|,
                 if v == [] then 0.0 else Mean(v, ValorNota).value, aprobadas * 5)
  }

  // ----- Properties: dates of the payload -----

  /** A year below 10000 prints in at most four digits. */
  lemma AnchoAnio(n: nat)
    requires n < 10000
    ensures |NatToString(n)| <= 4
  {
    if n >= 10 {
      assert |NatToString(n)| == |NatToString(n / 10)| + 1;
      if n / 10 >= 10 {
        assert |NatToString(n / 10)| == |NatToString(n / 100)| + 1;
        if n / 100 >= 10 {
          assert |NatToString(n / 100)| == |NatToString(n / 1000)| + 1;
        }
      }
    }
  }

  /** The `YYYY-MM-DD` form of a real four-digit-year date parses back to that date. */
  lemma StrptimeFormatYmd(d: Date)
    requires ValidDate(d) && 1000 <= d.year <= 9999
    ensures Strptime(FormatYmd(d)) == Some(d)
  {
    var a := PadStart(NatToString(d.year), 4, '0');
    var b := PadStart(NatToString(d.month), 2, '0');
    var c := PadStart(NatToString(d.day), 2, '0');
    PaddedField(d.year, 4);
    PaddedField(d.month, 2);
    PaddedField(d.day, 2);
    ParsePadded(d.year, 4);
    ParsePadded(d.month, 2);
    ParsePadded(d.day, 2);
    AnchoAnio(d.year);
    PadTwoLength(d.month);
    PadTwoLength(d.day);
    var t := FormatYmd(d);
    assert t == a + ['-'] + b + ['-'] + c;
    SplitThree(a, b, c, '-');
    assert Split(t, '-') == [a, b, c];
    var r := Strptime(t);
    assert Date(ParseNat(a), ParseNat(b), ParseNat(c)) == d;
    assert r.Some? && r.value == d;
    assert r == Some(r.value);
  }

  // ----- Properties: the whitelist -----

  /** A payload without whitelisted keys changes nothing. */
  lemma {:induction false} AplicarSinPermitidos(e: Editables, data: seq<(string, Valor)>)
    requires forall i :: 0 <= i < |data| ==> data[i].0 !in Permitidos
    ensures Aplicar(e, data) == Some(e)
    decreases |data|
  {
    if data != [] {
      NombreDeColumna(data[0].0);
      AplicarSinPermitidos(e, data[1..]);
    }
  }

  /** A column the payload does not name keeps its value. */
  lemma {:induction false} AplicarConserva(e: Editables, data: seq<(string, Valor)>, columna: Columna)
    requires Aplicar(e, data).Some?
    requires forall i :: 0 <= i < |data| ==> data[i].0 != NombreColumna(columna)
    ensures Leer(Aplicar(e, data).value, columna) == Leer(e, columna)
    decreases |data|
  {
    if data != [] {
      var r := AsignarInscripcion(e, data[0].0, data[0].1);
      if r.Asignado? {
        AsignarMarco(e, data[0].0, data[0].1, columna);
        AplicarConserva(r.e, data[1..], columna);
      } else {
        AplicarConserva(e, data[1..], columna);
      }
    }
  }

  /**
   * A whitelisted pair whose value does not fit (a date that does not
   * parse, a value of the wrong type) anywhere in the payload makes the
   * whole update fail.
   */
  lemma {:induction false} AplicarFalla(e: Editables, data: seq<(string, Valor)>, j: int)
    requires 0 <= j < |data| && data[j].0 in Permitidos
    requires Escrita(ColumnaDe(data[j].0).value, data[j].1).None?
    ensures Aplicar(e, data).None?
    decreases |data|
  {
    if j > 0 {
      var r := AsignarInscripcion(e, data[0].0, data[0].1);
      if r.Asignado? {
        AplicarFalla(r.e, data[1..], j - 1);
      } else if r.Ignorado? {
        AplicarFalla(e, data[1..], j - 1);
      }
    } else {
      AsignarEfecto(e, data[0].0, data[0].1);
    }
  }

  /**
   * `update_inscripcion` writes only the whitelisted columns and the
   * timestamp of that one row; 404 and 500 leave every table as it was.
   */
  lemma ActualizarInscripcionSoloPermitidos(db: Db, u: string, inscId: string, data: seq<(string, Valor)>, ahora: nat)
    ensures var (db2, r) := ActualizarInscripcion(db, u, inscId, data, ahora);
      (r == Rechazo(404) <==> !DeUsuario(db, inscId, u)) &&
      (r != Hecho ==> db2 == db) &&
      (r == Hecho ==>
        db2.notas == db.notas && db2.clases == db.clases && db2.eventos == db.eventos &&
        db2.inscripciones.Keys == db.inscripciones.Keys &&
        (forall k :: k in db.inscripciones && k != inscId ==> db2.inscripciones[k] == db.inscripciones[k]) &&
        db2.inscripciones[inscId].(campos := db.inscripciones[inscId].campos, fechaActualizacion := db.inscripciones[inscId].fechaActualizacion) == db.inscripciones[inscId] &&
        db2.inscripciones[inscId].fechaActualizacion == ahora)
  {
  }

  // ----- Properties: invariants of the tables -----

  /** No two enrolments share (user, subject, attempt). */
  ghost predicate ClavesUnicas(db: Db)
  {
    forall a, b :: a in db.inscripciones && b in db.inscripciones && a != b ==>
      Clave(db.inscripciones[a]) != Clave(db.inscripciones[b])
  }

  /** Every stored grade's `aprobada` agrees with its value. */
  ghost predicate NotasCoherentes(db: Db)
  {
    forall k :: k in db.notas ==> db.notas[k].aprobada == Aprobada(db.notas[k].nota)
  }

  /** No class counter is negative. */
  ghost predicate ProgresoNoNegativo(db: Db)
  {
    forall k :: k in db.inscripciones && db.inscripciones[k].campos.progresoClases.Some? ==>
      db.inscripciones[k].campos.progresoClases.value >= 0
  }

  /** `crear_inscripcion`: 400 exactly on a duplicate, which changes nothing; uniqueness is kept. */
  lemma CrearInscripcionUnica(db: Db, u: string, data: InscripcionCreate, inscId: string, hoy: Date, ahora: nat)
    requires inscId !in db.inscripciones
    requires ClavesUnicas(db)
    ensures var (db2, r) := CrearInscripcion(db, u, data, inscId, hoy, ahora);
      ClavesUnicas(db2) &&
      (r == Rechazo(400) <==> Duplicada(db, u, data.materiaId, data.intento)) &&
      (r == Rechazo(400) ==> db2 == db) &&
      (r == Hecho ==> db2.inscripciones == db.inscripciones[inscId := NuevaInscripcion(u, data, inscId, hoy, ahora)] &&
                      db2.inscripciones[inscId].campos.progresoClases == Some(0) && db2.inscripciones[inscId].campos.totalClases == Some(0))
  {
    var (db2, r) := CrearInscripcion(db, u, data, inscId, hoy, ahora);
    if r == Hecho {
      forall a, b | a in db2.inscripciones && b in db2.inscripciones && a != b
        ensures Clave(db2.inscripciones[a]) != Clave(db2.inscripciones[b])
      {
        if a == inscId {
          assert Clave(db.inscripciones[b]) != (u, data.materiaId, data.intento);
        } else if b == inscId {
          assert Clave(db.inscripciones[a]) != (u, data.materiaId, data.intento);
        }
      }
    }
  }

  /** The whitelist leaves user, subject and attempt alone, so updates keep enrolments unique. */
  lemma ActualizarInscripcionUnica(db: Db, u: string, inscId: string, data: seq<(string, Valor)>, ahora: nat)
    requires ClavesUnicas(db)
    ensures ClavesUnicas(ActualizarInscripcion(db, u, inscId, data, ahora).0)
  {
    var db2 := ActualizarInscripcion(db, u, inscId, data, ahora).0;
    assert forall k :: k in db2.inscripciones ==> k in db.inscripciones && Clave(db2.inscripciones[k]) == Clave(db.inscripciones[k]);
  }

  /** Creating a grade: 404 unless the enrolment is the user's; an approved final approves it. */
  lemma CrearNotaPropaga(db: Db, u: string, data: NotaCreate, notaId: string)
    ensures var (db2, r) := CrearNota(db, u, data, notaId);
      (r == Rechazo(404) <==> !DeUsuario(db, data.inscripcionId, u)) &&
      (r != Hecho ==> db2 == db) &&
      (r == Hecho ==>
        notaId in db2.notas && (db2.notas[notaId].aprobada <==> data.nota >= 4.0) &&
        db2.inscripciones.Keys == db.inscripciones.Keys &&
        (data.esFinal && data.nota >= 4.0 ==>
          db2.inscripciones[data.inscripcionId].campos.estado == Some("aprobada") &&
          db2.inscripciones[data.inscripcionId].campos.notaFinal == Some(data.nota) &&
          (db2.inscripciones[data.inscripcionId].campos.estadoFinal == Some("promocionado") <==> data.nota >= 7.0)) &&
        (!(data.esFinal && data.nota >= 4.0) ==> db2.inscripciones == db.inscripciones))
  {
  }

  /** Tables whose enrolments keep their keys and (user, subject, attempt) stay unique. */
  lemma UnicasSiMismasClaves(db: Db, db2: Db)
    requires ClavesUnicas(db)
    requires forall k :: k in db2.inscripciones ==> k in db.inscripciones && Clave(db2.inscripciones[k]) == Clave(db.inscripciones[k])
    ensures ClavesUnicas(db2)
  {
  }

  /** Creating a grade keeps `aprobada` in step with the value, the counters and uniqueness. */
  lemma CrearNotaConserva(db: Db, u: string, data: NotaCreate, notaId: string)
    requires NotasCoherentes(db) && ProgresoNoNegativo(db) && ClavesUnicas(db)
    ensures var db2 := CrearNota(db, u, data, notaId).0;
      NotasCoherentes(db2) && ProgresoNoNegativo(db2) && ClavesUnicas(db2)
  {
    UnicasSiMismasClaves(db, CrearNota(db, u, data, notaId).0);
  }

  /** So does updating a grade: `aprobada` is recomputed whenever the value changes. */
  lemma ActualizarNotaConserva(db: Db, u: string, notaId: string, c: NotaUpdate)
    requires NotasCoherentes(db) && ProgresoNoNegativo(db) && ClavesUnicas(db)
    ensures var db2 := ActualizarNota(db, u, notaId, c).0;
      NotasCoherentes(db2) && ProgresoNoNegativo(db2) && ClavesUnicas(db2)
  {
    UnicasSiMismasClaves(db, ActualizarNota(db, u, notaId, c).0);
  }

  /**
   * Updating a grade: 500 exactly when a null is sent for a NOT NULL column;
   * otherwise the enrolment moves only when the payload carries a grade that
   * is an approved final, and then as a final grade does.
   */
  lemma ActualizarNotaPropaga(db: Db, u: string, notaId: string, c: NotaUpdate)
    ensures var (db2, r) := ActualizarNota(db, u, notaId, c);
      (r == Rechazo(404) <==> !(notaId in db.notas && db.notas[notaId].usuarioId == u)) &&
      (r == Rechazo(500) <==> notaId in db.notas && db.notas[notaId].usuarioId == u && NuloEnObligatoria(c)) &&
      (r != Hecho ==> db2 == db) &&
      (r == Hecho ==>
        var n := db2.notas[notaId];
        n.inscripcionId == db.notas[notaId].inscripcionId &&
        (c.nota.SinEnviar? ==> n.aprobada == db.notas[notaId].aprobada && db2.inscripciones == db.inscripciones) &&
        (c.nota.Enviado? ==> n.nota == c.nota.v && (n.aprobada <==> c.nota.v >= 4.0)) &&
        (db2.inscripciones != db.inscripciones ==>
          c.nota.Enviado? && n.esFinal && c.nota.v >= 4.0 && DeUsuario(db, n.inscripcionId, u) &&
          db2.inscripciones[n.inscripcionId].campos.estado == Some("aprobada") &&
          db2.inscripciones[n.inscripcionId].campos.notaFinal == Some(c.nota.v)))
  {
  }

  /** Deleting an enrolment deletes its grades and classes and nothing else. */
  lemma EliminarInscripcionCascada(db: Db, u: string, inscId: string)
    ensures var (db2, r) := EliminarInscripcion(db, u, inscId);
      (r == Rechazo(404) <==> !DeUsuario(db, inscId, u)) &&
      (r != Hecho ==> db2 == db) &&
      (r == Hecho ==>
        inscId !in db2.inscripciones &&
        (forall k :: k in db2.notas ==> db2.notas[k].inscripcionId != inscId) &&
        (forall k :: k in db2.clases ==> db2.clases[k].inscripcionId != inscId) &&
        (forall k :: k in db.notas && db.notas[k].inscripcionId != inscId ==> k in db2.notas && db2.notas[k] == db.notas[k]) &&
        (forall k :: k in db.clases && db.clases[k].inscripcionId != inscId ==> k in db2.clases && db2.clases[k] == db.clases[k]) &&
        (forall k :: k in db.inscripciones && k != inscId ==> k in db2.inscripciones && db2.inscripciones[k] == db.inscripciones[k]))
  {
  }

  // ----- Properties: the class counters -----

  /**
   * `crear_clase`: 400 exactly on a repeated number, 500 exactly when a NULL
   * counter has to be read; otherwise +1 iff completed, and the larger total.
   */
  lemma CrearClaseContadores(db: Db, u: string, data: ClaseCreate, claseId: string)
    ensures var (db2, r) := CrearClase(db, u, data, claseId);
      (r != Hecho ==> db2 == db) &&
      (r == Rechazo(404) <==> !DeUsuario(db, data.inscripcionId, u)) &&
      (DeUsuario(db, data.inscripcionId, u) ==> (r == Rechazo(400) <==> NumeroUsado(db, data.inscripcionId, data.numeroClase))) &&
      (DeUsuario(db, data.inscripcionId, u) && !NumeroUsado(db, data.inscripcionId, data.numeroClase) ==>
        var antes := db.inscripciones[data.inscripcionId].campos;
        (r == Rechazo(500) <==> (data.completada && antes.progresoClases.None?) || antes.totalClases.None?)) &&
      (r == Hecho ==>
        var antes := db.inscripciones[data.inscripcionId].campos;
        var despues := db2.inscripciones[data.inscripcionId].campos;
        db2.clases == db.clases[claseId := NuevaClase(data, claseId)] &&
        (data.completada ==> despues.progresoClases == Some(antes.progresoClases.value + 1)) &&
        (!data.completada ==> despues.progresoClases == antes.progresoClases) &&
        despues.totalClases.Some? && antes.totalClases.Some? &&
        despues.totalClases.value >= antes.totalClases.value && despues.totalClases.value >= data.numeroClase &&
        (despues.totalClases == antes.totalClases || despues.totalClases == Some(data.numeroClase)))
  {
  }

  /** The stored flag after the payload's last `completada`: the boolean, or false for a null. */
  lemma {:induction false} AplicarClaseCompletada(c: Clase, data: seq<(string, Valor)>)
    requires AplicarClase(c, data).Some?
    ensures var b := Buscar(data, "completada");
      (b.None? ==> AplicarClase(c, data).value.completada == c.completada) &&
      (b.Some? ==> (b.value.Booleano? || b.value.Nulo?) && AplicarClase(c, data).value.completada == Truthy(b.value))
    decreases |data|
  {
    if data != [] {
      var pre := data[..|data| - 1];
      AplicarClaseCompletada(c, pre);
      if data[|data| - 1].0 != "completada" {
        assert forall i :: 0 <= i < |pre| ==> pre[i] == data[i];
      }
    }
  }

  /**
   * `actualizar_clase`: 500 exactly when the commit rejects a value or a
   * NULL counter has to move; after a success the stored flag is the
   * payload's `completada`, and the counter moved up exactly when the flag
   * was set and down (floored) exactly when it was cleared.
   */
  lemma ActualizarClaseContador(db: Db, u: string, claseId: string, data: seq<(string, Valor)>)
    requires claseId in db.clases && DeUsuario(db, db.clases[claseId].inscripcionId, u)
    ensures var c := db.clases[claseId];
      var antes := db.inscripciones[c.inscripcionId].campos.progresoClases;
      var b := Buscar(data, "completada");
      var (db2, r) := ActualizarClase(db, u, claseId, data);
      (r == Rechazo(500) <==> AplicarClase(c, data).None? || (MueveContador(c.completada, b) && antes.None?)) &&
      (r == Hecho ==>
        var despues := db2.inscripciones[c.inscripcionId].campos.progresoClases;
        var ahora := db2.clases[claseId].completada;
        (b.Some? ==> ahora == Truthy(b.value)) && (b.None? ==> ahora == c.completada && despues == antes) &&
        (antes.None? ==> despues.None?) &&
        (antes.Some? && antes.value >= 0 ==>
          despues.Some? &&
          (despues.value == antes.value + 1 <==> !c.completada && ahora) &&
          (despues.value == antes.value - 1 <==> c.completada && !ahora && antes.value > 0) &&
          (c.completada == ahora ==> despues == antes)))
  {
    var c := db.clases[claseId];
    if AplicarClase(c, data).Some? {
      AplicarClaseCompletada(c, data);
      var antes := db.inscripciones[c.inscripcionId].campos.progresoClases;
      if antes.Some? && antes.value >= 0 {
        ProgresoTrasCambioAcotado(antes.value, c.completada, Buscar(data, "completada"));
      }
    }
  }

  /** The counter after a toggle stays non-negative and moves by at most one. */
  lemma ProgresoTrasCambioAcotado(p: int, anterior: bool, completada: Option<Valor>)
    requires p >= 0
    ensures var q := ProgresoTrasCambio(p, anterior, completada);
      q >= 0 && p - 1 <= q <= p + 1 &&
      (q == p + 1 <==> completada.Some? && Truthy(completada.value) && !anterior) &&
      (q == p - 1 <==> completada.Some? && !Truthy(completada.value) && anterior && p > 0)
  {
  }

  /** Marking a class completed and then not completed brings the counter back. */
  lemma ToggleIdaVuelta(p: int)
    requires p >= 0
    ensures ProgresoTrasCambio(ProgresoTrasCambio(p, false, Some(Booleano(true))), true, Some(Booleano(false))) == p
  {
  }

  /** Every class handler keeps the counters non-negative and the enrolments unique, and leaves the grades alone. */
  lemma CrearClaseConserva(db: Db, u: string, data: ClaseCreate, claseId: string)
    requires ProgresoNoNegativo(db) && ClavesUnicas(db)
    ensures var db2 := CrearClase(db, u, data, claseId).0;
      ProgresoNoNegativo(db2) && ClavesUnicas(db2) && db2.notas == db.notas
  {
    var db2 := CrearClase(db, u, data, claseId).0;
    if db2 != db {
      var id := data.inscripcionId;
      assert db2.inscripciones == db.inscripciones[id := db2.inscripciones[id]];
      ProgresoTrasCambiarUna(db, id, db2.inscripciones[id], db2);
    }
    UnicasSiMismasClaves(db, db2);
  }

  /** Replacing one enrolment by one with a non-negative counter keeps every counter non-negative. */
  lemma ProgresoTrasCambiarUna(db: Db, id: string, i2: InscripcionMateria, db2: Db)
    requires ProgresoNoNegativo(db)
    requires i2.campos.progresoClases.Some? ==> i2.campos.progresoClases.value >= 0
    requires db2.inscripciones == db.inscripciones[id := i2]
    ensures ProgresoNoNegativo(db2)
  {
  }

  lemma ActualizarClaseConserva(db: Db, u: string, claseId: string, cambios: seq<(string, Valor)>)
    requires ProgresoNoNegativo(db) && ClavesUnicas(db)
    ensures var db2 := ActualizarClase(db, u, claseId, cambios).0;
      ProgresoNoNegativo(db2) && ClavesUnicas(db2) && db2.notas == db.notas
  {
    if claseId in db.clases && DeUsuario(db, db.clases[claseId].inscripcionId, u) {
      var c := db.clases[claseId];
      var p := db.inscripciones[c.inscripcionId].campos.progresoClases;
      if p.Some? {
        ProgresoTrasCambioAcotado(p.value, c.completada, Buscar(cambios, "completada"));
      }
    }
    UnicasSiMismasClaves(db, ActualizarClase(db, u, claseId, cambios).0);
  }

  lemma EliminarClaseConserva(db: Db, u: string, claseId: string)
    requires ProgresoNoNegativo(db) && ClavesUnicas(db)
    ensures var db2 := EliminarClase(db, u, claseId).0;
      ProgresoNoNegativo(db2) && ClavesUnicas(db2) && db2.notas == db.notas
  {
    UnicasSiMismasClaves(db, EliminarClase(db, u, claseId).0);
  }

  /** Creating a class and deleting it again restores the class table and the counter. */
  lemma CrearEliminarClase(db: Db, u: string, data: ClaseCreate, claseId: string)
    requires claseId !in db.clases
    requires CrearClase(db, u, data, claseId).1 == Hecho
    requires ProgresoNoNegativo(db)
    ensures var db1 := CrearClase(db, u, data, claseId).0;
      var (db2, r) := EliminarClase(db1, u, claseId);
      r == Hecho && db2.clases == db.clases &&
      db2.inscripciones[data.inscripcionId].campos.progresoClases == db.inscripciones[data.inscripcionId].campos.progresoClases
  {
    var db1 := CrearClase(db, u, data, claseId).0;
    assert db1.clases - {claseId} == db.clases;
  }

  // ----- Properties: the sentinel grade -----

  /**
   * The placeholder grade: value -1, outside the average, not approved (as
   * `Aprobada` would say), and exactly one of the three kinds, the one the
   * event names (`tp` for anything else).
   */
  lemma CentinelaForma(u: string, data: EventoCreate, insc: InscripcionMateria, notaId: string)
    ensures var n := Centinela(u, data, insc, notaId);
      n.nota == -1.0 && !n.influyePromedio && !n.aprobada && n.aprobada == Aprobada(n.nota) &&
      n.inscripcionId == insc.id && n.tipoEvaluacion == data.tipo &&
      (n.esParcial <==> data.tipo == "parcial") && (n.esFinal <==> data.tipo == "final") &&
      (n.esTp <==> data.tipo != "parcial" && data.tipo != "final") &&
      ((n.esParcial && !n.esFinal && !n.esTp) || (!n.esParcial && n.esFinal && !n.esTp) ||
       (!n.esParcial && !n.esFinal && n.esTp))
  {
  }

  // ----- Properties: dashboard counts -----

  /** The four status counts fit in the total, and the credits are five per approved subject. */
  lemma {:induction false} EstadosAcotados(inscs: seq<InscripcionMateria>, notas: seq<NotaFila>)
    ensures var r := EstadisticasDashboard(inscs, notas);
      r.aprobadas + r.cursando + r.bloqueadas + r.regularizadas <= r.total == |inscs| &&
      r.creditosAprobados == 5 * r.aprobadas
  {
    if inscs != [] {
      EstadosAcotados(inscs[1..], notas);
    }
  }

  /** A sentinel grade, or one marked not to count, leaves the dashboard as it was. */
  lemma EstadisticasIgnoranCentinela(inscs: seq<InscripcionMateria>, notas: seq<NotaFila>, n: NotaFila)
    requires n.nota < 0.0 || !n.influyePromedio
    ensures EstadisticasDashboard(inscs, notas + [n]) == EstadisticasDashboard(inscs, notas)
  {
    FilterAppend(notas, [n], CuentaDashboard);
    assert Filter([n], CuentaDashboard) == [];
    assert Filter(notas + [n], CuentaDashboard) == Filter(notas, CuentaDashboard);
  }

  /** The average is never negative, and never above the largest counted grade bound. */
  lemma PromedioDashboardAcotado(inscs: seq<InscripcionMateria>, notas: seq<NotaFila>, hi: real)
    requires hi >= 0.0
    requires forall i :: 0 <= i < |notas| ==> notas[i].nota <= hi
    ensures 0.0 <= EstadisticasDashboard(inscs, notas).promedioGeneral <= hi
  {
    var v := Filter(notas, CuentaDashboard);
    if v != [] {
      MeanBounds(v, ValorNota, 0.0, hi);
    }
  }
}
