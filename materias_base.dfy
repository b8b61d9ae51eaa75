/**
 * The subject routes as they run: the database session holds the four
 * tables, and each handler reads rows, sets their attributes one by one and
 * commits. Every method leaves the tables as the matching function of
 * `Materias` says, so the properties proved there hold of these runs.
 */
module MateriasBase {
  import opened Common
  import opened Dates
  import opened Materias

  class BaseMaterias {
    var inscripciones: map<string, InscripcionMateria>
    var notas: map<string, NotaFila>
    var clases: map<string, Clase>
    var eventos: seq<Evento>

    function State(): Db
      reads this
    {
      Db(inscripciones, notas, clases, eventos)
    }

    constructor ()
      ensures State() == Db(map[], map[], map[], [])
    {
      inscripciones := map[];
      notas := map[];
      clases := map[];
      eventos := [];
    }

    /** `POST /inscripciones`; `inscId` is the fresh `insc_<uuid>`, `hoy` and `ahora` the clock. */
    method PostInscripcion(u: string, data: InscripcionCreate, inscId: string, hoy: Date, ahora: nat) returns (r: Respuesta)
      requires inscId !in inscripciones
      modifies this
      ensures (State(), r) == CrearInscripcion(old(State()), u, data, inscId, hoy, ahora)
    {
      if exists k :: k in inscripciones && Clave(inscripciones[k]) == (u, data.materiaId, data.intento) {
        return Rechazo(400);
      }
      var fecha := if data.fechaInscripcion.Some? then data.fechaInscripcion.value else hoy;
      var campos := Editables(Some(data.estado), data.cuatrimestre, data.anoAcademico, Some(false), None, None, None,
                              Some(0), Some(0), None, None);
      inscripciones := inscripciones[inscId := InscripcionMateria(inscId, u, data.materiaId, data.materiaCodigo,
                                                                  data.carreraId, data.intento, data.recursada,
                                                                  fecha, ahora, campos)];
      r := Hecho;
    }

    /** `PATCH /inscripciones/{id}`: the attributes of the payload, one pair at a time, then the timestamp. */
    method PatchInscripcion(u: string, inscId: string, data: seq<(string, Valor)>, ahora: nat) returns (r: Respuesta)
      modifies this
      ensures (State(), r) == ActualizarInscripcion(old(State()), u, inscId, data, ahora)
    {
      if !(inscId in inscripciones && inscripciones[inscId].usuarioId == u) {
        return Rechazo(404);
      }
      var insc := inscripciones[inscId];
      var campos := insc.campos;
      var k := 0;
      while k < |data|
        invariant 0 <= k <= |data|
        invariant Aplicar(insc.campos, data) == Aplicar(campos, data[k..])
      {
        assert data[k..][1..] == data[k + 1..];
        var efecto := AsignarInscripcion(campos, data[k].0, data[k].1);
        if efecto.Falla? {
          return Rechazo(500);
        }
        if efecto.Asignado? {
          campos := efecto.e;
        }
        k := k + 1;
      }
      assert data[k..] == [];
      inscripciones := inscripciones[inscId := insc.(campos := campos, fechaActualizacion := ahora)];
      r := Hecho;
    }

    /** `DELETE /inscripciones/{id}`: the grades, the classes, then the enrolment. */
    method DeleteInscripcion(u: string, inscId: string) returns (r: Respuesta)
      modifies this
      ensures (State(), r) == EliminarInscripcion(old(State()), u, inscId)
    {
      if !(inscId in inscripciones && inscripciones[inscId].usuarioId == u) {
        return Rechazo(404);
      }
      notas := map k | k in notas && notas[k].inscripcionId != inscId :: notas[k];
      clases := map k | k in clases && clases[k].inscripcionId != inscId :: clases[k];
      inscripciones := inscripciones - {inscId};
      r := Hecho;
    }

    /** `POST /notas`; `notaId` is the fresh `nota_<uuid>`. */
    method PostNota(u: string, data: NotaCreate, notaId: string) returns (r: Respuesta)
      requires notaId !in notas
      modifies this
      ensures (State(), r) == CrearNota(old(State()), u, data, notaId)
    {
      if !(data.inscripcionId in inscripciones && inscripciones[data.inscripcionId].usuarioId == u) {
        return Rechazo(404);
      }
      var insc := inscripciones[data.inscripcionId];
      var aprobada := if data.nota >= 0.0 then data.nota >= 4.0 else false;
      notas := notas[notaId := NotaFila(notaId, data.inscripcionId, u, insc.materiaId, data.tipoEvaluacion,
                                        data.numeroEvaluacion, data.titulo, data.nota, data.fecha, data.esParcial,
                                        data.esFinal, data.esTp, data.esRecuperatorio, data.influyePromedio,
                                        aprobada, data.cuatrimestre, data.observaciones)];
      if data.esFinal && aprobada && data.nota >= 4.0 {
        var campos := insc.campos.(estado := Some("aprobada"));
        campos := campos.(fechaAprobacion := Some(data.fecha));
        campos := campos.(notaFinal := Some(data.nota));
        campos := campos.(estadoFinal := Some(if data.nota >= 7.0 then "promocionado" else "aprobado"));
        inscripciones := inscripciones[data.inscripcionId := insc.(campos := campos)];
      }
      r := Hecho;
    }

    /** `PATCH /notas/{id}`. */
    method PatchNota(u: string, notaId: string, c: NotaUpdate) returns (r: Respuesta)
      modifies this
      ensures (State(), r) == ActualizarNota(old(State()), u, notaId, c)
    {
      if !(notaId in notas && notas[notaId].usuarioId == u) {
        return Rechazo(404);
      }
      if c.titulo.EnviadoNulo? || c.nota.EnviadoNulo? || c.fecha.EnviadoNulo? || c.tipoEvaluacion.EnviadoNulo? {
        return Rechazo(500);
      }
      var nota := CambiarNota(notas[notaId], c);
      ghost var antes := State();
      ghost var cambiada := nota;
      if c.nota.Enviado? {
        nota := nota.(aprobada := if nota.nota >= 0.0 then nota.nota >= 4.0 else false);
        assert nota == cambiada.(aprobada := Aprobada(cambiada.nota));
        if nota.esFinal && nota.aprobada && nota.nota >= 4.0 &&
           nota.inscripcionId in inscripciones && inscripciones[nota.inscripcionId].usuarioId == u {
          var insc := inscripciones[nota.inscripcionId];
          inscripciones := inscripciones[nota.inscripcionId := ConFinal(insc, nota.nota, nota.fecha)];
        }
      }
      notas := notas[notaId := nota];
      r := Hecho;
      assert State() == antes.(notas := antes.notas[notaId := nota], inscripciones := inscripciones);
    }

    /** `DELETE /notas/{id}`. */
    method DeleteNota(u: string, notaId: string) returns (r: Respuesta)
      modifies this
      ensures (State(), r) == EliminarNota(old(State()), u, notaId)
    {
      if !(notaId in notas && notas[notaId].usuarioId == u) {
        return Rechazo(404);
      }
      notas := notas - {notaId};
      r := Hecho;
    }

    /** `POST /clases`; `claseId` is the fresh `clase_<uuid>`. */
    method PostClase(u: string, data: ClaseCreate, claseId: string) returns (r: Respuesta)
      requires claseId !in clases
      modifies this
      ensures (State(), r) == CrearClase(old(State()), u, data, claseId)
    {
      if !(data.inscripcionId in inscripciones && inscripciones[data.inscripcionId].usuarioId == u) {
        return Rechazo(404);
      }
      if exists k :: k in clases && clases[k].inscripcionId == data.inscripcionId && clases[k].numeroClase == data.numeroClase {
        return Rechazo(400);
      }
      var insc := inscripciones[data.inscripcionId];
      if data.completada {
        if insc.campos.progresoClases.None? {
          return Rechazo(500);
        }
        insc := insc.(campos := insc.campos.(progresoClases := Some(insc.campos.progresoClases.value + 1)));
      }
      if insc.campos.totalClases.None? {
        return Rechazo(500);
      }
      if data.numeroClase > insc.campos.totalClases.value {
        insc := insc.(campos := insc.campos.(totalClases := Some(data.numeroClase)));
      }
      clases := clases[claseId := NuevaClase(data, claseId)];
      inscripciones := inscripciones[data.inscripcionId := insc];
      r := Hecho;
    }

    /**
     * `PATCH /clases/{id}`: every pair but `id` is written, then the counter
     * follows a toggle; a value the commit rejects, or a NULL counter that
     * has to move, answers 500 and leaves the tables alone.
     */
    method PatchClase(u: string, claseId: string, data: seq<(string, Valor)>) returns (r: Respuesta)
      modifies this
      ensures (State(), r) == ActualizarClase(old(State()), u, claseId, data)
    {
      if claseId !in clases {
        return Rechazo(404);
      }
      var clase := clases[claseId];
      if !(clase.inscripcionId in inscripciones && inscripciones[clase.inscripcionId].usuarioId == u) {
        return Rechazo(403);
      }
      var insc := inscripciones[clase.inscripcionId];
      var anterior := clase.completada;
      var actual: Option<Clase> := Some(clase);
      var k := 0;
      while k < |data|
        invariant 0 <= k <= |data|
        invariant actual == AplicarClase(clase, data[..k])
      {
        assert data[..k + 1][..k] == data[..k];
        if actual.Some? {
          actual := AsignarClase(actual.value, data[k].0, data[k].1);
        }
        k := k + 1;
      }
      assert data[..k] == data;
      if actual.None? {
        return Rechazo(500);
      }
      var p := insc.campos.progresoClases;
      var completada := Buscar(data, "completada");
      if completada.Some? {
        if Truthy(completada.value) && !anterior {
          if p.None? {
            return Rechazo(500);
          }
          p := Some(p.value + 1);
        } else if !Truthy(completada.value) && anterior {
          if p.None? {
            return Rechazo(500);
          }
          p := Some(if p.value - 1 > 0 then p.value - 1 else 0);
        }
      }
      clases := clases[claseId := actual.value];
      inscripciones := inscripciones[clase.inscripcionId := ConProgreso(insc, p)];
      r := Hecho;
    }

    /** `DELETE /clases/{id}`. */
    method DeleteClase(u: string, claseId: string) returns (r: Respuesta)
      modifies this
      ensures (State(), r) == EliminarClase(old(State()), u, claseId)
    {
      if claseId !in clases {
        return Rechazo(404);
      }
      var clase := clases[claseId];
      if !(clase.inscripcionId in inscripciones && inscripciones[clase.inscripcionId].usuarioId == u) {
        return Rechazo(403);
      }
      var insc := inscripciones[clase.inscripcionId];
      var p := insc.campos.progresoClases;
      if clase.completada {
        if p.None? {
          return Rechazo(500);
        }
        if p.value > 0 {
          p := Some(p.value - 1);
        }
      }
      clases := clases - {claseId};
      inscripciones := inscripciones[clase.inscripcionId := ConProgreso(insc, p)];
      r := Hecho;
    }

    /**
     * `POST /planificacion/eventos`: the event, and for an exam or practical
     * work in a subject the user is taking, the placeholder grade in one of
     * those enrolments (`.first()` without an order picks any of them).
     */
    method PostEvento(u: string, data: EventoCreate, notaId: string)
      requires notaId !in notas
      modifies this
      ensures inscripciones == old(inscripciones) && clases == old(clases)
      ensures eventos == old(eventos) + [EventoDe(u, data)]
      ensures notaId in notas <==>
        PideCentinela(data) && exists k :: k in inscripciones && Activa(inscripciones[k], u, data.materiaId.value)
      ensures notaId !in notas ==> notas == old(notas)
      ensures notaId in notas ==>
        exists k :: k in inscripciones && Activa(inscripciones[k], u, data.materiaId.value) &&
          notas == old(notas)[notaId := Centinela(u, data, inscripciones[k], notaId)]
    {
      eventos := eventos + [EventoDe(u, data)];
      if PideCentinela(data) {
        var m := data.materiaId.value;
        if exists k :: k in inscripciones && Activa(inscripciones[k], u, m) {
          var k :| k in inscripciones && Activa(inscripciones[k], u, m);
          notas := notas[notaId := Centinela(u, data, inscripciones[k], notaId)];
        }
      }
    }
  }
}
