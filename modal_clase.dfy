/**
 * The class dialog: the form it opens with, the payload of its save
 * handler, and the stricter condition of its save button.
 */
module ModalClase {
  import opened Common
  import DetalleMateria

  /** The class being edited, as the API returns it; missing fields are `None`. */
  datatype ClaseEditar = ClaseEditar(id: string, numeroClase: int, titulo: Option<string>, fecha: Option<string>,
                                     resumen: Option<string>, esCheckpoint: Option<bool>,
                                     tipoCheckpoint: Option<string>, asistio: Option<bool>,
                                     participacion: Option<int>)

  /** The dialog's state; `participacion` is the value of the 1 to 5 select. */
  datatype Form = Form(titulo: string, fecha: string, resumen: string, esCheckpoint: bool,
                       tipoCheckpoint: string, asistio: bool, participacion: int)

  function Blanco(hoy: string): Form
  {
    Form("", hoy, "", false, "", true, 3)
  }

  /** `x || ''`: a missing or empty text reads as the default. */
  function TextoO(s: Option<string>, porDefecto: string): string
  {
    if s.Some? && s.value != "" then s.value else porDefecto
  }

  /** The effect run when the dialog opens: `participacion || 3` turns a missing or 0 rating into 3. */
  function AlAbrir(editar: Option<ClaseEditar>, hoy: string): Form
  {
    match editar
    case None => Blanco(hoy)
    case Some(c) =>
      Form(TextoO(c.titulo, ""), TextoO(c.fecha, hoy), TextoO(c.resumen, ""),
           c.esCheckpoint.Some? && c.esCheckpoint.value, TextoO(c.tipoCheckpoint, ""),
           if c.asistio.Some? then c.asistio.value else true,
           if c.participacion.Some? && c.participacion.value != 0 then c.participacion.value else 3)
  }

  /** What `onSave` receives. */
  datatype Payload = Payload(id: Option<string>, inscripcionId: string, numeroClase: int, titulo: string,
                             fecha: string, resumen: string, asistio: bool, participacion: int,
                             esCheckpoint: bool, tipoCheckpoint: Option<string>, completada: bool)

  /** `handleSubmit`: nothing without a title or a date. */
  function Enviar(f: Form, editar: Option<ClaseEditar>, inscripcionId: string, numeroClase: int): Option<Payload>
  {
    if f.titulo == "" || f.fecha == "" then None
    else
      Some(Payload(if editar.Some? then Some(editar.value.id) else None, inscripcionId,
                   if editar.Some? then editar.value.numeroClase else numeroClase,
                   f.titulo, f.fecha, f.resumen, f.asistio, f.participacion, f.esCheckpoint,
                   if f.esCheckpoint then Some(f.tipoCheckpoint) else None, true))
  }

  /**
   * A class is sent iff it has a title and a date; it keeps the edited
   * class's number or takes the one offered, has a checkpoint type only
   * when it is a checkpoint, and is always marked completed.
   */
  lemma EnviarCorrecto(f: Form, editar: Option<ClaseEditar>, inscripcionId: string, numeroClase: int)
    ensures var r := Enviar(f, editar, inscripcionId, numeroClase);
      (r.Some? <==> f.titulo != "" && f.fecha != "") &&
      (r.Some? ==>
         (r.value.completada &&
          (r.value.tipoCheckpoint.Some? <==> f.esCheckpoint) &&
          r.value.numeroClase == (if editar.Some? then editar.value.numeroClase else numeroClase) &&
          (r.value.id.Some? <==> editar.Some?) && r.value.participacion == f.participacion))
  {
  }

  /** A new class saved from the subject page is numbered one past the classes it already has. */
  lemma NuevaClaseNumerada<T>(f: Form, clases: seq<T>, inscripcionId: string)
    requires f.titulo != "" && f.fecha != ""
    ensures Enviar(f, None, inscripcionId, DetalleMateria.NumeroClaseSiguiente(clases)).Some?
    ensures Enviar(f, None, inscripcionId, DetalleMateria.NumeroClaseSiguiente(clases)).value.numeroClase == |clases| + 1
  {
  }

  /** A blank form rates participation 3, and so does an edited class rated 0 or not at all. */
  lemma ParticipacionPorDefecto(c: ClaseEditar, hoy: string)
    ensures AlAbrir(None, hoy).participacion == 3
    ensures (c.participacion.None? || c.participacion == Some(0)) ==> AlAbrir(Some(c), hoy).participacion == 3
    ensures c.participacion.Some? && c.participacion.value != 0 ==> AlAbrir(Some(c), hoy).participacion == c.participacion.value
  {
  }

  /** The save button is enabled only with a summary of at least 100 characters. */
  predicate BotonHabilitado(f: Form)
  {
    f.titulo != "" && f.fecha != "" && |f.resumen| >= 100
  }

  /**
   * Whatever the button allows, the handler sends; but the handler itself
   * does not look at the summary, so a short one goes through when the
   * handler is reached another way.
   */
  lemma BotonMasEstricto(f: Form, editar: Option<ClaseEditar>, inscripcionId: string, numeroClase: int)
    ensures BotonHabilitado(f) ==> Enviar(f, editar, inscripcionId, numeroClase).Some?
    ensures Enviar(Form("Clase 1", "2024-05-01", "", false, "", true, 3), editar, inscripcionId, numeroClase).Some?
    ensures !BotonHabilitado(Form("Clase 1", "2024-05-01", "", false, "", true, 3))
  {
  }

  /** The dialog component's state. */
  class Dialogo {
    var form: Form

    constructor(hoy: string)
      ensures form == Blanco(hoy)
    {
      form := Blanco(hoy);
    }

    method Abrir(editar: Option<ClaseEditar>, hoy: string)
      modifies this
      ensures form == AlAbrir(editar, hoy)
    {
      form := AlAbrir(editar, hoy);
    }

    /** `setEsCheckpoint`: the type typed earlier is kept, and sent only while the switch is on. */
    method CambiarCheckpoint(c: bool)
      modifies this
      ensures form == old(form).(esCheckpoint := c)
    {
      form := form.(esCheckpoint := c);
    }

    method Guardar(editar: Option<ClaseEditar>, inscripcionId: string, numeroClase: int) returns (r: Option<Payload>)
      ensures r == Enviar(form, editar, inscripcionId, numeroClase)
    {
      r := Enviar(form, editar, inscripcionId, numeroClase);
    }
  }
}
