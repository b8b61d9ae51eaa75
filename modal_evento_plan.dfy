/**
 * The planning dialog: an exam or event placed in the calendar before it
 * has a grade, sent with the `-1` placeholder grade.
 */
module ModalEventoPlan {
  import opened Common

  /** The event being edited, as the API returns it; missing fields are `None`. */
  datatype EventoEditar = EventoEditar(id: string, titulo: Option<string>, fecha: Option<string>, tipo: Option<string>,
                                       materiaId: Option<string>, color: Option<string>,
                                       influyePromedio: Option<bool>, nota: real)

  datatype Form = Form(titulo: string, fecha: string, tipo: string, materiaId: string, color: string,
                       influyePromedio: bool)

  const ColorPorDefecto := "#f43f5e"

  /** `resetFields()`; `hoy` is `new Date().toISOString().split('T')[0]`. */
  function Reset(hoy: string): Form
  {
    Form("", hoy, "parcial", "", ColorPorDefecto, true)
  }

  /** `x || d`: a missing or empty text reads as the default. */
  function TextoO(s: Option<string>, porDefecto: string): string
  {
    if s.Some? && s.value != "" then s.value else porDefecto
  }

  /** The effect run when the dialog opens; an edited event without a date gets an empty one, not today. */
  function AlAbrir(editar: Option<EventoEditar>, hoy: string): Form
  {
    match editar
    case None => Reset(hoy)
    case Some(e) =>
      Form(TextoO(e.titulo, ""), TextoO(e.fecha, ""), TextoO(e.tipo, "parcial"), TextoO(e.materiaId, ""),
           TextoO(e.color, ColorPorDefecto), if e.influyePromedio.Some? then e.influyePromedio.value else true)
  }

  /** What `onSave` receives. */
  datatype Payload = Payload(id: Option<string>, titulo: string, fecha: string, tipo: string,
                             materiaId: Option<string>, color: string, influyePromedio: bool, nota: real)

  /** `handleSubmit`: nothing without a title, a date, or a subject for a type other than `otro`. */
  function Enviar(f: Form, editar: Option<EventoEditar>): Option<Payload>
  {
    if f.titulo == "" || f.fecha == "" || (f.tipo != "otro" && f.materiaId == "") then None
    else
      Some(Payload(if editar.Some? then Some(editar.value.id) else None, f.titulo, f.fecha, f.tipo,
                   if f.tipo == "otro" then None else Some(f.materiaId), f.color, f.influyePromedio,
                   if editar.Some? then editar.value.nota else -1.0))
  }

  /**
   * An event is sent iff it has a title and a date and, unless it is of
   * type `otro`, a subject; it names a subject iff its type is not `otro`,
   * and that subject is never empty; a new event carries the `-1`
   * placeholder and an edited one keeps its grade.
   */
  lemma EnviarCorrecto(f: Form, editar: Option<EventoEditar>)
    ensures var r := Enviar(f, editar);
      (r.Some? <==> f.titulo != "" && f.fecha != "" && (f.tipo == "otro" || f.materiaId != "")) &&
      (r.Some? ==>
         ((r.value.materiaId.None? <==> f.tipo == "otro") &&
          (r.value.materiaId.Some? ==> r.value.materiaId.value != "") &&
          r.value.nota == (if editar.Some? then editar.value.nota else -1.0) &&
          (r.value.id.Some? <==> editar.Some?)))
  {
  }

  /**
   * A reset leaves an unsendable form (no title) of type `parcial`, no
   * subject, the default colour and counting toward the average; once
   * titled, it still needs a subject.
   */
  lemma ResetCorrecto(hoy: string, titulo: string)
    requires hoy != "" && titulo != ""
    ensures Enviar(Reset(hoy), None).None?
    ensures Reset(hoy).tipo == "parcial" && Reset(hoy).materiaId == "" && Reset(hoy).influyePromedio
    ensures Enviar(Reset(hoy).(titulo := titulo), None).None?
    ensures Enviar(Reset(hoy).(titulo := titulo, tipo := "otro"), None).Some?
    ensures Enviar(Reset(hoy).(titulo := titulo, tipo := "otro"), None).value.nota == -1.0
  {
  }

  /** The dialog component's state. */
  class Dialogo {
    var form: Form

    constructor(hoy: string)
      ensures form == Reset(hoy)
    {
      form := Reset(hoy);
    }

    method Abrir(editar: Option<EventoEditar>, hoy: string)
      modifies this
      ensures form == AlAbrir(editar, hoy)
    {
      form := AlAbrir(editar, hoy);
    }

    method Guardar(editar: Option<EventoEditar>) returns (r: Option<Payload>)
      ensures r == Enviar(form, editar)
    {
      r := Enviar(form, editar);
    }
  }
}
