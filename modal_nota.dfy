/**
 * The grade dialog: the form it opens with (a copy of the edited grade or a
 * blank one), the three mutually exclusive type switches, and the payload
 * its save button hands back, with the guard that drops an invalid grade.
 */
module ModalNota {
  import opened Common

  /** The grade being edited, as the API returns it; missing flags and notes are `None`. */
  datatype NotaEditar = NotaEditar(id: string, titulo: string, nota: real, fecha: string,
                                   esTp: Option<bool>, esParcial: Option<bool>, esFinal: Option<bool>,
                                   influyePromedio: Option<bool>, observaciones: Option<string>)

  /** The dialog's state; `nota` is the text of the number field. */
  datatype Form = Form(titulo: string, nota: string, fecha: string, esTp: bool, esParcial: bool,
                       esFinal: bool, influyePromedio: bool, observaciones: string)

  /** The blank form; `hoy` is `new Date().toISOString().split('T')[0]`. */
  function Blanco(hoy: string): Form
  {
    Form("", "", hoy, false, false, false, true, "")
  }

  function SiONo(b: Option<bool>, porDefecto: bool): bool
  {
    if b.Some? then b.value else porDefecto
  }

  /** The effect run when the dialog opens; `mostrar` is `String(nota)`. */
  function AlAbrir(editar: Option<NotaEditar>, hoy: string, mostrar: real -> string): Form
  {
    match editar
    case None => Blanco(hoy)
    case Some(n) =>
      Form(n.titulo, mostrar(n.nota), n.fecha, SiONo(n.esTp, false), SiONo(n.esParcial, false),
           SiONo(n.esFinal, false), SiONo(n.influyePromedio, true),
           if n.observaciones.Some? then n.observaciones.value else "")
  }

  /** The TP switch: turning it on turns the other two off. */
  function ConTp(f: Form, c: bool): Form
  {
    if c then f.(esTp := true, esParcial := false, esFinal := false) else f.(esTp := false)
  }

  function ConParcial(f: Form, c: bool): Form
  {
    if c then f.(esParcial := true, esTp := false, esFinal := false) else f.(esParcial := false)
  }

  function ConFinal(f: Form, c: bool): Form
  {
    if c then f.(esFinal := true, esTp := false, esParcial := false) else f.(esFinal := false)
  }

  /** At most one of the three type switches is on. */
  predicate AlMasUno(f: Form)
  {
    !(f.esTp && f.esParcial) && !(f.esTp && f.esFinal) && !(f.esParcial && f.esFinal)
  }

  /**
   * The blank form has no type, turning a switch on leaves it the only one
   * on, turning one off keeps the property, and no switch touches any
   * other field than the three types.
   */
  lemma ExclusionMutua(f: Form, c: bool, hoy: string)
    ensures AlMasUno(Blanco(hoy))
    ensures (c || AlMasUno(f)) ==> AlMasUno(ConTp(f, c)) && AlMasUno(ConParcial(f, c)) && AlMasUno(ConFinal(f, c))
    ensures c ==> ConTp(f, c).esTp && ConParcial(f, c).esParcial && ConFinal(f, c).esFinal
    ensures ConTp(f, c).(esTp := f.esTp, esParcial := f.esParcial, esFinal := f.esFinal) == f
    ensures ConParcial(f, c).(esTp := f.esTp, esParcial := f.esParcial, esFinal := f.esFinal) == f
    ensures ConFinal(f, c).(esTp := f.esTp, esParcial := f.esParcial, esFinal := f.esFinal) == f
  {
  }

  /** `tipo`: `otro`, overwritten by `tp`, then `parcial`, then `final`. */
  function Tipo(esTp: bool, esParcial: bool, esFinal: bool): string
  {
    var t0 := "otro";
    var t1 := if esTp then "tp" else t0;
    var t2 := if esParcial then "parcial" else t1;
    if esFinal then "final" else t2
  }

  /**
   * Final wins over partial, partial over TP, and `otro` is sent only
   * without any flag; with at most one flag on, the type names it.
   */
  lemma TipoPrecedencia(esTp: bool, esParcial: bool, esFinal: bool)
    ensures Tipo(esTp, esParcial, esFinal) == "final" <==> esFinal
    ensures Tipo(esTp, esParcial, esFinal) == "parcial" <==> esParcial && !esFinal
    ensures Tipo(esTp, esParcial, esFinal) == "tp" <==> esTp && !esParcial && !esFinal
    ensures Tipo(esTp, esParcial, esFinal) == "otro" <==> !esTp && !esParcial && !esFinal
    ensures AlMasUno(Form("", "", "", esTp, esParcial, esFinal, true, "")) ==>
      (Tipo(esTp, esParcial, esFinal) == "tp" <==> esTp) && (Tipo(esTp, esParcial, esFinal) == "parcial" <==> esParcial)
  {
  }

  /** What `onSave` receives. */
  datatype Payload = Payload(id: Option<string>, inscripcionId: string, titulo: string, nota: real, fecha: string,
                             tipoEvaluacion: string, esTp: bool, esParcial: bool, esFinal: bool,
                             influyePromedio: bool, observaciones: string)

  /**
   * `handleSubmit`: `parse` is `parseFloat`, `None` for NaN. An empty title
   * or a grade that is NaN or outside `[0, 10]` sends nothing.
   */
  function Enviar(f: Form, parse: string -> Option<real>, editar: Option<NotaEditar>, inscripcionId: string): Option<Payload>
  {
    var valor := parse(f.nota);
    if f.titulo == "" || valor.None? || valor.value < 0.0 || valor.value > 10.0 then None
    else
      Some(Payload(if editar.Some? then Some(editar.value.id) else None, inscripcionId, f.titulo, valor.value,
                   f.fecha, Tipo(f.esTp, f.esParcial, f.esFinal), f.esTp, f.esParcial, f.esFinal,
                   f.influyePromedio, f.observaciones))
  }

  /**
   * A grade is sent iff the title is set and the field parses to a number
   * in `[0, 10]`; the payload carries that number, the form's type by
   * precedence, and an id exactly when a grade is being edited.
   */
  lemma EnviarCorrecto(f: Form, parse: string -> Option<real>, editar: Option<NotaEditar>, inscripcionId: string)
    ensures var r := Enviar(f, parse, editar, inscripcionId);
      (r.Some? <==> f.titulo != "" && parse(f.nota).Some? && 0.0 <= parse(f.nota).value <= 10.0) &&
      (r.Some? ==>
         (r.value.nota == parse(f.nota).value && 0.0 <= r.value.nota <= 10.0 &&
          r.value.tipoEvaluacion == Tipo(f.esTp, f.esParcial, f.esFinal) &&
          (r.value.id.Some? <==> editar.Some?) &&
          (editar.Some? ==> r.value.id == Some(editar.value.id)) &&
          r.value.inscripcionId == inscripcionId && r.value.titulo == f.titulo))
  {
  }

  /**
   * Opening a valid grade and saving it untouched sends that grade back
   * under its own id, when `parse` reads back what `mostrar` wrote.
   */
  lemma EditarSinCambios(n: NotaEditar, hoy: string, mostrar: real -> string, parse: string -> Option<real>, insc: string)
    requires parse(mostrar(n.nota)) == Some(n.nota)
    requires n.titulo != "" && 0.0 <= n.nota <= 10.0
    ensures var r := Enviar(AlAbrir(Some(n), hoy, mostrar), parse, Some(n), insc);
      r.Some? && r.value.id == Some(n.id) && r.value.titulo == n.titulo && r.value.nota == n.nota &&
      r.value.fecha == n.fecha && r.value.esTp == SiONo(n.esTp, false) &&
      r.value.influyePromedio == SiONo(n.influyePromedio, true)
  {
  }

  /** The dialog component's state. */
  class Dialogo {
    var form: Form

    constructor(hoy: string)
      ensures form == Blanco(hoy)
    {
      form := Blanco(hoy);
    }

    method Abrir(editar: Option<NotaEditar>, hoy: string, mostrar: real -> string)
      modifies this
      ensures form == AlAbrir(editar, hoy, mostrar)
    {
      form := AlAbrir(editar, hoy, mostrar);
    }

    method CambiarTp(c: bool)
      modifies this
      ensures form == ConTp(old(form), c)
      ensures (c || old(AlMasUno(form))) ==> AlMasUno(form)
    {
      form := form.(esTp := c);
      if c {
        form := form.(esParcial := false, esFinal := false);
      }
    }

    method CambiarParcial(c: bool)
      modifies this
      ensures form == ConParcial(old(form), c)
      ensures (c || old(AlMasUno(form))) ==> AlMasUno(form)
    {
      form := form.(esParcial := c);
      if c {
        form := form.(esTp := false, esFinal := false);
      }
    }

    method CambiarFinal(c: bool)
      modifies this
      ensures form == ConFinal(old(form), c)
      ensures (c || old(AlMasUno(form))) ==> AlMasUno(form)
    {
      form := form.(esFinal := c);
      if c {
        form := form.(esTp := false, esParcial := false);
      }
    }

    method Guardar(parse: string -> Option<real>, editar: Option<NotaEditar>, inscripcionId: string) returns (r: Option<Payload>)
      ensures r == Enviar(form, parse, editar, inscripcionId)
    {
      r := Enviar(form, parse, editar, inscripcionId);
    }
  }
}
