/**
 * The correlativity panel of a subject: the edges it needs and the edges it
 * enables, each split by type into a block of subject names.
 */
module CuadroCorrelativas {
  import opened Common
  import opened Api
  import opened Inscripcion

  function Habilita(materiaId: string): CorrelativaApi -> bool
  {
    (c: CorrelativaApi) => c.correlativaId == materiaId
  }

  /** `soyRequisitoDe`: the edges whose `correlativa_id` is the subject. */
  function SoyRequisitoDe(correlativas: seq<CorrelativaApi>, materiaId: string): seq<CorrelativaApi>
  {
    Filter(correlativas, Habilita(materiaId))
  }

  /**
   * `requisitos` holds exactly the subject's own edges and `soyRequisitoDe`
   * exactly the edges naming it as requirement, so an edge from `a` to `b`
   * is listed in `a`'s requirements iff it is listed among what `b` enables.
   */
  lemma Dualidad(correlativas: seq<CorrelativaApi>, e: CorrelativaApi, a: string, b: string)
    requires e.materiaId == a && e.correlativaId == b
    ensures e in Requisitos(correlativas, a) <==> e in correlativas
    ensures e in SoyRequisitoDe(correlativas, b) <==> e in correlativas
    ensures e in Requisitos(correlativas, a) <==> e in SoyRequisitoDe(correlativas, b)
  {
    var r := Requisitos(correlativas, a);
    var s := SoyRequisitoDe(correlativas, b);
    if e in r {
      var k :| 0 <= k < |r| && r[k] == e;
    }
    if e in s {
      var k :| 0 <= k < |s| && s[k] == e;
    }
    if e in correlativas {
      var k :| 0 <= k < |correlativas| && correlativas[k] == e;
    }
  }

  /** Every listed requirement is the subject's own edge, and every enabled one names it. */
  lemma ListasPropias(correlativas: seq<CorrelativaApi>, x: string)
    ensures forall k :: 0 <= k < |Requisitos(correlativas, x)| ==> Requisitos(correlativas, x)[k].materiaId == x
    ensures forall k :: 0 <= k < |SoyRequisitoDe(correlativas, x)| ==> SoyRequisitoDe(correlativas, x)[k].correlativaId == x
  {
  }

  /** `getNombre(id)`: the subject's name, or `Materia` when the id is unknown or the name is empty. */
  function GetNombre(materias: seq<MateriaApi>, id: string): (r: string)
    ensures r != ""
  {
    var m := Find(materias, (m: MateriaApi) => m.id == id);
    if m.Some? && m.value.nombre != "" then m.value.nombre else "Materia"
  }

  /** An unknown id reads `Materia`; a known one with a name reads the name of its first subject. */
  lemma GetNombreCasos(materias: seq<MateriaApi>, id: string)
    ensures (forall i :: 0 <= i < |materias| ==> materias[i].id != id) ==> GetNombre(materias, id) == "Materia"
    ensures GetNombre(materias, id) != "Materia" ==>
      exists i :: 0 <= i < |materias| && materias[i].id == id && materias[i].nombre == GetNombre(materias, id)
  {
    var m := Find(materias, (m: MateriaApi) => m.id == id);
    if m.Some? {
      var i :| 0 <= i < |materias| && materias[i] == m.value;
    }
  }

  /** The rows of a `ListBlock`: `Ninguna` for no edge of the type, else one name per edge. */
  datatype Bloque = Ninguna | Nombres(nombres: seq<string>)

  function DeTipo(tipo: string): CorrelativaApi -> bool
  {
    (r: CorrelativaApi) => r.tipo == tipo
  }

  /** The name a row shows: the enabled subject on the right, the required one on the left. */
  function NombreDeFila(materias: seq<MateriaApi>, r: CorrelativaApi, habilitada: bool): string
  {
    GetNombre(materias, if habilitada then r.materiaId else r.correlativaId)
  }

  /** `ListBlock({lista, tipo, isHabilitada})`. */
  function ListBlock(materias: seq<MateriaApi>, lista: seq<CorrelativaApi>, tipo: string, habilitada: bool): (b: Bloque)
  {
    var items := Filter(lista, DeTipo(tipo));
    if |items| > 0 then Nombres(seq(|items|, i requires 0 <= i < |items| => NombreDeFila(materias, items[i], habilitada)))
    else Ninguna
  }

  /**
   * A block lists one row per edge of its type, in order, with the name of
   * the other end of the edge, and reads `Ninguna` iff there is no edge of
   * that type.
   */
  lemma ListBlockCorrecto(materias: seq<MateriaApi>, lista: seq<CorrelativaApi>, tipo: string, habilitada: bool)
    ensures var items := Filter(lista, DeTipo(tipo));
      var b := ListBlock(materias, lista, tipo, habilitada);
      (b.Ninguna? <==> forall k :: 0 <= k < |lista| ==> lista[k].tipo != tipo) &&
      (b.Nombres? ==>
         (|b.nombres| == |items| &&
          forall i :: 0 <= i < |items| ==>
            (items[i].tipo == tipo &&
             b.nombres[i] == GetNombre(materias, if habilitada then items[i].materiaId else items[i].correlativaId))))
  {
    CountCero(lista, DeTipo(tipo));
    FilterCount(lista, DeTipo(tipo));
  }

  /** The four blocks: needed and enabled, each for `regular` and for `aprobada`. */
  datatype Cuadro = Cuadro(requisitosRegular: Bloque, habilitaRegular: Bloque,
                           requisitosAprobada: Bloque, habilitaAprobada: Bloque)

  function CuadroDe(materiaId: string, materias: seq<MateriaApi>, correlativas: seq<CorrelativaApi>): Cuadro
  {
    var req := Requisitos(correlativas, materiaId);
    var soy := SoyRequisitoDe(correlativas, materiaId);
    Cuadro(ListBlock(materias, req, "regular", false), ListBlock(materias, soy, "regular", true),
           ListBlock(materias, req, "aprobada", false), ListBlock(materias, soy, "aprobada", true))
  }
}
