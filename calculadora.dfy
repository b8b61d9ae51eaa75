/**
 * The "what if" average calculator: a list of simulated rows (a subject and
 * a grade typed as text) that the page appends to, edits in place and
 * removes from, the subjects still offered for simulation, and the average
 * of the real final grades together with the complete simulated rows.
 */
module Calculadora {
  import opened Common
  import opened Api

  /** A simulated row: `materia_id` and `nota`, both as typed; `""` is blank. */
  datatype Fila = Fila(materiaId: string, nota: string)

  /** The two fields `actualizarMateria` can set. */
  datatype Campo = CampoMateria | CampoNota

  /** A row fresh from `agregarMateria`. */
  const FilaVacia := Fila("", "")

  function Id(x: real): real { x }

  /** `notasFinales.map(n => n.nota)`. */
  function NotasActuales(finales: seq<NotaApi>): (r: seq<real>)
    ensures |r| == |finales| && forall i :: 0 <= i < |finales| ==> r[i] == finales[i].nota
  {
    seq(|finales|, i requires 0 <= i < |finales| => finales[i].nota)
  }

  /** `promedioActual`: the mean of the final grades, 0 without any. */
  function PromedioActual(finales: seq<NotaApi>): real
  {
    if |finales| > 0 then Mean(NotasActuales(finales), Id).value else 0.0
  }

  /** `m.materia_id && m.nota`: both fields non-blank. */
  predicate Completa(f: Fila) { f.materiaId != "" && f.nota != "" }

  function Validas(filas: seq<Fila>): seq<Fila> { Filter(filas, Completa) }

  /** `notasSimuladasValidas`: the parsed grades of the complete rows; `parse` stands for `parseFloat`. */
  function NotasSimuladas(filas: seq<Fila>, parse: string -> real): (r: seq<real>)
    ensures |r| == |Validas(filas)|
    ensures forall i :: 0 <= i < |r| ==> r[i] == parse(Validas(filas)[i].nota)
  {
    var v := Validas(filas);
    seq(|v|, i requires 0 <= i < |v| => parse(v[i].nota))
  }

  /** `todasNotas`. */
  function TodasNotas(finales: seq<NotaApi>, filas: seq<Fila>, parse: string -> real): seq<real>
  {
    NotasActuales(finales) + NotasSimuladas(filas, parse)
  }

  /** `calcularPromedioSimulado`: the mean of all grades, or the current average when there is none. */
  function PromedioSimulado(finales: seq<NotaApi>, filas: seq<Fila>, parse: string -> real): real
  {
    var todas := TodasNotas(finales, filas, parse);
    if |todas| == 0 then PromedioActual(finales) else Mean(todas, Id).value
  }

  /** Without a complete row the simulation shows the current average. */
  lemma SinSimulacion(finales: seq<NotaApi>, filas: seq<Fila>, parse: string -> real)
    requires forall i :: 0 <= i < |filas| ==> !Completa(filas[i])
    ensures PromedioSimulado(finales, filas, parse) == PromedioActual(finales)
  {
    CountCero(filas, Completa);
    FilterCount(filas, Completa);
    assert NotasSimuladas(filas, parse) == [];
    assert NotasActuales(finales) + [] == NotasActuales(finales);
  }

  /** A row missing its subject or its grade changes nothing in the average. */
  lemma IncompletaNoCuenta(finales: seq<NotaApi>, filas: seq<Fila>, f: Fila, parse: string -> real)
    requires !Completa(f)
    ensures PromedioSimulado(finales, filas + [f], parse) == PromedioSimulado(finales, filas, parse)
  {
    FilterAppend(filas, [f], Completa);
    assert Filter([f], Completa) == [];
    assert Validas(filas) + [] == Validas(filas);
    assert NotasSimuladas(filas + [f], parse) == NotasSimuladas(filas, parse);
  }

  /** When every grade taking part lies in `[lo, hi]`, so does the simulated average. */
  lemma SimuladoAcotado(finales: seq<NotaApi>, filas: seq<Fila>, parse: string -> real, lo: real, hi: real)
    requires |finales| > 0 || exists i :: 0 <= i < |filas| && Completa(filas[i])
    requires forall i :: 0 <= i < |finales| ==> lo <= finales[i].nota <= hi
    requires forall i :: 0 <= i < |filas| && Completa(filas[i]) ==> lo <= parse(filas[i].nota) <= hi
    ensures lo <= PromedioSimulado(finales, filas, parse) <= hi
  {
    var todas := TodasNotas(finales, filas, parse);
    var a, b := NotasActuales(finales), NotasSimuladas(filas, parse);
    if |finales| == 0 {
      var i :| 0 <= i < |filas| && Completa(filas[i]);
      assert filas[i] in Validas(filas);
    }
    SimuladasAcotadas(filas, parse, lo, hi);
    assert forall i :: 0 <= i < |todas| ==> lo <= Id(todas[i]) <= hi by {
      assert forall i :: 0 <= i < |todas| ==> todas[i] == if i < |a| then a[i] else b[i - |a|];
    }
    MeanBounds(todas, Id, lo, hi);
  }

  lemma SimuladasAcotadas(filas: seq<Fila>, parse: string -> real, lo: real, hi: real)
    requires forall i :: 0 <= i < |filas| && Completa(filas[i]) ==> lo <= parse(filas[i].nota) <= hi
    ensures forall i :: 0 <= i < |NotasSimuladas(filas, parse)| ==> lo <= NotasSimuladas(filas, parse)[i] <= hi
  {
    var v := Validas(filas);
    forall i | 0 <= i < |v| ensures lo <= parse(v[i].nota) <= hi {
      var j :| 0 <= j < |filas| && filas[j] == v[i];
    }
  }

  /** Row `i` with field `campo` set to `valor`. */
  function Con(f: Fila, campo: Campo, valor: string): Fila
  {
    match campo
    case CampoMateria => f.(materiaId := valor)
    case CampoNota => f.(nota := valor)
  }

  /** `actualizarMateria(index, campo, valor)` on the list. */
  function Actualizada(filas: seq<Fila>, i: int, campo: Campo, valor: string): (r: seq<Fila>)
    requires 0 <= i < |filas|
  {
    filas[i := Con(filas[i], campo, valor)]
  }

  /** Only field `campo` of row `i` changes: the other rows and the other field stay. */
  lemma ActualizaSoloCampo(filas: seq<Fila>, i: int, campo: Campo, valor: string)
    requires 0 <= i < |filas|
    ensures var r := Actualizada(filas, i, campo, valor);
      |r| == |filas| &&
      (forall j :: 0 <= j < |filas| && j != i ==> r[j] == filas[j]) &&
      (campo == CampoMateria ==> r[i].materiaId == valor && r[i].nota == filas[i].nota) &&
      (campo == CampoNota ==> r[i].nota == valor && r[i].materiaId == filas[i].materiaId)
  {
  }

  /** `eliminarMateria(index)`: every row but the one at `index`; an index out of range removes nothing. */
  function SinFila(filas: seq<Fila>, i: int): (r: seq<Fila>)
  {
    if 0 <= i < |filas| then filas[..i] + filas[i + 1..] else filas
  }

  /** Exactly row `i` goes, and the others keep their order. */
  lemma SinFilaOrden(filas: seq<Fila>, i: int)
    ensures 0 <= i < |filas| ==>
      var r := SinFila(filas, i);
      |r| == |filas| - 1 &&
      (forall j :: 0 <= j < i ==> r[j] == filas[j]) &&
      (forall j :: i <= j < |r| ==> r[j] == filas[j + 1]) &&
      multiset(r) + multiset{filas[i]} == multiset(filas)
    ensures !(0 <= i < |filas|) ==> SinFila(filas, i) == filas
  {
    if 0 <= i < |filas| {
      assert filas == filas[..i] + [filas[i]] + filas[i + 1..];
    }
  }

  /** Appending a blank row keeps every existing one in place. */
  lemma AgregarConserva(filas: seq<Fila>)
    ensures var r := filas + [FilaVacia];
      |r| == |filas| + 1 && r[..|filas|] == filas && r[|filas|] == FilaVacia && !Completa(r[|filas|])
  {
  }

  function IdsFinales(finales: seq<NotaApi>): set<string>
  {
    set i | 0 <= i < |finales| :: finales[i].materiaId
  }

  function IdsSimulados(filas: seq<Fila>): set<string>
  {
    set i | 0 <= i < |filas| :: filas[i].materiaId
  }

  predicate Ofrecible(c: InscripcionApi, finales: seq<NotaApi>, filas: seq<Fila>)
  {
    c.estado != "aprobada" && c.materiaId !in IdsFinales(finales) && c.materiaId !in IdsSimulados(filas)
  }

  /** `getMateriaDisponibles`. */
  function Disponibles(cursadas: seq<InscripcionApi>, finales: seq<NotaApi>, filas: seq<Fila>): seq<InscripcionApi>
  {
    Filter(cursadas, (c: InscripcionApi) => Ofrecible(c, finales, filas))
  }

  /**
   * A subject is offered iff its enrolment is not approved, no final grade
   * is for it and no row simulates it already; the button "Agregar" is
   * enabled iff some subject is offered.
   */
  lemma DisponiblesExactas(cursadas: seq<InscripcionApi>, finales: seq<NotaApi>, filas: seq<Fila>, c: InscripcionApi)
    ensures c in Disponibles(cursadas, finales, filas) <==>
      c in cursadas && c.estado != "aprobada" &&
      (forall i :: 0 <= i < |finales| ==> finales[i].materiaId != c.materiaId) &&
      (forall i :: 0 <= i < |filas| ==> filas[i].materiaId != c.materiaId)
    ensures |Disponibles(cursadas, finales, filas)| > 0 <==> exists i :: 0 <= i < |cursadas| && Ofrecible(cursadas[i], finales, filas)
  {
    var d := Disponibles(cursadas, finales, filas);
    if c in d {
      var k :| 0 <= k < |d| && d[k] == c;
      assert Ofrecible(c, finales, filas);
      assert forall i :: 0 <= i < |finales| ==> finales[i].materiaId in IdsFinales(finales);
      assert forall i :: 0 <= i < |filas| ==> filas[i].materiaId in IdsSimulados(filas);
    }
    if |d| > 0 {
      assert d[0] in cursadas && Ofrecible(d[0], finales, filas);
    }
  }

  /** The calculator's state: the simulated rows, replaced wholesale by each handler. */
  class Simulacion {
    var filas: seq<Fila>

    constructor ()
      ensures filas == []
    {
      filas := [];
    }

    /** `agregarMateria`. */
    method Agregar()
      modifies this
      ensures filas == old(filas) + [FilaVacia]
    {
      filas := filas + [FilaVacia];
    }

    /** `actualizarMateria`: the row is written through the copied list, as the page does. */
    method Actualizar(i: int, campo: Campo, valor: string)
      requires 0 <= i < |filas|
      modifies this
      ensures filas == Actualizada(old(filas), i, campo, valor)
    {
      var nuevas := filas;
      var fila := nuevas[i];
      match campo {
        case CampoMateria => fila := fila.(materiaId := valor);
        case CampoNota => fila := fila.(nota := valor);
      }
      nuevas := nuevas[i := fila];
      filas := nuevas;
    }

    /** `eliminarMateria`. */
    method Eliminar(i: int)
      modifies this
      ensures filas == SinFila(old(filas), i)
    {
      if 0 <= i < |filas| {
        filas := filas[..i] + filas[i + 1..];
      }
    }
  }
}
