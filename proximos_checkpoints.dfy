/**
 * The dashboard's checkpoint card: the next five checkpoint classes from
 * now on, each with its subject, the days left, an urgency colour and the
 * HOY badge.
 */
module ProximosCheckpoints {
  import opened Common
  import opened Strings
  import opened Api

  /** A class as the card receives it. */
  datatype ClaseCp = ClaseCp(id: string, inscripcionMateriaId: string, titulo: string, fecha: string,
                             esCheckpoint: bool, tipoCheckpoint: string)

  datatype InscripcionCp = InscripcionCp(id: string, materiaNumero: int)

  datatype MateriaCp = MateriaCp(numero: int, nombre: string, color: string)

  /**
   * `new Date(c.fecha) >= new Date()`, with `instante` the engine's parse of
   * a date string to milliseconds (`None` for NaN) and `ahora` the present.
   */
  predicate Proximo(c: ClaseCp, instante: string -> Option<int>, ahora: int)
  {
    c.esCheckpoint && c.fecha != "" && instante(c.fecha).Some? && instante(c.fecha).value >= ahora
  }

  function Seleccionable(instante: string -> Option<int>, ahora: int): ClaseCp -> bool
  {
    (c: ClaseCp) => Proximo(c, instante, ahora)
  }

  function Clave(c: ClaseCp, instante: string -> Option<int>): int
  {
    if instante(c.fecha).Some? then instante(c.fecha).value else 0
  }

  /** The comparator `new Date(a.fecha) - new Date(b.fecha)`. */
  function AntesQue(instante: string -> Option<int>): (ClaseCp, ClaseCp) -> bool
  {
    (a: ClaseCp, b: ClaseCp) => Clave(a, instante) <= Clave(b, instante)
  }

  function Ordenados(clases: seq<ClaseCp>, instante: string -> Option<int>, ahora: int): seq<ClaseCp>
  {
    SortBy(Filter(clases, Seleccionable(instante, ahora)), AntesQue(instante))
  }

  /** `checkpoints`: filtered, sorted, then `slice(0, 5)`. */
  function Checkpoints(clases: seq<ClaseCp>, instante: string -> Option<int>, ahora: int): seq<ClaseCp>
  {
    var s := Ordenados(clases, instante, ahora);
    if |s| <= 5 then s else s[..5]
  }

  /** The sorted selection is a permutation of the upcoming checkpoint classes, earliest first. */
  lemma OrdenadosCorrectos(clases: seq<ClaseCp>, instante: string -> Option<int>, ahora: int)
    ensures multiset(Ordenados(clases, instante, ahora)) == multiset(Filter(clases, Seleccionable(instante, ahora)))
    ensures SortedBy(Ordenados(clases, instante, ahora), AntesQue(instante))
    ensures forall k :: 0 <= k < |Ordenados(clases, instante, ahora)| ==>
      Ordenados(clases, instante, ahora)[k] in clases && Proximo(Ordenados(clases, instante, ahora)[k], instante, ahora)
  {
    var f := Filter(clases, Seleccionable(instante, ahora));
    var s := Ordenados(clases, instante, ahora);
    assert TotalPreorder(AntesQue(instante));
    SortBySorted(f, AntesQue(instante));
    forall k | 0 <= k < |s| ensures s[k] in clases && Proximo(s[k], instante, ahora) {
      assert s[k] in multiset(f);
    }
  }

  /** At most five checkpoints, each an upcoming checkpoint class, earliest first. */
  lemma CheckpointsValidos(clases: seq<ClaseCp>, instante: string -> Option<int>, ahora: int)
    ensures |Checkpoints(clases, instante, ahora)| <= 5
    ensures forall k :: 0 <= k < |Checkpoints(clases, instante, ahora)| ==>
      Checkpoints(clases, instante, ahora)[k] in clases && Proximo(Checkpoints(clases, instante, ahora)[k], instante, ahora)
    ensures SortedBy(Checkpoints(clases, instante, ahora), AntesQue(instante))
  {
    OrdenadosCorrectos(clases, instante, ahora);
    var s := Ordenados(clases, instante, ahora);
    var r := Checkpoints(clases, instante, ahora);
    assert forall k :: 0 <= k < |r| ==> r[k] == s[k];
  }

  /**
   * They are the earliest ones: an upcoming checkpoint left out is no
   * earlier than every one shown, and none is left out while fewer than
   * five are shown.
   */
  lemma CincoPrimeros(clases: seq<ClaseCp>, instante: string -> Option<int>, ahora: int, c: ClaseCp)
    requires c in clases && Proximo(c, instante, ahora)
    requires c !in Checkpoints(clases, instante, ahora)
    ensures |Checkpoints(clases, instante, ahora)| == 5
    ensures forall k :: 0 <= k < 5 ==> Clave(Checkpoints(clases, instante, ahora)[k], instante) <= instante(c.fecha).value
  {
    OrdenadosCorrectos(clases, instante, ahora);
    var s := Ordenados(clases, instante, ahora);
    var r := Checkpoints(clases, instante, ahora);
    assert c in Filter(clases, Seleccionable(instante, ahora));
    assert c in multiset(s);
    var j :| 0 <= j < |s| && s[j] == c;
    assert j >= 5;
    forall k | 0 <= k < 5 ensures Clave(r[k], instante) <= instante(c.fecha).value {
      assert TotalPreorder(AntesQue(instante));
      OrdenadoPares(s, AntesQue(instante), k, j);
      assert r[k] == s[k];
    }
  }

  /** `getDiasRestantes`: `differenceInDays(new Date(fecha), new Date())`. */
  function DiasRestantes(c: ClaseCp, instante: string -> Option<int>, ahora: int): int
    requires instante(c.fecha).Some?
  {
    DiferenciaDias(instante(c.fecha).value, ahora)
  }

  /** A shown checkpoint has no negative day count, and 0 exactly within its last 24 hours. */
  lemma DiasDeSeleccionado(c: ClaseCp, instante: string -> Option<int>, ahora: int)
    requires Proximo(c, instante, ahora)
    ensures DiasRestantes(c, instante, ahora) >= 0
    ensures DiasRestantes(c, instante, ahora) == 0 <==> instante(c.fecha).value - ahora < MsDia
  {
  }

  datatype Urgencia = Roja | Ambar | Cian

  /** `getColorPorUrgencia`. */
  function ColorPorUrgencia(dias: int): Urgencia
  {
    if dias <= 3 then Roja else if dias <= 7 then Ambar else Cian
  }

  /** Red up to 3 days, amber from 4 to 7, cyan after; the colour never gets less urgent as the day nears. */
  lemma UrgenciaTramos(dias: int, antes: int)
    ensures ColorPorUrgencia(dias) == Roja <==> dias <= 3
    ensures ColorPorUrgencia(dias) == Ambar <==> 3 < dias <= 7
    ensures ColorPorUrgencia(dias) == Cian <==> dias > 7
    ensures antes <= dias && ColorPorUrgencia(dias) == Roja ==> ColorPorUrgencia(antes) == Roja
    ensures antes <= dias && ColorPorUrgencia(dias) == Ambar ==> ColorPorUrgencia(antes) != Cian
  {
  }

  /** The day badge: `diasRestantes === 0 ? 'HOY' : `${diasRestantes}d``. */
  function Insignia(dias: int): string
  {
    if dias == 0 then "HOY" else IntToString(dias) + "d"
  }

  /** The badge reads HOY iff no whole day remains, and otherwise ends in `d` after the number. */
  lemma InsigniaHoy(dias: int)
    ensures Insignia(dias) == "HOY" <==> dias == 0
    ensures dias != 0 ==> Insignia(dias)[|Insignia(dias)| - 1] == 'd' && Insignia(dias)[..|Insignia(dias)| - 1] == IntToString(dias)
  {
    if dias != 0 {
      var t := IntToString(dias) + "d";
      assert t[|t| - 1] == 'd';
      assert t[..|t| - 1] == IntToString(dias);
    }
  }

  function ConId(id: string): InscripcionCp -> bool
  {
    (i: InscripcionCp) => i.id == id
  }

  function ConNumero(n: int): MateriaCp -> bool
  {
    (m: MateriaCp) => m.numero == n
  }

  /** `getMateriaInfo`: the enrolment by id, then the subject by that enrolment's number. */
  function MateriaInfo(c: ClaseCp, inscs: seq<InscripcionCp>, materias: seq<MateriaCp>): Option<MateriaCp>
  {
    var i := Find(inscs, ConId(c.inscripcionMateriaId));
    if i.None? then None else Find(materias, ConNumero(i.value.materiaNumero))
  }

  function Resuelta(inscs: seq<InscripcionCp>, materias: seq<MateriaCp>): ClaseCp -> bool
  {
    (c: ClaseCp) => MateriaInfo(c, inscs, materias).Some?
  }

  /** The checkpoints actually drawn: `if (!materia) return null` drops the rest. */
  function Dibujados(clases: seq<ClaseCp>, inscs: seq<InscripcionCp>, materias: seq<MateriaCp>,
                     instante: string -> Option<int>, ahora: int): seq<ClaseCp>
  {
    Filter(Checkpoints(clases, instante, ahora), Resuelta(inscs, materias))
  }

  /**
   * A checkpoint is drawn iff it is selected and its enrolment exists and
   * names a subject of the catalogue; the subject shown has the number of
   * the first enrolment with that id.
   */
  lemma DibujadoSiResuelve(clases: seq<ClaseCp>, inscs: seq<InscripcionCp>, materias: seq<MateriaCp>,
                           instante: string -> Option<int>, ahora: int, c: ClaseCp)
    ensures c in Dibujados(clases, inscs, materias, instante, ahora) <==>
      c in Checkpoints(clases, instante, ahora) &&
      (exists i :: 0 <= i < |inscs| && inscs[i].id == c.inscripcionMateriaId) &&
      (exists j :: 0 <= j < |materias| &&
         materias[j].numero == Find(inscs, ConId(c.inscripcionMateriaId)).value.materiaNumero)
    ensures |Dibujados(clases, inscs, materias, instante, ahora)| <= 5
    ensures MateriaInfo(c, inscs, materias).Some? ==>
      MateriaInfo(c, inscs, materias).value in materias &&
      MateriaInfo(c, inscs, materias).value.numero == Find(inscs, ConId(c.inscripcionMateriaId)).value.materiaNumero
  {
    CheckpointsValidos(clases, instante, ahora);
    var cps := Checkpoints(clases, instante, ahora);
    if c in cps && MateriaInfo(c, inscs, materias).Some? {
      var k :| 0 <= k < |cps| && cps[k] == c;
    }
  }
}
