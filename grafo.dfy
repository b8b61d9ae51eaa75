/**
 * The curriculum graph page: the layout that puts each year's subjects in a
 * centred column, the click on a node, the enrolment request of its dialog
 * and the zoom controls.
 */
module Grafo {
  import opened Common
  import opened Api
  import opened Utils

  /** A node's position on the canvas. */
  datatype Punto = Punto(x: int, y: int)

  /** `{x: offsetX + nivelIdx * anchoNivel, y: offsetY + idx * altoNivel - (len - 1) * altoNivel / 2}`. */
  function PosicionEn(nivelIdx: int, idx: int, len: int): Punto
  {
    Punto(400 + nivelIdx * 300, 150 + idx * 200 - (len - 1) * 200 / 2)
  }

  /**
   * The column of year `nivelIdx + 1` is at `x = 400 + 300 * nivelIdx`;
   * neighbours are 200 apart and the column is centred on `y = 150`.
   */
  lemma ColumnaCentrada(nivelIdx: int, i: int, len: int)
    requires 0 <= i < len
    ensures PosicionEn(nivelIdx, i, len).x == 400 + 300 * nivelIdx
    ensures i + 1 < len ==> PosicionEn(nivelIdx, i + 1, len).y - PosicionEn(nivelIdx, i, len).y == 200
    ensures PosicionEn(nivelIdx, i, len).y + PosicionEn(nivelIdx, len - 1 - i, len).y == 300
  {
    assert (len - 1) * 200 / 2 == (len - 1) * 100;
  }

  function EnNivel(nivel: int): MateriaApi -> bool
  {
    (m: MateriaApi) => m.nivel == nivel
  }

  /**
   * The five per-year lists after `materias.forEach(m => { if (m.nivel <= 5)
   * niveles[m.nivel - 1].push(m) })`; `None` where a level below 1 reaches
   * `niveles[-1]`, which is undefined, and the push throws.
   */
  function Agrupar(s: seq<MateriaApi>): (r: Option<seq<seq<MateriaApi>>>)
    ensures r.Some? ==> |r.value| == 5
  {
    if s == [] then Some([[], [], [], [], []])
    else
      var previo := Agrupar(s[..|s| - 1]);
      var m := s[|s| - 1];
      if previo.None? then None
      else if m.nivel > 5 then previo
      else if m.nivel < 1 then None
      else Some(previo.value[m.nivel - 1 := previo.value[m.nivel - 1] + [m]])
  }

  /** The grouping fails iff some subject has a level below 1, and list `L` holds the subjects of year `L + 1` in order. */
  lemma {:induction false} AgruparFiltra(s: seq<MateriaApi>)
    ensures Agrupar(s).None? <==> exists i :: 0 <= i < |s| && s[i].nivel < 1
    ensures Agrupar(s).Some? ==> forall L :: 0 <= L < 5 ==> Agrupar(s).value[L] == Filter(s, EnNivel(L + 1))
  {
    if s != [] {
      var ini := s[..|s| - 1];
      var m := s[|s| - 1];
      AgruparFiltra(ini);
      assert s == ini + [m];
      assert forall i :: 0 <= i < |ini| ==> ini[i] == s[i];
      if Agrupar(s).Some? {
        forall L | 0 <= L < 5
          ensures Agrupar(s).value[L] == Filter(s, EnNivel(L + 1))
        {
          FilterAppend(ini, [m], EnNivel(L + 1));
          if m.nivel == L + 1 {
            assert Filter([m], EnNivel(L + 1)) == [m];
          } else {
            assert Filter([m], EnNivel(L + 1)) == [];
            assert Filter(ini, EnNivel(L + 1)) + [] == Filter(ini, EnNivel(L + 1));
          }
        }
      }
    }
  }

  /** The first `k` subjects of one year written into `p`, later ones over earlier ones. */
  function AsignarNivel(p: map<int, Punto>, nivel: seq<MateriaApi>, L: int, k: nat): map<int, Punto>
    requires k <= |nivel|
  {
    if k == 0 then p else AsignarNivel(p, nivel, L, k - 1)[nivel[k - 1].numero := PosicionEn(L, k - 1, |nivel|)]
  }

  /** The years before `L` written in order. */
  function AsignarHasta(n: seq<seq<MateriaApi>>, L: nat): map<int, Punto>
    requires L <= |n|
  {
    if L == 0 then map[] else AsignarNivel(AsignarHasta(n, L - 1), n[L - 1], L - 1, |n[L - 1]|)
  }

  /** `getPosiciones()`: the positions keyed by `materia.numero`, or `None` when the grouping throws. */
  function Posiciones(materias: seq<MateriaApi>): Option<map<int, Punto>>
  {
    var n := Agrupar(materias);
    if n.None? then None else Some(AsignarHasta(n.value, 5))
  }

  /** `getPosiciones`, loop by loop: the subjects pushed into their year, then each year's column written. */
  method GetPosiciones(materias: seq<MateriaApi>) returns (r: Option<map<int, Punto>>)
    ensures r == Posiciones(materias)
  {
    var niveles: seq<seq<MateriaApi>> := [[], [], [], [], []];
    var i := 0;
    while i < |materias|
      invariant 0 <= i <= |materias|
      invariant Agrupar(materias[..i]) == Some(niveles)
    {
      var m := materias[i];
      assert materias[..i + 1][..i] == materias[..i];
      if m.nivel <= 5 {
        if m.nivel < 1 {
          FallaPersiste(materias, i + 1);
          return None;
        }
        niveles := niveles[m.nivel - 1 := niveles[m.nivel - 1] + [m]];
      }
      i := i + 1;
    }
    assert materias[..i] == materias;
    var posiciones: map<int, Punto> := map[];
    var nivelIdx := 0;
    while nivelIdx < 5
      invariant 0 <= nivelIdx <= 5
      invariant posiciones == AsignarHasta(niveles, nivelIdx)
    {
      var materiasNivel := niveles[nivelIdx];
      var idx := 0;
      while idx < |materiasNivel|
        invariant 0 <= idx <= |materiasNivel|
        invariant posiciones == AsignarNivel(AsignarHasta(niveles, nivelIdx), materiasNivel, nivelIdx, idx)
      {
        posiciones := posiciones[materiasNivel[idx].numero := PosicionEn(nivelIdx, idx, |materiasNivel|)];
        idx := idx + 1;
      }
      nivelIdx := nivelIdx + 1;
    }
    return Some(posiciones);
  }

  /** Once a prefix throws, the whole list does. */
  lemma FallaPersiste(s: seq<MateriaApi>, i: int)
    requires 0 <= i <= |s| && Agrupar(s[..i]).None?
    ensures Agrupar(s).None?
  {
    AgruparFiltra(s[..i]);
    AgruparFiltra(s);
    var j :| 0 <= j < i && s[..i][j].nivel < 1;
    assert s[j].nivel < 1;
  }

  /** The keys written by one year are those of `p` and the numbers of its first `k` subjects. */
  lemma {:induction false} ClavesNivel(p: map<int, Punto>, nivel: seq<MateriaApi>, L: int, k: nat, key: int)
    requires k <= |nivel|
    ensures key in AsignarNivel(p, nivel, L, k) <==> key in p || exists t :: 0 <= t < k && nivel[t].numero == key
  {
    if k > 0 {
      ClavesNivel(p, nivel, L, k - 1, key);
    }
  }

  /** A key that none of the first `k` subjects has keeps its old position. */
  lemma {:induction false} OtraClave(p: map<int, Punto>, nivel: seq<MateriaApi>, L: int, k: nat, key: int)
    requires k <= |nivel| && key in p
    requires forall t :: 0 <= t < k ==> nivel[t].numero != key
    ensures key in AsignarNivel(p, nivel, L, k) && AsignarNivel(p, nivel, L, k)[key] == p[key]
  {
    if k > 0 {
      OtraClave(p, nivel, L, k - 1, key);
    }
  }

  /** With distinct numbers in a year, its `t`-th subject ends at its own slot. */
  lemma {:induction false} PropiaClave(p: map<int, Punto>, nivel: seq<MateriaApi>, L: int, k: nat, t: int)
    requires k <= |nivel| && 0 <= t < k
    requires forall a, b :: 0 <= a < b < |nivel| ==> nivel[a].numero != nivel[b].numero
    ensures nivel[t].numero in AsignarNivel(p, nivel, L, k)
    ensures AsignarNivel(p, nivel, L, k)[nivel[t].numero] == PosicionEn(L, t, |nivel|)
  {
    if t < k - 1 {
      PropiaClave(p, nivel, L, k - 1, t);
    }
  }

  /** No number occurs twice in the five lists. */
  ghost predicate NumerosUnicos(n: seq<seq<MateriaApi>>)
  {
    forall L1, t1, L2, t2 ::
      (0 <= L1 < |n| && 0 <= t1 < |n[L1]| && 0 <= L2 < |n| && 0 <= t2 < |n[L2]| && (L1, t1) != (L2, t2)) ==>
        n[L1][t1].numero != n[L2][t2].numero
  }

  /** The years after `L` do not move the subjects of year `L`. */
  lemma {:induction false} PosicionHasta(n: seq<seq<MateriaApi>>, L: int, t: int, K: nat)
    requires K <= |n| && 0 <= L < K && 0 <= t < |n[L]| && NumerosUnicos(n)
    ensures n[L][t].numero in AsignarHasta(n, K)
    ensures AsignarHasta(n, K)[n[L][t].numero] == PosicionEn(L, t, |n[L]|)
  {
    if K == L + 1 {
      PropiaClave(AsignarHasta(n, L), n[L], L, |n[L]|, t);
    } else {
      PosicionHasta(n, L, t, K - 1);
      OtraClave(AsignarHasta(n, K - 1), n[K - 1], K - 1, |n[K - 1]|, n[L][t].numero);
    }
  }

  /** No two subjects share a `numero`. */
  predicate NumerosDistintos(materias: seq<MateriaApi>)
  {
    forall i, j :: 0 <= i < j < |materias| ==> materias[i].numero != materias[j].numero
  }

  /** Distinct numbers in the list stay distinct across the per-year lists. */
  lemma UnicosEnNiveles(materias: seq<MateriaApi>)
    requires NumerosDistintos(materias) && Agrupar(materias).Some?
    ensures NumerosUnicos(Agrupar(materias).value)
  {
    var n: seq<seq<MateriaApi>> := Agrupar(materias).value;
    AgruparFiltra(materias);
    forall L1: int, t1: int, L2: int, t2: int | 0 <= L1 < 5 && 0 <= t1 < |n[L1]| && 0 <= L2 < 5 && 0 <= t2 < |n[L2]| && (L1, t1) != (L2, t2)
      ensures n[L1][t1].numero != n[L2][t2].numero
    {
      NumeroEnNiveles(materias, L1, t1, L2, t2);
    }
  }

  /** Two distinct slots of the per-year lists hold subjects with different numbers. */
  lemma NumeroEnNiveles(materias: seq<MateriaApi>, L1: int, t1: int, L2: int, t2: int)
    requires NumerosDistintos(materias)
    requires 0 <= t1 < |Filter(materias, EnNivel(L1 + 1))| && 0 <= t2 < |Filter(materias, EnNivel(L2 + 1))|
    requires (L1, t1) != (L2, t2)
    ensures Filter(materias, EnNivel(L1 + 1))[t1].numero != Filter(materias, EnNivel(L2 + 1))[t2].numero
  {
    var a := Filter(materias, EnNivel(L1 + 1))[t1];
    var b := Filter(materias, EnNivel(L2 + 1))[t2];
    assert SinRepetir(materias);
    if L1 == L2 {
      FilterSinRepetir(materias, EnNivel(L1 + 1));
    }
    assert a != b;
    var i :| 0 <= i < |materias| && materias[i] == a;
    var j :| 0 <= j < |materias| && materias[j] == b;
  }

  /** Filtering a list without repeats gives one. */
  lemma {:induction false} FilterSinRepetir<T>(s: seq<T>, p: T -> bool)
    requires SinRepetir(s)
    ensures SinRepetir(Filter(s, p))
  {
    if s != [] {
      FilterSinRepetir(s[1..], p);
      var r := Filter(s[1..], p);
      assert forall i :: 0 <= i < |r| ==> r[i] in s[1..];
      assert s[0] !in s[1..];
    }
  }

  /**
   * Each subject of years 1 to 5 is keyed by its `numero` at its year's
   * column and its slot in that year's list: `x = 400 + 300 * (nivel - 1)`
   * and `y = 150 + 200 * t - 100 * (len - 1)`.
   */
  lemma PosicionDeMateria(materias: seq<MateriaApi>, L: int, t: int)
    requires NumerosDistintos(materias) && Posiciones(materias).Some?
    requires 0 <= L < 5 && 0 <= t < |Filter(materias, EnNivel(L + 1))|
    ensures var nivel := Filter(materias, EnNivel(L + 1));
      nivel[t].numero in Posiciones(materias).value &&
      Posiciones(materias).value[nivel[t].numero] == PosicionEn(L, t, |nivel|) &&
      Posiciones(materias).value[nivel[t].numero].x == 400 + 300 * L
  {
    AgruparFiltra(materias);
    UnicosEnNiveles(materias);
    PosicionHasta(Agrupar(materias).value, L, t, 5);
  }

  /** Only subjects of years 1 to 5 are placed: every key is the number of one of them. */
  lemma ClavesPosiciones(materias: seq<MateriaApi>, key: int)
    requires Posiciones(materias).Some?
    ensures key in Posiciones(materias).value ==>
      exists i :: 0 <= i < |materias| && 1 <= materias[i].nivel <= 5 && materias[i].numero == key
  {
    var n := Agrupar(materias).value;
    AgruparFiltra(materias);
    if key in Posiciones(materias).value {
      var L, t := ClaveEnNivel(n, 5, key);
      var m := n[L][t];
      assert m in Filter(materias, EnNivel(L + 1));
      var i :| 0 <= i < |materias| && materias[i] == m;
    }
  }

  lemma {:induction false} ClaveEnNivel(n: seq<seq<MateriaApi>>, K: nat, key: int) returns (L: int, t: int)
    requires K <= |n| && key in AsignarHasta(n, K)
    ensures 0 <= L < K && 0 <= t < |n[L]| && n[L][t].numero == key
  {
    ClavesNivel(AsignarHasta(n, K - 1), n[K - 1], K - 1, |n[K - 1]|, key);
    if key in AsignarHasta(n, K - 1) {
      L, t := ClaveEnNivel(n, K - 1, key);
    } else {
      L := K - 1;
      t :| 0 <= t < |n[K - 1]| && n[K - 1][t].numero == key;
    }
  }

  /** An enrolment as the graph reads it: by the subject's `numero`. */
  datatype InscripcionGrafo = InscripcionGrafo(id: string, materiaNumero: int, estado: string)

  /** `getInscripcion(num)`. */
  function GetInscripcion(inscs: seq<InscripcionGrafo>, num: int): Option<InscripcionGrafo>
  {
    Find(inscs, (i: InscripcionGrafo) => i.materiaNumero == num)
  }

  /** `puedeInscribirse(materia)`: the subject has no enrolment at all. */
  function PuedeInscribirse(materia: MateriaApi, inscs: seq<InscripcionGrafo>): (r: bool)
    ensures r <==> forall i :: 0 <= i < |inscs| ==> inscs[i].materiaNumero != materia.numero
  {
    GetInscripcion(inscs, materia.numero).None?
  }

  /** What a click on a node does. */
  datatype Accion = IrA(url: string) | AbrirInscripcion(materia: MateriaApi)

  /** `handleMateriaClick(materia)`. */
  function Click(materia: MateriaApi, inscs: seq<InscripcionGrafo>): Accion
  {
    var insc := GetInscripcion(inscs, materia.numero);
    if insc.Some? && insc.value.estado != "disponible"
    then IrA(CreatePageUrl("DetalleMateria").path + "?id=" + insc.value.id)
    else AbrirInscripcion(materia)
  }

  /**
   * A click opens the detail page of the subject's first enrolment iff that
   * enrolment is not `disponible`; otherwise it opens the enrolment dialog
   * for that very subject, including when an enrolment exists with status
   * `disponible`, though then `puedeInscribirse` is false.
   */
  lemma ClickCorrecto(materia: MateriaApi, inscs: seq<InscripcionGrafo>)
    ensures var insc := GetInscripcion(inscs, materia.numero);
      (Click(materia, inscs).IrA? <==> insc.Some? && insc.value.estado != "disponible") &&
      (Click(materia, inscs).IrA? ==>
         Click(materia, inscs).url == "/detalle?id=" + insc.value.id && insc.value in inscs &&
         insc.value.materiaNumero == materia.numero) &&
      (Click(materia, inscs).AbrirInscripcion? ==> Click(materia, inscs).materia == materia) &&
      (PuedeInscribirse(materia, inscs) ==> Click(materia, inscs) == AbrirInscripcion(materia))
  {
  }

  /** The body of `inscribirMutation` from the dialog. */
  datatype PeticionGrafo = PeticionGrafo(materiaId: string, materiaNumero: int, estado: string, cuatrimestre: string)

  /** `handleInscribir()` for the selected subject. */
  function HandleInscribir(sel: MateriaApi, cuatrimestre: string): (p: PeticionGrafo)
    ensures p.materiaId == sel.id && p.materiaNumero == sel.numero && p.estado == "cursando"
  {
    PeticionGrafo(sel.id, sel.numero, "cursando", cuatrimestre)
  }

  /** `handleWheel`: 0.9 scrolling down, 1.1 up, clamped to `[0.3, 3]`. */
  function Wheel(prev: real, deltaY: real): (z: real)
    ensures 0.3 <= z <= 3.0
    ensures 0.3 <= prev * (if deltaY > 0.0 then 0.9 else 1.1) <= 3.0 ==> z == prev * (if deltaY > 0.0 then 0.9 else 1.1)
  {
    var delta := if deltaY > 0.0 then 0.9 else 1.1;
    var m := if prev * delta > 0.3 then prev * delta else 0.3;
    if m < 3.0 then m else 3.0
  }

  /** The toolbar buttons multiply without the clamp. */
  function ZoomIn(z: real): real { z * 1.1 }

  function ZoomOut(z: real): real { z * 0.9 }

  /** So the buttons leave `[0.3, 3]`, where the wheel stops at its ends. */
  lemma BotonesSinLimite()
    ensures ZoomIn(3.0) > 3.0 && Wheel(3.0, -1.0) == 3.0
    ensures ZoomOut(0.3) < 0.3 && Wheel(0.3, 1.0) == 0.3
  {
  }
}
