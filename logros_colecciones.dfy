/**
 * The "colecciones" achievements: counts of 10s, 9s and 8s, of grades,
 * partial exams and practical works, runs of passes at the start,
 * grades never obtained, the variety of integer marks, and five rising
 * grades in a row.
 */
module LogrosColecciones {
  import opened Common
  import opened LogrosDatos

  /** `len([n for n in notas if p(n)]) >= k`: the shape of every collection count. */
  predicate CuentaAlMenos(notas: seq<Nota>, p: Nota -> bool, k: nat)
  {
    Count(notas, p) >= k
  }

  /** `coleccionista_10`, `_25`, `_50` and `racha_10_dieces`: at least `k` tens. */
  predicate Coleccionista(notas: seq<Nota>, k: nat)
  {
    CuentaAlMenos(notas, NotaIgual(10.0), k)
  }

  /** `50_notas` to `500_notas`. */
  predicate CantidadNotas(notas: seq<Nota>, k: nat) { |notas| >= k }

  /** `todas_aprobadas_50` and `solo_aprobadas_20`: at least `k` grades, the first `k` by date all passed. */
  predicate PrimerasAprobadas(notas: seq<Nota>, k: nat)
  {
    var s := OrdenarPorFecha(notas);
    |notas| >= k && forall i :: 0 <= i < k ==> s[i].nota >= 4.0
  }

  /** `sin_doses` and `sin_treses`: fifty grades or more and none equal to `v`. */
  predicate SinValor(notas: seq<Nota>, v: real)
  {
    |notas| >= 50 && forall i :: 0 <= i < |notas| ==> notas[i].nota != v
  }

  /** `variedad`: every integer part from 2 to 10 occurs (`int(n.nota)` truncates). */
  predicate Variedad(notas: seq<Nota>)
  {
    forall v :: 2 <= v <= 10 ==> TieneEntero(notas, v)
  }

  /** Some grade has integer part `v`. */
  predicate TieneEntero(notas: seq<Nota>, v: int)
  {
    exists i :: 0 <= i < |notas| && Trunc(notas[i].nota) == v
  }

  /** Positions `i` to `i + n - 1` rise strictly. */
  predicate CrecienteEn(s: seq<Nota>, i: int, n: nat)
    requires 0 <= i && i + n <= |s|
  {
    forall j :: i <= j < i + n - 1 ==> s[j].nota < s[j + 1].nota
  }

  /** `mejorando`: five grades or more and five consecutive strictly rising ones in date order. */
  predicate Mejorando(notas: seq<Nota>)
  {
    var s := OrdenarPorFecha(notas);
    |notas| >= 5 && exists i :: 0 <= i <= |s| - 5 && CrecienteEn(s, i, 5)
  }

  /** The nested loops of `mejorando`, with the `mejorando` flag and the inner `break`. */
  method VerificarMejorando(notas: seq<Nota>) returns (b: bool)
    ensures b == Mejorando(notas)
  {
    if |notas| < 5 {
      return false;
    }
    var s := OrdenarPorFecha(notas);
    var i := 0;
    while i < |s| - 4
      invariant 0 <= i <= |s| - 4
      invariant forall k :: 0 <= k < i ==> !CrecienteEn(s, k, 5)
    {
      var mejorando := true;
      var j := i;
      while j < i + 4
        invariant i <= j <= i + 4
        invariant mejorando <==> forall m :: i <= m < j ==> s[m].nota < s[m + 1].nota
      {
        if s[j].nota >= s[j + 1].nota {
          assert !CrecienteEn(s, i, 5);
          mejorando := false;
          break;
        }
        j := j + 1;
      }
      if mejorando {
        assert CrecienteEn(s, i, 5);
        return true;
      }
      i := i + 1;
    }
    return false;
  }

  /** A rising window is pairwise increasing: each grade of it beats all earlier ones. */
  lemma {:induction false} CrecienteOrdenada(s: seq<Nota>, i: int, n: nat, a: int, b: int)
    requires 0 <= i && i + n <= |s| && CrecienteEn(s, i, n)
    requires i <= a < b < i + n
    ensures s[a].nota < s[b].nota
    decreases b - a
  {
    if a + 1 < b {
      CrecienteOrdenada(s, i, n, a + 1, b);
    }
  }

  /** Adding a grade never undoes a count achievement. */
  lemma CuentaMonotona(notas: seq<Nota>, n: Nota, p: Nota -> bool, k: nat)
    ensures CuentaAlMenos(notas, p, k) ==> CuentaAlMenos(notas + [n], p, k)
    ensures CantidadNotas(notas, k) ==> CantidadNotas(notas + [n], k)
  {
    CountMonotone(notas, [n], p);
  }

  /** The collection tiers are nested, and a ten also counts among the nines and the eights. */
  lemma ColeccionesEscalonadas(notas: seq<Nota>, k: nat, k': nat)
    requires k <= k'
    ensures Coleccionista(notas, k') ==> Coleccionista(notas, k)
    ensures Coleccionista(notas, k) ==> CuentaAlMenos(notas, NotaAlMenos(9.0), k)
    ensures CuentaAlMenos(notas, NotaAlMenos(9.0), k) ==> CuentaAlMenos(notas, NotaAlMenos(8.0), k)
  {
    CountWeaken(notas, NotaIgual(10.0), NotaAlMenos(9.0));
    CountWeaken(notas, NotaAlMenos(9.0), NotaAlMenos(8.0));
  }

  /** The longer clean start contains the shorter one. */
  lemma PrimerasAprobadasEscalonadas(notas: seq<Nota>)
    ensures PrimerasAprobadas(notas, 50) ==> PrimerasAprobadas(notas, 20)
  {
  }

  /** Variety includes a failed grade and a grade of at least 10. */
  lemma VariedadIncluyeExtremos(notas: seq<Nota>)
    requires Variedad(notas)
    ensures exists i :: 0 <= i < |notas| && notas[i].nota < 4.0
    ensures exists i :: 0 <= i < |notas| && notas[i].nota >= 10.0
  {
    assert TieneEntero(notas, 2) && TieneEntero(notas, 10);
    var i :| 0 <= i < |notas| && Trunc(notas[i].nota) == 2;
    var j :| 0 <= j < |notas| && Trunc(notas[j].nota) == 10;
    assert notas[i].nota < 4.0;
    assert notas[j].nota >= 10.0;
  }
}
