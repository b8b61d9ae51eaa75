/**
 * The social routes as they run against the database session: rows are
 * inserted, a group's counter and a note's rating columns are updated in
 * place, and the search builds its result list one candidate at a time.
 * Each method leaves the tables as the matching function of `Social` says.
 */
module SocialBase {
  import opened Common
  import opened Strings
  import Materias
  import opened Social

  /** The sum of the stars and the number of the rating rows of one note, in one pass. */
  method SumaDe(cals: seq<Calificacion>, apunteId: string) returns (suma: real, n: nat)
    ensures suma == SumReal(Filter(cals, DeApunte(apunteId)), Estrellas)
    ensures n == |Filter(cals, DeApunte(apunteId))|
  {
    suma := 0.0;
    n := 0;
    var i := 0;
    while i < |cals|
      invariant Sumado(cals, apunteId, i, suma, n)
    {
      SumadoPaso(cals, apunteId, i, suma, n);
      if cals[i].apunteId == apunteId {
        suma := suma + cals[i].valor as real;
        n := n + 1;
      }
      i := i + 1;
    }
    assert cals[..i] == cals;
  }

  /** The sum and the count of the note's rows among the first `i`. */
  ghost predicate Sumado(cals: seq<Calificacion>, apunteId: string, i: int, suma: real, n: int)
  {
    0 <= i <= |cals| &&
    suma == SumReal(Filter(cals[..i], DeApunte(apunteId)), Estrellas) &&
    n == |Filter(cals[..i], DeApunte(apunteId))|
  }

  lemma SumadoPaso(cals: seq<Calificacion>, apunteId: string, i: int, suma: real, n: int)
    requires Sumado(cals, apunteId, i, suma, n) && i < |cals|
    ensures var suya := cals[i].apunteId == apunteId;
      Sumado(cals, apunteId, i + 1, if suya then suma + cals[i].valor as real else suma, if suya then n + 1 else n)
  {
    var f := Filter(cals[..i], DeApunte(apunteId));
    FilterSnoc(cals, i, DeApunte(apunteId));
    if cals[i].apunteId == apunteId {
      assert Filter(cals[..i + 1], DeApunte(apunteId)) == f + [cals[i]];
      SumRealSnoc(f, cals[i], Estrellas);
    } else {
      assert Filter(cals[..i + 1], DeApunte(apunteId)) == f + [];
      assert f + [] == f;
    }
  }

  class BaseSocial {
    var inscripciones: map<string, Materias.InscripcionMateria>
    var grupos: map<string, Grupo>
    var miembros: map<(string, string), Membresia>
    var apuntes: map<string, Apunte>
    var calificaciones: seq<Calificacion>
    var agradecimientos: seq<Agradecimiento>

    function State(): Red
      reads this
    {
      Red(inscripciones, grupos, miembros, apuntes, calificaciones, agradecimientos)
    }

    /** The social tables start empty; the enrolments are those of the subject routes. */
    constructor (inscripciones: map<string, Materias.InscripcionMateria>)
      ensures State() == Red(inscripciones, map[], map[], map[], [], [])
    {
      this.inscripciones := inscripciones;
      grupos := map[];
      miembros := map[];
      apuntes := map[];
      calificaciones := [];
      agradecimientos := [];
    }

    /** `POST /grupos`; `grupoId` and `codigo` are the fresh uuid-derived values. */
    method PostGrupo(u: string, data: GrupoCreate, grupoId: string, codigo: string, ahora: nat) returns (res: Resultado)
      requires grupoId !in grupos
      modifies this
      ensures (State(), res) == CrearGrupo(old(State()), u, data, grupoId, codigo, ahora)
    {
      if !exists k :: k in inscripciones && Materias.Activa(inscripciones[k], u, data.materiaId) {
        return Error(SinCursada);
      }
      grupos := grupos[grupoId := Grupo(grupoId, data.nombre, data.descripcion, u, data.materiaId,
                                        data.maxIntegrantes, 1, data.privado, codigo, true, ahora)];
      miembros := miembros[(grupoId, u) := Membresia("admin", "activo")];
      res := Exito;
    }

    /** `POST /grupos/{id}/unirse`. */
    method PostUnirse(u: string, grupoId: string, codigo: Option<string>, ahora: nat) returns (res: Resultado)
      modifies this
      ensures (State(), res) == UnirseGrupo(old(State()), u, grupoId, codigo, ahora)
    {
      if grupoId !in grupos {
        return Error(GrupoInexistente);
      }
      var g := grupos[grupoId];
      if (grupoId, u) in miembros {
        return Error(YaEsMiembro);
      }
      if g.integrantesActuales >= g.maxIntegrantes {
        return Error(GrupoLleno);
      }
      if g.privado && codigo != Some(g.codigoInvitacion) {
        return Error(CodigoInvalido);
      }
      if !exists k :: k in inscripciones && inscripciones[k].usuarioId == u && inscripciones[k].materiaId == g.materiaId {
        return Error(SinInscripcion);
      }
      miembros := miembros[(grupoId, u) := Membresia("integrante", "activo")];
      g := g.(integrantesActuales := g.integrantesActuales + 1);
      g := g.(fechaActualizacion := ahora);
      grupos := grupos[grupoId := g];
      res := Exito;
    }

    /** `POST /apuntes`; `apunteId` is the fresh `apunte_<hex>` and `archivo` the upload's file name. */
    method PostApunte(u: string, data: ApunteForm, archivo: Option<string>, apunteId: string)
      requires apunteId !in apuntes
      modifies this
      ensures State() == CompartirApunte(old(State()), u, data, archivo, apunteId)
    {
      var formato := "texto";
      var contenido := data.contenido;
      if archivo.Some? {
        formato := Lower(LastSegment(archivo.value, '.'));
        contenido := Some("FILE:" + apunteId + "." + formato);
      }
      apuntes := apuntes[apunteId := Apunte(apunteId, u, data.materiaId, data.titulo, data.descripcion,
                                            contenido, formato, Lower(data.compartidoPublicamente) == "true",
                                            0.0, 0, true)];
    }

    /**
     * `POST /apuntes/{id}/calificar`: the rating row, then one pass over the
     * note's rows for the sum and the count, then the thank-you.
     */
    method PostCalificar(u: string, apunteId: string, valor: int, comentario: Option<string>, agraId: string) returns (res: Resultado)
      modifies this
      ensures (State(), res) == CalificarApunte(old(State()), u, apunteId, valor, comentario, agraId)
    {
      if valor < 1 || valor > 5 {
        return Error(FueraDeRango);
      }
      if apunteId !in apuntes {
        return Error(ApunteInexistente);
      }
      if YaCalifico(calificaciones, apunteId, u) {
        return Error(YaCalificado);
      }
      var a := apuntes[apunteId];
      var cals := calificaciones + [Calificacion(apunteId, u, valor, comentario)];
      var suma, n := SumaDe(cals, apunteId);
      var nuevo := if n > 0 then a.(calificacionPromedio := suma / n as real, totalCalificaciones := n) else a;
      assert nuevo == Recalcular(a, apunteId, cals);
      var agr := agradecimientos;
      if valor >= 4 && a.usuarioId != u {
        agr := agr + [Agradecimiento(agraId, u, a.usuarioId, "calificacion",
                                     DescripcionAgradecimiento(a.titulo, valor), a.materiaId)];
      }
      calificaciones := cals;
      apuntes := apuntes[apunteId := nuevo];
      agradecimientos := agr;
      res := Exito;
    }

    /**
     * `GET /usuarios/buscar`: the caller's subjects once, then one entry per
     * candidate. Nothing is written.
     */
    method BuscarUsuarios(usuarios: seq<Usuario>, materias: seq<MateriaFila>, u: string, query: string) returns (b: Busqueda)
      ensures b == Social.BuscarUsuarios(inscripciones, usuarios, materias, u, query)
    {
      if |Strip(query)| < 2 {
        return ConsultaCorta;
      }
      var mias := MateriasDe(inscripciones, u);
      var candidatos := Candidatos(usuarios, u, query);
      var resultado: seq<Encontrado> := [];
      var k := 0;
      while k < |candidatos|
        invariant 0 <= k <= |candidatos|
        invariant Fichadas(resultado, inscripciones, materias, mias, candidatos, k)
      {
        var x := candidatos[k];
        var comunes := mias * MateriasDe(inscripciones, x.id);
        var nombres := if comunes == {} then [] else NombresEn(materias, comunes);
        var e := Encontrado(x.id, x.nombre, x.apellido, x.legajo, x.email, nombres, |comunes|);
        FichadasPaso(resultado, inscripciones, materias, mias, candidatos, k, e);
        resultado := resultado + [e];
        k := k + 1;
      }
      FichadasTodas(resultado, inscripciones, materias, mias, candidatos);
      return Encontrados(resultado);
    }
  }

  /** The entries of the first `k` candidates are in place. */
  ghost predicate Fichadas(r: seq<Encontrado>, inscs: map<string, Materias.InscripcionMateria>, materias: seq<MateriaFila>,
                           mias: set<string>, c: seq<Usuario>, k: int)
  {
    0 <= k <= |c| && |r| == k && forall i :: 0 <= i < k ==> r[i] == Ficha(inscs, materias, mias, c[i])
  }

  lemma FichadasPaso(r: seq<Encontrado>, inscs: map<string, Materias.InscripcionMateria>, materias: seq<MateriaFila>,
                     mias: set<string>, c: seq<Usuario>, k: int, e: Encontrado)
    requires Fichadas(r, inscs, materias, mias, c, k) && k < |c|
    requires e == Encontrado(c[k].id, c[k].nombre, c[k].apellido, c[k].legajo, c[k].email,
                             if mias * MateriasDe(inscs, c[k].id) == {} then [] else NombresEn(materias, mias * MateriasDe(inscs, c[k].id)),
                             |mias * MateriasDe(inscs, c[k].id)|)
    ensures Fichadas(r + [e], inscs, materias, mias, c, k + 1)
  {
    assert e == Ficha(inscs, materias, mias, c[k]);
  }

  lemma FichadasTodas(r: seq<Encontrado>, inscs: map<string, Materias.InscripcionMateria>, materias: seq<MateriaFila>,
                      mias: set<string>, c: seq<Usuario>)
    requires Fichadas(r, inscs, materias, mias, c, |c|)
    ensures r == Fichas(inscs, materias, mias, c)
  {
    forall i | 0 <= i < |c|
      ensures r[i] == Fichas(inscs, materias, mias, c)[i]
    {
      FichasEn(inscs, materias, mias, c, i);
    }
  }
}
