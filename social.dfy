/**
 * The social routes: study groups with a capacity and an invitation code,
 * shared notes with one rating per user, and the user search. The tables
 * these routes touch are a `Red` value. Each handler is a function from the
 * tables before the request to the tables after it together with the
 * response, and the `BaseSocial` class runs the same steps in place.
 */
module Social {
  import opened Common
  import opened Strings
  import opened Dates
  import Materias

  /** A `GrupoEstudio` row. */
  datatype Grupo = Grupo(
    id: string, nombre: string, descripcion: Option<string>, creadorId: string, materiaId: string,
    maxIntegrantes: int, integrantesActuales: int, privado: bool, codigoInvitacion: string,
    activo: bool, fechaActualizacion: nat)

  /** The payload columns of a `usuarios_grupos` row, keyed by (group id, user id). */
  datatype Membresia = Membresia(rol: string, estado: string)

  /** An `ApunteCompartido` row. */
  datatype Apunte = Apunte(
    id: string, usuarioId: string, materiaId: string, titulo: string, descripcion: string,
    contenido: Option<string>, formato: string, compartidoPublicamente: bool,
    calificacionPromedio: real, totalCalificaciones: int, activo: bool)

  /** An `apuntes_calificaciones` row; its primary key is (apunte id, user id). */
  datatype Calificacion = Calificacion(apunteId: string, usuarioId: string, valor: int, comentario: Option<string>)

  /** An `Agradecimiento` row. */
  datatype Agradecimiento = Agradecimiento(
    id: string, emisorId: string, receptorId: string, tipo: string, descripcion: string, materiaId: string)

  /** The tables the social routes read and write. */
  datatype Red = Red(
    inscripciones: map<string, Materias.InscripcionMateria>,
    grupos: map<string, Grupo>,
    miembros: map<(string, string), Membresia>,
    apuntes: map<string, Apunte>,
    calificaciones: seq<Calificacion>,
    agradecimientos: seq<Agradecimiento>)

  /** Why a request was refused: the `detail` of each `HTTPException`, or a failed form validation. */
  datatype Fallo =
    | SinCursada
    | GrupoInexistente
    | YaEsMiembro
    | GrupoLleno
    | CodigoInvalido
    | SinInscripcion
    | CupoInvalido
    | FueraDeRango
    | ApunteInexistente
    | YaCalificado

  datatype Resultado = Exito | Error(fallo: Fallo)

  /** The HTTP status of each refusal; 422 is FastAPI's answer to a form that fails validation. */
  function Status(f: Fallo): int
  {
    match f
    case GrupoInexistente | ApunteInexistente => 404
    case CodigoInvalido => 403
    case CupoInvalido | FueraDeRango => 422
    case _ => 400
  }

  // ----- Study groups -----

  /** The `GrupoCreate` body; `max_integrantes` defaults to 10 and has no lower bound. */
  datatype GrupoCreate = GrupoCreate(
    nombre: string, descripcion: Option<string>, materiaId: string, maxIntegrantes: int, privado: bool)

  /** The user has a `cursando` or `regular` enrolment in the subject. */
  predicate Cursa(r: Red, u: string, m: string)
  {
    exists k :: k in r.inscripciones && Materias.Activa(r.inscripciones[k], u, m)
  }

  /** The user has an enrolment in the subject, in any status. */
  predicate Inscripto(r: Red, u: string, m: string)
  {
    exists k :: k in r.inscripciones && r.inscripciones[k].usuarioId == u && r.inscripciones[k].materiaId == m
  }

  /** The invitation code: `UTN_` and the upper-cased hex digits of a fresh uuid. */
  function CodigoInvitacion(hex: string): (c: string)
    ensures StartsWith(c, "UTN_") && |c| == |hex| + 4
  {
    "UTN_" + Upper(hex)
  }

  function NuevoGrupo(u: string, data: GrupoCreate, grupoId: string, codigo: string, ahora: nat): Grupo
  {
    Grupo(grupoId, data.nombre, data.descripcion, u, data.materiaId, data.maxIntegrantes, 1,
          data.privado, codigo, true, ahora)
  }

  /**
   * `crear_grupo` as written: refused without a current enrolment in the
   * subject; otherwise the group, counting one member, and its creator as
   * `admin`. `grupoId` and `codigo` stand for the uuid-derived values.
   */
  function CrearGrupo(r: Red, u: string, data: GrupoCreate, grupoId: string, codigo: string, ahora: nat): (Red, Resultado)
  {
    if !Cursa(r, u, data.materiaId) then (r, Error(SinCursada))
    else
      (r.(grupos := r.grupos[grupoId := NuevoGrupo(u, data, grupoId, codigo, ahora)],
          miembros := r.miembros[(grupoId, u) := Membresia("admin", "activo")]),
       Exito)
  }

  /** The creation with the lower bound the capacity check needs: `max_integrantes >= 1`. */
  function CrearGrupoValidado(r: Red, u: string, data: GrupoCreate, grupoId: string, codigo: string, ahora: nat): (Red, Resultado)
  {
    if data.maxIntegrantes < 1 then (r, Error(CupoInvalido))
    else CrearGrupo(r, u, data, grupoId, codigo, ahora)
  }

  /** `unirse_grupo`: five checks in the source's order, then the membership and the counter. */
  function UnirseGrupo(r: Red, u: string, grupoId: string, codigo: Option<string>, ahora: nat): (Red, Resultado)
  {
    if grupoId !in r.grupos then (r, Error(GrupoInexistente))
    else
      var g := r.grupos[grupoId];
      if (grupoId, u) in r.miembros then (r, Error(YaEsMiembro))
      else if g.integrantesActuales >= g.maxIntegrantes then (r, Error(GrupoLleno))
      else if g.privado && codigo != Some(g.codigoInvitacion) then (r, Error(CodigoInvalido))
      else if !Inscripto(r, u, g.materiaId) then (r, Error(SinInscripcion))
      else
        (r.(miembros := r.miembros[(grupoId, u) := Membresia("integrante", "activo")],
            grupos := r.grupos[grupoId := g.(integrantesActuales := g.integrantesActuales + 1,
                                              fechaActualizacion := ahora)]),
         Exito)
  }

  /** The members of a group according to `usuarios_grupos`. */
  function Integrantes(miembros: map<(string, string), Membresia>, g: string): set<string>
  {
    set k | k in miembros && k.0 == g :: k.1
  }

  /** Every membership row names an existing group (the foreign key). */
  predicate MiembrosValidos(r: Red)
  {
    forall k :: k in r.miembros ==> k.0 in r.grupos
  }

  /** Every group's counter is the number of its membership rows. */
  predicate Contados(r: Red)
  {
    forall g :: g in r.grupos ==> r.grupos[g].integrantesActuales == |Integrantes(r.miembros, g)|
  }

  /** No group has more members than its capacity. */
  predicate ConCupo(r: Red)
  {
    forall g :: g in r.grupos ==> r.grupos[g].integrantesActuales <= r.grupos[g].maxIntegrantes
  }

  predicate GruposValidos(r: Red)
  {
    MiembrosValidos(r) && Contados(r) && ConCupo(r)
  }

  /** A new membership row adds exactly its user to its group and leaves every other group's members. */
  lemma IntegrantesAlta(m: map<(string, string), Membresia>, g: string, u: string, x: Membresia)
    requires (g, u) !in m
    ensures u !in Integrantes(m, g)
    ensures Integrantes(m[(g, u) := x], g) == Integrantes(m, g) + {u}
    ensures |Integrantes(m[(g, u) := x], g)| == |Integrantes(m, g)| + 1
    ensures forall h :: h != g ==> Integrantes(m[(g, u) := x], h) == Integrantes(m, h)
  {
  }

  /**
   * Creation succeeds exactly for a user taking the subject; the new group
   * counts one member, is active, and its creator is its `admin`.
   */
  lemma CrearGrupoResultado(r: Red, u: string, data: GrupoCreate, grupoId: string, codigo: string, ahora: nat)
    ensures var (r2, res) := CrearGrupo(r, u, data, grupoId, codigo, ahora);
      (res == Exito <==> Cursa(r, u, data.materiaId)) &&
      (res != Exito ==> r2 == r) &&
      (res == Exito ==>
        grupoId in r2.grupos && r2.grupos[grupoId].integrantesActuales == 1 && r2.grupos[grupoId].activo &&
        r2.grupos[grupoId].creadorId == u && r2.miembros[(grupoId, u)].rol == "admin" &&
        r2.apuntes == r.apuntes && r2.inscripciones == r.inscripciones)
  {
  }

  /** With a capacity of at least one, creation keeps the membership counters and the capacities. */
  lemma CrearGrupoConserva(r: Red, u: string, data: GrupoCreate, grupoId: string, codigo: string, ahora: nat)
    requires GruposValidos(r)
    requires grupoId !in r.grupos
    requires data.maxIntegrantes >= 1
    ensures GruposValidos(CrearGrupo(r, u, data, grupoId, codigo, ahora).0)
  {
    if Cursa(r, u, data.materiaId) {
      var r2 := CrearGrupo(r, u, data, grupoId, codigo, ahora).0;
      assert (grupoId, u) !in r.miembros;
      IntegrantesAlta(r.miembros, grupoId, u, Membresia("admin", "activo"));
      assert Integrantes(r.miembros, grupoId) == {};
      assert |Integrantes(r2.miembros, grupoId)| == 1;
    }
  }

  /** The corrected creation keeps the invariants with no condition on the payload. */
  lemma CrearGrupoValidadoConserva(r: Red, u: string, data: GrupoCreate, grupoId: string, codigo: string, ahora: nat)
    requires GruposValidos(r)
    requires grupoId !in r.grupos
    ensures GruposValidos(CrearGrupoValidado(r, u, data, grupoId, codigo, ahora).0)
    ensures CrearGrupoValidado(r, u, data, grupoId, codigo, ahora).1 == Error(CupoInvalido) <==> data.maxIntegrantes < 1
  {
    if data.maxIntegrantes >= 1 {
      CrearGrupoConserva(r, u, data, grupoId, codigo, ahora);
    }
  }

  function EditablesCursando(): Materias.Editables
  {
    Materias.Editables(Some("cursando"), None, None, Some(false), None, None, None, Some(0), Some(0), None, None)
  }

  /** One student taking one subject, and nothing else. */
  function RedEjemplo(): Red
  {
    Red(map["insc_1" := Materias.InscripcionMateria("insc_1", "ana", "am1", "AM1", "isi", 1, false,
                                                    Date(2024, 3, 1), 0, EditablesCursando())],
        map[], map[], map[], [], [])
  }

  /**
   * `crear_grupo` takes `max_integrantes = 0` and stores a group that counts
   * one member: tables that satisfied the capacity invariant no longer do.
   */
  lemma CrearGrupoSinCupo()
    ensures var r := RedEjemplo();
      var data := GrupoCreate("Parcial", None, "am1", 0, false);
      var (r2, res) := CrearGrupo(r, "ana", data, "grupo_1", "UTN_1", 0);
      GruposValidos(r) && res == Exito && !ConCupo(r2)
  {
    var r := RedEjemplo();
    assert "insc_1" in r.inscripciones && Materias.Activa(r.inscripciones["insc_1"], "ana", "am1");
    var data := GrupoCreate("Parcial", None, "am1", 0, false);
    var r2 := CrearGrupo(r, "ana", data, "grupo_1", "UTN_1", 0).0;
    assert "grupo_1" in r2.grupos && r2.grupos["grupo_1"].integrantesActuales > r2.grupos["grupo_1"].maxIntegrantes;
  }

  /**
   * The refusals of `unirse_grupo` come in the source's order: each check
   * decides the answer whatever the later ones would say, and the join
   * succeeds exactly when all five pass. A refusal changes nothing.
   */
  lemma UnirseOrden(r: Red, u: string, grupoId: string, codigo: Option<string>, ahora: nat)
    ensures var (r2, res) := UnirseGrupo(r, u, grupoId, codigo, ahora);
      (res != Exito ==> r2 == r) &&
      (grupoId !in r.grupos ==> res == Error(GrupoInexistente)) &&
      (grupoId in r.grupos && (grupoId, u) in r.miembros ==> res == Error(YaEsMiembro)) &&
      (grupoId in r.grupos && (grupoId, u) !in r.miembros &&
       r.grupos[grupoId].integrantesActuales >= r.grupos[grupoId].maxIntegrantes
       ==> res == Error(GrupoLleno)) &&
      (res == Error(CodigoInvalido) ==> r.grupos[grupoId].privado && codigo != Some(r.grupos[grupoId].codigoInvitacion)) &&
      (res == Error(SinInscripcion) ==> !Inscripto(r, u, r.grupos[grupoId].materiaId)) &&
      (res == Exito <==>
        grupoId in r.grupos && (grupoId, u) !in r.miembros &&
        r.grupos[grupoId].integrantesActuales < r.grupos[grupoId].maxIntegrantes &&
        (r.grupos[grupoId].privado ==> codigo == Some(r.grupos[grupoId].codigoInvitacion)) &&
        Inscripto(r, u, r.grupos[grupoId].materiaId))
  {
  }

  /**
   * A successful join adds exactly one membership row, the joining user's,
   * and raises that group's counter by one; nothing else changes.
   */
  lemma UnirseEfecto(r: Red, u: string, grupoId: string, codigo: Option<string>, ahora: nat)
    requires UnirseGrupo(r, u, grupoId, codigo, ahora).1 == Exito
    ensures var r2 := UnirseGrupo(r, u, grupoId, codigo, ahora).0;
      r2.miembros.Keys == r.miembros.Keys + {(grupoId, u)} && (grupoId, u) !in r.miembros &&
      |r2.miembros.Keys| == |r.miembros.Keys| + 1 &&
      r2.miembros[(grupoId, u)] == Membresia("integrante", "activo") &&
      r2.grupos.Keys == r.grupos.Keys &&
      r2.grupos[grupoId].integrantesActuales == r.grupos[grupoId].integrantesActuales + 1 &&
      (forall h :: h in r.grupos && h != grupoId ==> r2.grupos[h] == r.grupos[h]) &&
      r2.apuntes == r.apuntes && r2.calificaciones == r.calificaciones && r2.inscripciones == r.inscripciones
  {
  }

  /** Joins keep every counter equal to the membership rows and every group within its capacity. */
  lemma UnirseConserva(r: Red, u: string, grupoId: string, codigo: Option<string>, ahora: nat)
    requires GruposValidos(r)
    ensures GruposValidos(UnirseGrupo(r, u, grupoId, codigo, ahora).0)
  {
    var (r2, res) := UnirseGrupo(r, u, grupoId, codigo, ahora);
    if res == Exito {
      IntegrantesAlta(r.miembros, grupoId, u, Membresia("integrante", "activo"));
      forall g | g in r2.grupos
        ensures r2.grupos[g].integrantesActuales == |Integrantes(r2.miembros, g)|
      {
        if g != grupoId {
          assert Integrantes(r2.miembros, g) == Integrantes(r.miembros, g);
        }
      }
    }
  }

  // ----- Shared notes -----

  /** The form fields of `compartir_apunte`; `compartido_publicamente` arrives as text. */
  datatype ApunteForm = ApunteForm(
    materiaId: string, titulo: string, descripcion: string, contenido: Option<string>, compartidoPublicamente: string)

  /** The stored format: the lower-cased last `.`-piece of the file name, or `texto` without a file. */
  function Formato(archivo: Option<string>): string
  {
    if archivo.Some? then Lower(LastSegment(archivo.value, '.')) else "texto"
  }

  /** The stored content: a pointer `FILE:<id>.<ext>` to the uploaded file, or the text sent. */
  function ContenidoGuardado(data: ApunteForm, archivo: Option<string>, apunteId: string): Option<string>
  {
    if archivo.Some? then Some("FILE:" + apunteId + "." + Formato(archivo)) else data.contenido
  }

  /**
   * `compartir_apunte`: the new note, active and unrated. `archivo` is the
   * upload's file name; the bytes written to disk are not modelled.
   */
  function CompartirApunte(r: Red, u: string, data: ApunteForm, archivo: Option<string>, apunteId: string): Red
  {
    var a := Apunte(apunteId, u, data.materiaId, data.titulo, data.descripcion,
                    ContenidoGuardado(data, archivo, apunteId), Formato(archivo),
                    Lower(data.compartidoPublicamente) == "true", 0.0, 0, true);
    r.(apuntes := r.apuntes[apunteId := a])
  }

  /** `LowerChar` turns no other character into a dot. */
  lemma LowerSinPunto(s: string)
    requires '.' !in s
    ensures '.' !in Lower(s)
  {
  }

  /** The format of an upload has no dot and no upper-case letter. */
  lemma FormatoArchivo(nombre: string)
    ensures '.' !in Formato(Some(nombre)) && Lower(Formato(Some(nombre))) == Formato(Some(nombre))
  {
    LastSegmentFree(nombre, '.');
    LowerSinPunto(LastSegment(nombre, '.'));
    LowerIdempotent(LastSegment(nombre, '.'));
  }

  /**
   * An uploaded file is stored as `FILE:` followed by `<id>.<ext>`, whose
   * last `.`-piece is the stored format: the lower-cased extension, itself
   * free of dots and of upper-case letters. Without a file the text sent is
   * stored and the format is `texto`.
   */
  lemma ContenidoArchivo(data: ApunteForm, archivo: Option<string>, apunteId: string)
    ensures archivo.None? ==> ContenidoGuardado(data, archivo, apunteId) == data.contenido &&
                              Formato(archivo) == "texto"
    ensures archivo.Some? ==>
      var c := ContenidoGuardado(data, archivo, apunteId).value;
      var ext := Formato(archivo);
      StartsWith(c, "FILE:") && c[5..] == apunteId + "." + ext &&
      '.' !in ext && Lower(ext) == ext && LastSegment(c, '.') == ext
  {
    if archivo.Some? {
      var ext := Formato(archivo);
      FormatoArchivo(archivo.value);
      assert ContenidoGuardado(data, archivo, apunteId).value == "FILE:" + apunteId + "." + ext;
      Puntero(apunteId, ext);
    }
  }

  /** The pointer `FILE:<id>.<ext>` for an extension without dots. */
  lemma Puntero(apunteId: string, ext: string)
    requires '.' !in ext
    ensures var c := "FILE:" + apunteId + "." + ext;
      StartsWith(c, "FILE:") && c[5..] == apunteId + "." + ext && LastSegment(c, '.') == ext
  {
    var pre := "FILE:" + apunteId;
    var c := pre + ['.'] + ext;
    assert "FILE:" + apunteId + "." + ext == c;
    LastSegmentAfter(pre, '.', ext);
    assert c[..5] == "FILE:";
    assert c[5..] == apunteId + "." + ext;
  }

  /** The rating rows of one note. */
  function DeApunte(a: string): Calificacion -> bool
  {
    (c: Calificacion) => c.apunteId == a
  }

  function Estrellas(c: Calificacion): real { c.valor as real }

  /** The user already rated the note (the primary key of `apuntes_calificaciones`). */
  predicate YaCalifico(cals: seq<Calificacion>, a: string, u: string)
  {
    exists i :: 0 <= i < |cals| && cals[i].apunteId == a && cals[i].usuarioId == u
  }

  /** The `descripcion` of the thank-you note for a high rating. */
  function DescripcionAgradecimiento(titulo: string, valor: int): string
  {
    "Calificó tu apunte '" + titulo + "' con " + IntToString(valor) + " estrellas"
  }

  /** The note's rating columns recomputed from all of its rating rows, under the source's `if calificaciones`. */
  function Recalcular(a: Apunte, apunteId: string, cals: seq<Calificacion>): Apunte
  {
    var suyas := Filter(cals, DeApunte(apunteId));
    if suyas == [] then a
    else a.(calificacionPromedio := SumReal(suyas, Estrellas) / Len(suyas), totalCalificaciones := |suyas|)
  }

  /**
   * `calificar_apunte`: a rating outside 1..5 fails the form validation
   * before the handler runs; then a missing note and a second rating are
   * refused; otherwise the rating row, the recomputed average and total,
   * and a thank-you to the owner for four stars or more from someone else.
   */
  function CalificarApunte(r: Red, u: string, apunteId: string, valor: int, comentario: Option<string>, agraId: string): (Red, Resultado)
  {
    if valor < 1 || valor > 5 then (r, Error(FueraDeRango))
    else if apunteId !in r.apuntes then (r, Error(ApunteInexistente))
    else if YaCalifico(r.calificaciones, apunteId, u) then (r, Error(YaCalificado))
    else
      var a := r.apuntes[apunteId];
      var cals := r.calificaciones + [Calificacion(apunteId, u, valor, comentario)];
      var agr := if valor >= 4 && a.usuarioId != u
                 then r.agradecimientos + [Agradecimiento(agraId, u, a.usuarioId, "calificacion",
                                                          DescripcionAgradecimiento(a.titulo, valor), a.materiaId)]
                 else r.agradecimientos;
      (r.(calificaciones := cals, apuntes := r.apuntes[apunteId := Recalcular(a, apunteId, cals)], agradecimientos := agr), Exito)
  }

  /** Every rating row names an existing note and holds one to five stars. */
  predicate CalificacionesValidas(r: Red)
  {
    forall i :: 0 <= i < |r.calificaciones| ==>
      r.calificaciones[i].apunteId in r.apuntes && 1 <= r.calificaciones[i].valor <= 5
  }

  /** At most one rating per (note, user). */
  predicate UnaPorUsuario(r: Red)
  {
    forall i, j :: 0 <= i < j < |r.calificaciones| ==>
      r.calificaciones[i].apunteId != r.calificaciones[j].apunteId ||
      r.calificaciones[i].usuarioId != r.calificaciones[j].usuarioId
  }

  /** Every note's total is its number of rating rows, and a rated note's average lies in 1..5. */
  predicate Totales(r: Red)
  {
    forall a :: a in r.apuntes ==>
      r.apuntes[a].totalCalificaciones == Count(r.calificaciones, DeApunte(a)) &&
      (r.apuntes[a].totalCalificaciones > 0 ==> 1.0 <= r.apuntes[a].calificacionPromedio <= 5.0)
  }

  predicate ApuntesValidos(r: Red)
  {
    CalificacionesValidas(r) && UnaPorUsuario(r) && Totales(r)
  }

  /** A rating row changes the counts of its own note only, by one. */
  lemma CountAlta(cals: seq<Calificacion>, c: Calificacion, a: string)
    ensures Count(cals + [c], DeApunte(a)) == Count(cals, DeApunte(a)) + (if c.apunteId == a then 1 else 0)
  {
    CountAppend(cals, [c], DeApunte(a));
  }

  /** The recomputed columns: the total is the number of rows, the average lies in 1..5. */
  lemma RecalcularCorrecto(a: Apunte, apunteId: string, cals: seq<Calificacion>)
    requires forall i :: 0 <= i < |cals| ==> 1 <= cals[i].valor <= 5
    requires exists i :: 0 <= i < |cals| && cals[i].apunteId == apunteId
    ensures Recalcular(a, apunteId, cals).totalCalificaciones == Count(cals, DeApunte(apunteId))
    ensures 1.0 <= Recalcular(a, apunteId, cals).calificacionPromedio <= 5.0
  {
    var suyas := Filter(cals, DeApunte(apunteId));
    FilterCount(cals, DeApunte(apunteId));
    SuyasNoVacias(cals, apunteId);
    SuyasEnRango(cals, apunteId);
    MeanBounds(suyas, Estrellas, 1.0, 5.0);
    assert Recalcular(a, apunteId, cals).calificacionPromedio == Mean(suyas, Estrellas).value;
  }

  lemma SuyasNoVacias(cals: seq<Calificacion>, apunteId: string)
    requires exists i :: 0 <= i < |cals| && cals[i].apunteId == apunteId
    ensures Filter(cals, DeApunte(apunteId)) != []
  {
    var i :| 0 <= i < |cals| && cals[i].apunteId == apunteId;
    assert cals[i] in Filter(cals, DeApunte(apunteId));
  }

  lemma SuyasEnRango(cals: seq<Calificacion>, apunteId: string)
    requires forall i :: 0 <= i < |cals| ==> 1 <= cals[i].valor <= 5
    ensures var suyas := Filter(cals, DeApunte(apunteId));
      forall j :: 0 <= j < |suyas| ==> 1.0 <= Estrellas(suyas[j]) <= 5.0
  {
    var suyas := Filter(cals, DeApunte(apunteId));
    forall j | 0 <= j < |suyas| ensures 1.0 <= Estrellas(suyas[j]) <= 5.0 {
      EstrellasEnRango(cals, suyas[j]);
    }
  }

  lemma EstrellasEnRango(cals: seq<Calificacion>, c: Calificacion)
    requires forall i :: 0 <= i < |cals| ==> 1 <= cals[i].valor <= 5
    requires c in cals
    ensures 1.0 <= Estrellas(c) <= 5.0
  {
  }

  /**
   * A rating is refused outside 1..5, for a missing note and for a second
   * rating by the same user; otherwise it adds exactly one row.
   */
  lemma CalificarResultado(r: Red, u: string, apunteId: string, valor: int, comentario: Option<string>, agraId: string)
    ensures var (r2, res) := CalificarApunte(r, u, apunteId, valor, comentario, agraId);
      (res != Exito ==> r2 == r) &&
      ((valor < 1 || valor > 5) ==> res == Error(FueraDeRango)) &&
      (YaCalifico(r.calificaciones, apunteId, u) ==> res != Exito) &&
      (res == Exito <==> 1 <= valor <= 5 && apunteId in r.apuntes && !YaCalifico(r.calificaciones, apunteId, u)) &&
      (res == Exito ==> r2.calificaciones == r.calificaciones + [Calificacion(apunteId, u, valor, comentario)])
  {
  }

  /**
   * A thank-you row is added exactly when the rating succeeds with four
   * stars or more and the rater is not the owner; it goes from the rater
   * to the owner.
   */
  lemma CalificarAgradece(r: Red, u: string, apunteId: string, valor: int, comentario: Option<string>, agraId: string)
    ensures var (r2, res) := CalificarApunte(r, u, apunteId, valor, comentario, agraId);
      (|r2.agradecimientos| == |r.agradecimientos| + 1 <==>
        res == Exito && valor >= 4 && r.apuntes[apunteId].usuarioId != u) &&
      (|r2.agradecimientos| != |r.agradecimientos| + 1 ==> r2.agradecimientos == r.agradecimientos) &&
      (|r2.agradecimientos| == |r.agradecimientos| + 1 ==>
        r2.agradecimientos[..|r.agradecimientos|] == r.agradecimientos &&
        var t := r2.agradecimientos[|r.agradecimientos|];
        t.emisorId == u && t.receptorId == r.apuntes[apunteId].usuarioId && t.tipo == "calificacion")
  {
    var (r2, res) := CalificarApunte(r, u, apunteId, valor, comentario, agraId);
    if |r2.agradecimientos| == |r.agradecimientos| + 1 {
      assert r2.agradecimientos[..|r.agradecimientos|] == r.agradecimientos;
    }
  }

  /** A rating that passes the checks adds a row no earlier row shares a key with. */
  lemma CalificarUnaPorUsuario(r: Red, u: string, apunteId: string, valor: int, comentario: Option<string>, agraId: string)
    requires UnaPorUsuario(r)
    ensures UnaPorUsuario(CalificarApunte(r, u, apunteId, valor, comentario, agraId).0)
  {
    var (r2, res) := CalificarApunte(r, u, apunteId, valor, comentario, agraId);
    if res == Exito {
      var c := Calificacion(apunteId, u, valor, comentario);
      var cals := r2.calificaciones;
      assert cals == r.calificaciones + [c];
      forall i, j | 0 <= i < j < |cals|
        ensures cals[i].apunteId != cals[j].apunteId || cals[i].usuarioId != cals[j].usuarioId
      {
        assert cals[i] == r.calificaciones[i];
        if j < |cals| - 1 {
          assert cals[j] == r.calificaciones[j];
        }
      }
    }
  }

  /** A new row for one note and that note's columns recomputed keep every total right. */
  lemma TotalesAlta(r: Red, r2: Red, c: Calificacion, a2: Apunte)
    requires Totales(r) && c.apunteId in r.apuntes
    requires r2.calificaciones == r.calificaciones + [c] && r2.apuntes == r.apuntes[c.apunteId := a2]
    requires a2.totalCalificaciones == Count(r2.calificaciones, DeApunte(c.apunteId))
    requires 1.0 <= a2.calificacionPromedio <= 5.0
    ensures Totales(r2)
  {
    forall a | a in r2.apuntes
      ensures r2.apuntes[a].totalCalificaciones == Count(r2.calificaciones, DeApunte(a))
    {
      CountAlta(r.calificaciones, c, a);
    }
  }

  /** A successful rating appends its row and recomputes the rated note from all rows. */
  lemma CalificarForma(r: Red, u: string, apunteId: string, valor: int, comentario: Option<string>, agraId: string)
    requires CalificarApunte(r, u, apunteId, valor, comentario, agraId).1 == Exito
    ensures var r2 := CalificarApunte(r, u, apunteId, valor, comentario, agraId).0;
      apunteId in r.apuntes &&
      r2.calificaciones == r.calificaciones + [Calificacion(apunteId, u, valor, comentario)] &&
      r2.apuntes == r.apuntes[apunteId := Recalcular(r.apuntes[apunteId], apunteId, r2.calificaciones)] &&
      1 <= valor <= 5
  {
  }

  /** Ratings keep every rating row naming an existing note with one to five stars. */
  lemma CalificarValidas(r: Red, u: string, apunteId: string, valor: int, comentario: Option<string>, agraId: string)
    requires CalificacionesValidas(r)
    ensures CalificacionesValidas(CalificarApunte(r, u, apunteId, valor, comentario, agraId).0)
  {
    if CalificarApunte(r, u, apunteId, valor, comentario, agraId).1 == Exito {
      CalificarForma(r, u, apunteId, valor, comentario, agraId);
    }
  }

  /** After a rating every note's total is its number of rows and a rated note's average lies in 1..5. */
  lemma CalificarTotales(r: Red, u: string, apunteId: string, valor: int, comentario: Option<string>, agraId: string)
    requires CalificacionesValidas(r) && Totales(r)
    ensures Totales(CalificarApunte(r, u, apunteId, valor, comentario, agraId).0)
  {
    if CalificarApunte(r, u, apunteId, valor, comentario, agraId).1 == Exito {
      CalificarForma(r, u, apunteId, valor, comentario, agraId);
      var r2 := CalificarApunte(r, u, apunteId, valor, comentario, agraId).0;
      var c := Calificacion(apunteId, u, valor, comentario);
      var cals := r2.calificaciones;
      var a := r.apuntes[apunteId];
      assert cals[|cals| - 1] == c;
      RecalcularCorrecto(a, apunteId, cals);
      TotalesAlta(r, r2, c, Recalcular(a, apunteId, cals));
    }
  }

  /** Ratings keep one row per user, valid rows, and every note's total equal to its rows. */
  lemma CalificarConserva(r: Red, u: string, apunteId: string, valor: int, comentario: Option<string>, agraId: string)
    requires ApuntesValidos(r)
    ensures ApuntesValidos(CalificarApunte(r, u, apunteId, valor, comentario, agraId).0)
  {
    CalificarUnaPorUsuario(r, u, apunteId, valor, comentario, agraId);
    CalificarValidas(r, u, apunteId, valor, comentario, agraId);
    CalificarTotales(r, u, apunteId, valor, comentario, agraId);
  }

  /** Sharing a note under a fresh id keeps the rating invariants: the new note has no rows. */
  lemma CompartirConserva(r: Red, u: string, data: ApunteForm, archivo: Option<string>, apunteId: string)
    requires ApuntesValidos(r)
    requires apunteId !in r.apuntes
    ensures ApuntesValidos(CompartirApunte(r, u, data, archivo, apunteId))
    ensures var a := CompartirApunte(r, u, data, archivo, apunteId).apuntes[apunteId];
      a.totalCalificaciones == 0 && a.activo && a.usuarioId == u &&
      (a.compartidoPublicamente <==> Lower(data.compartidoPublicamente) == "true")
  {
    CountCero(r.calificaciones, DeApunte(apunteId));
  }

  // ----- User search -----

  /** The `Usuario` columns the search reads and returns. */
  datatype Usuario = Usuario(id: string, nombre: string, apellido: string, legajo: string, email: string)

  /** A `Materia` row, as far as the search needs it. */
  datatype MateriaFila = MateriaFila(id: string, nombre: string)

  /** One entry of the search result. */
  datatype Encontrado = Encontrado(
    id: string, nombre: string, apellido: string, legajo: string, email: string,
    materiasComunes: seq<string>, totalMateriasComunes: nat)

  datatype Busqueda = ConsultaCorta | Encontrados(usuarios: seq<Encontrado>)

  /** The `ilike '%query%'` filter on the four columns, without the caller. */
  function Coincide(u: string, query: string): Usuario -> bool
  {
    (x: Usuario) =>
      (ContainsIgnoreCase(x.nombre, query) || ContainsIgnoreCase(x.apellido, query) ||
       ContainsIgnoreCase(x.legajo, query) || ContainsIgnoreCase(x.email, query)) &&
      x.id != u
  }

  /** `.limit(10)`: the first ten matching users in table order. */
  function Candidatos(usuarios: seq<Usuario>, u: string, query: string): (r: seq<Usuario>)
    ensures |r| <= 10
  {
    var f := Filter(usuarios, Coincide(u, query));
    if |f| <= 10 then f else f[..10]
  }

  /** The subjects in which the user has an enrolment. */
  function MateriasDe(inscs: map<string, Materias.InscripcionMateria>, v: string): set<string>
  {
    set k | k in inscs && inscs[k].usuarioId == v :: inscs[k].materiaId
  }

  /** The names of the subject rows whose id is in `ids`, in table order. */
  function NombresEn(materias: seq<MateriaFila>, ids: set<string>): (r: seq<string>)
    ensures forall n :: n in r ==> exists m :: m in materias && m.id in ids && m.nombre == n
    ensures forall m :: m in materias && m.id in ids ==> m.nombre in r
  {
    if materias == [] then []
    else
      var resto := NombresEn(materias[1..], ids);
      assert forall m :: m in materias[1..] ==> m in materias;
      assert materias == [materias[0]] + materias[1..];
      (if materias[0].id in ids then [materias[0].nombre] else []) + resto
  }

  /** The result entry for one candidate. */
  function Ficha(inscs: map<string, Materias.InscripcionMateria>, materias: seq<MateriaFila>, mias: set<string>, x: Usuario): Encontrado
  {
    var comunes := mias * MateriasDe(inscs, x.id);
    Encontrado(x.id, x.nombre, x.apellido, x.legajo, x.email,
               if comunes == {} then [] else NombresEn(materias, comunes), |comunes|)
  }

  /** The loop of the handler: one entry per candidate, in order. */
  function Fichas(inscs: map<string, Materias.InscripcionMateria>, materias: seq<MateriaFila>, mias: set<string>, c: seq<Usuario>): (r: seq<Encontrado>)
    ensures |r| == |c|
  {
    if c == [] then [] else [Ficha(inscs, materias, mias, c[0])] + Fichas(inscs, materias, mias, c[1..])
  }

  /** The `i`-th entry is the one of the `i`-th candidate. */
  lemma {:induction false} FichasEn(inscs: map<string, Materias.InscripcionMateria>, materias: seq<MateriaFila>,
                                    mias: set<string>, c: seq<Usuario>, i: int)
    requires 0 <= i < |c|
    ensures Fichas(inscs, materias, mias, c)[i] == Ficha(inscs, materias, mias, c[i])
    decreases i
  {
    if i > 0 {
      FichasEn(inscs, materias, mias, c[1..], i - 1);
    }
  }

  /** `buscar_usuarios`: a query shorter than two characters once stripped is refused. */
  function BuscarUsuarios(inscs: map<string, Materias.InscripcionMateria>, usuarios: seq<Usuario>,
                          materias: seq<MateriaFila>, u: string, query: string): Busqueda
  {
    if |Strip(query)| < 2 then ConsultaCorta
    else
      var mias := MateriasDe(inscs, u);
      var c := Candidatos(usuarios, u, query);
      Encontrados(Fichas(inscs, materias, mias, c))
  }

  /** The query is refused exactly when stripping leaves fewer than two characters. */
  lemma BusquedaCorta(inscs: map<string, Materias.InscripcionMateria>, usuarios: seq<Usuario>,
                      materias: seq<MateriaFila>, u: string, query: string)
    ensures BuscarUsuarios(inscs, usuarios, materias, u, query) == ConsultaCorta <==> |Strip(query)| < 2
    ensures |query| < 2 ==> BuscarUsuarios(inscs, usuarios, materias, u, query) == ConsultaCorta
  {
  }

  /**
   * One entry of a search: a user of the table other than the caller who
   * matches the query on some column, whose common-subject total is the size
   * of the intersection of both users' subject sets, and whose listed names
   * are those of subjects both take.
   */
  predicate EntradaValida(inscs: map<string, Materias.InscripcionMateria>, usuarios: seq<Usuario>,
                          materias: seq<MateriaFila>, u: string, query: string, e: Encontrado)
  {
    e.id != u &&
    (exists x :: x in usuarios && x.id == e.id && Coincide(u, query)(x)) &&
    e.totalMateriasComunes == |MateriasDe(inscs, u) * MateriasDe(inscs, e.id)| &&
    forall n :: n in e.materiasComunes ==>
      exists m :: m in materias && m.nombre == n && m.id in MateriasDe(inscs, u) && m.id in MateriasDe(inscs, e.id)
  }

  /** At most ten entries, each of them valid. */
  lemma BusquedaResultados(inscs: map<string, Materias.InscripcionMateria>, usuarios: seq<Usuario>,
                           materias: seq<MateriaFila>, u: string, query: string)
    requires BuscarUsuarios(inscs, usuarios, materias, u, query).Encontrados?
    ensures var res := BuscarUsuarios(inscs, usuarios, materias, u, query).usuarios;
      |res| <= 10 && forall i :: 0 <= i < |res| ==> EntradaValida(inscs, usuarios, materias, u, query, res[i])
  {
    var mias := MateriasDe(inscs, u);
    var c := Candidatos(usuarios, u, query);
    BuscarUnfold(inscs, usuarios, materias, u, query);
    var res := Fichas(inscs, materias, mias, c);

    forall i | 0 <= i < |res|
      ensures EntradaValida(inscs, usuarios, materias, u, query, res[i])
    {
      CandidatoCoincide(usuarios, u, query, i);
      FichasEn(inscs, materias, mias, c, i);
      FichaValida(inscs, usuarios, materias, u, query, c[i]);
    }
  }

  /** The entry of a matching user is valid. */
  lemma FichaValida(inscs: map<string, Materias.InscripcionMateria>, usuarios: seq<Usuario>,
                    materias: seq<MateriaFila>, u: string, query: string, x: Usuario)
    requires x in usuarios && Coincide(u, query)(x)
    ensures EntradaValida(inscs, usuarios, materias, u, query, Ficha(inscs, materias, MateriasDe(inscs, u), x))
  {
    FichaComunes(inscs, materias, MateriasDe(inscs, u), x);
  }

  /** Each candidate is a matching user of the table. */
  lemma CandidatoCoincide(usuarios: seq<Usuario>, u: string, query: string, i: int)
    requires 0 <= i < |Candidatos(usuarios, u, query)|
    ensures Candidatos(usuarios, u, query)[i] in usuarios
    ensures Coincide(u, query)(Candidatos(usuarios, u, query)[i])
  {
    var f := Filter(usuarios, Coincide(u, query));
    assert Candidatos(usuarios, u, query)[i] == f[i];
  }

  /** An entry lists names of common subjects and counts all of them. */
  lemma FichaComunes(inscs: map<string, Materias.InscripcionMateria>, materias: seq<MateriaFila>, mias: set<string>, x: Usuario)
    ensures Ficha(inscs, materias, mias, x).id == x.id
    ensures Ficha(inscs, materias, mias, x).totalMateriasComunes == |mias * MateriasDe(inscs, x.id)|
    ensures forall n :: n in Ficha(inscs, materias, mias, x).materiasComunes ==>
          exists m :: m in materias && m.nombre == n && m.id in mias && m.id in MateriasDe(inscs, x.id)
  {
  }

  lemma BuscarUnfold(inscs: map<string, Materias.InscripcionMateria>, usuarios: seq<Usuario>,
                     materias: seq<MateriaFila>, u: string, query: string)
    requires BuscarUsuarios(inscs, usuarios, materias, u, query).Encontrados?
    ensures BuscarUsuarios(inscs, usuarios, materias, u, query).usuarios ==
      Fichas(inscs, materias, MateriasDe(inscs, u), Candidatos(usuarios, u, query))
  {
  }

  /** Under the limit, the candidates are all the matching users. */
  lemma CandidatosCompletos(usuarios: seq<Usuario>, u: string, query: string, x: Usuario)
    requires Count(usuarios, Coincide(u, query)) <= 10
    requires x in usuarios && Coincide(u, query)(x)
    ensures x in Candidatos(usuarios, u, query)
  {
    FilterCount(usuarios, Coincide(u, query));
    var k :| 0 <= k < |usuarios| && usuarios[k] == x;
  }

  /** With ten matching users or fewer, every one of them is in the result. */
  lemma BusquedaCompleta(inscs: map<string, Materias.InscripcionMateria>, usuarios: seq<Usuario>,
                         materias: seq<MateriaFila>, u: string, query: string, x: Usuario)
    requires BuscarUsuarios(inscs, usuarios, materias, u, query).Encontrados?
    requires Count(usuarios, Coincide(u, query)) <= 10
    requires x in usuarios && Coincide(u, query)(x)
    ensures var res := BuscarUsuarios(inscs, usuarios, materias, u, query).usuarios;
      exists i :: 0 <= i < |res| && res[i].id == x.id
  {
    CandidatosCompletos(usuarios, u, query, x);
    BuscarUnfold(inscs, usuarios, materias, u, query);
    FichaDeCandidato(inscs, materias, MateriasDe(inscs, u), Candidatos(usuarios, u, query), x);
  }

  lemma FichaDeCandidato(inscs: map<string, Materias.InscripcionMateria>, materias: seq<MateriaFila>,
                         mias: set<string>, c: seq<Usuario>, x: Usuario)
    requires x in c
    ensures var res := Fichas(inscs, materias, mias, c);
      exists i :: 0 <= i < |res| && res[i].id == x.id
  {
    var i :| 0 <= i < |c| && c[i] == x;
    FichasEn(inscs, materias, mias, c, i);
    assert Fichas(inscs, materias, mias, c)[i].id == x.id;
  }
}
