/**
 * The backend group service `grupos.api.js` over its tables `grupos`,
 * `grupo_miembros`, `grupo_actividad` and `grupo_archivos`.
 *
 * The tables are abstract state: each is a sequence of rows in insertion
 * order. Queries ordered by `joined_at` ascending return rows in that order,
 * and queries ordered by `fecha` descending return them reversed, because
 * both columns default to the insertion time. The signed-in session is a
 * parameter, the random draws of `generarCodigo` are the oracle `rng` of
 * `JoinCodes`, and the error of the k-th code probe is the oracle `errores(k)`.
 */
module GroupsApi {

  import opened JsText
  import opened JoinCodes
  import Seqs

  // ---------------------------------------------------------------------
  // Rows and the records `mapearGrupo` builds from them.
  // ---------------------------------------------------------------------

  datatype GrupoFila = GrupoFila(id: string, nombre: string, codigo: string, creadorId: string, creadoEn: string)

  datatype MiembroFila = MiembroFila(id: string, grupoId: string, userId: string, displayName: string, isAdmin: bool)

  datatype ActividadFila = ActividadFila(grupoId: string, actorId: string, mensaje: string, fecha: string)

  datatype ArchivoFila = ArchivoFila(grupoId: string, path: string)

  datatype Tablas = Tablas(
    grupos: seq<GrupoFila>,
    miembros: seq<MiembroFila>,
    actividad: seq<ActividadFila>,
    archivos: seq<ArchivoFila>)

  datatype Miembro = Miembro(id: string, nombre: string, userId: string, isAdmin: bool)

  datatype Actividad = Actividad(mensaje: string, fecha: string)

  datatype Grupo = Grupo(id: string, nombre: string, codigo: string, miembros: seq<Miembro>, actividad: seq<Actividad>)

  /** The columns `listarGruposDelUsuario` selects from `grupos`. */
  datatype ResumenGrupo = ResumenGrupo(id: string, nombre: string, codigo: string, creadoEn: string)

  /** What `supabase.auth.getSession()` yields: an error, no user, or the user's id. */
  datatype Sesion = ErrorDeSesion(error: string) | SinUsuario | Usuario(id: string)

  const MensajeSinSesion: string := "No hay sesion activa."
  const MensajeSinCodigoUnico: string := "No se pudo generar un codigo unico."
  const MensajeCodigoInexistente: string := "El codigo ingresado no existe."
  const CreoElGrupo: string := " creo el grupo."
  const SeUnioAlGrupo: string := " se unio al grupo."
  const IntentosPorDefecto: nat := 5

  /** `lista || []` */
  function OVacia<T>(xs: Option<seq<T>>): (r: seq<T>)
    ensures xs.None? ==> r == []
  {
    if xs.Some? then xs.value else []
  }

  function MiembroDe(m: MiembroFila): Miembro
  {
    Miembro(m.id, m.displayName, m.userId, m.isAdmin)
  }

  function ActividadDe(a: ActividadFila): Actividad
  {
    Actividad(a.mensaje, a.fecha)
  }

  /**
   * `mapearGrupo(grupo, miembros, actividad)`: keeps the group's id, name and
   * code, one member per member row and one entry per activity row, in the
   * given order; a missing list becomes empty. Members keep id, display name,
   * user id and admin flag; entries keep only message and date.
   */
  function MapearGrupo(grupo: GrupoFila, miembros: Option<seq<MiembroFila>>, actividad: Option<seq<ActividadFila>>): (r: Grupo)
    ensures r.id == grupo.id && r.nombre == grupo.nombre && r.codigo == grupo.codigo
    ensures |r.miembros| == |OVacia(miembros)| && |r.actividad| == |OVacia(actividad)|
    ensures forall i :: 0 <= i < |r.miembros| ==>
              var m := OVacia(miembros)[i];
              r.miembros[i] == Miembro(m.id, m.displayName, m.userId, m.isAdmin)
    ensures forall i :: 0 <= i < |r.actividad| ==>
              r.actividad[i] == Actividad(OVacia(actividad)[i].mensaje, OVacia(actividad)[i].fecha)
  {
    Grupo(grupo.id, grupo.nombre, grupo.codigo,
          Seqs.Map(OVacia(miembros), MiembroDe), Seqs.Map(OVacia(actividad), ActividadDe))
  }

  /**
   * `mapearGrupo` forgets the creator, the creation date, each member row's
   * group and each activity row's group and actor: rows that differ only
   * there map to the same record.
   */
  lemma MapearGrupoOlvida(g1: GrupoFila, g2: GrupoFila, m1: seq<MiembroFila>, m2: seq<MiembroFila>,
                          a1: seq<ActividadFila>, a2: seq<ActividadFila>)
    requires g1.id == g2.id && g1.nombre == g2.nombre && g1.codigo == g2.codigo
    requires |m1| == |m2| && forall i :: 0 <= i < |m1| ==> m1[i].(grupoId := "") == m2[i].(grupoId := "")
    requires |a1| == |a2| && forall i :: 0 <= i < |a1| ==> a1[i].mensaje == a2[i].mensaje && a1[i].fecha == a2[i].fecha
    ensures MapearGrupo(g1, Some(m1), Some(a1)) == MapearGrupo(g2, Some(m2), Some(a2))
  {
    var r1, r2 := MapearGrupo(g1, Some(m1), Some(a1)), MapearGrupo(g2, Some(m2), Some(a2));
    forall i | 0 <= i < |m1| ensures r1.miembros[i] == r2.miembros[i] {
      assert m1[i].(grupoId := "").id == m2[i].(grupoId := "").id;
    }
    assert r1.miembros == r2.miembros;
    assert r1.actividad == r2.actividad;
  }

  /** Mapping distributes over appending a member row and an activity row. */
  lemma MapearGrupoSnoc(g: GrupoFila, ms: seq<MiembroFila>, m: MiembroFila, as_: seq<ActividadFila>, a: ActividadFila)
    ensures MapearGrupo(g, Some(ms + [m]), Some([a] + as_)).miembros
            == MapearGrupo(g, Some(ms), Some(as_)).miembros + [MiembroDe(m)]
    ensures MapearGrupo(g, Some(ms + [m]), Some([a] + as_)).actividad
            == [ActividadDe(a)] + MapearGrupo(g, Some(ms), Some(as_)).actividad
  {
    Seqs.MapAppend(ms, [m], MiembroDe);
    Seqs.MapAppend([a], as_, ActividadDe);
  }

  // ---------------------------------------------------------------------
  // Queries and the table invariant.
  // ---------------------------------------------------------------------

  function Codigos(grupos: seq<GrupoFila>): set<string>
  {
    set g | g in grupos :: g.codigo
  }

  /**
   * What the database keeps true: codes and group ids are unique, and a user
   * is a member of a group at most once (the `maybeSingle` lookups rely on it).
   */
  ghost predicate Consistente(t: Tablas)
  {
    && (forall i, j :: 0 <= i < j < |t.grupos| ==> t.grupos[i].codigo != t.grupos[j].codigo)
    && (forall i, j :: 0 <= i < j < |t.grupos| ==> t.grupos[i].id != t.grupos[j].id)
    && (forall i, j :: 0 <= i < j < |t.miembros| ==>
          t.miembros[i].grupoId != t.miembros[j].grupoId || t.miembros[i].userId != t.miembros[j].userId)
  }

  /** A freshly generated group id: no group row and no member row uses it. */
  predicate IdLibre(t: Tablas, grupoId: string)
  {
    && (forall i :: 0 <= i < |t.grupos| ==> t.grupos[i].id != grupoId)
    && (forall i :: 0 <= i < |t.miembros| ==> t.miembros[i].grupoId != grupoId)
  }

  /** `grupo_miembros` of a group, ordered by `joined_at` ascending. */
  function MiembrosDe(t: Tablas, grupoId: string): seq<MiembroFila>
  {
    Seqs.Filter(t.miembros, (m: MiembroFila) => m.grupoId == grupoId)
  }

  /** `grupo_actividad` of a group, ordered by `fecha` descending. */
  function ActividadDelGrupo(t: Tablas, grupoId: string): seq<ActividadFila>
  {
    Seqs.Reverse(Seqs.Filter(t.actividad, (a: ActividadFila) => a.grupoId == grupoId))
  }

  /** The record returned for a group row after reading its members and activity. */
  function VistaDe(t: Tablas, g: GrupoFila): Grupo
  {
    MapearGrupo(g, Some(MiembrosDe(t, g.id)), Some(ActividadDelGrupo(t, g.id)))
  }

  /** The `grupos` row with this code (`.eq("codigo", c).maybeSingle()`), as an index or `-1`. */
  function IndiceDeCodigo(grupos: seq<GrupoFila>, c: string): (r: int)
    ensures -1 <= r < |grupos|
    ensures r >= 0 ==> grupos[r].codigo == c
    ensures r == -1 <==> c !in Codigos(grupos)
  {
    var r := Seqs.FindIndex(grupos, (g: GrupoFila) => g.codigo == c);
    assert r == -1 ==> forall g :: g in grupos ==> g.codigo != c;
    r
  }

  /** Does the user already have a `grupo_miembros` row for the group? */
  function EsMiembro(t: Tablas, grupoId: string, userId: string): (r: bool)
    ensures r <==> exists i :: 0 <= i < |t.miembros| && t.miembros[i].grupoId == grupoId && t.miembros[i].userId == userId
  {
    Seqs.Any(t.miembros, (m: MiembroFila) => m.grupoId == grupoId && m.userId == userId)
  }

  /**
   * `obtenerVistaPreviaPorCodigo(codigo)`: the group whose code is
   * `codigo.trim().toUpperCase()` with its members and activity, or `null`.
   */
  function ObtenerVistaPreviaPorCodigo(t: Tablas, codigo: string): (r: Option<Grupo>)
    ensures r.Some? <==> Normalizar(codigo) in Codigos(t.grupos)
    ensures r.Some? ==> r.value.codigo == Normalizar(codigo)
  {
    var k := IndiceDeCodigo(t.grupos, Normalizar(codigo));
    if k < 0 then None else Some(VistaDe(t, t.grupos[k]))
  }

  /** With unique codes, the row found by code is the only row with it. */
  lemma IndiceDeCodigoUnico(t: Tablas, c: string, i: nat)
    requires Consistente(t)
    requires i < |t.grupos| && t.grupos[i].codigo == c
    ensures IndiceDeCodigo(t.grupos, c) == i
  {
    assert t.grupos[i] in t.grupos;
  }

  /** The preview of a group's code is that group, with its members and activity. */
  lemma VistaPreviaDelGrupo(t: Tablas, codigo: string, i: nat)
    requires Consistente(t)
    requires i < |t.grupos| && t.grupos[i].codigo == Normalizar(codigo)
    ensures ObtenerVistaPreviaPorCodigo(t, codigo) == Some(VistaDe(t, t.grupos[i]))
  {
    IndiceDeCodigoUnico(t, Normalizar(codigo), i);
  }

  // ---------------------------------------------------------------------
  // `generarCodigoUnico(intentos = 5)`.
  // ---------------------------------------------------------------------

  /**
   * The codes the attempts draw: attempt `i` uses the draws of the `i`-th
   * `generarCodigo()` call.
   */
  function Rondas(rng: nat -> nat): nat -> string
  {
    (i: nat) => RoundCode(rng, i)
  }

  /** Probe `i` found its code `sondeos(i)` taken (no error, and a row with that code exists). */
  predicate Ocupado(codigos: set<string>, sondeos: nat -> string, errores: nat -> Option<string>, i: nat)
  {
    errores(i).None? && sondeos(i) in codigos
  }

  /** The first probe at or after `desde`, below `intentos`, that ends the loop, or `intentos`. */
  function PrimerSondeo(codigos: set<string>, sondeos: nat -> string, errores: nat -> Option<string>,
                        desde: nat, intentos: nat): (k: nat)
    requires desde <= intentos
    ensures desde <= k <= intentos
    ensures forall j :: desde <= j < k ==> Ocupado(codigos, sondeos, errores, j)
    ensures k < intentos ==> !Ocupado(codigos, sondeos, errores, k)
    decreases intentos - desde
  {
    if desde == intentos || !Ocupado(codigos, sondeos, errores, desde) then desde
    else PrimerSondeo(codigos, sondeos, errores, desde + 1, intentos)
  }

  /**
   * The outcome of `generarCodigoUnico`: the error of the first probe that
   * fails, or the first code without a row, or the exhaustion message.
   */
  function CodigoUnico(codigos: set<string>, sondeos: nat -> string, errores: nat -> Option<string>,
                       intentos: nat): (r: Result<string>)
    ensures r.Ok? ==> r.value !in codigos
  {
    var k := PrimerSondeo(codigos, sondeos, errores, 0, intentos);
    if k == intentos then Err(MensajeSinCodigoUnico)
    else if errores(k).Some? then Err(errores(k).value)
    else Ok(sondeos(k))
  }

  /** The loop stops at the first attempt whose code is not found taken. */
  lemma PrimerSondeoEs(codigos: set<string>, sondeos: nat -> string, errores: nat -> Option<string>,
                       intentos: nat, i: nat)
    requires i < intentos
    requires forall j :: 0 <= j < i ==> Ocupado(codigos, sondeos, errores, j)
    requires !Ocupado(codigos, sondeos, errores, i)
    ensures PrimerSondeo(codigos, sondeos, errores, 0, intentos) == i
  {
  }

  /** A free code drawn after only taken ones is returned. */
  lemma CodigoUnicoPrimerLibre(codigos: set<string>, sondeos: nat -> string, errores: nat -> Option<string>,
                               intentos: nat, i: nat)
    requires i < intentos
    requires forall j :: 0 <= j < i ==> Ocupado(codigos, sondeos, errores, j)
    requires errores(i).None? && sondeos(i) !in codigos
    ensures CodigoUnico(codigos, sondeos, errores, intentos) == Ok(sondeos(i))
  {
    PrimerSondeoEs(codigos, sondeos, errores, intentos, i);
  }

  /** A probe that fails after only taken ones makes the whole call fail with its error. */
  lemma CodigoUnicoPropagaError(codigos: set<string>, sondeos: nat -> string, errores: nat -> Option<string>,
                                intentos: nat, i: nat)
    requires i < intentos
    requires forall j :: 0 <= j < i ==> Ocupado(codigos, sondeos, errores, j)
    requires errores(i).Some?
    ensures CodigoUnico(codigos, sondeos, errores, intentos) == Err(errores(i).value)
  {
    PrimerSondeoEs(codigos, sondeos, errores, intentos, i);
  }

  /** When every probe finds its code taken, the call fails with the exhaustion message. */
  lemma CodigoUnicoAgotado(codigos: set<string>, sondeos: nat -> string, errores: nat -> Option<string>, intentos: nat)
    requires forall j :: 0 <= j < intentos ==> Ocupado(codigos, sondeos, errores, j)
    ensures CodigoUnico(codigos, sondeos, errores, intentos) == Err(MensajeSinCodigoUnico)
  {
  }

  // ---------------------------------------------------------------------
  // The writes, as functions on the tables.
  // ---------------------------------------------------------------------

  /**
   * The three inserts of `crearGrupo` for user `userId` and the record it
   * returns: the group row with the trimmed name, the creator as admin and
   * the activity `"{nombre} creo el grupo."`.
   */
  function Crear(t: Tablas, codigo: string, nombreGrupo: string, nombreUsuario: string, userId: string,
                 grupoId: string, miembroId: string, creadoEn: string, fecha: string): (Grupo, Tablas)
  {
    var displayName := Trim(nombreUsuario);
    var g := GrupoFila(grupoId, Trim(nombreGrupo), codigo, userId, creadoEn);
    var m := MiembroFila(miembroId, grupoId, userId, displayName, true);
    var a := ActividadFila(grupoId, userId, displayName + CreoElGrupo, fecha);
    (MapearGrupo(g, Some([m]), Some([a])),
     t.(grupos := t.grupos + [g], miembros := t.miembros + [m], actividad := t.actividad + [a]))
  }

  /** The returned group has the trimmed name, only its creator (an admin) and only the creation entry. */
  lemma CrearForma(t: Tablas, codigo: string, nombreGrupo: string, nombreUsuario: string, userId: string,
                   grupoId: string, miembroId: string, creadoEn: string, fecha: string)
    ensures var (g, _) := Crear(t, codigo, nombreGrupo, nombreUsuario, userId, grupoId, miembroId, creadoEn, fecha);
      && g.id == grupoId && g.nombre == Trim(nombreGrupo) && g.codigo == codigo
      && g.miembros == [Miembro(miembroId, Trim(nombreUsuario), userId, true)]
      && g.actividad == [Actividad(Trim(nombreUsuario) + CreoElGrupo, fecha)]
  {
  }

  /** A fresh code and a fresh group id keep the tables consistent, and the new group is previewable. */
  lemma CrearPreservaConsistencia(t: Tablas, codigo: string, nombreGrupo: string, nombreUsuario: string,
                                  userId: string, grupoId: string, miembroId: string, creadoEn: string, fecha: string)
    requires Consistente(t) && IdLibre(t, grupoId) && codigo !in Codigos(t.grupos)
    ensures var (g, despues) := Crear(t, codigo, nombreGrupo, nombreUsuario, userId, grupoId, miembroId, creadoEn, fecha);
      Consistente(despues) && Codigos(despues.grupos) == Codigos(t.grupos) + {codigo}
  {
    var (g, despues) := Crear(t, codigo, nombreGrupo, nombreUsuario, userId, grupoId, miembroId, creadoEn, fecha);
    var fila := GrupoFila(grupoId, Trim(nombreGrupo), codigo, userId, creadoEn);
    var m := MiembroFila(miembroId, grupoId, userId, Trim(nombreUsuario), true);
    assert despues.grupos == t.grupos + [fila] && despues.miembros == t.miembros + [m];
    AnadirGrupoUnico(t.grupos, fila);
    AnadirMembresiaUnica(t.miembros, m);
  }

  /** Appending a group row with a fresh code and a fresh id keeps codes and ids unique. */
  lemma AnadirGrupoUnico(gs: seq<GrupoFila>, g: GrupoFila)
    requires forall i, j :: 0 <= i < j < |gs| ==> gs[i].codigo != gs[j].codigo
    requires forall i, j :: 0 <= i < j < |gs| ==> gs[i].id != gs[j].id
    requires g.codigo !in Codigos(gs) && forall i :: 0 <= i < |gs| ==> gs[i].id != g.id
    ensures var r := gs + [g];
      && (forall i, j :: 0 <= i < j < |r| ==> r[i].codigo != r[j].codigo)
      && (forall i, j :: 0 <= i < j < |r| ==> r[i].id != r[j].id)
      && Codigos(r) == Codigos(gs) + {g.codigo}
  {
    var r := gs + [g];
    forall i, j | 0 <= i < j < |r| ensures r[i].codigo != r[j].codigo && r[i].id != r[j].id {
      assert r[i] == gs[i];
      if j == |gs| {
        assert gs[i] in gs;
      } else {
        assert r[j] == gs[j];
      }
    }
    assert forall x :: x in r <==> x in gs || x == g;
  }

  /** Appending the membership of a fresh group keeps memberships unique. */
  lemma AnadirMembresiaUnica(ms: seq<MiembroFila>, m: MiembroFila)
    requires forall i, j :: 0 <= i < j < |ms| ==> ms[i].grupoId != ms[j].grupoId || ms[i].userId != ms[j].userId
    requires forall i :: 0 <= i < |ms| ==> ms[i].grupoId != m.grupoId
    ensures var r := ms + [m];
      forall i, j :: 0 <= i < j < |r| ==> r[i].grupoId != r[j].grupoId || r[i].userId != r[j].userId
  {
    var r := ms + [m];
    forall i, j | 0 <= i < j < |r| ensures r[i].grupoId != r[j].grupoId || r[i].userId != r[j].userId {
      assert r[i] == ms[i];
      if j < |ms| { assert r[j] == ms[j]; }
    }
  }

  /** The member row and the activity row a new join inserts. */
  function Admitir(t: Tablas, grupoId: string, userId: string, displayName: string,
                   miembroId: string, fecha: string): Tablas
  {
    t.(miembros := t.miembros + [MiembroFila(miembroId, grupoId, userId, displayName, false)],
       actividad := t.actividad + [ActividadFila(grupoId, userId, displayName + SeUnioAlGrupo, fecha)])
  }

  /**
   * `unirseAGrupoPorCodigo({ codigo, nombreUsuario })`: the result and the
   * tables afterwards.
   */
  function Unirse(t: Tablas, codigo: string, nombreUsuario: string, sesion: Sesion,
                  miembroId: string, fecha: string): (Result<Grupo>, Tablas)
  {
    match sesion
    case ErrorDeSesion(e) => (Err(e), t)
    case SinUsuario => (Err(MensajeSinSesion), t)
    case Usuario(userId) =>
      var k := IndiceDeCodigo(t.grupos, Normalizar(codigo));
      if k < 0 then (Err(MensajeCodigoInexistente), t)
      else
        var g := t.grupos[k];
        var despues := if EsMiembro(t, g.id, userId) then t
                       else Admitir(t, g.id, userId, Trim(nombreUsuario), miembroId, fecha);
        (Ok(VistaDe(despues, g)), despues)
  }

  /** An unknown code is an error and nothing is written. */
  lemma UnirseCodigoDesconocido(t: Tablas, codigo: string, nombreUsuario: string, userId: string,
                                miembroId: string, fecha: string)
    requires Normalizar(codigo) !in Codigos(t.grupos)
    ensures Unirse(t, codigo, nombreUsuario, Usuario(userId), miembroId, fecha) == (Err(MensajeCodigoInexistente), t)
  {
  }

  /** A user who is already a member gets the group back and nothing is written. */
  lemma UnirseYaMiembro(t: Tablas, codigo: string, nombreUsuario: string, userId: string,
                        miembroId: string, fecha: string, i: nat)
    requires Consistente(t)
    requires i < |t.grupos| && t.grupos[i].codigo == Normalizar(codigo)
    requires EsMiembro(t, t.grupos[i].id, userId)
    ensures Unirse(t, codigo, nombreUsuario, Usuario(userId), miembroId, fecha) == (Ok(VistaDe(t, t.grupos[i])), t)
  {
    IndiceDeCodigoUnico(t, Normalizar(codigo), i);
  }

  /**
   * A new member is inserted as a non-admin under the trimmed name, and
   * `"{nombre} se unio al grupo."` is logged: the returned group lists the
   * joiner last and that entry first, after what it listed before.
   */
  lemma UnirseNuevoMiembro(t: Tablas, codigo: string, nombreUsuario: string, userId: string,
                           miembroId: string, fecha: string, i: nat)
    requires Consistente(t)
    requires i < |t.grupos| && t.grupos[i].codigo == Normalizar(codigo)
    requires !EsMiembro(t, t.grupos[i].id, userId)
    ensures var g := t.grupos[i];
      var nombre := Trim(nombreUsuario);
      var (r, despues) := Unirse(t, codigo, nombreUsuario, Usuario(userId), miembroId, fecha);
      && despues == Admitir(t, g.id, userId, nombre, miembroId, fecha)
      && r.Ok?
      && r.value.miembros == VistaDe(t, g).miembros + [Miembro(miembroId, nombre, userId, false)]
      && r.value.actividad == [Actividad(nombre + SeUnioAlGrupo, fecha)] + VistaDe(t, g).actividad
  {
    IndiceDeCodigoUnico(t, Normalizar(codigo), i);
    AdmitirVista(t, t.grupos[i], userId, Trim(nombreUsuario), miembroId, fecha);
  }

  /** The inserted member row is listed last and the inserted entry first. */
  lemma AdmitirVista(t: Tablas, g: GrupoFila, userId: string, nombre: string, miembroId: string, fecha: string)
    ensures var v := VistaDe(Admitir(t, g.id, userId, nombre, miembroId, fecha), g);
      && v.miembros == VistaDe(t, g).miembros + [Miembro(miembroId, nombre, userId, false)]
      && v.actividad == [Actividad(nombre + SeUnioAlGrupo, fecha)] + VistaDe(t, g).actividad
  {
    var m := MiembroFila(miembroId, g.id, userId, nombre, false);
    var a := ActividadFila(g.id, userId, nombre + SeUnioAlGrupo, fecha);
    AdmitirFilas(t, g.id, userId, nombre, miembroId, fecha);
    MapearGrupoSnoc(g, MiembrosDe(t, g.id), m, ActividadDelGrupo(t, g.id), a);
  }

  /** After a join's inserts, the group's member rows end with the new one and its activity starts with the new entry. */
  lemma AdmitirFilas(t: Tablas, grupoId: string, userId: string, nombre: string, miembroId: string, fecha: string)
    ensures var despues := Admitir(t, grupoId, userId, nombre, miembroId, fecha);
      && MiembrosDe(despues, grupoId) == MiembrosDe(t, grupoId) + [MiembroFila(miembroId, grupoId, userId, nombre, false)]
      && ActividadDelGrupo(despues, grupoId)
         == [ActividadFila(grupoId, userId, nombre + SeUnioAlGrupo, fecha)] + ActividadDelGrupo(t, grupoId)
  {
    var despues := Admitir(t, grupoId, userId, nombre, miembroId, fecha);
    MiembrosTrasAnadir(t, despues.miembros, MiembroFila(miembroId, grupoId, userId, nombre, false));
    ActividadTrasAnadir(t, despues.actividad, ActividadFila(grupoId, userId, nombre + SeUnioAlGrupo, fecha));
  }

  lemma MiembrosTrasAnadir(t: Tablas, miembros: seq<MiembroFila>, m: MiembroFila)
    requires miembros == t.miembros + [m]
    ensures MiembrosDe(t.(miembros := miembros), m.grupoId) == MiembrosDe(t, m.grupoId) + [m]
  {
    Seqs.FilterAppend(t.miembros, [m], (x: MiembroFila) => x.grupoId == m.grupoId);
  }

  lemma ActividadTrasAnadir(t: Tablas, actividad: seq<ActividadFila>, a: ActividadFila)
    requires actividad == t.actividad + [a]
    ensures ActividadDelGrupo(t.(actividad := actividad), a.grupoId) == [a] + ActividadDelGrupo(t, a.grupoId)
  {
    var grupoId := a.grupoId;
    var esDelGrupo := (x: ActividadFila) => x.grupoId == grupoId;
    var antes := Seqs.Filter(t.actividad, esDelGrupo);
    Seqs.FilterAppend(t.actividad, [a], esDelGrupo);
    assert Seqs.Filter([a], esDelGrupo) == [a];
    assert Seqs.Filter(actividad, esDelGrupo) == antes + [a];
    Seqs.ReverseSnoc(antes, a);
    assert ActividadDelGrupo(t, grupoId) == Seqs.Reverse(antes);
    assert ActividadDelGrupo(t.(actividad := actividad), grupoId) == Seqs.Reverse(antes + [a]);
  }

  /** Inserting the membership of a non-member keeps the tables consistent. */
  lemma AdmitirPreservaConsistencia(t: Tablas, grupoId: string, userId: string, nombre: string,
                                    miembroId: string, fecha: string)
    requires Consistente(t) && !EsMiembro(t, grupoId, userId)
    ensures Consistente(Admitir(t, grupoId, userId, nombre, miembroId, fecha))
  {
    var ms := Admitir(t, grupoId, userId, nombre, miembroId, fecha).miembros;
    var n := |t.miembros|;
    assert forall j :: 0 <= j < n ==> ms[j] == t.miembros[j];
    assert ms[n].grupoId == grupoId && ms[n].userId == userId;
  }

  /** Joining keeps the tables consistent. */
  lemma UnirsePreservaConsistencia(t: Tablas, codigo: string, nombreUsuario: string, sesion: Sesion,
                                   miembroId: string, fecha: string)
    requires Consistente(t)
    ensures Consistente(Unirse(t, codigo, nombreUsuario, sesion, miembroId, fecha).1)
  {
    if sesion.Usuario? {
      var k := IndiceDeCodigo(t.grupos, Normalizar(codigo));
      if k >= 0 && !EsMiembro(t, t.grupos[k].id, sesion.id) {
        AdmitirPreservaConsistencia(t, t.grupos[k].id, sesion.id, Trim(nombreUsuario), miembroId, fecha);
      }
    }
  }

  /** Joining a second time, under any name, returns the same group and writes nothing. */
  lemma UnirseIdempotente(t: Tablas, codigo: string, nombreUsuario: string, userId: string,
                          miembroId: string, fecha: string,
                          otroNombre: string, otroId: string, otraFecha: string)
    requires Consistente(t)
    ensures var (r, despues) := Unirse(t, codigo, nombreUsuario, Usuario(userId), miembroId, fecha);
      r.Ok? ==> Unirse(despues, codigo, otroNombre, Usuario(userId), otroId, otraFecha) == (r, despues)
  {
    var (r, despues) := Unirse(t, codigo, nombreUsuario, Usuario(userId), miembroId, fecha);
    if r.Ok? {
      var k := IndiceDeCodigo(t.grupos, Normalizar(codigo));
      var g := t.grupos[k];
      assert despues.grupos == t.grupos;
      UnirsePreservaConsistencia(t, codigo, nombreUsuario, Usuario(userId), miembroId, fecha);
      if !EsMiembro(t, g.id, userId) {
        var n := |t.miembros|;
        assert despues.miembros[n].grupoId == g.id && despues.miembros[n].userId == userId;
      }
      assert EsMiembro(despues, g.id, userId);
      UnirseYaMiembro(despues, codigo, otroNombre, userId, otroId, otraFecha, k);
    }
  }

  /**
   * `listarGruposDelUsuario()`: the user's memberships, newest first, each
   * replaced by its joined group row; memberships whose group is missing are
   * dropped (`.filter(Boolean)`).
   */
  function ListarGruposDelUsuario(t: Tablas, sesion: Sesion): (r: Result<seq<ResumenGrupo>>)
    ensures sesion.ErrorDeSesion? ==> r == Err(sesion.error)
    ensures sesion.SinUsuario? ==> r == Err(MensajeSinSesion)
    ensures sesion.Usuario? ==> r == Ok(Unidos(t.grupos, MembresiasDe(t.miembros, sesion.id)))
  {
    match sesion
    case ErrorDeSesion(e) => Err(e)
    case SinUsuario => Err(MensajeSinSesion)
    case Usuario(userId) => Ok(Unidos(t.grupos, MembresiasDe(t.miembros, userId)))
  }

  /**
   * The `grupo_miembros` rows of the user, newest first: rows are inserted
   * in `joined_at` order, so the query's descending order is the reverse.
   */
  function MembresiasDe(miembros: seq<MiembroFila>, userId: string): (r: seq<MiembroFila>)
    ensures |r| <= |miembros|
    ensures forall j :: 0 <= j < |r| ==> r[j].userId == userId && r[j] in miembros
    ensures forall i :: 0 <= i < |miembros| && miembros[i].userId == userId ==> miembros[i] in r
  {
    var p := (m: MiembroFila) => m.userId == userId;
    var propias := Seqs.Filter(miembros, p);
    var r := Seqs.Reverse(propias);
    assert forall j :: 0 <= j < |r| ==> r[j] == propias[|propias| - 1 - j];
    assert forall x :: x in propias ==> x in r by {
      forall x | x in propias ensures x in r {
        var k :| 0 <= k < |propias| && propias[k] == x;
        assert r[|propias| - 1 - k] == x;
      }
    }
    r
  }

  /** A membership row inserted last is the first of its user's, and changes no one else's. */
  lemma {:induction false} MembresiasDeSnoc(miembros: seq<MiembroFila>, m: MiembroFila, userId: string)
    ensures MembresiasDe(miembros + [m], userId)
            == (if m.userId == userId then [m] else []) + MembresiasDe(miembros, userId)
  {
    var p := (x: MiembroFila) => x.userId == userId;
    Seqs.FilterAppend(miembros, [m], p);
    var propias := Seqs.Filter(miembros, p);
    assert Seqs.Filter([m], p) == (if m.userId == userId then [m] else []) by {
      assert [m][1..] == [];
    }
    if m.userId == userId {
      assert Seqs.Filter(miembros + [m], p) == propias + [m];
      Seqs.ReverseSnoc(propias, m);
    } else {
      assert Seqs.Filter(miembros + [m], p) == propias;
    }
  }

  /** The joined `grupos` row of a membership, if there is one. */
  function GrupoUnido(grupos: seq<GrupoFila>, grupoId: string): (r: Option<ResumenGrupo>)
    ensures r.Some? <==> exists i :: 0 <= i < |grupos| && grupos[i].id == grupoId
    ensures r.Some? ==> r.value.id == grupoId
  {
    var k := Seqs.FindIndex(grupos, (g: GrupoFila) => g.id == grupoId);
    if k < 0 then None else Some(ResumenGrupo(grupos[k].id, grupos[k].nombre, grupos[k].codigo, grupos[k].creadoEn))
  }

  function IdsDeGrupos(grupos: seq<GrupoFila>): set<string>
  {
    set g | g in grupos :: g.id
  }

  function GruposDeMembresias(memberships: seq<MiembroFila>): set<string>
  {
    set m | m in memberships :: m.grupoId
  }

  /** `memberships.map(item => item.grupos).filter(Boolean)` */
  function Unidos(grupos: seq<GrupoFila>, memberships: seq<MiembroFila>): (r: seq<ResumenGrupo>)
    ensures |r| <= |memberships|
    ensures forall j :: 0 <= j < |r| ==> r[j].id in IdsDeGrupos(grupos) && r[j].id in GruposDeMembresias(memberships)
    ensures forall i :: 0 <= i < |memberships| && GrupoUnido(grupos, memberships[i].grupoId).Some? ==>
              GrupoUnido(grupos, memberships[i].grupoId).value in r
  {
    if memberships == [] then []
    else
      var cola := Unidos(grupos, memberships[1..]);
      assert GruposDeMembresias(memberships[1..]) <= GruposDeMembresias(memberships) by {
        forall x | x in memberships[1..] ensures x in memberships { }
      }
      assert forall i :: 0 < i < |memberships| ==> memberships[i] == memberships[1..][i - 1];
      var cabeza := GrupoUnido(grupos, memberships[0].grupoId);
      if cabeza.Some? then
        assert cabeza.value.id in IdsDeGrupos(grupos) by {
          var i :| 0 <= i < |grupos| && grupos[i].id == memberships[0].grupoId;
          assert grupos[i] in grupos;
        }
        [cabeza.value] + cola
      else cola
  }

  /** One membership contributes its joined group when that group exists, and nothing otherwise. */
  lemma UnidosUno(grupos: seq<GrupoFila>, m: MiembroFila)
    ensures Unidos(grupos, [m])
            == if GrupoUnido(grupos, m.grupoId).Some? then [GrupoUnido(grupos, m.grupoId).value] else []
  {
    assert [m][1..] == [];
  }

  /** The listing of a concatenation is the concatenation of the listings, so query order is kept. */
  lemma {:induction false} UnidosConcat(grupos: seq<GrupoFila>, a: seq<MiembroFila>, b: seq<MiembroFila>)
    ensures Unidos(grupos, a + b) == Unidos(grupos, a) + Unidos(grupos, b)
    decreases |a|
  {
    if a == [] {
      assert a + b == b;
    } else {
      assert (a + b)[1..] == a[1..] + b;
      UnidosConcat(grupos, a[1..], b);
    }
  }

  /**
   * For a signed-in user the listing holds the group of every membership
   * of theirs whose group exists, and only groups they are a member of.
   */
  lemma ListarCompleto(t: Tablas, userId: string)
    ensures var l := ListarGruposDelUsuario(t, Usuario(userId)).value;
      && (forall i :: 0 <= i < |t.miembros| && t.miembros[i].userId == userId
                      && GrupoUnido(t.grupos, t.miembros[i].grupoId).Some? ==>
            GrupoUnido(t.grupos, t.miembros[i].grupoId).value in l)
      && (forall j :: 0 <= j < |l| ==> EsMiembro(t, l[j].id, userId))
  {
    var ms := MembresiasDe(t.miembros, userId);
    assert ListarGruposDelUsuario(t, Usuario(userId)).value == Unidos(t.grupos, ms);
    UnidosCompleto(t, userId, ms);
    UnidosSoloPropios(t, userId, ms);
  }

  lemma UnidosCompleto(t: Tablas, userId: string, ms: seq<MiembroFila>)
    requires forall i :: 0 <= i < |t.miembros| && t.miembros[i].userId == userId ==> t.miembros[i] in ms
    ensures forall i :: 0 <= i < |t.miembros| && t.miembros[i].userId == userId
                        && GrupoUnido(t.grupos, t.miembros[i].grupoId).Some? ==>
              GrupoUnido(t.grupos, t.miembros[i].grupoId).value in Unidos(t.grupos, ms)
  {
    var l := Unidos(t.grupos, ms);
    forall i | 0 <= i < |t.miembros| && t.miembros[i].userId == userId
                 && GrupoUnido(t.grupos, t.miembros[i].grupoId).Some?
      ensures GrupoUnido(t.grupos, t.miembros[i].grupoId).value in l
    {
      var k :| 0 <= k < |ms| && ms[k] == t.miembros[i];
      assert ms[k].grupoId == t.miembros[i].grupoId;
    }
  }

  lemma UnidosSoloPropios(t: Tablas, userId: string, ms: seq<MiembroFila>)
    requires forall j :: 0 <= j < |ms| ==> ms[j].userId == userId && ms[j] in t.miembros
    ensures var l := Unidos(t.grupos, ms);
      forall j :: 0 <= j < |l| ==> EsMiembro(t, l[j].id, userId)
  {
    var l := Unidos(t.grupos, ms);
    forall j | 0 <= j < |l| ensures EsMiembro(t, l[j].id, userId) {
      assert l[j].id in GruposDeMembresias(ms);
      var m :| m in ms && m.grupoId == l[j].id;
      var k :| 0 <= k < |t.miembros| && t.miembros[k] == m;
    }
  }

  /** With unique ids, a group row is the one its id finds. */
  lemma GrupoUnidoUnico(t: Tablas, i: nat)
    requires Consistente(t) && i < |t.grupos|
    ensures var g := t.grupos[i];
      GrupoUnido(t.grupos, g.id) == Some(ResumenGrupo(g.id, g.nombre, g.codigo, g.creadoEn))
  {
    var k := Seqs.FindIndex(t.grupos, (x: GrupoFila) => x.id == t.grupos[i].id);
    assert k <= i;
  }

  /** Joining a new group puts it first in the listing, before every earlier group. */
  lemma ListarTrasUnirse(t: Tablas, codigo: string, nombreUsuario: string, userId: string,
                         miembroId: string, fecha: string, i: nat)
    requires Consistente(t)
    requires i < |t.grupos| && t.grupos[i].codigo == Normalizar(codigo)
    requires !EsMiembro(t, t.grupos[i].id, userId)
    ensures var g := t.grupos[i];
      var despues := Unirse(t, codigo, nombreUsuario, Usuario(userId), miembroId, fecha).1;
      ListarGruposDelUsuario(despues, Usuario(userId)).value
        == [ResumenGrupo(g.id, g.nombre, g.codigo, g.creadoEn)] + ListarGruposDelUsuario(t, Usuario(userId)).value
  {
    UnirseNuevoMiembro(t, codigo, nombreUsuario, userId, miembroId, fecha, i);
    ListarTrasAdmitir(t, i, userId, Trim(nombreUsuario), miembroId, fecha);
  }

  /** The membership a join inserts puts its group first in the user's list. */
  lemma ListarTrasAdmitir(t: Tablas, i: nat, userId: string, nombre: string, miembroId: string, fecha: string)
    requires Consistente(t) && i < |t.grupos|
    ensures var g := t.grupos[i];
      ListarGruposDelUsuario(Admitir(t, g.id, userId, nombre, miembroId, fecha), Usuario(userId)).value
        == [ResumenGrupo(g.id, g.nombre, g.codigo, g.creadoEn)] + ListarGruposDelUsuario(t, Usuario(userId)).value
  {
    var g := t.grupos[i];
    var despues := Admitir(t, g.id, userId, nombre, miembroId, fecha);
    var m := MiembroFila(miembroId, g.id, userId, nombre, false);
    assert despues.miembros == t.miembros + [m];
    assert despues.grupos == t.grupos;
    MembresiasDeSnoc(t.miembros, m, userId);
    UnidosConcat(t.grupos, [m], MembresiasDe(t.miembros, userId));
    UnidosUno(t.grupos, m);
    GrupoUnidoUnico(t, i);
  }

  /** `actualizarNombreGrupo({ grupoId, nombre })`: the trimmed name; no activity is logged. */
  function ActualizarNombre(t: Tablas, grupoId: string, nombre: string): (r: Tablas)
    ensures r.miembros == t.miembros && r.actividad == t.actividad && r.archivos == t.archivos
    ensures |r.grupos| == |t.grupos|
    ensures forall i :: 0 <= i < |t.grupos| ==>
              if t.grupos[i].id == grupoId then r.grupos[i] == t.grupos[i].(nombre := Trim(nombre))
              else r.grupos[i] == t.grupos[i]
  {
    t.(grupos := Seqs.Map(t.grupos, (g: GrupoFila) => if g.id == grupoId then g.(nombre := Trim(nombre)) else g))
  }

  /** Renaming keeps every code, every id and the invariant. */
  lemma ActualizarNombrePreserva(t: Tablas, grupoId: string, nombre: string)
    requires Consistente(t)
    ensures var r := ActualizarNombre(t, grupoId, nombre);
      Consistente(r) && Codigos(r.grupos) == Codigos(t.grupos)
  {
    var r := ActualizarNombre(t, grupoId, nombre);
    assert forall j :: 0 <= j < |t.grupos| ==> r.grupos[j].codigo == t.grupos[j].codigo && r.grupos[j].id == t.grupos[j].id;
    forall c | c in Codigos(t.grupos) ensures c in Codigos(r.grupos) {
      var j :| 0 <= j < |t.grupos| && t.grupos[j].codigo == c;
      assert r.grupos[j] in r.grupos;
    }
    forall c | c in Codigos(r.grupos) ensures c in Codigos(t.grupos) {
      var j :| 0 <= j < |r.grupos| && r.grupos[j].codigo == c;
      assert t.grupos[j] in t.grupos;
    }
  }

  /** After a rename the preview by the group's code shows the trimmed name and nothing else new. */
  lemma ActualizarNombreVistaPrevia(t: Tablas, grupoId: string, nombre: string, codigo: string, i: nat)
    requires Consistente(t)
    requires i < |t.grupos| && t.grupos[i].id == grupoId && t.grupos[i].codigo == Normalizar(codigo)
    ensures ObtenerVistaPreviaPorCodigo(ActualizarNombre(t, grupoId, nombre), codigo)
            == Some(VistaDe(t, t.grupos[i]).(nombre := Trim(nombre)))
  {
    var r := ActualizarNombre(t, grupoId, nombre);
    ActualizarNombrePreserva(t, grupoId, nombre);
    assert r.grupos[i] == t.grupos[i].(nombre := Trim(nombre));
    VistaPreviaDelGrupo(r, codigo, i);
  }

  /** `expulsarMiembro({ grupoId, miembroId })`: deletes that member row of that group. */
  function Expulsar(t: Tablas, grupoId: string, miembroId: string): (r: Tablas)
    ensures r.grupos == t.grupos && r.actividad == t.actividad && r.archivos == t.archivos
    ensures |r.miembros| <= |t.miembros|
    ensures forall i :: 0 <= i < |r.miembros| ==> r.miembros[i] in t.miembros
    ensures forall i :: 0 <= i < |r.miembros| ==> !(r.miembros[i].id == miembroId && r.miembros[i].grupoId == grupoId)
    ensures forall i :: 0 <= i < |t.miembros| && !(t.miembros[i].id == miembroId && t.miembros[i].grupoId == grupoId)
              ==> t.miembros[i] in r.miembros
  {
    t.(miembros := Seqs.Filter(t.miembros, (m: MiembroFila) => !(m.id == miembroId && m.grupoId == grupoId)))
  }

  /** `eliminarGrupo({ grupoId })`: deletes the group row; other tables are not touched here. */
  function EliminarGrupo(t: Tablas, grupoId: string): (r: Tablas)
    ensures r.miembros == t.miembros && r.actividad == t.actividad && r.archivos == t.archivos
    ensures |r.grupos| <= |t.grupos|
    ensures forall i :: 0 <= i < |r.grupos| ==> r.grupos[i] in t.grupos && r.grupos[i].id != grupoId
    ensures forall i :: 0 <= i < |t.grupos| && t.grupos[i].id != grupoId ==> t.grupos[i] in r.grupos
  {
    t.(grupos := Seqs.Filter(t.grupos, (g: GrupoFila) => g.id != grupoId))
  }

  /** `eliminarArchivoGrupo({ grupoId, path })`: deletes that file row of that group. */
  function EliminarArchivo(t: Tablas, grupoId: string, path: string): (r: Tablas)
    ensures r.grupos == t.grupos && r.miembros == t.miembros && r.actividad == t.actividad
    ensures |r.archivos| <= |t.archivos|
    ensures forall i :: 0 <= i < |r.archivos| ==> r.archivos[i] in t.archivos && r.archivos[i] != ArchivoFila(grupoId, path)
    ensures forall i :: 0 <= i < |t.archivos| && t.archivos[i] != ArchivoFila(grupoId, path) ==> t.archivos[i] in r.archivos
  {
    t.(archivos := Seqs.Filter(t.archivos, (a: ArchivoFila) => a != ArchivoFila(grupoId, path)))
  }

  /** Deleting keeps the other rows in order: each delete distributes over concatenation. */
  lemma EliminacionesConcat(t: Tablas, grupoId: string, miembroId: string, path: string,
                            m1: seq<MiembroFila>, m2: seq<MiembroFila>,
                            g1: seq<GrupoFila>, g2: seq<GrupoFila>,
                            a1: seq<ArchivoFila>, a2: seq<ArchivoFila>)
    ensures Expulsar(t.(miembros := m1 + m2), grupoId, miembroId).miembros
            == Expulsar(t.(miembros := m1), grupoId, miembroId).miembros
             + Expulsar(t.(miembros := m2), grupoId, miembroId).miembros
    ensures EliminarGrupo(t.(grupos := g1 + g2), grupoId).grupos
            == EliminarGrupo(t.(grupos := g1), grupoId).grupos + EliminarGrupo(t.(grupos := g2), grupoId).grupos
    ensures EliminarArchivo(t.(archivos := a1 + a2), grupoId, path).archivos
            == EliminarArchivo(t.(archivos := a1), grupoId, path).archivos
             + EliminarArchivo(t.(archivos := a2), grupoId, path).archivos
  {
    Seqs.FilterAppend(m1, m2, (m: MiembroFila) => !(m.id == miembroId && m.grupoId == grupoId));
    Seqs.FilterAppend(g1, g2, (g: GrupoFila) => g.id != grupoId);
    Seqs.FilterAppend(a1, a2, (a: ArchivoFila) => a != ArchivoFila(grupoId, path));
  }

  /** Deleting rows keeps the tables consistent. */
  lemma EliminarPreservaConsistencia(t: Tablas, grupoId: string, miembroId: string)
    requires Consistente(t)
    ensures Consistente(Expulsar(t, grupoId, miembroId)) && Consistente(EliminarGrupo(t, grupoId))
  {
    Seqs.FilterPairwise(t.grupos, (g: GrupoFila) => g.id != grupoId,
                        (a: GrupoFila, b: GrupoFila) => a.codigo != b.codigo);
    Seqs.FilterPairwise(t.grupos, (g: GrupoFila) => g.id != grupoId,
                        (a: GrupoFila, b: GrupoFila) => a.id != b.id);
    Seqs.FilterPairwise(t.miembros, (m: MiembroFila) => !(m.id == miembroId && m.grupoId == grupoId),
                        (a: MiembroFila, b: MiembroFila) => a.grupoId != b.grupoId || a.userId != b.userId);
  }

  /** A deleted group no longer appears in anyone's listing, though the membership rows remain. */
  lemma ListarTrasEliminar(t: Tablas, grupoId: string, userId: string)
    ensures var l := ListarGruposDelUsuario(EliminarGrupo(t, grupoId), Usuario(userId)).value;
      forall j :: 0 <= j < |l| ==> l[j].id != grupoId
  {
  }

  // ---------------------------------------------------------------------
  // The service as an object over the tables.
  // ---------------------------------------------------------------------

  /**
   * `crearGrupo({ nombreGrupo, nombreUsuario })` as a whole: the result and
   * the tables afterwards, for the session and the code probes given.
   */
  function Creacion(t: Tablas, nombreGrupo: string, nombreUsuario: string, sesion: Sesion,
                    rng: nat -> nat, errores: nat -> Option<string>,
                    grupoId: string, miembroId: string, creadoEn: string, fecha: string): (Result<Grupo>, Tablas)
  {
    match sesion
    case ErrorDeSesion(e) => (Err(e), t)
    case SinUsuario => (Err(MensajeSinSesion), t)
    case Usuario(userId) =>
      var c := CodigoUnico(Codigos(t.grupos), Rondas(rng), errores, IntentosPorDefecto);
      if c.Err? then (Err(c.message), t)
      else
        var (g, despues) := Crear(t, c.value, nombreGrupo, nombreUsuario, userId, grupoId, miembroId, creadoEn, fecha);
        (Ok(g), despues)
  }

  class Backend {
    var tablas: Tablas

    constructor ()
      ensures tablas == Tablas([], [], [], [])
    {
      tablas := Tablas([], [], [], []);
    }

    /**
     * `generarCodigoUnico(intentos)`: draws a code per attempt (probe `i`
     * uses the draws of the `i`-th `generarCodigo()` call) and asks whether
     * a group row has it.
     */
    method GenerarCodigoUnico(intentos: nat, rng: nat -> nat, errores: nat -> Option<string>) returns (r: Result<string>)
      ensures r == CodigoUnico(Codigos(tablas.grupos), Rondas(rng), errores, intentos)
      ensures r.Ok? ==> IsCode(r.value, LongitudPorDefecto)
    {
      var codigos := Codigos(tablas.grupos);
      ghost var sondeos := Rondas(rng);
      ghost var k := PrimerSondeo(codigos, sondeos, errores, 0, intentos);
      var i := 0;
      while i < intentos
        invariant i <= intentos
        invariant forall j :: 0 <= j < i ==> Ocupado(codigos, sondeos, errores, j)
        invariant i <= k
      {
        var codigo := GenerarCodigo(LongitudPorDefecto, rng, LongitudPorDefecto * i);
        assert codigo == sondeos(i);
        if errores(i).Some? {
          PrimerSondeoEs(codigos, sondeos, errores, intentos, i);
          return Err(errores(i).value);
        }
        if codigo !in codigos {
          PrimerSondeoEs(codigos, sondeos, errores, intentos, i);
          return Ok(codigo);
        }
        i := i + 1;
      }
      r := Err(MensajeSinCodigoUnico);
    }

    /** `crearGrupo({ nombreGrupo, nombreUsuario })` */
    method CrearGrupo(nombreGrupo: string, nombreUsuario: string, sesion: Sesion,
                      rng: nat -> nat, errores: nat -> Option<string>,
                      grupoId: string, miembroId: string, creadoEn: string, fecha: string)
      returns (r: Result<Grupo>)
      requires IdLibre(tablas, grupoId)
      modifies this
      ensures sesion.ErrorDeSesion? ==> r == Err(sesion.error) && tablas == old(tablas)
      ensures sesion.SinUsuario? ==> r == Err(MensajeSinSesion) && tablas == old(tablas)
      ensures sesion.Usuario? ==>
                var c := CodigoUnico(Codigos(old(tablas).grupos), Rondas(rng), errores, IntentosPorDefecto);
                if c.Err? then r == Err(c.message) && tablas == old(tablas)
                else var (g, despues) := Crear(old(tablas), c.value, nombreGrupo, nombreUsuario, sesion.id,
                                              grupoId, miembroId, creadoEn, fecha);
                     r == Ok(g) && tablas == despues
      ensures (r, tablas) == Creacion(old(tablas), nombreGrupo, nombreUsuario, sesion, rng, errores,
                                      grupoId, miembroId, creadoEn, fecha)
      ensures old(Consistente(tablas)) ==> Consistente(tablas)
    {
      match sesion
      case ErrorDeSesion(e) => r := Err(e);
      case SinUsuario => r := Err(MensajeSinSesion);
      case Usuario(userId) =>
        var codigo := GenerarCodigoUnico(IntentosPorDefecto, rng, errores);
        if codigo.Err? {
          r := Err(codigo.message);
        } else {
          if Consistente(tablas) {
            CrearPreservaConsistencia(tablas, codigo.value, nombreGrupo, nombreUsuario, userId,
                                      grupoId, miembroId, creadoEn, fecha);
          }
          var (g, despues) := Crear(tablas, codigo.value, nombreGrupo, nombreUsuario, userId,
                                    grupoId, miembroId, creadoEn, fecha);
          tablas := despues;
          r := Ok(g);
        }
    }

    /** `unirseAGrupoPorCodigo({ codigo, nombreUsuario })` */
    method UnirseAGrupoPorCodigo(codigo: string, nombreUsuario: string, sesion: Sesion,
                                 miembroId: string, fecha: string) returns (r: Result<Grupo>)
      modifies this
      ensures (r, tablas) == Unirse(old(tablas), codigo, nombreUsuario, sesion, miembroId, fecha)
      ensures old(Consistente(tablas)) ==> Consistente(tablas)
    {
      if Consistente(tablas) {
        UnirsePreservaConsistencia(tablas, codigo, nombreUsuario, sesion, miembroId, fecha);
      }
      var resultado := Unirse(tablas, codigo, nombreUsuario, sesion, miembroId, fecha);
      r, tablas := resultado.0, resultado.1;
    }

    /** `actualizarNombreGrupo({ grupoId, nombre })` */
    method ActualizarNombreGrupo(grupoId: string, nombre: string)
      modifies this
      ensures tablas == ActualizarNombre(old(tablas), grupoId, nombre)
    {
      tablas := ActualizarNombre(tablas, grupoId, nombre);
    }

    /** `expulsarMiembro({ grupoId, miembroId })` */
    method ExpulsarMiembro(grupoId: string, miembroId: string)
      modifies this
      ensures tablas == Expulsar(old(tablas), grupoId, miembroId)
    {
      tablas := Expulsar(tablas, grupoId, miembroId);
    }

    /** `eliminarGrupo({ grupoId })` */
    method EliminarGrupoPorId(grupoId: string)
      modifies this
      ensures tablas == EliminarGrupo(old(tablas), grupoId)
    {
      tablas := EliminarGrupo(tablas, grupoId);
    }

    /** `eliminarArchivoGrupo({ grupoId, path })` */
    method EliminarArchivoGrupo(grupoId: string, path: string)
      modifies this
      ensures tablas == EliminarArchivo(old(tablas), grupoId, path)
    {
      tablas := EliminarArchivo(tablas, grupoId, path);
    }
  }
}
