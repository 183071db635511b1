/**
 * The logic of the home page `Home.jsx`: the one-line schedule summary, the
 * schedule drawer, the initials on each group card, the join toast filter,
 * the code input, the search gate and the create/join handlers.
 *
 * The page's messages are kept exactly as the file stores them; their
 * accented letters are stored double-encoded there (`sesi√≥n` for `sesión`).
 */
module HomePage {

  import opened JsText
  import Seqs
  import EditProfile
  import GroupsApi

  type Bloque = EditProfile.Bloque

  // ---------------------------------------------------------------------
  // `resumenHorario` and `horarioDrawer`.
  // ---------------------------------------------------------------------

  /** `DIAS`: the week as displayed, Monday first; Sunday is day 0. */
  const Dias: seq<(int, string)> := [(1, "Lun"), (2, "Mar"), (3, "Mie"), (4, "Jue"), (5, "Vie"), (6, "Sab"), (0, "Dom")]

  const SinHorario: string := "Sin horario"

  /** `DIAS.find(d => d.value === dia)?.label || ""` */
  function DiaLabel(dia: int): (r: string)
    ensures 0 <= dia <= 6 ==> |r| == 3
    ensures !(0 <= dia <= 6) ==> r == ""
    ensures dia == 0 ==> r == "Dom"
  {
    var k := Seqs.FindIndex(Dias, (d: (int, string)) => d.0 == dia);
    DiasCubreLaSemana(dia);
    if k < 0 then "" else Dias[k].1
  }

  /** Every entry of `DIAS` is a day 0..6 with a three-letter label, each day has one, and day 0 is "Dom". */
  lemma DiasCubreLaSemana(dia: int)
    ensures forall j :: 0 <= j < |Dias| ==> 0 <= Dias[j].0 <= 6 && |Dias[j].1| == 3
    ensures forall j :: 0 <= j < |Dias| && Dias[j].0 == 0 ==> Dias[j].1 == "Dom"
    ensures 0 <= dia <= 6 ==> Dias[if dia == 0 then 6 else dia - 1].0 == dia
  {
  }

  /** The order `resumenHorario` sorts by: day number, then start time. */
  predicate LeResumen(a: Bloque, b: Bloque)
  {
    a.dayOfWeek < b.dayOfWeek || (a.dayOfWeek == b.dayOfWeek && LexLe(a.startTime, b.startTime))
  }

  /** The order `horarioDrawer` sorts by: start time, then day number. */
  predicate LeDrawer(a: Bloque, b: Bloque)
  {
    if a.startTime == b.startTime then a.dayOfWeek <= b.dayOfWeek else LexLe(a.startTime, b.startTime)
  }

  lemma LeResumenPreorden()
    ensures Seqs.TotalPreorder(LeResumen)
  {
    forall a: Bloque, b: Bloque ensures LeResumen(a, b) || LeResumen(b, a) {
      LexLeTotal(a.startTime, b.startTime);
    }
    forall a: Bloque, b: Bloque, c: Bloque | LeResumen(a, b) && LeResumen(b, c) ensures LeResumen(a, c) {
      if a.dayOfWeek == b.dayOfWeek == c.dayOfWeek {
        LexLeTrans(a.startTime, b.startTime, c.startTime);
      }
    }
  }

  lemma LeDrawerPreorden()
    ensures Seqs.TotalPreorder(LeDrawer)
  {
    forall a: Bloque, b: Bloque ensures LeDrawer(a, b) || LeDrawer(b, a) {
      LexLeTotal(a.startTime, b.startTime);
    }
    forall a: Bloque, b: Bloque, c: Bloque | LeDrawer(a, b) && LeDrawer(b, c) ensures LeDrawer(a, c) {
      var x, y, z := a.startTime, b.startTime, c.startTime;
      if x == y && y == z {
      } else if x == y {
        assert LexLe(y, z);
      } else if y == z {
        assert LexLe(x, y);
      } else {
        LexLeTrans(x, y, z);
        if x == z {
          LexLeAntisym(x, y);
        }
      }
    }
  }

  /** `` `${diaLabel} ${b.startTime}-${b.endTime}` `` */
  function FormatoResumen(b: Bloque): string
  {
    DiaLabel(b.dayOfWeek) + " " + b.startTime + "-" + b.endTime
  }

  /** `resumenHorario` */
  function ResumenHorario(horario: seq<Bloque>): string
  {
    if |horario| == 0 then SinHorario
    else Join(Seqs.Map(Seqs.Sort(horario, LeResumen), FormatoResumen), ", ")
  }

  /** A non-empty list of parts starts with its first part once joined. */
  lemma {:induction false} JoinStartsWithFirst(parts: seq<string>, sep: string)
    requires |parts| >= 1
    ensures |parts[0]| <= |Join(parts, sep)| && Join(parts, sep)[..|parts[0]|] == parts[0]
  {
  }

  /** The summary is "Sin horario" exactly when there is no block. */
  lemma ResumenHorarioVacio(horario: seq<Bloque>)
    ensures ResumenHorario(horario) == SinHorario <==> |horario| == 0
  {
    if |horario| > 0 {
      var o := Seqs.Sort(horario, LeResumen);
      LeResumenPreorden();
      Seqs.SortCorrect(horario, LeResumen);
      var piezas := Seqs.Map(o, FormatoResumen);
      JoinStartsWithFirst(piezas, ", ");
      var p := piezas[0];
      var guion := |DiaLabel(o[0].dayOfWeek)| + 1 + |o[0].startTime|;
      assert p[guion] == '-';
      var r := ResumenHorario(horario);
      assert guion < |r| && r[guion] == '-';
      assert forall i :: 0 <= i < |SinHorario| ==> SinHorario[i] != '-';
      assert r != SinHorario;
    }
  }

  /**
   * The summary lists every block once, by day (Sunday, day 0, first) and
   * then by start time, each as `"Lbl start-end"`, joined by ", ".
   */
  lemma ResumenHorarioOrdenado(horario: seq<Bloque>)
    requires |horario| > 0
    ensures var o := Seqs.Sort(horario, LeResumen);
      && multiset(o) == multiset(horario)
      && (forall i, j :: 0 <= i < j < |o| ==>
            o[i].dayOfWeek <= o[j].dayOfWeek
            && (o[i].dayOfWeek == o[j].dayOfWeek ==> LexLe(o[i].startTime, o[j].startTime)))
      && ResumenHorario(horario) == Join(Seqs.Map(o, FormatoResumen), ", ")
  {
    LeResumenPreorden();
    Seqs.SortCorrect(horario, LeResumen);
  }

  /** A drawer row: the block, its day label and its class name. */
  datatype ItemDrawer = ItemDrawer(bloque: Bloque, diaLabel: string, nombreClase: string)

  /** `b.type?.trim() || "Clase"` */
  function NombreClase(tipo: string): (r: string)
    ensures r != ""
    ensures Blank(tipo) ==> r == "Clase"
    ensures !Blank(tipo) ==> r == Trim(tipo)
  {
    if Trim(tipo) != "" then Trim(tipo) else "Clase"
  }

  function ComoItem(b: Bloque): ItemDrawer
  {
    ItemDrawer(b, DiaLabel(b.dayOfWeek), NombreClase(b.tipo))
  }

  /** `horarioDrawer` */
  function HorarioDrawer(horario: seq<Bloque>): seq<ItemDrawer>
  {
    Seqs.Map(Seqs.Sort(horario, LeDrawer), ComoItem)
  }

  /**
   * The drawer keeps every block (the same multiset), ordered by start time
   * and then by day, each labelled with its day and its class name.
   */
  lemma HorarioDrawerCorrecto(horario: seq<Bloque>)
    ensures var r := HorarioDrawer(horario);
      var o := Seqs.Sort(horario, LeDrawer);
      && |r| == |horario|
      && multiset(o) == multiset(horario)
      && (forall i :: 0 <= i < |r| ==>
            r[i].bloque == o[i] && r[i].diaLabel == DiaLabel(o[i].dayOfWeek) && r[i].nombreClase == NombreClase(o[i].tipo))
      && (forall i, j :: 0 <= i < j < |r| ==>
            if r[i].bloque.startTime == r[j].bloque.startTime
            then r[i].bloque.dayOfWeek <= r[j].bloque.dayOfWeek
            else LexLe(r[i].bloque.startTime, r[j].bloque.startTime))
  {
    LeDrawerPreorden();
    Seqs.SortCorrect(horario, LeDrawer);
  }

  // ---------------------------------------------------------------------
  // Group cards and the join toast.
  // ---------------------------------------------------------------------

  /** `p[0]` of each word, where an empty word's `undefined` joins as "". */
  function Primeras(palabras: seq<string>): (r: string)
    ensures |r| <= |palabras|
  {
    if palabras == [] then ""
    else (if palabras[0] == "" then "" else [palabras[0][0]]) + Primeras(palabras[1..])
  }

  /** `(nombre || "G").split(" ").map(p => p[0]).join("").slice(0, 2).toUpperCase()` */
  function Iniciales(nombre: JsId): (r: string)
    ensures |r| <= 2
  {
    var texto := if Truthy(nombre) then nombre.s else "G";
    var primeras := Primeras(Split(texto, ' '));
    ToUpper(if |primeras| <= 2 then primeras else primeras[..2])
  }

  /** A group without a name shows "G". */
  lemma InicialesSinNombre(nombre: JsId)
    requires !Truthy(nombre)
    ensures Iniciales(nombre) == "G"
  {
    SplitWithoutSep("G", ' ');
  }

  /** A one-word name shows its first letter, upper-cased. */
  lemma InicialesUnaPalabra(a: string)
    requires a != "" && ' ' !in a
    ensures Iniciales(Str(a)) == [UpperChar(a[0])]
  {
    SplitWithoutSep(a, ' ');
  }

  /** A two-word name shows the first letter of each, upper-cased. */
  lemma InicialesDosPalabras(a: string, b: string)
    requires a != "" && ' ' !in a && b != "" && ' ' !in b
    ensures Iniciales(Str(a + " " + b)) == [UpperChar(a[0]), UpperChar(b[0])]
  {
    SplitTwo(a, ' ', b);
    assert a + " " + b == a + [' '] + b;
    assert Primeras([a, b]) == [a[0], b[0]] by {
      assert [a, b][1..] == [b];
      assert [b][1..] == [];
    }
  }

  const SeHaUnidoATuGrupo: string := "se ha unido a tu grupo"

  /** `` `${nuevo.mensaje || ""}` `` */
  function TextoToast(mensaje: JsId): string
  {
    if Truthy(mensaje) then mensaje.s else ""
  }

  /**
   * The realtime handler's test: the inserted activity announces a join, and
   * either nobody is signed in or the actor is set and is someone else.
   */
  function DisparaToast(mensaje: JsId, actorId: JsId, userId: JsId): (r: bool)
    ensures r ==> Includes(TextoToast(mensaje), SeHaUnidoATuGrupo)
    ensures r && Truthy(userId) ==> Truthy(actorId) && actorId != userId
    ensures !Truthy(userId) ==> (r <==> Includes(TextoToast(mensaje), SeHaUnidoATuGrupo))
  {
    var esJoin := Includes(TextoToast(mensaje), SeHaUnidoATuGrupo);
    var esOtro := Truthy(actorId) && actorId != userId;
    esJoin && (if Truthy(userId) then esOtro else true)
  }

  /** A signed-in user is never shown a toast for their own action, nor for one without an actor. */
  lemma ToastNuncaPropio(mensaje: JsId, actorId: JsId, userId: JsId)
    requires Truthy(userId) && (actorId == userId || !Truthy(actorId))
    ensures !DisparaToast(mensaje, actorId, userId)
  {
  }

  // ---------------------------------------------------------------------
  // The search gate.
  // ---------------------------------------------------------------------

  /** What the search effect does: nothing, clear the suggestions, or schedule a search. */
  datatype Busqueda = SinCambio | Limpiar | Programar(q: string, filtro: string)

  /** The search effect on `busquedaAbierta`, `busquedaTexto`, `filtroFechaRepos`. */
  function EfectoBusqueda(abierta: bool, texto: string, filtro: string): (r: Busqueda)
    ensures r == SinCambio <==> !abierta
    ensures r == Limpiar <==> abierta && Blank(texto) && filtro == "all"
    ensures r.Programar? ==> r.q == Trim(texto) && r.filtro == filtro
  {
    if !abierta then SinCambio
    else
      var q := Trim(texto);
      if q == "" && filtro == "all" then Limpiar else Programar(q, filtro)
  }

  // ---------------------------------------------------------------------
  // The create and join guards.
  // ---------------------------------------------------------------------

  const MensajeSesionCrear: string := "Inicia sesi√≥n para crear grupos."
  const MensajeSesionUnirse: string := "Inicia sesi√≥n para unirte a grupos."
  const MensajeSinDisplayName: string := "No se encontr√≥ tu display name."
  const MensajeSinNombreGrupo: string := "Ingrese el nombre del grupo."
  const MensajeSinCodigo: string := "Ingrese el c√≥digo del grupo."

  /**
   * The three checks shared by `manejarCrearGrupo` and `manejarUnirse`, in
   * order: signed in, a display name, then a non-blank `campo`.
   */
  function Guarda(userId: JsId, nombreUsuario: string, campo: string,
                  sinSesion: string, sinCampo: string): (r: Option<string>)
    ensures r.None? <==> Truthy(userId) && !Blank(nombreUsuario) && !Blank(campo)
    ensures !Truthy(userId) ==> r == Some(sinSesion)
    ensures Truthy(userId) && Blank(nombreUsuario) ==> r == Some(MensajeSinDisplayName)
    ensures Truthy(userId) && !Blank(nombreUsuario) && Blank(campo) ==> r == Some(sinCampo)
  {
    if !Truthy(userId) then Some(sinSesion)
    else if Trim(nombreUsuario) == "" then Some(MensajeSinDisplayName)
    else if Trim(campo) == "" then Some(sinCampo)
    else None
  }

  // ---------------------------------------------------------------------
  // The page state and its handlers.
  // ---------------------------------------------------------------------

  class PaginaInicio {
    var userId: JsId
    var nombreUsuario: string
    var codigoIngreso: string
    var nombreGrupo: string
    var esPublicoNuevoGrupo: bool
    var vistaPrevia: Option<GroupsApi.Grupo>
    var error: string
    var gruposUsuario: seq<GroupsApi.ResumenGrupo>
    var accionAbierta: string
    var fabAbierto: bool
    /** The last `navigate` target. */
    var ruta: Option<string>

    constructor ()
      ensures userId == Null && nombreUsuario == "" && codigoIngreso == "" && nombreGrupo == ""
      ensures !esPublicoNuevoGrupo && vistaPrevia.None? && error == "" && gruposUsuario == []
      ensures accionAbierta == "" && !fabAbierto && ruta.None?
    {
      userId, nombreUsuario, codigoIngreso, nombreGrupo := Null, "", "", "";
      esPublicoNuevoGrupo, vistaPrevia, error, gruposUsuario := false, None, "", [];
      accionAbierta, fabAbierto, ruta := "", false, None;
    }

    /**
     * `manejarCambioCodigo(valor)`: stores the upper-cased code, and looks up
     * its preview once it has four characters; shorter input clears it.
     */
    method ManejarCambioCodigo(valor: string, api: GroupsApi.Backend)
      modifies this
      ensures codigoIngreso == ToUpper(valor)
      ensures |valor| >= 4 ==> vistaPrevia == GroupsApi.ObtenerVistaPreviaPorCodigo(api.tablas, ToUpper(valor))
      ensures |valor| < 4 ==> vistaPrevia.None?
      ensures userId == old(userId) && nombreUsuario == old(nombreUsuario) && nombreGrupo == old(nombreGrupo)
      ensures error == old(error) && gruposUsuario == old(gruposUsuario) && ruta == old(ruta)
      ensures esPublicoNuevoGrupo == old(esPublicoNuevoGrupo)
      ensures accionAbierta == old(accionAbierta) && fabAbierto == old(fabAbierto)
    {
      var codigo := ToUpper(valor);
      codigoIngreso := codigo;
      if |codigo| >= 4 {
        vistaPrevia := GroupsApi.ObtenerVistaPreviaPorCodigo(api.tablas, codigo);
      } else {
        vistaPrevia := None;
      }
    }

    /** `cargarGrupos()` */
    method CargarGrupos(t: GroupsApi.Tablas, sesion: GroupsApi.Sesion)
      modifies this
      ensures !Truthy(old(userId)) ==> gruposUsuario == [] && error == old(error)
      ensures Truthy(old(userId)) ==>
                var l := GroupsApi.ListarGruposDelUsuario(t, sesion);
                if l.Ok? then gruposUsuario == l.value && error == old(error)
                else gruposUsuario == old(gruposUsuario) && error == l.message
      ensures userId == old(userId) && nombreUsuario == old(nombreUsuario) && nombreGrupo == old(nombreGrupo)
      ensures codigoIngreso == old(codigoIngreso) && vistaPrevia == old(vistaPrevia) && ruta == old(ruta)
      ensures esPublicoNuevoGrupo == old(esPublicoNuevoGrupo)
      ensures accionAbierta == old(accionAbierta) && fabAbierto == old(fabAbierto)
    {
      if !Truthy(userId) {
        gruposUsuario := [];
        return;
      }
      var l := GroupsApi.ListarGruposDelUsuario(t, sesion);
      if l.Ok? {
        gruposUsuario := l.value;
      } else {
        error := l.message;
      }
    }

    /**
     * `manejarCrearGrupo()`: clears the error, applies the guards, then calls
     * `crearGrupo` (returned as `llamada`). On success the form is reset, the
     * groups reloaded and the new group opened; a rejected call is not caught,
     * so nothing after it runs.
     */
    method ManejarCrearGrupo(api: GroupsApi.Backend, sesion: GroupsApi.Sesion,
                             rng: nat -> nat, errores: nat -> Option<string>,
                             grupoId: string, miembroId: string, creadoEn: string, fecha: string)
      returns (llamada: Option<Result<GroupsApi.Grupo>>)
      requires GroupsApi.IdLibre(api.tablas, grupoId)
      modifies this, api
      ensures var g := Guarda(old(userId), old(nombreUsuario), old(nombreGrupo), MensajeSesionCrear, MensajeSinNombreGrupo);
        && (g.Some? ==> && llamada.None? && error == g.value && api.tablas == old(api.tablas)
                        && nombreGrupo == old(nombreGrupo) && esPublicoNuevoGrupo == old(esPublicoNuevoGrupo)
                        && gruposUsuario == old(gruposUsuario) && accionAbierta == old(accionAbierta)
                        && fabAbierto == old(fabAbierto) && ruta == old(ruta))
        && (g.None? ==> && llamada.Some?
                        && (llamada.value, api.tablas)
                           == GroupsApi.Creacion(old(api.tablas), old(nombreGrupo), old(nombreUsuario), sesion, rng, errores,
                                                 grupoId, miembroId, creadoEn, fecha))
      ensures llamada.Some? && llamada.value.Err? ==>
                && error == "" && nombreGrupo == old(nombreGrupo) && esPublicoNuevoGrupo == old(esPublicoNuevoGrupo)
                && gruposUsuario == old(gruposUsuario) && accionAbierta == old(accionAbierta)
                && fabAbierto == old(fabAbierto) && ruta == old(ruta)
      ensures llamada.Some? && llamada.value.Ok? ==>
                && nombreGrupo == "" && !esPublicoNuevoGrupo && accionAbierta == "" && !fabAbierto
                && ruta == Some("/grupos/" + llamada.value.value.codigo)
                && var l := GroupsApi.ListarGruposDelUsuario(api.tablas, sesion);
                   if l.Ok? then gruposUsuario == l.value && error == ""
                   else gruposUsuario == old(gruposUsuario) && error == l.message
      ensures userId == old(userId) && nombreUsuario == old(nombreUsuario)
      ensures codigoIngreso == old(codigoIngreso) && vistaPrevia == old(vistaPrevia)
    {
      var g := Guarda(userId, nombreUsuario, nombreGrupo, MensajeSesionCrear, MensajeSinNombreGrupo);
      if g.Some? {
        error := g.value;
        return None;
      }
      var r := EnviarCreacion(api, sesion, rng, errores, grupoId, miembroId, creadoEn, fecha);
      llamada := Some(r);
    }

    /** The steps of `manejarCrearGrupo` once the guards pass: clear the error, call `crearGrupo`, and apply its answer. */
    method EnviarCreacion(api: GroupsApi.Backend, sesion: GroupsApi.Sesion,
                          rng: nat -> nat, errores: nat -> Option<string>,
                          grupoId: string, miembroId: string, creadoEn: string, fecha: string)
      returns (r: Result<GroupsApi.Grupo>)
      requires GroupsApi.IdLibre(api.tablas, grupoId) && Truthy(userId)
      modifies this, api
      ensures (r, api.tablas) == GroupsApi.Creacion(old(api.tablas), old(nombreGrupo), old(nombreUsuario), sesion, rng, errores,
                                                    grupoId, miembroId, creadoEn, fecha)
      ensures r.Err? ==>
                && error == "" && nombreGrupo == old(nombreGrupo) && esPublicoNuevoGrupo == old(esPublicoNuevoGrupo)
                && gruposUsuario == old(gruposUsuario) && accionAbierta == old(accionAbierta)
                && fabAbierto == old(fabAbierto) && ruta == old(ruta)
      ensures r.Ok? ==>
                && nombreGrupo == "" && !esPublicoNuevoGrupo && accionAbierta == "" && !fabAbierto
                && ruta == Some("/grupos/" + r.value.codigo)
                && var l := GroupsApi.ListarGruposDelUsuario(api.tablas, sesion);
                   if l.Ok? then gruposUsuario == l.value && error == ""
                   else gruposUsuario == old(gruposUsuario) && error == l.message
      ensures userId == old(userId) && nombreUsuario == old(nombreUsuario)
      ensures codigoIngreso == old(codigoIngreso) && vistaPrevia == old(vistaPrevia)
    {
      error := "";
      r := api.CrearGrupo(nombreGrupo, nombreUsuario, sesion, rng, errores, grupoId, miembroId, creadoEn, fecha);
      if r.Ok? {
        var t := api.tablas;
        TrasCrear(r.value, t, sesion);
        assert api.tablas == t;
      }
    }

    /** What `manejarCrearGrupo` does once `crearGrupo` resolves to `g`; `t` are the tables after the call. */
    method TrasCrear(g: GroupsApi.Grupo, t: GroupsApi.Tablas, sesion: GroupsApi.Sesion)
      modifies this
      ensures nombreGrupo == "" && !esPublicoNuevoGrupo && accionAbierta == "" && !fabAbierto
      ensures ruta == Some("/grupos/" + g.codigo)
      ensures !Truthy(userId) ==> gruposUsuario == [] && error == old(error)
      ensures Truthy(userId) ==> var l := GroupsApi.ListarGruposDelUsuario(t, sesion);
                if l.Ok? then gruposUsuario == l.value && error == old(error)
                else gruposUsuario == old(gruposUsuario) && error == l.message
      ensures userId == old(userId) && nombreUsuario == old(nombreUsuario)
      ensures codigoIngreso == old(codigoIngreso) && vistaPrevia == old(vistaPrevia)
    {
      nombreGrupo := "";
      esPublicoNuevoGrupo := false;
      accionAbierta := "";
      fabAbierto := false;
      CargarGrupos(t, sesion);
      ruta := Some("/grupos/" + g.codigo);
    }

    /**
     * `manejarUnirse()`: clears the error, applies the guards, then calls
     * `unirseAGrupoPorCodigo` (returned as `llamada`). On success the code
     * and preview are cleared, the groups reloaded and the group opened; a
     * failure shows its message.
     */
    method ManejarUnirse(api: GroupsApi.Backend, sesion: GroupsApi.Sesion, miembroId: string, fecha: string)
      returns (llamada: Option<Result<GroupsApi.Grupo>>)
      modifies this, api
      ensures var g := Guarda(old(userId), old(nombreUsuario), old(codigoIngreso), MensajeSesionUnirse, MensajeSinCodigo);
        && (g.Some? ==> && llamada.None? && error == g.value && api.tablas == old(api.tablas)
                        && codigoIngreso == old(codigoIngreso) && vistaPrevia == old(vistaPrevia)
                        && gruposUsuario == old(gruposUsuario) && accionAbierta == old(accionAbierta)
                        && fabAbierto == old(fabAbierto) && ruta == old(ruta))
        && (g.None? ==> && llamada.Some?
                        && (llamada.value, api.tablas)
                           == GroupsApi.Unirse(old(api.tablas), old(codigoIngreso), old(nombreUsuario), sesion, miembroId, fecha))
      ensures llamada.Some? && llamada.value.Err? ==>
                && error == llamada.value.message && codigoIngreso == old(codigoIngreso) && vistaPrevia == old(vistaPrevia)
                && gruposUsuario == old(gruposUsuario) && accionAbierta == old(accionAbierta)
                && fabAbierto == old(fabAbierto) && ruta == old(ruta)
      ensures llamada.Some? && llamada.value.Ok? ==>
                && codigoIngreso == "" && vistaPrevia.None? && accionAbierta == "" && !fabAbierto
                && ruta == Some("/grupos/" + llamada.value.value.codigo)
                && var l := GroupsApi.ListarGruposDelUsuario(api.tablas, sesion);
                   if l.Ok? then gruposUsuario == l.value && error == ""
                   else gruposUsuario == old(gruposUsuario) && error == l.message
      ensures userId == old(userId) && nombreUsuario == old(nombreUsuario) && nombreGrupo == old(nombreGrupo)
      ensures esPublicoNuevoGrupo == old(esPublicoNuevoGrupo)
    {
      var g := Guarda(userId, nombreUsuario, codigoIngreso, MensajeSesionUnirse, MensajeSinCodigo);
      if g.Some? {
        error := g.value;
        return None;
      }
      var r := EnviarUnion(api, sesion, miembroId, fecha);
      llamada := Some(r);
    }

    /**
     * The steps of `manejarUnirse` once the guards pass: clear the error, call
     * the service, and apply its answer. The page clears the error before the
     * call; the call reads none of the page's fields, so clearing it just
     * after leaves the same state.
     */
    method EnviarUnion(api: GroupsApi.Backend, sesion: GroupsApi.Sesion, miembroId: string, fecha: string)
      returns (r: Result<GroupsApi.Grupo>)
      requires Truthy(userId)
      modifies this, api
      ensures (r, api.tablas) == GroupsApi.Unirse(old(api.tablas), old(codigoIngreso), old(nombreUsuario), sesion, miembroId, fecha)
      ensures r.Err? ==>
                && error == r.message && codigoIngreso == old(codigoIngreso) && vistaPrevia == old(vistaPrevia)
                && gruposUsuario == old(gruposUsuario) && accionAbierta == old(accionAbierta)
                && fabAbierto == old(fabAbierto) && ruta == old(ruta)
      ensures r.Ok? ==>
                && codigoIngreso == "" && vistaPrevia.None? && accionAbierta == "" && !fabAbierto
                && ruta == Some("/grupos/" + r.value.codigo)
                && var l := GroupsApi.ListarGruposDelUsuario(api.tablas, sesion);
                   if l.Ok? then gruposUsuario == l.value && error == ""
                   else gruposUsuario == old(gruposUsuario) && error == l.message
      ensures userId == old(userId) && nombreUsuario == old(nombreUsuario) && nombreGrupo == old(nombreGrupo)
      ensures esPublicoNuevoGrupo == old(esPublicoNuevoGrupo)
    {
      r := api.UnirseAGrupoPorCodigo(codigoIngreso, nombreUsuario, sesion, miembroId, fecha);
      var t := api.tablas;
      error := "";
      TrasUnirse(r, t, sesion);
    }

    /** What `manejarUnirse` does with the backend's answer `r`; `t` are the tables after the call. */
    method TrasUnirse(r: Result<GroupsApi.Grupo>, t: GroupsApi.Tablas, sesion: GroupsApi.Sesion)
      modifies this
      ensures r.Err? ==> error == r.message && codigoIngreso == old(codigoIngreso) && ruta == old(ruta)
                         && vistaPrevia == old(vistaPrevia) && gruposUsuario == old(gruposUsuario)
                         && accionAbierta == old(accionAbierta) && fabAbierto == old(fabAbierto)
      ensures r.Ok? ==> && codigoIngreso == "" && vistaPrevia.None? && accionAbierta == "" && !fabAbierto
                        && ruta == Some("/grupos/" + r.value.codigo)
                        && (!Truthy(userId) ==> gruposUsuario == [] && error == old(error))
                        && (Truthy(userId) ==> var l := GroupsApi.ListarGruposDelUsuario(t, sesion);
                              if l.Ok? then gruposUsuario == l.value && error == old(error)
                              else gruposUsuario == old(gruposUsuario) && error == l.message)
      ensures userId == old(userId) && nombreUsuario == old(nombreUsuario) && nombreGrupo == old(nombreGrupo)
      ensures esPublicoNuevoGrupo == old(esPublicoNuevoGrupo)
    {
      if r.Err? {
        error := r.message;
        return;
      }
      codigoIngreso := "";
      vistaPrevia := None;
      accionAbierta := "";
      fabAbierto := false;
      CargarGrupos(t, sesion);
      ruta := Some("/grupos/" + r.value.codigo);
    }
  }
}
