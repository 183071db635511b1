/**
 * The older groups page `src/paginas/PaginaGrupos.jsx`: create and join
 * forms over the backend group service, and the code input with its preview.
 */
module GroupsPage {

  import opened JsText
  import GroupsApi

  const MensajeSinNombreUsuario: string := "Ingrese su nombre."
  const MensajeSinNombreGrupo: string := "Ingrese el nombre del grupo."
  const MensajeSinCodigo: string := "Ingrese el código del grupo."

  /** The two checks of each handler, in order: the user's name, then `campo`. */
  function Guarda(nombreUsuario: string, campo: string, sinCampo: string): (r: Option<string>)
    ensures r.None? <==> !Blank(nombreUsuario) && !Blank(campo)
    ensures Blank(nombreUsuario) ==> r == Some(MensajeSinNombreUsuario)
    ensures !Blank(nombreUsuario) && Blank(campo) ==> r == Some(sinCampo)
  {
    if Trim(nombreUsuario) == "" then Some(MensajeSinNombreUsuario)
    else if Trim(campo) == "" then Some(sinCampo)
    else None
  }

  class PaginaGrupos {
    var nombreUsuario: string
    var nombreGrupo: string
    var codigoIngreso: string
    var vistaPrevia: Option<GroupsApi.Grupo>
    var error: string

    constructor ()
      ensures nombreUsuario == "" && nombreGrupo == "" && codigoIngreso == "" && vistaPrevia.None? && error == ""
    {
      nombreUsuario, nombreGrupo, codigoIngreso, vistaPrevia, error := "", "", "", None, "";
    }

    /**
     * `manejarCrearGrupo`: after the checks, `crearGrupo` is called and the
     * new group opened (`abierto` is the code handed to `abrirGrupo`). A
     * rejected call is not caught: nothing is opened and `error` stays "".
     */
    method ManejarCrearGrupo(api: GroupsApi.Backend, sesion: GroupsApi.Sesion,
                             rng: nat -> nat, errores: nat -> Option<string>,
                             grupoId: string, miembroId: string, creadoEn: string, fecha: string)
      returns (llamada: Option<Result<GroupsApi.Grupo>>, abierto: Option<string>)
      requires GroupsApi.IdLibre(api.tablas, grupoId)
      modifies this, api
      ensures var g := Guarda(old(nombreUsuario), old(nombreGrupo), MensajeSinNombreGrupo);
        && (g.Some? ==> llamada.None? && abierto.None? && error == g.value && api.tablas == old(api.tablas))
        && (g.None? ==> && llamada.Some? && error == ""
                        && (llamada.value, api.tablas)
                           == GroupsApi.Creacion(old(api.tablas), old(nombreGrupo), old(nombreUsuario), sesion, rng, errores,
                                                 grupoId, miembroId, creadoEn, fecha))
      ensures llamada.Some? && llamada.value.Ok? ==> abierto == Some(llamada.value.value.codigo)
      ensures llamada.Some? && llamada.value.Err? ==> abierto.None?
      ensures nombreUsuario == old(nombreUsuario) && nombreGrupo == old(nombreGrupo)
      ensures codigoIngreso == old(codigoIngreso) && vistaPrevia == old(vistaPrevia)
    {
      var g := Guarda(nombreUsuario, nombreGrupo, MensajeSinNombreGrupo);
      if g.Some? {
        error := g.value;
        return None, None;
      }
      var r;
      r, abierto := EnviarCreacion(api, nombreGrupo, nombreUsuario, sesion, rng, errores, grupoId, miembroId, creadoEn, fecha);
      llamada := Some(r);
    }

    /** The call made once the checks pass, and the group it opens. */
    method EnviarCreacion(api: GroupsApi.Backend, nombre: string, usuario: string, sesion: GroupsApi.Sesion,
                          rng: nat -> nat, errores: nat -> Option<string>,
                          grupoId: string, miembroId: string, creadoEn: string, fecha: string)
      returns (r: Result<GroupsApi.Grupo>, abierto: Option<string>)
      requires GroupsApi.IdLibre(api.tablas, grupoId)
      modifies this, api
      ensures (r, api.tablas) == GroupsApi.Creacion(old(api.tablas), nombre, usuario, sesion, rng, errores,
                                                    grupoId, miembroId, creadoEn, fecha)
      ensures error == ""
      ensures r.Ok? ==> abierto == Some(r.value.codigo)
      ensures r.Err? ==> abierto.None?
      ensures nombreUsuario == old(nombreUsuario) && nombreGrupo == old(nombreGrupo)
      ensures codigoIngreso == old(codigoIngreso) && vistaPrevia == old(vistaPrevia)
    {
      error := "";
      abierto := None;
      r := api.CrearGrupo(nombre, usuario, sesion, rng, errores, grupoId, miembroId, creadoEn, fecha);
      if r.Ok? {
        abierto := Some(r.value.codigo);
      }
    }

    /** `manejarCambioCodigo(valor)`: upper-cases, then looks up the preview from four characters on. */
    method ManejarCambioCodigo(valor: string, api: GroupsApi.Backend)
      modifies this
      ensures codigoIngreso == ToUpper(valor)
      ensures |valor| >= 4 ==> vistaPrevia == GroupsApi.ObtenerVistaPreviaPorCodigo(api.tablas, ToUpper(valor))
      ensures |valor| < 4 ==> vistaPrevia.None?
      ensures nombreUsuario == old(nombreUsuario) && nombreGrupo == old(nombreGrupo) && error == old(error)
    {
      var codigo := ToUpper(valor);
      codigoIngreso := codigo;
      if |codigo| >= 4 {
        vistaPrevia := GroupsApi.ObtenerVistaPreviaPorCodigo(api.tablas, codigo);
      } else {
        vistaPrevia := None;
      }
    }

    /**
     * `manejarUnirse`: after the checks, `unirseAGrupoPorCodigo` is called;
     * success opens the group, failure shows its message and opens nothing.
     */
    method ManejarUnirse(api: GroupsApi.Backend, sesion: GroupsApi.Sesion, miembroId: string, fecha: string)
      returns (llamada: Option<Result<GroupsApi.Grupo>>, abierto: Option<string>)
      modifies this, api
      ensures var g := Guarda(old(nombreUsuario), old(codigoIngreso), MensajeSinCodigo);
        && (g.Some? ==> llamada.None? && abierto.None? && error == g.value && api.tablas == old(api.tablas))
        && (g.None? ==> llamada.Some?
                        && (llamada.value, api.tablas)
                           == GroupsApi.Unirse(old(api.tablas), old(codigoIngreso), old(nombreUsuario), sesion, miembroId, fecha))
      ensures llamada.Some? && llamada.value.Ok? ==> abierto == Some(llamada.value.value.codigo) && error == ""
      ensures llamada.Some? && llamada.value.Err? ==> abierto.None? && error == llamada.value.message
      ensures nombreUsuario == old(nombreUsuario) && nombreGrupo == old(nombreGrupo)
      ensures codigoIngreso == old(codigoIngreso) && vistaPrevia == old(vistaPrevia)
    {
      var g := Guarda(nombreUsuario, codigoIngreso, MensajeSinCodigo);
      if g.Some? {
        error := g.value;
        return None, None;
      }
      var r;
      r, abierto := EnviarUnion(api, codigoIngreso, nombreUsuario, sesion, miembroId, fecha);
      llamada := Some(r);
    }

    /** The call made once the checks pass, and what the page does with its answer. */
    method EnviarUnion(api: GroupsApi.Backend, codigo: string, nombre: string, sesion: GroupsApi.Sesion,
                       miembroId: string, fecha: string)
      returns (r: Result<GroupsApi.Grupo>, abierto: Option<string>)
      modifies this, api
      ensures (r, api.tablas) == GroupsApi.Unirse(old(api.tablas), codigo, nombre, sesion, miembroId, fecha)
      ensures r.Ok? ==> abierto == Some(r.value.codigo) && error == ""
      ensures r.Err? ==> abierto.None? && error == r.message
      ensures nombreUsuario == old(nombreUsuario) && nombreGrupo == old(nombreGrupo)
      ensures codigoIngreso == old(codigoIngreso) && vistaPrevia == old(vistaPrevia)
    {
      error := "";
      r := api.UnirseAGrupoPorCodigo(codigo, nombre, sesion, miembroId, fecha);
      abierto := TrasUnirse(r);
    }

    /** The answer of `unirseAGrupoPorCodigo`: open the group, or show the error. */
    method TrasUnirse(r: Result<GroupsApi.Grupo>) returns (abierto: Option<string>)
      modifies this
      ensures r.Ok? ==> abierto == Some(r.value.codigo) && error == old(error)
      ensures r.Err? ==> abierto.None? && error == r.message
      ensures nombreUsuario == old(nombreUsuario) && nombreGrupo == old(nombreGrupo)
      ensures codigoIngreso == old(codigoIngreso) && vistaPrevia == old(vistaPrevia)
    {
      if r.Ok? {
        abierto := Some(r.value.codigo);
      } else {
        abierto := None;
        error := r.message;
      }
    }
  }
}
