/**
 * How the pieces fit together: the group detail page reads the group that
 * `obtenerVistaPreviaPorCodigo` returns (through `mapearGrupo`), and the
 * realtime toast of the home page reads the activity rows the service
 * writes. The lemmas here follow the service's rows into those readers.
 */
module Mismatches {
  import opened JsText
  import Seqs
  import GroupsApi
  import JoinCodes
  import GroupDetail
  import HomePage

  // ---------------------------------------------------------------------
  // The detail page's view of a mapped group.
  // ---------------------------------------------------------------------

  function MiembroVisto(m: GroupsApi.Miembro): GroupDetail.Miembro
  {
    GroupDetail.Miembro(Str(m.nombre), Str(m.userId))
  }

  function EntradaVista(a: GroupsApi.Actividad): GroupDetail.Entrada
  {
    GroupDetail.Entrada(Str(a.mensaje), Undefined, Str(a.fecha))
  }

  /**
   * The object `setGrupo` receives: `mapearGrupo` keeps `user_id` and the
   * display name of each member, only `mensaje` and `fecha` of each
   * activity row, and no `creadorId`, so `a.actor_id` and
   * `grupo.creadorId` read as `undefined`.
   */
  function AVista(g: GroupsApi.Grupo): (v: GroupDetail.Vista)
    ensures v.id == Str(g.id) && v.creadorId == Undefined
    ensures |v.miembros| == |g.miembros| && |v.actividad| == |g.actividad|
    ensures forall i :: 0 <= i < |v.miembros| ==> v.miembros[i].userId.Str?
    ensures forall i :: 0 <= i < |v.actividad| ==>
              v.actividad[i].actorId == Undefined && v.actividad[i].mensaje == Str(g.actividad[i].mensaje)
  {
    GroupDetail.Vista(Str(g.id), Seqs.Map(g.miembros, MiembroVisto), Seqs.Map(g.actividad, EntradaVista), Undefined)
  }

  /** Nobody can publish an announcement on a mapped group: it has no creator id. */
  lemma AnuncioSiempreRechazado(g: GroupsApi.Grupo, userId: JsId, nuevoAnuncio: string)
    ensures !GroupDetail.PuedePublicarAnuncio(userId, Some(AVista(g)))
    ensures g.id != "" ==> GroupDetail.PublicarAnuncio(userId, Some(AVista(g)), nuevoAnuncio)
                           == GroupDetail.Rechazada("Solo el creador del grupo puede publicar anuncios.")
  {
  }

  /** No row of a mapped group finds its author by id: the actor is `undefined` and every member id a string. */
  lemma SinAutorPorId(g: GroupsApi.Grupo, a: GroupDetail.Entrada)
    requires a in AVista(g).actividad
    ensures GroupDetail.AutorPorId(AVista(g).miembros, a.actorId) == Undefined
  {
    var v := AVista(g);
    var k :| 0 <= k < |v.actividad| && v.actividad[k] == a;
    assert a.actorId == Undefined;
  }

  /** The stream of a mapped group does not depend on its members. */
  lemma StreamSinMiembros(g: GroupsApi.Grupo, otros: seq<GroupsApi.Miembro>)
    ensures GroupDetail.StreamItems(Some(AVista(g))) == GroupDetail.StreamItems(Some(AVista(g.(miembros := otros))))
  {
    var v1, v2 := AVista(g), AVista(g.(miembros := otros));
    assert v1.actividad == v2.actividad;
    var kept := Seqs.Filter(v1.actividad, GroupDetail.SeMuestra);
    var f1 := (a: GroupDetail.Entrada) => GroupDetail.Clasificar(v1.miembros, a);
    var f2 := (a: GroupDetail.Entrada) => GroupDetail.Clasificar(v2.miembros, a);
    forall i | 0 <= i < |kept|
      ensures f1(kept[i]) == f2(kept[i])
    {
      SinAutorPorId(g, kept[i]);
      SinAutorPorId(g.(miembros := otros), kept[i]);
    }
    assert Seqs.Map(kept, f1) == Seqs.Map(kept, f2);
  }

  // ---------------------------------------------------------------------
  // The join entry "{nombre} se unio al grupo."
  // ---------------------------------------------------------------------

  /** No non-empty proper suffix of `p` begins `b`: an occurrence of `p` cannot straddle a boundary before `b`. */
  predicate SinCruce(b: string, p: string)
  {
    forall l :: 1 <= l < |p| && l <= |b| ==> b[..l] != p[|p| - l..]
  }

  /** A string starts with `t` after `b` is appended only if it did before, when `b` begins with a character `t` lacks. */
  lemma EmpiezaAntesDe(n: string, b: string, t: string)
    requires b != [] && b[0] !in t
    ensures StartsWith(n + b, t) <==> StartsWith(n, t)
  {
    var s := n + b;
    if |t| <= |n| {
      assert s[..|t|] == n[..|t|];
    } else if |t| <= |s| {
      assert s[..|t|][|n|] == b[0];
    }
  }

  lemma SinTagTrasNombre(nombre: string, sufijo: string)
    requires sufijo != [] && sufijo[0] == ' '
    ensures GroupDetail.EmpiezaConTag(nombre + sufijo) <==> GroupDetail.EmpiezaConTag(nombre)
  {
    EmpiezaAntesDe(nombre, sufijo, GroupDetail.TagAnuncio);
    EmpiezaAntesDe(nombre, sufijo, GroupDetail.TagArchivo);
    EmpiezaAntesDe(nombre, sufijo, GroupDetail.TagRenombre);
    EmpiezaAntesDe(nombre, sufijo, GroupDetail.TagVisibilidad);
  }

  /**
   * In `p` the spaces sit at `e1` and `e2` only; a suffix of `p` that starts
   * with a space and the same second character as `b` therefore cannot be
   * a prefix of `b` when `b[1]` differs from `p[e1 + 1]` and `p[e2 + 1]`.
   */
  lemma SinCruceEspacios(b: string, p: string, e1: nat, e2: nat)
    requires |b| >= 2 && b[0] == ' '
    requires e1 + 1 < |p| && e2 + 1 < |p|
    requires forall i :: 0 <= i < |p| && i != e1 && i != e2 ==> p[i] != ' '
    requires b[1] != p[e1 + 1] && b[1] != p[e2 + 1]
    ensures SinCruce(b, p)
  {
    forall l | 1 <= l < |p| && l <= |b|
      ensures b[..l] != p[|p| - l..]
    {
      var i := |p| - l;
      if i != e1 && i != e2 {
        assert b[..l][0] != p[i..][0];
      } else {
        assert b[..l][1] != p[i..][1];
      }
    }
  }

  lemma SinCruceUnion()
    ensures SinCruce(GroupsApi.SeUnioAlGrupo, GroupDetail.SeHaUnido)
  {
    var p := GroupDetail.SeHaUnido;
    assert forall i :: 0 <= i < |p| && i != 2 && i != 5 ==> p[i] != ' ';
    SinCruceEspacios(GroupsApi.SeUnioAlGrupo, p, 2, 5);
  }

  lemma SinCruceCreacion(b: string)
    requires |b| >= 2 && b[0] == ' ' && b[1] != 'e' && b[1] != 'g'
    ensures SinCruce(b, "creo el grupo") && SinCruce(b, "creó el grupo")
  {
    var p, q := "creo el grupo", "creó el grupo";
    assert forall i :: 0 <= i < |p| && i != 4 && i != 7 ==> p[i] != ' ';
    assert forall i :: 0 <= i < |q| && i != 4 && i != 7 ==> q[i] != ' ';
    SinCruceEspacios(b, p, 4, 7);
    SinCruceEspacios(b, q, 4, 7);
  }

  /** The join entry contains "se ha unido" only if the name does. */
  lemma UnionSinSeHaUnido(nombre: string)
    requires !Includes(nombre, GroupDetail.SeHaUnido)
    ensures !Includes(nombre + GroupsApi.SeUnioAlGrupo, GroupDetail.SeHaUnido)
  {
    NotIncludesMissingChar(GroupsApi.SeUnioAlGrupo, GroupDetail.SeHaUnido, 3);
    SinCruceUnion();
    NotIncludesConcat(nombre, GroupsApi.SeUnioAlGrupo, GroupDetail.SeHaUnido);
  }

  /** The join entry reads as a creation only if the name does. */
  lemma UnionSinCreacion(nombre: string)
    requires !GroupDetail.EsCreacion(nombre)
    ensures !GroupDetail.EsCreacion(nombre + GroupsApi.SeUnioAlGrupo)
  {
    var b := GroupsApi.SeUnioAlGrupo;
    NotIncludesMissingChar(b, "creo el grupo", 0);
    NotIncludesMissingChar(b, "creó el grupo", 0);
    SinCruceCreacion(b);
    NotIncludesConcat(nombre, b, "creo el grupo");
    NotIncludesConcat(nombre, b, "creó el grupo");
  }

  /**
   * The service logs a join as `"{nombre} se unio al grupo."`, which the
   * detail page's filter (a tag, "se ha unido" or "creo el grupo") does not
   * keep, whenever the name itself would not be kept.
   */
  lemma UnionDelServicioOculta(nombre: string, actorId: JsId, fecha: JsId)
    requires !GroupDetail.SeMuestra(GroupDetail.Entrada(Str(nombre), actorId, fecha))
    ensures !GroupDetail.SeMuestra(GroupDetail.Entrada(Str(nombre + GroupsApi.SeUnioAlGrupo), actorId, fecha))
  {
    SinTagTrasNombre(nombre, GroupsApi.SeUnioAlGrupo);
    UnionSinSeHaUnido(nombre);
    UnionSinCreacion(nombre);
  }

  /** Without "se ha unido" there is no "se ha unido a tu grupo" either. */
  lemma SinAvisoDeUnion(msg: string)
    requires !Includes(msg, GroupDetail.SeHaUnido)
    ensures !Includes(msg, HomePage.SeHaUnidoATuGrupo)
  {
    assert HomePage.SeHaUnidoATuGrupo == GroupDetail.SeHaUnido + " a tu grupo";
    if Includes(msg, HomePage.SeHaUnidoATuGrupo) {
      IncludesPrefixOfPattern(msg, GroupDetail.SeHaUnido, " a tu grupo");
    }
  }

  /**
   * The home page's toast looks for "se ha unido a tu grupo", which the
   * service's join entry never contains when the name does not contain
   * "se ha unido".
   */
  lemma ToastNuncaPorUnion(nombre: string, actorId: JsId, userId: JsId)
    requires !Includes(nombre, GroupDetail.SeHaUnido)
    ensures !HomePage.DisparaToast(Str(nombre + GroupsApi.SeUnioAlGrupo), actorId, userId)
  {
    UnionSinSeHaUnido(nombre);
    SinAvisoDeUnion(nombre + GroupsApi.SeUnioAlGrupo);
  }

  /**
   * A successful first join adds a member and an entry, yet the detail
   * page's stream of the returned group is the stream it had before.
   */
  lemma UnirseNoCambiaStream(t: GroupsApi.Tablas, codigo: string, nombreUsuario: string, userId: string,
                             miembroId: string, fecha: string, i: nat)
    requires GroupsApi.Consistente(t)
    requires i < |t.grupos| && t.grupos[i].codigo == JoinCodes.Normalizar(codigo)
    requires !GroupsApi.EsMiembro(t, t.grupos[i].id, userId)
    requires !GroupDetail.SeMuestra(GroupDetail.Entrada(Str(Trim(nombreUsuario)), Undefined, Str(fecha)))
    ensures var r := GroupsApi.Unirse(t, codigo, nombreUsuario, GroupsApi.Usuario(userId), miembroId, fecha).0;
      && r.Ok?
      && GroupDetail.StreamItems(Some(AVista(r.value)))
         == GroupDetail.StreamItems(Some(AVista(GroupsApi.VistaDe(t, t.grupos[i]))))
  {
    GroupsApi.UnirseNuevoMiembro(t, codigo, nombreUsuario, userId, miembroId, fecha, i);
    var r := GroupsApi.Unirse(t, codigo, nombreUsuario, GroupsApi.Usuario(userId), miembroId, fecha).0;
    StreamTrasUnion(GroupsApi.VistaDe(t, t.grupos[i]), r.value, Trim(nombreUsuario), fecha);
  }

  /** A group whose activity gained a hidden join entry in front has the stream it had before, whatever its members. */
  lemma StreamTrasUnion(antes: GroupsApi.Grupo, despues: GroupsApi.Grupo, nombre: string, fecha: string)
    requires despues.actividad == [GroupsApi.Actividad(nombre + GroupsApi.SeUnioAlGrupo, fecha)] + antes.actividad
    requires !GroupDetail.SeMuestra(GroupDetail.Entrada(Str(nombre), Undefined, Str(fecha)))
    ensures GroupDetail.StreamItems(Some(AVista(despues))) == GroupDetail.StreamItems(Some(AVista(antes)))
  {
    var a := GroupsApi.Actividad(nombre + GroupsApi.SeUnioAlGrupo, fecha);
    StreamSinMiembros(despues, antes.miembros);
    UnionDelServicioOculta(nombre, Undefined, Str(fecha));
    StreamTrasOculta(antes, despues.(miembros := antes.miembros), a);
  }

  /** A hidden row in front of a mapped group's activity leaves its stream unchanged. */
  lemma StreamTrasOculta(antes: GroupsApi.Grupo, despues: GroupsApi.Grupo, a: GroupsApi.Actividad)
    requires despues.miembros == antes.miembros && despues.actividad == [a] + antes.actividad
    requires !GroupDetail.SeMuestra(EntradaVista(a))
    ensures GroupDetail.StreamItems(Some(AVista(despues))) == GroupDetail.StreamItems(Some(AVista(antes)))
  {
    var v1, v2 := AVista(antes), AVista(despues);
    assert v2.miembros == v1.miembros;
    Seqs.MapAppend([a], antes.actividad, EntradaVista);
    assert v2.actividad == [EntradaVista(a)] + v1.actividad;
    Seqs.FilterAppend([EntradaVista(a)], v1.actividad, GroupDetail.SeMuestra);
    assert Seqs.Filter([EntradaVista(a)], GroupDetail.SeMuestra) == [];
  }

  // ---------------------------------------------------------------------
  // The creation entry "{nombre} creo el grupo."
  // ---------------------------------------------------------------------

  /** The creation entry contains "se ha unido" only if the name does. */
  lemma CreacionSinSeHaUnido(nombre: string)
    requires !Includes(nombre, GroupDetail.SeHaUnido)
    ensures !Includes(nombre + GroupsApi.CreoElGrupo, GroupDetail.SeHaUnido)
  {
    NotIncludesMissingChar(GroupsApi.CreoElGrupo, GroupDetail.SeHaUnido, 3);
    SinCruceCreacionUnion();
    NotIncludesConcat(nombre, GroupsApi.CreoElGrupo, GroupDetail.SeHaUnido);
  }

  lemma SinCruceCreacionUnion()
    ensures SinCruce(GroupsApi.CreoElGrupo, GroupDetail.SeHaUnido)
  {
    var p := GroupDetail.SeHaUnido;
    assert forall i :: 0 <= i < |p| && i != 2 && i != 5 ==> p[i] != ' ';
    SinCruceEspacios(GroupsApi.CreoElGrupo, p, 2, 5);
  }

  /** Whatever the name, the creation entry reads as a creation. */
  lemma CreacionSeReconoce(nombre: string)
    ensures GroupDetail.EsCreacion(nombre + GroupsApi.CreoElGrupo)
  {
    var b := GroupsApi.CreoElGrupo;
    assert StartsWith(b[1..], "creo el grupo");
    StartsWithIncludes(b[1..], "creo el grupo");
    assert [b[0]] + b[1..] == b;
    IncludesInSuffix([b[0]], b[1..], "creo el grupo");
    IncludesInSuffix(nombre, b, "creo el grupo");
  }

  /**
   * The service logs a creation as `"{nombre} creo el grupo."`; the detail
   * page keeps it and shows it as a plain `sistema` line with the raw text,
   * when the name is neither tagged nor contains "se ha unido".
   */
  lemma CreacionDelServicioEsSistema(miembros: seq<GroupDetail.Miembro>, nombre: string, actorId: JsId, fecha: JsId)
    requires !GroupDetail.EmpiezaConTag(nombre) && !Includes(nombre, GroupDetail.SeHaUnido)
    ensures var a := GroupDetail.Entrada(Str(nombre + GroupsApi.CreoElGrupo), actorId, fecha);
      && GroupDetail.SeMuestra(a)
      && GroupDetail.Clasificar(miembros, a).tipo == GroupDetail.Sistema
      && GroupDetail.Clasificar(miembros, a).texto == nombre + GroupsApi.CreoElGrupo
  {
    SinTagTrasNombre(nombre, GroupsApi.CreoElGrupo);
    CreacionSinSeHaUnido(nombre);
    CreacionSeReconoce(nombre);
    GroupDetail.CreacionEsSistema(miembros, GroupDetail.Entrada(Str(nombre + GroupsApi.CreoElGrupo), actorId, fecha));
  }
}
