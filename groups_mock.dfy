/**
 * The in-memory group store used before the hosted backend: a list of
 * groups, each with a join code, its members and its activity (newest
 * first). The browser's `localStorage` copy is the field `grupos`; loading
 * and saving it are the identity. Fresh ids (`crypto.randomUUID`) and
 * timestamps (`new Date().toISOString()`) are parameters.
 */
module GroupsMock {

  import opened JsText
  import opened JoinCodes
  import Seqs

  datatype Miembro = Miembro(id: string, nombre: string)

  datatype Actividad = Actividad(mensaje: string, fecha: string)

  datatype Grupo = Grupo(
    id: string,
    nombre: string,
    codigo: string,
    miembros: seq<Miembro>,
    actividad: seq<Actividad>
  )

  const MensajeCodigoInexistente: string := "El código ingresado no existe."

  function Codigos(grupos: seq<Grupo>): set<string>
  {
    set i | 0 <= i < |grupos| :: grupos[i].codigo
  }

  /** No two groups of the store share a join code. */
  ghost predicate CodigosDistintos(grupos: seq<Grupo>)
  {
    forall i, j :: 0 <= i < j < |grupos| ==> grupos[i].codigo != grupos[j].codigo
  }

  /** `grupos.some(g => g.codigo === codigo)` */
  function EnUso(grupos: seq<Grupo>, codigo: string): (r: bool)
    ensures r <==> codigo in Codigos(grupos)
  {
    var r := Seqs.Any(grupos, (g: Grupo) => g.codigo == codigo);
    assert r <==> codigo in Codigos(grupos) by {
      if codigo in Codigos(grupos) {
        var i :| 0 <= i < |grupos| && grupos[i].codigo == codigo;
      }
    }
    r
  }

  /** `grupos.findIndex(g => g.codigo === codigo.trim().toUpperCase())` */
  function IndiceDeCodigo(grupos: seq<Grupo>, codigo: string): (r: int)
    ensures -1 <= r < |grupos|
    ensures r >= 0 ==> grupos[r].codigo == Normalizar(codigo)
    ensures r >= 0 ==> forall j :: 0 <= j < r ==> grupos[j].codigo != Normalizar(codigo)
    ensures r == -1 <==> Normalizar(codigo) !in Codigos(grupos)
  {
    var n := Normalizar(codigo);
    var r := Seqs.FindIndex(grupos, (g: Grupo) => g.codigo == n);
    assert r == -1 <==> n !in Codigos(grupos) by {
      if n in Codigos(grupos) {
        var i :| 0 <= i < |grupos| && grupos[i].codigo == n;
      }
    }
    r
  }

  /** The group `crearGrupo` builds once a free code is found. */
  function NuevoGrupo(id: string, nombreGrupo: string, codigo: string,
                      miembroId: string, nombreUsuario: string, fecha: string): Grupo
  {
    Grupo(id, Trim(nombreGrupo), codigo,
          [Miembro(miembroId, nombreUsuario)],
          [Actividad(nombreUsuario + " creó el grupo.", fecha)])
  }

  /** `m.nombre.toLowerCase() === nombreUsuario.toLowerCase()` */
  predicate MismoNombre(a: string, b: string)
  {
    ToLower(a) == ToLower(b)
  }

  /** `grupo.miembros.some(...)`: someone in the group already has that name, ignoring case. */
  function YaEsMiembro(g: Grupo, nombreUsuario: string): (r: bool)
    ensures r <==> exists k :: 0 <= k < |g.miembros| && MismoNombre(g.miembros[k].nombre, nombreUsuario)
  {
    Seqs.Any(g.miembros, (m: Miembro) => MismoNombre(m.nombre, nombreUsuario))
  }

  /** The group after a new member joins: appended to `miembros`, announced at the front of `actividad`. */
  function ConNuevoMiembro(g: Grupo, miembroId: string, nombreUsuario: string, fecha: string): Grupo
  {
    g.(miembros := g.miembros + [Miembro(miembroId, nombreUsuario)],
       actividad := [Actividad(nombreUsuario + " se unió al grupo.", fecha)] + g.actividad)
  }

  /** The outcome of `unirseAGrupoPorCodigo`: what it returns and the new store. */
  function Unirse(grupos: seq<Grupo>, codigo: string, nombreUsuario: string,
                  miembroId: string, fecha: string): (Result<Grupo>, seq<Grupo>)
  {
    var i := IndiceDeCodigo(grupos, codigo);
    if i == -1 then (Err(MensajeCodigoInexistente), grupos)
    else if YaEsMiembro(grupos[i], nombreUsuario) then (Ok(grupos[i]), grupos)
    else
      var g := ConNuevoMiembro(grupos[i], miembroId, nombreUsuario, fecha);
      (Ok(g), grupos[i := g])
  }

  /** An unknown code is an error and leaves the store unchanged. */
  lemma UnirseCodigoDesconocido(grupos: seq<Grupo>, codigo: string, nombreUsuario: string,
                                miembroId: string, fecha: string)
    requires Normalizar(codigo) !in Codigos(grupos)
    ensures Unirse(grupos, codigo, nombreUsuario, miembroId, fecha)
      == (Err("El código ingresado no existe."), grupos)
  {
  }

  /**
   * A new join changes only the group with that code: its members gain the
   * joiner at the end and its activity gains the join message at the front;
   * every other group, and every code, is as before.
   */
  lemma UnirseSoloCambiaSuGrupo(grupos: seq<Grupo>, codigo: string, nombreUsuario: string,
                                miembroId: string, fecha: string)
    requires Normalizar(codigo) in Codigos(grupos)
    ensures var (r, despues) := Unirse(grupos, codigo, nombreUsuario, miembroId, fecha);
      var i := IndiceDeCodigo(grupos, codigo);
      && r.Ok? && r.value == despues[i]
      && |despues| == |grupos|
      && (forall j :: 0 <= j < |grupos| && j != i ==> despues[j] == grupos[j])
      && Codigos(despues) == Codigos(grupos)
      && (YaEsMiembro(grupos[i], nombreUsuario) ==> despues == grupos)
      && (!YaEsMiembro(grupos[i], nombreUsuario) ==>
            && despues[i].miembros == grupos[i].miembros + [Miembro(miembroId, nombreUsuario)]
            && despues[i].actividad[0] == Actividad(nombreUsuario + " se unió al grupo.", fecha)
            && despues[i].actividad[1..] == grupos[i].actividad
            && despues[i].(miembros := grupos[i].miembros, actividad := grupos[i].actividad) == grupos[i])
  {
    var i := IndiceDeCodigo(grupos, codigo);
    var despues := Unirse(grupos, codigo, nombreUsuario, miembroId, fecha).1;
    assert forall j :: 0 <= j < |grupos| ==> despues[j].codigo == grupos[j].codigo;
    assert Codigos(despues) == Codigos(grupos) by {
      forall c | c in Codigos(despues) ensures c in Codigos(grupos) {
        var j :| 0 <= j < |despues| && despues[j].codigo == c;
        assert grupos[j].codigo == c;
      }
      forall c | c in Codigos(grupos) ensures c in Codigos(despues) {
        var j :| 0 <= j < |grupos| && grupos[j].codigo == c;
        assert despues[j].codigo == c;
      }
    }
  }

  /**
   * Joining is idempotent: once a name has joined, joining again with the
   * same name (in any ASCII case) returns the same group and changes nothing.
   */
  lemma UnirseIdempotente(grupos: seq<Grupo>, codigo: string, nombreUsuario: string,
                          otroNombre: string, miembroId: string, otroId: string,
                          fecha: string, otraFecha: string)
    requires MismoNombre(nombreUsuario, otroNombre)
    ensures var (r1, g1) := Unirse(grupos, codigo, nombreUsuario, miembroId, fecha);
      var (r2, g2) := Unirse(g1, codigo, otroNombre, otroId, otraFecha);
      g2 == g1 && r2 == r1
  {
    var i := IndiceDeCodigo(grupos, codigo);
    var (r1, g1) := Unirse(grupos, codigo, nombreUsuario, miembroId, fecha);
    if i != -1 {
      if !YaEsMiembro(grupos[i], nombreUsuario) {
        UnirseSoloCambiaSuGrupo(grupos, codigo, nombreUsuario, miembroId, fecha);
        var ms := g1[i].miembros;
        assert ms[|ms| - 1].nombre == nombreUsuario;
      }
      assert IndiceDeCodigo(g1, codigo) == i by {
        assert forall j :: 0 <= j < |grupos| ==> g1[j].codigo == grupos[j].codigo;
      }
      var ms := g1[i].miembros;
      assert exists k :: 0 <= k < |ms| && MismoNombre(ms[k].nombre, otroNombre);
    }
  }

  /** A new group's code is fresh, so the store keeps its codes distinct. */
  lemma CrearMantieneCodigosDistintos(grupos: seq<Grupo>, g: Grupo)
    requires CodigosDistintos(grupos)
    requires g.codigo !in Codigos(grupos)
    ensures CodigosDistintos(grupos + [g])
  {
    forall i, j | 0 <= i < j < |grupos| + 1
      ensures (grupos + [g])[i].codigo != (grupos + [g])[j].codigo
    {
      if j == |grupos| {
        assert grupos[i].codigo in Codigos(grupos);
      }
    }
  }

  /** The store; `grupos` stands for the `localStorage` entry `flux_grupos_mock`. */
  class Almacen {
    var grupos: seq<Grupo>

    /** An empty storage entry reads as `[]`. */
    constructor ()
      ensures grupos == []
    {
      grupos := [];
    }

    /**
     * `crearGrupo`: draw codes until one is not in use, then append the new
     * group. The `while` loop ends because the random stream is assumed to
     * produce, at some call, a code that is free (with 36^6 codes and a
     * finite store this happens with probability one).
     */
    method CrearGrupo(nombreGrupo: string, nombreUsuario: string, rng: nat -> nat,
                      grupoId: string, miembroId: string, fecha: string) returns (grupo: Grupo)
      requires exists n: nat :: RoundCode(rng, n) !in Codigos(grupos)
      modifies this
      ensures grupo.codigo !in Codigos(old(grupos))
      ensures IsCode(grupo.codigo, 6)
      ensures exists n: nat :: grupo.codigo == RoundCode(rng, n)
                && forall k: nat :: k < n ==> RoundCode(rng, k) in Codigos(old(grupos))
      ensures grupo == NuevoGrupo(grupoId, nombreGrupo, grupo.codigo, miembroId, nombreUsuario, fecha)
      ensures grupos == old(grupos) + [grupo]
      ensures CodigosDistintos(old(grupos)) ==> CodigosDistintos(grupos)
    {
      var actuales := grupos;
      ghost var libre: nat :| RoundCode(rng, libre) !in Codigos(actuales);
      var ronda: nat := 0;
      var codigo := GenerarCodigo(LongitudPorDefecto, rng, 0);
      while EnUso(actuales, codigo)
        invariant codigo == RoundCode(rng, ronda)
        invariant forall k: nat :: k < ronda ==> RoundCode(rng, k) in Codigos(actuales)
        invariant ronda <= libre
        decreases libre - ronda
      {
        ronda := ronda + 1;
        codigo := GenerarCodigo(LongitudPorDefecto, rng, LongitudPorDefecto * ronda);
      }
      grupo := Grupo(grupoId, Trim(nombreGrupo), codigo,
                     [Miembro(miembroId, nombreUsuario)],
                     [Actividad(nombreUsuario + " creó el grupo.", fecha)]);
      if CodigosDistintos(actuales) {
        CrearMantieneCodigosDistintos(actuales, grupo);
      }
      grupos := actuales + [grupo];
    }

    /** `obtenerVistaPreviaPorCodigo`: the first group with the normalised code, else `null`. */
    function ObtenerVistaPreviaPorCodigo(codigo: string): (r: Option<Grupo>)
      reads this
      ensures r.Some? <==> Normalizar(codigo) in Codigos(grupos)
      ensures r.Some? ==> r.value.codigo == Normalizar(codigo)
      ensures r.Some? ==>
                exists i :: 0 <= i < |grupos| && grupos[i] == r.value
                  && forall j :: 0 <= j < i ==> grupos[j].codigo != Normalizar(codigo)
    {
      var i := IndiceDeCodigo(grupos, codigo);
      if i == -1 then None else Some(grupos[i])
    }

    /**
     * `unirseAGrupoPorCodigo`: find the group by normalised code, and unless
     * someone with the same name (ignoring case) is already a member, append
     * the member, put the join message first and store the group back.
     */
    method UnirseAGrupoPorCodigo(codigo: string, nombreUsuario: string,
                                 miembroId: string, fecha: string) returns (r: Result<Grupo>)
      modifies this
      ensures (r, grupos) == Unirse(old(grupos), codigo, nombreUsuario, miembroId, fecha)
    {
      var indice := IndiceDeCodigo(grupos, codigo);
      if indice == -1 {
        return Err(MensajeCodigoInexistente);
      }
      var grupo := grupos[indice];
      var existe := YaEsMiembro(grupo, nombreUsuario);
      if !existe {
        grupo := grupo.(miembros := grupo.miembros + [Miembro(miembroId, nombreUsuario)]);
        grupo := grupo.(actividad := [Actividad(nombreUsuario + " se unió al grupo.", fecha)] + grupo.actividad);
        grupos := grupos[indice := grupo];
      }
      r := Ok(grupo);
    }
  }
}
