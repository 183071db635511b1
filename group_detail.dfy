/**
 * The rules of the group page: how the activity rows of a group are turned
 * into the stream shown to its members (tagged messages, join and creation
 * messages, the author fallback chain), the announcement encoding, the
 * upload file filter, the storage path of an uploaded file and the upload
 * handler's state changes.
 */
module GroupDetail {

  import opened JsText
  import Seqs

  /** A member as the page reads it: `m.nombre` and `m.user_id`, each possibly missing or `null`. */
  datatype Miembro = Miembro(nombre: JsId, userId: JsId)

  /** An activity row: `a.mensaje`, `a.actor_id` (missing once mapped by the service) and `a.fecha`. */
  datatype Entrada = Entrada(mensaje: JsId, actorId: JsId, fecha: JsId)

  /** The group record the page holds (`grupo`), as far as these rules use it. */
  datatype Vista = Vista(id: JsId, miembros: seq<Miembro>, actividad: seq<Entrada>, creadorId: JsId)

  datatype Tipo = Anuncio | Archivo | Renombre | Visibilidad | Union | Sistema

  datatype Item = Item(tipo: Tipo, autor: string, fecha: JsId, texto: string)

  const TagAnuncio: string := "ANUNCIO::"
  const TagArchivo: string := "ARCHIVO::"
  const TagRenombre: string := "RENOMBRE::"
  const TagVisibilidad: string := "VISIBILIDAD::"

  const SeHaUnido: string := "se ha unido"

  /** `${a.mensaje || ""}` */
  function Texto(mensaje: JsId): string
  {
    if mensaje.Str? then mensaje.s else ""
  }

  /** `v || d` where `v` is a field value and `d` a non-empty default. */
  function OrId(v: JsId, d: string): (r: string)
    ensures Truthy(v) ==> r == v.s
    ensures !Truthy(v) ==> r == d
  {
    if Truthy(v) then v.s else d
  }

  /** `v || d` where `v` is an optional string (the `?.` chain gives `undefined`). */
  function OrText(v: Option<string>, d: string): (r: string)
    ensures Present(v) ==> r == v.value
    ensures !Present(v) ==> r == d
  {
    if Present(v) then v.value else d
  }

  /** `grupo?.actividad || []` */
  function Actividad(grupo: Option<Vista>): seq<Entrada>
  {
    if grupo.Some? then grupo.value.actividad else []
  }

  function Miembros(grupo: Option<Vista>): seq<Miembro>
  {
    if grupo.Some? then grupo.value.miembros else []
  }

  /** `grupo?.miembros?.find(m => m.user_id === a.actor_id)?.nombre` */
  function AutorPorId(miembros: seq<Miembro>, actorId: JsId): (r: JsId)
    ensures r != Undefined ==> exists k :: 0 <= k < |miembros| && miembros[k].userId == actorId
    ensures (forall k :: 0 <= k < |miembros| ==> miembros[k].userId != actorId) ==> r == Undefined
    ensures (exists k :: 0 <= k < |miembros| && miembros[k].userId == actorId) ==>
              exists k :: && 0 <= k < |miembros| && miembros[k].userId == actorId
                          && (forall j :: 0 <= j < k ==> miembros[j].userId != actorId)
                          && r == miembros[k].nombre
  {
    var i := Seqs.FindIndex(miembros, (m: Miembro) => m.userId == actorId);
    if i == -1 then Undefined else miembros[i].nombre
  }

  // ---------------------------------------------------------------------
  // The author taken from the text: `msg.match(/^(.+?)\sse ha unido/i)?.[1]?.trim()`.
  // `.` matches any character but a line terminator, `\s` one whitespace
  // character; with the `i` flag the ASCII letters of the literal match in
  // either case and nothing else does. The lazy group is the shortest one.
  // ---------------------------------------------------------------------

  /** The regular expression matches with its group being `msg[..k]`. */
  predicate UnionAt(msg: string, k: nat)
  {
    && 1 <= k && k + 12 <= |msg|
    && (forall i :: 0 <= i < k ==> !IsLineTerminator(msg[i]))
    && IsWhite(msg[k])
    && ToLower(msg[k + 1..k + 12]) == SeHaUnido
  }

  /** The shortest group end at or after `k`, if any. */
  function BuscarUnion(msg: string, k: nat): (r: Option<nat>)
    requires 1 <= k
    requires forall i :: 0 <= i < k - 1 && i < |msg| ==> !IsLineTerminator(msg[i])
    ensures r.Some? ==> k <= r.value && UnionAt(msg, r.value)
    ensures r.Some? ==> forall j :: k <= j < r.value ==> !UnionAt(msg, j)
    ensures r.None? ==> forall j :: k <= j ==> !UnionAt(msg, j)
    decreases |msg| - k
  {
    if k + 12 > |msg| then None
    else if IsLineTerminator(msg[k - 1]) then
      CorteDeLinea(msg, k);
      None
    else if IsWhite(msg[k]) && ToLower(msg[k + 1..k + 12]) == SeHaUnido then Some(k)
    else
      assert !UnionAt(msg, k);
      assert forall i :: 0 <= i < k && i < |msg| ==> !IsLineTerminator(msg[i]);
      BuscarUnion(msg, k + 1)
  }

  /** `.` does not cross a line terminator, so no group ends past one. */
  lemma CorteDeLinea(msg: string, k: nat)
    requires 1 <= k <= |msg| && IsLineTerminator(msg[k - 1])
    ensures forall j :: k <= j ==> !UnionAt(msg, j)
  {
  }

  function AutorPorTexto(msg: string): (r: Option<string>)
    ensures r.Some? ==> exists k: nat :: UnionAt(msg, k) && r.value == Trim(msg[..k])
                          && forall j :: 1 <= j < k ==> !UnionAt(msg, j)
    ensures r.None? <==> forall k: nat :: !UnionAt(msg, k)
  {
    match BuscarUnion(msg, 1)
    case None => None
    case Some(k) => Some(Trim(msg[..k]))
  }

  // ---------------------------------------------------------------------
  // The stream.
  // ---------------------------------------------------------------------

  predicate EmpiezaConTag(msg: string)
  {
    || StartsWith(msg, TagAnuncio) || StartsWith(msg, TagArchivo)
    || StartsWith(msg, TagRenombre) || StartsWith(msg, TagVisibilidad)
  }

  predicate EsCreacion(msg: string)
  {
    Includes(msg, "creo el grupo") || Includes(msg, "creó el grupo")
  }

  /** The filter of `streamItems`. */
  predicate SeMuestra(a: Entrada)
  {
    var msg := Texto(a.mensaje);
    EmpiezaConTag(msg) || Includes(msg, SeHaUnido) || EsCreacion(msg)
  }

  /**
   * The item built for one kept row (the `map` of `streamItems`): the tag
   * checks come first, in the order ANUNCIO, ARCHIVO, RENOMBRE, VISIBILIDAD.
   */
  function Clasificar(miembros: seq<Miembro>, a: Entrada): Item
  {
    var msg := Texto(a.mensaje);
    var porId := AutorPorId(miembros, a.actorId);
    if EmpiezaConTag(msg) then ItemDeTag(TipoDeTag(msg), porId, a.fecha, msg)
    else ItemSinTag(porId, a.fecha, msg)
  }

  /** A tagged row: the tag is stripped and the author falls back to "Creador" or "Sistema". */
  function ItemDeTag(t: Tipo, porId: JsId, fecha: JsId, msg: string): Item
  {
    Item(t, AutorDeTag(t, porId), fecha, ReplaceFirst(msg, Tag(t), ""))
  }

  /** An untagged row: a join if it says "se ha unido", otherwise a system line with the raw text. */
  function ItemSinTag(porId: JsId, fecha: JsId, msg: string): Item
  {
    var autor := OrId(porId, OrText(AutorPorTexto(msg), "Sistema"));
    if Includes(msg, SeHaUnido) then Item(Union, autor, fecha, autor + " se unió al grupo")
    else Item(Sistema, autor, fecha, msg)
  }

  function ItemsDe(miembros: seq<Miembro>, filas: seq<Entrada>): seq<Item>
  {
    Seqs.Map(Seqs.Filter(filas, SeMuestra), (a: Entrada) => Clasificar(miembros, a))
  }

  /** `streamItems` */
  function StreamItems(grupo: Option<Vista>): seq<Item>
  {
    ItemsDe(Miembros(grupo), Actividad(grupo))
  }

  /** One row contributes one item when it is shown and none otherwise. */
  lemma ItemsDeUno(miembros: seq<Miembro>, a: Entrada)
    ensures SeMuestra(a) ==> ItemsDe(miembros, [a]) == [Clasificar(miembros, a)]
    ensures !SeMuestra(a) ==> ItemsDe(miembros, [a]) == []
  {
    assert [a][1..] == [];
  }

  /**
   * The stream of a concatenation is the concatenation of the streams, so
   * (with `ItemsDeUno`) kept rows appear in input order, one item each.
   */
  lemma ItemsDeConcat(miembros: seq<Miembro>, a: seq<Entrada>, b: seq<Entrada>)
    ensures ItemsDe(miembros, a + b) == ItemsDe(miembros, a) + ItemsDe(miembros, b)
  {
    Seqs.FilterAppend(a, b, SeMuestra);
    Seqs.MapAppend(Seqs.Filter(a, SeMuestra), Seqs.Filter(b, SeMuestra), (e: Entrada) => Clasificar(miembros, e));
  }

  /** No group, no stream. */
  lemma StreamSinGrupo()
    ensures StreamItems(None) == []
  {
  }

  /** The tag of a message decides its kind, in the order of the checks; a tagged message is never a join. */
  function TipoDeTag(msg: string): (t: Tipo)
    requires EmpiezaConTag(msg)
    ensures t != Union && t != Sistema
    ensures t == Anuncio <==> StartsWith(msg, TagAnuncio)
  {
    if StartsWith(msg, TagAnuncio) then Anuncio
    else if StartsWith(msg, TagArchivo) then Archivo
    else if StartsWith(msg, TagRenombre) then Renombre
    else Visibilidad
  }

  lemma TagPrecede(miembros: seq<Miembro>, a: Entrada)
    requires EmpiezaConTag(Texto(a.mensaje))
    ensures SeMuestra(a)
    ensures Clasificar(miembros, a).tipo == TipoDeTag(Texto(a.mensaje))
    ensures Clasificar(miembros, a).tipo != Union
  {
  }

  /** The author of a tagged item: the member found by id, else "Creador" or "Sistema". */
  function AutorDeTag(t: Tipo, porId: JsId): string
  {
    OrId(porId, if t == Anuncio then "Creador" else "Sistema")
  }

  function Tag(t: Tipo): string
  {
    match t
    case Anuncio => TagAnuncio
    case Archivo => TagArchivo
    case Renombre => TagRenombre
    case Visibilidad => TagVisibilidad
    case _ => ""
  }

  /** A row `TAG + t` becomes an item of that tag's kind whose text is exactly `t`. */
  lemma TextoDeTag(miembros: seq<Miembro>, t: Tipo, texto: string, actorId: JsId, fecha: JsId)
    requires t != Union && t != Sistema
    requires t != Anuncio ==> !StartsWith(Tag(t) + texto, TagAnuncio)
    ensures var it := Clasificar(miembros, Entrada(Str(Tag(t) + texto), actorId, fecha));
      && it.tipo == t
      && it.texto == texto
      && it.autor == AutorDeTag(t, AutorPorId(miembros, actorId))
      && it.fecha == fecha
  {
    var msg := Tag(t) + texto;
    assert StartsWith(msg, Tag(t));
    ReplacePrefix(Tag(t), texto);
    // the tags differ in their first letters, so the first check that succeeds is `t`'s
    assert msg[0] == Tag(t)[0];
    assert TagArchivo[0] == 'A' && TagRenombre[0] == 'R' && TagVisibilidad[0] == 'V';
  }

  /**
   * A join row (untagged, containing "se ha unido") becomes a `union` item
   * whose author is the member found by id, else the name before the words
   * in the text, else "Sistema"; its text is that author and " se unió al grupo".
   */
  lemma ItemDeUnion(miembros: seq<Miembro>, a: Entrada)
    requires !EmpiezaConTag(Texto(a.mensaje)) && Includes(Texto(a.mensaje), SeHaUnido)
    ensures SeMuestra(a)
    ensures var autor := OrId(AutorPorId(miembros, a.actorId), OrText(AutorPorTexto(Texto(a.mensaje)), "Sistema"));
      Clasificar(miembros, a) == Item(Union, autor, a.fecha, autor + " se unió al grupo")
  {
  }

  predicate SinEspacios(nombre: string)
  {
    forall i :: 0 <= i < |nombre| ==> !IsWhite(nombre[i])
  }

  /** For `nombre + " se ha unido"` the regular expression's shortest group is `nombre`. */
  lemma UnionTrasNombre(nombre: string)
    requires nombre != [] && SinEspacios(nombre)
    ensures UnionAt(nombre + " " + SeHaUnido, |nombre|)
    ensures forall j :: 1 <= j < |nombre| ==> !UnionAt(nombre + " " + SeHaUnido, j)
  {
    var msg := nombre + " " + SeHaUnido;
    var k := |nombre|;
    assert forall i :: 0 <= i < k ==> msg[i] == nombre[i];
    forall j | 1 <= j < k ensures !UnionAt(msg, j) {
      assert !IsWhite(msg[j]);
    }
    UnionJustoTrasNombre(nombre);
  }

  /** The join phrase is already lower-case. */
  lemma SeHaUnidoEnMinusculas()
    ensures ToLower(SeHaUnido) == SeHaUnido
  {
    var s := SeHaUnido;
    assert forall i :: 0 <= i < |s| ==> LowerChar(s[i]) == s[i];
  }

  lemma UnionJustoTrasNombre(nombre: string)
    requires nombre != [] && SinEspacios(nombre)
    ensures UnionAt(nombre + " " + SeHaUnido, |nombre|)
  {
    SeHaUnidoEnMinusculas();
    UnionTrasFrase(nombre, SeHaUnido);
  }

  /** A name without whitespace, a space, then any eleven characters that lower-case to the phrase. */
  lemma UnionTrasFrase(nombre: string, frase: string)
    requires nombre != [] && SinEspacios(nombre)
    requires |frase| == 11 && ToLower(frase) == SeHaUnido
    ensures UnionAt(nombre + " " + frase, |nombre|)
  {
    var msg := nombre + " " + frase;
    var k := |nombre|;
    PartesDeUnion(nombre, ' ', frase);
    forall i | 0 <= i < k ensures !IsLineTerminator(msg[i]) {
      assert !IsWhite(nombre[i]);
    }
  }

  /** Where the pieces of `a + [c] + b` sit. */
  lemma PartesDeUnion(a: string, c: char, b: string)
    ensures (a + [c] + b)[|a|] == c
    ensures (a + [c] + b)[|a| + 1..|a| + 1 + |b|] == b
    ensures forall i :: 0 <= i < |a| ==> (a + [c] + b)[i] == a[i]
  {
    assert a + [c] + b == a + ([c] + b);
  }

  lemma TrimSinEspacios(nombre: string)
    requires nombre != [] && SinEspacios(nombre)
    ensures Trim(nombre) == nombre
  {
    assert TrimStart(nombre) == nombre;
    assert TrimEnd(nombre) == nombre;
  }

  /** The search for the regular expression's group stops right after `nombre`. */
  lemma BuscarUnionTrasNombre(nombre: string)
    requires nombre != [] && SinEspacios(nombre)
    ensures BuscarUnion(nombre + " " + SeHaUnido, 1) == Some(|nombre|)
  {
    var msg := nombre + " " + SeHaUnido;
    UnionTrasNombre(nombre);
    var r := BuscarUnion(msg, 1);
    assert r.Some?;
    assert r.value <= |nombre|;
  }

  /** The text author of `nombre + " se ha unido"` is `nombre`, for a name without whitespace. */
  lemma AutorPorTextoDeNombre(nombre: string)
    requires nombre != [] && SinEspacios(nombre)
    ensures AutorPorTexto(nombre + " " + SeHaUnido) == Some(nombre)
  {
    var msg := nombre + " " + SeHaUnido;
    BuscarUnionTrasNombre(nombre);
    assert msg[..|nombre|] == nombre;
    TrimSinEspacios(nombre);
  }

  /** A row "Ana se ha unido" with no member found by id gets "Ana" as its author, from the text. */
  lemma AutorDeUnionPorTexto(miembros: seq<Miembro>, nombre: string, actorId: JsId, fecha: JsId)
    requires nombre != [] && SinEspacios(nombre)
    requires forall k :: 0 <= k < |miembros| ==> miembros[k].userId != actorId
    requires !EmpiezaConTag(nombre + " " + SeHaUnido)
    ensures Clasificar(miembros, Entrada(Str(nombre + " " + SeHaUnido), actorId, fecha))
              == Item(Union, nombre, fecha, nombre + " se unió al grupo")
  {
    var msg := nombre + " " + SeHaUnido;
    var a := Entrada(Str(msg), actorId, fecha);
    assert Texto(a.mensaje) == msg;
    SeHaUnidoTrasNombre(nombre);
    ItemDeUnion(miembros, a);
    assert AutorPorId(miembros, actorId) == Undefined;
    AutorPorTextoDeNombre(nombre);
  }

  lemma SeHaUnidoTrasNombre(nombre: string)
    ensures Includes(nombre + " " + SeHaUnido, SeHaUnido)
  {
    StartsWithIncludes(SeHaUnido, SeHaUnido);
    IncludesInSuffix(nombre + " ", SeHaUnido, SeHaUnido);
  }

  /**
   * A creation row that is neither tagged nor a join is kept and shown as a
   * `sistema` item carrying the raw message; there is no separate kind for it.
   */
  lemma CreacionEsSistema(miembros: seq<Miembro>, a: Entrada)
    requires EsCreacion(Texto(a.mensaje))
    requires !EmpiezaConTag(Texto(a.mensaje)) && !Includes(Texto(a.mensaje), SeHaUnido)
    ensures SeMuestra(a)
    ensures Clasificar(miembros, a).tipo == Sistema
    ensures Clasificar(miembros, a).texto == Texto(a.mensaje)
  {
  }

  /** Every `sistema` item of the stream comes from a creation message. */
  lemma SistemaSoloCreacion(miembros: seq<Miembro>, a: Entrada)
    requires SeMuestra(a) && Clasificar(miembros, a).tipo == Sistema
    ensures EsCreacion(Texto(a.mensaje))
  {
  }

  // ---------------------------------------------------------------------
  // Announcements.
  // ---------------------------------------------------------------------

  datatype AnuncioItem = AnuncioItem(entrada: Entrada, texto: string)

  function ComoAnuncio(a: Entrada): AnuncioItem
  {
    AnuncioItem(a, ReplaceFirst(Texto(a.mensaje), TagAnuncio, ""))
  }

  predicate EsAnuncio(a: Entrada)
  {
    StartsWith(Texto(a.mensaje), TagAnuncio)
  }

  /** `anuncios` */
  function Anuncios(grupo: Option<Vista>): seq<AnuncioItem>
  {
    Seqs.Map(Seqs.Filter(Actividad(grupo), EsAnuncio), ComoAnuncio)
  }

  /** `Boolean(userId && grupo?.creadorId && userId === grupo.creadorId)` */
  predicate PuedePublicarAnuncio(userId: JsId, grupo: Option<Vista>)
  {
    grupo.Some? && Truthy(userId) && Truthy(grupo.value.creadorId) && userId == grupo.value.creadorId
  }

  datatype Publicacion =
    | NoHaceNada                  // no group id: the handler returns at once
    | Rechazada(error: string)    // `setError(...)` and return
    | Insertar(mensaje: string)   // the row inserted into `grupo_actividad`

  /** The decision of `publicarAnuncio` before its insert. */
  function PublicarAnuncio(userId: JsId, grupo: Option<Vista>, nuevoAnuncio: string): (r: Publicacion)
    ensures r.Insertar? <==> grupo.Some? && Truthy(grupo.value.id) && PuedePublicarAnuncio(userId, grupo)
                              && !Blank(nuevoAnuncio)
    ensures r.Insertar? ==> r.mensaje == TagAnuncio + Trim(nuevoAnuncio)
  {
    if grupo.None? || !Truthy(grupo.value.id) then NoHaceNada
    else if !PuedePublicarAnuncio(userId, grupo) then Rechazada("Solo el creador del grupo puede publicar anuncios.")
    else if Blank(nuevoAnuncio) then Rechazada("Escribe un anuncio antes de publicar.")
    else Insertar(TagAnuncio + Trim(nuevoAnuncio))
  }

  /** A rejected announcement names the first failing check: creator first, then text. */
  lemma PublicarAnuncioRechazos(userId: JsId, grupo: Option<Vista>, nuevoAnuncio: string)
    requires grupo.Some? && Truthy(grupo.value.id)
    ensures !PuedePublicarAnuncio(userId, grupo) ==>
      PublicarAnuncio(userId, grupo, nuevoAnuncio) == Rechazada("Solo el creador del grupo puede publicar anuncios.")
    ensures PuedePublicarAnuncio(userId, grupo) && Blank(nuevoAnuncio) ==>
      PublicarAnuncio(userId, grupo, nuevoAnuncio) == Rechazada("Escribe un anuncio antes de publicar.")
  {
  }

  /** A row `ANUNCIO::` + `texto` read back first is the first announcement and the first stream item. */
  lemma AnuncioLeido(v: Vista, mensaje: string, texto: string, actorId: JsId, fecha: JsId)
    requires mensaje == TagAnuncio + texto
    ensures var despues := Some(v.(actividad := [Entrada(Str(mensaje), actorId, fecha)] + v.actividad));
      && Anuncios(despues) == [AnuncioItem(Entrada(Str(mensaje), actorId, fecha), texto)] + Anuncios(Some(v))
      && |Anuncios(despues)| == |Anuncios(Some(v))| + 1
      && Anuncios(despues)[0].texto == texto
      && |StreamItems(despues)| > 0
      && StreamItems(despues)[0].tipo == Anuncio
      && StreamItems(despues)[0].texto == texto
  {
    var fila := Entrada(Str(mensaje), actorId, fecha);
    TextoDeTag(v.miembros, Anuncio, texto, actorId, fecha);
    assert EsAnuncio(fila) && SeMuestra(fila);
    assert ComoAnuncio(fila).texto == texto;
    Seqs.MapFilterCons(fila, v.actividad, EsAnuncio, ComoAnuncio);
    Seqs.MapFilterCons(fila, v.actividad, SeMuestra, (a: Entrada) => Clasificar(v.miembros, a));
  }

  /**
   * Round trip: once the inserted row is read back at the head of the
   * activity (newest first), the first announcement is the trimmed text,
   * and the stream shows it as an `anuncio` with that text.
   */
  lemma AnuncioIdaYVuelta(userId: JsId, v: Vista, nuevoAnuncio: string, mensaje: string,
                          actorId: JsId, fecha: JsId)
    requires PublicarAnuncio(userId, Some(v), nuevoAnuncio) == Insertar(mensaje)
    ensures var despues := Some(v.(actividad := [Entrada(Str(mensaje), actorId, fecha)] + v.actividad));
      && |Anuncios(despues)| == |Anuncios(Some(v))| + 1
      && Anuncios(despues)[0].texto == Trim(nuevoAnuncio)
      && |StreamItems(despues)| > 0
      && StreamItems(despues)[0].tipo == Anuncio
      && StreamItems(despues)[0].texto == Trim(nuevoAnuncio)
  {
    AnuncioLeido(v, mensaje, Trim(nuevoAnuncio), actorId, fecha);
  }

  // ---------------------------------------------------------------------
  // Uploads.
  // ---------------------------------------------------------------------

  /** A selected file: `name`, `type` (MIME) and `size` in bytes. */
  datatype Seleccionado = Seleccionado(nombre: string, mime: string, tamano: nat)

  const TiposPermitidos: seq<string> := [
    "application/pdf",
    "image/png",
    "application/vnd.openxmlformats-officedocument.wordprocessingml.document"
  ]

  const TamanoMaximo: nat := 20 * 1024 * 1024

  predicate Permitido(f: Seleccionado)
  {
    f.mime in TiposPermitidos && f.tamano <= TamanoMaximo
  }

  /** `manejarArchivos`: the selection becomes exactly the allowed files, in their order. */
  function ManejarArchivos(files: seq<Seleccionado>): (r: seq<Seleccionado>)
    ensures |r| <= |files|
    ensures forall i :: 0 <= i < |r| ==> r[i] in files && r[i].mime in TiposPermitidos && r[i].tamano <= 20971520
    ensures forall i :: 0 <= i < |files| && Permitido(files[i]) ==> files[i] in r
  {
    Seqs.Filter(files, Permitido)
  }

  /** Filtering a selection that was already filtered keeps it whole. */
  lemma ManejarArchivosIdempotente(files: seq<Seleccionado>)
    ensures ManejarArchivos(ManejarArchivos(files)) == ManejarArchivos(files)
  {
    Seqs.FilterKeepsAll(Seqs.Filter(files, Permitido), Permitido);
  }

  /** The filter keeps the order of the drop: it distributes over concatenation. */
  lemma ManejarArchivosConcat(a: seq<Seleccionado>, b: seq<Seleccionado>)
    ensures ManejarArchivos(a + b) == ManejarArchivos(a) + ManejarArchivos(b)
  {
    Seqs.FilterAppend(a, b, Permitido);
  }

  /** The class `[a-zA-Z0-9.-]`. */
  predicate CaracterSeguro(c: char)
  {
    ('a' <= c <= 'z') || ('A' <= c <= 'Z') || ('0' <= c <= '9') || c == '.' || c == '-'
  }

  /** `name.replace(/[^a-zA-Z0-9.-]/g, "_")` */
  function SafeName(name: string): (r: string)
    ensures |r| == |name|
    ensures forall i :: 0 <= i < |name| ==> CaracterSeguro(r[i]) || r[i] == '_'
    ensures forall i :: 0 <= i < |name| ==> (CaracterSeguro(name[i]) ==> r[i] == name[i])
    ensures forall i :: 0 <= i < |name| ==> (!CaracterSeguro(name[i]) ==> r[i] == '_')
  {
    if name == [] then []
    else [if CaracterSeguro(name[0]) then name[0] else '_'] + SafeName(name[1..])
  }

  /** Sanitising twice is sanitising once, and a safe name is left as it is. */
  lemma SafeNameIdempotente(name: string)
    ensures SafeName(SafeName(name)) == SafeName(name)
    ensures (forall i :: 0 <= i < |name| ==> CaracterSeguro(name[i])) ==> SafeName(name) == name
  {
  }

  /** `archivos/${codigo}/${Date.now()}-${safeName}` */
  function RutaSubida(codigo: string, ahora: nat, nombre: string): string
  {
    "archivos/" + codigo + "/" + NatToString(ahora) + "-" + SafeName(nombre)
  }

  /**
   * The path lies under `archivos/` and its last segment is the timestamp,
   * a dash and the sanitised name, whatever the route code holds.
   */
  lemma RutaSubidaForma(codigo: string, ahora: nat, nombre: string)
    ensures StartsWith(RutaSubida(codigo, ahora, nombre), "archivos/")
    ensures LastPiece(RutaSubida(codigo, ahora, nombre), '/') == NatToString(ahora) + "-" + SafeName(nombre)
  {
    var t := NatToString(ahora);
    var last := t + "-" + SafeName(nombre);
    assert RutaSubida(codigo, ahora, nombre) == ("archivos/" + codigo) + ['/'] + last;
    assert '/' !in last by {
      forall i | 0 <= i < |last| ensures last[i] != '/' {
        if i < |t| { assert last[i] == t[i]; }
        else if i > |t| { assert last[i] == SafeName(nombre)[i - |t| - 1]; }
      }
    }
    LastPieceAfterSep("archivos/" + codigo, '/', last);
  }

  /**
   * The upload panel's state: the selection, the message under it and the
   * busy flag, each a `useState` field of the page.
   */
  class PanelSubida {
    var archivosSeleccionados: seq<Seleccionado>
    var mensajeSubida: string
    var subiendo: bool

    constructor ()
      ensures archivosSeleccionados == [] && mensajeSubida == "" && !subiendo
    {
      archivosSeleccionados := [];
      mensajeSubida := "";
      subiendo := false;
    }

    /** The drop zone and the file input: the selection becomes the allowed files. */
    method Seleccionar(files: seq<Seleccionado>)
      modifies this
      ensures archivosSeleccionados == ManejarArchivos(files)
      ensures mensajeSubida == old(mensajeSubida) && subiendo == old(subiendo)
    {
      archivosSeleccionados := ManejarArchivos(files);
    }

    /**
     * `subirArchivos`. The storage and table calls are oracles indexed by the
     * file's position: `errorSubida(i)` and `errorMeta(i)` are the errors of
     * the upload and of the metadata insert of file `i`, `ahora(i)` the
     * `Date.now()` read for it. Returned are the storage paths written, the
     * paths registered in `grupo_archivos`, and the activity message inserted.
     */
    method SubirArchivos(codigo: string, grupoId: JsId, userId: JsId, displayName: string,
                         errorSesion: Option<string>,
                         errorSubida: nat -> Option<string>, errorMeta: nat -> Option<string>,
                         ahora: nat -> nat)
      returns (subidas: seq<string>, registradas: seq<string>, actividad: Option<string>)
      modifies this
      ensures var files := old(archivosSeleccionados);
        var n := |files|;
        var k := PrimerFallo(n, grupoId, errorSubida, errorMeta, 0);
        && (n == 0 ==>
              && mensajeSubida == "Selecciona archivos primero"
              && subiendo == old(subiendo) && subidas == [] && registradas == [])
        && (n > 0 ==> !subiendo)
        && (n > 0 && errorSesion.Some? ==>
              mensajeSubida == "Error al subir: " + errorSesion.value && subidas == [] && registradas == [])
        && (n > 0 && errorSesion.None? ==>
              && subidas == Rutas(files, codigo, ahora, if k < n && errorSubida(k).None? then k + 1 else k)
              && registradas == (if Truthy(grupoId) then Rutas(files, codigo, ahora, k) else []))
        && (n > 0 && errorSesion.None? && k < n ==>
              mensajeSubida == "Error al subir: " + Fallo(k, grupoId, errorSubida, errorMeta).value)
        && (n > 0 && errorSesion.None? && k == n ==>
              && mensajeSubida == NatToString(n) + " archivo(s) subido(s) exitosamente."
              && archivosSeleccionados == []
              && actividad == (if Truthy(grupoId) && Truthy(userId)
                               then Some(TagArchivo + (if displayName != "" then displayName else "Usuario")
                                         + " subió " + NatToString(n) + " archivo(s).")
                               else None))
        && (!(n > 0 && errorSesion.None? && k == n) ==> archivosSeleccionados == files && actividad == None)
    {
      subidas, registradas, actividad := [], [], None;
      var files := archivosSeleccionados;
      if |files| == 0 {
        mensajeSubida := "Selecciona archivos primero";
        return;
      }
      subiendo := true;
      mensajeSubida := "";
      if errorSesion.Some? {
        mensajeSubida := "Error al subir: " + errorSesion.value;
        subiendo := false;
        return;
      }
      var fallo;
      ghost var k := PrimerFallo(|files|, grupoId, errorSubida, errorMeta, 0);
      subidas, registradas, fallo := SubirCadaUno(files, codigo, grupoId, errorSubida, errorMeta, ahora);
      assert fallo.Some? <==> k < |files|;
      if fallo.Some? {
        assert fallo == Fallo(k, grupoId, errorSubida, errorMeta);
        mensajeSubida := "Error al subir: " + fallo.value;
        subiendo := false;
        return;
      }
      mensajeSubida := NatToString(|files|) + " archivo(s) subido(s) exitosamente.";
      archivosSeleccionados := [];
      if Truthy(grupoId) && Truthy(userId) {
        actividad := Some(TagArchivo + (if displayName != "" then displayName else "Usuario")
                          + " subió " + NatToString(|files|) + " archivo(s).");
      }
      subiendo := false;
    }
  }

  /**
   * The loop of `subirArchivos` over the selected files: each is uploaded,
   * then registered when there is a group id, and the first error stops it.
   * Returned are the paths uploaded, the paths registered, and that error.
   */
  method SubirCadaUno(files: seq<Seleccionado>, codigo: string, grupoId: JsId,
                      errorSubida: nat -> Option<string>, errorMeta: nat -> Option<string>,
                      ahora: nat -> nat)
    returns (subidas: seq<string>, registradas: seq<string>, fallo: Option<string>)
    ensures var n := |files|;
      var k := PrimerFallo(n, grupoId, errorSubida, errorMeta, 0);
      && subidas == Rutas(files, codigo, ahora, if k < n && errorSubida(k).None? then k + 1 else k)
      && registradas == (if Truthy(grupoId) then Rutas(files, codigo, ahora, k) else [])
      && (k < n ==> fallo == Fallo(k, grupoId, errorSubida, errorMeta))
      && (k == n <==> fallo.None?)
  {
    subidas, registradas, fallo := [], [], None;
    ghost var k := PrimerFallo(|files|, grupoId, errorSubida, errorMeta, 0);
    var i := 0;
    while i < |files|
      invariant 0 <= i <= k <= |files|
      invariant k == PrimerFallo(|files|, grupoId, errorSubida, errorMeta, i)
      invariant subidas == Rutas(files, codigo, ahora, i)
      invariant registradas == (if Truthy(grupoId) then Rutas(files, codigo, ahora, i) else [])
    {
      var path := RutaSubida(codigo, ahora(i), files[i].nombre);
      assert Rutas(files, codigo, ahora, i + 1) == subidas + [path];
      if errorSubida(i).Some? {
        assert k == i;
        return subidas, registradas, errorSubida(i);
      }
      subidas := subidas + [path];
      if Truthy(grupoId) {
        if errorMeta(i).Some? {
          assert k == i;
          return subidas, registradas, errorMeta(i);
        }
        registradas := registradas + [path];
      }
      assert k == PrimerFallo(|files|, grupoId, errorSubida, errorMeta, i + 1);
      i := i + 1;
    }
  }

  /** The error, if any, that stops the loop at file `i`: the upload's first, then the metadata insert's. */
  function Fallo(i: nat, grupoId: JsId, errorSubida: nat -> Option<string>,
                 errorMeta: nat -> Option<string>): Option<string>
  {
    if errorSubida(i).Some? then errorSubida(i)
    else if Truthy(grupoId) then errorMeta(i)
    else None
  }

  /** The first file, at or after `i`, whose upload or registration fails; `n` when none does. */
  function PrimerFallo(n: nat, grupoId: JsId, errorSubida: nat -> Option<string>,
                       errorMeta: nat -> Option<string>, i: nat): (r: nat)
    requires i <= n
    ensures i <= r <= n
    ensures r < n ==> Fallo(r, grupoId, errorSubida, errorMeta).Some?
    ensures forall j :: i <= j < r ==> Fallo(j, grupoId, errorSubida, errorMeta).None?
    decreases n - i
  {
    if i == n then n
    else if Fallo(i, grupoId, errorSubida, errorMeta).Some? then i
    else PrimerFallo(n, grupoId, errorSubida, errorMeta, i + 1)
  }

  /** The storage paths of the first `k` selected files. */
  function Rutas(files: seq<Seleccionado>, codigo: string, ahora: nat -> nat, k: nat): (r: seq<string>)
    requires k <= |files|
    ensures |r| == k
    ensures forall i :: 0 <= i < k ==> r[i] == RutaSubida(codigo, ahora(i), files[i].nombre)
  {
    if k == 0 then [] else Rutas(files, codigo, ahora, k - 1) + [RutaSubida(codigo, ahora(k - 1), files[k - 1].nombre)]
  }
}
