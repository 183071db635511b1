/**
 * The public repository page `src/pages/RepositorioPublicoDetalle.jsx`:
 * loading the repository and deciding whether the visitor created it, the
 * size filter on the selection, the upload and delete guards, and the name
 * and icon shown for each stored file.
 */
module PublicRepo {

  import opened JsText
  import Seqs
  import GroupDetail

  type Seleccionado = GroupDetail.Seleccionado

  /** The repository row as the page reads it: its `id` and `creador_id`. */
  datatype Repo = Repo(id: JsId, creadorId: JsId)

  /** A stored file: `id`, `nombre` and `path`. */
  datatype ArchivoRepo = ArchivoRepo(id: JsId, nombre: JsId, path: JsId)

  // ---------------------------------------------------------------------
  // Pure rules.
  // ---------------------------------------------------------------------

  /** `Boolean(uid && data?.creador_id && uid === data.creador_id)` */
  predicate EsCreador(uid: JsId, creadorId: JsId)
  {
    Truthy(uid) && Truthy(creadorId) && uid == creadorId
  }

  /** A visitor without a session, or a repository without a creator, gives no creator rights. */
  lemma EsCreadorRequiereAmbos(uid: JsId, creadorId: JsId)
    ensures !Truthy(uid) ==> !EsCreador(uid, creadorId)
    ensures !Truthy(creadorId) ==> !EsCreador(uid, creadorId)
    ensures EsCreador(uid, creadorId) ==> EsCreador(creadorId, uid)
  {
  }

  predicate CabeEnLimite(f: Seleccionado)
  {
    f.tamano <= GroupDetail.TamanoMaximo
  }

  /** `Array.from(files || []).filter(file => file.size <= 20 * 1024 * 1024)` */
  function FiltrarArchivos(files: Option<seq<Seleccionado>>): (r: seq<Seleccionado>)
    ensures files.None? ==> r == []
    ensures |r| <= (if files.Some? then |files.value| else 0)
    ensures forall i :: 0 <= i < |r| ==> r[i].tamano <= 20971520 && files.Some? && r[i] in files.value
    ensures files.Some? ==> forall i :: 0 <= i < |files.value| && files.value[i].tamano <= 20971520 ==>
              files.value[i] in r
  {
    if files.None? then [] else Seqs.Filter(files.value, CabeEnLimite)
  }

  /** The filter keeps the order of the selection: it distributes over concatenation. */
  lemma FiltrarArchivosConcat(a: seq<Seleccionado>, b: seq<Seleccionado>)
    ensures FiltrarArchivos(Some(a + b)) == FiltrarArchivos(Some(a)) + FiltrarArchivos(Some(b))
  {
    Seqs.FilterAppend(a, b, CabeEnLimite);
  }

  /** One file is kept exactly when it is within the limit. */
  lemma FiltrarArchivosUno(f: Seleccionado)
    ensures FiltrarArchivos(Some([f])) == if f.tamano <= 20971520 then [f] else []
  {
    assert [f][1..] == [];
  }

  /**
   * The size limit is the group page's, without its type check: the group
   * page's selection is this page's selection filtered by type.
   */
  lemma FiltroDeGrupoMasEstricto(files: seq<Seleccionado>)
    ensures GroupDetail.ManejarArchivos(files)
            == Seqs.Filter(FiltrarArchivos(Some(files)), (f: Seleccionado) => f.mime in GroupDetail.TiposPermitidos)
  {
    FiltrarDosVeces(files, CabeEnLimite, (f: Seleccionado) => f.mime in GroupDetail.TiposPermitidos,
                    GroupDetail.Permitido);
  }

  lemma {:induction false} FiltrarDosVeces(xs: seq<Seleccionado>, p: Seleccionado -> bool, q: Seleccionado -> bool,
                                           pq: Seleccionado -> bool)
    requires forall f :: pq(f) == (q(f) && p(f))
    ensures Seqs.Filter(xs, pq) == Seqs.Filter(Seqs.Filter(xs, p), q)
  {
    if xs != [] {
      FiltrarDosVeces(xs[1..], p, q, pq);
      var fp := Seqs.Filter(xs[1..], p);
      if p(xs[0]) {
        var ys := [xs[0]] + fp;
        assert Seqs.Filter(xs, p) == ys;
        assert ys != [] && ys[0] == xs[0] && ys[1..] == fp;
        assert Seqs.Filter(ys, q) == (if q(xs[0]) then [xs[0]] else []) + Seqs.Filter(fp, q);
      } else {
        assert Seqs.Filter(xs, p) == fp;
      }
    }
  }

  const ArchivoPorDefecto: string := "archivo"

  /** `file.nombre || fullPath?.split("/").pop() || "archivo"` */
  function NombreArchivo(nombre: JsId, path: JsId): (r: string)
    ensures r != ""
    ensures Truthy(nombre) ==> r == nombre.s
    ensures !Truthy(nombre) && path.Str? && LastPiece(path.s, '/') != "" ==> r == LastPiece(path.s, '/')
    ensures !Truthy(nombre) && !(path.Str? && LastPiece(path.s, '/') != "") ==> r == ArchivoPorDefecto
  {
    if Truthy(nombre) then nombre.s
    else if path.Str? && LastPiece(path.s, '/') != "" then LastPiece(path.s, '/')
    else ArchivoPorDefecto
  }

  /** Without a stored name, the shown name is the stored path's last segment: no folder in it. */
  lemma NombreDeRuta(carpeta: string, archivo: string)
    requires archivo != "" && '/' !in archivo
    ensures NombreArchivo(Undefined, Str(carpeta + "/" + archivo)) == archivo
  {
    assert carpeta + "/" + archivo == carpeta + ['/'] + archivo;
    LastPieceAfterSep(carpeta, '/', archivo);
  }

  const IconoPdf: string := "📄"
  const IconoDocx: string := "📝"
  const IconoPng: string := "🖼️"
  const IconoOtro: string := "📎"

  /** `nombre.split(".").pop().toLowerCase()` */
  function Extension(nombre: string): string
  {
    ToLower(LastPiece(nombre, '.'))
  }

  function Icono(nombre: string): (r: string)
    ensures Extension(nombre) == "pdf" ==> r == IconoPdf
    ensures Extension(nombre) == "docx" ==> r == IconoDocx
    ensures Extension(nombre) == "png" ==> r == IconoPng
    ensures Extension(nombre) !in {"pdf", "docx", "png"} ==> r == IconoOtro
  {
    var e := Extension(nombre);
    if e == "pdf" then IconoPdf else if e == "docx" then IconoDocx else if e == "png" then IconoPng else IconoOtro
  }

  /** The icon follows the text after the last dot, in any case: `informe.v2.PDF` is a PDF. */
  lemma IconoPorUltimaExtension(base: string, ext: string)
    requires '.' !in ext
    ensures Extension(base + "." + ext) == ToLower(ext)
  {
    assert base + "." + ext == base + ['.'] + ext;
    LastPieceAfterSep(base, '.', ext);
  }

  // ---------------------------------------------------------------------
  // Page state.
  // ---------------------------------------------------------------------

  const MensajeSoloCreadorSube: string := "Solo el creador puede subir archivos."
  const MensajeSinSeleccion: string := "Selecciona archivos primero."
  const MensajeSoloCreadorElimina: string := "Solo el creador puede eliminar archivos."
  const PrefijoErrorSubida: string := "Error al subir: "
  const PrefijoErrorEliminar: string := "Error al eliminar: "

  /** `` `${n} archivo(s) subido(s).` `` */
  function MensajeSubidos(n: nat): string
  {
    NatToString(n) + " archivo(s) subido(s)."
  }

  /** The first file, at or after `i`, whose upload fails; `n` when none does. */
  function PrimerFallo(n: nat, errorSubida: nat -> Option<string>, i: nat): (r: nat)
    requires i <= n
    ensures i <= r <= n
    ensures r < n ==> errorSubida(r).Some?
    ensures forall j :: i <= j < r ==> errorSubida(j).None?
    decreases n - i
  {
    if i == n then n else if errorSubida(i).Some? then i else PrimerFallo(n, errorSubida, i + 1)
  }

  function IdDe(repo: Option<Repo>): JsId
  {
    if repo.Some? then repo.value.id else Undefined
  }

  class PaginaRepositorio {
    var repo: Option<Repo>
    var archivos: seq<ArchivoRepo>
    var archivosSeleccionados: seq<Seleccionado>
    var subiendo: bool
    var mensaje: string
    var esCreador: bool
    var cargando: bool
    var error: string

    constructor ()
      ensures repo.None? && archivos == [] && archivosSeleccionados == [] && !subiendo
      ensures mensaje == "" && !esCreador && cargando && error == ""
    {
      repo, archivos, archivosSeleccionados := None, [], [];
      subiendo, mensaje, esCreador, cargando, error := false, "", false, true, "";
    }

    /**
     * The load effect. `respuesta` is `obtenerRepositorioPublicoPorId`'s
     * answer (`None` for a null row), `uid` the session's user id or `null`,
     * `listado` the file listing. A failure anywhere clears the repository
     * and the files and keeps the error text.
     */
    method Cargar(respuesta: Result<Option<Repo>>, uid: JsId, listado: Result<seq<ArchivoRepo>>)
      modifies this
      ensures !cargando
      ensures respuesta.Err? ==> error == respuesta.message && repo.None? && archivos == []
                                 && esCreador == old(esCreador)
      ensures respuesta.Ok? ==>
        var r := respuesta.value;
        && esCreador == (r.Some? && EsCreador(uid, r.value.creadorId))
        && (!Truthy(IdDe(r)) ==> repo == r && archivos == [] && error == "")
        && (Truthy(IdDe(r)) && listado.Ok? ==> repo == r && archivos == listado.value && error == "")
        && (Truthy(IdDe(r)) && listado.Err? ==> repo.None? && archivos == [] && error == listado.message)
      ensures archivosSeleccionados == old(archivosSeleccionados) && mensaje == old(mensaje)
      ensures subiendo == old(subiendo)
    {
      cargando := true;
      error := "";
      if respuesta.Err? {
        error := respuesta.message;
        repo := None;
        archivos := [];
      } else {
        var r := respuesta.value;
        repo := r;
        esCreador := r.Some? && EsCreador(uid, r.value.creadorId);
        if !Truthy(IdDe(r)) {
          archivos := [];
        } else if listado.Ok? {
          archivos := listado.value;
        } else {
          error := listado.message;
          repo := None;
          archivos := [];
        }
      }
      cargando := false;
    }

    /** The drop zone and the file input. */
    method ManejarArchivos(files: Option<seq<Seleccionado>>)
      modifies this
      ensures archivosSeleccionados == FiltrarArchivos(files)
      ensures repo == old(repo) && archivos == old(archivos) && mensaje == old(mensaje)
      ensures esCreador == old(esCreador) && subiendo == old(subiendo)
    {
      archivosSeleccionados := FiltrarArchivos(files);
    }

    /**
     * `manejarSubirArchivos`: the guards in order (a repository id, creator
     * rights, a selection), then one upload per selected file until one
     * fails (`errorSubida(i)`), then the file list is reloaded (`listado`).
     * Returned are the files handed to the upload call.
     */
    method ManejarSubirArchivos(errorSubida: nat -> Option<string>, listado: Result<seq<ArchivoRepo>>)
      returns (enviados: seq<Seleccionado>)
      modifies this
      ensures repo == old(repo) && esCreador == old(esCreador)
      ensures var sel := old(archivosSeleccionados);
        var k := PrimerFallo(|sel|, errorSubida, 0);
        && (!Truthy(IdDe(repo)) ==> enviados == [] && mensaje == old(mensaje) && archivosSeleccionados == sel
                                    && archivos == old(archivos) && subiendo == old(subiendo))
        && (Truthy(IdDe(repo)) && !esCreador ==>
              enviados == [] && mensaje == MensajeSoloCreadorSube && archivosSeleccionados == sel
              && archivos == old(archivos) && subiendo == old(subiendo))
        && (Truthy(IdDe(repo)) && esCreador && sel == [] ==>
              enviados == [] && mensaje == MensajeSinSeleccion && archivosSeleccionados == sel
              && archivos == old(archivos) && subiendo == old(subiendo))
        && (Truthy(IdDe(repo)) && esCreador && sel != [] && k < |sel| ==>
              && enviados == sel[..k + 1] && !subiendo
              && mensaje == PrefijoErrorSubida + errorSubida(k).value
              && archivosSeleccionados == sel && archivos == old(archivos))
        && (Truthy(IdDe(repo)) && esCreador && sel != [] && k == |sel| ==>
              && enviados == sel && !subiendo && archivosSeleccionados == []
              && (listado.Ok? ==> archivos == listado.value && mensaje == MensajeSubidos(|sel|))
              && (listado.Err? ==> archivos == old(archivos) && mensaje == PrefijoErrorSubida + listado.message))
    {
      enviados := [];
      if !Truthy(IdDe(repo)) {
        return;
      }
      if !esCreador {
        mensaje := MensajeSoloCreadorSube;
        return;
      }
      var sel := archivosSeleccionados;
      if |sel| == 0 {
        mensaje := MensajeSinSeleccion;
        return;
      }
      subiendo := true;
      mensaje := "";
      var i := 0;
      while i < |sel|
        invariant 0 <= i <= |sel|
        invariant PrimerFallo(|sel|, errorSubida, 0) == PrimerFallo(|sel|, errorSubida, i)
        invariant enviados == sel[..i]
        invariant archivosSeleccionados == sel && repo == old(repo) && esCreador == old(esCreador)
        invariant archivos == old(archivos)
      {
        enviados := enviados + [sel[i]];
        if errorSubida(i).Some? {
          mensaje := PrefijoErrorSubida + errorSubida(i).value;
          subiendo := false;
          return;
        }
        i := i + 1;
      }
      assert sel[..|sel|] == sel;
      archivosSeleccionados := [];
      mensaje := MensajeSubidos(|sel|);
      if listado.Ok? {
        archivos := listado.value;
      } else {
        mensaje := PrefijoErrorSubida + listado.message;
      }
      subiendo := false;
    }

    /**
     * `manejarEliminarArchivo(archivo)`: needs a repository id and a file id,
     * then creator rights; only then is the delete call made (`llamada`),
     * and on success the file list reloaded.
     */
    method ManejarEliminarArchivo(archivo: ArchivoRepo, errorEliminar: Option<string>,
                                  listado: Result<seq<ArchivoRepo>>)
      returns (llamada: bool)
      modifies this
      ensures llamada <==> Truthy(IdDe(old(repo))) && Truthy(archivo.id) && old(esCreador)
      ensures !(Truthy(IdDe(old(repo))) && Truthy(archivo.id)) ==> mensaje == old(mensaje) && archivos == old(archivos)
      ensures Truthy(IdDe(old(repo))) && Truthy(archivo.id) && !old(esCreador) ==>
                mensaje == MensajeSoloCreadorElimina && archivos == old(archivos)
      ensures llamada && errorEliminar.Some? ==>
                mensaje == PrefijoErrorEliminar + errorEliminar.value && archivos == old(archivos)
      ensures llamada && errorEliminar.None? && listado.Ok? ==> archivos == listado.value && mensaje == old(mensaje)
      ensures llamada && errorEliminar.None? && listado.Err? ==>
                archivos == old(archivos) && mensaje == PrefijoErrorEliminar + listado.message
      ensures repo == old(repo) && esCreador == old(esCreador) && archivosSeleccionados == old(archivosSeleccionados)
      ensures subiendo == old(subiendo)
    {
      llamada := false;
      if !Truthy(IdDe(repo)) || !Truthy(archivo.id) {
        return;
      }
      if !esCreador {
        mensaje := MensajeSoloCreadorElimina;
        return;
      }
      llamada := true;
      if errorEliminar.Some? {
        mensaje := PrefijoErrorEliminar + errorEliminar.value;
      } else if listado.Ok? {
        archivos := listado.value;
      } else {
        mensaje := PrefijoErrorEliminar + listado.message;
      }
    }
  }
}
