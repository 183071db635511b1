# FLUX study groups: a verified model of the group, schedule and sign-up logic

FLUX is a React front end over a hosted database for university study
groups. Students sign up with a university e-mail, create groups that others
join with a six-character code, follow a group's activity stream
(announcements, files, renames, joins), and keep a weekly class schedule on
their profile. This project models the logic of that front end and of its
group service in Dafny and proves what the code promises:

- the in-memory group store (`grupos.api.mock.js`) as a class whose methods
  update a list of groups in place;
- the group service (`grupos.api.js`) over abstract tables. These are
  `grupos`, `grupo_miembros`, `grupo_actividad` and `grupo_archivos`. The
  service is modelled as functions on those tables plus a `Backend` class
  whose methods apply them;
- the join-code generator, the colour hash and the schedule validator and
  editor;
- the activity-stream classifier, the announcement encoding, the upload
  filter and the file-name sanitiser of the group page;
- the page handlers and guards of the home page, the two sign-up pages, the
  groups page, the task list and the public repository page.

The model also follows the service's rows into the pages that read them
(module `Mismatches`). It proves three mismatches between files, as the code
is written:

- the service logs a join as `"{nombre} se unio al grupo."`. The group page's
  stream keeps only rows that contain "se ha unido", so the entry is dropped.
  After a first join, the stream of the returned group is exactly the stream
  it had before, as long as the trimmed name is not itself a row the stream
  keeps (it carries no tag, no "se ha unido" and no creation text). The home
  page's toast needs "se ha unido a tu grupo", so it never fires for that
  entry either, as long as the name does not contain "se ha unido";
- `mapearGrupo` keeps neither `actor_id`, the creator nor the visibility. On
  the group page no row then finds its author by id, and the announcement
  check `userId === grupo.creadorId` always fails, so nobody can publish;
- the service's creation entry `"{nombre} creo el grupo."` is kept, but it is
  shown as a plain `sistema` item carrying the raw text.

JavaScript values are modelled explicitly:

- `JsText.JsId` is `undefined`, `null` or a string, so `===`, `||` and
  truthiness keep their meaning;
- strings are sequences of Unicode scalar values (Dafny's `char`), not of
  the UTF-16 code units JavaScript counts;
- case mapping covers ASCII letters;
- `localeCompare` is lexicographic order on characters.

These are not modelled:

- `Math.random` is an oracle `rng: nat -> nat`;
- clocks and fresh UUIDs are parameters;
- the session and the code-uniqueness probes of `crearGrupo` are
  parameters and oracles; every other query and insert of the group service
  is taken to succeed (see "Left out").

## Model

| member | source | states |
|---|---|---|
| JoinCodes.GenerarCodigo | src/servicios/grupos.api.mock.js:11-18 | the loop builds exactly `longitud` characters, each from `A-Z0-9`, drawn by the random oracle (the same function appears at src/servicios/grupos.api.js:3-10) |
| JoinCodes.CodeFrom | src/servicios/grupos.api.js:3-10 | any code built from the alphabet has the requested length and only characters `A-Z0-9` |
| JoinCodes.CodeSurvivesNormalisation | src/servicios/grupos.api.js:117 | a generated code is unchanged by `trim().toUpperCase()`, so it is found again by lookups that normalise |
| GroupsMock.EnUso | src/servicios/grupos.api.mock.js:24 | `grupos.some(g => g.codigo === codigo)` holds exactly when the code is among the store's codes |
| GroupsMock.IndiceDeCodigo | src/servicios/grupos.api.mock.js:56-58 | the index of the first group whose code equals the normalised input, or -1 exactly when no group has it |
| GroupsMock.YaEsMiembro | src/servicios/grupos.api.mock.js:66-68 | true exactly when some member's name equals the joiner's name, ignoring ASCII case |
| GroupsMock.Almacen.constructor | src/servicios/grupos.api.mock.js:3-5 | an empty storage entry reads as an empty store |
| GroupsMock.Almacen.CrearGrupo | src/servicios/grupos.api.mock.js:20-45 | the chosen code is one of the drawn codes, is 6 characters long, differs from every existing code, and the new group is appended with the trimmed name, the creator as its only member and "{nombreUsuario} creó el grupo." as its only activity; distinct codes stay distinct |
| GroupsMock.CrearMantieneCodigosDistintos | src/servicios/grupos.api.mock.js:23-26 | appending a group whose code is fresh keeps all codes pairwise distinct |
| GroupsMock.Almacen.ObtenerVistaPreviaPorCodigo | src/servicios/grupos.api.mock.js:47-52 | returns a group exactly when one has the normalised code, and it is the first such group; otherwise null |
| GroupsMock.Almacen.UnirseAGrupoPorCodigo | src/servicios/grupos.api.mock.js:54-86 | the result and the new store are those of `GroupsMock.Unirse` on the old store |
| GroupsMock.UnirseCodigoDesconocido | src/servicios/grupos.api.mock.js:60-62 | an unknown code fails with "El código ingresado no existe." and leaves the store unchanged |
| GroupsMock.UnirseSoloCambiaSuGrupo | src/servicios/grupos.api.mock.js:64-85 | only the group with that code changes; a new member goes last, "{nombre} se unió al grupo." goes first in the activity, nothing else in that group changes, and the codes are unchanged |
| GroupsMock.UnirseIdempotente | src/servicios/grupos.api.mock.js:66-70 | joining again under the same name in any ASCII case returns the same group and changes nothing |
| GroupsApi.MapearGrupo | src/servicios/grupos.api.js:26-42 | keeps id, name and code, one member per row in order (id, display name, user id, admin flag) and one entry per activity row in order with only message and date; a missing list becomes empty |
| GroupsApi.MapearGrupoOlvida | src/servicios/grupos.api.js:26-42 | groups that agree on id, name and code, member rows that differ only in their group id and activity rows that agree on message and date map to the same record, so the creator, the visibility and the actor are lost |
| GroupsApi.MapearGrupoSnoc | src/servicios/grupos.api.js:31-40 | mapping distributes over appending one member row and one activity row |
| GroupsApi.PrimerSondeo | src/servicios/grupos.api.js:13-22 | the first attempt that does not find its code taken, or the number of attempts when every one does |
| GroupsApi.CodigoUnico | src/servicios/grupos.api.js:12-24 | a returned code is not used by any group row |
| GroupsApi.CodigoUnicoPrimerLibre | src/servicios/grupos.api.js:21 | if the earlier attempts all found their codes taken and attempt `i` finds none, its code is returned |
| GroupsApi.CodigoUnicoPropagaError | src/servicios/grupos.api.js:20 | a lookup error after only taken codes is the call's error |
| GroupsApi.CodigoUnicoAgotado | src/servicios/grupos.api.js:23 | when every attempt finds its code taken, the call fails with "No se pudo generar un codigo unico." |
| GroupsApi.PrimerSondeoEs | src/servicios/grupos.api.js:13-22 | the attempt used is the first whose code is free or whose lookup fails |
| GroupsApi.Backend.GenerarCodigoUnico | src/servicios/grupos.api.js:12-24 | the bounded loop returns `CodigoUnico` of the table's codes, the drawn codes and the lookup errors; a returned code has 6 characters from `A-Z0-9` |
| GroupsApi.IndiceDeCodigo | src/servicios/grupos.api.js:154-158 | the row found by `.eq("codigo", c)` has that code, and -1 means no row has it |
| GroupsApi.IndiceDeCodigoUnico | src/servicios/grupos.api.js:118-122 | with unique codes, the row found by code is the only row with that code |
| GroupsApi.EsMiembro | src/servicios/grupos.api.js:162-167 | true exactly when a member row joins this user to this group |
| GroupsApi.ObtenerVistaPreviaPorCodigo | src/servicios/grupos.api.js:116-141 | returns a group exactly when a row has the normalised code, and that group carries the normalised code |
| GroupsApi.VistaPreviaDelGrupo | src/servicios/grupos.api.js:116-141 | the preview by a group's code is that group's mapped record with its members and activity |
| GroupsApi.CrearForma | src/servicios/grupos.api.js:74-113 | the returned group has the trimmed name, only the creator as an admin, and only "{displayName} creo el grupo." |
| GroupsApi.CrearPreservaConsistencia | src/servicios/grupos.api.js:78-111 | a fresh code and fresh ids keep codes, ids and memberships unique, and add exactly the new code |
| GroupsApi.Backend.CrearGrupo | src/servicios/grupos.api.js:65-114 | a session error or no user fails with that message and writes nothing; otherwise the unique-code outcome decides between an error and the three inserts of `Crear`; the result and tables are `Creacion` of the old tables; consistency is kept |
| GroupsApi.UnirseCodigoDesconocido | src/servicios/grupos.api.js:159-160 | an unknown code fails with "El codigo ingresado no existe." and writes nothing |
| GroupsApi.UnirseYaMiembro | src/servicios/grupos.api.js:170-171 | an existing member gets the group back and nothing is inserted |
| GroupsApi.UnirseNuevoMiembro | src/servicios/grupos.api.js:171-211 | a new member is inserted as non-admin under the trimmed name and listed last, and "{nombre} se unio al grupo." is listed first |
| GroupsApi.AdmitirVista | src/servicios/grupos.api.js:197-211 | after the two inserts, the reread members end with the joiner and the reread activity starts with the join entry |
| GroupsApi.AdmitirPreservaConsistencia | src/servicios/grupos.api.js:173-193 | inserting the membership of a non-member keeps the tables consistent |
| GroupsApi.UnirsePreservaConsistencia | src/servicios/grupos.api.js:143-212 | joining keeps the tables consistent |
| GroupsApi.UnirseIdempotente | src/servicios/grupos.api.js:170-195 | after a successful join, the same user joining again, under any name, id or date, gets the same result and writes nothing |
| GroupsApi.Backend.UnirseAGrupoPorCodigo | src/servicios/grupos.api.js:143-212 | the result and the new tables are those of `GroupsApi.Unirse`; consistency is kept |
| GroupsApi.Backend.constructor | src/servicios/grupos.api.js:1 | the tables start empty |
| GroupsApi.ListarGruposDelUsuario | src/servicios/grupos.api.js:44-63 | a session error or no user gives that error; a signed-in user gets the joined groups of their memberships, newest first (`MembresiasDe`), as `Unidos` lists them |
| GroupsApi.MembresiasDe | src/servicios/grupos.api.js:53-57 | exactly the member rows of that user: each listed row is one of theirs, and every row of theirs is listed |
| GroupsApi.MembresiasDeSnoc | src/servicios/grupos.api.js:53-57 | a row inserted last comes first in its user's memberships and leaves other users' unchanged (descending `joined_at`) |
| GroupsApi.GrupoUnido | src/servicios/grupos.api.js:55 | a membership's joined group is present exactly when a group row has its id |
| GroupsApi.Unidos | src/servicios/grupos.api.js:60-62 | no more groups than memberships; each is an existing group of one of the memberships; every membership whose group exists contributes that group |
| GroupsApi.UnidosUno | src/servicios/grupos.api.js:60-62 | one membership gives its joined group when the group exists (`.map(item => item.grupos)`) and nothing when it is missing (`.filter(Boolean)`) |
| GroupsApi.UnidosConcat | src/servicios/grupos.api.js:60-62 | the listing of concatenated memberships is the concatenation of their listings, so with UnidosUno the query order and multiplicity are kept |
| GroupsApi.ListarCompleto | src/servicios/grupos.api.js:44-63 | a signed-in user's listing holds the group of every membership of theirs whose group exists, and only groups they are a member of |
| GroupsApi.GrupoUnidoUnico | src/servicios/grupos.api.js:55 | with unique ids, a group row is the one its id finds |
| GroupsApi.ListarTrasUnirse | src/servicios/grupos.api.js:53-57 | after a new join, the joined group comes first in the user's list, before every earlier group |
| GroupsApi.ActualizarNombre | src/servicios/grupos.api.js:214-220 | only the name of the group with that id changes, to the trimmed name; no other table changes and no activity is written |
| GroupsApi.ActualizarNombrePreserva | src/servicios/grupos.api.js:214-220 | renaming keeps every code, every id and consistency |
| GroupsApi.ActualizarNombreVistaPrevia | src/servicios/grupos.api.js:214-220 | the preview by the group's code then shows the trimmed name and is otherwise unchanged |
| GroupsApi.Backend.ActualizarNombreGrupo | src/servicios/grupos.api.js:214-220 | the tables become `ActualizarNombre` of the old tables |
| GroupsApi.Backend.ExpulsarMiembro | src/servicios/grupos.api.js:222-229 | the tables become `Expulsar` of the old tables |
| GroupsApi.Backend.EliminarGrupoPorId | src/servicios/grupos.api.js:231-237 | the tables become `EliminarGrupo` of the old tables |
| GroupsApi.Backend.EliminarArchivoGrupo | src/servicios/grupos.api.js:239-246 | the tables become `EliminarArchivo` of the old tables |
| GroupsApi.Expulsar | src/servicios/grupos.api.js:222-229 | removes exactly the member rows with that id in that group: every remaining row was an old row, no removed row remains, and every other old row is kept; the other tables are untouched |
| GroupsApi.EliminarGrupo | src/servicios/grupos.api.js:231-237 | removes exactly the group rows with that id: every remaining row was an old row without that id, and every other old row is kept; the other tables are untouched |
| GroupsApi.EliminarArchivo | src/servicios/grupos.api.js:239-246 | removes exactly the file rows with that group and path: every remaining row was an old row other than that one, and every other old row is kept; the other tables are untouched |
| GroupsApi.EliminacionesConcat | src/servicios/grupos.api.js:222-246 | each of the three deletes distributes over concatenation of its table, so the rows kept stay in their order and each appears as often as before |
| GroupsApi.EliminarPreservaConsistencia | src/servicios/grupos.api.js:222-237 | the deletes keep the tables consistent |
| GroupsApi.ListarTrasEliminar | src/servicios/grupos.api.js:60-62 | a deleted group no longer appears in anyone's list, though its membership rows remain |
| GroupColors.ToInt32 | src/utils/groupColors.js:16 | the result is a signed 32-bit integer congruent to the input modulo 2^32 |
| GroupColors.StepIsWrappedMultiply | src/utils/groupColors.js:15-16 | `(hash << 5) - hash + code`, then `hash \|= 0`, equals `int32(31 * hash + code)` |
| GroupColors.Hash32Snoc | src/utils/groupColors.js:14-17 | hashing one more character is the wrapping `31 * h + c` recurrence |
| GroupColors.ToInt32Congruent | src/utils/groupColors.js:16 | numbers congruent modulo 2^32 wrap to the same 32-bit integer |
| GroupColors.HashTexto | src/utils/groupColors.js:12-19 | the loop returns the absolute value of the wrapping 32-bit hash, between 0 and 2^31 |
| GroupColors.ObtenerColorGrupo | src/utils/groupColors.js:21-23 | the colour is the palette entry at the hash modulo 8, always an entry of the palette |
| GroupColors.EmptyIdentifier | src/utils/groupColors.js:12 | the empty identifier hashes to 0 and gets the first palette entry |
| EditProfile.Numero | src/pages/EditarPerfil.jsx:19 | `Number` gives 0 for a blank string, the decimal value of the trimmed text when it is all digits, and `NaN` otherwise |
| EditProfile.TimeToMinutesHHMM | src/pages/EditarPerfil.jsx:18-21 | `"HH:MM"` in digits reads as `60 * HH + MM` |
| EditProfile.TimeToMinutesPartes | src/pages/EditarPerfil.jsx:18-21 | two colon-free parts that read as `a` and `b` give `60 * a + b` |
| EditProfile.TimeToMinutesSinDosPuntos | src/pages/EditarPerfil.jsx:19-20 | a time without a colon has no minutes part and reads as `NaN` |
| EditProfile.NumeroDeDigitos | src/pages/EditarPerfil.jsx:19 | a non-empty string of decimal digits reads as its decimal value |
| EditProfile.ValidarBloque | src/pages/EditarPerfil.jsx:23-43 | the empty message exactly when both times are set, start is before end and no other block on that day overlaps |
| EditProfile.FaltaHoraPrimero | src/pages/EditarPerfil.jsx:24-26 | a missing start or end time is reported before anything else |
| EditProfile.InicioNoMenor | src/pages/EditarPerfil.jsx:29-31 | a start at or after the end is rejected with the order message |
| EditProfile.MismaHoraRechazada | src/pages/EditarPerfil.jsx:29-31 | equal start and end times are rejected |
| EditProfile.OtroDiaNoChoca | src/pages/EditarPerfil.jsx:34 | blocks on different days never clash |
| EditProfile.ContiguosNoChocan | src/pages/EditarPerfil.jsx:37 | back-to-back blocks never clash, because the intervals are half-open |
| EditProfile.EditadoNoChocaConsigo | src/pages/EditarPerfil.jsx:33 | the block whose id is the truthy `excludeId` is skipped |
| EditProfile.ChocaEsSolape | src/pages/EditarPerfil.jsx:32-38 | a clash is exactly a same-day overlap of half-open intervals, which is symmetric |
| EditProfile.Reemplazar | src/pages/EditarPerfil.jsx:165-177 | same length; only blocks with the edited id get the form's values, and they keep their id |
| EditProfile.Eliminar | src/pages/EditarPerfil.jsx:143 | every kept block comes from the schedule and none has that id, and every block with another id is kept |
| EditProfile.EliminarConcat | src/pages/EditarPerfil.jsx:143 | deleting distributes over concatenation |
| EditProfile.EliminarAusente | src/pages/EditarPerfil.jsx:143 | deleting an id nobody has changes nothing |
| EditProfile.EliminarPreservaValidez | src/pages/EditarPerfil.jsx:142-145 | a valid schedule stays valid after a delete |
| EditProfile.GuardarPreservaValidez | src/pages/EditarPerfil.jsx:147-189 | saving a block that the validator accepts keeps a valid schedule valid (readable times, start before end, unique ids, no same-day overlap) |
| EditProfile.EditorHorario.LimpiarBloque | src/pages/EditarPerfil.jsx:126-132 | the form is reset to day 1, 10:00 to 12:00, no type, not editing; the schedule is unchanged |
| EditProfile.EditorHorario.ManejarEditarBloque | src/pages/EditarPerfil.jsx:134-140 | the form takes the block's day, times, type and id; the schedule and the messages are unchanged |
| EditProfile.EditorHorario.ManejarEliminarBloque | src/pages/EditarPerfil.jsx:142-145 | the schedule becomes `Eliminar` of the old one; the form is cleared only if that block was being edited |
| EditProfile.EditorHorario.ManejarGuardarBloque | src/pages/EditarPerfil.jsx:147-189 | a rejected block sets the error and changes nothing else; an accepted one replaces the edited block or appends a new one, clears the form and keeps a valid schedule valid |
| EditProfile.ValidarPerfil | src/pages/EditarPerfil.jsx:195-213 | no message exactly when the name is non-blank and, when a new password or its confirmation is given, the current password is present, the new one has 8 or more characters and matches the confirmation; otherwise the first failing check's message, in the order name, current password, length (an empty new password with a confirmation included), confirmation |
| EditProfile.ValidarPerfilOrden | src/pages/EditarPerfil.jsx:195-210 | the checks in order: a blank name gives its message; with neither password field set nothing else is checked; otherwise a missing current password, then a new password under 8 characters (the empty one included), then a mismatched confirmation, each with its message |
| GroupDetail.AutorPorId | src/pages/GrupoDetalle.jsx:91 | `undefined` when no member's `user_id` equals `actor_id` (`===`); otherwise the name of the first member whose `user_id` matches (`find`) |
| GroupDetail.AutorPorTexto | src/pages/GrupoDetalle.jsx:129 | the trimmed text before the first place where whitespace and "se ha unido" (ASCII letters in either case) follow a non-empty prefix with no line terminator, or none exactly when the pattern matches nowhere |
| GroupDetail.BuscarUnion | src/pages/GrupoDetalle.jsx:129 | the search stops at the shortest match of the lazy group |
| GroupDetail.ItemsDeUno | src/pages/GrupoDetalle.jsx:76-88 | a row gives one item when it passes the filter and none otherwise |
| GroupDetail.ItemsDeConcat | src/pages/GrupoDetalle.jsx:76-89 | the stream of a concatenation is the concatenation of the streams, so input order is kept |
| GroupDetail.StreamSinGrupo | src/pages/GrupoDetalle.jsx:74 | no group means an empty stream |
| GroupDetail.TipoDeTag | src/pages/GrupoDetalle.jsx:93-127 | a tagged message is never a join or a system line, and it is an announcement exactly when it starts with "ANUNCIO::" |
| GroupDetail.TagPrecede | src/pages/GrupoDetalle.jsx:93-131 | a tagged row is classified by its tag even when it contains "se ha unido" |
| GroupDetail.TextoDeTag | src/pages/GrupoDetalle.jsx:93-127 | a row `TAG + t` is kept, gets that tag's kind, text exactly `t`, and the author found by id, else "Creador" for announcements and "Sistema" for the other tags |
| GroupDetail.ItemDeUnion | src/pages/GrupoDetalle.jsx:129-137 | an untagged row with "se ha unido" becomes a join whose author is the member found by id, else the name in the text, else "Sistema", with text "{autor} se unió al grupo" |
| GroupDetail.AutorPorTextoDeNombre | src/pages/GrupoDetalle.jsx:129 | for a name without whitespace, the text author of "{nombre} se ha unido" is that name |
| GroupDetail.BuscarUnionTrasNombre | src/pages/GrupoDetalle.jsx:129 | for a name without whitespace, the lazy group of "{nombre} se ha unido" ends right after the name |
| GroupDetail.AutorDeUnionPorTexto | src/pages/GrupoDetalle.jsx:129-137 | with no member found by id, "{nombre} se ha unido" is shown as a join by that name |
| GroupDetail.CreacionEsSistema | src/pages/GrupoDetalle.jsx:85-86 | an untagged creation row without "se ha unido" is kept and becomes a `sistema` item with the raw message as its text |
| GroupDetail.SistemaSoloCreacion | src/pages/GrupoDetalle.jsx:140-145 | every kept `sistema` item comes from a creation message |
| GroupDetail.PublicarAnuncio | src/pages/GrupoDetalle.jsx:304-320 | an insert happens exactly when the group has an id, the user may publish and the text is not blank; the stored message is "ANUNCIO::" plus the trimmed text |
| GroupDetail.PublicarAnuncioRechazos | src/pages/GrupoDetalle.jsx:307-314 | the creator check is reported before the blank-text check, with their messages |
| GroupDetail.AnuncioLeido | src/pages/GrupoDetalle.jsx:63-71 | a row "ANUNCIO::" + t read back first is the first announcement, with text t, and adds exactly one |
| GroupDetail.AnuncioIdaYVuelta | src/pages/GrupoDetalle.jsx:58-71 | an inserted announcement read back at the head of the activity decodes to the trimmed text and shows as an `anuncio` item with that text |
| GroupDetail.ManejarArchivos | src/pages/GrupoDetalle.jsx:206-216 | exactly the files whose type is PDF, PNG or DOCX and whose size is at most 20·1024·1024 bytes are kept, in order |
| GroupDetail.ManejarArchivosIdempotente | src/pages/GrupoDetalle.jsx:206-216 | filtering an already filtered selection keeps it whole |
| GroupDetail.ManejarArchivosConcat | src/pages/GrupoDetalle.jsx:207 | the filter distributes over concatenation, so drop order is kept |
| GroupDetail.SafeName | src/pages/GrupoDetalle.jsx:243 | same length; each character in `[a-zA-Z0-9.-]` is kept and every other becomes `_` |
| GroupDetail.SafeNameIdempotente | src/pages/GrupoDetalle.jsx:243 | sanitising twice is sanitising once, and a safe name is left unchanged |
| GroupDetail.RutaSubidaForma | src/pages/GrupoDetalle.jsx:244 | the path starts with `archivos/`, and its last segment is the timestamp, a dash and the sanitised name |
| GroupDetail.PanelSubida.Seleccionar | src/pages/GrupoDetalle.jsx:206-221 | the selection becomes `ManejarArchivos` of the dropped files |
| GroupDetail.SubirCadaUno | src/pages/GrupoDetalle.jsx:242-262 | the files are uploaded and then registered (when there is a group id) in order; the first failing step stops the loop and its error is returned; the registered paths are those of the files before it, and the uploaded ones also the failing file's when only its registration failed |
| GroupDetail.PanelSubida.SubirArchivos | src/pages/GrupoDetalle.jsx:225-280 | an empty selection only sets "Selecciona archivos primero"; a session error is shown and nothing is uploaded; otherwise files are uploaded and recorded in order until the first failure, with the paths of `Rutas`; success clears the selection, shows the count and logs the ARCHIVO entry when the group and user are set; a failure shows "Error al subir: " and its message; `subiendo` ends false |
| GroupDetail.PrimerFallo | src/pages/GrupoDetalle.jsx:242-262 | the first file at or after `i` whose upload or metadata insert fails, or the count when none does |
| GroupDetail.Rutas | src/pages/GrupoDetalle.jsx:243-244 | one upload path per file, each built from that file's sanitised name |
| HomePage.DiaLabel | src/pages/Home.jsx:66 | a three-letter label for days 0 to 6, with 0 as "Dom", and "" for any other number |
| HomePage.LeResumenPreorden | src/pages/Home.jsx:60-64 | the summary comparator (day, then start time) is a total preorder |
| HomePage.LeDrawerPreorden | src/pages/Home.jsx:75-79 | the drawer comparator (start time, then day) is a total preorder |
| HomePage.ResumenHorarioVacio | src/pages/Home.jsx:57 | the summary is "Sin horario" exactly when the schedule is empty |
| HomePage.ResumenHorarioOrdenado | src/pages/Home.jsx:58-69 | the summary lists every block once, ordered by day (Sunday first) then start time, each as "Lbl start-end", joined by ", " |
| HomePage.NombreClase | src/pages/Home.jsx:83 | the trimmed type, or "Clase" when it is blank; never empty |
| HomePage.HorarioDrawerCorrecto | src/pages/Home.jsx:72-85 | the drawer keeps every block, ordered by start time then day, each with its day label and class name |
| HomePage.Iniciales | src/pages/Home.jsx:378-383 | at most two characters |
| HomePage.InicialesSinNombre | src/pages/Home.jsx:378 | a group without a name shows "G" |
| HomePage.InicialesUnaPalabra | src/pages/Home.jsx:378-383 | a one-word name shows its first letter, upper-cased |
| HomePage.InicialesDosPalabras | src/pages/Home.jsx:378-383 | a two-word name shows the two first letters, upper-cased |
| HomePage.DisparaToast | src/pages/Home.jsx:198-200 | the toast fires only for "se ha unido a tu grupo"; with a user signed in, only for a set actor who is someone else; without one, exactly for that text |
| HomePage.ToastNuncaPropio | src/pages/Home.jsx:199-200 | a signed-in user never gets a toast for their own action or for one without an actor |
| HomePage.EfectoBusqueda | src/pages/Home.jsx:87-105 | nothing when closed; a blank trimmed query with filter "all" clears the suggestions; otherwise a search with the trimmed query is scheduled |
| HomePage.Guarda | src/pages/Home.jsx:255-258 | no message exactly when signed in, with a display name and a non-blank field; otherwise the first failing check's message |
| HomePage.PaginaInicio.ManejarCambioCodigo | src/pages/Home.jsx:242-252 | the code is stored upper-cased; from 4 characters on the preview is the lookup of that code, below 4 it is cleared |
| HomePage.PaginaInicio.CargarGrupos | src/pages/Home.jsx:110-121 | without a user the list is emptied; otherwise it becomes the service's list, or the error is shown and the list kept |
| HomePage.PaginaInicio.ManejarCrearGrupo | src/pages/Home.jsx:254-272 | a failed guard sets its message and changes nothing else; otherwise the result and the tables are `Creacion` of the old tables; on success the form is reset, "/grupos/{codigo}" opened and the list reloaded from the new tables (or the listing's error shown); a rejected call leaves every other field as it was |
| HomePage.PaginaInicio.EnviarCreacion | src/pages/Home.jsx:255-271 | the error is cleared, `crearGrupo` is applied to the tables, and its answer handled as in ManejarCrearGrupo |
| HomePage.PaginaInicio.TrasCrear | src/pages/Home.jsx:266-271 | the steps after a successful create: the form reset, the list reloaded from the given tables or the listing's error shown, and the route set |
| HomePage.PaginaInicio.ManejarUnirse | src/pages/Home.jsx:294-314 | a failed guard sets its message and changes nothing else; otherwise the result and the tables are `Unirse` of the old tables; a failure shows its message and changes nothing else; success clears the code and preview, closes the menus, reloads the list from the new tables (or shows the listing's error) and opens the group |
| HomePage.PaginaInicio.EnviarUnion | src/pages/Home.jsx:295-313 | the error is cleared, the join is applied to the tables, and its answer handled as in ManejarUnirse |
| HomePage.PaginaInicio.TrasUnirse | src/pages/Home.jsx:300-313 | the steps after the join answer: an error is shown with nothing else changed; success resets the code, preview and menus, reloads the list or shows the listing's error, and sets the route |
| SignUp.PuntosHastaSinSaltos | src/pages/Registro.jsx:70 | on a string without line terminators, the look-ahead `.*X` matches exactly when some character is of class X |
| SignUp.ClaveSeguraSi | src/pages/Registro.jsx:70 | the password regex accepts exactly the strings with 8 or more characters, no line terminator, a digit 0-9 and a letter A-Z |
| SignUp.ValidarRegistro | src/pages/Registro.jsx:51-77 | no message exactly when the four fields are non-blank, the e-mail ends with "@correo.unimet.edu.ve", the password passes the rule and matches the confirmation; otherwise the first failing check's message, including "Las contraseñas no coinciden." when only the confirmation differs |
| SignUp.CorreoAntesQueClave | src/pages/Registro.jsx:65-73 | once the fields are filled, a foreign e-mail is reported before any password problem |
| SignUp.ClaveAntesQueConfirmacion | src/pages/Registro.jsx:70-77 | a weak password is reported before a mismatched confirmation |
| SignUp.CorreoMayusculasRechazado | src/pages/Registro.jsx:65 | the suffix test is exact and case-sensitive |
| SignUp.DisplayNameDeNombres | src/pages/Registro.jsx:80 | with both names filled, the display name is the two trimmed names joined by one space |
| SignUp.MetadatosDe | src/pages/Registro.jsx:85-91 | the sign-up metadata holds the display name and the trimmed fields |
| SignUp.PerfilDe | src/pages/Registro.jsx:99-110 | the profile row holds the new id, the trimmed fields and an empty career |
| SignUp.MensajeDeLogin | src/pages/Registro.jsx:34-43 | no error, no message; an "Invalid login" error gives the fixed not-found message; any other error gives "⚠️ " plus its message |
| SignUp.LoginSinInvalidConservaTexto | src/pages/Registro.jsx:34-43 | every login failure is visible, and only "Invalid login" errors lose their own text |
| SignUp.PaginaRegistro.ManejarAuth | src/pages/Registro.jsx:20-134 | in sign-in mode the login answer decides the message; in sign-up mode the checks run first, the backend is called only when all pass, and failures show "⚠️ " plus the message; `cargando` ends false |
| SignUp.PaginaRegistro.Alternar | src/pages/Registro.jsx:334-338 | the mode flips and the message is hidden, because `texto` becomes undefined |
| SignUpLegacy.ValidarRegistro | src/paginas/Registro.jsx:43-52 | no message exactly when the e-mail has the suffix and the password passes the rule; the e-mail is reported first |
| SignUpLegacy.SinCamposExtra | src/paginas/Registro.jsx:43-58 | whatever the newer page's extra fields hold, this page accepts exactly the pairs that pass the newer page's e-mail and password checks |
| SignUpLegacy.PaginaRegistro.ManejarAuth | src/paginas/Registro.jsx:14-73 | an "Invalid login" error gives the fixed message; any other login error is caught by the same handler and shown as "⚠️ " plus its message; sign-up sends only the e-mail and password |
| SignUpLegacy.PaginaRegistro.Alternar | src/paginas/Registro.jsx:142-145 | the mode flips, the message is reset to the empty message (not visible), and the e-mail, password and loading flag are unchanged |
| TaskMaster.Completadas | src/pages/TaskMaster.jsx:16 | the number of completed tasks is at most the total |
| TaskMaster.Redondear | src/pages/TaskMaster.jsx:17 | round half up on an exact fraction: the `p` with `p <= x + 1/2 < p + 1` |
| TaskMaster.Progreso | src/pages/TaskMaster.jsx:15-17 | 0 with no tasks, otherwise `round(100 * done / total)` |
| TaskMaster.ProgresoAcotado | src/pages/TaskMaster.jsx:17 | the percentage is between 0 and 100 |
| TaskMaster.ProgresoCompleto | src/pages/TaskMaster.jsx:16-17 | all tasks done gives 100 |
| TaskMaster.ProgresoNulo | src/pages/TaskMaster.jsx:16-17 | no task done gives 0 |
| TaskMaster.RedondearUnico | src/pages/TaskMaster.jsx:17 | `Redondear(num, den)` is the only integer `q` with `q <= num/den + 1/2 < q + 1`, which is what `Math.round` returns |
| TaskMaster.ProgresoUnico | src/pages/TaskMaster.jsx:17 | the percentage is `Math.round(done / total * 100)`: the only integer within one half below and strictly less than one half above the exact value |
| TaskMaster.RedondearMonotono | src/pages/TaskMaster.jsx:17 | rounding never decreases when the numerator grows |
| TaskMaster.ProgresoCrece | src/pages/TaskMaster.jsx:15-17 | ticking off one task never lowers the percentage |
| TaskMaster.RedondearHasta100 | src/pages/TaskMaster.jsx:17 | rounding a fraction of at most 100 gives at most 100 |
| TaskMaster.FormularioTarea.HandleSubmit | src/pages/TaskMaster.jsx:6-12 | a text that is not blank is forwarded untrimmed and the input cleared; a blank one is ignored |
| PublicRepo.EsCreadorRequiereAmbos | src/pages/RepositorioPublicoDetalle.jsx:45 | no session or no creator id gives no creator rights |
| PublicRepo.FiltrarArchivos | src/pages/RepositorioPublicoDetalle.jsx:57-60 | every kept file is one of the input and at most 20 MiB, and every input file of at most 20 MiB is kept, whatever its type; a missing list gives none |
| PublicRepo.FiltrarArchivosConcat | src/pages/RepositorioPublicoDetalle.jsx:58 | the filter distributes over concatenation, so the order and multiplicity of the selection are kept |
| PublicRepo.FiltrarArchivosUno | src/pages/RepositorioPublicoDetalle.jsx:58 | a single file is kept exactly when its size is at most 20 MiB |
| PublicRepo.FiltroDeGrupoMasEstricto | src/pages/RepositorioPublicoDetalle.jsx:58 | the group page's selection is this page's selection further filtered by type |
| PublicRepo.FiltrarDosVeces | src/pages/RepositorioPublicoDetalle.jsx:58 | filtering by two conditions in turn equals filtering by both at once |
| PublicRepo.NombreArchivo | src/pages/RepositorioPublicoDetalle.jsx:185 | the stored name, else the path's last segment when non-empty, else "archivo" (no path, or a path ending in "/"); never empty |
| PublicRepo.NombreDeRuta | src/pages/RepositorioPublicoDetalle.jsx:185 | without a stored name, the shown name is the path's last segment |
| PublicRepo.Icono | src/pages/RepositorioPublicoDetalle.jsx:186-187 | the icon depends only on the lower-cased text after the last dot: pdf, docx, png, otherwise the generic one |
| PublicRepo.IconoPorUltimaExtension | src/pages/RepositorioPublicoDetalle.jsx:186-187 | the text after the last dot decides the icon, in any letter case |
| PublicRepo.PrimerFallo | src/pages/RepositorioPublicoDetalle.jsx:77-79 | the first file at or after `i` whose upload fails, or the count when none does |
| PublicRepo.PaginaRepositorio.Cargar | src/pages/RepositorioPublicoDetalle.jsx:34-55 | success stores the repository, the creator flag and, with an id, the listing; any failure keeps the error text, clears the repository and empties the list; `cargando` ends false |
| PublicRepo.PaginaRepositorio.ManejarArchivos | src/pages/RepositorioPublicoDetalle.jsx:57-60 | the selection becomes `FiltrarArchivos` of the files |
| PublicRepo.PaginaRepositorio.ManejarSubirArchivos | src/pages/RepositorioPublicoDetalle.jsx:69-88 | no id: nothing; not the creator: "Solo el creador puede subir archivos."; no selection: "Selecciona archivos primero." with the selection unchanged; otherwise files are uploaded in order until the first failure, with the count or error message; `subiendo` ends false |
| PublicRepo.PaginaRepositorio.ManejarEliminarArchivo | src/pages/RepositorioPublicoDetalle.jsx:90-103 | without both ids nothing happens; a non-creator gets the message and no delete is called; otherwise the delete is called and its error, if any, shown |
| GroupsPage.Guarda | src/paginas/PaginaGrupos.jsx:18-19 | no message exactly when the user name and then the field are non-blank; otherwise the first failing check's message |
| GroupsPage.PaginaGrupos.ManejarCrearGrupo | src/paginas/PaginaGrupos.jsx:16-27 | a failed guard sets its message and writes nothing; otherwise the error is cleared, the result and the tables are `Creacion` of the old tables, and the new group's code is opened; a rejection opens nothing and sets no error |
| GroupsPage.PaginaGrupos.EnviarCreacion | src/paginas/PaginaGrupos.jsx:17-26 | the error is cleared, `crearGrupo` is applied to the tables and a success opens the group's code |
| GroupsPage.PaginaGrupos.ManejarCambioCodigo | src/paginas/PaginaGrupos.jsx:29-39 | the code is stored upper-cased; from 4 characters on the preview is looked up, below 4 it is cleared |
| GroupsPage.PaginaGrupos.ManejarUnirse | src/paginas/PaginaGrupos.jsx:41-55 | a failed guard sets its message; a join failure sets the error to its message and opens nothing; success opens the group |
| GroupsPage.PaginaGrupos.EnviarUnion | src/paginas/PaginaGrupos.jsx:46-54 | the error is cleared, the backend join is applied to the tables, and its answer either opens the group with its code or sets the error to its message |
| Mismatches.AVista | src/servicios/grupos.api.js:26-42 | the group page's view of a mapped group: every actor is `undefined`, there is no creator id, member ids are strings, messages are kept |
| Mismatches.AnuncioSiempreRechazado | src/pages/GrupoDetalle.jsx:58-61 | on a mapped group nobody may publish, and a publish attempt is rejected with the creator message |
| Mismatches.SinAutorPorId | src/pages/GrupoDetalle.jsx:91 | no row of a mapped group finds its author by id |
| Mismatches.StreamSinMiembros | src/pages/GrupoDetalle.jsx:73-146 | the stream of a mapped group does not depend on its members |
| Mismatches.UnionSinSeHaUnido | src/servicios/grupos.api.js:186 | the service's join entry contains "se ha unido" only if the name does |
| Mismatches.UnionSinCreacion | src/servicios/grupos.api.js:186 | the service's join entry reads as a creation only if the name does |
| Mismatches.UnionDelServicioOculta | src/pages/GrupoDetalle.jsx:77-88 | the service's join entry is dropped by the stream filter whenever the bare name would be |
| Mismatches.StreamTrasOculta | src/pages/GrupoDetalle.jsx:76-89 | a dropped row added at the head of the activity leaves the stream unchanged |
| Mismatches.StreamTrasUnion | src/servicios/grupos.api.js:186 | a group whose activity gained the join entry has the stream it had before, whatever its members |
| Mismatches.UnirseNoCambiaStream | src/servicios/grupos.api.js:171-211 | after a successful first join, the stream of the returned group equals the stream before the join |
| Mismatches.ToastNuncaPorUnion | src/pages/Home.jsx:198 | the home page's toast never fires for the service's join entry |
| Mismatches.CreacionSinSeHaUnido | src/servicios/grupos.api.js:101 | the creation entry contains "se ha unido" only if the name does |
| Mismatches.CreacionSeReconoce | src/pages/GrupoDetalle.jsx:85 | whatever the name, the service's creation entry reads as a creation |
| Mismatches.CreacionDelServicioEsSistema | src/pages/GrupoDetalle.jsx:140-145 | the service's creation entry is kept and shown as a `sistema` item with the raw message |

## Left out

- Network, authentication and storage calls are not modelled: every Supabase query, insert, upload, remove, listing and public URL. The tables are abstract state. On the pages, upload, metadata, session and load errors are oracles or parameters.
- GroupsApi.Creacion, GroupsApi.Unirse, GroupsApi.ObtenerVistaPreviaPorCodigo, GroupsApi.ListarGruposDelUsuario, GroupsApi.ActualizarNombre, GroupsApi.Expulsar, GroupsApi.EliminarGrupo and GroupsApi.EliminarArchivo: only the session and the code-uniqueness probes can fail. The errors of the other queries, inserts, updates and deletes are not modelled (src/servicios/grupos.api.js:58, 87, 99, 111, 123, 131, 138, 159, 168, 183, 194, 202, 209, 219, 228, 236, 245). Neither are the partial writes a failure part-way leaves, such as a group row without its member row when the insert at line 99 fails.
- The realtime channel of the home page is not modelled (src/pages/Home.jsx:181-217). Only its toast predicate is.
- Timers are not modelled: the search debounce, the toast timeout and the redirect two seconds after sign-up.
- `localStorage` and JSON persistence of the in-memory store are replaced by the `grupos` field.
- Rendering, DOM listeners, `window.confirm` and routing are not modelled. Navigation is recorded as the target path.
- The functions that the pages import but that are not defined in the service file carry no rule: public-repository search, visibility, leaving a group and the public-repository file calls. Their answers are parameters.
- The reload and listing steps after uploads and deletes on the group page are not modelled. The same holds for the activity rows that handler writes.
- GroupDetail.PanelSubida.SubirArchivos: of the `grupo_archivos` row inserted per file (src/pages/GrupoDetalle.jsx:252-259) only the storage path is kept in `registradas`; the name, MIME type, size and uploader are not.
- Date formatting and `toFixed` sizes are display only and are left out.
- Characters are Unicode scalar values, not UTF-16 code units. A character outside the Basic Multilingual Plane, such as an emoji, therefore counts once where JavaScript counts two. This is where the model differs from the source:
  - `GroupDetail.SafeName("😀.pdf")` gives one "_" where JavaScript gives two;
  - `GroupColors.HashTexto` hashes the scalar value, not the two surrogates, so such a name can get another palette colour;
  - the password length checks `.{8,}` and `length < 8` (SignUp.ClaveSeguraSi, EditProfile.ValidarPerfil) count such characters once;
  - the first character taken by `HomePage.Iniciales` is never a lone surrogate.
- Case mapping is ASCII only, and `localeCompare` is lexicographic order on characters, not the locale's collation. `Math.round` is exact round half up on rationals, with no floating point.
- `Number` covers blank strings and decimal digits. Signs, decimals, exponents and hex are read as `NaN`.
- Several messages in these pages are stored mis-encoded in the repository (for example "Inicia sesi√≥n para crear grupos."). They are kept exactly as stored.
- The home page passes `esPublico` to `crearGrupo`, but the service ignores it, so it is not part of the create model.
- `maybeSingle` with several rows is out of scope. The model assumes unique codes and memberships (`GroupsApi.Consistente`), which the tables keep.
- Database cascades on delete are not modelled: deleting a group leaves its member, activity and file rows.
- Activity `fecha` and membership `joined_at` values are taken to be in insertion order, so "newest first" is the reverse of insertion order. This underlies the activity order, the newest-first listing of the user's groups (GroupsApi.MembresiasDe, GroupsApi.MembresiasDeSnoc) and the member order.
- GroupsMock.Almacen.CrearGrupo: requires that the random stream eventually draws a free code. The source's `while` loop terminates only then, with probability 1.
- HomePage.ResumenHorarioOrdenado: sortedness and the permutation are proved; the stability of `Array.prototype.sort` between equal keys is not.
- HomePage.HorarioDrawerCorrecto: as above, stability between blocks with equal start time and day is not stated.
- HomePage.Iniciales: the contract states only the length bound. The one-word, two-word and no-name cases are separate lemmas, not a closed form for every name.
- HomePage.PaginaInicio.ManejarCrearGrupo and GroupsPage.PaginaGrupos.ManejarCrearGrupo: an unhandled rejection of `crearGrupo` is modelled as ending the handler with no further state change.
- EditProfile.GuardarPreservaValidez: requires readable form times and a fresh id for a new block. The source draws the id from `crypto.randomUUID()`, which is assumed fresh.
