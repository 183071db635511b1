/**
 * The weekly schedule on the profile page: `"HH:MM"` times read as minutes,
 * the validator of a new or edited block (half-open intervals that must not
 * overlap on the same day), the editor that adds, replaces and deletes
 * blocks, and the checks run before the profile is saved.
 */
module EditProfile {

  import opened JsText
  import Seqs

  /** A schedule block: `id`, `dayOfWeek` (0 = Sunday), `startTime`, `endTime` and `type`. */
  datatype Bloque = Bloque(id: string, dayOfWeek: int, startTime: string, endTime: string, tipo: string)

  // ---------------------------------------------------------------------
  // Numbers. `None` stands for `NaN`, which every comparison rejects.
  // ---------------------------------------------------------------------

  /** `Number(s)` for the strings a time input yields: blank is 0, decimal digits their value, anything else `NaN`. */
  function Numero(s: string): (r: Option<int>)
    ensures Blank(s) ==> r == Some(0)
    ensures !Blank(s) ==> (r.Some? <==> AllDigits(Trim(s)))
    ensures !Blank(s) && AllDigits(Trim(s)) ==> r == Some(DecimalValue(Trim(s)))
  {
    var t := Trim(s);
    if t == "" then Some(0)
    else if AllDigits(t) then Some(DecimalValue(t))
    else None
  }

  /** `a < b` on numbers that may be `NaN`. */
  predicate Menor(a: Option<int>, b: Option<int>)
  {
    a.Some? && b.Some? && a.value < b.value
  }

  /** `a >= b` on numbers that may be `NaN`. */
  predicate MayorOIgual(a: Option<int>, b: Option<int>)
  {
    a.Some? && b.Some? && a.value >= b.value
  }

  /** `timeToMinutes`: hours and minutes of `t.split(":")`, as `h * 60 + m`. */
  function TimeToMinutes(t: string): Option<int>
  {
    var partes := Split(t, ':');
    MinutosDe(Numero(partes[0]), if |partes| >= 2 then Numero(partes[1]) else None)
  }

  /** `h * 60 + m`, `NaN` when either operand is. */
  function MinutosDe(h: Option<int>, m: Option<int>): Option<int>
  {
    if h.Some? && m.Some? then Some(h.value * 60 + m.value) else None
  }

  lemma {:induction false} DigitsNotBlank(s: string)
    requires s != [] && AllDigits(s)
    ensures Trim(s) == s && !Blank(s)
  {
    assert !IsWhite(s[0]) && !IsWhite(s[|s| - 1]);
    assert TrimStart(s) == s;
    assert TrimEnd(s) == s;
  }

  /** Reading `hh + ":" + mm` when neither side holds a colon. */
  lemma TimeToMinutesDosPartes(hh: string, mm: string)
    requires ':' !in hh && ':' !in mm
    ensures TimeToMinutes(hh + ":" + mm) == MinutosDe(Numero(hh), Numero(mm))
  {
    SplitTwo(hh, ':', mm);
  }

  lemma SinDosPuntos(s: string)
    requires AllDigits(s)
    ensures ':' !in s
  {
    assert forall i :: 0 <= i < |s| ==> s[i] != ':';
  }

  /** `"HH:MM"` whose parts read as `a` and `b` reads as `60 * a + b` minutes. */
  lemma TimeToMinutesPartes(hh: string, mm: string, a: int, b: int)
    requires ':' !in hh && ':' !in mm
    requires Numero(hh) == Some(a) && Numero(mm) == Some(b)
    ensures TimeToMinutes(hh + ":" + mm) == Some(60 * a + b)
  {
    TimeToMinutesDosPartes(hh, mm);
    MinutosDeAmbos(Numero(hh), Numero(mm), a, b);
  }

  lemma MinutosDeAmbos(h: Option<int>, m: Option<int>, a: int, b: int)
    requires h == Some(a) && m == Some(b)
    ensures MinutosDe(h, m) == Some(60 * a + b)
  {
  }

  /** A time `"HH:MM"` written in digits reads as `60 * HH + MM` minutes. */
  lemma TimeToMinutesHHMM(hh: string, mm: string, a: nat, b: nat)
    requires hh != [] && AllDigits(hh) && mm != [] && AllDigits(mm)
    requires a == DecimalValue(hh) && b == DecimalValue(mm)
    ensures TimeToMinutes(hh + ":" + mm) == Some(60 * a + b)
  {
    SinDosPuntos(hh);
    SinDosPuntos(mm);
    NumeroDeDigitos(hh);
    NumeroDeDigitos(mm);
    TimeToMinutesPartes(hh, mm, a, b);
  }

  /** A string of decimal digits reads as its value. */
  lemma NumeroDeDigitos(s: string)
    requires s != [] && AllDigits(s)
    ensures Numero(s) == Some(DecimalValue(s))
  {
    DigitsNotBlank(s);
  }

  /** A time without a colon has no minutes part, so it reads as `NaN`. */
  lemma TimeToMinutesSinDosPuntos(t: string)
    requires ':' !in t
    ensures TimeToMinutes(t) == None
  {
    SplitWithoutSep(t, ':');
  }

  // ---------------------------------------------------------------------
  // The validator.
  // ---------------------------------------------------------------------

  const MensajeFaltaHora: string := "Debes definir hora de inicio y fin."
  const MensajeOrden: string := "La hora de inicio debe ser menor que la hora de fin."
  const MensajeSolapa: string := "El bloque se solapa con otro en el mismo día."

  function Inicio(b: Bloque): Option<int> { TimeToMinutes(b.startTime) }

  function Fin(b: Bloque): Option<int> { TimeToMinutes(b.endTime) }

  /** The callback of `existentes.some(...)`: does `b` block the new `bloque`? */
  predicate Choca(bloque: Bloque, b: Bloque, excludeId: Option<string>)
  {
    && !(Present(excludeId) && b.id == excludeId.value)
    && b.dayOfWeek == bloque.dayOfWeek
    && Menor(Inicio(bloque), Fin(b))
    && Menor(Inicio(b), Fin(bloque))
  }

  /** `validarBloque`: the first failing check's message, or `""`. */
  function ValidarBloque(bloque: Bloque, existentes: seq<Bloque>, excludeId: Option<string>): (r: string)
    ensures r == "" <==>
      && bloque.startTime != "" && bloque.endTime != ""
      && !MayorOIgual(Inicio(bloque), Fin(bloque))
      && forall k :: 0 <= k < |existentes| ==> !Choca(bloque, existentes[k], excludeId)
    ensures r != "" ==> r in {MensajeFaltaHora, MensajeOrden, MensajeSolapa}
  {
    if bloque.startTime == "" || bloque.endTime == "" then MensajeFaltaHora
    else if MayorOIgual(Inicio(bloque), Fin(bloque)) then MensajeOrden
    else if Seqs.Any(existentes, (b: Bloque) => Choca(bloque, b, excludeId)) then MensajeSolapa
    else ""
  }

  /** A missing time is reported before anything else. */
  lemma FaltaHoraPrimero(bloque: Bloque, existentes: seq<Bloque>, excludeId: Option<string>)
    requires bloque.startTime == "" || bloque.endTime == ""
    ensures ValidarBloque(bloque, existentes, excludeId) == "Debes definir hora de inicio y fin."
  {
  }

  /** A block that starts when it ends, or later, is rejected with the order message. */
  lemma InicioNoMenor(bloque: Bloque, existentes: seq<Bloque>, excludeId: Option<string>)
    requires bloque.startTime != "" && bloque.endTime != ""
    requires Inicio(bloque).Some? && Fin(bloque).Some? && Inicio(bloque).value >= Fin(bloque).value
    ensures ValidarBloque(bloque, existentes, excludeId) == "La hora de inicio debe ser menor que la hora de fin."
  {
  }

  /** Equal start and end times are rejected. */
  lemma MismaHoraRechazada(bloque: Bloque, existentes: seq<Bloque>, excludeId: Option<string>)
    requires bloque.startTime == bloque.endTime && bloque.startTime != ""
    requires Inicio(bloque).Some?
    ensures ValidarBloque(bloque, existentes, excludeId) == "La hora de inicio debe ser menor que la hora de fin."
  {
  }

  /** Blocks on different days never clash. */
  lemma OtroDiaNoChoca(bloque: Bloque, b: Bloque, excludeId: Option<string>)
    requires b.dayOfWeek != bloque.dayOfWeek
    ensures !Choca(bloque, b, excludeId)
  {
  }

  /** Back-to-back blocks (one ends when the other starts) never clash: the intervals are half-open. */
  lemma ContiguosNoChocan(bloque: Bloque, b: Bloque, excludeId: Option<string>)
    requires (Fin(b).Some? && Inicio(bloque) == Fin(b)) || (Fin(bloque).Some? && Fin(bloque) == Inicio(b))
    ensures !Choca(bloque, b, excludeId)
  {
  }

  /** The block being edited is skipped, so it never clashes with its old self. */
  lemma EditadoNoChocaConsigo(bloque: Bloque, b: Bloque)
    requires b.id != ""
    ensures !Choca(bloque, b, Some(b.id))
  {
  }

  /** Overlap of two half-open intervals on the same day; it is symmetric. */
  predicate SeSolapan(a: Bloque, b: Bloque)
  {
    a.dayOfWeek == b.dayOfWeek && Menor(Inicio(a), Fin(b)) && Menor(Inicio(b), Fin(a))
  }

  lemma ChocaEsSolape(bloque: Bloque, b: Bloque, excludeId: Option<string>)
    ensures Choca(bloque, b, excludeId) <==>
              !(Present(excludeId) && b.id == excludeId.value) && SeSolapan(bloque, b) && SeSolapan(b, bloque)
  {
  }

  // ---------------------------------------------------------------------
  // The schedule invariant and the pure effect of the editor's buttons.
  // ---------------------------------------------------------------------

  predicate BienFormado(b: Bloque)
  {
    Menor(Inicio(b), Fin(b))
  }

  /** Every block has readable times with start before end, ids are unique, and no two blocks overlap. */
  ghost predicate HorarioValido(h: seq<Bloque>)
  {
    && (forall i :: 0 <= i < |h| ==> BienFormado(h[i]))
    && (forall i, j :: 0 <= i < j < |h| ==> h[i].id != h[j].id)
    && (forall i, j :: 0 <= i < j < |h| ==> !SeSolapan(h[i], h[j]))
  }

  /** The edited block: its id (and any other field) kept, the form's values put in. */
  function ConFormulario(b: Bloque, dia: int, horaInicio: string, horaFin: string, tipo: string): Bloque
  {
    b.(dayOfWeek := dia, startTime := horaInicio, endTime := horaFin, tipo := tipo)
  }

  function Reemplazar(h: seq<Bloque>, id: string, dia: int, horaInicio: string, horaFin: string, tipo: string): (r: seq<Bloque>)
    ensures |r| == |h|
    ensures forall i :: 0 <= i < |h| ==>
      r[i] == if h[i].id == id then ConFormulario(h[i], dia, horaInicio, horaFin, tipo) else h[i]
  {
    Seqs.Map(h, (b: Bloque) => if b.id == id then ConFormulario(b, dia, horaInicio, horaFin, tipo) else b)
  }

  /** `horario` after a successful save: replace the edited block, or append a new one. */
  function Guardar(h: seq<Bloque>, dia: int, horaInicio: string, horaFin: string, tipo: string,
                   editandoId: Option<string>, nuevoId: string): seq<Bloque>
  {
    if Present(editandoId) then Reemplazar(h, editandoId.value, dia, horaInicio, horaFin, tipo)
    else h + [Bloque(nuevoId, dia, horaInicio, horaFin, tipo)]
  }

  /** `prev.filter(b => b.id !== id)` */
  function Eliminar(h: seq<Bloque>, id: string): (r: seq<Bloque>)
    ensures |r| <= |h|
    ensures forall i :: 0 <= i < |r| ==> r[i] in h && r[i].id != id
    ensures forall i :: 0 <= i < |h| && h[i].id != id ==> h[i] in r
  {
    Seqs.Filter(h, (b: Bloque) => b.id != id)
  }

  /** Deleting keeps the others in order: it distributes over concatenation. */
  lemma EliminarConcat(a: seq<Bloque>, b: seq<Bloque>, id: string)
    ensures Eliminar(a + b, id) == Eliminar(a, id) + Eliminar(b, id)
  {
    Seqs.FilterAppend(a, b, (x: Bloque) => x.id != id);
  }

  /** Deleting an id nobody has changes nothing. */
  lemma EliminarAusente(h: seq<Bloque>, id: string)
    requires forall i :: 0 <= i < |h| ==> h[i].id != id
    ensures Eliminar(h, id) == h
  {
    Seqs.FilterKeepsAll(h, (x: Bloque) => x.id != id);
  }

  /** Two blocks that may sit in one schedule: different ids and no overlap. */
  predicate Compatibles(a: Bloque, b: Bloque)
  {
    a.id != b.id && !SeSolapan(a, b)
  }

  /** A valid schedule stays valid after a delete. */
  lemma EliminarPreservaValidez(h: seq<Bloque>, id: string)
    requires HorarioValido(h)
    ensures HorarioValido(Eliminar(h, id))
  {
    assert forall i, j :: 0 <= i < j < |h| ==> Compatibles(h[i], h[j]);
    Seqs.FilterPairwise(h, (b: Bloque) => b.id != id, Compatibles);
  }

  /**
   * Saving a block that the validator accepts keeps a valid schedule valid,
   * given that the form's times are readable and a new block's id is fresh
   * and non-empty.
   */
  lemma GuardarPreservaValidez(h: seq<Bloque>, dia: int, horaInicio: string, horaFin: string, tipo: string,
                               editandoId: Option<string>, nuevoId: string)
    requires HorarioValido(h)
    requires TimeToMinutes(horaInicio).Some? && TimeToMinutes(horaFin).Some?
    requires !Present(editandoId) ==> forall i :: 0 <= i < |h| ==> h[i].id != nuevoId
    requires ValidarBloque(Bloque("", dia, horaInicio, horaFin, tipo), h, editandoId) == ""
    ensures HorarioValido(Guardar(h, dia, horaInicio, horaFin, tipo, editandoId, nuevoId))
  {
    var form := Bloque("", dia, horaInicio, horaFin, tipo);
    assert BienFormado(form);
    if Present(editandoId) {
      ReemplazarPreservaValidez(h, form, editandoId);
    } else {
      AnadirPreservaValidez(h, form, editandoId, nuevoId);
    }
  }

  /** Replacing the edited block by a form that clashes with no other block keeps validity. */
  lemma ReemplazarPreservaValidez(h: seq<Bloque>, form: Bloque, editandoId: Option<string>)
    requires HorarioValido(h) && BienFormado(form) && Present(editandoId)
    requires forall k :: 0 <= k < |h| ==> !Choca(form, h[k], editandoId)
    ensures HorarioValido(Reemplazar(h, editandoId.value, form.dayOfWeek, form.startTime, form.endTime, form.tipo))
  {
    var id := editandoId.value;
    var r := Reemplazar(h, id, form.dayOfWeek, form.startTime, form.endTime, form.tipo);
    forall i | 0 <= i < |r| ensures BienFormado(r[i]) {
      if h[i].id == id { assert Inicio(r[i]) == Inicio(form) && Fin(r[i]) == Fin(form); }
    }
    forall i, j | 0 <= i < j < |r| ensures r[i].id != r[j].id && !SeSolapan(r[i], r[j]) {
      assert r[i].id == h[i].id && r[j].id == h[j].id;
      if h[i].id == id {
        assert !Choca(form, h[j], editandoId);
        assert Inicio(r[i]) == Inicio(form) && Fin(r[i]) == Fin(form);
      } else if h[j].id == id {
        assert !Choca(form, h[i], editandoId);
        assert Inicio(r[j]) == Inicio(form) && Fin(r[j]) == Fin(form);
      }
    }
  }

  /** Appending a well-formed new block with a fresh id that clashes with nothing keeps validity. */
  lemma AnadirPreservaValidez(h: seq<Bloque>, form: Bloque, editandoId: Option<string>, nuevoId: string)
    requires HorarioValido(h) && BienFormado(form) && !Present(editandoId)
    requires forall i :: 0 <= i < |h| ==> h[i].id != nuevoId
    requires forall k :: 0 <= k < |h| ==> !Choca(form, h[k], editandoId)
    ensures HorarioValido(h + [form.(id := nuevoId)])
  {
    var nuevo := form.(id := nuevoId);
    var r := h + [nuevo];
    assert nuevo.startTime == form.startTime && nuevo.endTime == form.endTime;
    forall i | 0 <= i < |r| ensures BienFormado(r[i]) {
      if i < |h| { assert r[i] == h[i]; } else { assert r[i] == nuevo; }
    }
    forall i, j | 0 <= i < j < |r| ensures r[i].id != r[j].id && !SeSolapan(r[i], r[j]) {
      assert r[i] == h[i];
      if j < |h| {
        assert r[j] == h[j];
      } else {
        assert r[j] == nuevo;
        assert !Choca(form, h[i], editandoId);
      }
    }
  }

  // ---------------------------------------------------------------------
  // The editor: the form fields and the list, as state of the page.
  // ---------------------------------------------------------------------

  class EditorHorario {
    var horario: seq<Bloque>
    var dia: int
    var horaInicio: string
    var horaFin: string
    var tipo: string
    var editandoId: Option<string>
    var error: string
    var ok: string

    /** The page's initial state, with the schedule read from the profile. */
    constructor (inicial: seq<Bloque>)
      ensures horario == inicial && FormularioVacio()
      ensures error == "" && ok == ""
    {
      horario := inicial;
      dia, horaInicio, horaFin, tipo, editandoId := 1, "10:00", "12:00", "", None;
      error, ok := "", "";
    }

    predicate FormularioVacio()
      reads this
    {
      dia == 1 && horaInicio == "10:00" && horaFin == "12:00" && tipo == "" && editandoId == None
    }

    /** `limpiarBloque` */
    method LimpiarBloque()
      modifies this
      ensures FormularioVacio()
      ensures horario == old(horario) && error == old(error) && ok == old(ok)
    {
      dia := 1;
      horaInicio := "10:00";
      horaFin := "12:00";
      tipo := "";
      editandoId := None;
    }

    /** `manejarEditarBloque`: load a block into the form. */
    method ManejarEditarBloque(b: Bloque)
      modifies this
      ensures dia == b.dayOfWeek && horaInicio == b.startTime && horaFin == b.endTime
      ensures tipo == b.tipo && editandoId == Some(b.id)
      ensures horario == old(horario) && error == old(error) && ok == old(ok)
    {
      dia := b.dayOfWeek;
      horaInicio := b.startTime;
      horaFin := b.endTime;
      tipo := b.tipo;
      editandoId := Some(b.id);
    }

    /** `manejarEliminarBloque`: drop the blocks with that id; clear the form if it was being edited. */
    method ManejarEliminarBloque(id: string)
      modifies this
      ensures horario == Eliminar(old(horario), id)
      ensures old(editandoId) == Some(id) ==> FormularioVacio()
      ensures old(editandoId) != Some(id) ==>
        dia == old(dia) && horaInicio == old(horaInicio) && horaFin == old(horaFin)
        && tipo == old(tipo) && editandoId == old(editandoId)
      ensures error == old(error) && ok == old(ok)
      ensures HorarioValido(old(horario)) ==> HorarioValido(horario)
    {
      if HorarioValido(horario) {
        EliminarPreservaValidez(horario, id);
      }
      horario := Eliminar(horario, id);
      if editandoId == Some(id) {
        LimpiarBloque();
      }
    }

    /**
     * `manejarGuardarBloque`. `nuevoId` stands for `crypto.randomUUID()`.
     * A rejected block sets `error` and changes nothing else; an accepted
     * one is saved and the form cleared (an earlier `error` stays).
     */
    method ManejarGuardarBloque(nuevoId: string)
      modifies this
      ensures ok == ""
      ensures var msg := ValidarBloque(Bloque("", old(dia), old(horaInicio), old(horaFin), old(tipo)),
                                       old(horario), old(editandoId));
        && (msg != "" ==>
              && error == msg && horario == old(horario)
              && dia == old(dia) && horaInicio == old(horaInicio) && horaFin == old(horaFin)
              && tipo == old(tipo) && editandoId == old(editandoId))
        && (msg == "" ==>
              && horario == Guardar(old(horario), old(dia), old(horaInicio), old(horaFin), old(tipo),
                                    old(editandoId), nuevoId)
              && FormularioVacio() && error == old(error))
      ensures HorarioValido(old(horario))
              && TimeToMinutes(old(horaInicio)).Some? && TimeToMinutes(old(horaFin)).Some?
              && (!Present(old(editandoId)) ==> forall i :: 0 <= i < |old(horario)| ==> old(horario)[i].id != nuevoId)
              ==> HorarioValido(horario)
    {
      ok := "";
      var errorValidacion := ValidarBloque(Bloque("", dia, horaInicio, horaFin, tipo), horario, editandoId);
      if errorValidacion != "" {
        error := errorValidacion;
        return;
      }
      if HorarioValido(horario) && TimeToMinutes(horaInicio).Some? && TimeToMinutes(horaFin).Some?
         && (!Present(editandoId) ==> forall i :: 0 <= i < |horario| ==> horario[i].id != nuevoId) {
        GuardarPreservaValidez(horario, dia, horaInicio, horaFin, tipo, editandoId, nuevoId);
      }
      if Present(editandoId) {
        horario := Reemplazar(horario, editandoId.value, dia, horaInicio, horaFin, tipo);
      } else {
        horario := horario + [Bloque(nuevoId, dia, horaInicio, horaFin, tipo)];
      }
      LimpiarBloque();
    }
  }

  // ---------------------------------------------------------------------
  // `guardarPerfil`: the checks made before any call.
  // ---------------------------------------------------------------------

  const MensajeNombre: string := "El display name es obligatorio."
  const MensajeActual: string := "Debes ingresar tu contraseña actual."
  const MensajeLongitud: string := "La contraseña debe tener mínimo 8 caracteres."
  const MensajeCoinciden: string := "Las contraseñas no coinciden."

  function ValidarPerfil(displayName: string, passwordActual: string, password: string,
                         passwordConfirm: string): (r: string)
    ensures r == "" <==>
      !Blank(displayName)
      && (password != "" || passwordConfirm != "" ==>
            passwordActual != "" && |password| >= 8 && password == passwordConfirm)
    ensures r != "" ==> r in {MensajeNombre, MensajeActual, MensajeLongitud, MensajeCoinciden}
    ensures Blank(displayName) ==> r == MensajeNombre
    ensures !Blank(displayName) && (password != "" || passwordConfirm != "") && passwordActual == "" ==> r == MensajeActual
    ensures !Blank(displayName) && (password != "" || passwordConfirm != "") && passwordActual != "" && |password| < 8 ==>
              r == MensajeLongitud
    ensures !Blank(displayName) && passwordActual != "" && |password| >= 8 && password != passwordConfirm ==>
              r == MensajeCoinciden
  {
    if Blank(displayName) then MensajeNombre
    else if password != "" || passwordConfirm != "" then
      if passwordActual == "" then MensajeActual
      else if |password| < 8 then MensajeLongitud
      else if password != passwordConfirm then MensajeCoinciden
      else ""
    else ""
  }

  /**
   * The checks run in order: the display name, then (when either password
   * field is set) the current password, the length, and the confirmation.
   */
  lemma ValidarPerfilOrden(displayName: string, passwordActual: string, password: string, passwordConfirm: string)
    ensures Blank(displayName) ==>
      ValidarPerfil(displayName, passwordActual, password, passwordConfirm) == "El display name es obligatorio."
    ensures !Blank(displayName) && password == "" && passwordConfirm == "" ==>
      ValidarPerfil(displayName, passwordActual, password, passwordConfirm) == ""
    ensures !Blank(displayName) && (password != "" || passwordConfirm != "") && passwordActual == "" ==>
      ValidarPerfil(displayName, passwordActual, password, passwordConfirm) == "Debes ingresar tu contraseña actual."
    ensures !Blank(displayName) && passwordActual != "" && (password != "" || passwordConfirm != "") && |password| < 8 ==>
      ValidarPerfil(displayName, passwordActual, password, passwordConfirm) == "La contraseña debe tener mínimo 8 caracteres."
    ensures !Blank(displayName) && passwordActual != "" && |password| >= 8 && password != passwordConfirm ==>
      ValidarPerfil(displayName, passwordActual, password, passwordConfirm) == "Las contraseñas no coinciden."
  {
  }
}
