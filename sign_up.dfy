/**
 * The sign-in / sign-up page `src/pages/Registro.jsx`: the sign-up
 * validation chain, the password rule, the display name and profile row it
 * derives, the mapping of authentication errors to the message shown, and
 * the mode toggle.
 */
module SignUp {

  import opened JsText

  // ---------------------------------------------------------------------
  // The password rule `/^(?=.*\d)(?=.*[A-Z]).{8,}$/`.
  // ---------------------------------------------------------------------

  /** The regular-expression `.`: any code unit but a line terminator. */
  predicate Punto(c: char)
  {
    !IsLineTerminator(c)
  }

  predicate IsUpperAscii(c: char)
  {
    'A' <= c <= 'Z'
  }

  /**
   * Whether `.*X` matches at the start of `s`, where `X` is the class `cls`:
   * some character of class `cls` is reached before any line terminator.
   */
  predicate PuntosHasta(s: string, cls: char -> bool)
  {
    if s == [] then false
    else if cls(s[0]) then true
    else Punto(s[0]) && PuntosHasta(s[1..], cls)
  }

  /** `.{8,}$` from the start: at least eight characters, none a line terminator. */
  predicate OchoOMas(s: string)
  {
    |s| >= 8 && forall i :: 0 <= i < |s| ==> Punto(s[i])
  }

  /** `regex.test(password)`: both look-aheads and the body match at position 0. */
  predicate ClaveSegura(p: string)
  {
    PuntosHasta(p, IsDigit) && PuntosHasta(p, IsUpperAscii) && OchoOMas(p)
  }

  /** In a string without line terminators, `.*X` matches exactly when `X` occurs. */
  lemma {:induction false} PuntosHastaSinSaltos(s: string, cls: char -> bool)
    requires forall i :: 0 <= i < |s| ==> Punto(s[i])
    ensures PuntosHasta(s, cls) <==> exists i :: 0 <= i < |s| && cls(s[i])
  {
    if s != [] {
      PuntosHastaSinSaltos(s[1..], cls);
      assert forall i :: 0 < i < |s| ==> s[1..][i - 1] == s[i];
    }
  }

  /**
   * The rule in plain words: at least eight characters, no line terminator,
   * at least one digit 0-9 and at least one letter A-Z.
   */
  lemma ClaveSeguraSi(p: string)
    ensures ClaveSegura(p) <==>
      && |p| >= 8
      && (forall i :: 0 <= i < |p| ==> !IsLineTerminator(p[i]))
      && (exists i :: 0 <= i < |p| && IsDigit(p[i]))
      && (exists i :: 0 <= i < |p| && IsUpperAscii(p[i]))
  {
    if OchoOMas(p) {
      PuntosHastaSinSaltos(p, IsDigit);
      PuntosHastaSinSaltos(p, IsUpperAscii);
    }
  }

  // ---------------------------------------------------------------------
  // The sign-up validation chain.
  // ---------------------------------------------------------------------

  const SufijoCorreo: string := "@correo.unimet.edu.ve"

  const MensajeSinUsername: string := "El username es obligatorio."
  const MensajeSinTelefono: string := "El teléfono es obligatorio."
  const MensajeSinNombre: string := "El nombre es obligatorio."
  const MensajeSinApellido: string := "El apellido es obligatorio."
  const MensajeCorreoNoPermitido: string := "Solo se permiten correos @correo.unimet.edu.ve"
  const MensajeClaveDebil: string := "La contraseña debe tener: 8 caracteres, 1 mayúscula y 1 número."
  const MensajeClavesDistintas: string := "Las contraseñas no coinciden."

  /** The form fields the sign-up mode reads. */
  datatype Formulario = Formulario(email: string, password: string, passwordConfirm: string,
                                   username: string, telefono: string, nombre: string, apellido: string)

  /** The sign-up checks of `manejarAuth`, in order; the first failure's message. */
  function ValidarRegistro(f: Formulario): (r: Option<string>)
    ensures r.None? <==>
      && !Blank(f.username) && !Blank(f.telefono) && !Blank(f.nombre) && !Blank(f.apellido)
      && EndsWith(f.email, SufijoCorreo) && ClaveSegura(f.password) && f.password == f.passwordConfirm
    ensures Blank(f.username) ==> r == Some(MensajeSinUsername)
    ensures !Blank(f.username) && Blank(f.telefono) ==> r == Some(MensajeSinTelefono)
    ensures !Blank(f.username) && !Blank(f.telefono) && Blank(f.nombre) ==> r == Some(MensajeSinNombre)
    ensures !Blank(f.username) && !Blank(f.telefono) && !Blank(f.nombre) && Blank(f.apellido) ==>
              r == Some(MensajeSinApellido)
    ensures && !Blank(f.username) && !Blank(f.telefono) && !Blank(f.nombre) && !Blank(f.apellido)
            && EndsWith(f.email, SufijoCorreo) && ClaveSegura(f.password) && f.password != f.passwordConfirm
            ==> r == Some(MensajeClavesDistintas)
  {
    if Trim(f.username) == "" then Some(MensajeSinUsername)
    else if Trim(f.telefono) == "" then Some(MensajeSinTelefono)
    else if Trim(f.nombre) == "" then Some(MensajeSinNombre)
    else if Trim(f.apellido) == "" then Some(MensajeSinApellido)
    else if !EndsWith(f.email, SufijoCorreo) then Some(MensajeCorreoNoPermitido)
    else if !ClaveSegura(f.password) then Some(MensajeClaveDebil)
    else if f.password != f.passwordConfirm then Some(MensajeClavesDistintas)
    else None
  }

  /** Once the four fields are filled, a foreign e-mail is reported before any password problem. */
  lemma CorreoAntesQueClave(f: Formulario)
    requires !Blank(f.username) && !Blank(f.telefono) && !Blank(f.nombre) && !Blank(f.apellido)
    requires !EndsWith(f.email, SufijoCorreo)
    ensures ValidarRegistro(f) == Some(MensajeCorreoNoPermitido)
  {
  }

  /** With the fields and e-mail accepted, a weak password is reported before a mismatch. */
  lemma ClaveAntesQueConfirmacion(f: Formulario)
    requires !Blank(f.username) && !Blank(f.telefono) && !Blank(f.nombre) && !Blank(f.apellido)
    requires EndsWith(f.email, SufijoCorreo) && !ClaveSegura(f.password)
    ensures ValidarRegistro(f) == Some(MensajeClaveDebil)
  {
  }

  /** The suffix test is exact: an upper-cased domain is refused. */
  lemma CorreoMayusculasRechazado()
    ensures !EndsWith("ana@CORREO.UNIMET.EDU.VE", SufijoCorreo)
  {
    var e := "ana@CORREO.UNIMET.EDU.VE";
    assert e[|e| - |SufijoCorreo|..][1] == 'C';
  }

  // ---------------------------------------------------------------------
  // What a valid sign-up sends.
  // ---------------------------------------------------------------------

  /** `` `${nombre.trim()} ${apellido.trim()}`.trim() `` */
  function DisplayName(nombre: string, apellido: string): string
  {
    Trim(Trim(nombre) + " " + Trim(apellido))
  }

  /** With both names filled, the display name is the two trimmed names joined by one space. */
  lemma DisplayNameDeNombres(nombre: string, apellido: string)
    requires !Blank(nombre) && !Blank(apellido)
    ensures DisplayName(nombre, apellido) == Trim(nombre) + " " + Trim(apellido)
  {
    var s := Trim(nombre) + " " + Trim(apellido);
    assert s[0] == Trim(nombre)[0];
    assert s[|s| - 1] == Trim(apellido)[|Trim(apellido)| - 1];
    TrimOfTrimmed(s);
  }

  /** The `options.data` of `signUp`. */
  datatype Metadatos = Metadatos(displayName: string, username: string, phone: string,
                                 firstName: string, lastName: string)

  /** The `profiles` row upserted for the new user. */
  datatype Perfil = Perfil(id: string, username: string, telefono: string, nombre: string,
                           apellido: string, career: string)

  function MetadatosDe(f: Formulario): (r: Metadatos)
    ensures r.username == Trim(f.username) && r.phone == Trim(f.telefono)
    ensures r.firstName == Trim(f.nombre) && r.lastName == Trim(f.apellido)
    ensures r.displayName == DisplayName(f.nombre, f.apellido)
  {
    Metadatos(DisplayName(f.nombre, f.apellido), Trim(f.username), Trim(f.telefono),
              Trim(f.nombre), Trim(f.apellido))
  }

  /** The profile row: the trimmed fields under the new id and an empty career. */
  function PerfilDe(id: string, f: Formulario): (r: Perfil)
    ensures r.id == id && r.career == ""
    ensures r.username == Trim(f.username) && r.telefono == Trim(f.telefono)
    ensures r.nombre == Trim(f.nombre) && r.apellido == Trim(f.apellido)
  {
    Perfil(id, Trim(f.username), Trim(f.telefono), Trim(f.nombre), Trim(f.apellido), "")
  }

  // ---------------------------------------------------------------------
  // Messages.
  // ---------------------------------------------------------------------

  /** `{ texto, tipo }`; the toggle writes `text` instead of `texto`, leaving `texto` undefined. */
  datatype Mensaje = Mensaje(texto: JsId, tipo: JsId)

  const SinMensaje: Mensaje := Mensaje(Str(""), Str(""))
  const InvalidLogin: string := "Invalid login"
  const TextoNoEncontrado: string := "❌ Usuario no encontrado o contraseña incorrecta. ¿Quieres crear una cuenta?"
  const TextoCuentaCreada: string := "✅ ¡Cuenta creada! Hemos enviado un enlace de verificación a tu correo Unimet."
  const PrefijoAviso: string := "⚠️ "

  /** The `catch` branch: `'⚠️ ' + error.message` as an error. */
  function Aviso(m: string): Mensaje
  {
    Mensaje(Str(PrefijoAviso + m), Str("error"))
  }

  /** `mensaje.texto && ...`: whether the alert is rendered at all. */
  predicate Visible(m: Mensaje)
  {
    Truthy(m.texto)
  }

  /**
   * The message after `signInWithPassword` answers with `error` (the
   * message of its error object, if any).
   */
  function MensajeDeLogin(error: Option<string>): (r: Mensaje)
    ensures error.None? ==> r == SinMensaje
    ensures error.Some? && Includes(error.value, InvalidLogin) ==> r == Mensaje(Str(TextoNoEncontrado), Str("error"))
    ensures error.Some? && !Includes(error.value, InvalidLogin) ==> r == Aviso(error.value)
    ensures error.Some? ==> Visible(r) && r.tipo == Str("error")
  {
    if error.None? then SinMensaje
    else if Includes(error.value, InvalidLogin) then Mensaje(Str(TextoNoEncontrado), Str("error"))
    else Aviso(error.value)
  }

  /** Every failure is visible; only "Invalid login" errors lose their own text. */
  lemma LoginSinInvalidConservaTexto(m: string)
    requires !Includes(m, InvalidLogin)
    ensures MensajeDeLogin(Some(m)).texto.s == PrefijoAviso + m
    ensures EndsWith(MensajeDeLogin(Some(m)).texto.s, m)
  {
    var t := PrefijoAviso + m;
    assert t[|t| - |m|..] == m;
  }

  /** The answers of the authentication backend to one `manejarAuth`. */
  datatype Respuestas = Respuestas(login: Option<string>, signUp: Option<string>, nuevoId: JsId,
                                   perfil: Option<string>)

  /** The calls `manejarAuth` makes in sign-up mode: the sign-up, then the profile row if any. */
  datatype Alta = Alta(email: string, password: string, datos: Metadatos, perfil: Option<Perfil>)

  class PaginaRegistro {
    var esLogin: bool
    var form: Formulario
    var cargando: bool
    var mensaje: Mensaje

    constructor ()
      ensures esLogin && !cargando && mensaje == SinMensaje
      ensures form == Formulario("", "", "", "", "", "", "")
    {
      esLogin := true;
      form := Formulario("", "", "", "", "", "", "");
      cargando := false;
      mensaje := SinMensaje;
    }

    /**
     * `manejarAuth`: in sign-in mode, the login answer decides the message;
     * in sign-up mode, the checks run first and the backend is called only if
     * they all pass (`alta` records that call). `cargando` ends up false.
     */
    method ManejarAuth(resp: Respuestas) returns (alta: Option<Alta>)
      modifies this
      ensures !cargando && esLogin == old(esLogin) && form == old(form)
      ensures esLogin ==> alta.None? && mensaje == MensajeDeLogin(resp.login)
      ensures !esLogin ==>
        var v := ValidarRegistro(form);
        if v.Some? then alta.None? && mensaje == Aviso(v.value)
        else
          && alta.Some? && alta.value.email == form.email && alta.value.password == form.password
          && alta.value.datos == MetadatosDe(form)
          && (resp.signUp.Some? ==> alta.value.perfil.None? && mensaje == Aviso(resp.signUp.value))
          && (resp.signUp.None? && !Truthy(resp.nuevoId) ==> alta.value.perfil.None? && mensaje == Mensaje(Str(TextoCuentaCreada), Str("exito")))
          && (resp.signUp.None? && Truthy(resp.nuevoId) ==>
                && alta.value.perfil == Some(PerfilDe(resp.nuevoId.s, form))
                && mensaje == (if resp.perfil.Some? then Aviso(resp.perfil.value)
                               else Mensaje(Str(TextoCuentaCreada), Str("exito"))))
    {
      mensaje := SinMensaje;
      cargando := true;
      alta := None;
      if esLogin {
        mensaje := MensajeDeLogin(resp.login);
      } else {
        var v := ValidarRegistro(form);
        if v.Some? {
          mensaje := Aviso(v.value);
        } else if resp.signUp.Some? {
          alta := Some(Alta(form.email, form.password, MetadatosDe(form), None));
          mensaje := Aviso(resp.signUp.value);
        } else {
          var perfil := if Truthy(resp.nuevoId) then Some(PerfilDe(resp.nuevoId.s, form)) else None;
          alta := Some(Alta(form.email, form.password, MetadatosDe(form), perfil));
          if perfil.Some? && resp.perfil.Some? {
            mensaje := Aviso(resp.perfil.value);
          } else {
            mensaje := Mensaje(Str(TextoCuentaCreada), Str("exito"));
          }
        }
      }
      cargando := false;
    }

    /** The mode button: flips the mode and hides the message, since `texto` becomes undefined. */
    method Alternar()
      modifies this
      ensures esLogin == !old(esLogin) && !Visible(mensaje) && mensaje == Mensaje(Undefined, Str(""))
      ensures form == old(form) && cargando == old(cargando)
    {
      esLogin := !esLogin;
      mensaje := Mensaje(Undefined, Str(""));
    }
  }
}
