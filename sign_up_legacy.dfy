/**
 * The older sign-in / sign-up page `src/paginas/Registro.jsx`: only the
 * e-mail suffix and the password rule are checked, and sign-up sends just
 * the e-mail and the password.
 */
module SignUpLegacy {

  import opened JsText
  import SignUp

  /** The checks of the sign-up branch, in order; the first failure's message. */
  function ValidarRegistro(email: string, password: string): (r: Option<string>)
    ensures r.None? <==> EndsWith(email, SignUp.SufijoCorreo) && SignUp.ClaveSegura(password)
    ensures !EndsWith(email, SignUp.SufijoCorreo) ==> r == Some(SignUp.MensajeCorreoNoPermitido)
    ensures EndsWith(email, SignUp.SufijoCorreo) && !SignUp.ClaveSegura(password) ==> r == Some(SignUp.MensajeClaveDebil)
  {
    if !EndsWith(email, SignUp.SufijoCorreo) then Some(SignUp.MensajeCorreoNoPermitido)
    else if !SignUp.ClaveSegura(password) then Some(SignUp.MensajeClaveDebil)
    else None
  }

  /**
   * This page asks for no confirmation and no extra fields: whatever the
   * newer page's extra fields hold, a pair it accepts here passes exactly
   * when the newer page's e-mail and password checks pass.
   */
  lemma SinCamposExtra(f: SignUp.Formulario)
    requires !Blank(f.username) && !Blank(f.telefono) && !Blank(f.nombre) && !Blank(f.apellido)
    requires f.password == f.passwordConfirm
    ensures ValidarRegistro(f.email, f.password) == SignUp.ValidarRegistro(f)
  {
  }

  /** The sign-up call: only the e-mail and the password. */
  datatype Alta = Alta(email: string, password: string)

  class PaginaRegistro {
    var esLogin: bool
    var email: string
    var password: string
    var cargando: bool
    var mensaje: SignUp.Mensaje

    constructor ()
      ensures esLogin && !cargando && mensaje == SignUp.SinMensaje && email == "" && password == ""
    {
      esLogin, email, password := true, "", "";
      cargando, mensaje := false, SignUp.SinMensaje;
    }

    /**
     * `manejarAuth`: `login` and `signUp` are the backend's error messages,
     * if any. A login error other than "Invalid login" is re-thrown and
     * lands in the same `catch`, which shows it as a warning.
     */
    method ManejarAuth(login: Option<string>, signUp: Option<string>) returns (alta: Option<Alta>)
      modifies this
      ensures !cargando && esLogin == old(esLogin) && email == old(email) && password == old(password)
      ensures esLogin ==> alta.None? && mensaje == SignUp.MensajeDeLogin(login)
      ensures !esLogin ==>
        var v := ValidarRegistro(email, password);
        if v.Some? then alta.None? && mensaje == SignUp.Aviso(v.value)
        else alta == Some(Alta(email, password))
             && mensaje == (if signUp.Some? then SignUp.Aviso(signUp.value)
                            else SignUp.Mensaje(Str(SignUp.TextoCuentaCreada), Str("exito")))
    {
      mensaje := SignUp.SinMensaje;
      cargando := true;
      alta := None;
      if esLogin {
        mensaje := SignUp.MensajeDeLogin(login);
      } else {
        var v := ValidarRegistro(email, password);
        if v.Some? {
          mensaje := SignUp.Aviso(v.value);
        } else {
          alta := Some(Alta(email, password));
          if signUp.Some? {
            mensaje := SignUp.Aviso(signUp.value);
          } else {
            mensaje := SignUp.Mensaje(Str(SignUp.TextoCuentaCreada), Str("exito"));
          }
        }
      }
      cargando := false;
    }

    /** The mode button: flips the mode and hides the message. */
    method Alternar()
      modifies this
      ensures esLogin == !old(esLogin) && mensaje == SignUp.Mensaje(Undefined, Str(""))
      ensures !SignUp.Visible(mensaje)
      ensures email == old(email) && password == old(password) && cargando == old(cargando)
    {
      esLogin := !esLogin;
      mensaje := SignUp.Mensaje(Undefined, Str(""));
    }
  }
}
