/** `RegisterScreen`: the sign-up form and its validation chain. */
module Register {
  import opened Wrappers
  import opened Text
  import opened Domain
  import opened Auth

  const MsgCampos: string := "Por favor, completa todos los campos"
  const MsgLongitud: string := "La contraseña debe tener al menos 6 caracteres"
  const MsgNoCoinciden: string := "Las contraseñas no coinciden"
  const MsgCorreo: string := "Por favor, ingresa un correo válido"
  const MsgRegistro: string := "Error al registrar usuario"

  // ---- the pattern /^\S+@\S+\.\S+$/ ----

  /** The pattern as written: non-blank text, an `@` with something before
      it, then a `.` with something between them and something after. */
  ghost predicate EmailPattern(s: string)
  {
    NoSpace(s) &&
    exists a, d :: 0 < a && a + 1 < d < |s| - 1 && s[a] == '@' && s[d] == '.'
  }

  /** `emailRegex.test(correo)`: the earliest usable `@` and the latest
      usable `.` are far enough apart. */
  function CorreoValido(s: string): bool
  {
    NoSpace(s) && |s| >= 1 &&
    var at, dot := IndexFrom(s, '@', 1), LastIndexBefore(s, '.', |s| - 1);
    at.Some? && dot.Some? && at.value + 1 < dot.value
  }

  lemma {:induction false} CorreoValidoSpec(s: string)
    ensures CorreoValido(s) <==> EmailPattern(s)
  {
    if CorreoValido(s) {
      var a, d := IndexFrom(s, '@', 1).value, LastIndexBefore(s, '.', |s| - 1).value;
      assert 0 < a && a + 1 < d < |s| - 1 && s[a] == '@' && s[d] == '.';
    }
    if EmailPattern(s) {
      var a, d :| 0 < a && a + 1 < d < |s| - 1 && s[a] == '@' && s[d] == '.';
      assert IndexFrom(s, '@', 1).Some? && IndexFrom(s, '@', 1).value <= a;
      assert LastIndexBefore(s, '.', |s| - 1).Some? && LastIndexBefore(s, '.', |s| - 1).value >= d;
    }
  }

  // ---- the validation chain ----

  datatype Formulario = Formulario(nombre: string, correo: string, contrasena: string, confirmar: string)

  /** The first failing check's message, or none when all pass. */
  function Validar(f: Formulario): Option<string>
  {
    if f.nombre == "" || f.correo == "" || f.contrasena == "" || f.confirmar == "" then Some(MsgCampos)
    else if |f.contrasena| < 6 then Some(MsgLongitud)
    else if f.contrasena != f.confirmar then Some(MsgNoCoinciden)
    else if !CorreoValido(f.correo) then Some(MsgCorreo)
    else None
  }

  /** Each message appears exactly when its check fails and every earlier
      one passes; the form is accepted iff every check passes. */
  lemma {:induction false} ValidarSpec(f: Formulario)
    ensures var vacio := f.nombre == "" || f.correo == "" || f.contrasena == "" || f.confirmar == "";
      && (Validar(f) == Some(MsgCampos) <==> vacio)
      && (Validar(f) == Some(MsgLongitud) <==> !vacio && |f.contrasena| < 6)
      && (Validar(f) == Some(MsgNoCoinciden) <==> !vacio && |f.contrasena| >= 6 && f.contrasena != f.confirmar)
      && (Validar(f) == Some(MsgCorreo) <==>
            !vacio && |f.contrasena| >= 6 && f.contrasena == f.confirmar && !EmailPattern(f.correo))
      && (Validar(f) == None <==>
            !vacio && |f.contrasena| >= 6 && f.contrasena == f.confirmar && EmailPattern(f.correo))
  {
    CorreoValidoSpec(f.correo);
    assert MsgCampos != MsgLongitud && MsgCampos != MsgNoCoinciden && MsgCampos != MsgCorreo;
    assert MsgLongitud != MsgNoCoinciden && MsgLongitud != MsgCorreo;
    assert MsgNoCoinciden != MsgCorreo;
  }

  /** A password of exactly six characters never fails the length check: a
      filled form with matching passwords and a valid address is accepted. */
  lemma {:induction false} SeisCaracteresBastan(f: Formulario)
    requires |f.contrasena| == 6
    ensures Validar(f) != Some(MsgLongitud)
    ensures f.nombre != "" && f.correo != "" && f.confirmar == f.contrasena && EmailPattern(f.correo)
      ==> Validar(f) == None
  {
    ValidarSpec(f);
  }

  /** The alert shown after a failed sign-up. */
  function MensajeError(error: Option<string>): (m: string)
    ensures m != ""
    ensures error.Some? && error.value != "" ==> m == error.value
  {
    if error.Some? && error.value != "" then error.value else MsgRegistro
  }

  /** The body `authService.register` posts. */
  datatype Registro = Registro(nombre: string, correo: string, contrasena: string, rol: Rol)

  class RegisterScreen {
    var nombre: string
    var correo: string
    var contrasena: string
    var confirmarContrasena: string
    var rol: Rol
    var loading: bool

    constructor ()
      ensures nombre == "" && correo == "" && contrasena == "" && confirmarContrasena == ""
      ensures rol == Mesero && !loading
    {
      nombre, correo, contrasena, confirmarContrasena := "", "", "", "";
      rol, loading := Mesero, false;
    }

    function Form(): Formulario
      reads this
    {
      Formulario(nombre, correo, contrasena, confirmarContrasena)
    }

    /** `handleRegister`: validation, then `signUp` with the chosen role.
        Returns the alert shown, if any, and the registration sent, if any. */
    method HandleRegister(auth: AuthContext, res: Result<Usuario, string>) returns (alerta: Option<string>, enviado: Option<Registro>)
      modifies this, auth
      ensures enviado.Some? <==> Validar(Form()) == None
      ensures enviado.Some? ==> enviado.value == Registro(nombre, correo, contrasena, rol)
      ensures Validar(Form()).Some? ==>
        && alerta == Validar(Form())
        && auth.user == old(auth.user) && auth.isAuthenticated == old(auth.isAuthenticated)
      ensures Validar(Form()) == None && res.Success? ==>
        alerta == None && auth.user == Some(res.value) && auth.isAuthenticated
      ensures Validar(Form()) == None && res.Failure? ==>
        && alerta == Some(MensajeError(Some(res.error)))
        && auth.user == old(auth.user) && auth.isAuthenticated == old(auth.isAuthenticated)
      ensures auth.loading == old(auth.loading)
      ensures loading == if Validar(Form()).Some? then old(loading) else false
      ensures nombre == old(nombre) && correo == old(correo) && rol == old(rol)
      ensures contrasena == old(contrasena) && confirmarContrasena == old(confirmarContrasena)
    {
      var error := Validar(Form());
      if error.Some? {
        alerta, enviado := error, None;
        return;
      }
      loading := true;
      enviado := Some(Registro(nombre, correo, contrasena, rol));
      var result := auth.SignUp(res);
      loading := false;
      alerta := if result.success then None else Some(MensajeError(result.error));
    }
  }
}
