/** `UsuariosScreen`: the admin's user list, its form and its guards. */
module Usuarios {
  import opened Wrappers
  import opened Seqs
  import opened Domain

  const MsgObligatorios: string := "Por favor completa todos los campos obligatorios"
  const MsgContrasena: string := "La contraseña es obligatoria para nuevos usuarios"
  const MsgEliminarPropio: string := "No puedes eliminar tu propio usuario"
  const MsgDesactivarPropio: string := "No puedes desactivar tu propio usuario"

  datatype UsuarioForm = UsuarioForm(nombre: string, correo: string, contrasena: string, rol: Rol, activo: bool)

  /** The requests the screen sends to `usuarioService`. */
  datatype Solicitud =
    | CrearUsuario(datos: UsuarioForm)
    | ActualizarUsuario(id: Id, datos: UsuarioForm)
    | ActualizarActivo(id: Id, activo: bool)
    | EliminarUsuario(id: Id)

  /** The form of a new user. */
  const FormNuevo: UsuarioForm := UsuarioForm("", "", "", Mesero, true)

  /** The form of an existing user: the password is left blank. */
  function FormDe(u: Usuario): UsuarioForm
  {
    UsuarioForm(u.nombre, u.correo, "", u.rol, u.activo)
  }

  /** `guardarUsuario`: the guards, then an update of the selected user or
      a creation. */
  function Guardar(form: UsuarioForm, seleccionado: Option<Usuario>): Result<Solicitud, string>
  {
    if form.nombre == "" || form.correo == "" then Failure(MsgObligatorios)
    else if seleccionado.None? && form.contrasena == "" then Failure(MsgContrasena)
    else if seleccionado.Some? then Success(ActualizarUsuario(seleccionado.value.id, form))
    else Success(CrearUsuario(form))
  }

  /** A request is sent iff nombre and correo are filled and, for a new
      user, the password too; it updates the selected user or creates one. */
  lemma {:induction false} GuardarSpec(form: UsuarioForm, seleccionado: Option<Usuario>)
    ensures var r := Guardar(form, seleccionado);
      && (r.Success? <==> form.nombre != "" && form.correo != "" && (seleccionado.Some? || form.contrasena != ""))
      && (r == Failure(MsgObligatorios) <==> form.nombre == "" || form.correo == "")
      && (r.Success? && seleccionado.Some? ==> r.value == ActualizarUsuario(seleccionado.value.id, form))
      && (r.Success? && seleccionado.None? ==> r.value == CrearUsuario(form))
  {
    assert MsgObligatorios != MsgContrasena;
  }

  /** Editing a user with its blank password still saves. */
  lemma {:induction false} EditarSinContrasena(u: Usuario)
    requires u.nombre != "" && u.correo != ""
    ensures Guardar(FormDe(u), Some(u)) == Success(ActualizarUsuario(u.id, FormDe(u)))
    ensures Guardar(FormDe(u), None).Failure?
  {
  }

  /** The delete button is disabled on one's own card. */
  predicate EliminarHabilitado(u: Usuario, userId: Id)
  {
    u.id != userId
  }

  /** `eliminarUsuario`, once confirmed. */
  function Eliminar(u: Usuario, userId: Id): Result<Solicitud, string>
  {
    if u.id == userId then Failure(MsgEliminarPropio) else Success(EliminarUsuario(u.id))
  }

  /** `toggleActivo` */
  function ToggleActivo(u: Usuario, userId: Id): Result<Solicitud, string>
  {
    if u.id == userId then Failure(MsgDesactivarPropio) else Success(ActualizarActivo(u.id, !u.activo))
  }

  /** Nobody can delete or deactivate themselves; anybody else can be
      deleted, or flipped to the opposite active flag. */
  lemma {:induction false} GuardasPropias(u: Usuario, userId: Id)
    ensures Eliminar(u, userId).Success? <==> EliminarHabilitado(u, userId)
    ensures Eliminar(u, userId).Success? ==> Eliminar(u, userId).value == EliminarUsuario(u.id)
    ensures ToggleActivo(u, userId).Success? <==> u.id != userId
    ensures ToggleActivo(u, userId).Success? ==>
      ToggleActivo(u, userId).value == ActualizarActivo(u.id, !u.activo)
    ensures u.id == userId ==>
      Eliminar(u, userId) == Failure(MsgEliminarPropio) && ToggleActivo(u, userId) == Failure(MsgDesactivarPropio)
  {
  }

  predicate EsActivo(u: Usuario)
  {
    u.activo
  }

  /** The "Activos" figure. */
  function Activos(us: seq<Usuario>): nat
  {
    |Filter(us, EsActivo)|
  }

  /** Counting the active users one by one. */
  function CuentaActivos(us: seq<Usuario>): nat
  {
    if us == [] then 0 else (if us[0].activo then 1 else 0) + CuentaActivos(us[1..])
  }

  lemma {:induction false} ActivosSpec(us: seq<Usuario>)
    ensures Activos(us) == CuentaActivos(us)
    ensures Activos(us) <= |us|
    decreases |us|
  {
    if us != [] {
      ActivosSpec(us[1..]);
    }
  }

  /** Flipping one user's flag moves the count by one. */
  lemma {:induction false} ToggleCambiaCuenta(us: seq<Usuario>, k: nat)
    requires k < |us|
    ensures CuentaActivos(us[k := us[k].(activo := !us[k].activo)])
      == CuentaActivos(us) + (if us[k].activo then -1 else 1)
    decreases |us|
  {
    var us' := us[k := us[k].(activo := !us[k].activo)];
    if k == 0 {
      assert us'[1..] == us[1..];
    } else {
      assert us'[1..] == us[1..][k - 1 := us[k].(activo := !us[k].activo)];
      ToggleCambiaCuenta(us[1..], k - 1);
    }
  }

  class UsuariosScreen {
    /** The id of the signed-in admin (`user._id`). */
    const userId: Id
    var usuarios: seq<Usuario>
    var loading: bool
    var modalVisible: bool
    var usuarioSeleccionado: Option<Usuario>
    var formData: UsuarioForm

    constructor (userId: Id)
      ensures this.userId == userId
      ensures usuarios == [] && loading && !modalVisible
      ensures usuarioSeleccionado == None && formData == FormNuevo
    {
      this.userId := userId;
      usuarios, loading, modalVisible := [], true, false;
      usuarioSeleccionado, formData := None, FormNuevo;
    }

    method CargarUsuarios(res: Result<seq<Usuario>, string>)
      modifies this
      ensures usuarios == if res.Success? then res.value else old(usuarios)
      ensures !loading
      ensures modalVisible == old(modalVisible) && usuarioSeleccionado == old(usuarioSeleccionado)
      ensures formData == old(formData)
    {
      loading := true;
      if res.Success? {
        usuarios := res.value;
      }
      loading := false;
    }

    /** `abrirModal`: edit the given user or create a new one. */
    method AbrirModal(u: Option<Usuario>)
      modifies this
      ensures usuarioSeleccionado == u && modalVisible
      ensures formData == if u.Some? then FormDe(u.value) else FormNuevo
      ensures usuarios == old(usuarios) && loading == old(loading)
    {
      usuarioSeleccionado := u;
      formData := if u.Some? then FormDe(u.value) else FormNuevo;
      modalVisible := true;
    }

    method CerrarModal()
      modifies this
      ensures !modalVisible && usuarioSeleccionado == None
      ensures usuarios == old(usuarios) && loading == old(loading) && formData == old(formData)
    {
      modalVisible := false;
      usuarioSeleccionado := None;
    }

    /** `guardarUsuario`, given whether the service call succeeds: the
        request sent, if any, and the modal closes only after a success. */
    method GuardarUsuario(ok: bool) returns (enviado: Option<Solicitud>)
      modifies this
      ensures var r := Guardar(formData, old(usuarioSeleccionado));
        enviado == if r.Success? then Some(r.value) else None
      ensures enviado.Some? && ok ==> !modalVisible && usuarioSeleccionado == None
      ensures !(enviado.Some? && ok) ==>
        modalVisible == old(modalVisible) && usuarioSeleccionado == old(usuarioSeleccionado)
      ensures usuarios == old(usuarios) && loading == old(loading) && formData == old(formData)
    {
      var r := Guardar(formData, usuarioSeleccionado);
      if r.Failure? {
        return None;
      }
      enviado := Some(r.value);
      if ok {
        CerrarModal();
      }
    }
  }
}
