/** `MesasScreen`: the table grid, taking a free table, and the admin's
    table form. */
module Mesas {
  import opened Wrappers
  import opened Text
  import opened Domain
  import opened CloseOut

  const MsgObligatorios: string := "Por favor completa todos los campos obligatorios"

  /** The modal's form; numero and capacidad are what the user typed. */
  datatype MesaForm = MesaForm(numero: string, capacidad: string, estado: EstadoMesa, ubicacion: string)

  /** The body sent on save: the form with numero and capacidad run
      through `parseInt` (`None` stands for `NaN`). */
  datatype MesaDatos = MesaDatos(numero: Option<int>, capacidad: Option<int>, estado: EstadoMesa, ubicacion: string)

  /** The requests the screen sends to `mesaService`. */
  datatype Solicitud =
    | CrearMesa(datos: MesaDatos)
    | ActualizarDatos(id: Id, datos: MesaDatos)
    | ActualizarEstado(id: Id, patch: MesaPatch)
    | EliminarMesa(id: Id)

  const FormNueva: MesaForm := MesaForm("", "", Disponible, "interior")

  /** The form of an existing table; a missing or empty location shows as "interior". */
  function FormDe(m: Mesa): MesaForm
  {
    MesaForm(IntToString(m.numero), IntToString(m.capacidad), m.estado,
      if m.ubicacion.None? || m.ubicacion.value == "" then "interior" else m.ubicacion.value)
  }

  function Datos(form: MesaForm): MesaDatos
  {
    MesaDatos(ParseInt(form.numero), ParseInt(form.capacidad), form.estado, form.ubicacion)
  }

  /** `guardarMesa`: the guard, then an update of the selected table or a creation. */
  function Guardar(form: MesaForm, editando: bool, seleccionada: Option<Mesa>): Result<Solicitud, string>
    requires editando ==> seleccionada.Some?
  {
    if form.numero == "" || form.capacidad == "" then Failure(MsgObligatorios)
    else if editando then Success(ActualizarDatos(seleccionada.value.id, Datos(form)))
    else Success(CrearMesa(Datos(form)))
  }

  lemma {:induction false} GuardarSpec(form: MesaForm, editando: bool, seleccionada: Option<Mesa>)
    requires editando ==> seleccionada.Some?
    ensures var r := Guardar(form, editando, seleccionada);
      && (r.Success? <==> form.numero != "" && form.capacidad != "")
      && (r.Failure? ==> r.error == MsgObligatorios)
      && (r.Success? && editando ==> r.value == ActualizarDatos(seleccionada.value.id, Datos(form)))
      && (r.Success? && !editando ==> r.value == CrearMesa(Datos(form)))
  {
  }

  /** Saving an unchanged edit form sends the table's own number,
      capacity, state and location back. */
  lemma {:induction false} EditarSinCambios(m: Mesa)
    ensures Guardar(FormDe(m), true, Some(m)) == Success(ActualizarDatos(m.id, MesaDatos(
      Some(m.numero), Some(m.capacidad), m.estado,
      if m.ubicacion.None? || m.ubicacion.value == "" then "interior" else m.ubicacion.value)))
  {
    ParseIntToString(m.numero);
    ParseIntToString(m.capacidad);
  }

  /** `esMiMesa`: the assigned waiter, populated or bare, is the signed-in user. */
  predicate EsMiMesa(m: Mesa, userId: Id)
  {
    match m.meseroAsignado
    case MeseroPoblado(id, _) => id == userId
    case MeseroId(id) => id == userId
    case SinMesero => false
  }

  /** The card (and its "Ver Detalles" button) opens the table's detail. */
  predicate AbreDetalle(m: Mesa, userId: Id)
  {
    m.estado == Ocupada && EsMiMesa(m, userId)
  }

  /** The "Tomar Mesa" button is shown. */
  predicate OfreceTomar(m: Mesa)
  {
    m.estado == Disponible
  }

  /** The "Mesa ocupada por otro mesero" notice is shown. */
  predicate OcupadaPorOtro(m: Mesa, userId: Id)
  {
    m.estado == Ocupada && !EsMiMesa(m, userId)
  }

  /** `tomarMesa`: occupy the table and assign it to the signed-in user. */
  function TomarPatch(userId: Id): MesaPatch
  {
    MesaPatch(Some(Ocupada), Some(MeseroId(userId)))
  }

  /** `cambiarEstado`: only the state changes. */
  function CambiarEstadoPatch(nuevo: EstadoMesa): MesaPatch
  {
    MesaPatch(Some(nuevo), None)
  }

  /** A card shows exactly one of the three footers for a given state, or none when reserved. */
  lemma {:induction false} PieExclusivo(m: Mesa, userId: Id)
    ensures OfreceTomar(m) ==> !AbreDetalle(m, userId) && !OcupadaPorOtro(m, userId)
    ensures m.estado == Ocupada <==> AbreDetalle(m, userId) || OcupadaPorOtro(m, userId)
    ensures !(AbreDetalle(m, userId) && OcupadaPorOtro(m, userId))
    ensures m.estado == Reservada ==> !OfreceTomar(m) && !AbreDetalle(m, userId) && !OcupadaPorOtro(m, userId)
  {
  }

  /** After taking a table, its card opens the detail for the taker and
      shows it as taken to everybody else. */
  lemma {:induction false} TomarDaLaMesa(m: Mesa, userId: Id, otro: Id)
    requires otro != userId
    ensures var t := ApplyPatch(m, TomarPatch(userId));
      && AbreDetalle(t, userId) && !OfreceTomar(t)
      && OcupadaPorOtro(t, otro) && !AbreDetalle(t, otro)
      && t.id == m.id && t.numero == m.numero && t.capacidad == m.capacidad
  {
  }

  /** After a close-out releases a table, it is offered to everybody again and opens for nobody. */
  lemma {:induction false} LiberadaSeOfrece(m: Mesa, userId: Id)
    ensures var t := ApplyPatch(m, Liberacion());
      OfreceTomar(t) && !AbreDetalle(t, userId) && !EsMiMesa(t, userId)
  {
  }

  /** A state change keeps the assigned waiter. */
  lemma {:induction false} CambiarEstadoConservaMesero(m: Mesa, nuevo: EstadoMesa, userId: Id)
    ensures var t := ApplyPatch(m, CambiarEstadoPatch(nuevo));
      t.estado == nuevo && t.meseroAsignado == m.meseroAsignado
      && (EsMiMesa(t, userId) <==> EsMiMesa(m, userId))
  {
  }

  class MesasScreen {
    const userId: Id
    var mesas: seq<Mesa>
    var loading: bool
    var modalVisible: bool
    var editando: bool
    var mesaSeleccionada: Option<Mesa>
    var formData: MesaForm

    /** The modal edits the selected table exactly when one is selected. */
    predicate Valid()
      reads this
    {
      editando <==> mesaSeleccionada.Some?
    }

    constructor (userId: Id)
      ensures Valid()
      ensures this.userId == userId && mesas == [] && loading
      ensures !modalVisible && !editando && formData == FormNueva
    {
      this.userId := userId;
      mesas, loading, modalVisible := [], true, false;
      editando, mesaSeleccionada, formData := false, None, FormNueva;
    }

    method CargarMesas(res: Result<seq<Mesa>, string>)
      modifies this
      ensures mesas == if res.Success? then res.value else old(mesas)
      ensures !loading
      ensures modalVisible == old(modalVisible) && editando == old(editando)
      ensures mesaSeleccionada == old(mesaSeleccionada) && formData == old(formData)
    {
      loading := true;
      if res.Success? {
        mesas := res.value;
      }
      loading := false;
    }

    /** `abrirModal`: edit the given table or create a new one. */
    method AbrirModal(m: Option<Mesa>)
      modifies this
      ensures Valid() && modalVisible
      ensures mesaSeleccionada == m
      ensures formData == if m.Some? then FormDe(m.value) else FormNueva
      ensures mesas == old(mesas) && loading == old(loading)
    {
      if m.Some? {
        editando, mesaSeleccionada := true, m;
        formData := FormDe(m.value);
      } else {
        editando, mesaSeleccionada := false, None;
        formData := FormNueva;
      }
      modalVisible := true;
    }

    method CerrarModal()
      modifies this
      ensures Valid() && !modalVisible && !editando && mesaSeleccionada == None
      ensures mesas == old(mesas) && loading == old(loading) && formData == old(formData)
    {
      modalVisible, editando, mesaSeleccionada := false, false, None;
    }

    /** `guardarMesa`, given whether the service call succeeds. */
    method GuardarMesa(ok: bool) returns (enviado: Option<Solicitud>)
      requires Valid()
      modifies this
      ensures Valid()
      ensures var r := Guardar(formData, old(editando), old(mesaSeleccionada));
        enviado == if r.Success? then Some(r.value) else None
      ensures enviado.Some? && ok ==> !modalVisible && !editando && mesaSeleccionada == None
      ensures !(enviado.Some? && ok) ==>
        modalVisible == old(modalVisible) && editando == old(editando) && mesaSeleccionada == old(mesaSeleccionada)
      ensures mesas == old(mesas) && loading == old(loading) && formData == old(formData)
    {
      var r := Guardar(formData, editando, mesaSeleccionada);
      if r.Failure? {
        return None;
      }
      enviado := Some(r.value);
      if ok {
        CerrarModal();
      }
    }
  }
}
