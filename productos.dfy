/** `ProductosScreen`: the admin's product list, its form, the image upload
    that follows a save, and the availability switch. Prices are integer
    cents. */
module Productos {
  import opened Wrappers
  import opened Text
  import opened Domain
  import opened Imagen
  import opened NuevaOrden
  import opened Precio

  const MsgObligatorios: string := "Por favor completa todos los campos obligatorios"
  const MsgAdvertenciaImagen: string := "Producto guardado pero error al subir imagen"

  /** The modal's form; precio is what the user typed. */
  datatype ProductoForm = ProductoForm(nombre: string, categoria: string, precio: string, descripcion: string, disponible: bool)

  /** The body sent on save: the form with precio run through
      `parseFloat`, in cents (`None` stands for `NaN`). */
  datatype ProductoDatos = ProductoDatos(nombre: string, categoria: string, precio: Option<int>, descripcion: string, disponible: bool)

  /** The requests the screen sends to `productoService`. */
  datatype Solicitud =
    | CrearProducto(datos: ProductoDatos)
    | ActualizarProducto(id: Id, datos: ProductoDatos)
    | ActualizarDisponible(id: Id, disponible: bool)
    | SubirImagen(id: Id, uri: string, nombre: string, tipo: string)
    | EliminarProducto(id: Id)

  const FormNuevo: ProductoForm := ProductoForm("", "", "", "", true)

  /** The form of an existing product; a missing description shows empty. */
  function FormDe(p: Producto): ProductoForm
  {
    ProductoForm(p.nombre, p.categoria, PrecioTexto(p.precio),
      if p.descripcion.Some? then p.descripcion.value else "", p.disponible)
  }

  function Datos(form: ProductoForm): ProductoDatos
  {
    ProductoDatos(form.nombre, form.categoria, ParsePrecio(form.precio), form.descripcion, form.disponible)
  }

  /** The upload of `uri` for product `id`, named with the clock reading `ts`. */
  function Subida(id: Id, uri: string, ts: nat): Solicitud
  {
    var e := Extension(uri);
    SubirImagen(id, uri, NombreArchivo(ts, e), TipoMime(e))
  }

  /** What a save does: the requests issued in order, whether it ends in
      success, and whether the upload warning is shown. */
  datatype Guardado = Guardado(solicitudes: seq<Solicitud>, exito: bool, advertencia: bool)

  /** `guardarProducto`, given the outcome of the save call (a creation
      answers with the new product's id), of the upload, and the clock. */
  function PlanGuardado(form: ProductoForm, editando: bool, seleccionado: Option<Producto>,
                        imagen: Option<string>, guardado: Result<Id, string>, subidaOk: bool, ts: nat): Guardado
    requires editando ==> seleccionado.Some?
  {
    if form.nombre == "" || form.categoria == "" || form.precio == "" then Guardado([], false, false)
    else
      var primera := if editando then ActualizarProducto(seleccionado.value.id, Datos(form)) else CrearProducto(Datos(form));
      if guardado.Failure? then Guardado([primera], false, false)
      else
        var productoId := if editando then seleccionado.value.id else guardado.value;
        if imagen.Some? && imagen.value != "" then
          Guardado([primera, Subida(productoId, imagen.value, ts)], true, !subidaOk)
        else Guardado([primera], true, false)
  }

  /** The guard stops everything; otherwise the save goes first, the upload
      follows only a successful save and only with an image, targets the
      product just saved, and its failure leaves the save a success. */
  lemma {:induction false} PlanGuardadoSpec(form: ProductoForm, editando: bool, seleccionado: Option<Producto>,
                         imagen: Option<string>, guardado: Result<Id, string>, subidaOk: bool, ts: nat)
    requires editando ==> seleccionado.Some?
    ensures var g := PlanGuardado(form, editando, seleccionado, imagen, guardado, subidaOk, ts);
      var valido := form.nombre != "" && form.categoria != "" && form.precio != "";
      var conImagen := imagen.Some? && imagen.value != "";
      && (g.solicitudes == [] <==> !valido)
      && (g.exito <==> valido && guardado.Success?)
      && (valido ==> g.solicitudes[0] == if editando then ActualizarProducto(seleccionado.value.id, Datos(form)) else CrearProducto(Datos(form)))
      && (|g.solicitudes| == 2 <==> g.exito && conImagen)
      && (|g.solicitudes| <= 2)
      && (|g.solicitudes| == 2 ==>
            var id := if editando then seleccionado.value.id else guardado.value;
            var sub := g.solicitudes[1];
            && sub == Subida(id, imagen.value, ts)
            && StartsWith(sub.nombre, "producto-")
            && Extension(sub.nombre) == Extension(imagen.value))
      && (g.advertencia <==> g.exito && conImagen && !subidaOk)
  {
    var g := PlanGuardado(form, editando, seleccionado, imagen, guardado, subidaOk, ts);
    if |g.solicitudes| == 2 {
      NombreArchivoSpec(ts, imagen.value);
    }
  }

  /** Saving an unchanged edit form without an image sends the product's
      own fields back, price included. */
  lemma {:induction false} EditarSinCambios(p: Producto, guardado: Result<Id, string>, subidaOk: bool, ts: nat)
    requires p.nombre != "" && p.categoria != ""
    ensures PlanGuardado(FormDe(p), true, Some(p), None, guardado, subidaOk, ts).solicitudes
      == [ActualizarProducto(p.id, ProductoDatos(p.nombre, p.categoria, Some(p.precio),
            if p.descripcion.Some? then p.descripcion.value else "", p.disponible))]
  {
    PrecioRoundTrip(p.precio);
  }

  /** `toggleDisponibilidad` */
  function ToggleDisponibilidad(p: Producto): Solicitud
  {
    ActualizarDisponible(p.id, !p.disponible)
  }

  /** Once the backend applies the switch, the product leaves the new-order
      menu if it was on it and joins it if it was not. */
  lemma {:induction false} ToggleCambiaMenu(ps: seq<Producto>, k: nat)
    requires k < |ps|
    ensures var s := ToggleDisponibilidad(ps[k]);
      var q := ps[k].(disponible := s.disponible);
      s.id == ps[k].id && (q in Disponibles(ps[k := q]) <==> !ps[k].disponible)
  {
    var q := ps[k].(disponible := !ps[k].disponible);
    DisponiblesSpec(ps[k := q]);
    assert ps[k := q][k] == q;
  }

  class ProductosScreen {
    var productos: seq<Producto>
    var loading: bool
    var modalVisible: bool
    var editando: bool
    var productoSeleccionado: Option<Producto>
    var formData: ProductoForm
    var imagenSeleccionada: Option<string>
    var subiendoImagen: bool

    /** The modal edits the selected product exactly when one is selected,
        and the upload indicator is only up while an upload is awaited. */
    predicate Valid()
      reads this
    {
      (editando <==> productoSeleccionado.Some?) && !subiendoImagen
    }

    constructor ()
      ensures Valid()
      ensures productos == [] && loading && !modalVisible && !editando
      ensures formData == FormNuevo && imagenSeleccionada == None && !subiendoImagen
    {
      productos, loading, modalVisible := [], true, false;
      editando, productoSeleccionado, formData := false, None, FormNuevo;
      imagenSeleccionada, subiendoImagen := None, false;
    }

    method CargarProductos(res: Result<seq<Producto>, string>)
      modifies this
      ensures productos == if res.Success? then res.value else old(productos)
      ensures !loading
      ensures modalVisible == old(modalVisible) && editando == old(editando)
      ensures productoSeleccionado == old(productoSeleccionado) && formData == old(formData)
      ensures imagenSeleccionada == old(imagenSeleccionada) && subiendoImagen == old(subiendoImagen)
    {
      loading := true;
      if res.Success? {
        productos := res.value;
      }
      loading := false;
    }

    /** `abrirModal`: edit the given product or create a new one. The
        picked image is kept. */
    method AbrirModal(p: Option<Producto>)
      modifies this
      ensures old(Valid()) ==> Valid()
      ensures modalVisible && productoSeleccionado == p && (editando <==> p.Some?)
      ensures formData == if p.Some? then FormDe(p.value) else FormNuevo
      ensures productos == old(productos) && loading == old(loading)
      ensures imagenSeleccionada == old(imagenSeleccionada) && subiendoImagen == old(subiendoImagen)
    {
      if p.Some? {
        editando, productoSeleccionado := true, p;
        formData := FormDe(p.value);
      } else {
        editando, productoSeleccionado := false, None;
        formData := FormNuevo;
      }
      modalVisible := true;
    }

    /** `cerrarModal`: also drops the picked image. */
    method CerrarModal()
      modifies this
      ensures old(Valid()) ==> Valid()
      ensures !modalVisible && !editando
      ensures productoSeleccionado == None && imagenSeleccionada == None
      ensures productos == old(productos) && loading == old(loading)
      ensures formData == old(formData) && subiendoImagen == old(subiendoImagen)
    {
      modalVisible, editando, productoSeleccionado := false, false, None;
      imagenSeleccionada := None;
    }

    /** The image picker or the camera returned `uri`. */
    method SeleccionarImagen(uri: string)
      modifies this
      ensures imagenSeleccionada == Some(uri)
      ensures old(Valid()) ==> Valid()
      ensures productos == old(productos) && loading == old(loading) && modalVisible == old(modalVisible)
      ensures editando == old(editando) && productoSeleccionado == old(productoSeleccionado)
      ensures formData == old(formData) && subiendoImagen == old(subiendoImagen)
    {
      imagenSeleccionada := Some(uri);
    }

    /** `guardarProducto`: issues the save and, after a successful save
        with a picked image, the upload; the modal closes on success. */
    method GuardarProducto(guardado: Result<Id, string>, subidaOk: bool, ts: nat)
      returns (solicitudes: seq<Solicitud>, exito: bool, advertencia: bool)
      requires Valid()
      modifies this
      ensures Valid()
      ensures Guardado(solicitudes, exito, advertencia)
        == PlanGuardado(formData, old(editando), old(productoSeleccionado), old(imagenSeleccionada), guardado, subidaOk, ts)
      ensures exito ==> !modalVisible && !editando && productoSeleccionado == None && imagenSeleccionada == None
      ensures !exito ==>
        && modalVisible == old(modalVisible) && editando == old(editando)
        && productoSeleccionado == old(productoSeleccionado) && imagenSeleccionada == old(imagenSeleccionada)
      ensures productos == old(productos) && loading == old(loading) && formData == old(formData)
    {
      ghost var plan := PlanGuardado(formData, editando, productoSeleccionado, imagenSeleccionada, guardado, subidaOk, ts);
      solicitudes, exito, advertencia := [], false, false;
      if formData.nombre == "" || formData.categoria == "" || formData.precio == "" {
        return;
      }
      var datos := Datos(formData);
      var primera := if editando then ActualizarProducto(productoSeleccionado.value.id, datos) else CrearProducto(datos);
      solicitudes := [primera];
      if guardado.Failure? {
        subiendoImagen := false;
        return;
      }
      var productoId := if editando then productoSeleccionado.value.id else guardado.value;
      var imagen := imagenSeleccionada;
      if imagen.Some? && imagen.value != "" {
        subiendoImagen := true;
        solicitudes := solicitudes + [Subida(productoId, imagen.value, ts)];
        advertencia := !subidaOk;
        subiendoImagen := false;
      }
      exito := true;
      assert Guardado(solicitudes, exito, advertencia) == plan;
      CerrarModal();
    }
  }
}
