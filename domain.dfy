/** The records the screens exchange with the backend: tables (mesas),
    orders (ordenes) and their line items, products, users and sales
    (ventas). Amounts are integer cents; dates are abstract calendar
    records. */
module Domain {
  import opened Wrappers

  /** A server-assigned `_id`. */
  type Id = string

  /** An order's `estado`. */
  datatype EstadoOrden = Pendiente | EnPreparacion | Servida | Pagada | Cancelada

  /** A table's `estado`. */
  datatype EstadoMesa = Disponible | Ocupada | Reservada

  datatype MetodoPago = Efectivo | Tarjeta | Transferencia

  datatype Rol = Mesero | Admin

  /** `orden.mesa`: the populated table object, the bare table id, or absent. */
  datatype MesaRef = MesaPoblada(id: Id) | MesaId(id: Id) | SinMesa

  /** `mesa.meseroAsignado`: the populated waiter object, the bare user id, or `null`. */
  datatype MeseroRef = MeseroPoblado(id: Id, nombre: string) | MeseroId(id: Id) | SinMesero

  /** One entry of an order's `productos`. */
  datatype LineItem = LineItem(productoId: Id, nombre: string, cantidad: int, precioUnitario: int, subtotal: int)

  datatype Orden = Orden(
    id: Id,
    mesa: MesaRef,
    mesero: Id,
    productos: Option<seq<LineItem>>,
    total: Option<int>,
    estado: EstadoOrden)

  datatype Mesa = Mesa(
    id: Id,
    numero: int,
    capacidad: int,
    estado: EstadoMesa,
    ubicacion: Option<string>,
    meseroAsignado: MeseroRef)

  /** The partial body of a table update: absent fields are left as they are. */
  datatype MesaPatch = MesaPatch(estado: Option<EstadoMesa>, meseroAsignado: Option<MeseroRef>)

  /** How the backend applies a table update. */
  function ApplyPatch(m: Mesa, p: MesaPatch): (r: Mesa)
    ensures r.id == m.id && r.numero == m.numero && r.capacidad == m.capacidad && r.ubicacion == m.ubicacion
    ensures r.estado == (if p.estado.Some? then p.estado.value else m.estado)
    ensures r.meseroAsignado == (if p.meseroAsignado.Some? then p.meseroAsignado.value else m.meseroAsignado)
  {
    m.(estado := if p.estado.Some? then p.estado.value else m.estado,
       meseroAsignado := if p.meseroAsignado.Some? then p.meseroAsignado.value else m.meseroAsignado)
  }

  /** An aggregated bill line: one per product name. */
  datatype Agrupado = Agrupado(nombre: string, cantidad: int, precioUnitario: int, subtotal: int)

  /** A calendar date as the device's local clock renders it, with its epoch timestamp in milliseconds. */
  datatype Fecha = Fecha(year: int, month: int, day: int, ts: int)

  datatype Venta = Venta(
    mesa: Id,
    mesero: Id,
    productos: seq<Agrupado>,
    total: int,
    fecha: Fecha,
    metodoPago: MetodoPago)

  /** A catalogue product; `precio` in cents. */
  datatype Producto = Producto(
    id: Id,
    nombre: string,
    categoria: string,
    precio: nat,
    descripcion: Option<string>,
    disponible: bool,
    imagen: Option<string>)

  datatype Usuario = Usuario(id: Id, nombre: string, correo: string, rol: Rol, activo: bool)
}
