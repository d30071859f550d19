/** `MesaDetalleScreen`: one table's orders, its bill, the ticket it hands
    on and the release of the table. */
module MesaDetalle {
  import opened Wrappers
  import opened Domain
  import opened Backend
  import opened Billing
  import opened CloseOut
  import opened Ticket

  /** The sale recorded on release: the grouped lines and the bill total of
      the loaded orders. */
  function VentaDeMesa(mesaId: Id, userId: Id, ordenes: seq<Orden>, metodoPago: MetodoPago, ahora: Fecha): Venta
  {
    Venta(mesaId, userId, Agrupar(ordenes), CalcularTotal(ordenes), ahora, metodoPago)
  }

  /** What `generarTicket` passes on. */
  function ParametrosTicket(mesa: Option<Mesa>, ordenes: seq<Orden>, mesaId: Id): TicketParams
  {
    TicketParams(mesa, Agrupar(ordenes), CalcularTotal(ordenes), mesaId, Some(NoCanceladas(ordenes)))
  }

  class MesaDetalleScreen {
    const mesaId: Id
    /** The id of the signed-in waiter (`user._id`). */
    const userId: Id
    var mesa: Option<Mesa>
    var ordenes: seq<Orden>
    var loading: bool
    var modalMetodoPago: bool
    var metodoPago: MetodoPago
    var procesando: bool

    constructor (mesaId: Id, userId: Id)
      ensures this.mesaId == mesaId && this.userId == userId
      ensures mesa == None && ordenes == [] && loading
      ensures !modalMetodoPago && metodoPago == Efectivo && !procesando
    {
      this.mesaId, this.userId := mesaId, userId;
      mesa, ordenes, loading := None, [], true;
      modalMetodoPago, metodoPago, procesando := false, Efectivo, false;
    }

    /** `cargarDatos`: the table first, then every order, kept when it belongs
        to this table. A failed table fetch stops before the orders. */
    method CargarDatos(mesaRes: Result<Mesa, string>, todasRes: Result<seq<Orden>, string>)
      modifies this
      ensures !loading
      ensures mesa == if mesaRes.Success? then Some(mesaRes.value) else old(mesa)
      ensures ordenes == if mesaRes.Success? && todasRes.Success?
        then OrdenesDeMesa(todasRes.value, mesaId) else old(ordenes)
      ensures modalMetodoPago == old(modalMetodoPago) && metodoPago == old(metodoPago)
      ensures procesando == old(procesando)
    {
      loading := true;
      if mesaRes.Failure? {
        loading := false;
        return;
      }
      mesa := Some(mesaRes.value);
      if todasRes.Success? {
        ordenes := OrdenesDeMesa(todasRes.value, mesaId);
      }
      loading := false;
    }

    /** The release button is enabled unless processing or without orders.
        The `procesando` test stands for the button's `disabled` prop: without
        concurrency no call sequence here observes it set, since
        `ConfirmarLiberacion` resets it before it returns. */
    predicate LiberarHabilitado()
      reads this
    {
      !(procesando || |ordenes| == 0)
    }

    /** `liberarMesa`: the release button opens the payment method modal. */
    method LiberarMesa()
      modifies this
      ensures modalMetodoPago == (old(modalMetodoPago) || old(LiberarHabilitado()))
      ensures mesa == old(mesa) && ordenes == old(ordenes) && loading == old(loading)
      ensures metodoPago == old(metodoPago) && procesando == old(procesando)
    {
      if LiberarHabilitado() {
        modalMetodoPago := true;
      }
    }

    method SeleccionarMetodoPago(m: MetodoPago)
      modifies this
      ensures metodoPago == m
      ensures mesa == old(mesa) && ordenes == old(ordenes) && loading == old(loading)
      ensures modalMetodoPago == old(modalMetodoPago) && procesando == old(procesando)
    {
      metodoPago := m;
    }

    /** The modal's cancel button. */
    method CerrarModal()
      modifies this
      ensures !modalMetodoPago
      ensures mesa == old(mesa) && ordenes == old(ordenes) && loading == old(loading)
      ensures metodoPago == old(metodoPago) && procesando == old(procesando)
    {
      modalMetodoPago := false;
    }

    /** `confirmarLiberacion`: group, total, then the close-out over every
        loaded order, cancelled ones included. */
    method ConfirmarLiberacion(store: Store, ahora: Fecha) returns (ok: bool)
      modifies this, store
      ensures !procesando && !modalMetodoPago
      ensures mesa == old(mesa) && ordenes == old(ordenes) && loading == old(loading)
      ensures metodoPago == old(metodoPago)
      ensures var v := VentaDeMesa(mesaId, userId, ordenes, metodoPago, ahora);
        && ok == CloseOutSucceeds(|old(store.trace)|, store.failures, v, ordenes, mesaId)
        && store.State() == AfterCloseOut(old(store.State()), store.failures, v, ordenes, mesaId)
    {
      procesando := true;
      modalMetodoPago := false;
      var productos := AgruparProductos(ordenes);
      var v := Venta(mesaId, userId, productos, CalcularTotal(ordenes), ahora, metodoPago);
      ok := CerrarMesa(store, v, ordenes, mesaId);
      procesando := false;
    }

    /** `generarTicket`: the same grouping and total, and only the
        non-cancelled orders. */
    method GenerarTicket() returns (p: TicketParams)
      ensures p == ParametrosTicket(mesa, ordenes, mesaId)
      ensures p.ordenes.Some?
      ensures forall o :: o in p.ordenes.value <==> o in ordenes && o.estado != Cancelada
    {
      var productos := AgruparProductos(ordenes);
      p := TicketParams(mesa, productos, CalcularTotal(ordenes), mesaId, Some(NoCanceladas(ordenes)));
    }
  }

  /** The ticket's products and total are those of its own (non-cancelled)
      order list, so paying from the ticket records the same sale as
      releasing from the detail screen. */
  lemma {:induction false} TicketCoherente(mesa: Option<Mesa>, ordenes: seq<Orden>, mesaId: Id, userId: Id, m: MetodoPago, ahora: Fecha)
    ensures var p := ParametrosTicket(mesa, ordenes, mesaId);
      && p.productos == Agrupar(p.ordenes.value)
      && p.total == CalcularTotal(p.ordenes.value)
      && VentaDeTicket(p, userId, m, ahora) == VentaDeMesa(mesaId, userId, ordenes, m, ahora)
  {
    ItemsNoCanceladas(ordenes);
    CalcularTotalNoCanceladas(ordenes);
  }
}
