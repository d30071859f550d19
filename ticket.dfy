/** `TicketScreen`: the bill received from the table detail, the payment
    method selector and the "mark as paid" close-out. */
module Ticket {
  import opened Wrappers
  import opened Domain
  import opened Billing
  import opened Backend
  import opened CloseOut

  /** The route parameters the detail screen hands to the ticket. */
  datatype TicketParams = TicketParams(
    mesa: Option<Mesa>,
    productos: seq<Agrupado>,
    total: int,
    mesaId: Id,
    ordenes: Option<seq<Orden>>)

  /** The orders the ticket deletes: a missing list deletes nothing. */
  function AEliminar(ordenes: Option<seq<Orden>>): seq<Orden>
  {
    if ordenes.Some? then ordenes.value else []
  }

  /** The sale the ticket records: the received products and total, unchanged. */
  function VentaDeTicket(p: TicketParams, userId: Id, metodoPago: MetodoPago, ahora: Fecha): Venta
  {
    Venta(p.mesaId, userId, p.productos, p.total, ahora, metodoPago)
  }

  class TicketScreen {
    const params: TicketParams
    /** The id of the signed-in waiter (`user._id`). */
    const userId: Id
    var procesando: bool
    var metodoPago: MetodoPago

    constructor (params: TicketParams, userId: Id)
      ensures this.params == params && this.userId == userId
      ensures !procesando && metodoPago == Efectivo
    {
      this.params, this.userId := params, userId;
      procesando, metodoPago := false, Efectivo;
    }

    /** The three method buttons; they are disabled while processing. The
        guard stands for the buttons' `disabled` prop: without concurrency
        no call sequence here observes `procesando`, which every method
        resets before it returns. */
    method SeleccionarMetodoPago(m: MetodoPago)
      modifies this
      ensures metodoPago == if old(procesando) then old(metodoPago) else m
      ensures procesando == old(procesando)
    {
      if !procesando {
        metodoPago := m;
      }
    }

    /** `marcarComoPagada`: the close-out with the ticket's own data. */
    method MarcarComoPagada(store: Store, ahora: Fecha) returns (ok: bool)
      modifies this, store
      ensures !procesando && metodoPago == old(metodoPago)
      ensures var v := VentaDeTicket(params, userId, metodoPago, ahora);
        && ok == CloseOutSucceeds(|old(store.trace)|, store.failures, v, AEliminar(params.ordenes), params.mesaId)
        && store.State() == AfterCloseOut(old(store.State()), store.failures, v, AEliminar(params.ordenes), params.mesaId)
    {
      procesando := true;
      var v := Venta(params.mesaId, userId, params.productos, params.total, ahora, metodoPago);
      var ordenes := if params.ordenes.Some? then params.ordenes.value else [];
      ok := CerrarMesa(store, v, ordenes, params.mesaId);
      procesando := false;
    }
  }

  /** When the sale request goes through, the store gains exactly one sale,
      carrying the received products and total, the table, the waiter and the
      selected method, whatever the received orders hold; when it fails, the
      store's sales are untouched. */
  lemma {:induction false} VentaRegistrada(s: Snapshot, failures: set<nat>, p: TicketParams, userId: Id, m: MetodoPago, ahora: Fecha)
    ensures var r := AfterCloseOut(s, failures, VentaDeTicket(p, userId, m, ahora), AEliminar(p.ordenes), p.mesaId);
      && (|s.trace| in failures ==> r.ventas == s.ventas)
      && (|s.trace| !in failures ==>
        && |r.ventas| == |s.ventas| + 1 && r.ventas[..|s.ventas|] == s.ventas
        && r.ventas[|s.ventas|].productos == p.productos && r.ventas[|s.ventas|].total == p.total
        && r.ventas[|s.ventas|].mesa == p.mesaId && r.ventas[|s.ventas|].mesero == userId
        && r.ventas[|s.ventas|].metodoPago == m)
  {
    var v := VentaDeTicket(p, userId, m, ahora);
    var r := AfterCloseOut(s, failures, v, AEliminar(p.ordenes), p.mesaId);
    if |s.trace| !in failures {
      assert r.ventas == s.ventas + [v];
      assert r.ventas[..|s.ventas|] == s.ventas;
    }
  }

  /** With a missing or empty order list nothing is deleted, but a sale that
      goes through is still recorded and the table is still released. */
  lemma {:induction false} SinOrdenesLiberaIgual(s: Snapshot, failures: set<nat>, p: TicketParams, v: Venta)
    requires p.ordenes.None? || p.ordenes == Some([])
    requires |s.trace| !in failures && |s.trace| + 1 !in failures
    ensures var r := AfterCloseOut(s, failures, v, AEliminar(p.ordenes), p.mesaId);
      && r.trace == s.trace + [CrearVentaReq(v), ActualizarMesaReq(p.mesaId, Liberacion())]
      && r.ventas == s.ventas + [v]
      && r.ordenes == s.ordenes
      && (p.mesaId in s.mesas ==> r.mesas[p.mesaId].estado == Disponible && r.mesas[p.mesaId].meseroAsignado == SinMesero)
  {
    var t0 := |s.trace|;
    assert AEliminar(p.ordenes) == [];
    FirstFailureAt(t0, 2, failures, 2);
    assert CloseOutSucceeds(t0, failures, v, [], p.mesaId);
    SuccessDoesAll(s, failures, v, [], p.mesaId);
    assert Plan(v, [], p.mesaId) == [CrearVentaReq(v), ActualizarMesaReq(p.mesaId, Liberacion())];
  }

  /** When the ticket receives only the non-cancelled orders, and the loaded
      orders agree with the store, a cancelled order in the store survives
      the close-out whatever fails. */
  lemma {:induction false} CanceladasSobreviven(s: Snapshot, failures: set<nat>, v: Venta, todas: seq<Orden>, mesaId: Id, id: Id)
    requires forall i :: 0 <= i < |todas| && todas[i].id in s.ordenes ==> s.ordenes[todas[i].id] == todas[i]
    requires id in s.ordenes && s.ordenes[id].estado == Cancelada
    ensures id in AfterCloseOut(s, failures, v, NoCanceladas(todas), mesaId).ordenes
  {
    var listed := NoCanceladas(todas);
    forall i | 0 <= i < |listed| ensures listed[i].id != id {
      assert listed[i] in todas;
    }
    OnlyListedOrdersDeleted(s, failures, v, listed, mesaId, id);
  }
}
