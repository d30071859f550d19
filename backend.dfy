/** The REST backend as seen by the close-out workflow: an in-memory store of
    orders, tables and sales that records every call it receives. Whether a
    call succeeds is fixed in advance by `failures`: the call with sequence
    number k (counting every call ever made to this store) fails iff k is in
    `failures`. A failed call changes nothing but the trace. */
module Backend {
  import opened Wrappers
  import opened Domain

  /** A request sent to the backend. */
  datatype Call =
    | CrearVentaReq(venta: Venta)
    | EliminarOrdenReq(id: Id)
    | ActualizarMesaReq(id: Id, patch: MesaPatch)

  /** The observable state of the store. */
  datatype Snapshot = Snapshot(ordenes: map<Id, Orden>, mesas: map<Id, Mesa>, ventas: seq<Venta>, trace: seq<Call>)

  class Store {
    var ordenes: map<Id, Orden>
    var mesas: map<Id, Mesa>
    var ventas: seq<Venta>
    /** Every request received so far, in order. */
    var trace: seq<Call>
    /** The sequence numbers of the requests that fail. */
    const failures: set<nat>

    constructor (ordenes: map<Id, Orden>, mesas: map<Id, Mesa>, ventas: seq<Venta>, failures: set<nat>)
      ensures this.ordenes == ordenes && this.mesas == mesas && this.ventas == ventas
      ensures this.trace == [] && this.failures == failures
    {
      this.ordenes, this.mesas, this.ventas := ordenes, mesas, ventas;
      this.trace := [];
      this.failures := failures;
    }

    function State(): Snapshot
      reads this
    {
      Snapshot(ordenes, mesas, ventas, trace)
    }

    /** `ventaService.crearVenta` */
    method CrearVenta(v: Venta) returns (ok: bool)
      modifies this
      ensures ok == (|old(trace)| !in failures)
      ensures trace == old(trace) + [CrearVentaReq(v)]
      ensures ventas == if ok then old(ventas) + [v] else old(ventas)
      ensures ordenes == old(ordenes) && mesas == old(mesas)
    {
      ok := |trace| !in failures;
      trace := trace + [CrearVentaReq(v)];
      if ok {
        ventas := ventas + [v];
      }
    }

    /** `ordenService.eliminarOrden` */
    method EliminarOrden(id: Id) returns (ok: bool)
      modifies this
      ensures ok == (|old(trace)| !in failures)
      ensures trace == old(trace) + [EliminarOrdenReq(id)]
      ensures ordenes == if ok then old(ordenes) - {id} else old(ordenes)
      ensures ventas == old(ventas) && mesas == old(mesas)
    {
      ok := |trace| !in failures;
      trace := trace + [EliminarOrdenReq(id)];
      if ok {
        ordenes := ordenes - {id};
      }
    }

    /** `mesaService.actualizarMesa` */
    method ActualizarMesa(id: Id, patch: MesaPatch) returns (ok: bool)
      modifies this
      ensures ok == (|old(trace)| !in failures)
      ensures trace == old(trace) + [ActualizarMesaReq(id, patch)]
      ensures mesas == if ok && id in old(mesas) then old(mesas)[id := ApplyPatch(old(mesas)[id], patch)] else old(mesas)
      ensures ventas == old(ventas) && ordenes == old(ordenes)
    {
      ok := |trace| !in failures;
      trace := trace + [ActualizarMesaReq(id, patch)];
      if ok && id in mesas {
        mesas := mesas[id := ApplyPatch(mesas[id], patch)];
      }
    }
  }
}
