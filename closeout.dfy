/** Closing a table (`confirmarLiberacion` in MesaDetalleScreen and
    `marcarComoPagada` in TicketScreen): record the sale, delete the orders
    one by one in list order, then release the table. Each step is awaited;
    the first failing call aborts every later one, and nothing is rolled back. */
module CloseOut {
  import opened Wrappers
  import opened Domain
  import opened Backend

  /** The body of the release update: `{estado: 'disponible', meseroAsignado: null}`. */
  function Liberacion(): MesaPatch
  {
    MesaPatch(Some(Disponible), Some(SinMesero))
  }

  /** The deletions, one per order, in list order. */
  function Borrados(ordenes: seq<Orden>): (r: seq<Call>)
    ensures |r| == |ordenes|
    ensures forall i :: 0 <= i < |r| ==> r[i] == EliminarOrdenReq(ordenes[i].id)
  {
    seq(|ordenes|, i requires 0 <= i < |ordenes| => EliminarOrdenReq(ordenes[i].id))
  }

  /** Every call of a close-out that meets no failure, in order. */
  function Plan(v: Venta, ordenes: seq<Orden>, mesaId: Id): seq<Call>
  {
    [CrearVentaReq(v)] + Borrados(ordenes) + [ActualizarMesaReq(mesaId, Liberacion())]
  }

  /** The position, among `n` calls numbered from `start`, of the first one
      that fails, or `n` when none does. */
  function FirstFailure(start: nat, n: nat, failures: set<nat>): (k: nat)
    ensures k <= n
    ensures forall c :: start <= c < start + k ==> c !in failures
    ensures k < n ==> start + k in failures
    decreases n
  {
    if n == 0 then 0
    else if start in failures then 0
    else 1 + FirstFailure(start + 1, n - 1, failures)
  }

  /** How many of those calls are issued: up to and including the first failing one. */
  function Issued(start: nat, n: nat, failures: set<nat>): (k: nat)
    ensures k <= n
  {
    var f := FirstFailure(start, n, failures);
    if f < n then f + 1 else n
  }

  /** How many deletions succeed before the close-out stops. */
  function Deleted(start: nat, count: nat, failures: set<nat>): (d: nat)
    ensures d <= count
  {
    var f := FirstFailure(start, count + 2, failures);
    if f == 0 then 0 else if f - 1 < count then f - 1 else count
  }

  function IdsDe(ordenes: seq<Orden>): set<Id>
  {
    set i | 0 <= i < |ordenes| :: ordenes[i].id
  }

  lemma {:induction false} FirstFailureAt(start: nat, n: nat, failures: set<nat>, c: nat)
    requires c <= n
    requires forall m :: start <= m < start + c ==> m !in failures
    requires c < n ==> start + c in failures
    ensures FirstFailure(start, n, failures) == c
  {
  }

  /** The store after a close-out that started from `s`. */
  function AfterCloseOut(s: Snapshot, failures: set<nat>, v: Venta, ordenes: seq<Orden>, mesaId: Id): Snapshot
  {
    var plan, t0 := Plan(v, ordenes, mesaId), |s.trace|;
    Snapshot(
      s.ordenes - IdsDe(ordenes[..Deleted(t0, |ordenes|, failures)]),
      if FirstFailure(t0, |plan|, failures) == |plan| && mesaId in s.mesas
        then s.mesas[mesaId := ApplyPatch(s.mesas[mesaId], Liberacion())]
        else s.mesas,
      if t0 !in failures then s.ventas + [v] else s.ventas,
      s.trace + plan[..Issued(t0, |plan|, failures)])
  }

  /** Whether every call of the close-out succeeds. */
  function CloseOutSucceeds(t0: nat, failures: set<nat>, v: Venta, ordenes: seq<Orden>, mesaId: Id): bool
  {
    FirstFailure(t0, |Plan(v, ordenes, mesaId)|, failures) == |Plan(v, ordenes, mesaId)|
  }

  /** The shared close-out sequence. */
  method CerrarMesa(store: Store, v: Venta, ordenes: seq<Orden>, mesaId: Id) returns (ok: bool)
    modifies store
    ensures ok == CloseOutSucceeds(|old(store.trace)|, store.failures, v, ordenes, mesaId)
    ensures store.trace == old(store.trace) + Plan(v, ordenes, mesaId)[..Issued(|old(store.trace)|, |ordenes| + 2, store.failures)]
    ensures store.ventas == if |old(store.trace)| !in store.failures then old(store.ventas) + [v] else old(store.ventas)
    ensures store.ordenes == old(store.ordenes) - IdsDe(ordenes[..Deleted(|old(store.trace)|, |ordenes|, store.failures)])
    ensures store.mesas == if ok && mesaId in old(store.mesas)
      then old(store.mesas)[mesaId := ApplyPatch(old(store.mesas)[mesaId], Liberacion())]
      else old(store.mesas)
    ensures store.State() == AfterCloseOut(old(store.State()), store.failures, v, ordenes, mesaId)
  {
    ghost var plan, t0 := Plan(v, ordenes, mesaId), |store.trace|;
    ghost var n := |plan|;
    assert n == |ordenes| + 2;
    ok := store.CrearVenta(v);
    if !ok {
      FirstFailureAt(t0, n, store.failures, 0);
      assert Deleted(t0, |ordenes|, store.failures) == 0;
      assert ordenes[..0] == [];
      return;
    }
    var i := 0;
    while i < |ordenes|
      invariant 0 <= i <= |ordenes|
      invariant store.trace == old(store.trace) + plan[..i + 1]
      invariant forall c :: t0 <= c < t0 + i + 1 ==> c !in store.failures
      invariant store.ventas == old(store.ventas) + [v]
      invariant store.mesas == old(store.mesas)
      invariant store.ordenes == old(store.ordenes) - IdsDe(ordenes[..i])
    {
      assert plan[..i + 2] == plan[..i + 1] + [EliminarOrdenReq(ordenes[i].id)];
      ok := store.EliminarOrden(ordenes[i].id);
      assert IdsDe(ordenes[..i + 1]) == IdsDe(ordenes[..i]) + {ordenes[i].id} by {
        assert ordenes[..i + 1] == ordenes[..i] + [ordenes[i]];
      }
      if !ok {
        FirstFailureAt(t0, n, store.failures, i + 1);
        assert Deleted(t0, |ordenes|, store.failures) == i;
        return;
      }
      i := i + 1;
    }
    assert plan[..i + 2] == plan[..i + 1] + [ActualizarMesaReq(mesaId, Liberacion())];
    ok := store.ActualizarMesa(mesaId, Liberacion());
    assert ordenes[..i] == ordenes;
    if ok {
      FirstFailureAt(t0, n, store.failures, n);
      assert plan[..n] == plan;
    } else {
      FirstFailureAt(t0, n, store.failures, n - 1);
    }
    assert Deleted(t0, |ordenes|, store.failures) == |ordenes|;
  }

  /** A failed sale stops everything: only the sale request is on the trace
      and no order, table or sale changes. */
  lemma {:induction false} SaleFailureStopsAll(s: Snapshot, failures: set<nat>, v: Venta, ordenes: seq<Orden>, mesaId: Id)
    requires |s.trace| in failures
    ensures var r := AfterCloseOut(s, failures, v, ordenes, mesaId);
      && r.trace == s.trace + [CrearVentaReq(v)]
      && r.ordenes == s.ordenes && r.mesas == s.mesas && r.ventas == s.ventas
      && !CloseOutSucceeds(|s.trace|, failures, v, ordenes, mesaId)
  {
    assert ordenes[..0] == [];
  }

  /** A close-out that succeeds records the sale, removes every listed order
      and releases the table. */
  lemma {:induction false} SuccessDoesAll(s: Snapshot, failures: set<nat>, v: Venta, ordenes: seq<Orden>, mesaId: Id)
    requires CloseOutSucceeds(|s.trace|, failures, v, ordenes, mesaId)
    ensures var r := AfterCloseOut(s, failures, v, ordenes, mesaId);
      && r.trace == s.trace + Plan(v, ordenes, mesaId)
      && r.ventas == s.ventas + [v]
      && (forall i :: 0 <= i < |ordenes| ==> ordenes[i].id !in r.ordenes)
      && (forall id :: id in r.ordenes <==> id in s.ordenes && id !in IdsDe(ordenes))
      && (mesaId in s.mesas ==> r.mesas[mesaId].estado == Disponible && r.mesas[mesaId].meseroAsignado == SinMesero)
  {
    var plan, t0 := Plan(v, ordenes, mesaId), |s.trace|;
    assert plan[..|plan|] == plan;
    assert t0 !in failures;
    assert FirstFailure(t0, |ordenes| + 2, failures) == |ordenes| + 2;
    assert ordenes[..|ordenes|] == ordenes;
  }

  /** Only the listed orders can disappear from the store. */
  lemma {:induction false} OnlyListedOrdersDeleted(s: Snapshot, failures: set<nat>, v: Venta, ordenes: seq<Orden>, mesaId: Id, id: Id)
    requires id in s.ordenes && id !in IdsDe(ordenes)
    ensures id in AfterCloseOut(s, failures, v, ordenes, mesaId).ordenes
    ensures AfterCloseOut(s, failures, v, ordenes, mesaId).ordenes[id] == s.ordenes[id]
  {
    var d := Deleted(|s.trace|, |ordenes|, failures);
    assert IdsDe(ordenes[..d]) <= IdsDe(ordenes) by {
      forall x | x in IdsDe(ordenes[..d]) ensures x in IdsDe(ordenes) {
        var i :| 0 <= i < d && ordenes[..d][i].id == x;
        assert ordenes[i].id == x;
      }
    }
  }

  /** The sale is the first call, the deletions follow in list order, the release is last. */
  lemma {:induction false} PlanOrder(v: Venta, ordenes: seq<Orden>, mesaId: Id)
    ensures var plan := Plan(v, ordenes, mesaId);
      && |plan| == |ordenes| + 2
      && plan[0] == CrearVentaReq(v)
      && (forall i :: 1 <= i <= |ordenes| ==> plan[i] == EliminarOrdenReq(ordenes[i - 1].id))
      && plan[|plan| - 1] == ActualizarMesaReq(mesaId, Liberacion())
  {
  }

  /** A close-out that released the table created the sale and deleted every
      order before doing so; one that deleted any order created the sale first. */
  lemma {:induction false} IssuedPrefixOrder(v: Venta, ordenes: seq<Orden>, mesaId: Id, k: nat)
    requires k <= |Plan(v, ordenes, mesaId)|
    ensures var done := Plan(v, ordenes, mesaId)[..k];
      && (ActualizarMesaReq(mesaId, Liberacion()) in done ==> done == Plan(v, ordenes, mesaId))
      && (forall id :: EliminarOrdenReq(id) in done ==> done[0] == CrearVentaReq(v))
  {
    var plan := Plan(v, ordenes, mesaId);
    var done := plan[..k];
    if ActualizarMesaReq(mesaId, Liberacion()) in done {
      var j :| 0 <= j < k && done[j] == ActualizarMesaReq(mesaId, Liberacion());
      assert j == |plan| - 1;
    }
  }
}
