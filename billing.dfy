/** The bill of a table (MesaDetalleScreen): which loaded orders belong to the
    table, the fold that groups the line items of its non-cancelled orders by
    product name, and the grand total taken from the orders' stored totals. */
module Billing {
  import opened Wrappers
  import opened Seqs
  import opened Domain

  /** `orden.mesa?._id === mesaId || orden.mesa === mesaId` */
  predicate PerteneceAMesa(o: Orden, mesaId: Id)
  {
    match o.mesa
    case MesaPoblada(id) => id == mesaId
    case MesaId(id) => id == mesaId
    case SinMesa => false
  }

  /** The orders of `cargarDatos` that belong to the table. */
  function OrdenesDeMesa(todas: seq<Orden>, mesaId: Id): (r: seq<Orden>)
  {
    Filter(todas, (o: Orden) => PerteneceAMesa(o, mesaId))
  }

  lemma {:induction false} OrdenesDeMesaSpec(todas: seq<Orden>, mesaId: Id)
    ensures forall o :: o in OrdenesDeMesa(todas, mesaId) <==>
      o in todas && (o.mesa == MesaPoblada(mesaId) || o.mesa == MesaId(mesaId))
    ensures IsSubsequence(OrdenesDeMesa(todas, mesaId), todas)
  {
    FilterIsSubsequence(todas, (o: Orden) => PerteneceAMesa(o, mesaId));
  }

  /** The orders handed to the ticket view: every order not cancelled. */
  function NoCanceladas(ordenes: seq<Orden>): seq<Orden>
  {
    Filter(ordenes, NoCancelada)
  }

  predicate NoCancelada(o: Orden)
  {
    o.estado != Cancelada
  }

  /** The line items an order contributes: none when cancelled or when `productos` is missing. */
  function ItemsOf(o: Orden): (r: seq<LineItem>)
    ensures o.estado == Cancelada || o.productos.None? ==> r == []
  {
    if o.estado == Cancelada then []
    else match o.productos
      case None => []
      case Some(ps) => ps
  }

  /** Every line item the fold visits, in visiting order. */
  function Items(ordenes: seq<Orden>): seq<LineItem>
  {
    if ordenes == [] then [] else Items(ordenes[..|ordenes| - 1]) + ItemsOf(ordenes[|ordenes| - 1])
  }

  lemma {:induction false} ItemsConcat(a: seq<Orden>, b: seq<Orden>)
    ensures Items(a + b) == Items(a) + Items(b)
    decreases |b|
  {
    if b == [] {
      assert a + b == a;
    } else {
      var b' := b[..|b| - 1];
      assert (a + b)[..|a + b| - 1] == a + b';
      ItemsConcat(a, b');
    }
  }

  /** Handing only the non-cancelled orders to the fold changes nothing. */
  lemma {:induction false} ItemsNoCanceladas(ordenes: seq<Orden>)
    ensures Items(NoCanceladas(ordenes)) == Items(ordenes)
    decreases |ordenes|
  {
    if ordenes != [] {
      var pre, last := ordenes[..|ordenes| - 1], ordenes[|ordenes| - 1];
      var uno := NoCanceladas([last]);
      assert NoCanceladas(ordenes) == NoCanceladas(pre) + uno by {
        assert ordenes == pre + [last];
        FilterConcat(pre, [last], NoCancelada);
      }
      assert Items(uno) == ItemsOf(last) by {
        ItemsUno(last);
        if last.estado != Cancelada {
          assert uno == [last];
        } else {
          assert uno == [];
        }
      }
      ItemsNoCanceladas(pre);
      ItemsConcat(NoCanceladas(pre), uno);
    }
  }

  lemma {:induction false} ItemsUno(o: Orden)
    ensures Items([o]) == ItemsOf(o)
  {
    assert [o][..0] == [];
  }

  /** The `productosAgrupados` dictionary: its keys in insertion order, and its entries. */
  datatype Grouped = Grouped(keys: seq<string>, entries: map<string, Agrupado>)

  const Empty := Grouped([], map[])

  /** One iteration of the inner `forEach`. */
  function Step(g: Grouped, p: LineItem): Grouped
  {
    if p.nombre in g.entries then
      var e := g.entries[p.nombre];
      Grouped(g.keys, g.entries[p.nombre := e.(cantidad := e.cantidad + p.cantidad, subtotal := e.subtotal + p.subtotal)])
    else
      Grouped(g.keys + [p.nombre], g.entries[p.nombre := Agrupado(p.nombre, p.cantidad, p.precioUnitario, p.subtotal)])
  }

  /** The dictionary after visiting `items` in order. */
  function Fold(items: seq<LineItem>): Grouped
  {
    if items == [] then Empty else Step(Fold(items[..|items| - 1]), items[|items| - 1])
  }

  ghost predicate WellFormed(g: Grouped)
  {
    && (forall a, b :: 0 <= a < b < |g.keys| ==> g.keys[a] != g.keys[b])
    && (forall n :: n in g.entries <==> n in g.keys)
  }

  /** `Object.values(productosAgrupados)` */
  function Values(g: Grouped): (r: seq<Agrupado>)
    requires WellFormed(g)
    ensures |r| == |g.keys|
    ensures forall i :: 0 <= i < |r| ==> r[i] == g.entries[g.keys[i]]
  {
    seq(|g.keys|, i requires 0 <= i < |g.keys| => g.entries[g.keys[i]])
  }

  // ---- the reference definitions the fold is proved against ----

  predicate Occurs(items: seq<LineItem>, n: string)
  {
    exists i :: 0 <= i < |items| && items[i].nombre == n
  }

  /** Index `i` holds the first line item named `n`. */
  predicate IsFirst(items: seq<LineItem>, n: string, i: int)
  {
    0 <= i < |items| && items[i].nombre == n && forall j :: 0 <= j < i ==> items[j].nombre != n
  }

  /** Total quantity over the line items named `n`. */
  function CantidadDe(items: seq<LineItem>, n: string): int
  {
    if items == [] then 0
    else CantidadDe(items[..|items| - 1], n) + (if items[|items| - 1].nombre == n then items[|items| - 1].cantidad else 0)
  }

  /** Total subtotal over the line items named `n`. */
  function SubtotalDe(items: seq<LineItem>, n: string): int
  {
    if items == [] then 0
    else SubtotalDe(items[..|items| - 1], n) + (if items[|items| - 1].nombre == n then items[|items| - 1].subtotal else 0)
  }

  lemma {:induction false} AbsentSumsZero(items: seq<LineItem>, n: string)
    requires !Occurs(items, n)
    ensures CantidadDe(items, n) == 0 && SubtotalDe(items, n) == 0
    decreases |items|
  {
    if items != [] {
      AbsentSumsZero(items[..|items| - 1], n);
    }
  }

  lemma {:induction false} OccursSnoc(pre: seq<LineItem>, p: LineItem, n: string)
    ensures Occurs(pre + [p], n) <==> Occurs(pre, n) || p.nombre == n
  {
    var items := pre + [p];
    if Occurs(pre, n) {
      var i :| 0 <= i < |pre| && pre[i].nombre == n;
      assert items[i].nombre == n;
    }
    if p.nombre == n {
      assert items[|pre|].nombre == n;
    }
    if Occurs(items, n) {
      var i :| 0 <= i < |items| && items[i].nombre == n;
      if i < |pre| { assert pre[i].nombre == n; }
    }
  }

  lemma {:induction false} IsFirstSnoc(pre: seq<LineItem>, p: LineItem, n: string, i: int)
    requires IsFirst(pre, n, i)
    ensures IsFirst(pre + [p], n, i)
  {
  }

  lemma {:induction false} IsFirstNew(pre: seq<LineItem>, p: LineItem)
    requires !Occurs(pre, p.nombre)
    ensures IsFirst(pre + [p], p.nombre, |pre|)
  {
    var items := pre + [p];
    forall j | 0 <= j < |pre| ensures items[j].nombre != p.nombre {
      assert items[j] == pre[j];
    }
  }

  lemma {:induction false} IsFirstBack(pre: seq<LineItem>, p: LineItem, n: string, i: int)
    requires Occurs(pre, n)
    requires IsFirst(pre + [p], n, i)
    ensures IsFirst(pre, n, i)
  {
    var k :| 0 <= k < |pre| && pre[k].nombre == n;
    assert (pre + [p])[k].nombre == n;
    assert i <= k;
    forall j | 0 <= j < i ensures pre[j].nombre != n {
      assert (pre + [p])[j] == pre[j];
    }
  }

  lemma {:induction false} IsFirstUnique(items: seq<LineItem>, n: string, i: int, j: int)
    requires IsFirst(items, n, i) && IsFirst(items, n, j)
    ensures i == j
  {
  }

  /** The dictionary's keys are distinct and are exactly the names seen. */
  lemma {:induction false} FoldKeys(items: seq<LineItem>)
    ensures WellFormed(Fold(items))
    ensures forall n :: n in Fold(items).entries <==> Occurs(items, n)
    decreases |items|
  {
    if items != [] {
      var pre, p := items[..|items| - 1], items[|items| - 1];
      assert items == pre + [p];
      FoldKeys(pre);
      forall n ensures Occurs(items, n) <==> Occurs(pre, n) || p.nombre == n {
        OccursSnoc(pre, p, n);
      }
    }
  }

  /** Each entry sums the quantities and subtotals of every line item with its name. */
  lemma {:induction false} FoldSums(items: seq<LineItem>)
    ensures forall n :: n in Fold(items).entries ==>
      && Fold(items).entries[n].nombre == n
      && Fold(items).entries[n].cantidad == CantidadDe(items, n)
      && Fold(items).entries[n].subtotal == SubtotalDe(items, n)
    decreases |items|
  {
    if items != [] {
      var pre, p := items[..|items| - 1], items[|items| - 1];
      assert items == pre + [p];
      FoldSums(pre);
      FoldKeys(pre);
      if p.nombre !in Fold(pre).entries {
        AbsentSumsZero(pre, p.nombre);
      }
    }
  }

  /** Each entry keeps the unit price of the first line item with its name. */
  lemma {:induction false} FoldFirstPrice(items: seq<LineItem>)
    ensures forall n :: n in Fold(items).entries ==>
      exists i :: IsFirst(items, n, i) && Fold(items).entries[n].precioUnitario == items[i].precioUnitario
    decreases |items|
  {
    if items != [] {
      var pre, p := items[..|items| - 1], items[|items| - 1];
      assert items == pre + [p];
      FoldFirstPrice(pre);
      FoldKeys(pre);
      var g := Fold(pre);
      forall n | n in Fold(items).entries
        ensures exists i :: IsFirst(items, n, i) && Fold(items).entries[n].precioUnitario == items[i].precioUnitario
      {
        if n in g.entries {
          var i :| IsFirst(pre, n, i) && g.entries[n].precioUnitario == pre[i].precioUnitario;
          IsFirstSnoc(pre, p, n, i);
          assert items[i] == pre[i];
        } else {
          assert n == p.nombre;
          IsFirstNew(pre, p);
        }
      }
    }
  }

  /** The keys appear in the order in which their names are first seen. */
  lemma {:induction false} FoldOrder(items: seq<LineItem>)
    ensures forall a, b, i, j ::
      (0 <= a < b < |Fold(items).keys| && IsFirst(items, Fold(items).keys[a], i) && IsFirst(items, Fold(items).keys[b], j)) ==> i < j
    decreases |items|
  {
    if items != [] {
      var pre, p := items[..|items| - 1], items[|items| - 1];
      assert items == pre + [p];
      FoldOrder(pre);
      FoldKeys(pre);
      var g, g' := Fold(pre), Fold(items);
      forall a, b, i, j | 0 <= a < b < |g'.keys| && IsFirst(items, g'.keys[a], i) && IsFirst(items, g'.keys[b], j)
        ensures i < j
      {
        assert g'.keys[a] == g.keys[a];
        assert g.keys[a] in g.entries;
        IsFirstBack(pre, p, g.keys[a], i);
        if b < |g.keys| {
          assert g'.keys[b] == g.keys[b];
          assert g.keys[b] in g.entries;
          IsFirstBack(pre, p, g.keys[b], j);
        } else {
          assert g'.keys[b] == p.nombre && p.nombre !in g.entries;
          IsFirstNew(pre, p);
          IsFirstUnique(items, p.nombre, j, |pre|);
        }
      }
    }
  }

  // ---- conservation ----

  function SumCantidad(vals: seq<Agrupado>): int
  {
    if vals == [] then 0 else SumCantidad(vals[..|vals| - 1]) + vals[|vals| - 1].cantidad
  }

  function SumSubtotal(vals: seq<Agrupado>): int
  {
    if vals == [] then 0 else SumSubtotal(vals[..|vals| - 1]) + vals[|vals| - 1].subtotal
  }

  function ItemsCantidad(items: seq<LineItem>): int
  {
    if items == [] then 0 else ItemsCantidad(items[..|items| - 1]) + items[|items| - 1].cantidad
  }

  function ItemsSubtotal(items: seq<LineItem>): int
  {
    if items == [] then 0 else ItemsSubtotal(items[..|items| - 1]) + items[|items| - 1].subtotal
  }

  lemma {:induction false} SumsUpdate(vals: seq<Agrupado>, k: nat, e: Agrupado)
    requires k < |vals|
    ensures SumCantidad(vals[k := e]) == SumCantidad(vals) - vals[k].cantidad + e.cantidad
    ensures SumSubtotal(vals[k := e]) == SumSubtotal(vals) - vals[k].subtotal + e.subtotal
    decreases |vals|
  {
    var vals' := vals[k := e];
    assert vals'[..|vals'| - 1] == if k == |vals| - 1 then vals[..|vals| - 1] else vals[..|vals| - 1][k := e];
    if k < |vals| - 1 {
      SumsUpdate(vals[..|vals| - 1], k, e);
    }
  }

  /** One step of the fold adds the line item's quantity and subtotal to the bill's sums. */
  lemma {:induction false} StepSums(g: Grouped, p: LineItem)
    requires WellFormed(g)
    ensures WellFormed(Step(g, p))
    ensures SumCantidad(Values(Step(g, p))) == SumCantidad(Values(g)) + p.cantidad
    ensures SumSubtotal(Values(Step(g, p))) == SumSubtotal(Values(g)) + p.subtotal
  {
    StepWellFormed(g, p);
    if p.nombre in g.entries {
      assert p.nombre in g.keys;
      var k :| 0 <= k < |g.keys| && g.keys[k] == p.nombre;
      StepSumsHit(g, p, k);
    } else {
      StepSumsNew(g, p);
    }
  }

  lemma {:induction false} StepSumsHit(g: Grouped, p: LineItem, k: nat)
    requires WellFormed(g) && k < |g.keys| && g.keys[k] == p.nombre
    ensures SumCantidad(Values(Step(g, p))) == SumCantidad(Values(g)) + p.cantidad
    ensures SumSubtotal(Values(Step(g, p))) == SumSubtotal(Values(g)) + p.subtotal
  {
    StepValuesHit(g, p, k);
    SumsBump(Values(g), Values(Step(g, p)), k, p);
  }

  /** Adding a line item to one entry adds it to the sums. */
  lemma {:induction false} SumsBump(vs: seq<Agrupado>, vs': seq<Agrupado>, k: nat, p: LineItem)
    requires k < |vs|
    requires var e := vs[k]; vs' == vs[k := e.(cantidad := e.cantidad + p.cantidad, subtotal := e.subtotal + p.subtotal)]
    ensures SumCantidad(vs') == SumCantidad(vs) + p.cantidad && SumSubtotal(vs') == SumSubtotal(vs) + p.subtotal
  {
    var e := vs[k];
    SumsUpdate(vs, k, e.(cantidad := e.cantidad + p.cantidad, subtotal := e.subtotal + p.subtotal));
  }

  lemma {:induction false} StepSumsNew(g: Grouped, p: LineItem)
    requires WellFormed(g) && p.nombre !in g.entries
    ensures SumCantidad(Values(Step(g, p))) == SumCantidad(Values(g)) + p.cantidad
    ensures SumSubtotal(Values(Step(g, p))) == SumSubtotal(Values(g)) + p.subtotal
  {
    StepWellFormed(g, p);
    StepValuesNew(g, p);
    SumsAppend(Values(g), Agrupado(p.nombre, p.cantidad, p.precioUnitario, p.subtotal));
  }

  lemma {:induction false} SumsAppend(vs: seq<Agrupado>, a: Agrupado)
    ensures SumCantidad(vs + [a]) == SumCantidad(vs) + a.cantidad
    ensures SumSubtotal(vs + [a]) == SumSubtotal(vs) + a.subtotal
  {
    assert (vs + [a])[..|vs|] == vs;
  }

  lemma {:induction false} StepWellFormed(g: Grouped, p: LineItem)
    requires WellFormed(g)
    ensures WellFormed(Step(g, p))
  {
  }

  /** A name already in the dictionary updates its own entry in place. */
  lemma {:induction false} StepValuesHit(g: Grouped, p: LineItem, k: nat)
    requires WellFormed(g) && k < |g.keys| && g.keys[k] == p.nombre
    ensures WellFormed(Step(g, p))
    ensures var e := Values(g)[k];
      Values(Step(g, p)) == Values(g)[k := e.(cantidad := e.cantidad + p.cantidad, subtotal := e.subtotal + p.subtotal)]
  {
    StepWellFormed(g, p);
    var e := g.entries[p.nombre];
    var e' := e.(cantidad := e.cantidad + p.cantidad, subtotal := e.subtotal + p.subtotal);
    var g' := Step(g, p);
    assert g'.keys == g.keys && g'.entries == g.entries[p.nombre := e'];
    var vs, vs' := Values(g), Values(g');
    assert vs[k] == e;
    forall i | 0 <= i < |vs| ensures vs'[i] == vs[k := e'][i] {
      if i != k {
        assert g.keys[i] != p.nombre;
      }
    }
  }

  /** A new name appends its entry at the end. */
  lemma {:induction false} StepValuesNew(g: Grouped, p: LineItem)
    requires WellFormed(g) && p.nombre !in g.entries
    ensures Values(Step(g, p)) == Values(g) + [Agrupado(p.nombre, p.cantidad, p.precioUnitario, p.subtotal)]
  {
    var g' := Step(g, p);
    var a := Agrupado(p.nombre, p.cantidad, p.precioUnitario, p.subtotal);
    assert g'.keys == g.keys + [p.nombre] && g'.entries == g.entries[p.nombre := a];
    var vs, vs' := Values(g), Values(g');
    forall i | 0 <= i < |vs| ensures vs'[i] == vs[i] {
      assert g.keys[i] in g.entries;
    }
  }

  /** Grouping neither creates nor loses quantity or money. */
  lemma {:induction false} FoldConservation(items: seq<LineItem>)
    ensures WellFormed(Fold(items))
    ensures SumCantidad(Values(Fold(items))) == ItemsCantidad(items)
    ensures SumSubtotal(Values(Fold(items))) == ItemsSubtotal(items)
    decreases |items|
  {
    if items != [] {
      var pre, p := items[..|items| - 1], items[|items| - 1];
      FoldConservation(pre);
      StepSums(Fold(pre), p);
    }
  }

  // ---- the bill ----

  /** The bill lines `confirmarLiberacion` and `generarTicket` build. */
  function Agrupar(ordenes: seq<Orden>): seq<Agrupado>
  {
    FoldKeys(Items(ordenes));
    Values(Fold(Items(ordenes)))
  }

  /** The grouping loop of `confirmarLiberacion` (repeated in `generarTicket`). */
  method AgruparProductos(ordenes: seq<Orden>) returns (productos: seq<Agrupado>)
    ensures productos == Agrupar(ordenes)
  {
    var keys: seq<string> := [];
    var grouped: map<string, Agrupado> := map[];
    var i := 0;
    while i < |ordenes|
      invariant 0 <= i <= |ordenes|
      invariant Grouped(keys, grouped) == Fold(Items(ordenes[..i]))
    {
      var orden := ordenes[i];
      ItemsSnoc(ordenes, i);
      if orden.estado != Cancelada && orden.productos.Some? {
        keys, grouped := AgregarLineas(keys, grouped, orden.productos.value, Items(ordenes[..i]));
      } else {
        assert Items(ordenes[..i]) + [] == Items(ordenes[..i]);
      }
      i := i + 1;
    }
    assert ordenes[..i] == ordenes;
    FoldKeys(Items(ordenes));
    productos := seq(|keys|, k requires 0 <= k < |keys| => grouped[keys[k]]);
  }

  /** The inner `forEach` over one order's line items. */
  method AgregarLineas(keys0: seq<string>, grouped0: map<string, Agrupado>, ps: seq<LineItem>, ghost visto: seq<LineItem>)
    returns (keys: seq<string>, grouped: map<string, Agrupado>)
    requires Grouped(keys0, grouped0) == Fold(visto)
    ensures Grouped(keys, grouped) == Fold(visto + ps)
  {
    keys, grouped := keys0, grouped0;
    assert visto + ps[..0] == visto;
    var j := 0;
    while j < |ps|
      invariant 0 <= j <= |ps|
      invariant Grouped(keys, grouped) == Fold(visto + ps[..j])
    {
      var prod := ps[j];
      ghost var antes := Grouped(keys, grouped);
      if prod.nombre in grouped {
        var e := grouped[prod.nombre];
        grouped := grouped[prod.nombre := e.(cantidad := e.cantidad + prod.cantidad, subtotal := e.subtotal + prod.subtotal)];
      } else {
        grouped := grouped[prod.nombre := Agrupado(prod.nombre, prod.cantidad, prod.precioUnitario, prod.subtotal)];
        keys := keys + [prod.nombre];
      }
      assert Grouped(keys, grouped) == Step(antes, prod);
      FoldSnoc(visto, ps, j);
      j := j + 1;
    }
    assert ps[..j] == ps;
  }

  lemma {:induction false} ItemsSnoc(ordenes: seq<Orden>, i: nat)
    requires i < |ordenes|
    ensures Items(ordenes[..i + 1]) == Items(ordenes[..i]) + ItemsOf(ordenes[i])
  {
    assert ordenes[..i + 1][..i] == ordenes[..i];
  }

  /** Visiting one more line item is one more `Step`. */
  lemma {:induction false} FoldSnoc(visto: seq<LineItem>, ps: seq<LineItem>, j: nat)
    requires j < |ps|
    ensures Fold(visto + ps[..j + 1]) == Step(Fold(visto + ps[..j]), ps[j])
  {
    var items := visto + ps[..j + 1];
    assert items[..|items| - 1] == visto + ps[..j];
  }

  /** One bill line per distinct product name of the non-cancelled orders' line items. */
  lemma {:induction false} AgruparNames(ordenes: seq<Orden>)
    ensures var items, r := Items(ordenes), Agrupar(ordenes);
      && (forall a, b :: 0 <= a < b < |r| ==> r[a].nombre != r[b].nombre)
      && (forall n :: Occurs(items, n) <==> exists k :: 0 <= k < |r| && r[k].nombre == n)
  {
    var items := Items(ordenes);
    FoldKeys(items);
    FoldSums(items);
    var g, r := Fold(items), Agrupar(ordenes);
    forall n | Occurs(items, n) ensures exists k :: 0 <= k < |r| && r[k].nombre == n {
      var k :| 0 <= k < |g.keys| && g.keys[k] == n;
      assert r[k].nombre == n;
    }
  }

  /** Each bill line sums the quantity and the subtotal of every line item
      with its name and keeps the unit price of the first such item. */
  lemma {:induction false} AgruparLines(ordenes: seq<Orden>)
    ensures var items, r := Items(ordenes), Agrupar(ordenes);
      forall k :: 0 <= k < |r| ==>
        && r[k].cantidad == CantidadDe(items, r[k].nombre)
        && r[k].subtotal == SubtotalDe(items, r[k].nombre)
        && exists i :: IsFirst(items, r[k].nombre, i) && r[k].precioUnitario == items[i].precioUnitario
  {
    var items := Items(ordenes);
    FoldKeys(items);
    FoldSums(items);
    FoldFirstPrice(items);
    var g, r := Fold(items), Agrupar(ordenes);
    forall k | 0 <= k < |r|
      ensures && r[k].cantidad == CantidadDe(items, r[k].nombre)
              && r[k].subtotal == SubtotalDe(items, r[k].nombre)
              && exists i :: IsFirst(items, r[k].nombre, i) && r[k].precioUnitario == items[i].precioUnitario
    {
      var n := g.keys[k];
      assert n in g.entries;
      assert r[k] == g.entries[n];
    }
  }

  /** The bill lines come in the order in which their names are first seen. */
  lemma {:induction false} AgruparOrder(ordenes: seq<Orden>)
    ensures var items, r := Items(ordenes), Agrupar(ordenes);
      forall a, b, i, j ::
        (0 <= a < b < |r| && IsFirst(items, r[a].nombre, i) && IsFirst(items, r[b].nombre, j)) ==> i < j
  {
    var items := Items(ordenes);
    FoldKeys(items);
    FoldSums(items);
    FoldOrder(items);
  }

  /** Quantities and subtotals are conserved between the non-cancelled line items and the bill. */
  lemma {:induction false} AgruparConservation(ordenes: seq<Orden>)
    ensures SumCantidad(Agrupar(ordenes)) == ItemsCantidad(Items(ordenes))
    ensures SumSubtotal(Agrupar(ordenes)) == ItemsSubtotal(Items(ordenes))
  {
    FoldConservation(Items(ordenes));
  }

  /** An order's contribution to `calcularTotal`: its stored total, 0 when missing or cancelled. */
  function TotalDe(o: Orden): (t: int)
    ensures o.estado == Cancelada || o.total.None? ==> t == 0
    ensures o.estado != Cancelada && o.total.Some? ==> t == o.total.value
  {
    if o.estado == Cancelada then 0
    else match o.total
      case None => 0
      case Some(t) => t
  }

  /** `calcularTotal`: the sum of the stored totals of the non-cancelled orders. */
  function CalcularTotal(ordenes: seq<Orden>): int
  {
    if ordenes == [] then 0 else CalcularTotal(ordenes[..|ordenes| - 1]) + TotalDe(ordenes[|ordenes| - 1])
  }

  lemma {:induction false} CalcularTotalConcat(a: seq<Orden>, b: seq<Orden>)
    ensures CalcularTotal(a + b) == CalcularTotal(a) + CalcularTotal(b)
    decreases |b|
  {
    if b == [] {
      assert a + b == a;
    } else {
      assert (a + b)[..|a + b| - 1] == a + b[..|b| - 1];
      CalcularTotalConcat(a, b[..|b| - 1]);
    }
  }

  /** The ticket's orders (cancelled ones dropped) have the same total. */
  lemma {:induction false} CalcularTotalNoCanceladas(ordenes: seq<Orden>)
    ensures CalcularTotal(NoCanceladas(ordenes)) == CalcularTotal(ordenes)
    decreases |ordenes|
  {
    if ordenes != [] {
      var pre, last := ordenes[..|ordenes| - 1], ordenes[|ordenes| - 1];
      var uno := NoCanceladas([last]);
      assert NoCanceladas(ordenes) == NoCanceladas(pre) + uno by {
        assert ordenes == pre + [last];
        FilterConcat(pre, [last], NoCancelada);
      }
      assert CalcularTotal(uno) == TotalDe(last) by {
        assert [last][..0] == [];
        if last.estado != Cancelada {
          assert uno == [last];
        } else {
          assert uno == [];
        }
      }
      CalcularTotalNoCanceladas(pre);
      CalcularTotalConcat(NoCanceladas(pre), uno);
    }
  }

  lemma {:induction false} ItemsSubtotalConcat(a: seq<LineItem>, b: seq<LineItem>)
    ensures ItemsSubtotal(a + b) == ItemsSubtotal(a) + ItemsSubtotal(b)
    decreases |b|
  {
    if b == [] {
      assert a + b == a;
    } else {
      assert (a + b)[..|a + b| - 1] == a + b[..|b| - 1];
      ItemsSubtotalConcat(a, b[..|b| - 1]);
    }
  }

  /** An order whose stored total agrees with its own line items. */
  predicate TotalCoherente(o: Orden)
  {
    TotalDe(o) == ItemsSubtotal(ItemsOf(o))
  }

  /** When every order's stored total agrees with its own lines, the grand
      total equals the sum of the bill's subtotals. */
  lemma {:induction false} TotalMatchesBill(ordenes: seq<Orden>)
    requires forall i :: 0 <= i < |ordenes| ==> TotalCoherente(ordenes[i])
    ensures CalcularTotal(ordenes) == SumSubtotal(Agrupar(ordenes))
  {
    TotalMatchesItems(ordenes);
    AgruparConservation(ordenes);
  }

  lemma {:induction false} TotalMatchesItems(ordenes: seq<Orden>)
    requires forall i :: 0 <= i < |ordenes| ==> TotalCoherente(ordenes[i])
    ensures CalcularTotal(ordenes) == ItemsSubtotal(Items(ordenes))
    decreases |ordenes|
  {
    if ordenes != [] {
      var pre, last := ordenes[..|ordenes| - 1], ordenes[|ordenes| - 1];
      assert TotalCoherente(last);
      TotalMatchesItems(pre);
      ItemsSubtotalConcat(Items(pre), ItemsOf(last));
    }
  }

  /** The grand total is taken from the stored totals, not recomputed: an
      order whose stored total disagrees with its lines gives a total that
      differs from the bill's subtotals. */
  lemma {:induction false} StoredTotalIsTrusted(o: Orden)
    requires o.estado != Cancelada && o.total.Some? && o.total.value != ItemsSubtotal(ItemsOf(o))
    ensures CalcularTotal([o]) == o.total.value
    ensures CalcularTotal([o]) != SumSubtotal(Agrupar([o]))
  {
    assert [o][..0] == [];
    ItemsUno(o);
    AgruparConservation([o]);
  }
}
