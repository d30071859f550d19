/** `NuevaOrdenScreen`: the catalogue of available products, the search
    box, the cart and the order record built from it. */
module NuevaOrden {
  import opened Wrappers
  import opened Seqs
  import opened Text
  import opened Domain
  import opened Billing

  /** A cart entry: the product as it was added, plus `cantidad`. */
  datatype CartItem = CartItem(producto: Producto, cantidad: int)

  /** `carrito.find(item => item._id === id)`, as an index. */
  function Buscar(c: seq<CartItem>, id: Id): (r: Option<nat>)
    ensures r.None? ==> forall i :: 0 <= i < |c| ==> c[i].producto.id != id
    ensures r.Some? ==> r.value < |c| && c[r.value].producto.id == id
    ensures r.Some? ==> forall i :: 0 <= i < r.value ==> c[i].producto.id != id
  {
    if c == [] then None
    else if c[0].producto.id == id then Some(0)
    else match Buscar(c[1..], id)
      case None => None
      case Some(k) => Some(k + 1)
  }

  /** Keeps the entries whose id is not `id`. */
  function NoEs(id: Id): CartItem -> bool
  {
    (it: CartItem) => it.producto.id != id
  }

  /** `agregarAlCarrito`: one more of an entry already there (all entries
      with that id), or a new entry with quantity 1 at the end. */
  function Agregar(c: seq<CartItem>, p: Producto): seq<CartItem>
  {
    if Buscar(c, p.id).Some? then
      seq(|c|, i requires 0 <= i < |c| =>
        if c[i].producto.id == p.id then c[i].(cantidad := c[i].cantidad + 1) else c[i])
    else
      c + [CartItem(p, 1)]
  }

  /** `quitarDelCarrito`: one less when the first entry with that id has
      more than one, otherwise every entry with that id goes. The source
      reads the entry's quantity unguarded, so the id must be in the cart. */
  function Quitar(c: seq<CartItem>, id: Id): seq<CartItem>
    requires Buscar(c, id).Some?
  {
    if c[Buscar(c, id).value].cantidad > 1 then
      seq(|c|, i requires 0 <= i < |c| =>
        if c[i].producto.id == id then c[i].(cantidad := c[i].cantidad - 1) else c[i])
    else
      Filter(c, NoEs(id))
  }

  /** `eliminarDelCarrito` */
  function Eliminar(c: seq<CartItem>, id: Id): seq<CartItem>
  {
    Filter(c, NoEs(id))
  }

  function Importe(it: CartItem): int
  {
    it.producto.precio * it.cantidad
  }

  /** `calcularTotal`: the sum of price times quantity. */
  function Total(c: seq<CartItem>): int
  {
    if c == [] then 0 else Total(c[..|c| - 1]) + Importe(c[|c| - 1])
  }

  // ---- the cart invariant ----

  predicate IdsUnicos(c: seq<CartItem>)
  {
    forall i, j :: 0 <= i < j < |c| ==> c[i].producto.id != c[j].producto.id
  }

  predicate CantidadesPositivas(c: seq<CartItem>)
  {
    forall i :: 0 <= i < |c| ==> c[i].cantidad >= 1
  }

  /** Every cart the screen can build: one entry per product, each at least once. */
  predicate CarritoValido(c: seq<CartItem>)
  {
    IdsUnicos(c) && CantidadesPositivas(c)
  }

  lemma {:induction false} FilterKeepsUnique(c: seq<CartItem>, p: CartItem -> bool)
    requires IdsUnicos(c)
    ensures IdsUnicos(Filter(c, p))
    decreases |c|
  {
    if c != [] {
      FilterKeepsUnique(c[1..], p);
      if p(c[0]) {
        var r := Filter(c, p);
        assert r == [c[0]] + Filter(c[1..], p);
        forall j | 0 < j < |r| ensures r[0].producto.id != r[j].producto.id {
          assert r[j] in Filter(c[1..], p);
          var k :| 0 <= k < |c[1..]| && c[1..][k] == r[j];
          assert c[k + 1] == r[j];
        }
      }
    }
  }

  lemma {:induction false} FilterKeepsValid(c: seq<CartItem>, p: CartItem -> bool)
    requires CarritoValido(c)
    ensures CarritoValido(Filter(c, p))
  {
    FilterKeepsUnique(c, p);
    var r := Filter(c, p);
    forall i | 0 <= i < |r| ensures r[i].cantidad >= 1 {
      assert r[i] in c;
    }
  }

  /** With unique ids, dropping an id removes exactly its one entry. */
  lemma {:induction false} FilterRemovesOne(c: seq<CartItem>, k: nat, id: Id)
    requires IdsUnicos(c) && k < |c| && c[k].producto.id == id
    ensures Filter(c, NoEs(id)) == c[..k] + c[k + 1..]
  {
    var pre, post := c[..k], c[k + 1..];
    forall i | 0 <= i < |pre| ensures NoEs(id)(pre[i]) {
      assert pre[i] == c[i];
    }
    forall i | 0 <= i < |post| ensures NoEs(id)(post[i]) {
      assert post[i] == c[k + 1 + i];
    }
    assert c == pre + [c[k]] + post;
    FilterDropsOne(pre, c[k], post, NoEs(id));
  }

  /** Adding keeps the cart valid. */
  lemma {:induction false} AgregarValido(c: seq<CartItem>, p: Producto)
    requires CarritoValido(c)
    ensures CarritoValido(Agregar(c, p))
  {
  }

  /** Taking one away keeps the cart valid: with unique ids only the one
      entry found is decremented, and only when it has more than one. */
  lemma {:induction false} QuitarValido(c: seq<CartItem>, id: Id)
    requires CarritoValido(c) && Buscar(c, id).Some?
    ensures CarritoValido(Quitar(c, id))
  {
    var k := Buscar(c, id).value;
    if c[k].cantidad <= 1 {
      FilterKeepsValid(c, NoEs(id));
    }
  }

  lemma {:induction false} EliminarValido(c: seq<CartItem>, id: Id)
    requires CarritoValido(c)
    ensures CarritoValido(Eliminar(c, id))
  {
    FilterKeepsValid(c, NoEs(id));
  }

  // ---- what each operation does ----

  /** Adding a product already in a valid cart increments only its entry;
      adding a new one appends it with quantity 1. */
  lemma {:induction false} AgregarSpec(c: seq<CartItem>, p: Producto)
    requires IdsUnicos(c)
    ensures var r := Agregar(c, p);
      match Buscar(c, p.id)
      case Some(k) => r == c[k := c[k].(cantidad := c[k].cantidad + 1)]
      case None => r == c + [CartItem(p, 1)]
  {
  }

  /** Taking one away from a valid cart decrements the entry found, or
      removes exactly that entry and keeps the others in order. */
  lemma {:induction false} QuitarSpec(c: seq<CartItem>, id: Id)
    requires IdsUnicos(c) && Buscar(c, id).Some?
    ensures var k, r := Buscar(c, id).value, Quitar(c, id);
      if c[k].cantidad > 1 then r == c[k := c[k].(cantidad := c[k].cantidad - 1)]
      else r == c[..k] + c[k + 1..]
  {
    var k := Buscar(c, id).value;
    if c[k].cantidad <= 1 {
      FilterRemovesOne(c, k, id);
    }
  }

  /** Removing drops every entry with that id and keeps the others, in order. */
  lemma {:induction false} EliminarSpec(c: seq<CartItem>, id: Id)
    ensures var r := Eliminar(c, id);
      && (forall it :: it in r <==> it in c && it.producto.id != id)
      && IsSubsequence(r, c)
  {
    FilterIsSubsequence(c, NoEs(id));
  }

  /** Adding a product and taking it away again gives back the cart. */
  lemma {:induction false} AgregarQuitar(c: seq<CartItem>, p: Producto)
    requires CantidadesPositivas(c)
    ensures Buscar(Agregar(c, p), p.id).Some?
    ensures Quitar(Agregar(c, p), p.id) == c
  {
    var a := Agregar(c, p);
    if Buscar(c, p.id).None? {
      FilterConcat(c, [CartItem(p, 1)], NoEs(p.id));
      FilterAll(c, NoEs(p.id));
      assert Filter([CartItem(p, 1)], NoEs(p.id)) == [];
      assert c + [] == c;
      assert Buscar(a, p.id) == Some(|c|) by {
        BuscarAppend(c, CartItem(p, 1), p.id);
      }
    } else {
      assert Buscar(a, p.id) == Buscar(c, p.id) by {
        BuscarSameIds(c, a, p.id);
      }
    }
  }

  lemma {:induction false} BuscarAppend(c: seq<CartItem>, it: CartItem, id: Id)
    requires Buscar(c, id).None? && it.producto.id == id
    ensures Buscar(c + [it], id) == Some(|c|)
    decreases |c|
  {
    if c != [] {
      assert (c + [it])[1..] == c[1..] + [it];
      BuscarAppend(c[1..], it, id);
    }
  }

  lemma {:induction false} BuscarSameIds(c: seq<CartItem>, d: seq<CartItem>, id: Id)
    requires |c| == |d|
    requires forall i :: 0 <= i < |c| ==> c[i].producto.id == d[i].producto.id
    ensures Buscar(c, id) == Buscar(d, id)
    decreases |c|
  {
    if c != [] {
      BuscarSameIds(c[1..], d[1..], id);
    }
  }

  lemma {:induction false} TotalUpdate(c: seq<CartItem>, k: nat, it: CartItem)
    requires k < |c|
    ensures Total(c[k := it]) == Total(c) - Importe(c[k]) + Importe(it)
    decreases |c|
  {
    var n := |c| - 1;
    if k < n {
      assert c[k := it][..n] == c[..n][k := it];
      TotalUpdate(c[..n], k, it);
    } else {
      assert c[k := it][..n] == c[..n];
    }
  }

  /** Adding a product raises the total by the price of its entry: the
      stored entry's price when it was there, the product's price otherwise. */
  lemma {:induction false} TotalAgregar(c: seq<CartItem>, p: Producto)
    requires IdsUnicos(c)
    ensures match Buscar(c, p.id)
      case Some(k) => Total(Agregar(c, p)) == Total(c) + c[k].producto.precio
      case None => Total(Agregar(c, p)) == Total(c) + p.precio
  {
    AgregarSpec(c, p);
    match Buscar(c, p.id)
    case Some(k) =>
      ImporteMasUno(c[k]);
      TotalUpdate(c, k, c[k].(cantidad := c[k].cantidad + 1));
    case None =>
      TotalSnoc(c, CartItem(p, 1));
  }

  lemma {:induction false} ImporteMasUno(it: CartItem)
    ensures Importe(it.(cantidad := it.cantidad + 1)) == Importe(it) + it.producto.precio
  {
  }

  lemma {:induction false} TotalSnoc(c: seq<CartItem>, it: CartItem)
    ensures Total(c + [it]) == Total(c) + Importe(it)
  {
    assert (c + [it])[..|c|] == c;
  }

  // ---- the order record ----

  /** The body sent to `ordenService.crearOrden`. */
  datatype NuevaOrden = NuevaOrden(
    mesa: Id,
    mesero: Id,
    productos: seq<LineItem>,
    total: int,
    estado: EstadoOrden)

  function Linea(it: CartItem): LineItem
  {
    LineItem(it.producto.id, it.producto.nombre, it.cantidad, it.producto.precio, Importe(it))
  }

  function Lineas(c: seq<CartItem>): (r: seq<LineItem>)
    ensures |r| == |c|
  {
    seq(|c|, i requires 0 <= i < |c| => Linea(c[i]))
  }

  /** `crearOrden`: an empty cart is refused. */
  function OrdenDeCarrito(c: seq<CartItem>, mesaId: Id, userId: Id): Result<NuevaOrden, string>
  {
    if |c| == 0 then Failure("Agrega al menos un producto")
    else Success(NuevaOrden(mesaId, userId, Lineas(c), Total(c), Pendiente))
  }

  lemma {:induction false} TotalIsLinesSubtotal(c: seq<CartItem>)
    ensures Total(c) == ItemsSubtotal(Lineas(c))
    decreases |c|
  {
    if c != [] {
      var n := |c| - 1;
      assert Lineas(c)[..n] == Lineas(c[..n]);
      TotalIsLinesSubtotal(c[..n]);
    }
  }

  /** An order is created iff the cart is not empty; it has one line per
      entry, in cart order, priced at the product's price, its total is the
      sum of the lines' subtotals and the cart total, and it is pending. */
  lemma {:induction false} OrdenDeCarritoSpec(c: seq<CartItem>, mesaId: Id, userId: Id)
    ensures var r := OrdenDeCarrito(c, mesaId, userId);
      && (r.Failure? <==> c == [])
      && (r.Failure? ==> r.error == "Agrega al menos un producto")
      && (r.Success? ==>
        && r.value.mesa == mesaId && r.value.mesero == userId
        && |r.value.productos| == |c|
        && (forall i :: 0 <= i < |c| ==>
              var l := r.value.productos[i];
              && l.productoId == c[i].producto.id && l.nombre == c[i].producto.nombre
              && l.cantidad == c[i].cantidad && l.precioUnitario == c[i].producto.precio
              && l.subtotal == c[i].producto.precio * c[i].cantidad)
        && r.value.total == Total(c)
        && r.value.total == ItemsSubtotal(r.value.productos)
        && r.value.estado == Pendiente)
  {
    TotalIsLinesSubtotal(c);
  }

  /** An order stored as sent has a total that agrees with its lines, so
      its contribution to a table's bill total equals its grouped subtotals. */
  lemma {:induction false} OrdenCreadaCoherente(c: seq<CartItem>, mesaId: Id, userId: Id, id: Id)
    requires c != []
    ensures var n := OrdenDeCarrito(c, mesaId, userId).value;
      TotalCoherente(Orden(id, MesaId(mesaId), userId, Some(n.productos), Some(n.total), n.estado))
  {
    TotalIsLinesSubtotal(c);
  }

  // ---- the catalogue and the search ----

  predicate EstaDisponible(p: Producto)
  {
    p.disponible
  }

  /** `cargarProductos` keeps the available products only. */
  function Disponibles(ps: seq<Producto>): seq<Producto>
  {
    Filter(ps, EstaDisponible)
  }

  /** The search matches the lower-cased name or category. */
  predicate Coincide(p: Producto, q: string)
  {
    Contains(ToLower(p.nombre), ToLower(q)) || Contains(ToLower(p.categoria), ToLower(q))
  }

  function Busqueda(q: string): Producto -> bool
  {
    (p: Producto) => Coincide(p, q)
  }

  /** `productosFiltrados` */
  function ProductosFiltrados(ps: seq<Producto>, q: string): seq<Producto>
  {
    Filter(ps, Busqueda(q))
  }

  /** Listed products are exactly the available ones, in catalogue order. */
  lemma {:induction false} DisponiblesSpec(ps: seq<Producto>)
    ensures forall p :: p in Disponibles(ps) <==> p in ps && p.disponible
    ensures IsSubsequence(Disponibles(ps), ps)
  {
    FilterIsSubsequence(ps, EstaDisponible);
  }

  /** A product is shown iff the lower-cased query occurs in its lower-cased
      name or category; the order of the list is kept. */
  lemma {:induction false} ProductosFiltradosSpec(ps: seq<Producto>, q: string)
    ensures forall p :: p in ProductosFiltrados(ps, q) <==>
      p in ps && ((exists i :: OccursAt(ToLower(p.nombre), ToLower(q), i))
               || (exists i :: OccursAt(ToLower(p.categoria), ToLower(q), i)))
    ensures IsSubsequence(ProductosFiltrados(ps, q), ps)
  {
    FilterIsSubsequence(ps, Busqueda(q));
  }

  /** An empty search shows every listed product. */
  lemma {:induction false} BusquedaVacia(ps: seq<Producto>)
    ensures ProductosFiltrados(ps, "") == ps
  {
    forall i | 0 <= i < |ps| ensures Busqueda("")(ps[i]) {
      assert OccursAt(ToLower(ps[i].nombre), ToLower(""), 0);
    }
    FilterAll(ps, Busqueda(""));
  }

  class NuevaOrdenScreen {
    const mesaId: Id
    /** The id of the signed-in waiter (`user._id`). */
    const userId: Id
    var productos: seq<Producto>
    var carrito: seq<CartItem>
    var loading: bool
    var searchQuery: string

    constructor (mesaId: Id, userId: Id)
      ensures this.mesaId == mesaId && this.userId == userId
      ensures productos == [] && carrito == [] && loading && searchQuery == ""
    {
      this.mesaId, this.userId := mesaId, userId;
      productos, carrito, loading, searchQuery := [], [], true, "";
    }

    method CargarProductos(res: Result<seq<Producto>, string>)
      modifies this
      ensures productos == if res.Success? then Disponibles(res.value) else old(productos)
      ensures !loading
      ensures carrito == old(carrito) && searchQuery == old(searchQuery)
    {
      loading := true;
      if res.Success? {
        productos := Disponibles(res.value);
      }
      loading := false;
    }

    method AgregarAlCarrito(p: Producto)
      modifies this
      ensures carrito == Agregar(old(carrito), p)
      ensures CarritoValido(old(carrito)) ==> CarritoValido(carrito)
      ensures productos == old(productos) && loading == old(loading) && searchQuery == old(searchQuery)
    {
      if CarritoValido(carrito) {
        AgregarValido(carrito, p);
      }
      carrito := Agregar(carrito, p);
    }

    method QuitarDelCarrito(id: Id)
      requires Buscar(carrito, id).Some?
      modifies this
      ensures carrito == Quitar(old(carrito), id)
      ensures CarritoValido(old(carrito)) ==> CarritoValido(carrito)
      ensures productos == old(productos) && loading == old(loading) && searchQuery == old(searchQuery)
    {
      if CarritoValido(carrito) {
        QuitarValido(carrito, id);
      }
      carrito := Quitar(carrito, id);
    }

    method EliminarDelCarrito(id: Id)
      modifies this
      ensures carrito == Eliminar(old(carrito), id)
      ensures CarritoValido(old(carrito)) ==> CarritoValido(carrito)
      ensures productos == old(productos) && loading == old(loading) && searchQuery == old(searchQuery)
    {
      if CarritoValido(carrito) {
        EliminarValido(carrito, id);
      }
      carrito := Eliminar(carrito, id);
    }

    method SetSearchQuery(q: string)
      modifies this
      ensures searchQuery == q
      ensures carrito == old(carrito) && productos == old(productos) && loading == old(loading)
    {
      searchQuery := q;
    }
  }
}
