# VentaVeloz point of sale: a Dafny model of the screens' logic

VentaVeloz is a point-of-sale client for restaurants. Waiters take a free
table (mesa), add orders (ordenes) to it from the catalogue, look at the
table's bill, and close the table. Closing records a sale (venta) with a
payment method, deletes the table's orders and releases the table.
Administrators keep the catalogue of products (with images), the tables
and the users, and read a sales report with period filters.

This project models the logic of those screens, the session context and
the image helpers of the product service:

- `Domain` holds the records exchanged with the backend. Money is in
  integer cents.
- `Backend` is the REST backend seen as an in-memory store. Each request is
  recorded on a trace and either succeeds or fails. Which requests fail is
  fixed in advance by a set of sequence numbers, so the failure of any step
  can be reasoned about.
- `CloseOut` models closing a table: the sale, then the deletions in list
  order, then the release. The first failure stops everything after it,
  and nothing is rolled back. `AfterCloseOut` is its specification over
  store snapshots.
- `Billing` models a table's bill. It covers which orders belong to the
  table, grouping line items by product name (the dictionary keeps
  insertion order), and the grand total taken from the orders' stored
  totals.
- `MesaDetalle`, `Ticket`, `Mesas`, `NuevaOrden`, `Productos`, `Usuarios`,
  `Ventas` and `Register` model one screen each. Each screen is a class
  whose fields are the screen's state. Its pure rules are functions with
  lemmas beside them.
- `Auth` is the session context (`AuthContext`).
- `Imagen` covers how an image path becomes a URL (`obtenerUrlImagen`) and
  how an upload names its file.
- `Precio` covers how a price in cents is shown in the product form and read
  back by `parseFloat`.
- `Text`, `Seqs` and `Wrappers` are helpers: string functions, `parseInt`,
  filtering, and `Option`/`Result`.

Backend answers, the clock and the image picker's result are parameters of
the methods that use them. The API base URL is a parameter of
`ObtenerUrlImagen`; the configured one is `Imagen.ApiUrl`.

## Model

| member | source | states |
|---|---|---|
| Auth.AuthContext.constructor | src/context/AuthContext.js:7-9 | The session starts with no user, signed out and loading. |
| Auth.AuthContext.CheckUserSession | src/context/AuthContext.js:16-30 | The stored user is restored and the session signed in only when both a user and a non-empty token are stored. Otherwise the session is unchanged. Loading always ends, and "signed in iff a user is held" is preserved. |
| Auth.AuthContext.SignIn | src/context/AuthContext.js:32-41 | It reports success exactly when the login succeeded. On success it holds that user and is signed in with no error. On failure the session is unchanged and the error is passed on. |
| Auth.AuthContext.SignUp | src/context/AuthContext.js:43-52 | Registration affects the session exactly as sign-in does. |
| Auth.AuthContext.SignOut | src/context/AuthContext.js:54-62 | The session always ends: no user, signed out. |
| Backend.Store.CrearVenta | src/services/ventaService.js:13-16 | The request is appended to the trace. The sale is stored iff the call succeeds, and nothing else changes. |
| Backend.Store.EliminarOrden | src/services/ordenService.js:57-60 | The request is appended to the trace. The order is removed iff the call succeeds, and nothing else changes. |
| Backend.Store.ActualizarMesa | src/services/mesaService.js:46-49 | The request is appended to the trace. The patch is applied to the table iff the call succeeds and the table exists. |
| CloseOut.CerrarMesa | src/screens/MesaDetalleScreen.js:94-116 | The store ends exactly in `AfterCloseOut`. The trace is the plan cut after the first failing call. The sale is stored iff the first call succeeds. Exactly the orders deleted before the first failure are gone. The table is released iff every call succeeds. |
| CloseOut.FirstFailure | src/screens/MesaDetalleScreen.js:94-130 | The calls before the returned position all succeed, and the call at that position fails, when it is within range. |
| CloseOut.SaleFailureStopsAll | src/screens/MesaDetalleScreen.js:94-103 | When the sale fails, only the sale request is sent. No order, table or sale changes, and the close-out reports failure. |
| CloseOut.SuccessDoesAll | src/screens/MesaDetalleScreen.js:94-116 | A successful close-out sends every planned call. It adds the sale, removes exactly the listed orders, and leaves the table available with no waiter. |
| CloseOut.OnlyListedOrdersDeleted | src/screens/MesaDetalleScreen.js:106-110 | Whatever fails, an order that is not listed stays in the store unchanged. |
| CloseOut.PlanOrder | src/screens/MesaDetalleScreen.js:94-116 | The sale comes first and the deletions follow in list order. The release comes last. |
| CloseOut.IssuedPrefixOrder | src/screens/MesaDetalleScreen.js:94-130 | If any prefix of the calls that was issued contains the release, the prefix is the whole plan. If it contains a deletion, it begins with the sale. |
| Billing.OrdenesDeMesaSpec | src/screens/MesaDetalleScreen.js:48-51 | An order is kept iff its table, populated or bare, is this table. The kept orders are a subsequence of the loaded ones. |
| Billing.ItemsNoCanceladas | src/screens/MesaDetalleScreen.js:72-74 | Dropping the cancelled orders first leaves the grouped line items unchanged. |
| Billing.FoldKeys | src/screens/MesaDetalleScreen.js:75-85 | The dictionary's keys are distinct. A name is a key iff some visited line item carries it. |
| Billing.FoldSums | src/screens/MesaDetalleScreen.js:75-85 | Each entry's quantity and subtotal are the sums over every line item with its name. |
| Billing.FoldFirstPrice | src/screens/MesaDetalleScreen.js:79-84 | Each entry keeps the unit price of the first line item with its name. |
| Billing.FoldOrder | src/screens/MesaDetalleScreen.js:79-84 | Keys appear in the order in which their names are first seen. |
| Billing.StepSums | src/screens/MesaDetalleScreen.js:75-85 | One grouping step adds exactly the line item's quantity and subtotal to the dictionary's totals. |
| Billing.FoldConservation | src/screens/MesaDetalleScreen.js:72-90 | Grouping neither creates nor loses quantity or money. |
| Billing.AgruparProductos | src/screens/MesaDetalleScreen.js:71-90 | The nested loops build the bill lines of the specification `Agrupar`. |
| Billing.AgregarLineas | src/screens/MesaDetalleScreen.js:74-86 | The inner loop over one order's items continues the fold over everything visited so far. |
| Billing.AgruparNames | src/screens/MesaDetalleScreen.js:71-90 | There is one bill line per distinct product name of the non-cancelled orders' items, and no other line. |
| Billing.AgruparLines | src/screens/MesaDetalleScreen.js:75-85 | Each bill line sums the quantity and subtotal of its name's items and keeps the first such item's unit price. |
| Billing.AgruparOrder | src/screens/MesaDetalleScreen.js:71-90 | Bill lines come in order of first appearance. |
| Billing.AgruparConservation | src/screens/MesaDetalleScreen.js:71-90 | The bill's quantities and subtotals sum to those of the non-cancelled line items. |
| Billing.CalcularTotalNoCanceladas | src/screens/MesaDetalleScreen.js:133-140 | The ticket's order list, with cancelled orders dropped, has the same total as the full list. |
| Billing.TotalMatchesBill | src/screens/MesaDetalleScreen.js:133-140 | When each order's stored total agrees with its own lines, the grand total equals the sum of the bill's subtotals. |
| Billing.StoredTotalIsTrusted | src/screens/MesaDetalleScreen.js:133-140 | For any non-cancelled order whose stored total disagrees with the subtotals of its own lines, the grand total is the stored total and differs from the sum of the bill's subtotals. |
| MesaDetalle.MesaDetalleScreen.constructor | src/screens/MesaDetalleScreen.js:21-28 | The screen starts with no table or orders, loading, the modal closed, cash selected and not processing. |
| MesaDetalle.MesaDetalleScreen.CargarDatos | src/screens/MesaDetalleScreen.js:41-58 | The table is set when its fetch succeeds. The orders become this table's orders only when both fetches succeed. Loading always ends. |
| MesaDetalle.MesaDetalleScreen.LiberarMesa | src/screens/MesaDetalleScreen.js:60-63 | The payment modal opens only when the release button is enabled (not processing, at least one order). |
| MesaDetalle.MesaDetalleScreen.SeleccionarMetodoPago | src/screens/MesaDetalleScreen.js:353-385 | The chosen method is selected, and nothing else changes. |
| MesaDetalle.MesaDetalleScreen.CerrarModal | src/screens/MesaDetalleScreen.js:401 | The modal closes, and nothing else changes. |
| MesaDetalle.MesaDetalleScreen.ConfirmarLiberacion | src/screens/MesaDetalleScreen.js:65-131 | The sale carries the grouped lines and the total of the loaded orders. The store ends in `AfterCloseOut` over every loaded order, cancelled ones included. Processing ends and the modal is closed. |
| MesaDetalle.MesaDetalleScreen.GenerarTicket | src/screens/MesaDetalleScreen.js:142-172 | The ticket receives exactly the non-cancelled loaded orders. |
| MesaDetalle.TicketCoherente | src/screens/MesaDetalleScreen.js:142-172 | The ticket's products and total are those of its own order list. Paying from the ticket records the same sale as releasing from the detail screen. |
| Ticket.TicketScreen.constructor | src/screens/TicketScreen.js:17-20 | The ticket keeps its route data, starts idle and selects cash. |
| Ticket.TicketScreen.SeleccionarMetodoPago | src/screens/TicketScreen.js:178-213 | The method buttons do nothing while processing. Otherwise they select the method. |
| Ticket.TicketScreen.MarcarComoPagada | src/screens/TicketScreen.js:22-65 | The store ends in `AfterCloseOut` with the received products and total, over the received orders (none when the list is missing). The result is true iff every call succeeds. |
| Ticket.VentaRegistrada | src/screens/TicketScreen.js:27-36 | When the sale request succeeds, the store gains exactly one sale. It carries the received products and total, the table, the waiter and the selected method, whatever the received orders hold. When the request fails, the stored sales are untouched. |
| Ticket.SinOrdenesLiberaIgual | src/screens/TicketScreen.js:39-49 | With a missing or empty order list, nothing is deleted. A sale that goes through is still recorded and the table is still released. |
| Ticket.CanceladasSobreviven | src/screens/TicketScreen.js:38-43 | A cancelled order survives a close-out from the ticket, whatever fails. |
| Mesas.GuardarSpec | src/screens/MesasScreen.js:85-104 | A request is sent iff number and capacity are filled; otherwise the required-fields message is shown. Editing updates the selected table and otherwise a table is created. Number and capacity go through `parseInt`. |
| Mesas.EditarSinCambios | src/screens/MesasScreen.js:56-65 | Saving an unchanged edit form sends back the table's own number, capacity and state. A missing or empty location is sent as "interior". |
| Mesas.PieExclusivo | src/screens/MesasScreen.js:250-272 | A free table offers "Tomar Mesa". An occupied one either opens for its waiter or shows as taken, never both. A reserved one shows no footer. |
| Mesas.TomarDaLaMesa | src/screens/MesasScreen.js:136-159 | After taking a table, it opens for the taker, shows as taken to everybody else and is no longer offered. |
| Mesas.LiberadaSeOfrece | src/screens/MesasScreen.js:201-208 | A table released by a close-out is offered again and belongs to nobody. |
| Mesas.CambiarEstadoConservaMesero | src/screens/MesasScreen.js:165-172 | A state change keeps the assigned waiter. |
| Mesas.MesasScreen.constructor | src/screens/MesasScreen.js:22-32 | The screen starts with no tables, loading, the modal closed and the new-table form. |
| Mesas.MesasScreen.CargarMesas | src/screens/MesasScreen.js:44-54 | The tables are replaced on success and kept on failure. Loading always ends. |
| Mesas.MesasScreen.AbrirModal | src/screens/MesasScreen.js:56-77 | The modal opens on the given table's form, or on the new-table form. |
| Mesas.MesasScreen.CerrarModal | src/screens/MesasScreen.js:79-83 | The modal closes and the selection is dropped. |
| Mesas.MesasScreen.GuardarMesa | src/screens/MesasScreen.js:85-111 | It sends the request `Guardar` decides on. The modal closes only when a request is sent and succeeds. |
| Text.ParseIntToString | src/screens/MesasScreen.js:94-95 | `parseInt` reads back any integer rendered by `toString`. |
| NuevaOrden.Buscar | src/screens/NuevaOrdenScreen.js:44 | It finds the first entry with the id, or reports that none has it. |
| NuevaOrden.AgregarSpec | src/screens/NuevaOrdenScreen.js:43-56 | A product already in the cart has its entry incremented, and nothing else changes. A new product is appended with quantity 1. |
| NuevaOrden.QuitarSpec | src/screens/NuevaOrdenScreen.js:58-71 | The found entry is decremented when above 1. Otherwise exactly that entry is removed and the rest keep their order. |
| NuevaOrden.EliminarSpec | src/screens/NuevaOrdenScreen.js:73-75 | Every entry with the id is dropped. The others remain, in order. |
| NuevaOrden.AgregarValido | src/screens/NuevaOrdenScreen.js:43-56 | Adding keeps the cart at one entry per product, each with a positive quantity. |
| NuevaOrden.QuitarValido | src/screens/NuevaOrdenScreen.js:58-71 | Taking one away keeps the cart valid. |
| NuevaOrden.EliminarValido | src/screens/NuevaOrdenScreen.js:73-75 | Removing keeps the cart valid. |
| NuevaOrden.AgregarQuitar | src/screens/NuevaOrdenScreen.js:43-71 | Adding a product and taking it away again gives back the cart. |
| NuevaOrden.TotalAgregar | src/screens/NuevaOrdenScreen.js:77-79 | Adding a product raises the total by the price of its entry. |
| NuevaOrden.TotalIsLinesSubtotal | src/screens/NuevaOrdenScreen.js:91-98 | The cart total equals the sum of the order lines' subtotals. |
| NuevaOrden.OrdenDeCarritoSpec | src/screens/NuevaOrdenScreen.js:81-100 | An empty cart is refused with its message. Otherwise the pending order has one line per entry, in cart order, priced at the product's price. Its total is the cart total and the lines' sum. |
| NuevaOrden.OrdenCreadaCoherente | src/screens/NuevaOrdenScreen.js:88-100 | A created order's stored total agrees with its lines. |
| NuevaOrden.DisponiblesSpec | src/screens/NuevaOrdenScreen.js:35 | Exactly the available products are listed, in catalogue order. |
| NuevaOrden.ProductosFiltradosSpec | src/screens/NuevaOrdenScreen.js:110-113 | A product is shown iff the lower-cased query occurs in its lower-cased name or category. Order is kept. |
| NuevaOrden.BusquedaVacia | src/screens/NuevaOrdenScreen.js:110-113 | An empty search shows every listed product. |
| NuevaOrden.NuevaOrdenScreen.constructor | src/screens/NuevaOrdenScreen.js:19-24 | The screen starts with no products, an empty cart, loading and an empty search. |
| NuevaOrden.NuevaOrdenScreen.CargarProductos | src/screens/NuevaOrdenScreen.js:30-41 | On success the list becomes the available products. On failure it is kept. Loading always ends. |
| NuevaOrden.NuevaOrdenScreen.AgregarAlCarrito | src/screens/NuevaOrdenScreen.js:43-56 | The cart becomes `Agregar` of the old cart, and stays valid. |
| NuevaOrden.NuevaOrdenScreen.QuitarDelCarrito | src/screens/NuevaOrdenScreen.js:58-71 | The cart becomes `Quitar` of the old cart, and stays valid. |
| NuevaOrden.NuevaOrdenScreen.EliminarDelCarrito | src/screens/NuevaOrdenScreen.js:73-75 | The cart becomes `Eliminar` of the old cart, and stays valid. |
| NuevaOrden.NuevaOrdenScreen.SetSearchQuery | src/screens/NuevaOrdenScreen.js:24 | The query is replaced, and nothing else changes. |
| Productos.PlanGuardadoSpec | src/screens/ProductosScreen.js:156-195 | The guard stops everything. Otherwise the save goes first. The upload follows only a successful save with a picked image, and targets the product just saved with a `producto-` file name of the same extension. A failed upload only adds the warning; the save still succeeds. |
| Productos.EditarSinCambios | src/screens/ProductosScreen.js:54-64 | Saving an unchanged edit form without an image sends back the product's own fields, price included. |
| Productos.ToggleCambiaMenu | src/screens/ProductosScreen.js:220-229 | The switch targets the product. Once applied, the product leaves the new-order menu if it was on it and joins it otherwise. |
| Productos.ProductosScreen.constructor | src/screens/ProductosScreen.js:23-36 | The screen starts empty, loading, the modal closed, the new-product form, no image and no upload. |
| Productos.ProductosScreen.CargarProductos | src/screens/ProductosScreen.js:42-52 | The products are replaced on success and kept on failure. Loading always ends. |
| Productos.ProductosScreen.AbrirModal | src/screens/ProductosScreen.js:54-77 | The modal opens on the given product's form, or on the new-product form. A picked image is kept. |
| Productos.ProductosScreen.CerrarModal | src/screens/ProductosScreen.js:79-84 | The modal closes, and both the selection and the picked image are dropped. |
| Productos.ProductosScreen.SeleccionarImagen | src/screens/ProductosScreen.js:103-105 | The picked URI becomes the selected image. |
| Productos.ProductosScreen.GuardarProducto | src/screens/ProductosScreen.js:156-195 | The requests, success and warning are those of `PlanGuardado`. The modal closes and the image is dropped exactly on success. |
| Precio.Decimales | src/screens/ProductosScreen.js:61 | The decimals are digits that read back as the same cents. |
| Precio.ParseSinSigno | src/screens/ProductosScreen.js:165 | An amount starting with a digit is read as it stands. |
| Precio.FormatoRoundTrip | src/screens/ProductosScreen.js:165 | `parseFloat` reads back any rendered whole-units-and-cents amount. |
| Precio.PrecioRoundTrip | src/screens/ProductosScreen.js:61 | A price rendered by `toString` reads back through `parseFloat` as the same number of cents. |
| Imagen.BaseUrlValue | src/services/productoService.js:136 | With the configured base, images are served from `https://ventaveloz-backend.onrender.com`. |
| Imagen.TailReplace | src/services/productoService.js:136 | Past the scheme's `//`, the first `/api` removed is the one after the host. |
| Imagen.PrimeraUrlSpec | src/services/productoService.js:127-131 | The extraction finds the leftmost match of `https?://` followed by non-blank text. It takes the whole non-blank run, which is a full URL, and finds nothing iff no position matches. |
| Imagen.ObtenerNulo | src/services/productoService.js:109 | There is no URL exactly when the path is missing or empty. |
| Imagen.EspaciosNoImportan | src/services/productoService.js:112 | For a path that is not all white space, white space around it never changes the URL. An all-blank path is covered by `SoloEspacios`. |
| Imagen.SoloEspacios | src/services/productoService.js:109-137 | A path of only white space yields the bare server root followed by `/`. |
| Imagen.RutaLocal | src/services/productoService.js:135-139 | A local path is served from the server root. |
| Imagen.UrlResuelta | src/services/productoService.js:118-121 | A full URL with no white space at its end resolves to itself. One with trailing blanks is trimmed first. |
| Imagen.ObtenerIdempotente | src/services/productoService.js:108-140 | Resolving an already resolved URL gives it back. |
| Imagen.ExtensionSpec | src/services/productoService.js:75 | The extension has no dot and ends the URI. When the URI has a dot, it is exactly what follows the last one. |
| Imagen.NombreArchivoSpec | src/services/productoService.js:76-81 | The file name is `producto-`, the clock in decimal, then the same extension. The type is `image/<ext>`. |
| Usuarios.GuardarSpec | src/screens/UsuariosScreen.js:79-99 | A request is sent iff name and email are filled and, for a new user, a password too. The required-fields message takes precedence. Editing updates the selected user and otherwise a user is created. |
| Usuarios.EditarSinContrasena | src/screens/UsuariosScreen.js:50-60 | Editing a user with the blank password saves. The same form for a new user is refused. |
| Usuarios.GuardasPropias | src/screens/UsuariosScreen.js:107-149 | Nobody can delete or deactivate themselves, and each refusal shows its message. Anybody else can be deleted, or flipped to the opposite active flag. |
| Usuarios.ActivosSpec | src/screens/UsuariosScreen.js:262 | The "Activos" figure counts the active users and never exceeds the total. |
| Usuarios.ToggleCambiaCuenta | src/screens/UsuariosScreen.js:142-144 | Flipping one user's flag moves the count by exactly one. |
| Usuarios.UsuariosScreen.constructor | src/screens/UsuariosScreen.js:20-30 | The screen starts with no users, loading, the modal closed and the new-user form. |
| Usuarios.UsuariosScreen.CargarUsuarios | src/screens/UsuariosScreen.js:38-48 | The users are replaced on success and kept on failure. Loading always ends. |
| Usuarios.UsuariosScreen.AbrirModal | src/screens/UsuariosScreen.js:50-72 | The modal opens on the given user's form (password blank), or on the new-user form. |
| Usuarios.UsuariosScreen.CerrarModal | src/screens/UsuariosScreen.js:74-77 | The modal closes and the selection is dropped. |
| Usuarios.UsuariosScreen.GuardarUsuario | src/screens/UsuariosScreen.js:79-105 | It sends the request `Guardar` decides on. The modal closes only when a request is sent and succeeds. |
| Ventas.AplicarFiltroSpec | src/screens/VentasScreen.js:59-101 | Every filter keeps a subsequence of the sales. "hoy" keeps exactly today's sales, "semana" those of the last seven days, and "mes" this month's. Any other filter keeps everything. |
| Ventas.HoyDentroDelMes | src/screens/VentasScreen.js:64-91 | Today's sales are among this month's, and filtering by month first changes nothing. |
| Ventas.CalcularEstadisticas | src/screens/VentasScreen.js:103-113 | It gives the number of sales and their sum. The average is 0 for no sales and otherwise the sum divided by the count. |
| Ventas.PromedioAcotado | src/screens/VentasScreen.js:103-113 | The average lies between the smallest and the largest sale. |
| Ventas.VentasScreen.constructor | src/screens/VentasScreen.js:20-30 | The report starts empty, loading, on "hoy", with zero statistics. |
| Ventas.VentasScreen.AplicarFiltroA | src/screens/VentasScreen.js:59-101 | The filter is recorded, the filtered list is `AplicarFiltro`, and the statistics follow it. |
| Ventas.VentasScreen.ElegirFiltro | src/screens/VentasScreen.js:59-101 | A filter button filters the stored sales again. |
| Ventas.VentasScreen.CargarVentas | src/screens/VentasScreen.js:46-57 | A successful load stores the sales and always shows today's, whatever filter was selected before. A failed load changes none of them. |
| Ventas.VentasScreen.VerDetalleVenta | src/screens/VentasScreen.js:115-118 | The detail modal opens on the sale. |
| Ventas.VentasScreen.CerrarModal | src/screens/VentasScreen.js:120-123 | The modal closes and the selection is dropped. |
| Register.CorreoValidoSpec | src/screens/RegisterScreen.js:43-44 | The executable check agrees with the pattern `^\S+@\S+\.\S+$` on every string. |
| Register.ValidarSpec | src/screens/RegisterScreen.js:27-47 | Each message appears exactly when its check fails and every earlier one passes. The form is accepted iff every check passes. |
| Register.SeisCaracteresBastan | src/screens/RegisterScreen.js:32-35 | Any password of exactly six characters passes the length check. A form that is filled, with matching passwords and a valid address, is then accepted. |
| Register.MensajeError | src/screens/RegisterScreen.js:53-55 | The alert is never empty and is the service's error when that is non-empty. |
| Register.RegisterScreen.constructor | src/screens/RegisterScreen.js:17-22 | The form starts empty, with the waiter role, not loading. |
| Register.RegisterScreen.HandleRegister | src/screens/RegisterScreen.js:25-56 | A registration is sent iff validation passes, with the form's fields and role. A failed check shows its message and leaves the session alone. After sending, the session follows `signUp` and a failure shows `MensajeError`. |

## Left out

- Money is JavaScript floating point in the source. Here it is integer cents. `parseFloat` is modelled for plain decimals: at most two decimals are kept (further digits are cut, not rounded), and exponent forms and `Infinity` are not read.
- `parseInt` is modelled for optional leading white space, an optional sign and decimal digits. The `0x` prefix, which `parseInt` reads as hexadecimal, is not modelled.
- String lengths and positions count code points, not UTF-16 code units. `toLowerCase` is modelled for ASCII letters only.
- The grouping dictionary keeps insertion order for every key. JavaScript lists integer-like keys (a product named "12") first in numeric order, and that is not modelled.
- A product named after an inherited object property such as `constructor` makes the grouping test `productosAgrupados[nombre]` truthy before any item is stored. The model treats every name as absent until it is added.
- Dates are abstract records: `getDate`/`getMonth`/`getFullYear` of the device's time zone plus a millisecond timestamp. The "semana" filter is modelled as seven days of milliseconds. Across a daylight-saving change, the source's `setDate(getDate() - 7)` differs by an hour.
- The average is modelled on exact reals. Floating-point rounding of `total / cantidad` is not modelled.
- Concurrency is not modelled: a second tap while a request is awaited, screen reloads that race with actions, and interleaved screens are left out.
- Navigation, rendering, alerts and `console.log` are not modelled. So are the reloads (`cargarMesas`, `cargarProductos`, `cargarUsuarios`) after an action: the backend is not re-read.
- The image picker, camera permissions and the multipart upload body are left out. The picked URI, the upload's outcome and `Date.now()` are parameters.
- HTTP and the services' error mapping are abstracted. Each request either succeeds or fails, and only the close-out store tracks effects. The other screens return the request they send.
- The backend's behaviour on a missing record is modelled only for the table update: a patch to an unknown table changes nothing.
- `user._id` is assumed present; a screen used while signed out is not modelled.
- The admin-only gating of screens and buttons (`user.rol === 'admin'`) is not modelled.
- `eliminarMesa`, `eliminarProducto` and the confirmed `eliminarUsuario` send one delete request after a confirmation dialog. They are represented only by their request (`EliminarMesa`, `EliminarProducto`, `EliminarUsuario`). `Usuarios.Eliminar` states the self-deletion guard.
- `cambiarEstado` in the tables screen is never wired to a button. It is modelled as the patch it would send (`CambiarEstadoPatch`).
- `LoginScreen`, `OrdenesScreen`, `HomeScreen`, `ProfileScreen` and the navigators are not part of this model.
- `ObtenerUrlImagen` takes the API base URL as a parameter. `BaseUrlValue` and the lemmas about `ApiUrl` fix it to the configured one.
- NuevaOrden.NuevaOrdenScreen.QuitarDelCarrito: requires the id to be in the cart. The source reads the found entry's quantity unguarded and would throw otherwise, and no button calls it with a missing id.
