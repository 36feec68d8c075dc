# Taquilla shop — a Dafny model

This project models the logic of a Laravel/Inertia web shop for a surf
club, together with its locker-subscription module ("taquillas"):

- members pay for locker plans;
- each payment opens a period of days;
- the user row caches the current expiry;
- the shop sells products with discounts to members who hold a locker.

The model covers the server controllers, the user model and the
renewal service that carry this logic. It also covers the small
decision rules of the React pages that show it.

One Dafny module stands for each source file of the core:

| module | source |
|---|---|
| `CuotaService` | `app/Services/CuotaService.php` (renewal period) |
| `PlanesTaquillas` | `app/Http/Controllers/PlanesTaquillasController.php` (payment registration, admin and client listings) |
| `PagoCuota` | `app/Http/Controllers/PagoCuotaController.php` (self-service payment, payment history) |
| `UserModel` | `app/Models/User.php` (socio, current fee, the `vigentes`/`enMora` scopes) |
| `UserTaquilla` | `app/Http/Controllers/UserTaquillaController.php` (socio counts and labels) |
| `RenewalRules` | where the three renewal rules agree and where they diverge |
| `Pedidos` | `app/Http/Controllers/PedidoController.php` (checkout, order flags) |
| `Carrito` | `app/Http/Controllers/CarritoController.php` (cart listing, add, remove, cart checkout) |
| `Tienda` | `app/Http/Controllers/TiendaController.php` (shop listing) |
| `ProductoAdmin` | `app/Http/Controllers/ProductoController.php` (create, edit, deactivate) |
| `PlanesClient` | `resources/js/Pages/PlanesTaquillasClient.jsx` |
| `PlanesAdmin` | `resources/js/Pages/PlanesTaquillasAdmin.jsx` |
| `UsuarioCard` | `resources/js/components/UsuarioTaquillaCard.jsx` |
| `CarritoVista` | `resources/js/Pages/Carrito.jsx` |
| `PedidoVista` | `resources/js/Pages/Pedido.jsx` |
| `TiendaVista` | `resources/js/Pages/Tienda.jsx` |
| `ProductoCard` | `resources/js/components/Producto.jsx` |
| `ProductoOferta` | `resources/js/components/ProductoOferta.jsx` |
| `ProductosVista` | `resources/js/Pages/Productos.jsx` |

Shared modules:

- `Common`: `Option`/`Result`, sums, filtering and counting.
- `Sorting`: a stable insertion sort by a total comparator, and code-point string order.
- `Dates`: calendar day numbers, JavaScript's `Date` constructor overflow rules, and the `DD/MM/YYYY` and `YYYY-MM-DD` patterns.
- `Schema`: the records of the tables, and a `Database` class whose fields are the tables the controllers change.

Conventions:

- **Dates** are whole day numbers counted from 1970-01-01. "Today" is a parameter.
  - Where the code measures from the present instant (`now()` against a date column, `diffInDays`, the admin page's `Date.now()`), the instant is a parameter `ahora`, a real number of days, and today is its whole part. A `date` column stands for midnight at the start of its day.
  - The database engine is MySQL. A `date` column keeps only the day of what is written to it, so the end of a day written as `endOfDay()` is stored as that day.
  - Carbon's `diffInDays` counts whole days truncated toward zero up to Carbon 2 and returns the exact fraction from Carbon 3 on. The repository does not fix the version, so the version is a parameter (`PlanesTaquillas.Carbon`).
  - A JavaScript engine's reading of a free-form date string is a function parameter (`parse`).
- **Money** is an exact `real`.
- **Controller actions that write** are methods on the `Database` object, with `modifies` clauses.
  - Each method's `ensures` states the whole new state, in terms of pure functions of the old one.
  - Lemmas about those functions state the invariants: stock never negative, per-product conservation, all-or-nothing, and totals as sums of line subtotals.
- **A failure inside a transaction** (a database error, a failed upload) is an input flag. When it is set, the rollback leaves every table as it was.
- **Page event handlers that only compute a new state** are functions from the old state to the new one. The pager of the shop page and the mutable `Date` of the plan page are small classes.

Three behaviours of the code are modelled as they stand, with their consequences proved:

- `registrarPago` accepts any existing plan, active or not (`exists:planes_taquilla,id`, `app/Http/Controllers/PlanesTaquillasController.php:190`).
- `registrarPago` chains the new period from the user's latest payment, "aunque esté vencido" as its comment says (line 207), while `PagoCuotaController::store` chains it from the user's cached expiry through `CuotaService` (`app/Http/Controllers/PagoCuotaController.php:136`). `RenewalRules` shows where the two agree and where they do not.
- The vigent-payment query of `registrarPago` compares the `date` column `periodo_fin` with the instant `now()` (lines 238-241). A period whose last day is today therefore stops counting at midnight, although line 221 sets its end to the end of that day (`PlanesTaquillas.RenovacionUltimoDiaVaciaCache`).

## Model

Predicates and accessors that only define a term (`UserModel.EsSocio`, `PlanesTaquillas.Vigente`, `ProductoCard.TieneTaquilla`, `PedidoVista.TotalMostrado` and the like) have no row of their own; they are listed through the lemmas and operations whose contracts use them.

| member | source | states |
|---|---|---|
| CuotaService.CalcularPeriodoRenovacion | app/Services/CuotaService.php:24-50 | a future cached expiry starts the period the day after it; no expiry or one today or earlier starts it today; the period holds exactly `duracionDias` days and never starts before today |
| CuotaService.PeriodNonEmpty | app/Services/CuotaService.php:44 | with at least one day bought, the end is not before the start |
| CuotaService.AnticipatedRenewalContiguous | app/Services/CuotaService.php:32-44 | an anticipated renewal starts the day after the old expiry: no gap, and no day covered twice |
| CuotaService.RenewalExtendsCoverage | app/Services/CuotaService.php:32-44 | the new end is at least `duracionDias - 1` days after today and never before the old expiry |
| CuotaService.RenewedSocioIsVigente | app/Services/CuotaService.php:24-50 | a socio whose cache takes the renewal's end is `cuota_vigente` today |
| UserModel.VigentesIffCuotaVigente | app/Models/User.php:111-131 | the `vigentes` scope selects a user iff `cuota_vigente` holds |
| UserModel.EnMoraExactly | app/Models/User.php:136-140 | `enMora` selects exactly the socios with an expiry before today |
| UserModel.ScopesPartitionDatedSocios | app/Models/User.php:127-140 | the scopes are disjoint; a user without expiry is in neither; a socio with one is in exactly one |
| UserModel.ScopeCounts | app/Models/User.php:127-140 | over a list, the two scope sizes add up to the number of socios with an expiry |
| UserModel.PagosDe | app/Models/User.php:81-84 | the relation holds only the user's own payments |
| UserModel.PagosCuotas | app/Models/User.php:81-84 | the relation is a permutation of the user's payments, ordered by `periodo_fin` descending |
| UserTaquilla.PorNombreApellidoTotal | app/Http/Controllers/UserTaquillaController.php:24-25 | the name-then-surname order is total |
| UserTaquilla.Socios | app/Http/Controllers/UserTaquillaController.php:23-25 | the base query: exactly the users with a locker number, ordered by name then surname |
| UserTaquilla.EntradaDe | app/Http/Controllers/UserTaquillaController.php:34-43 | each entry keeps the id and the full name; it says `Vigente` iff `cuota_vigente`; `N/A` iff there is no expiry |
| UserTaquilla.Index | app/Http/Controllers/UserTaquillaController.php:20-54 | one entry per socio; `total_socios` counts exactly the users with a locker number |
| UserTaquilla.VigenteEntriesMatchScope | app/Http/Controllers/UserTaquillaController.php:30-42 | the entries labelled `Vigente` are as many as the users the `vigentes` scope selects |
| UserTaquilla.VigenteLabelsEqualCount | app/Http/Controllers/UserTaquillaController.php:30-49 | the number of `Vigente` entries equals `vigentes_count` |
| UserTaquilla.CountsBound | app/Http/Controllers/UserTaquillaController.php:27-50 | `vigentes_count + en_mora_count <= total_socios`, with equality iff every socio has an expiry |
| UserTaquilla.UndatedSocioListedNotCounted | app/Http/Controllers/UserTaquillaController.php:31-42 | a socio without expiry is listed `En Mora` with `N/A` but counted in neither scope |
| Schema.PrecioConDescuentoBounds | app/Http/Controllers/PedidoController.php:72 | a discount between 0 and 100 percent gives a unit price between 0 and the list price, equal to the price times the remaining fraction |
| Schema.FindPlan | app/Http/Controllers/PlanesTaquillasController.php:190-204 | finds the plan row with the requested id, or shows that no row has it |
| Common.Primero | resources/js/Pages/PlanesTaquillasClient.jsx:135 | `find`: the first element satisfying the test, with none before it satisfying it; none iff no element does |
| PlanesTaquillas.UltimoPagoPorFin | app/Http/Controllers/PlanesTaquillasController.php:208-210 | the latest payment is one of the user's own, with the greatest `periodo_fin`; there is none iff the user has no payments |
| PlanesTaquillas.VigentesFiltrados | app/Http/Controllers/PlanesTaquillasController.php:238-241 | the vigent-payment query keeps exactly the user's payments with `periodo_inicio <= now()` and `periodo_fin >= now()`, each date column standing for midnight at the start of its day |
| PlanesTaquillas.VigenteTrasMedianoche | app/Http/Controllers/PlanesTaquillasController.php:238-241 | at any instant after midnight a payment is vigent iff it started on or before today and ends after today, so a period whose last day is today no longer counts |
| PlanesTaquillas.PrimeroPorFin | app/Http/Controllers/PlanesTaquillasController.php:242-244 | the first row in `periodo_fin desc` order has the greatest end |
| PlanesTaquillas.PagoVigente | app/Http/Controllers/PlanesTaquillasController.php:238-244 | the vigent payment belongs to the user, started at or before the present instant and ends at or after it, and has the greatest end among those that do; none iff no payment of the user does |
| PlanesTaquillas.PeriodoRegistro | app/Http/Controllers/PlanesTaquillasController.php:208-221 | the new period lasts `duracion_dias`; it starts today for a first payment, otherwise the day after the latest end, even an expired one; so it starts after every earlier period of the user |
| PlanesTaquillas.RegistroKeepsDisjoint | app/Http/Controllers/PlanesTaquillasController.php:208-234 | adding the registered payment keeps every user's periods disjoint |
| PlanesTaquillas.CacheDesde | app/Http/Controllers/PlanesTaquillasController.php:258-261 | the cache takes the vigent payment's end and plan, or NULL for both |
| PlanesTaquillas.RegistrarPago | app/Http/Controllers/PlanesTaquillasController.php:183-324 | validation failure and a failure inside the transaction change nothing; on success exactly one payment with the verbatim amount and reference, the chained period and today's date is appended, and only the paying user's cache is recomputed from the payment vigent at the present instant |
| PlanesTaquillas.AnticipatedRenewalKeepsVigent | app/Http/Controllers/PlanesTaquillasController.php:239-261 | after an anticipated renewal the cache still names the running payment |
| PlanesTaquillas.ChainedFromExpiredNotVigent | app/Http/Controllers/PlanesTaquillasController.php:214-244 | a short payment chained from a long-expired one lies in the past, so the paying user is left with no vigent payment |
| PlanesTaquillas.RenovacionUltimoDiaVaciaCache | app/Http/Controllers/PlanesTaquillasController.php:212-261 | a renewal registered on the last day of the running period, at any time after midnight, starts tomorrow and leaves both cached fields NULL |
| PlanesTaquillas.UltimoPagoAdmin | app/Http/Controllers/PlanesTaquillasController.php:43-49 | the "last payment" has the greatest `periodo_fin` (the relation's order comes first), ties broken by the greatest start |
| PlanesTaquillas.FilaDe | app/Http/Controllers/PlanesTaquillasController.php:48-82 | each row keeps the user's id and names; estado is `sin plan` iff the user has no payment and otherwise follows the sign of `now()->diffInDays(fin)`: under Carbon 2 `activo` iff some payment ends today or later, under Carbon 3 iff some payment ends at or after the present instant (midnight of its end day) |
| PlanesTaquillas.UltimoDiaSegunCarbon | app/Http/Controllers/PlanesTaquillasController.php:56-59 | on the last day of the latest period, after midnight, the row reads `activo` under Carbon 2 and `vencido` under Carbon 3 |
| PlanesTaquillas.AdminIndex | app/Http/Controllers/PlanesTaquillasController.php:43-83 | one row per user, in order, with the user's id; `sin plan` iff that user has no payment, and `activo` iff the row's day count is not negative |
| PlanesTaquillas.DiasRestantesClienteEscrito | app/Http/Controllers/PlanesTaquillasController.php:133-137 | as written: present iff the user has an expiry; positive only once the expiry has passed, and at least 1 a whole day after it |
| PlanesTaquillas.DiasRestantesCliente | app/Http/Controllers/PlanesTaquillasController.php:133-137 | corrected: whole days from today to the expiry; for a socio it is non-negative iff `cuota_vigente` today |
| PlanesTaquillas.DiasRestantesClienteSignoInvertido | app/Http/Controllers/PlanesTaquillasController.php:136 | under both Carbon versions the written value is the opposite of the count from now to the expiry; an expiry three days ago reads as at least 3 days left where the corrected count gives -3 |
| PlanesTaquillas.UltimoPlanFin | app/Http/Controllers/PlanesTaquillasController.php:144-171 | `ultimo_plan_fin` is the greatest end among the user's payments, absent iff there are none |
| PlanesTaquillas.Truncar | app/Http/Controllers/PlanesTaquillasController.php:58 | a whole number of days no farther from 0 than its argument and less than one day short of it, with the argument's sign |
| PlanesTaquillas.DiffInDays | app/Http/Controllers/PlanesTaquillasController.php:58 | `diffInDays($other, false)` is the exact signed difference under Carbon 3 and that difference truncated toward zero under Carbon 2 |
| PlanesTaquillas.DiffInDaysAntisimetrica | app/Http/Controllers/PlanesTaquillasController.php:58-136 | swapping the two instants flips the sign of the count, under both versions |
| PlanesTaquillas.Carbon2NoNegativo | app/Http/Controllers/PlanesTaquillasController.php:58-59 | under Carbon 2 the count from now to midnight of the end day is not negative iff the end day is today or later |
| PagoCuota.PlanPorMonto | app/Http/Controllers/PagoCuotaController.php:115-117 | the plan found is active, costs exactly the amount paid and is the first such plan in table order; none iff no active plan has that price |
| PagoCuota.Store | app/Http/Controllers/PagoCuotaController.php:103-174 | a failed validation, an amount matching no active plan (422) or a failure inside the transaction changes nothing, the receipt included; on success one payment is appended with the validated amount (at least 0.01 and equal to the plan price) and the `CuotaService` period, and the user's cache takes the new end and the matched plan unconditionally |
| PagoCuota.Show | app/Http/Controllers/PagoCuotaController.php:181-199 | 404 with empty data iff the user has no payments; otherwise 200 with exactly the user's payments, latest `periodo_inicio` first |
| RenewalRules.LedgerRulesAgreeIff | app/Services/CuotaService.php:32-44 | the cache rule fed with the ledger's latest end and `registrarPago`'s rule pick the same period iff there is no payment, the latest end is after today, or it was yesterday |
| RenewalRules.ExpiryTodayPaidTwice | app/Services/CuotaService.php:32-40 | when the latest payment ends today, an expiry of today is not in the future, so the cache-based renewal starts today, a day that payment already covers; `registrarPago` starts tomorrow |
| RenewalRules.ExpiredChainStartsInPast | app/Http/Controllers/PlanesTaquillasController.php:214-218 | after a latest end before yesterday, `registrarPago` starts in the past while the cache rule starts today |
| RenewalRules.CacheRenewalKeepsDisjointUnlessToday | app/Services/CuotaService.php:32-44 | fed with the ledger's latest end, the cache rule keeps a user's periods disjoint unless that end is today |
| RenewalRules.StoreAfterAnticipatedRegistroOverlaps | app/Http/Controllers/PagoCuotaController.php:136-153 | a `store` after an anticipated `registrarPago` renews from the stale cache, and buys again days that the registered payment already covers |
| RenewalRules.RegistroTrasUnico | app/Http/Controllers/PlanesTaquillasController.php:208-215 | with a single payment on record, the next registered period starts the day after it |
| RenewalRules.RegistroAnticipado | app/Http/Controllers/PlanesTaquillasController.php:208-261 | a payment registered while another runs chains right after it, and the running one stays the vigent payment |
| RenewalRules.VigenteUnico | app/Http/Controllers/PlanesTaquillasController.php:238-244 | a single payment running at the present instant is the vigent one |
| Dates.JsLocalDate | resources/js/components/UsuarioTaquillaCard.jsx:10 | `new Date(anio, mes, dia)` for an in-range month is the civil day named by its fields; a year from 0 to 99 stands for 1900 plus that year |
| Dates.SetDateShifts | resources/js/Pages/PlanesTaquillasClient.jsx:164-175 | moving the day field by `k` moves the date by exactly `k` days, across month and year ends |
| Dates.FormatDayMonthYearRoundTrip | resources/js/components/UsuarioTaquillaCard.jsx:8-11 | a date written `DD/MM/YYYY` reads back to the same day, month and year fields |
| PlanesClient.FechaJs.DesplazarDias | resources/js/Pages/PlanesTaquillasClient.jsx:164-175 | `setDate(getDate() + k)` moves a valid date by `k` days; an Invalid Date stays invalid |
| PlanesClient.NuevaFecha | resources/js/Pages/PlanesTaquillasClient.jsx:104-157 | a local-midnight date-time string with a real calendar date denotes that day |
| PlanesClient.LeerFechaLocal | resources/js/Pages/PlanesTaquillasClient.jsx:100-158 | a bare `YYYY-MM-DD` with a real calendar date is read as local midnight of that day, whatever the engine does with other strings |
| PlanesClient.FormatearFecha | resources/js/Pages/PlanesTaquillasClient.jsx:97-107 | a falsy value shows `-`; a `Date` shows "Invalid Date" iff it is invalid; a non-empty string shows a day iff it can be read |
| PlanesClient.DiaUltimoFin | resources/js/Pages/PlanesTaquillasClient.jsx:142-158 | a missing or empty `ultimo_plan_fin` gives no last end |
| PlanesClient.HandleSubmit | resources/js/Pages/PlanesTaquillasClient.jsx:125-182 | no plan or no reference gives the error alert and no confirmation; an unlisted plan gives nothing; otherwise the preview is exactly `CuotaService`'s period from the last end: the day after a future end, else today, for `duracion_dias` days |
| PlanesClient.Etiqueta | resources/js/Pages/PlanesTaquillasClient.jsx:373-379 | a positive figure shows the number, a negative one "Vencido hace \|d\| días", 0 shows 0 |
| PlanesClient.ColorDias | resources/js/Pages/PlanesTaquillasClient.jsx:365-371 | red iff negative, yellow iff 0 to 6, green iff 7 or more |
| PlanesClient.EtiquetaInyectivaYColor | resources/js/Pages/PlanesTaquillasClient.jsx:365-379 | different figures get different texts, and the figure is red iff its text says "Vencido" |
| Pedidos.StockTras | app/Http/Controllers/PedidoController.php:84 | the product table after a checkout has the same products |
| Pedidos.Lineas | app/Http/Controllers/PedidoController.php:77-81 | one order line per request line |
| Pedidos.Subtotales | app/Http/Controllers/PedidoController.php:73 | one subtotal per order line |
| Pedidos.QtyOfSnoc | app/Http/Controllers/PedidoController.php:54-84 | one more request line adds its quantity to its own product's demand only |
| Pedidos.QtyOfPrefix | app/Http/Controllers/PedidoController.php:54-84 | with quantities of at least 0, the lines so far never ask for more of a product than the whole request |
| Pedidos.QtyOfAbsent | app/Http/Controllers/PedidoController.php:54-84 | a product no line names is asked for 0 units |
| Pedidos.SubtotalesSnoc | app/Http/Controllers/PedidoController.php:73-74 | adding a line adds exactly its subtotal to the total |
| Pedidos.Paso | app/Http/Controllers/PedidoController.php:54-85 | one pass of the loop: a repeated product is re-read after the earlier line's decrement; the line takes exactly its units off, and adds its order line and its subtotal |
| Pedidos.Falla | app/Http/Controllers/PedidoController.php:65-69 | a line that fails the stock check shows that the whole request asks for more of that product than it has |
| Pedidos.Crear | app/Http/Controllers/PedidoController.php:18-115 | a failed validation, no session, insufficient stock for any product or a failure inside the transaction changes no stock, no order and no cart; on success each product loses exactly the units asked for; the new order is unpaid and undelivered with one snapshot line per request line and `precio_total` = the sum of the line subtotals (the submitted total is ignored); the buyer's cart is deleted |
| Pedidos.Confirmar | app/Http/Controllers/PedidoController.php:88-95 | the commit writes the decremented products, the order under the next id and deletes the buyer's cart, and nothing else |
| Pedidos.AdjuntarLineas | app/Http/Controllers/PedidoController.php:54-85 | the loop stops at a product without enough stock, which exists iff the request is not covered by the stock; otherwise the stock, the lines and the running total equal their closed forms |
| Pedidos.StockNoNegativo | app/Http/Controllers/PedidoController.php:65-84 | after a committed checkout no product that was ordered has a negative stock, and every product that was not ordered keeps its row |
| Pedidos.LineaSnapshot | app/Http/Controllers/PedidoController.php:72-81 | each line records the product id, the quantity, the product's discount at checkout and the discounted price, which lies between 0 and the list price |
| Pedidos.PreciosDeLista | app/Http/Controllers/PedidoController.php:72-73 | one undiscounted line price per request line |
| Pedidos.SubtotalesUltima | app/Http/Controllers/PedidoController.php:73-74 | the last request line adds its subtotal to the total |
| Pedidos.PreciosUltima | app/Http/Controllers/PedidoController.php:72-73 | the last request line adds its list price times quantity to the undiscounted total |
| Pedidos.TotalAcotado | app/Http/Controllers/PedidoController.php:72-88 | with valid prices and discounts the order total lies between 0 and the undiscounted total |
| Pedidos.FlipPagado | app/Http/Controllers/PedidoController.php:382-391 | only `pagado` changes, and it is negated |
| Pedidos.FlipEntregado | app/Http/Controllers/PedidoController.php:393-402 | only `entregado` changes, and it is negated |
| Pedidos.TogglesInvolutive | app/Http/Controllers/PedidoController.php:382-402 | each toggle applied twice restores the order, and the two toggles commute |
| Pedidos.TogglePagado | app/Http/Controllers/PedidoController.php:382-391 | a missing order is a 404 and changes nothing; otherwise only that order's `pagado` flips |
| Pedidos.ToggleEntregado | app/Http/Controllers/PedidoController.php:393-402 | a missing order is a 404 and changes nothing; otherwise only that order's `entregado` flips |
| Pedidos.ToggleTwiceRestores | app/Http/Controllers/PedidoController.php:382-402 | toggling the same order twice restores the orders table |
| Carrito.Posicion | app/Http/Controllers/CarritoController.php:108 | finds the position of the product's pivot row, absent iff the cart has no line for it |
| Carrito.CartQtyAbsent | app/Http/Controllers/CarritoController.php:108-111 | a product without a pivot row has quantity 0 |
| Carrito.CartQtyUpdate | app/Http/Controllers/CarritoController.php:120-122 | `updateExistingPivot` changes that product's quantity and no other |
| Carrito.CartQtyAppend | app/Http/Controllers/CarritoController.php:124 | `attach` of a new product gives it its quantity and changes no other |
| Carrito.SinProducto | app/Http/Controllers/CarritoController.php:166 | after `detach` the product has no line, and no line was added |
| Carrito.CartQtyRemove | app/Http/Controllers/CarritoController.php:166 | `detach` drops the product's quantity to 0 and keeps every other product's |
| Carrito.DeleteKeepsUnique | app/Http/Controllers/CarritoController.php:166 | removing one pivot row keeps one row per product |
| Carrito.RemoveOnlyLine | app/Http/Controllers/CarritoController.php:166 | when the product has one row, `detach` removes exactly that row and keeps the others in order |
| Carrito.KeepAll | app/Http/Controllers/CarritoController.php:166 | detaching a product that is not in the cart changes nothing |
| Carrito.RemoveIsDelete | app/Http/Controllers/CarritoController.php:162-166 | with one row per product, `detach` deletes exactly the product's row, keeps the order of the rest and keeps the rows unique |
| Carrito.LineasIndex | app/Http/Controllers/CarritoController.php:46-62 | at most one page line per pivot row |
| Carrito.Index | app/Http/Controllers/CarritoController.php:24-73 | no cart gives no lines and total 0; otherwise at most one line per pivot row |
| Carrito.Solicitudes | resources/js/Pages/Carrito.jsx:76-79 | one checkout line per cart line |
| Carrito.IndexUltima | app/Http/Controllers/CarritoController.php:50-67 | the last line adds its discounted subtotal to the page total |
| Carrito.CheckoutUltima | app/Http/Controllers/PedidoController.php:72-74 | the last cart line adds the same subtotal to the checkout total |
| Carrito.IndexTotalIsCheckoutTotal | app/Http/Controllers/CarritoController.php:46-67 | when every cart product exists, the total the cart page shows (before formatting) is the total `PedidoController::crear` charges for the same lines |
| Carrito.AgregarAlCarrito | app/Http/Controllers/CarritoController.php:83-144 | a missing product, no stock, a quantity that would exceed the stock or a failure leaves every cart unchanged; on success the product's quantity grows by exactly 1 and stays within the stock, a new line is created only when the product had none, and no other product or cart changes |
| Carrito.EliminarProducto | app/Http/Controllers/CarritoController.php:152-174 | no cart, or a product that is not in it, is an error that changes nothing; otherwise exactly that product's line is removed, the others keep their order and quantities, and no other cart changes |
| Carrito.SolicitudesDe | app/Http/Controllers/CarritoController.php:209-222 | the request lines as ids and quantities, in order |
| Carrito.PivotPorId | app/Http/Controllers/CarritoController.php:226-230 | the prepared pivot data has exactly one entry per distinct product id |
| Carrito.PivotIsLastLine | app/Http/Controllers/CarritoController.php:226-230 | each entry holds the quantity and price of the last line for that product |
| Carrito.DuplicateLineUnderRecorded | app/Http/Controllers/CarritoController.php:222-226 | with a product on two lines the stock loses both quantities, but the recorded line keeps only the last |
| Carrito.PasoPivot | app/Http/Controllers/CarritoController.php:226-230 | a priced line extends the pivot data with its own entry |
| Carrito.SinPrecioFalla | app/Http/Controllers/CarritoController.php:228 | a line without `precio` means the request is not fully priced |
| Carrito.DescontarStock | app/Http/Controllers/CarritoController.php:209-231 | the loop stops at a product lacking stock or at a line without `precio`, and that happens iff the request is not covered or not fully priced; otherwise each product loses exactly the units asked for and the pivot data is the last line per product |
| Carrito.CrearEscrito | app/Http/Controllers/CarritoController.php:187-263 | as written, every call fails; a valid, covered and priced request ends with the uncaught `Pedido` error, so nothing is ever committed |
| Carrito.GuardarPedido | app/Http/Controllers/CarritoController.php:234-247 | the commit writes the decremented products, appends the order and deletes the buyer's cart, and nothing else |
| Carrito.Crear | app/Http/Controllers/CarritoController.php:187-263 | corrected (with `Pedido` imported): invalid data, missing stock, a line without price or a failure changes no stock, order or cart; success is exactly a valid, covered, priced request; it stores the client's total verbatim with the pivot lines keyed by product, decrements the stock by the quantities and deletes the cart |
| CarritoVista.Inicial | resources/js/Pages/Carrito.jsx:7-13 | the page starts with the server's lines and total and nothing selected |
| CarritoVista.AbrirModal | resources/js/Pages/Carrito.jsx:17-20 | opening the modal selects the product and leaves lines and total alone |
| CarritoVista.CerrarModal | resources/js/Pages/Carrito.jsx:22-25 | closing the modal clears the selected product and leaves lines and total alone |
| CarritoVista.SinLinea | resources/js/Pages/Carrito.jsx:45-47 | no remaining line has the removed id, and none was added |
| CarritoVista.BuscarLinea | resources/js/Pages/Carrito.jsx:44 | `find` gives the first line with the id, or none iff no line has it |
| CarritoVista.TrasEliminar | resources/js/Pages/Carrito.jsx:27-60 | with nothing selected, or after a failed answer, nothing changes; after success no line has the removed id, the selection is cleared and the modal is closed |
| CarritoVista.TrasPedido | resources/js/Pages/Carrito.jsx:84-97 | a successful order empties the lines, sets the total to 0 and closes the confirmation; a failure changes nothing |
| CarritoVista.SinLineaAusente | resources/js/Pages/Carrito.jsx:45-47 | filtering out an id that no line has keeps the list |
| CarritoVista.SinLineaBorra | resources/js/Pages/Carrito.jsx:45-47 | filtering out the only line with an id deletes that position and keeps the other lines in order |
| CarritoVista.TotalIndexAppend | app/Http/Controllers/CarritoController.php:65-67 | the total of two runs of lines is the sum of their totals |
| CarritoVista.EliminarConservaTotal | resources/js/Pages/Carrito.jsx:43-49 | a successful removal of a listed product deletes exactly its line, keeps the others in order and takes its subtotal off the total; an unlisted one changes neither; so a total that was the sum of the subtotals stays so |
| Tienda.ImagenPrincipal | app/Http/Controllers/TiendaController.php:24-25 | the path of the product's first image flagged principal; `img/placeholder.jpg` iff there is none |
| Tienda.ImagenPrincipalAppendOther | app/Http/Controllers/TiendaController.php:24 | images of other products, or images not flagged principal, do not change a product's principal image |
| Tienda.PorNombreIdTotalTransitive | app/Http/Controllers/TiendaController.php:19-20 | the (`nombre`, `id`) order is total and transitive |
| Tienda.Vivos | app/Http/Controllers/TiendaController.php:17-21 | the query returns a permutation of the products with `eliminado = 0`, ordered by name and then id |
| Tienda.VivosSound | app/Http/Controllers/TiendaController.php:17 | every returned row is a product that is not deleted |
| Tienda.VivosComplete | app/Http/Controllers/TiendaController.php:17 | every product that is not deleted is returned |
| Tienda.Catalogo | app/Http/Controllers/TiendaController.php:15-76 | the listing of both actions: one record per product that is not deleted, ordered by name and then id |
| Tienda.CatalogoExacto | app/Http/Controllers/TiendaController.php:22-39 | each record is the six-field projection of a product that is not deleted, and every such product has its record |
| ProductoAdmin.DescuentoDe | app/Http/Controllers/ProductoController.php:32 | an absent `descuento` becomes 0; a given one is kept |
| ProductoAdmin.SubirImagenes | app/Http/Controllers/ProductoController.php:137-146 | one image row per upload, in upload order, owned by the product, with the original name and stored path; only index 0 is principal, and only when asked |
| ProductoAdmin.ImagenPrincipalSkip | app/Http/Controllers/ProductoController.php:144 | rows that are not principal images of the product, placed before others, do not change its principal image |
| ProductoAdmin.GuardarProducto | app/Http/Controllers/ProductoController.php:133 | saves the product row and appends its image rows; only a new product consumes an id; no other table changes |
| ProductoAdmin.Store | app/Http/Controllers/ProductoController.php:112-151 | fails, changing nothing, iff the name is empty or longer than 255 or some upload is not a jpeg, png, jpg, gif, svg or webp file of at most 2048 KB; otherwise adds a product under a fresh id with `descuento` defaulting to 0 and `eliminado` to false, appends its uploads with the first one principal, so the shop shows the first upload (or the placeholder when there is none) |
| ProductoAdmin.Update | app/Http/Controllers/ProductoController.php:15-50 | not found is reported before validation; validation fails iff the name is empty or longer than 255 or some upload breaks the `imagenes.*` rule, and then nothing changes; on success overwrites nombre, precio, unidades and descuento (0 when absent), keeps id and `eliminado`, appends the uploads as non-principal rows, and the principal image is unchanged |
| ProductoAdmin.Alternar | app/Http/Controllers/ProductoController.php:88 | flips `eliminado` and keeps every other field |
| ProductoAdmin.AlternarInvolutiva | app/Http/Controllers/ProductoController.php:83-93 | two flips restore the product; one flip moves it into or out of the shop listing |
| ProductoAdmin.DesactivarProducto | app/Http/Controllers/ProductoController.php:83-93 | fails iff the id is unknown; otherwise only that product's flag is flipped and nothing else changes |
| PlanesAdmin.DiasRestantesEscrito | resources/js/Pages/PlanesTaquillasAdmin.jsx:9-15 | no value iff the end date is missing, empty or unreadable; otherwise the whole days from now to the start of the end day, rounded down |
| PlanesAdmin.DiasRestantes | resources/js/Pages/PlanesTaquillasAdmin.jsx:9-15 | the corrected count: no value in the same cases; otherwise the end day minus today's day, in calendar days |
| PlanesAdmin.DiasRestantesFechaSimple | resources/js/Pages/PlanesTaquillasAdmin.jsx:11-14 | for a `YYYY-MM-DD` end date the calendar count is the end day minus today's day, and it is non-negative iff the end day has not passed |
| PlanesAdmin.DiasRestantesEscritoUnDiaMenos | resources/js/Pages/PlanesTaquillasAdmin.jsx:14 | the count as written is one day short of the calendar count at every instant except midnight UTC, where the two agree |
| PlanesAdmin.EstadoDe | resources/js/Pages/PlanesTaquillasAdmin.jsx:69-74 | "sin-plan" iff no days, "vencido" iff days below 0, "activo" iff days of 0 or more |
| PlanesAdmin.UltimoDiaVencidoEscrito | resources/js/Pages/PlanesTaquillasAdmin.jsx:14 | on the last paid day after midnight UTC the page as written shows -1 and "vencido" where the calendar count gives "activo" |
| PlanesAdmin.Vista | resources/js/Pages/PlanesTaquillasAdmin.jsx:80-85 | a dash iff the value is missing or empty; an invalid date iff it is present but unreadable |
| PlanesAdmin.UsuariosConEstado | resources/js/Pages/PlanesTaquillasAdmin.jsx:67-87 | as written: one element per user, in order, keeping identity, locker and plan; "sin-plan" iff the end date is unusable, "activo" iff the present instant has not passed UTC midnight of the end date, so the end day itself reads "vencido" |
| PlanesAdmin.UsuariosConEstadoCorregido | resources/js/Pages/PlanesTaquillasAdmin.jsx:67-87 | corrected: the same map with calendar days, "activo" iff the end day is today or later |
| PlanesAdmin.UltimoDiaSegunMapa | resources/js/Pages/PlanesTaquillasAdmin.jsx:9-74 | a user whose plan ends today, seen after midnight, is "vencido" in the map as written and "activo" in the corrected one |
| PlanesAdmin.Dividir | resources/js/Pages/PlanesTaquillasAdmin.jsx:184-192 | a finite quotient iff the divisor is non-zero, and then quotient times divisor is the dividend |
| PlanesAdmin.Porcentaje | resources/js/Pages/PlanesTaquillasAdmin.jsx:164-177 | always within [0, 100]; 0 without days, plan or duration; otherwise the percentage of days left, clamped at both ends |
| PlanesAdmin.ColorDe | resources/js/Pages/PlanesTaquillasAdmin.jsx:180-199 | gray iff no days; a render error iff there are days but no plan; otherwise green iff the ratio is at least 0.7, yellow iff between 0.3 and 0.7, red iff below 0.3 (NaN compares false) |
| PlanesAdmin.ColorSigueAlPorcentaje | resources/js/Pages/PlanesTaquillasAdmin.jsx:164-199 | with a positive duration the colour follows the clamped percentage (green from 70, yellow from 30, red below), so every expired user is red |
| PlanesAdmin.BarraDe | resources/js/Pages/PlanesTaquillasAdmin.jsx:230-268 | no bar iff no days or 0 days; a days-left bar iff positive; an overdue bar in the row's colour iff negative; with a positive duration a drawn bar has a finite positive width |
| PlanesAdmin.EtiquetaDe | resources/js/Pages/PlanesTaquillasAdmin.jsx:270-283 | "Sin plan" iff no days, the days left iff positive, "Vence hoy" iff 0, the days overdue as a positive figure iff negative |
| PlanesAdmin.EtiquetaConcuerdaConEstado | resources/js/Pages/PlanesTaquillasAdmin.jsx:69-283 | equal labels mean equal day counts, and the label agrees with the status in both directions |
| PlanesAdmin.TogglePopup | resources/js/Pages/PlanesTaquillasAdmin.jsx:39-64 | the open user's click closes the pop-up; another user's opens it; cached details are kept and only fetched when missing, with dashes when the request fails |
| PlanesAdmin.ToggleDosVeces | resources/js/Pages/PlanesTaquillasAdmin.jsx:39-64 | open then close leaves the pop-up closed with the details cached, so a third click does not depend on the request |
| UsuarioCard.ParsearFecha | resources/js/components/UsuarioTaquillaCard.jsx:4-14 | nothing for a missing or empty value; a `DD/MM/YYYY` string is the local date built from its three fields; anything else is the engine's reading |
| UsuarioCard.ParsearFechaFormateada | resources/js/components/UsuarioTaquillaCard.jsx:7-9 | a real calendar date written `DD/MM/YYYY` with a year from 100 on reads back as that very day |
| UsuarioCard.ParsearFechaSigloXX | resources/js/components/UsuarioTaquillaCard.jsx:9 | a year written `00YY` is read as 19YY |
| UsuarioCard.FormatearFecha | resources/js/components/UsuarioTaquillaCard.jsx:16-23 | shown as a date iff readable; shown verbatim iff unreadable, non-empty and not `-`; otherwise "Sin fecha" |
| UsuarioCard.DiasRestantes | resources/js/components/UsuarioTaquillaCard.jsx:25-32 | no value iff the end date is unreadable; otherwise today plus the result is the end day, so the end day itself gives 0 |
| UsuarioCard.BarraColor | resources/js/components/UsuarioTaquillaCard.jsx:36-41 | gray iff no days, green iff 0 or more, red iff negative |
| UsuarioCard.BarraRojaVacia | resources/js/components/UsuarioTaquillaCard.jsx:36-52 | the bar is red iff the end day has passed, and a red or gray bar has width 0 |
| UsuarioCard.EtiquetaDe | resources/js/components/UsuarioTaquillaCard.jsx:85-91 | no label iff no days; days left iff 0 or more; otherwise the days overdue as a positive figure |
| UsuarioCard.EtiquetaYColor | resources/js/components/UsuarioTaquillaCard.jsx:36-91 | a days-left label iff the bar is green, an overdue label iff it is red, and different days give different labels |
| PedidoVista.GetEstadoPedido | resources/js/Pages/Pedido.jsx:17-48 | green iff paid and delivered, red iff delivered and unpaid, yellow iff paid and not delivered, gray iff neither |
| PedidoVista.EstadoDistingueFlags | resources/js/Pages/Pedido.jsx:17-77 | the banner is equal for two orders iff their flags are equal; flipping `pagado` swaps green with red and yellow with gray, flipping `entregado` swaps green with yellow and red with gray |
| PedidoVista.SubtotalVista | resources/js/Pages/Pedido.jsx:135-138 | the unit price paid times the quantity, a missing price counting as 0 |
| PedidoVista.SumaSubtotalesVistas | resources/js/Pages/Pedido.jsx:133-138 | the subtotals the page lists add up to the sum of the server's line subtotals |
| PedidoVista.TotalMostradoEsSumaDeLineas | resources/js/Pages/Pedido.jsx:65-138 | for an order whose stored total is the sum of its lines, the total shown equals the sum of the subtotals listed |
| TiendaVista.Minuscula | resources/js/Pages/Tienda.jsx:18-19 | ASCII capitals become their small letters; characters that are not capitals are kept |
| TiendaVista.MinusculasIdempotente | resources/js/Pages/Tienda.jsx:18-19 | lower-casing twice is lower-casing once, so names that differ only in case compare as equal |
| TiendaVista.PorNombreMinusculasTotalTransitive | resources/js/Pages/Tienda.jsx:17-23 | the comparator (lower-cased name, then id) is total and transitive, so the sort is well defined |
| TiendaVista.ProductosOrdenados | resources/js/Pages/Tienda.jsx:17-23 | a permutation of the listing, in (lower-cased name, id) order |
| TiendaVista.Slice | resources/js/Pages/Tienda.jsx:28 | for non-negative bounds, the elements from `inicio` up to `fin` clamped to the array; empty when the range is empty or starts past the end |
| TiendaVista.Pagina | resources/js/Pages/Tienda.jsx:25-29 | at most 18 products: the 18 (or fewer at the end) from position (page − 1) · 18, and none for a page past the end |
| TiendaVista.TotalPaginas | resources/js/Pages/Tienda.jsx:31 | the least number of 18-product pages that holds the whole listing |
| TiendaVista.PaginasPrefijo | resources/js/Pages/Tienda.jsx:25-29 | pages 1 to k, read in order, are the first 18 · k products of the sorted listing |
| TiendaVista.TodasLasPaginas | resources/js/Pages/Tienda.jsx:25-31 | pages 1 to `totalPaginas` together are exactly the sorted listing: every product on exactly one page |
| TiendaVista.PaginaValidaNoVacia | resources/js/Pages/Tienda.jsx:25-38 | every page the buttons can reach in a non-empty listing shows between 1 and 18 products |
| TiendaVista.Paginacion.constructor | resources/js/Pages/Tienda.jsx:12 | the current page starts at 1, which is a reachable page |
| TiendaVista.Paginacion.IrAAnterior | resources/js/Pages/Tienda.jsx:33-35 | back one page unless on page 1; the page stays reachable |
| TiendaVista.Paginacion.IrASiguiente | resources/js/Pages/Tienda.jsx:37-39 | forward one page unless on the last; the page stays reachable |
| TiendaVista.Paginacion.Visibles | resources/js/Pages/Tienda.jsx:79-89 | the current page of a non-empty listing shows between 1 and 18 products, all from the listing |
| ProductoCard.TieneTaquillaYSocio | resources/js/components/Producto.jsx:17-21 | the card's locker test is the server's socio test minus locker number 0, which is a socio on the server but has no locker on the card |
| ProductoCard.BotonDe | resources/js/components/Producto.jsx:100-161 | "Iniciar Sesión" iff no session; "Taquilla Requerida" iff a session without a locker; "AGOTADO" iff a locker and 0 units; clickable iff a locker and units other than 0 |
| ProductoCard.PrecioOferta | resources/js/components/Producto.jsx:83-96 | the offer price is shown iff the discount is above 0 |
| ProductoCard.PorcentajeEtiqueta | resources/js/components/Producto.jsx:86 | the badge shows the whole part of the discount percentage |
| ProductoCard.PrecioOfertaEsElCobrado | resources/js/components/Producto.jsx:89-92 | the offer price shown is the discounted unit price the cart and checkout use, and lies between 0 and the list price for a discount up to 100% |
| ProductoCard.ImageSource | resources/js/components/Producto.jsx:55-60 | a non-empty string path without "undefined" is served from `/storage/`; anything else shows `/img/placeholder.jpg` |
| ProductoCard.PlaceholderDelServidor | resources/js/components/Producto.jsx:55-60 | the placeholder path the shop sends for a product without images is served as `/storage/img/placeholder.jpg`, not as the client placeholder |
| ProductoOferta.NumeroTaquilla | resources/js/components/ProductoOferta.jsx:9 | the session user's locker number, or 0 without a session or a locker |
| ProductoOferta.BotonDe | resources/js/components/ProductoOferta.jsx:70-90 | enabled iff a session user with a positive locker number and units other than 0; "Producto agotado" iff such a user and 0 units; the disabled tooltip button otherwise |
| ProductoOferta.CompararConTarjeta | resources/js/components/ProductoOferta.jsx:70-79 | whoever may buy on the offer card may buy on the shop card; the cards disagree exactly for a negative locker number with stock; sold out on one is sold out on the other |
| ProductoOferta.OfertaMostrada | resources/js/components/ProductoOferta.jsx:58-65 | the discount block is drawn iff the discount is above 0; its badge is the whole part of the percentage; its price lies between 0 and the list price for a discount up to 100% |
| ProductoOferta.OfertaComoEnTarjeta | resources/js/components/ProductoOferta.jsx:58-65 | the offer card shows its discount block exactly when the shop card shows its offer price, with the same badge and the same price, and that price is the discounted unit price the cart and checkout charge |
| ProductosVista.Verdaderos | resources/js/Pages/Productos.jsx:46 | the filtered list keeps no null or empty entry and is no longer than its input |
| ProductosVista.VerdaderosConcat | resources/js/Pages/Productos.jsx:46 | filtering a concatenation is concatenating the filtered parts, so order is kept |
| ProductosVista.Urls | resources/js/Pages/Productos.jsx:37-39 | one `/storage/` URL per stored path, in order |
| ProductosVista.VerdaderosUrls | resources/js/Pages/Productos.jsx:37-46 | no `/storage/` URL is dropped by the filter |
| ProductosVista.ImagenesDeOrden | resources/js/Pages/Productos.jsx:32-46 | the picture list is the principal picture when present followed by every secondary one in order; without `imagenes_secundarias` it holds at most one picture |
| ProductosVista.Intercambiado | resources/js/Pages/Productos.jsx:265-269 | pictures 0 and k trade places, every other picture stays, and the list is a permutation of the old one |
| ProductosVista.IntercambioInvolutivo | resources/js/Pages/Productos.jsx:263-271 | clicking the same thumbnail twice restores the list |
| ProductosVista.ClickMiniatura | resources/js/Pages/Productos.jsx:263-271 | the new list is the copy with the first picture and picture `index + 1` swapped |
| ProductosVista.StockBajoYBoton | resources/js/Pages/Productos.jsx:158-160 | the red low-stock background (fewer than 5 units) covers every product the shop card shows as sold out, and also products with 1 to 4 units that the card still sells |
| ProductosVista.HandleModificar | resources/js/Pages/Productos.jsx:93-133 | nothing is sent iff no product is selected or the name, price or units are falsy; otherwise the fields go to that product's edit route with a falsy discount sent as 0 |
| ProductosVista.GuardarSinCambios | resources/js/Pages/Productos.jsx:41-45 | a product saved as loaded is sent iff its name, price and units are truthy, so 0 units or price 0 block it, while the typed text "0" for units passes |
| ProductosVista.EliminadoLocal | resources/js/Pages/Productos.jsx:79 | a truthy flag becomes 0 and a 0 flag becomes 1 |
| ProductosVista.EliminadoLocalComoServidor | resources/js/Pages/Productos.jsx:68-90 | the page's local flip shows the flag the server stores after the flip |

## Left out

- Time zones and daylight saving: dates are whole days and instants are real numbers of days in one time zone. Carbon's `startOfDay`/`endOfDay` and JavaScript's local midnight are the same day number. A daylight-saving change is not modelled: neither inside a `diffInDays` interval nor in JavaScript's `Math.floor` over the milliseconds between two local midnights across a spring-forward day (`UsuarioCard.DiasRestantes`, `PlanesClient.NuevaFecha`), where a 23-hour day would floor one day short.
- Concurrency: the row locks of the cart checkout and the missing lock of the order checkout are left out. Each transaction is one atomic step.
- Authentication, authorisation and sessions: the session user is a parameter, and the middleware guards are not part of this model.
- File storage: stored receipts and product images are reduced to the path they were saved under. Deleting the stored receipt file on rollback is modelled as the receipt never being recorded: a failed `PagoCuota.Store` leaves `justificantes` unchanged.
- Number and date formatting (`number_format`, `toFixed`, `Intl.NumberFormat`, `toLocaleDateString`) is left out. A value shown is modelled as the value itself.
- `CarritoVista.EliminarConservaTotal`: the page's total is the string that `number_format` produced (`app/Http/Controllers/CarritoController.php:71`), and the model takes it as the number. When every subtotal is under 1000 but the total is 1000 or more, the page loads with a total such as "1,200.00". Removing a line then computes `"1,200.00" - "600.00"`, which is NaN (`resources/js/Pages/Carrito.jsx:48`), not the remaining sum the lemma states. The same string, or NaN (sent as `null`), is posted back as `total` (line 78) and fails `required|numeric` (`app/Http/Controllers/CarritoController.php:195`), so such a cart can never be ordered from the page. Below 1000 the strings convert to their numbers and the lemma describes the page.
- `Carrito.Index`: the cart listing adds up `number_format` strings (`app/Http/Controllers/CarritoController.php:58-71`). A subtotal of 1000 or more is formatted with a thousands separator ("1,234.50"). Adding that string is a non-well-formed numeric value in PHP 8, which raises a warning that Laravel turns into an `ErrorException`, so the cart page fails. The model sums the exact values and does not capture that failure.
- Column types: the products migration is not part of this model. `precio` and `unidades` are numbers throughout. A decimal column delivered as a string would change the truthiness tests of the product edit form.
- String order: MySQL collation order is modelled as code-point order. `toLowerCase` is modelled for ASCII and Latin-1 capitals only. The `localeCompare` sort of the admin product list (`resources/js/Pages/Productos.jsx:152-153`) is not modelled.
- `ProductoController::index`, `mostrarProductos`, `ver`, `crear` and `MostrarCrearProducto` only load and render. `PedidoController::index` and its filters, and `PagoCuotaController::index`, are query builders for admin tables. None of them is modelled.
- The plan cards on the admin locker page, the image `src` of the offer card and the discount note of the order page are markup.
- The payment form's retry loops (`confirmarPago`, `fetchUserData`) in the client plan page are network code.
- The chatbot, the AI service and Firestore are network I/O with no stateable core.
- `UserTaquillaController::show` reads a `pagos` relation that `User` does not define. `show` is not part of this model.
- Validation details that no modelled rule depends on are left out: `required` trimming whitespace.
- `PlanesTaquillas.RegistrarPago`: the width of `referencia_pago_externa` and the precision of `monto_pagado` are assumed not to be enforced (MySQL with strict mode off). The only rule on `referencia_pago_externa` is `max:255` (`app/Http/Controllers/PlanesTaquillasController.php:192`), but the column holds 50 characters (`database/migrations/2025_10_17_011605_create_taquilla_system_tables.php:31`), and `monto_pagado` is `decimal(10,2)` (line 29). Under strict mode a reference of 51 to 255 characters fails the insert, and with the exception classes not imported the request ends in a server error with nothing committed; an amount is rounded to cents, and one above 99999999.99 fails the same way. The model stores the reference and the amount exactly as sent. The `date` columns are not affected by this assumption: they keep only the day, as the Conventions say.
- `ProductoAdmin.DescuentoDe`: a `descuento` sent as null and one left out are not told apart.
- `ProductoAdmin.Store` and `ProductoAdmin.Update`: the `image` rule of `imagenes.*` is taken to accept the same types as its `mimes` list. A framework version whose `image` rule refuses SVG would also refuse `.svg` uploads. A `null` entry in `imagenes` is not modelled.
- `PlanesTaquillas.RegistrarPago`: the `catch` clauses name exceptions that are not imported, so in PHP an error inside the transaction escapes uncaught. The model states the intended rollback: any failure has no effect.
- `Carrito.Crear`: a line without `precio` makes PHP raise an `ErrorException`, which is caught and rolled back. It is modelled as an error result with no effect.
- `Carrito.Crear`: the null dereference on line 218 (`$producto->unidades` of a product not found) is left out. Validation rejects unknown ids before the loop, so it can only happen under concurrent deletion, and concurrency is not modelled.
- `Carrito.Crear`: it stores the client's total verbatim, as the code does. The total is not recomputed.
- `Carrito.Crear`: the corrected half assumes that, with `Pedido` imported, the columns it writes exist: `total` and `estado` on the order (`app/Http/Controllers/CarritoController.php:232-236`) and `precio_unitario` and `descuento` on the pivot (lines 226-229). The other writers of the same tables use `precio_total` (`app/Http/Controllers/PedidoController.php:46-48`) and pivot `precio_pagado`/`descuento_aplicado` (lines 77-81). Against that schema the import alone would still fail the insert, or drop the total. The model also keeps these orders in their own table, `pedidosCarrito`, without an order id.
- `CarritoVista`: the cart page's handlers expect a JSON `success` from endpoints that answer with redirects. Whether a request succeeded is a parameter of the model.
- `Pedidos.Crear`: an order id consumed by a rolled-back insert is not modelled. The next id is only advanced on commit.
- `PlanesAdmin.ColorDe`: the admin page throws a `TypeError` when a user has days left but no cached plan. The model returns an error value for it.
- `PlanesClient.Etiqueta` and `PlanesClient.ColorDias` take the client's days figure as a whole number. Under Carbon 3 the server sends a fraction, which the page prints as it comes.
- `PlanesAdmin.Porcentaje`: the page computes the clamped percentage but never uses it, and it draws unclamped bars (`PlanesAdmin.BarraDe`).
- The admin page's outside-click handler reads `.current` of a state value, so it never closes the pop-up. It is left out; only `togglePopup` opens and closes it.
- `ProductosVista.ImagenesDeOrden`: `mostrarProductos` sends the products with `imagenes` and `imagen_principal`, never with `imagenes_secundarias`. In practice the list therefore holds at most the principal picture. The edit form never sends images.
- `UsuarioCard`: the user card is not used by any page of the repository. It is modelled as written.
- `ProductosVista.ClickMiniatura` works on a copy of the picture list held in an array, as the handler does. React's state replacement is the assignment of the result.

## Findings

| source | as written | input that shows it | evidently intended | confidence | as-written member | corrected member |
|---|---|---|---|---|---|---|
| app/Http/Controllers/PlanesTaquillasController.php:136 | `dias_restantes` is the day difference from the cached expiry to now, so its sign is inverted | an expiry three days ago, seen at 10:00, gives 3 days left under Carbon 2 and about 3.4 under Carbon 3; an expiry three days ahead gives -2 and about -2.6 | the days from today to the expiry: -3 for the expired user, 3 for the other | not executed | PlanesTaquillas.DiasRestantesClienteEscrito | PlanesTaquillas.DiasRestantesCliente |
| resources/js/Pages/PlanesTaquillasAdmin.jsx:14 | days left are `Math.floor((fin - now) / day)`, with `fin` at UTC midnight of the end date | `fecha_fin` is today, and the page is open at any time after 00:00 UTC: -1 and "vencido" | the end day counts as paid: 0, "Vence hoy" and "activo", as the server and the user card count | not executed | PlanesAdmin.UsuariosConEstado | PlanesAdmin.UsuariosConEstadoCorregido |
| app/Http/Controllers/CarritoController.php:234 | `Pedido::create` names a class the controller does not import; the `Error` raised escapes `catch (\Exception)` | any valid request with enough stock and priced lines ends with a server error, and the transaction never commits | the order is created, the stock decremented and the cart emptied in one commit, assuming the order and pivot columns it writes exist (the code's other writers use `precio_total`, `precio_pagado` and `descuento_aplicado`) | not executed | Carrito.CrearEscrito | Carrito.Crear |
