/** The persistent state of the shop and of the locker ("taquilla")
    subscriptions: one datatype per table row, and a `Database` object whose
    fields are the tables that the controllers read and write. */
module Schema {
  import opened Common

  /** A row of `productos`; `precio` and `descuento` (a percentage) are exact. */
  datatype Producto = Producto(
    id: int, nombre: string, precio: real, unidades: int, descuento: real, eliminado: bool)

  /** A row of `imagenes`: `ruta` is the stored file path. */
  datatype Imagen = Imagen(productoId: int, nombre: string, ruta: string, esPrincipal: bool)

  /** A row of the order/product pivot: the price snapshot taken at checkout. */
  datatype LineaPedido = LineaPedido(
    productoId: int, cantidad: int, descuentoAplicado: real, precioPagado: real)

  /** A row of `pedidos` with its pivot rows in attachment order. */
  datatype Pedido = Pedido(
    userId: int, precioTotal: real, pagado: bool, entregado: bool,
    fechaEntrega: Option<int>, lineas: seq<LineaPedido>)

  /** A row of the cart/product pivot. */
  datatype CartLine = CartLine(productoId: int, cantidad: int)

  /** A row of `planes_taquilla`. */
  datatype Plan = Plan(id: int, nombre: string, duracionDias: int, precioTotal: real, activo: bool)

  /** A row of `pagos_cuotas`; the dates are day numbers. */
  datatype Pago = Pago(
    id: int, userId: int, planId: int, monto: real, referencia: Option<string>,
    inicio: int, fin: int, fechaPago: int)

  /** A row of `users`: `vencimiento` and `planVigente` are the cached
      subscription expiry (`fecha_vencimiento_cuota`) and plan
      (`id_plan_vigente`). */
  datatype User = User(
    id: int, nombre: string, apellido: string, email: string,
    numeroTaquilla: Option<int>, vencimiento: Option<int>, planVigente: Option<int>)

  /** Unit price after a percentage discount: `precio - precio * (descuento / 100)`. */
  function PrecioConDescuento(precio: real, descuento: real): real
  {
    precio - precio * (descuento / 100.0)
  }

  /** A discount between 0 and 100 percent never raises the price nor makes
      it negative, and is the price scaled by the remaining fraction. */
  lemma PrecioConDescuentoBounds(precio: real, descuento: real)
    requires precio >= 0.0 && 0.0 <= descuento <= 100.0
    ensures 0.0 <= PrecioConDescuento(precio, descuento) <= precio
    ensures PrecioConDescuento(precio, descuento) == precio * (1.0 - descuento / 100.0)
  {
  }

  /** Quantity of product `p` in a cart; 0 when it has no line. */
  function CartQty(cart: seq<CartLine>, p: int): int
  {
    if cart == [] then 0
    else if cart[0].productoId == p then cart[0].cantidad
    else CartQty(cart[1..], p)
  }

  /** No product has two lines in the cart (the pivot's natural key). */
  predicate UniqueLines(cart: seq<CartLine>)
  {
    forall i, j :: 0 <= i < j < |cart| ==> cart[i].productoId != cart[j].productoId
  }

  predicate InCart(cart: seq<CartLine>, p: int)
  {
    exists i :: 0 <= i < |cart| && cart[i].productoId == p
  }

  /** An order recorded by the cart checkout: its total as the client sent
      it and the pivot rows keyed by product id. */
  datatype PedidoCarrito = PedidoCarrito(userId: int, total: real, lineas: map<int, LineaCarrito>)
  datatype LineaCarrito = LineaCarrito(cantidad: int, precioUnitario: real, descuento: real)

  /** `PlanTaquilla::find($id)`: the row with that id, if any. */
  function FindPlan(planes: seq<Plan>, id: int): (r: Option<Plan>)
    ensures r.Some? ==> r.value in planes && r.value.id == id
    ensures r.None? ==> forall i :: 0 <= i < |planes| ==> planes[i].id != id
  {
    var conId := (p: Plan) => p.id == id;
    var r := Primero(planes, conId);
    assert r.None? ==> forall i :: 0 <= i < |planes| ==> !conId(planes[i]);
    r
  }

  class Database {
    var productos: map<int, Producto>
    var imagenes: seq<Imagen>
    /** The `carrito` row of each user, with its pivot rows in insertion order. */
    var carritos: map<int, seq<CartLine>>
    var pedidos: map<int, Pedido>
    var pedidosCarrito: seq<PedidoCarrito>
    var users: map<int, User>
    /** The `planes_taquilla` rows in id order, as queries without `ORDER BY` list them. */
    var planes: seq<Plan>
    var pagos: seq<Pago>
    /** Paths of the payment receipts kept on the public disk. */
    var justificantes: set<string>
    /** The next auto-increment id handed out to a new row. */
    var nextId: int

    ghost predicate Valid()
      reads this
    {
      (forall id :: id in productos ==> productos[id].id == id && id < nextId)
      && (forall i :: 0 <= i < |imagenes| ==> imagenes[i].productoId in productos)
      && (forall id :: id in pedidos ==> id < nextId)
      && (forall i :: 0 <= i < |pagos| ==> pagos[i].id < nextId)
      && (forall i, j :: 0 <= i < j < |planes| ==> planes[i].id != planes[j].id)
      && (forall id :: id in users ==> users[id].id == id)
      && (forall u :: u in carritos ==> UniqueLines(carritos[u]))
    }

    constructor ()
      ensures Valid()
      ensures productos == map[] && imagenes == [] && carritos == map[] && pedidos == map[]
      ensures pedidosCarrito == [] && users == map[] && planes == [] && pagos == [] && justificantes == {} && nextId == 1
    {
      productos, imagenes, carritos, pedidos := map[], [], map[], map[];
      pedidosCarrito, users, planes, pagos := [], map[], [], [];
      justificantes := {};
      nextId := 1;
    }

    /** Inserts a payment row under the next id and writes back the
        paying user's row, in one commit. */
    method InsertarPago(pago: Pago, user: User)
      requires Valid() && pago.id == nextId && user.id in users
      modifies this
      ensures Valid()
      ensures pagos == old(pagos) + [pago] && nextId == old(nextId) + 1
      ensures users == old(users)[user.id := user]
      ensures productos == old(productos) && imagenes == old(imagenes)
      ensures carritos == old(carritos) && pedidos == old(pedidos)
      ensures pedidosCarrito == old(pedidosCarrito) && planes == old(planes)
      ensures justificantes == old(justificantes)
    {
      pagos, nextId, users := pagos + [pago], nextId + 1, users[user.id := user];
    }
  }
}
