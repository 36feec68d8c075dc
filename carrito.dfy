/** `CarritoController`: the cart page (`index`), adding one unit of a
    product (`agregarAlCarrito`), removing a product (`eliminarProducto`)
    and the cart checkout (`crear`), which decrements the locked stock
    line by line and records the total the client sent. */
module Carrito {
  import opened Common
  import opened Schema
  import opened Pedidos

  // ---------------------------------------------------------------------
  // Cart quantities
  // ---------------------------------------------------------------------

  /** The position of product `p`'s line in the cart, if it has one. */
  function Posicion(cart: seq<CartLine>, p: int): (k: Option<nat>)
    ensures k.Some? ==> k.value < |cart| && cart[k.value].productoId == p
    ensures k.None? <==> !InCart(cart, p)
  {
    if cart == [] then None
    else if cart[0].productoId == p then Some(0)
    else
      var k := Posicion(cart[1..], p);
      assert InCart(cart[1..], p) ==> InCart(cart, p) by {
        if InCart(cart[1..], p) {
          var i :| 0 <= i < |cart[1..]| && cart[1..][i].productoId == p;
          assert cart[i + 1].productoId == p;
        }
      }
      assert InCart(cart, p) ==> InCart(cart[1..], p) by {
        if InCart(cart, p) {
          var i :| 0 <= i < |cart| && cart[i].productoId == p;
          assert i > 0 && cart[1..][i - 1].productoId == p;
        }
      }
      if k.None? then None else Some(k.value + 1)
  }

  lemma {:induction false} CartQtyAbsent(cart: seq<CartLine>, p: int)
    requires !InCart(cart, p)
    ensures CartQty(cart, p) == 0
  {
    if cart != [] {
      forall i | 0 <= i < |cart[1..]| ensures cart[1..][i].productoId != p {
        assert cart[1..][i] == cart[i + 1];
      }
      CartQtyAbsent(cart[1..], p);
    }
  }

  /** Setting the quantity of line `k` changes that product's quantity and no other. */
  lemma {:induction false} CartQtyUpdate(cart: seq<CartLine>, k: int, c: int, q: int)
    requires UniqueLines(cart) && 0 <= k < |cart|
    ensures CartQty(cart[k := cart[k].(cantidad := c)], q) == (if q == cart[k].productoId then c else CartQty(cart, q))
  {
    var cart' := cart[k := cart[k].(cantidad := c)];
    if k == 0 {
      assert cart'[1..] == cart[1..];
      if q == cart[0].productoId {
      } else {
      }
    } else {
      assert cart'[1..] == cart[1..][k - 1 := cart[k].(cantidad := c)];
      CartQtyUpdate(cart[1..], k - 1, c, q);
      assert cart[0].productoId != cart[k].productoId;
    }
  }

  /** Appending a line for a product not in the cart gives it that
      quantity and changes no other product's. */
  lemma {:induction false} CartQtyAppend(cart: seq<CartLine>, l: CartLine, q: int)
    requires !InCart(cart, l.productoId)
    ensures CartQty(cart + [l], q) == (if q == l.productoId then l.cantidad else CartQty(cart, q))
  {
    if cart == [] {
      assert [] + [l] == [l];
    } else {
      assert (cart + [l])[1..] == cart[1..] + [l];
      forall i | 0 <= i < |cart[1..]| ensures cart[1..][i].productoId != l.productoId {
        assert cart[1..][i] == cart[i + 1];
      }
      CartQtyAppend(cart[1..], l, q);
    }
  }

  /** `detach($productoId)`: the cart without the product's lines, the
      other lines in their order. */
  function SinProducto(cart: seq<CartLine>, p: int): (r: seq<CartLine>)
    ensures !InCart(r, p)
    ensures |r| <= |cart|
  {
    if cart == [] then []
    else
      var resto := SinProducto(cart[1..], p);
      assert forall i :: 0 <= i < |resto| ==> resto[i].productoId != p;
      if cart[0].productoId == p then resto
      else
        var r := [cart[0]] + resto;
        assert forall i :: 1 <= i < |r| ==> r[i] == resto[i - 1];
        r
  }

  /** Detaching a product drops its quantity to 0 and changes no other. */
  lemma {:induction false} CartQtyRemove(cart: seq<CartLine>, p: int, q: int)
    ensures CartQty(SinProducto(cart, p), q) == (if q == p then 0 else CartQty(cart, q))
  {
    if cart != [] {
      CartQtyRemove(cart[1..], p, q);
      if cart[0].productoId != p {
        assert ([cart[0]] + SinProducto(cart[1..], p))[1..] == SinProducto(cart[1..], p);
      }
    }
    if q == p {
      CartQtyAbsent(SinProducto(cart, p), p);
    }
  }

  /** Deleting one line keeps the lines unique. */
  lemma DeleteKeepsUnique(cart: seq<CartLine>, k: int)
    requires UniqueLines(cart) && 0 <= k < |cart|
    ensures UniqueLines(cart[..k] + cart[k + 1..])
  {
    var d := cart[..k] + cart[k + 1..];
    forall i, j | 0 <= i < j < |d| ensures d[i].productoId != d[j].productoId {
      var i' := if i < k then i else i + 1;
      var j' := if j < k then j else j + 1;
      assert d[i] == cart[i'] && d[j] == cart[j'];
    }
  }

  /** When line `k` is the product's only line, detaching the product
      removes exactly that line and keeps the others in order. */
  lemma {:induction false} RemoveOnlyLine(cart: seq<CartLine>, p: int, k: int)
    requires 0 <= k < |cart| && cart[k].productoId == p
    requires forall i :: 0 <= i < |cart| && i != k ==> cart[i].productoId != p
    ensures SinProducto(cart, p) == cart[..k] + cart[k + 1..]
  {
    if k == 0 {
      KeepAll(cart[1..], p);
    } else {
      RemoveOnlyLine(cart[1..], p, k - 1);
      assert cart[1..][..k - 1] == cart[1..k] && cart[1..][k..] == cart[k + 1..];
      assert [cart[0]] + cart[1..k] == cart[..k];
    }
  }

  lemma {:induction false} KeepAll(cart: seq<CartLine>, p: int)
    requires !InCart(cart, p)
    ensures SinProducto(cart, p) == cart
  {
    if cart != [] {
      forall i | 0 <= i < |cart[1..]| ensures cart[1..][i].productoId != p {
        assert cart[1..][i] == cart[i + 1];
      }
      KeepAll(cart[1..], p);
    }
  }

  /** With unique lines, detaching a product removes exactly its line,
      keeps the others in order and keeps them unique. */
  lemma RemoveIsDelete(cart: seq<CartLine>, p: int, k: int)
    requires UniqueLines(cart) && 0 <= k < |cart| && cart[k].productoId == p
    ensures SinProducto(cart, p) == cart[..k] + cart[k + 1..]
    ensures UniqueLines(SinProducto(cart, p))
  {
    forall i | 0 <= i < |cart| && i != k ensures cart[i].productoId != p {
      if i < k {
        assert cart[i].productoId != cart[k].productoId;
      } else {
        assert cart[k].productoId != cart[i].productoId;
      }
    }
    RemoveOnlyLine(cart, p, k);
    DeleteKeepsUnique(cart, k);
  }

  // ---------------------------------------------------------------------
  // index
  // ---------------------------------------------------------------------

  /** One line of the cart page: the discounted unit price as `precio`
      and `subtotal = precio * cantidad`. */
  datatype LineaIndex = LineaIndex(id: int, nombre: string, precio: real, cantidad: int, subtotal: real, descuento: real)

  datatype VistaCarrito = VistaCarrito(productos: seq<LineaIndex>, total: real)

  function LineaIndexDe(prod: Producto, cantidad: int): LineaIndex
  {
    var precio := PrecioConDescuento(prod.precio, prod.descuento);
    LineaIndex(prod.id, prod.nombre, precio, cantidad, precio * cantidad as real, prod.descuento)
  }

  /** The pivot rows joined with their products, in pivot order. */
  function LineasIndex(cart: seq<CartLine>, productos: map<int, Producto>): (r: seq<LineaIndex>)
    ensures |r| <= |cart|
  {
    if cart == [] then []
    else
      var n := |cart| - 1;
      LineasIndex(cart[..n], productos)
        + (if cart[n].productoId in productos then [LineaIndexDe(productos[cart[n].productoId], cart[n].cantidad)] else [])
  }

  /** The `reduce` that adds up the line subtotals. */
  function TotalIndex(lineas: seq<LineaIndex>): real
  {
    if lineas == [] then 0.0 else TotalIndex(lineas[..|lineas| - 1]) + lineas[|lineas| - 1].subtotal
  }

  /** `index` for user `userId`: no cart gives no lines and total 0. */
  function Index(carritos: map<int, seq<CartLine>>, productos: map<int, Producto>, userId: int): (v: VistaCarrito)
    ensures userId !in carritos ==> v.productos == [] && v.total == 0.0
    ensures userId in carritos ==> |v.productos| <= |carritos[userId]|
  {
    if userId !in carritos then VistaCarrito([], 0.0)
    else
      var lineas := LineasIndex(carritos[userId], productos);
      VistaCarrito(lineas, TotalIndex(lineas))
  }

  /** The checkout request the cart stands for. */
  function Solicitudes(cart: seq<CartLine>): (r: seq<Solicitud>)
    ensures |r| == |cart|
  {
    seq(|cart|, i requires 0 <= i < |cart| => Solicitud(cart[i].productoId, cart[i].cantidad))
  }

  /** The last cart line, when its product exists, adds its subtotal to
      the page total. */
  lemma IndexUltima(cart: seq<CartLine>, productos: map<int, Producto>)
    requires cart != [] && cart[|cart| - 1].productoId in productos
    ensures var n := |cart| - 1;
      TotalIndex(LineasIndex(cart, productos))
      == TotalIndex(LineasIndex(cart[..n], productos)) + LineaIndexDe(productos[cart[n].productoId], cart[n].cantidad).subtotal
  {
    var n := |cart| - 1;
    var ls := LineasIndex(cart[..n], productos);
    var x := LineaIndexDe(productos[cart[n].productoId], cart[n].cantidad);
    assert LineasIndex(cart, productos) == ls + [x];
    assert (ls + [x])[..|ls|] == ls;
  }

  /** The last cart line adds the same subtotal to the checkout total. */
  lemma CheckoutUltima(cart: seq<CartLine>, productos: map<int, Producto>)
    requires forall i :: 0 <= i < |cart| ==> cart[i].productoId in productos
    requires forall p :: p in productos ==> productos[p].id == p
    requires cart != []
    ensures var n := |cart| - 1;
      Sum(Subtotales(Lineas(productos, Solicitudes(cart))))
      == Sum(Subtotales(Lineas(productos, Solicitudes(cart[..n])))) + LineaIndexDe(productos[cart[n].productoId], cart[n].cantidad).subtotal
  {
    var n := |cart| - 1;
    var req := Solicitudes(cart);
    assert req[..n] == Solicitudes(cart[..n]);
    SubtotalesUltima(productos, req);
  }

  /** When every cart product exists, the total the cart page shows is
      the total `PedidoController::crear` charges for the same lines. */
  lemma {:induction false} IndexTotalIsCheckoutTotal(cart: seq<CartLine>, productos: map<int, Producto>)
    requires forall i :: 0 <= i < |cart| ==> cart[i].productoId in productos
    requires forall p :: p in productos ==> productos[p].id == p
    ensures TotalIndex(LineasIndex(cart, productos)) == Sum(Subtotales(Lineas(productos, Solicitudes(cart))))
  {
    if cart != [] {
      IndexTotalIsCheckoutTotal(cart[..|cart| - 1], productos);
      IndexUltima(cart, productos);
      CheckoutUltima(cart, productos);
    }
  }

  // ---------------------------------------------------------------------
  // agregarAlCarrito / eliminarProducto
  // ---------------------------------------------------------------------

  datatype ErrorCarrito =
    | ProductoNoDisponible | Agotado | MaximoAlcanzado | FalloGuardado
    | CarritoNoEncontrado | NoEnCarrito

  /** The user's cart lines; a user without a cart row has none. */
  function CarritoDe(carritos: map<int, seq<CartLine>>, userId: int): seq<CartLine>
  {
    if userId in carritos then carritos[userId] else []
  }

  /** `agregarAlCarrito` for the session user: one more unit of product
      `p`, never beyond its stock. `fault` stands for an exception inside
      the transaction, which is rolled back. */
  method AgregarAlCarrito(db: Database, userId: int, p: int, fault: bool) returns (r: Result<(), ErrorCarrito>)
    requires db.Valid()
    modifies db
    ensures db.Valid()
    ensures r == Err(ProductoNoDisponible) <==> p !in old(db.productos)
    ensures r == Err(Agotado) <==> p in old(db.productos) && old(db.productos)[p].unidades <= 0
    ensures r == Err(MaximoAlcanzado) <==>
      p in old(db.productos) && old(db.productos)[p].unidades > 0
      && CartQty(CarritoDe(old(db.carritos), userId), p) + 1 > old(db.productos)[p].unidades
    ensures r == Err(FalloGuardado) <==>
      p in old(db.productos) && old(db.productos)[p].unidades > 0
      && CartQty(CarritoDe(old(db.carritos), userId), p) + 1 <= old(db.productos)[p].unidades && fault
    ensures r.Err? ==> db.carritos == old(db.carritos)
    ensures r.Ok? ==>
      var antes := CarritoDe(old(db.carritos), userId);
      userId in db.carritos && p in db.productos
      && CartQty(db.carritos[userId], p) == CartQty(antes, p) + 1 <= db.productos[p].unidades
      && (forall q :: q != p ==> CartQty(db.carritos[userId], q) == CartQty(antes, q))
      && |db.carritos[userId]| == |antes| + (if InCart(antes, p) then 0 else 1)
      && (forall u :: u in old(db.carritos) && u != userId ==> u in db.carritos && db.carritos[u] == old(db.carritos)[u])
      && db.carritos.Keys == old(db.carritos).Keys + {userId}
    ensures db.productos == old(db.productos) && db.imagenes == old(db.imagenes) && db.pedidos == old(db.pedidos)
    ensures db.pedidosCarrito == old(db.pedidosCarrito) && db.users == old(db.users) && db.planes == old(db.planes)
    ensures db.pagos == old(db.pagos) && db.justificantes == old(db.justificantes) && db.nextId == old(db.nextId)
  {
    if p !in db.productos {
      return Err(ProductoNoDisponible);
    }
    var producto := db.productos[p];
    if producto.unidades <= 0 {
      return Err(Agotado);
    }
    // firstOrCreate: a user without a cart starts with an empty one
    var carrito := CarritoDe(db.carritos, userId);
    assert UniqueLines(carrito);
    var posicion := Posicion(carrito, p);
    var nuevo: seq<CartLine>;
    if posicion.Some? {
      var k := posicion.value;
      CartQtyUpdate(carrito, k, carrito[k].cantidad + 1, p);
      assert CartQty(carrito, p) == carrito[k].cantidad by {
        CartQtyUpdate(carrito, k, carrito[k].cantidad, p);
        assert carrito[k := carrito[k].(cantidad := carrito[k].cantidad)] == carrito;
      }
      var nuevaCantidad := carrito[k].cantidad + 1;
      if nuevaCantidad > producto.unidades {
        return Err(MaximoAlcanzado);
      }
      nuevo := carrito[k := carrito[k].(cantidad := nuevaCantidad)];
      forall q ensures CartQty(nuevo, q) == (if q == p then nuevaCantidad else CartQty(carrito, q)) {
        CartQtyUpdate(carrito, k, nuevaCantidad, q);
      }
      assert UniqueLines(nuevo) by {
        forall i, j | 0 <= i < j < |nuevo| ensures nuevo[i].productoId != nuevo[j].productoId {
          assert nuevo[i].productoId == carrito[i].productoId && nuevo[j].productoId == carrito[j].productoId;
        }
      }
    } else {
      CartQtyAbsent(carrito, p);
      nuevo := carrito + [CartLine(p, 1)];
      forall q ensures CartQty(nuevo, q) == (if q == p then 1 else CartQty(carrito, q)) {
        CartQtyAppend(carrito, CartLine(p, 1), q);
      }
      assert UniqueLines(nuevo) by {
        forall i, j | 0 <= i < j < |nuevo| ensures nuevo[i].productoId != nuevo[j].productoId {
          if j == |carrito| {
            assert nuevo[i] == carrito[i];
          } else {
            assert nuevo[i] == carrito[i] && nuevo[j] == carrito[j];
          }
        }
      }
    }
    if fault {
      return Err(FalloGuardado);
    }
    db.carritos := db.carritos[userId := nuevo];
    r := Ok(());
  }

  /** `eliminarProducto` for the session user: detaches product `p`. The
      product is found through the join, so it must still exist. */
  method EliminarProducto(db: Database, userId: int, p: int) returns (r: Result<(), ErrorCarrito>)
    requires db.Valid()
    modifies db
    ensures db.Valid()
    ensures r == Err(CarritoNoEncontrado) <==> userId !in old(db.carritos)
    ensures r == Err(NoEnCarrito) <==>
      userId in old(db.carritos) && !(InCart(old(db.carritos)[userId], p) && p in old(db.productos))
    ensures r.Err? ==> db.carritos == old(db.carritos)
    ensures r.Ok? ==>
      var antes := old(db.carritos)[userId];
      userId in db.carritos && !InCart(db.carritos[userId], p)
      && (forall q :: q != p ==> CartQty(db.carritos[userId], q) == CartQty(antes, q))
      && (exists k :: 0 <= k < |antes| && antes[k].productoId == p && db.carritos[userId] == antes[..k] + antes[k + 1..])
      && db.carritos == old(db.carritos)[userId := db.carritos[userId]]
    ensures db.productos == old(db.productos) && db.imagenes == old(db.imagenes) && db.pedidos == old(db.pedidos)
    ensures db.pedidosCarrito == old(db.pedidosCarrito) && db.users == old(db.users) && db.planes == old(db.planes)
    ensures db.pagos == old(db.pagos) && db.justificantes == old(db.justificantes) && db.nextId == old(db.nextId)
  {
    if userId !in db.carritos {
      return Err(CarritoNoEncontrado);
    }
    var carrito := db.carritos[userId];
    var posicion := Posicion(carrito, p);
    if posicion.None? || p !in db.productos {
      return Err(NoEnCarrito);
    }
    var k := posicion.value;
    var nuevo := SinProducto(carrito, p);
    RemoveIsDelete(carrito, p, k);
    forall q | q != p ensures CartQty(nuevo, q) == CartQty(carrito, q) {
      CartQtyRemove(carrito, p, q);
    }
    db.carritos := db.carritos[userId := nuevo];
    r := Ok(());
  }

  // ---------------------------------------------------------------------
  // crear
  // ---------------------------------------------------------------------

  /** One element of the request's `productos`: the cart page sends each
      line's discounted `precio`, and possibly its `descuento`. */
  datatype ItemPedido = ItemPedido(id: int, cantidad: int, precio: Option<real>, descuento: Option<real>)

  /** The validation of `crear`: a non-empty list of existing product ids
      with quantities of at least 1, and a total of at least 0.01. */
  predicate PeticionValida(productos: map<int, Producto>, items: seq<ItemPedido>, total: real)
  {
    |items| >= 1
    && (forall i :: 0 <= i < |items| ==> items[i].id in productos && items[i].cantidad >= 1)
    && total >= 0.01
  }

  function SolicitudesDe(items: seq<ItemPedido>): (r: seq<Solicitud>)
    ensures |r| == |items|
    ensures forall i :: 0 <= i < |items| ==> r[i].id == items[i].id && r[i].cantidad == items[i].cantidad
  {
    seq(|items|, i requires 0 <= i < |items| => Solicitud(items[i].id, items[i].cantidad))
  }

  predicate ConPrecios(items: seq<ItemPedido>)
  {
    forall i :: 0 <= i < |items| ==> items[i].precio.Some?
  }

  /** `$productosParaAdjuntar`: keyed by product id, so a later line for
      the same product replaces the earlier one. */
  function PivotPorId(items: seq<ItemPedido>): (m: map<int, LineaCarrito>)
    requires ConPrecios(items)
    ensures m.Keys == set i | 0 <= i < |items| :: items[i].id
  {
    if items == [] then map[]
    else
      var n := |items| - 1;
      var it := items[n];
      var m := PivotPorId(items[..n])[it.id := LineaCarrito(it.cantidad, it.precio.value,
                                                            if it.descuento.Some? then it.descuento.value else 0.0)];
      assert forall i :: 0 <= i < n ==> items[..n][i] == items[i];
      m
  }

  /** Each recorded line is the last request line for its product. */
  lemma {:induction false} PivotIsLastLine(items: seq<ItemPedido>, i: int)
    requires ConPrecios(items) && 0 <= i < |items|
    requires forall j :: i < j < |items| ==> items[j].id != items[i].id
    ensures PivotPorId(items)[items[i].id].cantidad == items[i].cantidad
    ensures PivotPorId(items)[items[i].id].precioUnitario == items[i].precio.value
  {
    var n := |items| - 1;
    if i < n {
      assert forall j :: 0 <= j < n ==> items[..n][j] == items[j];
      PivotIsLastLine(items[..n], i);
    }
  }

  /** With the same product on two lines, the stock loses both quantities
      but the recorded order line keeps only the last one. */
  lemma DuplicateLineUnderRecorded(productos: map<int, Producto>, a: ItemPedido, b: ItemPedido)
    requires a.id == b.id && a.cantidad >= 1 && b.cantidad >= 1 && a.precio.Some? && b.precio.Some?
    ensures QtyOf(SolicitudesDe([a, b]), a.id) == a.cantidad + b.cantidad
    ensures PivotPorId([a, b])[a.id].cantidad == b.cantidad < a.cantidad + b.cantidad
  {
    var req := SolicitudesDe([a, b]);
    assert req == [Solicitud(a.id, a.cantidad), Solicitud(b.id, b.cantidad)];
    assert req[..1] == [req[0]] && req[..1][..0] == [];
    assert QtyOf(req[..1], a.id) == a.cantidad;
    assert QtyOf(req, a.id) == QtyOf(req[..1], a.id) + b.cantidad;
    assert [a, b][..1] == [a];
  }

  datatype FalloLinea = SinStock(id: int) | SinPrecio

  /** One step of the pivot data: a line with a price extends it. */
  lemma PasoPivot(items: seq<ItemPedido>, i: int)
    requires 0 <= i < |items| && ConPrecios(items[..i]) && items[i].precio.Some?
    ensures ConPrecios(items[..i + 1])
    ensures PivotPorId(items[..i + 1]) == PivotPorId(items[..i])[items[i].id :=
      LineaCarrito(items[i].cantidad, items[i].precio.value,
                   if items[i].descuento.Some? then items[i].descuento.value else 0.0)]
  {
    assert items[..i + 1][..i] == items[..i];
    assert forall j :: 0 <= j < i ==> items[..i + 1][j] == items[..i][j];
  }

  /** A line without a price means the request is not fully priced. */
  lemma SinPrecioFalla(items: seq<ItemPedido>, i: int)
    requires 0 <= i < |items| && items[i].precio.None?
    ensures !ConPrecios(items)
  {
  }

  /** The `foreach` of `crear`: each product is re-read (under its row
      lock) after the earlier lines' decrements, checked, decremented, and
      its pivot data prepared; a line without `precio` raises an error
      after its decrement. The rows written stay in the locals until the
      caller commits. */
  method DescontarStock(productos0: map<int, Producto>, items: seq<ItemPedido>)
    returns (fallo: Option<FalloLinea>, productos: map<int, Producto>, adjuntar: map<int, LineaCarrito>)
    requires forall i :: 0 <= i < |items| ==> items[i].id in productos0 && items[i].cantidad >= 1
    ensures fallo.None? <==> HayStock(productos0, SolicitudesDe(items)) && ConPrecios(items)
    ensures fallo.Some? && fallo.value.SinStock? ==>
      fallo.value.id in productos0 && QtyOf(SolicitudesDe(items), fallo.value.id) > productos0[fallo.value.id].unidades
    ensures fallo == Some(SinPrecio) ==> !ConPrecios(items)
    ensures fallo.None? ==> productos == StockTras(productos0, SolicitudesDe(items)) && adjuntar == PivotPorId(items)
  {
    var req := SolicitudesDe(items);
    productos, adjuntar := productos0, map[];
    var i := 0;
    while i < |items|
      invariant 0 <= i <= |items|
      invariant productos == StockTras(productos0, req[..i])
      invariant HayStock(productos0, req[..i])
      invariant ConPrecios(items[..i]) && adjuntar == PivotPorId(items[..i])
    {
      var item := items[i];
      var producto := productos[item.id];
      Paso(productos0, req, i);
      QtyOfSnoc(req, i, item.id);
      if producto.unidades < item.cantidad {
        Falla(productos0, req, i);
        return Some(SinStock(item.id)), productos, adjuntar;
      }
      productos := productos[item.id := producto.(unidades := producto.unidades - item.cantidad)];
      if item.precio.None? {
        SinPrecioFalla(items, i);
        return Some(SinPrecio), productos, adjuntar;
      }
      PasoPivot(items, i);
      adjuntar := adjuntar[item.id := LineaCarrito(item.cantidad, item.precio.value,
                                                   if item.descuento.Some? then item.descuento.value else 0.0)];
      i := i + 1;
    }
    assert req[..|items|] == req && items[..|items|] == items;
    fallo := None;
  }

  datatype ErrorCrear = DatosInvalidos | StockAgotado(id: int) | ErrorInesperado | ErrorNoCapturado

  /** `crear` as written: `Pedido` is used without being imported, so once
      every line passes, `Pedido::create` raises an `Error` that
      `catch (\Exception)` does not catch. The request ends with a server
      error and the open transaction is never committed: no checkout
      through this action ever takes effect. */
  method CrearEscrito(productos: map<int, Producto>, items: seq<ItemPedido>, total: real) returns (r: Result<(), ErrorCrear>)
    ensures r.Err?
    ensures r == Err(DatosInvalidos) <==> !PeticionValida(productos, items, total)
    ensures r == Err(ErrorNoCapturado) <==>
      PeticionValida(productos, items, total) && HayStock(productos, SolicitudesDe(items)) && ConPrecios(items)
  {
    if !PeticionValida(productos, items, total) {
      return Err(DatosInvalidos);
    }
    var fallo, _, _ := DescontarStock(productos, items);
    if fallo.Some? {
      return if fallo.value.SinStock? then Err(StockAgotado(fallo.value.id)) else Err(ErrorInesperado);
    }
    // Pedido::create: class not found, thrown past the catch
    return Err(ErrorNoCapturado);
  }

  /** The commit of `crear`: the decremented products, the order and its
      pivot rows, and the buyer's cart deleted. */
  method GuardarPedido(db: Database, productos: map<int, Producto>, pedido: PedidoCarrito)
    requires db.Valid()
    requires productos.Keys == db.productos.Keys && forall p :: p in productos ==> productos[p].id == p
    modifies db
    ensures db.Valid()
    ensures db.productos == productos && db.pedidosCarrito == old(db.pedidosCarrito) + [pedido]
    ensures db.carritos == old(db.carritos) - {pedido.userId}
    ensures db.imagenes == old(db.imagenes) && db.pedidos == old(db.pedidos) && db.users == old(db.users)
    ensures db.planes == old(db.planes) && db.pagos == old(db.pagos) && db.justificantes == old(db.justificantes)
    ensures db.nextId == old(db.nextId)
  {
    db.productos, db.pedidosCarrito, db.carritos := productos, db.pedidosCarrito + [pedido], db.carritos - {pedido.userId};
  }

  /** `crear` with `Pedido` imported: the committed transaction stores the
      decremented stock, an order with the client's total verbatim and
      the pivot lines keyed by product, and deletes the user's cart. */
  method Crear(db: Database, userId: int, items: seq<ItemPedido>, total: real, fault: bool) returns (r: Result<(), ErrorCrear>)
    requires db.Valid()
    modifies db
    ensures db.Valid()
    ensures r == Err(DatosInvalidos) <==> !PeticionValida(old(db.productos), items, total)
    ensures r.Ok? <==>
      PeticionValida(old(db.productos), items, total) && HayStock(old(db.productos), SolicitudesDe(items))
      && ConPrecios(items) && !fault
    ensures r.Err? ==> (db.productos == old(db.productos) && db.pedidosCarrito == old(db.pedidosCarrito)
                        && db.carritos == old(db.carritos))
    ensures r.Ok? ==>
      db.productos == StockTras(old(db.productos), SolicitudesDe(items))
      && db.pedidosCarrito == old(db.pedidosCarrito) + [PedidoCarrito(userId, total, PivotPorId(items))]
      && db.carritos == old(db.carritos) - {userId}
    ensures db.imagenes == old(db.imagenes) && db.pedidos == old(db.pedidos) && db.users == old(db.users)
    ensures db.planes == old(db.planes) && db.pagos == old(db.pagos) && db.justificantes == old(db.justificantes)
    ensures db.nextId == old(db.nextId)
  {
    if !PeticionValida(db.productos, items, total) {
      return Err(DatosInvalidos);
    }
    var fallo, productos, adjuntar := DescontarStock(db.productos, items);
    if fallo.Some? {
      return if fallo.value.SinStock? then Err(StockAgotado(fallo.value.id)) else Err(ErrorInesperado);
    }
    if fault {
      return Err(ErrorInesperado);
    }
    GuardarPedido(db, productos, PedidoCarrito(userId, total, adjuntar));
    r := Ok(());
  }
}
