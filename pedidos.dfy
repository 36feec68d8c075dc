/** `PedidoController`: the checkout `crear`, which re-reads every product,
    checks its stock, snapshots its discounted price on the order line,
    decrements the stock and adds up the total on the server, all inside
    one transaction; and the administrator's `togglePagado` and
    `toggleEntregado`. */
module Pedidos {
  import opened Common
  import opened Dates
  import opened Schema

  /** One element of the `productos` array of the request. */
  datatype Solicitud = Solicitud(id: int, cantidad: int)

  /** `date_format:d/m/Y`: two-digit day and month, four-digit year, and a
      real calendar date (the format must read back unchanged). */
  predicate FechaEntregaValida(s: string)
  {
    IsDayMonthYear(s) && IsCalendarDate(DigitsValue(s[6..10]), DigitsValue(s[3..5]), DigitsValue(s[0..2]))
  }

  /** The day a valid `fecha_entrega` names, stored as `Y-m-d`. */
  function DiaEntrega(fecha: Option<string>): Option<int>
    requires fecha.Some? ==> FechaEntregaValida(fecha.value)
  {
    match fecha
    case None => None
    case Some(s) => Some(DaysFromCivil(DigitsValue(s[6..10]), DigitsValue(s[3..5]), DigitsValue(s[0..2])))
  }

  /** The request validation: a non-empty list of existing product ids
      with quantities of at least 1, a non-negative total and an optional
      delivery date. */
  predicate SolicitudValida(productos: map<int, Producto>, req: seq<Solicitud>, total: real, fecha: Option<string>)
  {
    |req| >= 1
    && (forall i :: 0 <= i < |req| ==> req[i].id in productos && req[i].cantidad >= 1)
    && total >= 0.0
    && (fecha.Some? ==> FechaEntregaValida(fecha.value))
  }

  /** Units of product `p` the request asks for, over all its lines. */
  function QtyOf(req: seq<Solicitud>, p: int): int
  {
    if req == [] then 0
    else QtyOf(req[..|req| - 1], p) + (if req[|req| - 1].id == p then req[|req| - 1].cantidad else 0)
  }

  /** Every product of the request has the stock for all the lines that ask for it. */
  predicate HayStock(productos: map<int, Producto>, req: seq<Solicitud>)
    requires forall i :: 0 <= i < |req| ==> req[i].id in productos
  {
    forall i :: 0 <= i < |req| ==> QtyOf(req, req[i].id) <= productos[req[i].id].unidades
  }

  /** The products after the request: each loses exactly the units asked for. */
  function StockTras(productos: map<int, Producto>, req: seq<Solicitud>): (r: map<int, Producto>)
    ensures r.Keys == productos.Keys
  {
    map p | p in productos :: productos[p].(unidades := productos[p].unidades - QtyOf(req, p))
  }

  /** The order line of request line `s`: the quantity, the product's
      current discount and its discounted unit price. */
  function LineaDe(productos: map<int, Producto>, s: Solicitud): LineaPedido
    requires s.id in productos
  {
    var prod := productos[s.id];
    LineaPedido(prod.id, s.cantidad, prod.descuento, PrecioConDescuento(prod.precio, prod.descuento))
  }

  /** The order lines of a request, one per request line, in order. */
  function Lineas(productos: map<int, Producto>, req: seq<Solicitud>): (r: seq<LineaPedido>)
    requires forall i :: 0 <= i < |req| ==> req[i].id in productos
    ensures |r| == |req|
  {
    seq(|req|, i requires 0 <= i < |req| => LineaDe(productos, req[i]))
  }

  /** `precio_pagado * cantidad` of a line. */
  function Subtotal(l: LineaPedido): real
  {
    l.precioPagado * l.cantidad as real
  }

  /** The subtotals of the lines, in order. */
  function Subtotales(lineas: seq<LineaPedido>): (r: seq<real>)
    ensures |r| == |lineas|
  {
    if lineas == [] then [] else Subtotales(lineas[..|lineas| - 1]) + [Subtotal(lineas[|lineas| - 1])]
  }

  datatype ErrorPedido = ValidacionFallida | SinSesion | StockInsuficiente(id: int) | FalloPersistencia

  // ---------------------------------------------------------------------
  // Facts the checkout loop relies on
  // ---------------------------------------------------------------------

  lemma QtyOfSnoc(req: seq<Solicitud>, i: int, p: int)
    requires 0 <= i < |req|
    ensures QtyOf(req[..i + 1], p) == QtyOf(req[..i], p) + (if req[i].id == p then req[i].cantidad else 0)
  {
    assert req[..i + 1][..i] == req[..i];
  }

  /** With non-negative quantities, a prefix never asks for more than the whole. */
  lemma {:induction false} QtyOfPrefix(req: seq<Solicitud>, k: int, p: int)
    requires 0 <= k <= |req|
    requires forall i :: 0 <= i < |req| ==> req[i].cantidad >= 0
    ensures QtyOf(req[..k], p) <= QtyOf(req, p)
    decreases |req| - k
  {
    if k < |req| {
      QtyOfSnoc(req, k, p);
      QtyOfPrefix(req, k + 1, p);
      assert req[..|req|] == req;
    } else {
      assert req[..k] == req;
    }
  }

  /** A product that no line asks for is asked for 0 units. */
  lemma {:induction false} QtyOfAbsent(req: seq<Solicitud>, p: int)
    requires forall i :: 0 <= i < |req| ==> req[i].id != p
    ensures QtyOf(req, p) == 0
  {
    if req != [] {
      QtyOfAbsent(req[..|req| - 1], p);
    }
  }

  lemma SubtotalesSnoc(lineas: seq<LineaPedido>, l: LineaPedido)
    ensures Sum(Subtotales(lineas + [l])) == Sum(Subtotales(lineas)) + Subtotal(l)
  {
    assert (lineas + [l])[..|lineas|] == lineas;
    assert Subtotales(lineas + [l]) == Subtotales(lineas) + [Subtotal(l)];
    assert (Subtotales(lineas) + [Subtotal(l)])[..|lineas|] == Subtotales(lineas);
  }

  /** One step of the checkout loop in terms of the closed forms: line `i`
      takes its units off the product, adds its order line and adds its
      subtotal, and passing its stock check extends `HayStock`. */
  lemma Paso(productos: map<int, Producto>, req: seq<Solicitud>, i: int)
    requires forall j :: 0 <= j < |req| ==> req[j].id in productos
    requires 0 <= i < |req|
    ensures var prev := StockTras(productos, req[..i]);
      var prod := prev[req[i].id];
      prod.unidades == productos[req[i].id].unidades - QtyOf(req[..i], req[i].id)
      && StockTras(productos, req[..i + 1]) == prev[req[i].id := prod.(unidades := prod.unidades - req[i].cantidad)]
    ensures Lineas(productos, req[..i + 1]) == Lineas(productos, req[..i]) + [LineaDe(productos, req[i])]
    ensures HayStock(productos, req[..i]) && QtyOf(req[..i + 1], req[i].id) <= productos[req[i].id].unidades
            ==> HayStock(productos, req[..i + 1])
  {
    forall p | p in productos
      ensures QtyOf(req[..i + 1], p) == QtyOf(req[..i], p) + (if req[i].id == p then req[i].cantidad else 0)
    {
      QtyOfSnoc(req, i, p);
    }
    var a := Lineas(productos, req[..i + 1]);
    var b := Lineas(productos, req[..i]) + [LineaDe(productos, req[i])];
    assert forall j :: 0 <= j < |a| ==> a[j] == b[j];
    if HayStock(productos, req[..i]) && QtyOf(req[..i + 1], req[i].id) <= productos[req[i].id].unidades {
      var q := req[..i + 1];
      forall j | 0 <= j < |q| ensures QtyOf(q, q[j].id) <= productos[q[j].id].unidades {
        if j < i {
          assert q[j] == req[..i][j];
        }
      }
    }
  }

  /** A line that fails its stock check shows that the whole request asks
      for more than the product has. */
  lemma Falla(productos: map<int, Producto>, req: seq<Solicitud>, i: int)
    requires forall j :: 0 <= j < |req| ==> req[j].id in productos && req[j].cantidad >= 0
    requires 0 <= i < |req|
    requires QtyOf(req[..i + 1], req[i].id) > productos[req[i].id].unidades
    ensures !HayStock(productos, req)
    ensures QtyOf(req, req[i].id) > productos[req[i].id].unidades
  {
    QtyOfPrefix(req, i + 1, req[i].id);
  }

  // ---------------------------------------------------------------------
  // crear
  // ---------------------------------------------------------------------

  /** `crear` for the session user `userId` (`None` when nobody is logged
      in). `fault` stands for any exception inside the transaction, which
      is then rolled back. The request's `total` is validated and ignored. */
  method Crear(db: Database, userId: Option<int>, req: seq<Solicitud>, total: real, fecha: Option<string>, fault: bool)
    returns (r: Result<int, ErrorPedido>)
    requires db.Valid()
    modifies db
    ensures db.Valid()
    ensures r == Err(ValidacionFallida) <==> !SolicitudValida(old(db.productos), req, total, fecha)
    ensures r == Err(SinSesion) <==> SolicitudValida(old(db.productos), req, total, fecha) && userId.None?
    ensures (r.Err? && r.error.StockInsuficiente?) <==>
      SolicitudValida(old(db.productos), req, total, fecha) && userId.Some? && !HayStock(old(db.productos), req)
    ensures r.Err? && r.error.StockInsuficiente? ==>
      r.error.id in old(db.productos) && QtyOf(req, r.error.id) > old(db.productos)[r.error.id].unidades
    ensures r == Err(FalloPersistencia) <==>
      SolicitudValida(old(db.productos), req, total, fecha) && userId.Some? && HayStock(old(db.productos), req) && fault
    ensures r.Err? ==> (db.productos == old(db.productos) && db.pedidos == old(db.pedidos)
                        && db.carritos == old(db.carritos) && db.nextId == old(db.nextId))
    ensures r.Ok? ==>
      var lineas := Lineas(old(db.productos), req);
      r.value == old(db.nextId) && db.nextId == old(db.nextId) + 1
      && db.productos == StockTras(old(db.productos), req)
      && db.pedidos == old(db.pedidos)[r.value := Pedido(userId.value, Sum(Subtotales(lineas)), false, false, DiaEntrega(fecha), lineas)]
      && db.carritos == old(db.carritos) - {userId.value}
    ensures db.imagenes == old(db.imagenes) && db.pedidosCarrito == old(db.pedidosCarrito)
    ensures db.users == old(db.users) && db.planes == old(db.planes) && db.pagos == old(db.pagos)
    ensures db.justificantes == old(db.justificantes)
  {
    if !SolicitudValida(db.productos, req, total, fecha) {
      return Err(ValidacionFallida);
    }
    if userId.None? {
      return Err(SinSesion);
    }
    var user := userId.value;
    // DB::beginTransaction: the rows the transaction writes are kept in
    // locals and reach `db` only at commit, which is what a rollback means
    var id := db.nextId;
    var fallo, productos, lineas, totalCarrito := AdjuntarLineas(db.productos, req);
    if fallo.Some? {
      return Err(StockInsuficiente(fallo.value));
    }
    if fault {
      return Err(FalloPersistencia);
    }
    Confirmar(db, productos, Pedido(user, totalCarrito, false, false, DiaEntrega(fecha), lineas));
    r := Ok(id);
  }

  /** The commit of `crear`: the decremented products, the new order under
      the next id, and the buyer's cart deleted. */
  method Confirmar(db: Database, productos: map<int, Producto>, pedido: Pedido)
    requires db.Valid()
    requires productos.Keys == db.productos.Keys && forall p :: p in productos ==> productos[p].id == p
    modifies db
    ensures db.Valid()
    ensures db.productos == productos && db.pedidos == old(db.pedidos)[old(db.nextId) := pedido]
    ensures db.nextId == old(db.nextId) + 1 && db.carritos == old(db.carritos) - {pedido.userId}
    ensures db.imagenes == old(db.imagenes) && db.pedidosCarrito == old(db.pedidosCarrito)
    ensures db.users == old(db.users) && db.planes == old(db.planes) && db.pagos == old(db.pagos)
    ensures db.justificantes == old(db.justificantes)
  {
    db.productos, db.pedidos, db.nextId, db.carritos :=
      productos, db.pedidos[db.nextId := pedido], db.nextId + 1, db.carritos - {pedido.userId};
  }

  /** The `foreach` of `crear` over the request lines: it re-reads each
      product, stops at the first line whose product lacks the stock,
      and otherwise decrements the product, appends the order line and
      adds the line's subtotal. On success every product has lost the
      units asked for, there is one line per request line and the total
      is the sum of the line subtotals. */
  method AdjuntarLineas(productos0: map<int, Producto>, req: seq<Solicitud>)
    returns (fallo: Option<int>, productos: map<int, Producto>, lineas: seq<LineaPedido>, totalCarrito: real)
    requires forall i :: 0 <= i < |req| ==> req[i].id in productos0 && req[i].cantidad >= 1
    ensures fallo.None? <==> HayStock(productos0, req)
    ensures fallo.Some? ==> fallo.value in productos0 && QtyOf(req, fallo.value) > productos0[fallo.value].unidades
    ensures fallo.None? ==>
      productos == StockTras(productos0, req) && lineas == Lineas(productos0, req)
      && totalCarrito == Sum(Subtotales(lineas))
  {
    productos, lineas, totalCarrito := productos0, [], 0.0;
    var i := 0;
    while i < |req|
      invariant 0 <= i <= |req|
      invariant productos == StockTras(productos0, req[..i])
      invariant HayStock(productos0, req[..i])
      invariant lineas == Lineas(productos0, req[..i])
      invariant totalCarrito == Sum(Subtotales(lineas))
    {
      var s := req[i];
      // `exists:productos,id` was validated and no row is deleted here, so
      // the "product does not exist" branch cannot be taken
      assert s.id in productos;
      var prod := productos[s.id];
      Paso(productos0, req, i);
      QtyOfSnoc(req, i, s.id);
      if prod.unidades < s.cantidad {
        Falla(productos0, req, i);
        return Some(s.id), productos, lineas, totalCarrito;
      }
      var precioConDescuento := prod.precio - prod.precio * (prod.descuento / 100.0);
      var subtotal := precioConDescuento * s.cantidad as real;
      var linea := LineaPedido(prod.id, s.cantidad, prod.descuento, precioConDescuento);
      assert linea == LineaDe(productos0, s);
      SubtotalesSnoc(lineas, linea);
      totalCarrito := totalCarrito + subtotal;
      lineas := lineas + [linea];
      productos := productos[s.id := prod.(unidades := prod.unidades - s.cantidad)];
      i := i + 1;
    }
    assert req[..|req|] == req;
    fallo := None;
  }

  // ---------------------------------------------------------------------
  // Properties of a committed checkout
  // ---------------------------------------------------------------------

  /** Stock never goes negative: every product a committed request asks
      for keeps a non-negative count, and every other product keeps its
      row unchanged. */
  lemma StockNoNegativo(productos: map<int, Producto>, req: seq<Solicitud>)
    requires forall i :: 0 <= i < |req| ==> req[i].id in productos
    requires HayStock(productos, req)
    ensures forall i :: 0 <= i < |req| ==> StockTras(productos, req)[req[i].id].unidades >= 0
    ensures forall p :: p in productos && (forall i :: 0 <= i < |req| ==> req[i].id != p) ==>
      StockTras(productos, req)[p] == productos[p]
  {
    forall p | p in productos && (forall i :: 0 <= i < |req| ==> req[i].id != p)
      ensures StockTras(productos, req)[p] == productos[p]
    {
      QtyOfAbsent(req, p);
    }
  }

  /** Each order line snapshots the product as it was when the request
      came in: its id, the requested quantity, its discount, and its
      discounted price, which lies between 0 and the list price. */
  lemma LineaSnapshot(productos: map<int, Producto>, req: seq<Solicitud>, i: int)
    requires forall j :: 0 <= j < |req| ==> req[j].id in productos
    requires 0 <= i < |req|
    requires productos[req[i].id].precio >= 0.0 && 0.0 <= productos[req[i].id].descuento <= 100.0
    requires productos[req[i].id].id == req[i].id
    ensures var l := Lineas(productos, req)[i];
      l.productoId == req[i].id && l.cantidad == req[i].cantidad
      && l.descuentoAplicado == productos[req[i].id].descuento
      && 0.0 <= l.precioPagado <= productos[req[i].id].precio
  {
    PrecioConDescuentoBounds(productos[req[i].id].precio, productos[req[i].id].descuento);
  }

  /** List price times quantity of every request line. */
  function PreciosDeLista(productos: map<int, Producto>, req: seq<Solicitud>): (r: seq<real>)
    requires forall i :: 0 <= i < |req| ==> req[i].id in productos
    ensures |r| == |req|
  {
    if req == [] then []
    else PreciosDeLista(productos, req[..|req| - 1]) + [productos[req[|req| - 1].id].precio * req[|req| - 1].cantidad as real]
  }

  lemma MulMonotone(a: real, b: real, c: real)
    requires 0.0 <= a <= b && c >= 0.0
    ensures 0.0 <= a * c <= b * c
  {
  }

  /** The last request line adds its subtotal to the order total. */
  lemma SubtotalesUltima(productos: map<int, Producto>, req: seq<Solicitud>)
    requires forall i :: 0 <= i < |req| ==> req[i].id in productos
    requires |req| > 0
    ensures Sum(Subtotales(Lineas(productos, req)))
         == Sum(Subtotales(Lineas(productos, req[..|req| - 1]))) + Subtotal(LineaDe(productos, req[|req| - 1]))
  {
    var n := |req| - 1;
    Paso(productos, req, n);
    assert req[..n + 1] == req;
    SubtotalesSnoc(Lineas(productos, req[..n]), LineaDe(productos, req[n]));
  }

  /** The last request line adds its list price to the undiscounted total. */
  lemma PreciosUltima(productos: map<int, Producto>, req: seq<Solicitud>)
    requires forall i :: 0 <= i < |req| ==> req[i].id in productos
    requires |req| > 0
    ensures Sum(PreciosDeLista(productos, req))
         == Sum(PreciosDeLista(productos, req[..|req| - 1])) + productos[req[|req| - 1].id].precio * req[|req| - 1].cantidad as real
  {
    var lista := PreciosDeLista(productos, req);
    assert lista[..|req| - 1] == PreciosDeLista(productos, req[..|req| - 1]);
  }

  /** With prices at least 0, discounts between 0 and 100 percent and
      quantities at least 1, the order total lies between 0 and the
      undiscounted total. */
  lemma {:induction false} TotalAcotado(productos: map<int, Producto>, req: seq<Solicitud>)
    requires forall i :: 0 <= i < |req| ==> req[i].id in productos && req[i].cantidad >= 1
    requires forall p :: p in productos ==> productos[p].precio >= 0.0 && 0.0 <= productos[p].descuento <= 100.0
    ensures 0.0 <= Sum(Subtotales(Lineas(productos, req))) <= Sum(PreciosDeLista(productos, req))
  {
    if req != [] {
      var n := |req| - 1;
      TotalAcotado(productos, req[..n]);
      SubtotalesUltima(productos, req);
      PreciosUltima(productos, req);
      var prod := productos[req[n].id];
      PrecioConDescuentoBounds(prod.precio, prod.descuento);
      MulMonotone(PrecioConDescuento(prod.precio, prod.descuento), prod.precio, req[n].cantidad as real);
    }
  }

  // ---------------------------------------------------------------------
  // togglePagado / toggleEntregado
  // ---------------------------------------------------------------------

  function FlipPagado(p: Pedido): (q: Pedido)
    ensures q.pagado == !p.pagado && q.entregado == p.entregado
    ensures q.(pagado := p.pagado) == p
  {
    p.(pagado := !p.pagado)
  }

  function FlipEntregado(p: Pedido): (q: Pedido)
    ensures q.entregado == !p.entregado && q.pagado == p.pagado
    ensures q.(entregado := p.entregado) == p
  {
    p.(entregado := !p.entregado)
  }

  /** Each toggle undoes itself, and the two toggles commute. */
  lemma TogglesInvolutive(p: Pedido)
    ensures FlipPagado(FlipPagado(p)) == p && FlipEntregado(FlipEntregado(p)) == p
    ensures FlipPagado(FlipEntregado(p)) == FlipEntregado(FlipPagado(p))
  {
  }

  datatype ErrorToggle = NoEncontrado

  /** `togglePagado`: `findOrFail` answers 404 for a missing order. */
  method TogglePagado(db: Database, id: int) returns (r: Result<Pedido, ErrorToggle>)
    requires db.Valid()
    modifies db
    ensures db.Valid()
    ensures r.Err? <==> id !in old(db.pedidos)
    ensures r.Err? ==> db.pedidos == old(db.pedidos)
    ensures r.Ok? ==> r.value == FlipPagado(old(db.pedidos)[id]) && db.pedidos == old(db.pedidos)[id := r.value]
    ensures db.productos == old(db.productos) && db.imagenes == old(db.imagenes) && db.carritos == old(db.carritos)
    ensures db.pedidosCarrito == old(db.pedidosCarrito) && db.users == old(db.users) && db.planes == old(db.planes)
    ensures db.pagos == old(db.pagos) && db.justificantes == old(db.justificantes) && db.nextId == old(db.nextId)
  {
    if id !in db.pedidos {
      return Err(NoEncontrado);
    }
    var pedido := db.pedidos[id];
    pedido := pedido.(pagado := !pedido.pagado);
    db.pedidos := db.pedidos[id := pedido];
    r := Ok(pedido);
  }

  /** `toggleEntregado`: the same for the delivered flag. */
  method ToggleEntregado(db: Database, id: int) returns (r: Result<Pedido, ErrorToggle>)
    requires db.Valid()
    modifies db
    ensures db.Valid()
    ensures r.Err? <==> id !in old(db.pedidos)
    ensures r.Err? ==> db.pedidos == old(db.pedidos)
    ensures r.Ok? ==> r.value == FlipEntregado(old(db.pedidos)[id]) && db.pedidos == old(db.pedidos)[id := r.value]
    ensures db.productos == old(db.productos) && db.imagenes == old(db.imagenes) && db.carritos == old(db.carritos)
    ensures db.pedidosCarrito == old(db.pedidosCarrito) && db.users == old(db.users) && db.planes == old(db.planes)
    ensures db.pagos == old(db.pagos) && db.justificantes == old(db.justificantes) && db.nextId == old(db.nextId)
  {
    if id !in db.pedidos {
      return Err(NoEncontrado);
    }
    var pedido := db.pedidos[id];
    pedido := pedido.(entregado := !pedido.entregado);
    db.pedidos := db.pedidos[id := pedido];
    r := Ok(pedido);
  }

  /** Toggling the same order twice restores the orders table. */
  lemma ToggleTwiceRestores(pedidos: map<int, Pedido>, id: int)
    requires id in pedidos
    ensures var m := pedidos[id := FlipPagado(pedidos[id])];
      m[id := FlipPagado(m[id])] == pedidos
    ensures var m := pedidos[id := FlipEntregado(pedidos[id])];
      m[id := FlipEntregado(m[id])] == pedidos
  {
    TogglesInvolutive(pedidos[id]);
  }
}
