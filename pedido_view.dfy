/** The order confirmation page (`Pedido.jsx`): the status shown for the
    order's two flags, and each line's subtotal from the price snapshot kept
    on the order/product pivot. */
module PedidoVista {
  import opened Common
  import opened Schema
  import opened Pedidos

  datatype ColorEstado = Verde | Rojo | Amarillo | Gris

  /** The status banner: its text and colour. */
  datatype EstadoVisual = EstadoVisual(texto: string, color: ColorEstado)

  /** `getEstadoPedido`: paid and delivered is green, delivered but unpaid
      red, paid but not delivered yellow, neither gray. */
  function GetEstadoPedido(pagado: bool, entregado: bool): (e: EstadoVisual)
    ensures e.color == Verde <==> pagado && entregado
    ensures e.color == Rojo <==> entregado && !pagado
    ensures e.color == Amarillo <==> pagado && !entregado
    ensures e.color == Gris <==> !pagado && !entregado
  {
    if pagado && entregado then EstadoVisual("Pagado y Entregado", Verde)
    else if entregado && !pagado then EstadoVisual("Entregado, Pago Pendiente", Rojo)
    else if pagado && !entregado then EstadoVisual("Pagado, Pendiente de Envío", Amarillo)
    else EstadoVisual("Pendiente de Pago y Envío", Gris)
  }

  /** Each combination of the flags has its own status, so the banner tells
      the flags apart; paying or delivering an order moves its banner along
      the table: toggling `pagado` swaps green with red and yellow with
      gray, toggling `entregado` swaps green with yellow and red with gray. */
  lemma EstadoDistingueFlags(p: Pedido, q: Pedido)
    ensures GetEstadoPedido(p.pagado, p.entregado) == GetEstadoPedido(q.pagado, q.entregado)
            <==> p.pagado == q.pagado && p.entregado == q.entregado
    ensures var antes := GetEstadoPedido(p.pagado, p.entregado).color;
      var despues := GetEstadoPedido(FlipPagado(p).pagado, FlipPagado(p).entregado).color;
      (antes == Verde <==> despues == Rojo) && (antes == Amarillo <==> despues == Gris)
    ensures var antes := GetEstadoPedido(p.pagado, p.entregado).color;
      var despues := GetEstadoPedido(FlipEntregado(p).pagado, FlipEntregado(p).entregado).color;
      (antes == Verde <==> despues == Amarillo) && (antes == Rojo <==> despues == Gris)
  {
  }

  /** A line as the page receives it: the pivot's quantity, price paid and
      discount applied, which may be null. */
  datatype LineaVista = LineaVista(
    productoId: int, cantidad: int, precioPagado: Option<real>, descuentoAplicado: Option<real>)

  /** `(pivot.precio_pagado || 0) * pivot.cantidad`. */
  function SubtotalVista(l: LineaVista): (s: real)
    ensures l.precioPagado.None? ==> s == 0.0
    ensures l.precioPagado.Some? ==> s == l.precioPagado.value * l.cantidad as real
  {
    var precio := if l.precioPagado.None? then 0.0 else l.precioPagado.value;
    precio * l.cantidad as real
  }

  /** `pedido?.precio_total || 0`. */
  function TotalMostrado(precioTotal: Option<real>): real
  {
    if precioTotal.None? then 0.0 else precioTotal.value
  }

  /** The line the page receives for a stored pivot row. */
  function VistaDe(l: LineaPedido): LineaVista
  {
    LineaVista(l.productoId, l.cantidad, Some(l.precioPagado), Some(l.descuentoAplicado))
  }

  function Vistas(lineas: seq<LineaPedido>): (r: seq<LineaVista>)
    ensures |r| == |lineas|
  {
    seq(|lineas|, i requires 0 <= i < |lineas| => VistaDe(lineas[i]))
  }

  /** The sum of the subtotals the page shows, one per line. */
  function SumaSubtotales(ls: seq<LineaVista>): real
  {
    if ls == [] then 0.0 else SumaSubtotales(ls[..|ls| - 1]) + SubtotalVista(ls[|ls| - 1])
  }

  /** Each subtotal the page shows is the one the server added up. */
  lemma {:induction false} SumaSubtotalesVistas(lineas: seq<LineaPedido>)
    ensures SumaSubtotales(Vistas(lineas)) == Sum(Subtotales(lineas))
  {
    if lineas != [] {
      var n := |lineas| - 1;
      assert Vistas(lineas)[..n] == Vistas(lineas[..n]);
      SumaSubtotalesVistas(lineas[..n]);
      var s := Subtotales(lineas);
      assert s == Subtotales(lineas[..n]) + [Subtotal(lineas[n])];
      assert s[..|s| - 1] == Subtotales(lineas[..n]);
    }
  }

  /** For an order recorded by `PedidoController::crear`, whose total is
      the sum of its line subtotals, the total the page shows is the sum of
      the subtotals it lists. */
  lemma TotalMostradoEsSumaDeLineas(p: Pedido)
    requires p.precioTotal == Sum(Subtotales(p.lineas))
    ensures TotalMostrado(Some(p.precioTotal)) == SumaSubtotales(Vistas(p.lineas))
  {
    SumaSubtotalesVistas(p.lineas);
  }
}
