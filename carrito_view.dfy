/** The cart page (`Carrito.jsx`): its state is the list of lines and the
    total received from `CarritoController::index`, the product chosen for
    removal and the two modals. The handlers' effects on that state after
    the server answers are old-state to new-state functions. */
module CarritoVista {
  import opened Common
  import opened Carrito

  datatype EstadoCarrito = EstadoCarrito(
    lineas: seq<LineaIndex>,
    total: real,
    seleccionado: Option<int>,   // productoAEliminar
    modalAbierto: bool,
    modalPedidoAbierto: bool)

  /** The page right after it loads. */
  function Inicial(v: VistaCarrito): (s: EstadoCarrito)
    ensures s.lineas == v.productos && s.total == v.total && s.seleccionado.None?
  {
    EstadoCarrito(v.productos, v.total, None, false, false)
  }

  /** `abrirModal(productoId)`. */
  function AbrirModal(s: EstadoCarrito, id: int): (r: EstadoCarrito)
    ensures r.seleccionado == Some(id) && r.modalAbierto
    ensures r.lineas == s.lineas && r.total == s.total
  {
    s.(seleccionado := Some(id), modalAbierto := true)
  }

  /** `cerrarModal`: clears the selection and closes the modal. */
  function CerrarModal(s: EstadoCarrito): (r: EstadoCarrito)
    ensures r.seleccionado.None? && !r.modalAbierto
    ensures r.lineas == s.lineas && r.total == s.total && r.modalPedidoAbierto == s.modalPedidoAbierto
  {
    s.(seleccionado := None, modalAbierto := false)
  }

  /** `!productoAEliminar`: nothing selected, or the falsy id 0. */
  predicate SinSeleccion(s: EstadoCarrito)
  {
    s.seleccionado.None? || s.seleccionado.value == 0
  }

  /** `prev.filter(p => p.id !== id)`. */
  function SinLinea(ls: seq<LineaIndex>, id: int): (r: seq<LineaIndex>)
    ensures forall i :: 0 <= i < |r| ==> r[i].id != id
    ensures |r| <= |ls|
  {
    if ls == [] then []
    else
      var resto := SinLinea(ls[1..], id);
      if ls[0].id == id then resto
      else
        var r := [ls[0]] + resto;
        assert forall i :: 1 <= i < |r| ==> r[i] == resto[i - 1];
        r
  }

  /** `productosEnCarrito.find(p => p.id === id)`. */
  function BuscarLinea(ls: seq<LineaIndex>, id: int): (r: Option<nat>)
    ensures r.Some? ==> r.value < |ls| && ls[r.value].id == id
                        && forall i :: 0 <= i < r.value ==> ls[i].id != id
    ensures r.None? ==> forall i :: 0 <= i < |ls| ==> ls[i].id != id
  {
    if ls == [] then None
    else if ls[0].id == id then Some(0)
    else
      var r := BuscarLinea(ls[1..], id);
      assert forall i :: 1 <= i < |ls| ==> ls[i] == ls[1..][i - 1];
      if r.None? then None else Some(r.value + 1)
  }

  /** `eliminarProducto` once the server has answered `success` (`exito`)
      or not: on success the line goes, the total drops by its subtotal
      (or by 0 when it is not listed) and the modal closes; otherwise, or
      with nothing selected, the state stays as it was. */
  function TrasEliminar(s: EstadoCarrito, exito: bool): (r: EstadoCarrito)
    ensures SinSeleccion(s) || !exito ==> r == s
    ensures !SinSeleccion(s) && exito ==>
      r.seleccionado.None? && !r.modalAbierto
      && forall i :: 0 <= i < |r.lineas| ==> r.lineas[i].id != s.seleccionado.value
  {
    if SinSeleccion(s) || !exito then s
    else
      var id := s.seleccionado.value;
      var encontrado := BuscarLinea(s.lineas, id);
      var restar := if encontrado.Some? then s.lineas[encontrado.value].subtotal else 0.0;
      CerrarModal(s.(lineas := SinLinea(s.lineas, id), total := s.total - restar))
  }

  /** `realizarPedidoHandler` after the server's answer: success empties
      the cart and closes the confirmation; failure changes nothing. */
  function TrasPedido(s: EstadoCarrito, exito: bool): (r: EstadoCarrito)
    ensures exito ==> r.lineas == [] && r.total == 0.0 && !r.modalPedidoAbierto
    ensures !exito ==> r == s
  {
    if exito then s.(lineas := [], total := 0.0, modalPedidoAbierto := false) else s
  }

  /** The page's line ids are unique (one line per pivot row). */
  predicate IdsUnicos(ls: seq<LineaIndex>)
  {
    forall i, j :: 0 <= i < j < |ls| ==> ls[i].id != ls[j].id
  }

  lemma {:induction false} SinLineaAusente(ls: seq<LineaIndex>, id: int)
    requires forall i :: 0 <= i < |ls| ==> ls[i].id != id
    ensures SinLinea(ls, id) == ls
  {
    if ls != [] {
      assert forall i :: 0 <= i < |ls[1..]| ==> ls[1..][i] == ls[i + 1];
      SinLineaAusente(ls[1..], id);
    }
  }

  /** Removing the only line with an id deletes that position and keeps
      the other lines in their order. */
  lemma {:induction false} SinLineaBorra(ls: seq<LineaIndex>, k: int)
    requires 0 <= k < |ls|
    requires forall i :: 0 <= i < |ls| && i != k ==> ls[i].id != ls[k].id
    ensures SinLinea(ls, ls[k].id) == ls[..k] + ls[k + 1..]
  {
    if k == 0 {
      SinLineaAusente(ls[1..], ls[0].id);
    } else {
      assert forall i :: 0 <= i < |ls[1..]| ==> ls[1..][i] == ls[i + 1];
      SinLineaBorra(ls[1..], k - 1);
      assert ls[1..][..k - 1] == ls[1..k] && ls[1..][k..] == ls[k + 1..];
      assert [ls[0]] + ls[1..k] == ls[..k];
    }
  }

  lemma {:induction false} TotalIndexAppend(a: seq<LineaIndex>, b: seq<LineaIndex>)
    ensures TotalIndex(a + b) == TotalIndex(a) + TotalIndex(b)
  {
    if b != [] {
      var n := |b| - 1;
      assert (a + b)[..|a + b| - 1] == a + b[..n];
      TotalIndexAppend(a, b[..n]);
    } else {
      assert a + b == a;
    }
  }

  /** A successful removal of a listed product deletes exactly its line and
      takes its subtotal off the total; an unlisted product leaves lines and
      total alone. So a total that was the sum of the subtotals stays so. */
  lemma EliminarConservaTotal(s: EstadoCarrito)
    requires !SinSeleccion(s) && IdsUnicos(s.lineas)
    ensures var r := TrasEliminar(s, true);
      var k := BuscarLinea(s.lineas, s.seleccionado.value);
      (k.Some? ==> r.lineas == s.lineas[..k.value] + s.lineas[k.value + 1..]
                   && r.total == s.total - s.lineas[k.value].subtotal)
      && (k.None? ==> r.lineas == s.lineas && r.total == s.total)
      && (s.total == TotalIndex(s.lineas) ==> r.total == TotalIndex(r.lineas))
  {
    var ls := s.lineas;
    var k := BuscarLinea(ls, s.seleccionado.value);
    if k.Some? {
      var j := k.value;
      SinLineaBorra(ls, j);
      assert ls == ls[..j] + [ls[j]] + ls[j + 1..];
      TotalIndexAppend(ls[..j] + [ls[j]], ls[j + 1..]);
      TotalIndexAppend(ls[..j], [ls[j]]);
      TotalIndexAppend(ls[..j], ls[j + 1..]);
      assert [ls[j]][..0] == [];
    } else {
      SinLineaAusente(ls, s.seleccionado.value);
    }
  }
}
