/** The offer card (`ProductoOferta.jsx`): the buy button and the discount
    block it shows, with its own reading of the session user's locker. */
module ProductoOferta {
  import opened Common
  import opened Schema
  import ProductoCard

  /** `user?.numeroTaquilla || 0`. */
  function NumeroTaquilla(user: Option<User>): (n: int)
    ensures user.None? || user.value.numeroTaquilla.None? ==> n == 0
    ensures user.Some? && user.value.numeroTaquilla.Some? ==> n == user.value.numeroTaquilla.value
  {
    if user.Some? && user.value.numeroTaquilla.Some? then user.value.numeroTaquilla.value else 0
  }

  /** The three buttons: enabled "Agregar al carrito", disabled "Producto
      agotado", and the disabled button with the locker tooltip. */
  datatype BotonOferta = Agregar | ProductoAgotado | SinTaquilla

  /** The button: a user with a positive locker number gets "Producto
      agotado" when `unidades === 0` and the enabled button otherwise;
      anybody else gets the disabled button with the tooltip. */
  function BotonDe(user: Option<User>, unidades: int): (b: BotonOferta)
    ensures b == Agregar <==> user.Some? && NumeroTaquilla(user) > 0 && unidades != 0
    ensures b == ProductoAgotado <==> user.Some? && NumeroTaquilla(user) > 0 && unidades == 0
    ensures b == SinTaquilla <==> user.None? || NumeroTaquilla(user) <= 0
  {
    if user.Some? && NumeroTaquilla(user) > 0 then (if unidades == 0 then ProductoAgotado else Agregar)
    else SinTaquilla
  }

  /** The two cards agree on who may buy except for a negative locker
      number, which the shop card accepts and the offer card refuses; the
      sold-out state is the same on both. */
  lemma CompararConTarjeta(user: Option<User>, unidades: int)
    ensures BotonDe(user, unidades) == Agregar ==> ProductoCard.Habilitado(ProductoCard.BotonDe(user, unidades))
    ensures ProductoCard.Habilitado(ProductoCard.BotonDe(user, unidades)) && BotonDe(user, unidades) != Agregar
            <==> user.Some? && user.value.numeroTaquilla.Some? && user.value.numeroTaquilla.value < 0 && unidades != 0
    ensures BotonDe(user, unidades) == ProductoAgotado ==> ProductoCard.BotonDe(user, unidades) == ProductoCard.Agotado
  {
  }

  /** The discount block beside the price: the "% OFF" badge and the
      discounted price. */
  datatype Oferta = Oferta(porcentaje: int, precio: real)

  /** The block is drawn only for a discount above 0; the badge shows the
      whole part of the percentage and the price is the list price less
      that percentage. */
  function OfertaMostrada(precio: real, descuento: real): (r: Option<Oferta>)
    ensures r.Some? <==> descuento > 0.0
    ensures r.Some? ==> r.value.porcentaje as real <= descuento < r.value.porcentaje as real + 1.0
    ensures r.Some? && precio >= 0.0 && descuento <= 100.0 ==> 0.0 <= r.value.precio <= precio
  {
    if descuento > 0.0 then
      assert precio >= 0.0 && descuento <= 100.0 ==> 0.0 <= precio - (descuento / 100.0) * precio <= precio by {
        if precio >= 0.0 && descuento <= 100.0 {
          PrecioConDescuentoBounds(precio, descuento);
        }
      }
      Some(Oferta(descuento.Floor, precio - (descuento / 100.0) * precio))
    else None
  }

  /** The offer card shows the same badge and the same discounted price as
      the shop card, and that price is the one the cart and the checkout
      charge. */
  lemma OfertaComoEnTarjeta(precio: real, descuento: real)
    ensures OfertaMostrada(precio, descuento).Some? <==> ProductoCard.PrecioOferta(precio, descuento).Some?
    ensures descuento > 0.0 ==>
      OfertaMostrada(precio, descuento).value.porcentaje == ProductoCard.PorcentajeEtiqueta(descuento) &&
      Some(OfertaMostrada(precio, descuento).value.precio) == ProductoCard.PrecioOferta(precio, descuento) &&
      OfertaMostrada(precio, descuento).value.precio == PrecioConDescuento(precio, descuento)
  {
    if descuento > 0.0 {
      ProductoCard.PrecioOfertaEsElCobrado(precio, descuento);
    }
  }
}
