/** The product card of the shop (`Producto.jsx`): whether the session user
    has a locker, the state of the buy button, the discounted price shown
    and the source of the picture. */
module ProductoCard {
  import opened Common
  import opened Schema
  import opened UserModel
  import Tienda

  /** `tieneTaquilla`: a session user whose locker number is present and
      not 0. */
  predicate TieneTaquilla(user: Option<User>)
  {
    user.Some? && user.value.numeroTaquilla.Some? && user.value.numeroTaquilla.value != 0
  }

  /** The card asks for a locker in the sense of `es_socio`, except that
      locker number 0, which makes a user a socio on the server, counts as
      no locker here. */
  lemma TieneTaquillaYSocio(u: User)
    ensures TieneTaquilla(Some(u)) <==> EsSocio(u) && u.numeroTaquilla.value != 0
    ensures u.numeroTaquilla == Some(0) ==> EsSocio(u) && !TieneTaquilla(Some(u))
  {
  }

  /** The four buttons the card can show. */
  datatype Boton = IniciarSesion | TaquillaRequerida | Agotado | AnadirAlCarrito

  /** Only "Añadir al Carrito" can be clicked. */
  predicate Habilitado(b: Boton)
  {
    b == AnadirAlCarrito
  }

  /** The button: without a session "Iniciar Sesión"; without a locker
      "Taquilla Requerida"; with one, "AGOTADO" when `unidades === 0` and
      otherwise "Añadir al Carrito". */
  function BotonDe(user: Option<User>, unidades: int): (b: Boton)
    ensures b == IniciarSesion <==> user.None?
    ensures b == TaquillaRequerida <==> user.Some? && !TieneTaquilla(user)
    ensures b == Agotado <==> TieneTaquilla(user) && unidades == 0
    ensures Habilitado(b) <==> TieneTaquilla(user) && unidades != 0
  {
    if user.None? then IniciarSesion
    else if !TieneTaquilla(user) then TaquillaRequerida
    else if unidades == 0 then Agotado
    else AnadirAlCarrito
  }

  /** `precio - (descuento / 100) * precio`, shown only when the discount
      is above 0. */
  function PrecioOferta(precio: real, descuento: real): (r: Option<real>)
    ensures r.Some? <==> descuento > 0.0
  {
    if descuento > 0.0 then Some(precio - (descuento / 100.0) * precio) else None
  }

  /** `parseInt(descuento)` in the "% OFF" badge: the whole part of the
      percentage. */
  function PorcentajeEtiqueta(descuento: real): (n: int)
    requires descuento > 0.0
    ensures n as real <= descuento < n as real + 1.0
  {
    descuento.Floor
  }

  /** The price the card shows is the discounted unit price the cart lists
      and the checkout charges, and for a discount up to 100% it is between
      0 and the list price. */
  lemma PrecioOfertaEsElCobrado(precio: real, descuento: real)
    requires descuento > 0.0
    ensures PrecioOferta(precio, descuento) == Some(PrecioConDescuento(precio, descuento))
    ensures precio >= 0.0 && descuento <= 100.0 ==> 0.0 <= PrecioOferta(precio, descuento).value <= precio
  {
    if precio >= 0.0 && descuento <= 100.0 {
      PrecioConDescuentoBounds(precio, descuento);
    }
  }

  /** `t` occurs in `s` at position `i`. */
  predicate EnPosicion(s: string, t: string, i: int)
  {
    0 <= i && i + |t| <= |s| && s[i..i + |t|] == t
  }

  /** `s.includes(t)`. */
  predicate Contiene(s: string, t: string)
  {
    exists i :: 0 <= i <= |s| && EnPosicion(s, t, i)
  }

  /** A string without the first character of `t` does not contain `t`. */
  lemma SinPrimeraLetra(s: string, t: string)
    requires |t| > 0 && forall i :: 0 <= i < |s| ==> s[i] != t[0]
    ensures !Contiene(s, t)
  {
    forall i | 0 <= i && i + |t| <= |s| ensures !EnPosicion(s, t, i) {
      assert s[i..i + |t|][0] == s[i];
    }
  }

  const Storage: string := "/storage/"
  const PlaceholderCliente: string := "/img/placeholder.jpg"

  /** `imageSource`: a non-empty string path that does not contain
      "undefined" is served from `/storage/`; anything else shows the
      client's placeholder. `None` stands for a value that is not a string. */
  function ImageSource(imagenPrincipal: Option<string>): (r: string)
    ensures imagenPrincipal.Some? && imagenPrincipal.value != "" && !Contiene(imagenPrincipal.value, "undefined")
            ==> r == Storage + imagenPrincipal.value
    ensures imagenPrincipal.None? || imagenPrincipal.value == "" || Contiene(imagenPrincipal.value, "undefined")
            ==> r == PlaceholderCliente
  {
    if imagenPrincipal.Some? && imagenPrincipal.value != "" && !Contiene(imagenPrincipal.value, "undefined")
    then Storage + imagenPrincipal.value
    else PlaceholderCliente
  }

  /** The placeholder the shop listing sends for a product without a
      principal image is served from `/storage/` like an uploaded picture,
      not as the client's placeholder. */
  lemma PlaceholderDelServidor()
    ensures ImageSource(Some(Tienda.Placeholder)) == "/storage/img/placeholder.jpg"
    ensures ImageSource(Some(Tienda.Placeholder)) != PlaceholderCliente
  {
    var p := Tienda.Placeholder;
    assert forall i :: 0 <= i < |p| ==> p[i] != 'u';
    SinPrimeraLetra(p, "undefined");
  }
}
