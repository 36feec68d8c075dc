/** The admin products page (`Productos.jsx`): the pictures shown for the
    selected product and the thumbnail swap, the low-stock highlight, the
    guards of the edit form and the local flip of `eliminado`. */
module ProductosVista {
  import opened Common
  import opened Schema
  import ProductoAdmin
  import ProductoCard

  const Storage: string := "/storage/"

  /** `[imagenPrincipal, ...imagenesSecundarias].filter(Boolean)`: the
      entries that are neither null nor empty, in order. */
  function Verdaderos(xs: seq<Option<string>>): (r: seq<string>)
    ensures |r| <= |xs|
    ensures forall i :: 0 <= i < |r| ==> r[i] != ""
  {
    if xs == [] then []
    else if xs[0].Some? && xs[0].value != "" then [xs[0].value] + Verdaderos(xs[1..])
    else Verdaderos(xs[1..])
  }

  lemma {:induction false} VerdaderosConcat(a: seq<Option<string>>, b: seq<Option<string>>)
    ensures Verdaderos(a + b) == Verdaderos(a) + Verdaderos(b)
  {
    if a == [] {
      assert a + b == b;
    } else {
      assert (a + b)[1..] == a[1..] + b;
      VerdaderosConcat(a[1..], b);
    }
  }

  /** The `/storage/` URL of each stored path, as entries of the list. */
  function Urls(rutas: seq<string>): (r: seq<Option<string>>)
    ensures |r| == |rutas|
    ensures forall i :: 0 <= i < |rutas| ==> r[i] == Some(Storage + rutas[i])
  {
    seq(|rutas|, i requires 0 <= i < |rutas| => Some(Storage + rutas[i]))
  }

  lemma {:induction false} VerdaderosUrls(rutas: seq<string>)
    ensures Verdaderos(Urls(rutas)) == seq(|rutas|, i requires 0 <= i < |rutas| => Storage + rutas[i])
  {
    if rutas != [] {
      assert Urls(rutas)[1..] == Urls(rutas[1..]);
      VerdaderosUrls(rutas[1..]);
      assert Storage + rutas[0] != "";
    }
  }

  /** `handleProductoClick`'s image list: the principal picture when its
      path is present, then the secondary pictures when the product carries
      `imagenes_secundarias`, all under `/storage/`. */
  function ImagenesDe(principal: Option<string>, secundarias: Option<seq<string>>): (r: seq<string>)
  {
    var primera := if principal.Some? && principal.value != "" then Some(Storage + principal.value) else None;
    var resto := if secundarias.Some? then Urls(secundarias.value) else [];
    Verdaderos([primera] + resto)
  }

  /** The list is the principal picture (if any) followed by every
      secondary one in order; nothing null or empty remains. Without
      `imagenes_secundarias`, the list holds at most the principal
      picture, so there is no thumbnail to click. */
  lemma ImagenesDeOrden(principal: Option<string>, secundarias: Option<seq<string>>)
    ensures var sec := if secundarias.Some? then secundarias.value else [];
      var urls := seq(|sec|, i requires 0 <= i < |sec| => Storage + sec[i]);
      ImagenesDe(principal, secundarias)
        == (if principal.Some? && principal.value != "" then [Storage + principal.value] else []) + urls
    ensures secundarias.None? ==> |ImagenesDe(principal, secundarias)| <= 1
  {
    var primera := if principal.Some? && principal.value != "" then Some(Storage + principal.value) else None;
    var resto := if secundarias.Some? then Urls(secundarias.value) else [];
    VerdaderosConcat([primera], resto);
    assert [primera][1..] == [];
    if secundarias.Some? {
      VerdaderosUrls(secundarias.value);
    }
  }

  /** Pictures `0` and `k` swapped, all others in place. */
  function Intercambiado<T>(xs: seq<T>, k: int): (r: seq<T>)
    requires 0 < k < |xs|
    ensures |r| == |xs| && r[0] == xs[k] && r[k] == xs[0]
    ensures forall j :: 0 < j < |xs| && j != k ==> r[j] == xs[j]
    ensures multiset(r) == multiset(xs)
  {
    var r := xs[0 := xs[k]][k := xs[0]];
    assert xs == [xs[0]] + xs[1..k] + [xs[k]] + xs[k + 1..];
    assert r == [xs[k]] + xs[1..k] + [xs[0]] + xs[k + 1..];
    r
  }

  /** Swapping the same thumbnail back restores the list. */
  lemma IntercambioInvolutivo<T>(xs: seq<T>, k: int)
    requires 0 < k < |xs|
    ensures Intercambiado(Intercambiado(xs, k), k) == xs
  {
  }

  /** The click on thumbnail `index` (the picture at position `index + 1`):
      the list is copied into a new array, whose first picture and picture
      `index + 1` are swapped in place, and the copy becomes the new list. */
  method ClickMiniatura<T>(imagenes: seq<T>, index: int) returns (nuevas: seq<T>)
    requires 0 <= index < |imagenes| - 1
    ensures nuevas == Intercambiado(imagenes, index + 1)
  {
    var a := new T[|imagenes|](i requires 0 <= i < |imagenes| => imagenes[i]);
    assert a[..] == imagenes;
    a[0], a[index + 1] := a[index + 1], a[0];
    nuevas := a[..];
  }

  /** The red background of a product with fewer than 5 units. */
  predicate StockBajo(unidades: int)
  {
    unidades < 5
  }

  /** The admin highlight covers every product the shop card shows as sold
      out, and also products the card still sells: 1 to 4 units are red on
      the admin page while the card offers "Añadir al Carrito". */
  lemma StockBajoYBoton(user: Option<User>, unidades: int)
    ensures ProductoCard.BotonDe(user, unidades) == ProductoCard.Agotado ==> StockBajo(unidades)
    ensures ProductoCard.TieneTaquilla(user) && !StockBajo(unidades) ==>
      ProductoCard.Habilitado(ProductoCard.BotonDe(user, unidades))
    ensures ProductoCard.TieneTaquilla(user) && 0 < unidades < 5 ==>
      StockBajo(unidades) && ProductoCard.Habilitado(ProductoCard.BotonDe(user, unidades))
  {
  }

  /** A form field: an input's text, or the number the product came with. */
  datatype Campo = Texto(s: string) | Numero(x: real)

  /** JavaScript truthiness of a field: not the empty string, not 0. */
  predicate Verdadero(c: Campo)
  {
    match c
    case Texto(s) => s != ""
    case Numero(x) => x != 0.0
  }

  /** The form fields the edit submits. */
  datatype Formulario = Formulario(nombre: Campo, precio: Campo, unidades: Campo, descuento: Campo)

  /** `handleProductoClick`: the form takes the product's values. */
  function FormularioDe(p: Producto): Formulario
  {
    Formulario(Texto(p.nombre), Numero(p.precio), Numero(p.unidades as real), Numero(p.descuento))
  }

  /** The outcome of `handleModificar`. */
  datatype Envio =
    | SinSeleccion                 // "Selecciona un producto para modificar."
    | FaltanCampos                 // "Por favor, rellena todos los campos requeridos."
    | Enviar(id: int, campos: Formulario)

  /** `handleModificar`: nothing is sent without a selected product or with
      an empty name, price or unit count; otherwise the fields go to the
      product's edit route, with an empty discount sent as 0. */
  function HandleModificar(seleccionado: Option<Producto>, f: Formulario): (e: Envio)
    ensures e == SinSeleccion <==> seleccionado.None?
    ensures e == FaltanCampos <==>
      seleccionado.Some? && !(Verdadero(f.nombre) && Verdadero(f.precio) && Verdadero(f.unidades))
    ensures e.Enviar? ==>
      e.id == seleccionado.value.id
      && e.campos.nombre == f.nombre && e.campos.precio == f.precio && e.campos.unidades == f.unidades
      && e.campos.descuento == (if Verdadero(f.descuento) then f.descuento else Numero(0.0))
  {
    if seleccionado.None? then SinSeleccion
    else if !Verdadero(f.nombre) || !Verdadero(f.precio) || !Verdadero(f.unidades) then FaltanCampos
    else
      var descuento := if Verdadero(f.descuento) then f.descuento else Numero(0.0);
      Enviar(seleccionado.value.id, Formulario(f.nombre, f.precio, f.unidades, descuento))
  }

  /** Saving a product as loaded is refused when it has 0 units or a price
      of 0: the loaded number 0 is falsy, though the same value typed in
      (the text "0") passes. A product without discount is sent with 0. */
  lemma GuardarSinCambios(p: Producto)
    ensures p.nombre != "" && p.precio != 0.0 && p.unidades != 0 ==>
      HandleModificar(Some(p), FormularioDe(p)).Enviar?
    ensures p.unidades == 0 || p.precio == 0.0 ==> HandleModificar(Some(p), FormularioDe(p)) == FaltanCampos
    ensures HandleModificar(Some(p), FormularioDe(p).(unidades := Texto("0"))) == FaltanCampos
            <==> p.nombre == "" || p.precio == 0.0
  {
  }

  /** `eliminado` as the page holds it: the column's 0 or 1. */
  function Bandera(eliminado: bool): int
  {
    if eliminado then 1 else 0
  }

  /** `handleEliminar` on success: a truthy flag becomes 0, anything else 1. */
  function EliminadoLocal(eliminado: int): (r: int)
    ensures r == 0 <==> eliminado != 0
    ensures r == 1 <==> eliminado == 0
  {
    if eliminado != 0 then 0 else 1
  }

  /** The local flip shows what `desactivarProducto` stored: the flag of
      the flipped product. */
  lemma EliminadoLocalComoServidor(p: Producto)
    ensures EliminadoLocal(Bandera(p.eliminado)) == Bandera(ProductoAdmin.Alternar(p).eliminado)
  {
  }
}
