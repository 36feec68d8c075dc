/** `ProductoController`: creating a product with its uploaded images
    (`store`), editing it and adding images (`update`), and flipping its
    `eliminado` flag (`desactivarProducto`). Stored files are given as
    the path the upload was saved under. */
module ProductoAdmin {
  import opened Common
  import opened Schema
  import opened Tienda

  /** An uploaded image: its original name, the path `store` saves it
      under, the extension guessed from its content and its size in bytes. */
  datatype Subida = Subida(nombreOriginal: string, ruta: string, extension: string, bytes: int)

  /** `'imagenes.*' => 'nullable|image|mimes:jpeg,png,jpg,gif,svg,webp|max:2048'`:
      one of the listed types and at most 2048 kilobytes. */
  predicate SubidaValida(s: Subida)
  {
    s.extension in {"jpeg", "png", "jpg", "gif", "svg", "webp"} && s.bytes <= 2048 * 1024
  }

  /** Every upload of the request passes the `imagenes.*` rule. */
  predicate SubidasValidas(subidas: seq<Subida>)
  {
    forall k :: 0 <= k < |subidas| ==> SubidaValida(subidas[k])
  }

  /** The validated form fields; `descuento` is `None` when absent. */
  datatype Campos = Campos(nombre: string, precio: real, unidades: int, descuento: Option<real>)

  datatype ErrorProducto = NoEncontrado | CamposInvalidos

  /** `'nombre' => 'required|string|max:255'`. */
  predicate NombreValido(nombre: string)
  {
    nombre != "" && |nombre| <= 255
  }

  /** `$request->input('descuento', 0)`. */
  function DescuentoDe(descuento: Option<real>): (d: real)
    ensures descuento.None? ==> d == 0.0
    ensures descuento.Some? ==> d == descuento.value
  {
    if descuento.Some? then descuento.value else 0.0
  }

  /** The `foreach` over the uploads: one image row per upload, in upload
      order, owned by the product; with `primeraPrincipal` only the upload
      at index 0 is principal, otherwise none is. */
  method SubirImagenes(productoId: int, subidas: seq<Subida>, primeraPrincipal: bool) returns (nuevas: seq<Imagen>)
    ensures |nuevas| == |subidas|
    ensures forall k :: 0 <= k < |subidas| ==>
      nuevas[k] == Imagen(productoId, subidas[k].nombreOriginal, subidas[k].ruta, primeraPrincipal && k == 0)
  {
    nuevas := [];
    var k := 0;
    while k < |subidas|
      invariant 0 <= k <= |subidas| && |nuevas| == k
      invariant forall j :: 0 <= j < k ==>
        nuevas[j] == Imagen(productoId, subidas[j].nombreOriginal, subidas[j].ruta, primeraPrincipal && j == 0)
    {
      nuevas := nuevas + [Imagen(productoId, subidas[k].nombreOriginal, subidas[k].ruta, primeraPrincipal && k == 0)];
      k := k + 1;
    }
  }

  /** Images that are not principal images of the product do not change
      which of the later ones is. */
  lemma {:induction false} ImagenPrincipalSkip(antes: seq<Imagen>, despues: seq<Imagen>, productoId: int)
    requires forall i :: 0 <= i < |antes| ==> !EsPrincipalDe(antes[i], productoId)
    ensures ImagenPrincipal(antes + despues, productoId) == ImagenPrincipal(despues, productoId)
  {
    if antes != [] {
      assert (antes + despues)[1..] == antes[1..] + despues;
      ImagenPrincipalSkip(antes[1..], despues, productoId);
    } else {
      assert antes + despues == despues;
    }
  }

  /** Saves a product row and its new image rows: a new product takes
      the next id (`nuevo`), an existing one keeps its own. */
  method GuardarProducto(db: Database, producto: Producto, nuevas: seq<Imagen>, nuevo: bool)
    requires db.Valid()
    requires if nuevo then producto.id == db.nextId else producto.id in db.productos
    requires forall k :: 0 <= k < |nuevas| ==> nuevas[k].productoId == producto.id
    modifies db
    ensures db.Valid()
    ensures db.productos == old(db.productos)[producto.id := producto] && db.imagenes == old(db.imagenes) + nuevas
    ensures db.nextId == old(db.nextId) + (if nuevo then 1 else 0)
    ensures db.carritos == old(db.carritos) && db.pedidos == old(db.pedidos) && db.pedidosCarrito == old(db.pedidosCarrito)
    ensures db.users == old(db.users) && db.planes == old(db.planes) && db.pagos == old(db.pagos)
    ensures db.justificantes == old(db.justificantes)
  {
    db.productos, db.imagenes, db.nextId :=
      db.productos[producto.id := producto], db.imagenes + nuevas, db.nextId + (if nuevo then 1 else 0);
  }

  /** `store`: when the name and every upload pass validation, a new
      product with `descuento` defaulting to 0 and `eliminado` to false,
      and its uploads as images, the first one principal, so it is the
      image the shop shows for it. */
  method Store(db: Database, campos: Campos, eliminado: Option<bool>, subidas: seq<Subida>)
    returns (r: Result<int, ErrorProducto>)
    requires db.Valid()
    modifies db
    ensures db.Valid()
    ensures r.Err? <==> !NombreValido(campos.nombre) || !SubidasValidas(subidas)
    ensures r.Err? ==> r.error == CamposInvalidos && db.productos == old(db.productos)
                       && db.imagenes == old(db.imagenes) && db.nextId == old(db.nextId)
    ensures r.Ok? ==>
      var id := r.value;
      id == old(db.nextId) && id !in old(db.productos)
      && db.productos == old(db.productos)[id := Producto(id, campos.nombre, campos.precio, campos.unidades,
                                                          DescuentoDe(campos.descuento),
                                                          eliminado.Some? && eliminado.value)]
      && db.nextId == old(db.nextId) + 1
      && |db.imagenes| == |old(db.imagenes)| + |subidas| && db.imagenes[..|old(db.imagenes)|] == old(db.imagenes)
      && (forall k :: 0 <= k < |subidas| ==>
            db.imagenes[|old(db.imagenes)| + k] == Imagen(id, subidas[k].nombreOriginal, subidas[k].ruta, k == 0))
      && ImagenPrincipal(db.imagenes, id) == (if subidas == [] then Placeholder else subidas[0].ruta)
    ensures db.carritos == old(db.carritos) && db.pedidos == old(db.pedidos) && db.pedidosCarrito == old(db.pedidosCarrito)
    ensures db.users == old(db.users) && db.planes == old(db.planes) && db.pagos == old(db.pagos)
    ensures db.justificantes == old(db.justificantes)
  {
    if !NombreValido(campos.nombre) || !SubidasValidas(subidas) {
      return Err(CamposInvalidos);
    }
    var id := db.nextId;
    var producto := Producto(id, campos.nombre, campos.precio, campos.unidades, DescuentoDe(campos.descuento),
                             eliminado.Some? && eliminado.value);
    var nuevas := SubirImagenes(id, subidas, true);
    forall i | 0 <= i < |db.imagenes| ensures !EsPrincipalDe(db.imagenes[i], id) {
      assert db.imagenes[i].productoId in db.productos;
    }
    ImagenPrincipalSkip(db.imagenes, nuevas, id);
    if subidas != [] {
      assert EsPrincipalDe(nuevas[0], id);
    } else {
      assert nuevas == [];
    }
    GuardarProducto(db, producto, nuevas, true);
    r := Ok(id);
  }

  /** `update`: `findOrFail` first, then validation of the name and the
      uploads; overwrites the four fields (`descuento` defaulting to 0)
      and adds the uploads as non-principal images, so the shop's
      principal image is unchanged. */
  method Update(db: Database, id: int, campos: Campos, subidas: seq<Subida>) returns (r: Result<(), ErrorProducto>)
    requires db.Valid()
    modifies db
    ensures db.Valid()
    ensures r == Err(NoEncontrado) <==> id !in old(db.productos)
    ensures r == Err(CamposInvalidos) <==>
      id in old(db.productos) && (!NombreValido(campos.nombre) || !SubidasValidas(subidas))
    ensures r.Err? ==> db.productos == old(db.productos) && db.imagenes == old(db.imagenes)
    ensures r.Ok? ==>
      var antes := old(db.productos)[id];
      db.productos == old(db.productos)[id := antes.(nombre := campos.nombre, precio := campos.precio,
                                                    unidades := campos.unidades,
                                                    descuento := DescuentoDe(campos.descuento))]
      && |db.imagenes| == |old(db.imagenes)| + |subidas| && db.imagenes[..|old(db.imagenes)|] == old(db.imagenes)
      && (forall k :: 0 <= k < |subidas| ==>
            db.imagenes[|old(db.imagenes)| + k] == Imagen(id, subidas[k].nombreOriginal, subidas[k].ruta, false))
      && ImagenPrincipal(db.imagenes, id) == ImagenPrincipal(old(db.imagenes), id)
    ensures db.carritos == old(db.carritos) && db.pedidos == old(db.pedidos) && db.pedidosCarrito == old(db.pedidosCarrito)
    ensures db.users == old(db.users) && db.planes == old(db.planes) && db.pagos == old(db.pagos)
    ensures db.justificantes == old(db.justificantes) && db.nextId == old(db.nextId)
  {
    if id !in db.productos {
      return Err(NoEncontrado);
    }
    if !NombreValido(campos.nombre) || !SubidasValidas(subidas) {
      return Err(CamposInvalidos);
    }
    var antes := db.productos[id];
    var nuevas := SubirImagenes(id, subidas, false);
    ImagenPrincipalAppendOther(db.imagenes, nuevas, id);
    GuardarProducto(db, antes.(nombre := campos.nombre, precio := campos.precio, unidades := campos.unidades,
                               descuento := DescuentoDe(campos.descuento)), nuevas, false);
    r := Ok(());
  }

  /** `!$producto->eliminado`: flips the flag and keeps every other field. */
  function Alternar(p: Producto): (q: Producto)
    ensures q.eliminado != p.eliminado
    ensures q.id == p.id && q.nombre == p.nombre && q.precio == p.precio
            && q.unidades == p.unidades && q.descuento == p.descuento
  {
    p.(eliminado := !p.eliminado)
  }

  /** Two flips restore the product, and a flip moves it into or out of
      the shop listing. */
  lemma AlternarInvolutiva(p: Producto)
    ensures Alternar(Alternar(p)) == p
    ensures NoEliminado(Alternar(p)) <==> !NoEliminado(p)
  {
  }

  /** `desactivarProducto`: `findOrFail`, then the flip. */
  method DesactivarProducto(db: Database, id: int) returns (r: Result<(), ErrorProducto>)
    requires db.Valid()
    modifies db
    ensures db.Valid()
    ensures r.Err? <==> id !in old(db.productos)
    ensures r.Err? ==> db.productos == old(db.productos)
    ensures r.Ok? ==> db.productos == old(db.productos)[id := Alternar(old(db.productos)[id])]
    ensures db.imagenes == old(db.imagenes) && db.carritos == old(db.carritos) && db.pedidos == old(db.pedidos)
    ensures db.pedidosCarrito == old(db.pedidosCarrito) && db.users == old(db.users) && db.planes == old(db.planes)
    ensures db.pagos == old(db.pagos) && db.justificantes == old(db.justificantes) && db.nextId == old(db.nextId)
  {
    if id !in db.productos {
      return Err(NoEncontrado);
    }
    db.productos := db.productos[id := Alternar(db.productos[id])];
    r := Ok(());
  }
}
