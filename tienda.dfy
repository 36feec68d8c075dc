/** `TiendaController`: the shop listing sent to the `Tienda` page. Both
    `index_mas_que_surf` and `index_oficial` run the same pipeline: the
    products not marked `eliminado`, ordered by `nombre` then `id`, each
    projected to six fields with the path of its principal image. */
module Tienda {
  import opened Common
  import opened Sorting
  import opened Schema

  /** The path used when a product has no principal image. */
  const Placeholder: string := "img/placeholder.jpg"

  predicate EsPrincipalDe(img: Imagen, productoId: int)
  {
    img.productoId == productoId && img.esPrincipal
  }

  /** `$producto->imagenes->firstWhere('es_principal', 1)`: the path of the
      product's first image flagged principal, else the placeholder. */
  function ImagenPrincipal(imagenes: seq<Imagen>, productoId: int): (r: string)
    ensures (forall i :: 0 <= i < |imagenes| ==> !EsPrincipalDe(imagenes[i], productoId)) ==> r == Placeholder
    ensures forall i :: 0 <= i < |imagenes| && EsPrincipalDe(imagenes[i], productoId)
                        && (forall j :: 0 <= j < i ==> !EsPrincipalDe(imagenes[j], productoId))
                        ==> r == imagenes[i].ruta
  {
    if imagenes == [] then Placeholder
    else if EsPrincipalDe(imagenes[0], productoId) then imagenes[0].ruta
    else
      var r := ImagenPrincipal(imagenes[1..], productoId);
      assert forall i :: 1 <= i < |imagenes| ==> imagenes[i] == imagenes[1..][i - 1];
      r
  }

  /** An image that does not belong to the product or is not principal
      does not change its principal image. */
  lemma {:induction false} ImagenPrincipalAppendOther(imagenes: seq<Imagen>, extra: seq<Imagen>, productoId: int)
    requires forall i :: 0 <= i < |extra| ==> !EsPrincipalDe(extra[i], productoId)
    ensures ImagenPrincipal(imagenes + extra, productoId) == ImagenPrincipal(imagenes, productoId)
  {
    if imagenes == [] {
      assert imagenes + extra == extra;
    } else {
      assert (imagenes + extra)[1..] == imagenes[1..] + extra;
      ImagenPrincipalAppendOther(imagenes[1..], extra, productoId);
    }
  }

  /** One record of the listing: exactly these six fields. */
  datatype Tarjeta = Tarjeta(
    id: int, nombre: string, precio: real, unidades: int, descuento: real, imagenPrincipal: string)

  function Proyeccion(p: Producto, imagenes: seq<Imagen>): Tarjeta
  {
    Tarjeta(p.id, p.nombre, p.precio, p.unidades, p.descuento, ImagenPrincipal(imagenes, p.id))
  }

  predicate NoEliminado(p: Producto)
  {
    !p.eliminado
  }

  /** `orderBy('nombre', 'asc')->orderBy('id', 'asc')`. */
  predicate PorNombreId(a: Producto, b: Producto)
  {
    TextThenInt(a.nombre, a.id, b.nombre, b.id)
  }

  lemma PorNombreIdTotalTransitive()
    ensures Total(PorNombreId) && Transitive(PorNombreId)
  {
    forall a: Producto, b: Producto ensures PorNombreId(a, b) || PorNombreId(b, a) {
      TextThenIntTotal(a.nombre, a.id, b.nombre, b.id);
    }
    forall a: Producto, b: Producto, c: Producto | PorNombreId(a, b) && PorNombreId(b, c)
      ensures PorNombreId(a, c)
    {
      TextThenIntTransitive(a.nombre, a.id, b.nombre, b.id, c.nombre, c.id);
    }
  }

  /** The rows the query returns: not deleted, in (`nombre`, `id`) order. */
  function Vivos(productos: seq<Producto>): (s: seq<Producto>)
    ensures multiset(s) == multiset(Filter(productos, NoEliminado))
    ensures |s| == Count(productos, NoEliminado)
    ensures forall i, k :: 0 <= i < k < |s| ==> PorNombreId(s[i], s[k])
  {
    PorNombreIdTotalTransitive();
    var s := SortBy(Filter(productos, NoEliminado), PorNombreId);
    forall i, k | 0 <= i < k < |s| ensures PorNombreId(s[i], s[k]) {
      SortedPairwise(s, PorNombreId, i, k);
    }
    s
  }

  lemma VivosSound(productos: seq<Producto>, i: int)
    requires 0 <= i < |Vivos(productos)|
    ensures exists j :: 0 <= j < |productos| && NoEliminado(productos[j]) && productos[j] == Vivos(productos)[i]
  {
    var s := Vivos(productos);
    assert s[i] in multiset(Filter(productos, NoEliminado));
    assert s[i] in productos && NoEliminado(s[i]);
  }

  lemma VivosComplete(productos: seq<Producto>, j: int)
    requires 0 <= j < |productos| && NoEliminado(productos[j])
    ensures exists i :: 0 <= i < |Vivos(productos)| && Vivos(productos)[i] == productos[j]
  {
    assert productos[j] in Filter(productos, NoEliminado);
    assert productos[j] in multiset(Vivos(productos));
  }

  /** The listing of both shop actions, over the rows of `productos` and
      `imagenes`: the query's rows projected, in (`nombre`, `id`) order. */
  function Catalogo(productos: seq<Producto>, imagenes: seq<Imagen>): (r: seq<Tarjeta>)
    ensures |r| == Count(productos, NoEliminado)
    ensures forall i, k :: 0 <= i < k < |r| ==> TextThenInt(r[i].nombre, r[i].id, r[k].nombre, r[k].id)
  {
    var s := Vivos(productos);
    var r := seq(|s|, i requires 0 <= i < |s| => Proyeccion(s[i], imagenes));
    assert forall i, k :: 0 <= i < k < |r| ==> PorNombreId(s[i], s[k]);
    r
  }

  /** One record per product not deleted, and no other. */
  lemma CatalogoExacto(productos: seq<Producto>, imagenes: seq<Imagen>)
    ensures var r := Catalogo(productos, imagenes);
      (forall i :: 0 <= i < |r| ==>
        exists j :: 0 <= j < |productos| && NoEliminado(productos[j]) && r[i] == Proyeccion(productos[j], imagenes))
      && (forall j :: 0 <= j < |productos| && NoEliminado(productos[j]) ==> Proyeccion(productos[j], imagenes) in r)
  {
    var s := Vivos(productos);
    var r := Catalogo(productos, imagenes);
    forall i | 0 <= i < |r|
      ensures exists j :: 0 <= j < |productos| && NoEliminado(productos[j]) && r[i] == Proyeccion(productos[j], imagenes)
    {
      VivosSound(productos, i);
    }
    forall j | 0 <= j < |productos| && NoEliminado(productos[j])
      ensures Proyeccion(productos[j], imagenes) in r
    {
      VivosComplete(productos, j);
      var i :| 0 <= i < |s| && s[i] == productos[j];
      assert r[i] == Proyeccion(productos[j], imagenes);
    }
  }
}
