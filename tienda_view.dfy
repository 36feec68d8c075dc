/** The shop page (`Tienda.jsx`): it re-sorts the listing it receives by
    lower-cased name and id, shows it in pages of 18, and keeps the current
    page in a state that the previous/next buttons step. */
module TiendaVista {
  import opened Sorting
  import opened Tienda

  const ProductosPorPagina: nat := 18

  /** `toLowerCase` on one character: the capitals of ASCII and of Latin-1
      (`À`–`Þ` except `×`) map to their small letters; other characters are
      kept. */
  function Minuscula(c: char): (r: char)
    ensures 'A' <= c <= 'Z' ==> r == (c as int + 32) as char
    ensures !('A' <= c <= 'Z') && !('À' <= c <= 'Þ') ==> r == c
  {
    if 'A' <= c <= 'Z' || ('À' <= c <= 'Þ' && c != '×') then (c as int + 32) as char else c
  }

  function Minusculas(s: string): (r: string)
    ensures |r| == |s|
  {
    seq(|s|, i requires 0 <= i < |s| => Minuscula(s[i]))
  }

  /** Lower-casing twice is lower-casing once, so names that differ only
      in case compare as equal. */
  lemma MinusculasIdempotente(s: string)
    ensures Minusculas(Minusculas(s)) == Minusculas(s)
  {
    assert forall i :: 0 <= i < |s| ==> Minuscula(Minuscula(s[i])) == Minuscula(s[i]);
  }

  /** The comparator: `nameA < nameB` on lower-cased names, then `a.id - b.id`. */
  predicate PorNombreMinusculas(a: Tarjeta, b: Tarjeta)
  {
    TextThenInt(Minusculas(a.nombre), a.id, Minusculas(b.nombre), b.id)
  }

  lemma PorNombreMinusculasTotalTransitive()
    ensures Total(PorNombreMinusculas) && Transitive(PorNombreMinusculas)
  {
    forall a: Tarjeta, b: Tarjeta ensures PorNombreMinusculas(a, b) || PorNombreMinusculas(b, a) {
      TextThenIntTotal(Minusculas(a.nombre), a.id, Minusculas(b.nombre), b.id);
    }
    forall a: Tarjeta, b: Tarjeta, c: Tarjeta | PorNombreMinusculas(a, b) && PorNombreMinusculas(b, c)
      ensures PorNombreMinusculas(a, c)
    {
      TextThenIntTransitive(Minusculas(a.nombre), a.id, Minusculas(b.nombre), b.id, Minusculas(c.nombre), c.id);
    }
  }

  /** `productosOrdenados`: a sorted copy of the listing, the same products
      in (lower-cased name, id) order. */
  function ProductosOrdenados(productos: seq<Tarjeta>): (r: seq<Tarjeta>)
    ensures multiset(r) == multiset(productos)
    ensures |r| == |productos|
    ensures forall i, k :: 0 <= i < k < |r| ==> PorNombreMinusculas(r[i], r[k])
  {
    PorNombreMinusculasTotalTransitive();
    var r := SortBy(productos, PorNombreMinusculas);
    forall i, k | 0 <= i < k < |r| ensures PorNombreMinusculas(r[i], r[k]) {
      SortedPairwise(r, PorNombreMinusculas, i, k);
    }
    r
  }

  /** `Array.prototype.slice(inicio, fin)`: negative bounds count from the
      end, and both are clamped to the array. */
  function Slice<T>(xs: seq<T>, inicio: int, fin: int): (r: seq<T>)
    ensures 0 <= inicio && 0 <= fin ==>
      r == (if inicio < fin && inicio < |xs| then xs[inicio .. if fin < |xs| then fin else |xs|] else [])
  {
    var n := |xs|;
    var a := if inicio < 0 then (if n + inicio < 0 then 0 else n + inicio) else (if inicio < n then inicio else n);
    var b := if fin < 0 then (if n + fin < 0 then 0 else n + fin) else (if fin < n then fin else n);
    if a < b then xs[a..b] else []
  }

  /** `obtenerProductosDePagina` for page `pagina`. */
  function Pagina<T>(ordenados: seq<T>, pagina: int): (r: seq<T>)
    ensures |r| <= ProductosPorPagina
    ensures pagina >= 1 && (pagina - 1) * ProductosPorPagina < |ordenados| ==>
      var inicio := (pagina - 1) * ProductosPorPagina;
      r == ordenados[inicio .. if inicio + ProductosPorPagina < |ordenados| then inicio + ProductosPorPagina else |ordenados|]
    ensures pagina >= 1 && (pagina - 1) * ProductosPorPagina >= |ordenados| ==> r == []
  {
    var inicio := (pagina - 1) * ProductosPorPagina;
    Slice(ordenados, inicio, inicio + ProductosPorPagina)
  }

  /** `Math.ceil(productos.length / 18)`. */
  function TotalPaginas(n: nat): (t: nat)
    ensures n <= t * ProductosPorPagina
    ensures t > 0 ==> (t - 1) * ProductosPorPagina < n
  {
    (n + ProductosPorPagina - 1) / ProductosPorPagina
  }

  /** Pages 1 to `k`, one after another. */
  function Paginas<T>(ordenados: seq<T>, k: nat): seq<T>
  {
    if k == 0 then [] else Paginas(ordenados, k - 1) + Pagina(ordenados, k)
  }

  lemma {:induction false} PaginasPrefijo<T>(ordenados: seq<T>, k: nat)
    ensures Paginas(ordenados, k) == ordenados[..if k * ProductosPorPagina < |ordenados| then k * ProductosPorPagina else |ordenados|]
  {
    if k > 0 {
      PaginasPrefijo(ordenados, k - 1);
      var n := |ordenados|;
      var a := if (k - 1) * ProductosPorPagina < n then (k - 1) * ProductosPorPagina else n;
      var b := if k * ProductosPorPagina < n then k * ProductosPorPagina else n;
      assert ordenados[..a] + ordenados[a..b] == ordenados[..b];
    }
  }

  /** The pages 1 to `totalPaginas`, read in order, are the whole sorted
      listing: every product is on exactly one page and none is left out. */
  lemma TodasLasPaginas<T>(ordenados: seq<T>)
    ensures Paginas(ordenados, TotalPaginas(|ordenados|)) == ordenados
  {
    PaginasPrefijo(ordenados, TotalPaginas(|ordenados|));
  }

  /** The page number the buttons can reach: from 1 up to `totalPaginas`,
      and 1 with an empty listing. */
  predicate PaginaValida(pagina: int, totalPaginas: nat)
  {
    1 <= pagina && (pagina <= totalPaginas || pagina == 1)
  }

  /** Every reachable page of a non-empty listing shows between 1 and 18
      products. */
  lemma PaginaValidaNoVacia<T>(ordenados: seq<T>, pagina: int)
    requires PaginaValida(pagina, TotalPaginas(|ordenados|)) && |ordenados| > 0
    ensures 0 < |Pagina(ordenados, pagina)| <= ProductosPorPagina
  {
  }

  /** The `paginaActual` state of the page. */
  class Paginacion {
    var paginaActual: int
    const totalPaginas: nat

    predicate Valid()
      reads this
    {
      PaginaValida(paginaActual, totalPaginas)
    }

    /** `useState(1)` for a listing of `n` products. */
    constructor (n: nat)
      ensures paginaActual == 1 && totalPaginas == TotalPaginas(n)
      ensures Valid()
    {
      paginaActual := 1;
      totalPaginas := TotalPaginas(n);
    }

    /** `irAAnterior`: back one page unless on page 1. */
    method IrAAnterior()
      requires Valid()
      modifies this
      ensures Valid()
      ensures paginaActual == (if old(paginaActual) > 1 then old(paginaActual) - 1 else old(paginaActual))
    {
      if paginaActual > 1 {
        paginaActual := paginaActual - 1;
      }
    }

    /** `irASiguiente`: forward one page unless on the last one. */
    method IrASiguiente()
      requires Valid()
      modifies this
      ensures Valid()
      ensures paginaActual == (if old(paginaActual) < totalPaginas then old(paginaActual) + 1 else old(paginaActual))
    {
      if paginaActual < totalPaginas {
        paginaActual := paginaActual + 1;
      }
    }

    /** The products shown on the current page. */
    function Visibles(ordenados: seq<Tarjeta>): (r: seq<Tarjeta>)
      reads this
      requires Valid() && |ordenados| > 0 && totalPaginas == TotalPaginas(|ordenados|)
      ensures 0 < |r| <= ProductosPorPagina
      ensures forall i :: 0 <= i < |r| ==> r[i] in ordenados
    {
      PaginaValidaNoVacia(ordenados, paginaActual);
      Pagina(ordenados, paginaActual)
    }
  }
}
