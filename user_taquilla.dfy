/** `UserTaquillaController::index`: the socios ordered by name, the
    summary counts from the `vigentes` and `enMora` scopes, and each socio's
    `Vigente` / `En Mora` label. */
module UserTaquilla {
  import opened Common
  import opened Sorting
  import opened Schema
  import opened UserModel

  /** `orderBy('nombre')->orderBy('apellido')`. */
  predicate PorNombreApellido(a: User, b: User)
  {
    TextThenText(a.nombre, a.apellido, b.nombre, b.apellido)
  }

  lemma PorNombreApellidoTotal()
    ensures Total(PorNombreApellido)
  {
    forall a: User, b: User ensures PorNombreApellido(a, b) || PorNombreApellido(b, a) {
      TextThenTextTotal(a.nombre, a.apellido, b.nombre, b.apellido);
    }
  }

  /** The base query: users with a locker number, ordered by name. */
  function Socios(users: seq<User>): (r: seq<User>)
    ensures multiset(r) == multiset(Filter(users, EsSocio))
    ensures forall i :: 0 <= i < |r| ==> EsSocio(r[i])
    ensures forall i :: 0 <= i < |r| - 1 ==> PorNombreApellido(r[i], r[i + 1])
  {
    PorNombreApellidoTotal();
    var r := SortBy(Filter(users, EsSocio), PorNombreApellido);
    forall i | 0 <= i < |r| ensures EsSocio(r[i]) {
      assert r[i] in multiset(Filter(users, EsSocio));
    }
    r
  }

  datatype Estado = Vigente | EnMoraLabel

  /** `vencimiento_cuota`: the expiry date, or `N/A` when there is none. */
  datatype Vencimiento = Fecha(day: int) | NA

  /** One entry of `lista_socios`. */
  datatype Entrada = Entrada(
    id: int, nombreCompleto: string, email: string, numeroTaquilla: Option<int>,
    vencimiento: Vencimiento, estado: Estado)

  function EntradaDe(u: User, today: int): (e: Entrada)
    ensures e.id == u.id && e.nombreCompleto == u.nombre + " " + u.apellido
    ensures e.estado == Vigente <==> CuotaVigente(u, today)
    ensures e.vencimiento == NA <==> u.vencimiento.None?
  {
    Entrada(u.id, u.nombre + " " + u.apellido, u.email, u.numeroTaquilla,
            if u.vencimiento.Some? then Fecha(u.vencimiento.value) else NA,
            if CuotaVigente(u, today) then Vigente else EnMoraLabel)
  }

  datatype Resumen = Resumen(totalSocios: nat, vigentesCount: nat, enMoraCount: nat)

  datatype Listado = Listado(resumen: Resumen, listaSocios: seq<Entrada>)

  /** `index`: the counts come from the base query and from its clones
      narrowed by the two scopes; the list maps the base query. */
  function Index(users: seq<User>, today: int): (r: Listado)
    ensures |r.listaSocios| == r.resumen.totalSocios
    ensures r.resumen.totalSocios == Count(users, EsSocio)
  {
    var socios := Socios(users);
    Listado(
      Resumen(|socios|, |Vigentes(socios, today)|, |EnMora(socios, today)|),
      seq(|socios|, i requires 0 <= i < |socios| => EntradaDe(socios[i], today)))
  }

  /** Entries labelled `Vigente` over a list of entries. */
  function VigenteEntries(es: seq<Entrada>): nat
  {
    Count(es, (e: Entrada) => e.estado == Vigente)
  }

  lemma {:induction false} VigenteEntriesMatchScope(socios: seq<User>, today: int)
    ensures VigenteEntries(seq(|socios|, i requires 0 <= i < |socios| => EntradaDe(socios[i], today)))
         == |Vigentes(socios, today)|
  {
    var es := seq(|socios|, i requires 0 <= i < |socios| => EntradaDe(socios[i], today));
    if socios != [] {
      var rest := seq(|socios[1..]|, i requires 0 <= i < |socios[1..]| => EntradaDe(socios[1..][i], today));
      assert es[1..] == rest;
      VigenteEntriesMatchScope(socios[1..], today);
      VigentesIffCuotaVigente(socios[0], today);
    }
  }

  /** The number of entries labelled `Vigente` equals `vigentes_count`. */
  lemma VigenteLabelsEqualCount(users: seq<User>, today: int)
    ensures VigenteEntries(Index(users, today).listaSocios) == Index(users, today).resumen.vigentesCount
  {
    VigenteEntriesMatchScope(Socios(users), today);
  }

  /** `vigentes_count + en_mora_count <= total_socios`, with equality exactly
      when every socio has an expiry date. */
  lemma CountsBound(users: seq<User>, today: int)
    ensures var s := Index(users, today).resumen;
      s.vigentesCount + s.enMoraCount <= s.totalSocios
      && (s.vigentesCount + s.enMoraCount == s.totalSocios
          <==> forall i :: 0 <= i < |users| && EsSocio(users[i]) ==> users[i].vencimiento.Some?)
  {
    var socios := Socios(users);
    var f := Filter(users, EsSocio);
    var dated := (u: User) => EsSocio(u) && u.vencimiento.Some?;
    ScopeCounts(socios, today);
    CountPermutation(socios, f, dated);
    CountAllIff(f, dated);
    if forall i :: 0 <= i < |users| && EsSocio(users[i]) ==> users[i].vencimiento.Some? {
      assert forall i :: 0 <= i < |f| ==> dated(f[i]);
    }
    if forall i :: 0 <= i < |f| ==> dated(f[i]) {
      forall i | 0 <= i < |users| && EsSocio(users[i]) ensures users[i].vencimiento.Some? {
        assert users[i] in f;
      }
    }
  }

  /** A socio without an expiry date is listed `En Mora` with `N/A`, but it
      is counted in neither scope. */
  lemma UndatedSocioListedNotCounted(u: User, today: int)
    requires EsSocio(u) && u.vencimiento.None?
    ensures EntradaDe(u, today).estado == EnMoraLabel && EntradaDe(u, today).vencimiento == NA
    ensures !InVigentes(u, today) && !InEnMora(u, today)
  {
  }
}
