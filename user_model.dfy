/** The subscription status of a user (`app/Models/User.php`): the
    `es_socio` and `cuota_vigente` accessors, the `vigentes` and `enMora`
    query scopes, and the ordering of the `pagosCuotas` relation. Dates are
    day numbers and `today` is the day `Carbon::today()` denotes. */
module UserModel {
  import opened Common
  import opened Sorting
  import opened Schema

  /** `es_socio`: the user has a locker number. */
  predicate EsSocio(u: User)
  {
    u.numeroTaquilla.Some?
  }

  /** `cuota_vigente`: a socio whose cached expiry exists and is not before today. */
  predicate CuotaVigente(u: User, today: int)
  {
    EsSocio(u) && u.vencimiento.Some? && u.vencimiento.value >= today
  }

  /** SQL comparison of a nullable date column with a date: a NULL column
      makes the comparison unknown, and `where` drops unknown rows. */
  datatype Comparison = Ge | Lt

  predicate WhereDate(column: Option<int>, op: Comparison, day: int)
  {
    match column
    case None => false
    case Some(d) => if op == Ge then d >= day else d < day
  }

  /** The row condition of `scopeVigentes`. */
  predicate InVigentes(u: User, today: int)
  {
    u.numeroTaquilla.Some? && WhereDate(u.vencimiento, Ge, today)
  }

  /** The row condition of `scopeEnMora`. */
  predicate InEnMora(u: User, today: int)
  {
    u.numeroTaquilla.Some? && WhereDate(u.vencimiento, Lt, today)
  }

  /** The `vigentes` scope applied to a list of users. */
  function Vigentes(users: seq<User>, today: int): seq<User>
  {
    Filter(users, (u: User) => InVigentes(u, today))
  }

  /** The `enMora` scope applied to a list of users. */
  function EnMora(users: seq<User>, today: int): seq<User>
  {
    Filter(users, (u: User) => InEnMora(u, today))
  }

  /** The scope and the accessor agree: a user is selected by `vigentes`
      exactly when `cuota_vigente` holds. */
  lemma VigentesIffCuotaVigente(u: User, today: int)
    ensures InVigentes(u, today) <==> CuotaVigente(u, today)
  {
  }

  /** `enMora` selects exactly the socios whose expiry exists and is past. */
  lemma EnMoraExactly(u: User, today: int)
    ensures InEnMora(u, today) <==> EsSocio(u) && u.vencimiento.Some? && u.vencimiento.value < today
  {
  }

  /** No user is in both scopes; a socio without an expiry is in neither,
      and every socio with an expiry is in exactly one. */
  lemma ScopesPartitionDatedSocios(u: User, today: int)
    ensures !(InVigentes(u, today) && InEnMora(u, today))
    ensures u.vencimiento.None? ==> !InVigentes(u, today) && !InEnMora(u, today)
    ensures EsSocio(u) && u.vencimiento.Some? ==> InVigentes(u, today) || InEnMora(u, today)
  {
  }

  /** The scope results over a whole list: disjoint, and together exactly
      the socios that have an expiry date. */
  lemma {:induction false} ScopeCounts(users: seq<User>, today: int)
    ensures |Vigentes(users, today)| + |EnMora(users, today)|
         == Count(users, (u: User) => EsSocio(u) && u.vencimiento.Some?)
  {
    if users != [] {
      ScopeCounts(users[1..], today);
    }
  }

  /** `pagosCuotas` relation order: latest period end first. */
  predicate FinDesc(a: Pago, b: Pago)
  {
    a.fin >= b.fin
  }

  /** The payments of one user, as the `user_id` foreign key selects them. */
  function PagosDe(pagos: seq<Pago>, userId: int): (r: seq<Pago>)
    ensures forall i :: 0 <= i < |r| ==> r[i].userId == userId
  {
    Filter(pagos, (p: Pago) => p.userId == userId)
  }

  /** `$user->pagosCuotas`: the user's payments, latest period end first. */
  function PagosCuotas(pagos: seq<Pago>, userId: int): (r: seq<Pago>)
    ensures multiset(r) == multiset(PagosDe(pagos, userId))
    ensures forall i, j :: 0 <= i < j < |r| ==> r[i].fin >= r[j].fin
  {
    var r := SortBy(PagosDe(pagos, userId), FinDesc);
    forall i, j | 0 <= i < j < |r| ensures r[i].fin >= r[j].fin {
      SortedPairwise(r, FinDesc, i, j);
    }
    r
  }
}
