/** `PlanesTaquillasController`: the administrator's and the client's
    locker pages (`AdminIndex`, `ClientIndex`) and the administrator's
    payment registration (`registrarPago`), which chains the new period
    from the payment ledger and then recomputes the user's cached
    "vigent" payment. */
module PlanesTaquillas {
  import opened Common
  import opened Sorting
  import opened Schema
  import opened UserModel
  import opened CuotaService

  // ---------------------------------------------------------------------
  // Ledger queries
  // ---------------------------------------------------------------------

  /** `PagoCuota::where('user_id', …)->orderBy('periodo_fin', 'desc')->first()`:
      the user's payment with the greatest period end, if the user has any. */
  function UltimoPagoPorFin(pagos: seq<Pago>, userId: int): (r: Option<Pago>)
    ensures r.None? <==> PagosDe(pagos, userId) == []
    ensures r.Some? ==> r.value in pagos && r.value.userId == userId
    ensures r.Some? ==> forall i :: 0 <= i < |pagos| && pagos[i].userId == userId ==> pagos[i].fin <= r.value.fin
  {
    var mine := PagosDe(pagos, userId);
    if mine == [] then None
    else
      SortByHeadLeast(mine, FinDesc);
      var head := SortBy(mine, FinDesc)[0];
      assert head in mine;
      assert forall i :: 0 <= i < |pagos| && pagos[i].userId == userId ==> pagos[i] in mine;
      Some(head)
  }

  /** `periodo_inicio <= now()` and `periodo_fin >= now()`: the two `date`
      columns stand for midnight at the start of their day, and `ahora` is
      the present instant in days. */
  predicate Vigente(p: Pago, ahora: real)
  {
    p.inicio as real <= ahora <= p.fin as real
  }

  /** At any instant after midnight, a payment is vigent iff it started on
      or before today and ends after today: a period whose last day is
      today no longer matches `periodo_fin >= now()`. */
  lemma VigenteTrasMedianoche(p: Pago, ahora: real)
    requires ahora.Floor as real < ahora
    ensures Vigente(p, ahora) <==> p.inicio <= ahora.Floor < p.fin
  {
    var hoy := ahora.Floor;
    assert hoy as real <= ahora < hoy as real + 1.0;
    if p.fin > hoy {
      assert p.fin as real >= hoy as real + 1.0;
    }
    if p.inicio > hoy {
      assert p.inicio as real >= hoy as real + 1.0;
    }
  }

  /** The row condition of the vigent-payment query. */
  function VigenteDe(userId: int, ahora: real): Pago -> bool
  {
    (p: Pago) => p.userId == userId && Vigente(p, ahora)
  }

  /** The rows the vigent-payment query keeps are exactly the user's
      payments vigent at `ahora`. */
  lemma VigentesFiltrados(pagos: seq<Pago>, userId: int, ahora: real)
    ensures var sp := Filter(pagos, VigenteDe(userId, ahora));
      (forall x :: x in sp ==> x in pagos && x.userId == userId && Vigente(x, ahora))
      && (forall i :: 0 <= i < |pagos| && pagos[i].userId == userId && Vigente(pagos[i], ahora) ==> pagos[i] in sp)
  {
    var sp := Filter(pagos, VigenteDe(userId, ahora));
    forall x | x in sp ensures x in pagos && x.userId == userId && Vigente(x, ahora) {
      var k :| 0 <= k < |sp| && sp[k] == x;
    }
    forall i | 0 <= i < |pagos| && pagos[i].userId == userId && Vigente(pagos[i], ahora) ensures pagos[i] in sp {
      assert VigenteDe(userId, ahora)(pagos[i]);
    }
  }

  /** The head of the rows ordered by latest end has the latest end. */
  lemma PrimeroPorFin(spanning: seq<Pago>)
    requires spanning != []
    ensures |SortBy(spanning, FinDesc)| > 0
    ensures SortBy(spanning, FinDesc)[0] in spanning
    ensures forall x :: x in spanning ==> x.fin <= SortBy(spanning, FinDesc)[0].fin
  {
    SortByHeadLeast(spanning, FinDesc);
    forall x | x in spanning ensures x.fin <= SortBy(spanning, FinDesc)[0].fin {
      var k :| 0 <= k < |spanning| && spanning[k] == x;
    }
  }

  /** The vigent-payment query of `registrarPago` at the instant `ahora`:
      the user's payments with `periodo_inicio <= now()` and
      `periodo_fin >= now()`, latest end first, and the first of them. */
  function PagoVigente(pagos: seq<Pago>, userId: int, ahora: real): (r: Option<Pago>)
    ensures r.None? <==> forall i :: 0 <= i < |pagos| ==> !(pagos[i].userId == userId && Vigente(pagos[i], ahora))
    ensures r.Some? ==> r.value in pagos && r.value.userId == userId && Vigente(r.value, ahora)
    ensures r.Some? ==> forall i :: 0 <= i < |pagos| && pagos[i].userId == userId && Vigente(pagos[i], ahora)
                          ==> pagos[i].fin <= r.value.fin
  {
    var spanning := Filter(pagos, VigenteDe(userId, ahora));
    VigentesFiltrados(pagos, userId, ahora);
    if spanning == [] then None
    else
      PrimeroPorFin(spanning);
      assert spanning[0] in spanning;
      Some(SortBy(spanning, FinDesc)[0])
  }

  // ---------------------------------------------------------------------
  // registrarPago
  // ---------------------------------------------------------------------

  /** The period `registrarPago` assigns: the day after the user's latest
      period end, even an expired one; today only for a first payment. */
  function PeriodoRegistro(pagos: seq<Pago>, userId: int, today: int, duracionDias: int): (p: Periodo)
    ensures Length(p) == duracionDias
    ensures PagosDe(pagos, userId) == [] ==> p.inicio == today
    ensures forall i :: 0 <= i < |pagos| && pagos[i].userId == userId ==> pagos[i].fin < p.inicio
    ensures PagosDe(pagos, userId) != [] ==> exists i :: 0 <= i < |pagos| && pagos[i].userId == userId && pagos[i].fin + 1 == p.inicio
  {
    var inicio := match UltimoPagoPorFin(pagos, userId)
      case None => today
      case Some(u) => u.fin + 1;
    Periodo(inicio, inicio + duracionDias - 1)
  }

  /** A user's payments never share a day. */
  ghost predicate DisjointPeriods(pagos: seq<Pago>)
  {
    forall i, j :: 0 <= i < |pagos| && 0 <= j < |pagos| && i != j && pagos[i].userId == pagos[j].userId
      ==> pagos[i].fin < pagos[j].inicio || pagos[j].fin < pagos[i].inicio
  }

  /** Appending the payment `registrarPago` creates keeps every user's
      periods disjoint. */
  lemma RegistroKeepsDisjoint(pagos: seq<Pago>, nuevo: Pago, today: int, duracionDias: int)
    requires DisjointPeriods(pagos)
    requires nuevo.inicio == PeriodoRegistro(pagos, nuevo.userId, today, duracionDias).inicio
    ensures DisjointPeriods(pagos + [nuevo])
  {
    var s := pagos + [nuevo];
    forall i, j | 0 <= i < |s| && 0 <= j < |s| && i != j && s[i].userId == s[j].userId
      ensures s[i].fin < s[j].inicio || s[j].fin < s[i].inicio
    {
      if i == |pagos| {
        assert s[j] == pagos[j];
      } else if j == |pagos| {
        assert s[i] == pagos[i];
      }
    }
  }

  /** The cached fields `registrarPago` writes: the vigent payment's end and
      plan, or NULL for both when no payment spans today. */
  function CacheDesde(u: User, vigente: Option<Pago>): (r: User)
    ensures r.id == u.id && r.numeroTaquilla == u.numeroTaquilla
    ensures vigente.None? ==> r.vencimiento.None? && r.planVigente.None?
    ensures vigente.Some? ==> r.vencimiento == Some(vigente.value.fin) && r.planVigente == Some(vigente.value.planId)
  {
    match vigente
    case None => u.(vencimiento := None, planVigente := None)
    case Some(p) => u.(vencimiento := Some(p.fin), planVigente := Some(p.planId))
  }

  /** The request validation of `registrarPago`: an existing plan (active or
      not), a non-negative amount and a reference of 1 to 255 characters. */
  predicate SolicitudValida(planes: seq<Plan>, planId: int, monto: real, referencia: string)
  {
    FindPlan(planes, planId).Some? && monto >= 0.0 && 1 <= |referencia| <= 255
  }

  datatype ErrorRegistro = ValidacionFallida | FalloPersistencia

  /** `registrarPago` for the authenticated user `userId` at the instant
      `ahora` (days since the epoch); its day `ahora.Floor` is the day of
      `now()->startOfDay()` and the stored payment date. `fault` stands for
      any exception between begin and commit; the transaction is then
      never committed and nothing changes. */
  method RegistrarPago(db: Database, userId: int, planId: int, monto: real, referencia: string,
                       ahora: real, fault: bool)
    returns (r: Result<Pago, ErrorRegistro>)
    requires db.Valid() && userId in db.users
    modifies db
    ensures db.Valid()
    ensures r == Err(ValidacionFallida) <==> !SolicitudValida(old(db.planes), planId, monto, referencia)
    ensures r == Err(FalloPersistencia) <==> SolicitudValida(old(db.planes), planId, monto, referencia) && fault
    ensures r.Err? ==> db.pagos == old(db.pagos) && db.users == old(db.users) && db.nextId == old(db.nextId)
    ensures r.Ok? ==>
      var plan := FindPlan(old(db.planes), planId).value;
      var periodo := PeriodoRegistro(old(db.pagos), userId, ahora.Floor, plan.duracionDias);
      r.value == Pago(old(db.nextId), userId, planId, monto, Some(referencia), periodo.inicio, periodo.fin, ahora.Floor)
      && db.pagos == old(db.pagos) + [r.value]
      && db.nextId == old(db.nextId) + 1
      && db.users == old(db.users)[userId := CacheDesde(old(db.users)[userId], PagoVigente(db.pagos, userId, ahora))]
    ensures db.productos == old(db.productos) && db.imagenes == old(db.imagenes)
    ensures db.carritos == old(db.carritos) && db.pedidos == old(db.pedidos)
    ensures db.pedidosCarrito == old(db.pedidosCarrito) && db.planes == old(db.planes)
    ensures db.justificantes == old(db.justificantes)
  {
    if !SolicitudValida(db.planes, planId, monto, referencia) {
      return Err(ValidacionFallida);
    }
    var today := ahora.Floor;
    var plan := FindPlan(db.planes, planId).value;
    var periodo := PeriodoRegistro(db.pagos, userId, today, plan.duracionDias);
    if fault {
      return Err(FalloPersistencia);
    }
    var pago := Pago(db.nextId, userId, plan.id, monto, Some(referencia), periodo.inicio, periodo.fin, today);
    var vigente := PagoVigente(db.pagos + [pago], userId, ahora);
    db.InsertarPago(pago, CacheDesde(db.users[userId], vigente));
    r := Ok(pago);
  }

  /** After an anticipated renewal (the new period starts after today) the
      cache still names the payment that was running before it. */
  lemma AnticipatedRenewalKeepsVigent(pagos: seq<Pago>, nuevo: Pago, ahora: real)
    requires nuevo.inicio > ahora.Floor
    ensures PagoVigente(pagos + [nuevo], nuevo.userId, ahora) == PagoVigente(pagos, nuevo.userId, ahora)
  {
    var sp := VigenteDe(nuevo.userId, ahora);
    assert nuevo.inicio as real >= ahora.Floor as real + 1.0 > ahora;
    FilterAppend(pagos, [nuevo], sp);
    assert Filter([nuevo], sp) == [];
    assert Filter(pagos + [nuevo], sp) == Filter(pagos, sp);
  }

  /** A payment chained from a period that ended before yesterday lies
      wholly in the past when it is short enough, so the user who has just
      paid is left with no vigent payment and a NULL cache. */
  lemma ChainedFromExpiredNotVigent(pagos: seq<Pago>, viejo: Pago, userId: int, ahora: real, duracionDias: int)
    requires pagos == [viejo] && viejo.userId == userId && viejo.fin + duracionDias < ahora.Floor
    requires viejo.inicio <= viejo.fin && 1 <= duracionDias
    ensures var p := PeriodoRegistro(pagos, userId, ahora.Floor, duracionDias);
      p.fin < ahora.Floor
      && PagoVigente(pagos + [Pago(2, userId, 1, 0.0, None, p.inicio, p.fin, ahora.Floor)], userId, ahora).None?
  {
    var p := PeriodoRegistro(pagos, userId, ahora.Floor, duracionDias);
    assert PagosDe(pagos, userId) == [viejo];
    assert UltimoPagoPorFin(pagos, userId) == Some(viejo);
    assert p.fin as real < ahora.Floor as real <= ahora;
  }

  /** A renewal registered on the last day of the running period, at any
      instant after midnight, leaves both cached fields NULL: the running
      period no longer matches `periodo_fin >= now()` and the new one only
      starts tomorrow. */
  lemma RenovacionUltimoDiaVaciaCache(actual: Pago, u: User, ahora: real, duracionDias: int)
    requires actual.userId == u.id && actual.inicio <= actual.fin == ahora.Floor
    requires ahora.Floor as real < ahora && 1 <= duracionDias
    ensures var p := PeriodoRegistro([actual], u.id, ahora.Floor, duracionDias);
      var nuevo := Pago(2, u.id, 1, 0.0, None, p.inicio, p.fin, ahora.Floor);
      var c := CacheDesde(u, PagoVigente([actual, nuevo], u.id, ahora));
      p.inicio == ahora.Floor + 1 && c.vencimiento.None? && c.planVigente.None?
  {
    var p := PeriodoRegistro([actual], u.id, ahora.Floor, duracionDias);
    var nuevo := Pago(2, u.id, 1, 0.0, None, p.inicio, p.fin, ahora.Floor);
    assert PagosDe([actual], u.id) == [actual];
    assert UltimoPagoPorFin([actual], u.id) == Some(actual);
    VigenteTrasMedianoche(actual, ahora);
    VigenteTrasMedianoche(nuevo, ahora);
    assert [actual, nuevo][0] == actual && [actual, nuevo][1] == nuevo;
  }

  // ---------------------------------------------------------------------
  // AdminIndex
  // ---------------------------------------------------------------------

  /** Order of the admin query: the relation's `periodo_fin desc` first,
      then the closure's `periodo_inicio desc`. */
  predicate FinThenInicioDesc(a: Pago, b: Pago)
  {
    a.fin > b.fin || (a.fin == b.fin && a.inicio >= b.inicio)
  }

  /** `$u->pagosCuotas->first()` in `AdminIndex`: greatest end, and among
      the payments with that end the greatest start. */
  function UltimoPagoAdmin(pagos: seq<Pago>, userId: int): (r: Option<Pago>)
    ensures r.None? <==> PagosDe(pagos, userId) == []
    ensures r.Some? ==> r.value in pagos && r.value.userId == userId
    ensures r.Some? ==> forall i :: 0 <= i < |pagos| && pagos[i].userId == userId ==>
      pagos[i].fin < r.value.fin || (pagos[i].fin == r.value.fin && pagos[i].inicio <= r.value.inicio)
  {
    var mine := PagosDe(pagos, userId);
    if mine == [] then None
    else
      SortByHeadLeast(mine, FinThenInicioDesc);
      var head := SortBy(mine, FinThenInicioDesc)[0];
      assert head in mine;
      assert forall i :: 0 <= i < |pagos| && pagos[i].userId == userId ==> pagos[i] in mine;
      Some(head)
  }

  /** The two behaviours of Carbon's `diffInDays($other, false)`: up to
      version 2 it counts whole days, truncated toward zero; from version 3
      it returns the exact difference, fraction included. Both versions
      satisfy the application's dependency constraints. */
  datatype Carbon = Carbon2 | Carbon3

  /** A day count truncated toward zero, as PHP's `(int)` cast does. */
  function Truncar(x: real): (t: int)
    ensures x >= 0.0 ==> 0 <= t && t as real <= x < t as real + 1.0
    ensures x < 0.0 ==> t <= 0 && t as real - 1.0 < x <= t as real
  {
    if x >= 0.0 then x.Floor else -((-x).Floor)
  }

  /** `$desde->diffInDays($hasta, false)` for two instants measured in days:
      the signed difference `hasta - desde`, whole under Carbon 2 and exact
      under Carbon 3. */
  function DiffInDays(c: Carbon, desde: real, hasta: real): (d: real)
    ensures c == Carbon3 ==> d == hasta - desde
    ensures c == Carbon2 ==> d == Truncar(hasta - desde) as real
  {
    if c == Carbon3 then hasta - desde else Truncar(hasta - desde) as real
  }

  /** Swapping the two instants flips the sign, under both versions. */
  lemma DiffInDaysAntisimetrica(c: Carbon, a: real, b: real)
    ensures DiffInDays(c, a, b) == -DiffInDays(c, b, a)
  {
    if c == Carbon2 && b - a < 0.0 {
      assert DiffInDays(c, a, b) == -((a - b).Floor as real);
      assert DiffInDays(c, b, a) == (a - b).Floor as real;
    }
  }

  /** Under Carbon 2 the count from the instant `ahora` to midnight of day
      `fin` is not negative exactly while today is not after `fin`. */
  lemma Carbon2NoNegativo(fin: int, ahora: real)
    ensures DiffInDays(Carbon2, ahora, fin as real) >= 0.0 <==> fin >= ahora.Floor
  {
    var hoy := ahora.Floor;
    assert hoy as real <= ahora < hoy as real + 1.0;
    if fin >= hoy + 1 {
      assert fin as real >= ahora;
    } else if fin == hoy {
      assert -1.0 < fin as real - ahora <= 0.0;
      assert (ahora - fin as real).Floor == 0;
    } else {
      assert ahora - fin as real >= 1.0;
      assert (ahora - fin as real).Floor >= 1;
    }
  }

  datatype EstadoAdmin = SinPlan | Activo | Vencido

  /** The `plan_vigente` summary: id, name and duration of the cached plan. */
  datatype PlanResumen = PlanResumen(id: int, nombre: string, duracionDias: int)

  /** One element of the `usuarios` list sent to the admin page. */
  datatype FilaAdmin = FilaAdmin(
    id: int, nombre: string, apellido: string, numeroTaquilla: Option<int>,
    planVigente: Option<PlanResumen>, ultimoPago: Option<int>, fechaFin: Option<int>,
    diasRestantes: Option<real>, estado: EstadoAdmin)

  /** The row `AdminIndex` builds for one user at the instant `ahora`: the
      days are `now()->diffInDays($fechaFin, false)`, from the present
      instant to midnight of the last period's end. Under Carbon 2 the row
      is active through the whole end day; under Carbon 3 it turns expired
      at midnight when that day starts. */
  function FilaDe(u: User, pagos: seq<Pago>, planes: seq<Plan>, ahora: real, c: Carbon): (f: FilaAdmin)
    ensures f.id == u.id && f.nombre == u.nombre && f.apellido == u.apellido
    ensures f.estado == SinPlan <==> PagosDe(pagos, u.id) == []
    ensures f.estado == SinPlan <==> f.diasRestantes.None?
    ensures c == Carbon2 ==>
      (f.estado == Activo <==> exists i :: 0 <= i < |pagos| && pagos[i].userId == u.id && pagos[i].fin >= ahora.Floor)
    ensures c == Carbon3 ==>
      (f.estado == Activo <==> exists i :: 0 <= i < |pagos| && pagos[i].userId == u.id && pagos[i].fin as real >= ahora)
    ensures f.diasRestantes.Some? ==> (f.estado == Activo <==> f.diasRestantes.value >= 0.0)
  {
    var plan := match u.planVigente
      case None => None
      case Some(id) => FindPlan(planes, id);
    var resumen := match plan
      case None => None
      case Some(p) => Some(PlanResumen(p.id, p.nombre, p.duracionDias));
    match UltimoPagoAdmin(pagos, u.id)
    case None =>
      FilaAdmin(u.id, u.nombre, u.apellido, u.numeroTaquilla, resumen, None, None, None, SinPlan)
    case Some(ultimo) =>
      var dias := DiffInDays(c, ahora, ultimo.fin as real);
      Carbon2NoNegativo(ultimo.fin, ahora);
      FilaAdmin(u.id, u.nombre, u.apellido, u.numeroTaquilla, resumen, Some(ultimo.inicio), Some(ultimo.fin),
                Some(dias), if dias >= 0.0 then Activo else Vencido)
  }

  /** On the last day of the latest period, at any instant after midnight,
      the row reads active under Carbon 2 (the count truncates to 0) and
      expired under Carbon 3 (the count is a negative fraction). */
  lemma UltimoDiaSegunCarbon(u: User, p: Pago, planes: seq<Plan>, ahora: real)
    requires p.userId == u.id && p.fin == ahora.Floor && ahora.Floor as real < ahora
    ensures FilaDe(u, [p], planes, ahora, Carbon2).estado == Activo
    ensures FilaDe(u, [p], planes, ahora, Carbon3).estado == Vencido
  {
    assert [p][0] == p;
  }

  /** `AdminIndex`: one row per user, in the order the users are listed,
      each without plan exactly when the user has no payment, and active
      exactly when its count of days is not negative. */
  function AdminIndex(users: seq<User>, pagos: seq<Pago>, planes: seq<Plan>, ahora: real, c: Carbon): (rows: seq<FilaAdmin>)
    ensures |rows| == |users|
    ensures forall i :: 0 <= i < |users| ==> rows[i].id == users[i].id
    ensures forall i :: 0 <= i < |users| ==> (rows[i].estado == SinPlan <==> PagosDe(pagos, users[i].id) == [])
    ensures forall i :: 0 <= i < |users| && rows[i].diasRestantes.Some? ==>
      (rows[i].estado == Activo <==> rows[i].diasRestantes.value >= 0.0)
  {
    seq(|users|, i requires 0 <= i < |users| => FilaDe(users[i], pagos, planes, ahora, c))
  }

  // ---------------------------------------------------------------------
  // ClientIndex
  // ---------------------------------------------------------------------

  /** `dias_restantes` of `ClientIndex` as written:
      `$vencimiento->diffInDays(now(), false)` measures from midnight of
      the expiry day to the present instant, so it is positive only once
      the expiry has passed and grows as it recedes. */
  function DiasRestantesClienteEscrito(u: User, ahora: real, c: Carbon): (d: Option<real>)
    ensures d.None? <==> u.vencimiento.None?
    ensures d.Some? && d.value > 0.0 ==> ahora > u.vencimiento.value as real
    ensures d.Some? && ahora >= u.vencimiento.value as real + 1.0 ==> d.value >= 1.0
  {
    match u.vencimiento
    case None => None
    case Some(v) => Some(DiffInDays(c, v as real, ahora))
  }

  /** `dias_restantes` as the page that shows it ("Vencido hace N días"
      for negatives) reads it: whole days from today to the expiry. */
  function DiasRestantesCliente(u: User, ahora: real): (d: Option<int>)
    ensures d.None? <==> u.vencimiento.None?
    ensures EsSocio(u) && d.Some? ==> (d.value >= 0 <==> CuotaVigente(u, ahora.Floor))
  {
    match u.vencimiento
    case None => None
    case Some(v) => Some(v - ahora.Floor)
  }

  /** As written the count runs the other way from the admin one: it is
      the opposite of measuring from now to the expiry. A subscription that
      expired three days ago is reported with at least 3 days remaining,
      where the page's reading gives -3. */
  lemma DiasRestantesClienteSignoInvertido(u: User, ahora: real, c: Carbon)
    requires u.vencimiento.Some?
    ensures DiasRestantesClienteEscrito(u, ahora, c).value == -DiffInDays(c, ahora, u.vencimiento.value as real)
    ensures u.vencimiento.value == ahora.Floor - 3 ==>
      DiasRestantesClienteEscrito(u, ahora, c).value >= 3.0 && DiasRestantesCliente(u, ahora) == Some(-3)
  {
    var v := u.vencimiento.value;
    DiffInDaysAntisimetrica(c, ahora, v as real);
    if v == ahora.Floor - 3 {
      assert ahora - v as real >= 3.0;
      if c == Carbon2 {
        assert (ahora - v as real).Floor >= 3;
      }
    }
  }

  /** `ultimo_plan_fin` of `ClientIndex`: the end of the user's latest period. */
  function UltimoPlanFin(pagos: seq<Pago>, userId: int): (r: Option<int>)
    ensures r.None? <==> PagosDe(pagos, userId) == []
    ensures r.Some? ==> forall i :: 0 <= i < |pagos| && pagos[i].userId == userId ==> pagos[i].fin <= r.value
    ensures r.Some? ==> exists i :: 0 <= i < |pagos| && pagos[i].userId == userId && pagos[i].fin == r.value
  {
    match UltimoPagoPorFin(pagos, userId)
    case None => None
    case Some(p) =>
      assert exists i :: 0 <= i < |pagos| && pagos[i] == p;
      Some(p.fin)
  }
}
