/** `PagoCuotaController`: the client's self-service renewal (`store`),
    which picks the plan from the amount paid and renews from the cached
    expiry, and the payment history of a user (`show`). */
module PagoCuota {
  import opened Common
  import opened Sorting
  import opened Schema
  import opened UserModel
  import opened CuotaService

  /** The plan lookup of `store`: the first active plan whose price equals
      the amount paid, in table order. */
  function PlanPorMonto(planes: seq<Plan>, monto: real): (r: Option<Plan>)
    ensures r.None? <==> forall i :: 0 <= i < |planes| ==> !(planes[i].activo && planes[i].precioTotal == monto)
    ensures r.Some? ==> (exists i :: 0 <= i < |planes| && planes[i] == r.value
                          && (forall j :: 0 <= j < i ==> !(planes[j].activo && planes[j].precioTotal == monto)))
    ensures r.Some? ==> r.value.activo && r.value.precioTotal == monto
  {
    if planes == [] then None
    else if planes[0].activo && planes[0].precioTotal == monto then Some(planes[0])
    else
      var r := PlanPorMonto(planes[1..], monto);
      if r.Some? then
        var i :| 0 <= i < |planes[1..]| && planes[1..][i] == r.value
          && (forall j :: 0 <= j < i ==> !(planes[1..][j].activo && planes[1..][j].precioTotal == monto));
        assert planes[i + 1] == r.value;
        r
      else r
  }

  /** The request validation of `store`: an amount of at least 0.01, a bank
      payment date not after today, and an acceptable receipt file. */
  predicate SolicitudValida(monto: real, fechaPagoBanco: int, justificanteValido: bool, today: int)
  {
    monto >= 0.01 && fechaPagoBanco <= today && justificanteValido
  }

  datatype ErrorStore = ValidacionFallida | MontoSinPlan | FalloPersistencia

  /** `store` for the authenticated user `userId`. The receipt is saved at
      `ruta`; `fault` stands for any exception inside the transaction,
      after which the transaction is rolled back and the file deleted. */
  method Store(db: Database, userId: int, monto: real, fechaPagoBanco: int, justificanteValido: bool,
               ruta: string, today: int, fault: bool)
    returns (r: Result<Pago, ErrorStore>)
    requires db.Valid() && userId in db.users
    modifies db
    ensures db.Valid()
    ensures r == Err(ValidacionFallida) <==> !SolicitudValida(monto, fechaPagoBanco, justificanteValido, today)
    ensures r == Err(MontoSinPlan) <==>
      SolicitudValida(monto, fechaPagoBanco, justificanteValido, today) && PlanPorMonto(old(db.planes), monto).None?
    ensures r == Err(FalloPersistencia) <==>
      SolicitudValida(monto, fechaPagoBanco, justificanteValido, today) && PlanPorMonto(old(db.planes), monto).Some? && fault
    ensures r.Err? ==> (db.pagos == old(db.pagos) && db.users == old(db.users)
                        && db.nextId == old(db.nextId) && db.justificantes == old(db.justificantes))
    ensures r.Ok? ==>
      var plan := PlanPorMonto(old(db.planes), monto).value;
      var periodo := CalcularPeriodoRenovacion(old(db.users)[userId].vencimiento, today, plan.duracionDias);
      r.value == Pago(old(db.nextId), userId, plan.id, monto, None, periodo.inicio, periodo.fin, fechaPagoBanco)
      && r.value.monto == plan.precioTotal && r.value.monto >= 0.01
      && db.pagos == old(db.pagos) + [r.value]
      && db.nextId == old(db.nextId) + 1
      && db.users == old(db.users)[userId := old(db.users)[userId].(vencimiento := Some(periodo.fin), planVigente := Some(plan.id))]
      && db.justificantes == old(db.justificantes) + {ruta}
    ensures db.productos == old(db.productos) && db.imagenes == old(db.imagenes)
    ensures db.carritos == old(db.carritos) && db.pedidos == old(db.pedidos)
    ensures db.pedidosCarrito == old(db.pedidosCarrito) && db.planes == old(db.planes)
  {
    if !SolicitudValida(monto, fechaPagoBanco, justificanteValido, today) {
      return Err(ValidacionFallida);
    }
    var encontrado := PlanPorMonto(db.planes, monto);
    if encontrado.None? {
      return Err(MontoSinPlan);
    }
    var plan := encontrado.value;
    if fault {
      return Err(FalloPersistencia);
    }
    db.justificantes := db.justificantes + {ruta};
    var user := db.users[userId];
    var periodo := CalcularPeriodoRenovacion(user.vencimiento, today, plan.duracionDias);
    var pago := Pago(db.nextId, userId, plan.id, monto, None, periodo.inicio, periodo.fin, fechaPagoBanco);
    db.InsertarPago(pago, user.(vencimiento := Some(periodo.fin), planVigente := Some(plan.id)));
    r := Ok(pago);
  }

  /** Order of `show`: latest period start first. */
  predicate InicioDesc(a: Pago, b: Pago)
  {
    a.inicio >= b.inicio
  }

  /** The JSON answer of `show`: an HTTP status and the `data` list. */
  datatype Respuesta = Respuesta(status: int, data: seq<Pago>)

  /** `show`: 404 with an empty list when the user has no payments,
      otherwise 200 with all of them, latest start first. */
  function Show(pagos: seq<Pago>, userId: int): (r: Respuesta)
    ensures r.status == 404 <==> PagosDe(pagos, userId) == []
    ensures r.status == 404 || r.status == 200
    ensures r.status == 404 ==> r.data == []
    ensures multiset(r.data) == multiset(PagosDe(pagos, userId))
    ensures forall i, j :: 0 <= i < j < |r.data| ==> r.data[i].inicio >= r.data[j].inicio
  {
    var mine := PagosDe(pagos, userId);
    if mine == [] then Respuesta(404, [])
    else
      var sorted := SortBy(mine, InicioDesc);
      forall i, j | 0 <= i < j < |sorted| ensures sorted[i].inicio >= sorted[j].inicio {
        SortedPairwise(sorted, InicioDesc, i, j);
      }
      Respuesta(200, sorted)
  }
}
