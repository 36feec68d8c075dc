/** The three copies of the renewal rule side by side: `registrarPago`
    chains from the ledger's latest period end; `PagoCuotaController::store`
    applies `CuotaService` to the cached expiry; the client preview applies
    the same rule to `ultimo_plan_fin`, the ledger's latest end. */
module RenewalRules {
  import opened Common
  import opened Schema
  import opened UserModel
  import opened CuotaService
  import opened PlanesTaquillas

  /** `CuotaService` fed with the ledger's latest end (what the client
      preview does) and `registrarPago` pick the same period exactly when
      the user has no payment, the latest end is after today, or it was
      yesterday. An end of today or earlier than yesterday splits them. */
  lemma LedgerRulesAgreeIff(pagos: seq<Pago>, userId: int, today: int, duracionDias: int)
    ensures var fin := UltimoPlanFin(pagos, userId);
      CalcularPeriodoRenovacion(fin, today, duracionDias) == PeriodoRegistro(pagos, userId, today, duracionDias)
      <==> fin.None? || fin.value > today || fin.value == today - 1
  {
    var fin := UltimoPlanFin(pagos, userId);
    var ultimo := UltimoPagoPorFin(pagos, userId);
    assert fin.None? <==> ultimo.None?;
    assert fin.Some? ==> fin.value == ultimo.value.fin;
  }

  /** When the user's latest payment ends today, the cache-based rule
      starts the new period today, inside that payment, so today is paid
      for twice; `registrarPago` starts the new period tomorrow. */
  lemma ExpiryTodayPaidTwice(pagos: seq<Pago>, userId: int, today: int, duracionDias: int)
    requires duracionDias >= 1
    requires UltimoPagoPorFin(pagos, userId).Some?
    requires UltimoPagoPorFin(pagos, userId).value.inicio <= today == UltimoPagoPorFin(pagos, userId).value.fin
    ensures var ultimo := UltimoPagoPorFin(pagos, userId).value;
      var p := CalcularPeriodoRenovacion(UltimoPlanFin(pagos, userId), today, duracionDias);
      p.inicio == today && Covers(p, today) && Covers(Periodo(ultimo.inicio, ultimo.fin), today)
    ensures PeriodoRegistro(pagos, userId, today, duracionDias).inicio == today + 1
  {
  }

  /** When the last period ended before yesterday, `registrarPago` starts
      the new period on a day already past, leaving days of the new
      payment unusable, while the cache-based rule starts today. */
  lemma ExpiredChainStartsInPast(pagos: seq<Pago>, userId: int, today: int, duracionDias: int)
    requires UltimoPlanFin(pagos, userId).Some? && UltimoPlanFin(pagos, userId).value < today - 1
    ensures PeriodoRegistro(pagos, userId, today, duracionDias).inicio < today
    ensures CalcularPeriodoRenovacion(UltimoPlanFin(pagos, userId), today, duracionDias).inicio == today
  {
    assert UltimoPagoPorFin(pagos, userId).value.fin == UltimoPlanFin(pagos, userId).value;
  }

  /** Fed with the ledger's latest end, the cache-based rule keeps every
      user's periods disjoint unless that end is today. */
  lemma CacheRenewalKeepsDisjointUnlessToday(pagos: seq<Pago>, nuevo: Pago, today: int, duracionDias: int)
    requires DisjointPeriods(pagos)
    requires var fin := UltimoPlanFin(pagos, nuevo.userId);
      fin.None? || fin.value != today
    requires var p := CalcularPeriodoRenovacion(UltimoPlanFin(pagos, nuevo.userId), today, duracionDias);
      nuevo.inicio == p.inicio && nuevo.fin == p.fin
    ensures DisjointPeriods(pagos + [nuevo])
  {
    var fin := UltimoPlanFin(pagos, nuevo.userId);
    var s := pagos + [nuevo];
    forall i, j | 0 <= i < |s| && 0 <= j < |s| && i != j && s[i].userId == s[j].userId
      ensures s[i].fin < s[j].inicio || s[j].fin < s[i].inicio
    {
      if i == |pagos| {
        assert s[j] == pagos[j];
        assert pagos[j].fin <= fin.value;
      } else if j == |pagos| {
        assert s[i] == pagos[i];
        assert pagos[i].fin <= fin.value;
      }
    }
  }

  /** The sequence that breaks the ledger: a payment registered through
      `registrarPago` ahead of time leaves the cache at the running
      period's end, so a later `store` renews from there and buys again
      the days the registered payment already covers. */
  lemma StoreAfterAnticipatedRegistroOverlaps(actual: Pago, registrado: Pago, comprado: Pago, ahora: real,
                                              d1: int, d2: int)
    requires actual.userId == registrado.userId == comprado.userId
    requires actual.inicio <= ahora.Floor < actual.fin && d1 >= 1 && d2 >= 1
    requires var p := PeriodoRegistro([actual], actual.userId, ahora.Floor, d1);
      registrado.inicio == p.inicio && registrado.fin == p.fin
    requires var u := PagoVigente([actual, registrado], actual.userId, ahora);
      var p := CalcularPeriodoRenovacion(if u.None? then None else Some(u.value.fin), ahora.Floor, d2);
      comprado.inicio == p.inicio && comprado.fin == p.fin
    ensures PagoVigente([actual, registrado], actual.userId, ahora) == Some(actual)
    ensures registrado.inicio == comprado.inicio == actual.fin + 1
    ensures DisjointPeriods([actual, registrado]) && !DisjointPeriods([actual, registrado, comprado])
  {
    RegistroAnticipado(actual, registrado, ahora, d1);
    assert comprado.inicio == actual.fin + 1 by {
      assert IsFuture(Some(actual.fin), ahora.Floor);
    }
    assert DisjointPeriods([actual, registrado]) by {
      var t := [actual, registrado];
      assert t[0].fin < t[1].inicio;
    }
    var s := [actual, registrado, comprado];
    assert s[1].userId == s[2].userId && !(s[1].fin < s[2].inicio || s[2].fin < s[1].inicio) by {
      PeriodNonEmpty(Some(actual.fin), ahora.Floor, d2);
      assert registrado.inicio <= registrado.fin;
    }
  }

  /** A payment registered while another is running chains after it and
      leaves that one as the vigent payment. */
  lemma RegistroAnticipado(actual: Pago, registrado: Pago, ahora: real, d1: int)
    requires actual.userId == registrado.userId
    requires actual.inicio <= ahora.Floor < actual.fin
    requires registrado.inicio == PeriodoRegistro([actual], actual.userId, ahora.Floor, d1).inicio
    ensures registrado.inicio == actual.fin + 1
    ensures PagoVigente([actual, registrado], actual.userId, ahora) == Some(actual)
  {
    RegistroTrasUnico(actual, ahora.Floor, d1);
    AnticipatedRenewalKeepsVigent([actual], registrado, ahora);
    assert [actual] + [registrado] == [actual, registrado];
    VigenteUnico(actual, ahora);
  }

  /** A single payment running at `ahora` is the vigent one. */
  lemma VigenteUnico(actual: Pago, ahora: real)
    requires actual.inicio <= ahora.Floor < actual.fin
    ensures PagoVigente([actual], actual.userId, ahora) == Some(actual)
  {
    assert actual.inicio as real <= ahora.Floor as real <= ahora;
    assert actual.fin as real >= ahora.Floor as real + 1.0 > ahora;
    assert [actual][0] == actual;
  }

  /** With a single payment on record, `registrarPago` chains right after it. */
  lemma RegistroTrasUnico(actual: Pago, today: int, d: int)
    ensures PeriodoRegistro([actual], actual.userId, today, d).inicio == actual.fin + 1
  {
    assert PagosDe([actual], actual.userId) == [actual];
    assert UltimoPagoPorFin([actual], actual.userId) == Some(actual);
  }
}
