/** `CuotaService::calcularPeriodoRenovacion`: the period bought by a
    renewal, decided from the user's cached expiry alone. */
module CuotaService {
  import opened Common
  import opened Schema
  import opened UserModel

  /** An inclusive range of day numbers `[inicio, fin]`. */
  datatype Periodo = Periodo(inicio: int, fin: int)

  predicate Covers(p: Periodo, day: int)
  {
    p.inicio <= day <= p.fin
  }

  /** Number of days in the inclusive period. */
  function Length(p: Periodo): int
  {
    p.fin - p.inicio + 1
  }

  /** An expiry "is future" when it lies after today: the expiry is stored
      as a date, so on its own day it is midnight, already past. */
  predicate IsFuture(vencimiento: Option<int>, today: int)
  {
    vencimiento.Some? && vencimiento.value > today
  }

  /** The renewal period: the day after a future cached expiry, otherwise
      today, for `duracionDias` inclusive days. It reads nothing but the
      cached expiry, today and the duration. */
  function CalcularPeriodoRenovacion(vencimiento: Option<int>, today: int, duracionDias: int): (p: Periodo)
    ensures IsFuture(vencimiento, today) ==> p.inicio == vencimiento.value + 1
    ensures !IsFuture(vencimiento, today) ==> p.inicio == today
    ensures Length(p) == duracionDias
    ensures p.inicio >= today
  {
    var inicio := if IsFuture(vencimiento, today) then vencimiento.value + 1 else today;
    Periodo(inicio, inicio + duracionDias - 1)
  }

  /** With at least one day bought, the period is non-empty. */
  lemma PeriodNonEmpty(vencimiento: Option<int>, today: int, duracionDias: int)
    requires duracionDias >= 1
    ensures CalcularPeriodoRenovacion(vencimiento, today, duracionDias).inicio
         <= CalcularPeriodoRenovacion(vencimiento, today, duracionDias).fin
  {
  }

  /** An anticipated renewal continues the current period: the day after
      the old expiry is the first new day, so there is no gap and no day
      is paid twice. */
  lemma AnticipatedRenewalContiguous(vencimiento: int, today: int, duracionDias: int, day: int)
    requires vencimiento > today && duracionDias >= 1
    ensures var p := CalcularPeriodoRenovacion(Some(vencimiento), today, duracionDias);
      p.inicio == vencimiento + 1 && !(day <= vencimiento && Covers(p, day))
  {
  }

  /** A renewal never shortens what is paid for: the new period ends at
      least `duracionDias` days after the later of the old expiry and the
      day before today. */
  lemma RenewalExtendsCoverage(vencimiento: Option<int>, today: int, duracionDias: int)
    requires duracionDias >= 1
    ensures var p := CalcularPeriodoRenovacion(vencimiento, today, duracionDias);
      p.fin >= today + duracionDias - 1
      && (vencimiento.Some? ==> p.fin >= vencimiento.value)
  {
  }

  /** A socio whose cache is overwritten with the renewal's end, as
      `PagoCuotaController::store` does, is `cuota_vigente` today. */
  lemma RenewedSocioIsVigente(u: User, today: int, duracionDias: int, planId: int)
    requires EsSocio(u) && duracionDias >= 1
    ensures var p := CalcularPeriodoRenovacion(u.vencimiento, today, duracionDias);
      CuotaVigente(u.(vencimiento := Some(p.fin), planVigente := Some(planId)), today)
  {
  }
}
