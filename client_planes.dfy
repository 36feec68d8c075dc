/** The client's locker page (`PlanesTaquillasClient.jsx`): how it reads
    the dates the server sends, the renewal preview it shows before a
    payment is confirmed, and the label and colour of the days-remaining
    figure. A JavaScript `Date` is a local day number or Invalid Date; the
    engine's parsing of anything but a local `YYYY-MM-DDT00:00:00` string
    is the parameter `parse`. */
module PlanesClient {
  import opened Common
  import opened Dates
  import opened Schema
  import opened CuotaService

  /** A `Date` object at local midnight: its day, or `None` for Invalid Date. */
  class FechaJs {
    var dia: Option<int>

    constructor (dia: Option<int>)
      ensures this.dia == dia
    {
      this.dia := dia;
    }

    /** `setDate(getDate() + k)`: moves the date by `k` days (see
        `Dates.SetDateShifts`); an Invalid Date stays invalid. */
    method DesplazarDias(k: int)
      modifies this
      ensures dia == (if old(dia).Some? then Some(old(dia).value + k) else None)
    {
      if dia.Some? {
        dia := Some(dia.value + k);
      }
    }
  }

  /** `new Date(t)`: a local date-time at midnight with a real calendar
      date denotes that day; any other string is left to the engine. */
  function NuevaFecha(t: string, parse: string -> Option<int>): (r: Option<int>)
    ensures |t| == 19 && t[10..] == "T00:00:00" && IsYearMonthDay(t[..10]) && FechaReal(t[..10])
            ==> r == Some(DiaCivil(t[..10]))
  {
    if |t| == 19 && t[10..] == "T00:00:00" && IsYearMonthDay(t[..10]) && FechaReal(t[..10])
    then Some(DiaCivil(t[..10]))
    else parse(t)
  }

  /** The fields of a `YYYY-MM-DD` string name a day of the calendar. */
  predicate FechaReal(s: string)
    requires IsYearMonthDay(s)
  {
    IsCalendarDate(DigitsValue(s[..4]), DigitsValue(s[5..7]), DigitsValue(s[8..10]))
  }

  /** The day number a `YYYY-MM-DD` string names. */
  function DiaCivil(s: string): int
    requires IsYearMonthDay(s) && FechaReal(s)
  {
    DaysFromCivil(DigitsValue(s[..4]), DigitsValue(s[5..7]), DigitsValue(s[8..10]))
  }

  /** A string as both `formatearFecha` and `handleSubmit` read it: a bare
      `YYYY-MM-DD` gets `T00:00:00` appended so it is local midnight. */
  function LeerFecha(s: string, parse: string -> Option<int>): (r: Option<int>)
  {
    if IsYearMonthDay(s) then NuevaFecha(s + "T00:00:00", parse) else parse(s)
  }

  /** A `YYYY-MM-DD` string holding a real calendar date is that day,
      whatever the engine does with other strings. */
  lemma LeerFechaLocal(s: string, parse: string -> Option<int>)
    requires IsYearMonthDay(s) && FechaReal(s)
    ensures LeerFecha(s, parse) == Some(DiaCivil(s))
  {
    var t := s + "T00:00:00";
    assert t[..10] == s && t[10..] == "T00:00:00";
  }

  /** A value `formatearFecha` may receive. */
  datatype Valor = Nulo | Texto(s: string) | Objeto(dia: Option<int>)

  /** What the page shows for a date: `-`, a day, or "Invalid Date". */
  datatype Mostrada = Guion | Dia(day: int) | FechaInvalida

  /** `formatearFecha`: falsy values show `-`; strings and `Date` objects
      show their day, or "Invalid Date". */
  function FormatearFecha(v: Valor, parse: string -> Option<int>): (r: Mostrada)
    ensures r == Guion <==> v.Nulo? || v == Texto("")
    ensures v.Objeto? ==> (r == FechaInvalida <==> v.dia.None?)
    ensures v.Texto? && v.s != "" ==> (r.Dia? <==> LeerFecha(v.s, parse).Some?)
  {
    match v
    case Nulo => Guion
    case Texto(s) =>
      if s == "" then Guion
      else (match LeerFecha(s, parse) case None => FechaInvalida case Some(d) => Dia(d))
    case Objeto(d) =>
      if d.None? then FechaInvalida else Dia(d.value)
  }

  /** The day `handleSubmit` takes as the end of the last period:
      `ultimo_plan_fin` when present and readable. */
  function DiaUltimoFin(ultimoPlanFin: Option<string>, parse: string -> Option<int>): (r: Option<int>)
    ensures ultimoPlanFin.None? || ultimoPlanFin == Some("") ==> r.None?
  {
    if ultimoPlanFin.None? || ultimoPlanFin.value == "" then None
    else LeerFecha(ultimoPlanFin.value, parse)
  }

  /** A plan as the page lists it. */
  datatype PlanCliente = PlanCliente(id: int, nombre: string, duracionDias: int, precioTotal: real)

  /** The callback of `planes.find(p => p.id == planSeleccionado)`. */
  function ConId(id: int): PlanCliente -> bool
  {
    (p: PlanCliente) => p.id == id
  }

  /** The outcome of submitting the form. */
  datatype Envio =
    | FaltanDatos                    // the error alert, no confirmation
    | SinPlan                        // the selected id is not listed: nothing happens
    | Confirmacion(plan: PlanCliente, inicio: Mostrada, fin: Mostrada)

  /** `handleSubmit`. `planSeleccionado` is the selected option's plan id,
      `None` for the empty option. The preview is exactly the renewal rule
      of `CuotaService` applied to the last period's end. */
  method HandleSubmit(planSeleccionado: Option<int>, referencia: string, planes: seq<PlanCliente>,
                      ultimoPlanFin: Option<string>, today: int, parse: string -> Option<int>)
    returns (r: Envio)
    ensures r == FaltanDatos <==> planSeleccionado.None? || referencia == ""
    ensures r == SinPlan <==> planSeleccionado.Some? && referencia != "" && Primero(planes, ConId(planSeleccionado.value)).None?
    ensures r.Confirmacion? ==>
      var p := CalcularPeriodoRenovacion(DiaUltimoFin(ultimoPlanFin, parse), today, r.plan.duracionDias);
      r.plan == Primero(planes, ConId(planSeleccionado.value)).value && r.inicio == Dia(p.inicio) && r.fin == Dia(p.fin)
  {
    if planSeleccionado.None? || referencia == "" {
      return FaltanDatos;
    }
    var encontrado := Primero(planes, ConId(planSeleccionado.value));
    if encontrado.None? {
      return SinPlan;
    }
    var plan := encontrado.value;
    var fechaInicio: FechaJs;
    var now := new FechaJs(Some(today));
    if ultimoPlanFin.Some? && ultimoPlanFin.value != "" {
      var ultimoFin := new FechaJs(LeerFecha(ultimoPlanFin.value, parse));
      // an Invalid Date compares false, so the period starts today
      if ultimoFin.dia.Some? && ultimoFin.dia.value > now.dia.value {
        fechaInicio := new FechaJs(ultimoFin.dia);
        fechaInicio.DesplazarDias(1);
      } else {
        fechaInicio := now;
      }
    } else {
      fechaInicio := now;
    }
    var fechaFin := new FechaJs(fechaInicio.dia);
    fechaFin.DesplazarDias(plan.duracionDias - 1);
    r := Confirmacion(plan, FormatearFecha(Objeto(fechaInicio.dia), parse), FormatearFecha(Objeto(fechaFin.dia), parse));
  }

  /** The days figure the page shows: `dias_restantes || 0`. */
  function DiasMostrados(diasRestantes: Option<int>): int
  {
    if diasRestantes.None? then 0 else diasRestantes.value
  }

  /** The text of the days figure: the number when positive, "Vencido hace
      |d| días" when negative, 0 otherwise. */
  datatype EtiquetaDias = Numero(n: int) | VencidoHace(dias: nat)

  function Etiqueta(d: int): (e: EtiquetaDias)
    ensures e.Numero? ==> e.n == d && d >= 0
    ensures e.VencidoHace? ==> e.dias == -d && d < 0
  {
    if d > 0 then Numero(d)
    else if d < 0 then VencidoHace(-d)
    else Numero(0)
  }

  datatype Color = Rojo | Amarillo | Verde

  /** The colour of the days figure: red when negative, yellow under a
      week, green otherwise. */
  function ColorDias(d: int): (c: Color)
    ensures c == Rojo <==> d < 0
    ensures c == Amarillo <==> 0 <= d < 7
    ensures c == Verde <==> d >= 7
  {
    if d < 0 then Rojo else if d < 7 then Amarillo else Verde
  }

  /** Different figures get different texts, and the text is red exactly
      when it says the subscription has expired. */
  lemma EtiquetaInyectivaYColor(a: int, b: int)
    ensures Etiqueta(a) == Etiqueta(b) ==> a == b
    ensures ColorDias(a) == Rojo <==> Etiqueta(a).VencidoHace?
  {
  }
}
