/** The user card (`UsuarioTaquillaCard.jsx`): how it reads the dates it is
    given, how it shows them, and the days-left bar and label. Dates are
    local day numbers (a `Date` set to local midnight); the engine's reading
    of strings other than `DD/MM/YYYY` is the parameter `parse`, and today's
    local day is the parameter `hoy`. */
module UsuarioCard {
  import opened Common
  import opened Dates
  import PlanesTaquillas
  import PlanesAdmin

  /** `parsearFecha`: nothing for an empty value; a `DD/MM/YYYY` string is
      `new Date(anio, mes - 1, dia)` with the constructor's overflow rules;
      anything else is the engine's reading, `None` for an Invalid Date. */
  function ParsearFecha(fecha: Option<string>, parse: string -> Option<int>): (r: Option<int>)
    ensures fecha.None? || fecha == Some("") ==> r.None?
    ensures fecha.Some? && IsDayMonthYear(fecha.value) ==> r == Some(LocalDeDiaMesAnio(fecha.value))
    ensures fecha.Some? && fecha.value != "" && !IsDayMonthYear(fecha.value) ==> r == parse(fecha.value)
  {
    if fecha.None? || fecha.value == "" then None
    else if IsDayMonthYear(fecha.value) then Some(LocalDeDiaMesAnio(fecha.value))
    else parse(fecha.value)
  }

  /** `new Date(anio, mes - 1, dia)` for the three fields of `DD/MM/YYYY`. */
  function LocalDeDiaMesAnio(s: string): int
    requires IsDayMonthYear(s)
  {
    JsLocalDate(DigitsValue(s[6..10]), DigitsValue(s[3..5]) - 1, DigitsValue(s[0..2]))
  }

  /** A date the card writes as `DD/MM/YYYY` reads back as that very day
      (for years from 100 on, which the constructor does not remap). */
  lemma ParsearFechaFormateada(y: nat, m: nat, d: nat, parse: string -> Option<int>)
    requires 100 <= y < 10000 && IsCalendarDate(y, m, d)
    ensures ParsearFecha(Some(FormatDayMonthYear(y, m, d)), parse) == Some(DaysFromCivil(y, m, d))
  {
    FormatDayMonthYearRoundTrip(y, m, d);
  }

  /** A year written `00YY` is read as 19YY, as the `Date` constructor does. */
  lemma ParsearFechaSigloXX(y: nat, m: nat, d: nat, parse: string -> Option<int>)
    requires y < 100 && IsCalendarDate(1900 + y, m, d)
    ensures ParsearFecha(Some(FormatDayMonthYear(y, m, d)), parse) == Some(DaysFromCivil(1900 + y, m, d))
  {
    FormatDayMonthYearRoundTrip(y, m, d);
  }

  /** What the card shows for a date. */
  datatype Mostrada = Dia(day: int) | Literal(texto: string) | SinFecha

  /** `formatearFecha`: a readable date is shown as a date; an unreadable
      value other than `-` is shown as it came; otherwise "Sin fecha". */
  function FormatearFecha(fecha: Option<string>, parse: string -> Option<int>): (r: Mostrada)
    ensures r.Dia? <==> ParsearFecha(fecha, parse).Some?
    ensures r.Dia? ==> r.day == ParsearFecha(fecha, parse).value
    ensures r.Literal? <==> ParsearFecha(fecha, parse).None? && fecha.Some? && fecha.value != "" && fecha.value != "-"
    ensures r.Literal? ==> r.texto == fecha.value
  {
    match ParsearFecha(fecha, parse)
    case Some(d) => Dia(d)
    case None =>
      if fecha.Some? && fecha.value != "" && fecha.value != "-" then Literal(fecha.value) else SinFecha
  }

  /** `calcularDiasRestantes`: both dates are set to local midnight before
      subtracting, so the result is the number of calendar days from today
      to the end date, 0 on the end date itself. */
  function DiasRestantes(fecha: Option<string>, hoy: int, parse: string -> Option<int>): (d: Option<int>)
    ensures d.None? <==> ParsearFecha(fecha, parse).None?
    ensures d.Some? ==> hoy + d.value == ParsearFecha(fecha, parse).value
  {
    match ParsearFecha(fecha, parse)
    case None => None
    case Some(v) => Some(v - hoy)
  }

  datatype ColorBarra = Gris | Verde | Rojo

  /** `barraColor`: gray without days, green from 0 up, red below. */
  function BarraColor(d: Option<int>): (c: ColorBarra)
    ensures c == Gris <==> d.None?
    ensures c == Verde <==> d.Some? && d.value >= 0
    ensures c == Rojo <==> d.Some? && d.value < 0
  {
    if d.None? then Gris else if d.value >= 0 then Verde else Rojo
  }

  /** `porcentajeBarra` is the admin page's clamped percentage. The bar is
      red exactly when the end date has passed, and then (for a plan of
      non-negative duration) it is empty: the card never shows any red. */
  lemma BarraRojaVacia(fecha: Option<string>, hoy: int, parse: string -> Option<int>,
                       plan: Option<PlanesTaquillas.PlanResumen>)
    ensures var d := DiasRestantes(fecha, hoy, parse);
      (BarraColor(d) == Rojo && (plan.None? || plan.value.duracionDias >= 0) ==> PlanesAdmin.Porcentaje(d, plan) == 0.0)
      && (BarraColor(d) == Gris ==> PlanesAdmin.Porcentaje(d, plan) == 0.0)
      && (BarraColor(d) == Rojo <==> ParsearFecha(fecha, parse).Some? && ParsearFecha(fecha, parse).value < hoy)
  {
    var d := DiasRestantes(fecha, hoy, parse);
    if d.Some? && d.value < 0 && plan.Some? && plan.value.duracionDias > 0 {
      assert d.value as real / plan.value.duracionDias as real < 0.0;
    }
  }

  /** The text under the bar, absent without days. */
  datatype Etiqueta = Restantes(dias: nat) | Vencidos(dias: nat)

  function EtiquetaDe(d: Option<int>): (e: Option<Etiqueta>)
    ensures e.None? <==> d.None?
    ensures e.Some? ==> (e.value.Restantes? <==> d.value >= 0)
    ensures e.Some? && e.value.Restantes? ==> e.value.dias == d.value
    ensures e.Some? && e.value.Vencidos? ==> e.value.dias == -d.value
  {
    if d.None? then None
    else if d.value >= 0 then Some(Restantes(d.value))
    else Some(Vencidos(-d.value))
  }

  /** Label and colour agree: "N días restantes" is shown on a green bar,
      "N días vencidos" on a red one, and different days give different
      labels. */
  lemma EtiquetaYColor(a: Option<int>, b: Option<int>)
    ensures EtiquetaDe(a).Some? && EtiquetaDe(a).value.Restantes? <==> BarraColor(a) == Verde
    ensures EtiquetaDe(a).Some? && EtiquetaDe(a).value.Vencidos? <==> BarraColor(a) == Rojo
    ensures EtiquetaDe(a) == EtiquetaDe(b) ==> a == b
  {
    if EtiquetaDe(a) == EtiquetaDe(b) && a.Some? && b.Some? {
      assert a.value == b.value;
    }
  }
}
