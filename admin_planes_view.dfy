/** The admin locker page (`PlanesTaquillasAdmin.jsx`): the days left that
    the page recomputes from each user's `fecha_fin`, the status, progress
    figures, colours and label it derives from them, and the contact pop-up.
    Instants are real numbers of days since 1970-01-01T00:00 UTC; the
    calendar day of an instant is its floor. */
module PlanesAdmin {
  import opened Common
  import opened Dates
  import PlanesClient
  import PlanesTaquillas

  /** `new Date(s)`: a date-only `YYYY-MM-DD` string naming a real date is
      UTC midnight of that day; the engine's reading of any other string is
      the parameter `parse` (`None` for an Invalid Date). */
  function Instante(s: string, parse: string -> Option<real>): Option<real>
  {
    if IsYearMonthDay(s) && PlanesClient.FechaReal(s) then Some(PlanesClient.DiaCivil(s) as real)
    else parse(s)
  }

  /** A `fecha_fin` the page cannot turn into a date: null, empty, or
      Invalid Date. */
  predicate SinFecha(fecha: Option<string>, parse: string -> Option<real>)
  {
    fecha.None? || fecha.value == "" || Instante(fecha.value, parse).None?
  }

  /** `calcularDiasRestantes` as written: the time from the present instant
      `ahora` to the UTC midnight that starts the end day, in days, rounded
      down. */
  function DiasRestantesEscrito(fecha: Option<string>, ahora: real, parse: string -> Option<real>): (d: Option<int>)
    ensures d.None? <==> SinFecha(fecha, parse)
    ensures d.Some? ==> var t := Instante(fecha.value, parse).value;
      d.value as real <= t - ahora < d.value as real + 1.0
  {
    if fecha.None? || fecha.value == "" then None
    else
      match Instante(fecha.value, parse)
      case None => None
      case Some(t) => Some((t - ahora).Floor)
  }

  /** Days left counted in calendar days, the end day itself being day 0:
      what the server's `dias_restantes` and the user card count. */
  function DiasRestantes(fecha: Option<string>, ahora: real, parse: string -> Option<real>): (d: Option<int>)
    ensures d.None? <==> SinFecha(fecha, parse)
    ensures d.Some? ==> d.value == Instante(fecha.value, parse).value.Floor - ahora.Floor
  {
    if fecha.None? || fecha.value == "" then None
    else
      match Instante(fecha.value, parse)
      case None => None
      case Some(t) => Some(t.Floor - ahora.Floor)
  }

  /** For an end date sent as `YYYY-MM-DD`, the calendar count is the end
      day minus today's day, as the server computes it. */
  lemma DiasRestantesFechaSimple(s: string, ahora: real, parse: string -> Option<real>)
    requires IsYearMonthDay(s) && PlanesClient.FechaReal(s)
    ensures DiasRestantes(Some(s), ahora, parse) == Some(PlanesClient.DiaCivil(s) - ahora.Floor)
    ensures DiasRestantes(Some(s), ahora, parse).value >= 0 <==> PlanesClient.DiaCivil(s) >= ahora.Floor
  {
    assert (PlanesClient.DiaCivil(s) as real).Floor == PlanesClient.DiaCivil(s);
  }

  /** As written, a date-only end date is counted one day short at every
      instant but midnight UTC; exactly at midnight both counts agree. */
  lemma DiasRestantesEscritoUnDiaMenos(s: string, ahora: real, parse: string -> Option<real>)
    requires IsYearMonthDay(s) && PlanesClient.FechaReal(s)
    ensures ahora != ahora.Floor as real ==>
      DiasRestantesEscrito(Some(s), ahora, parse).value == DiasRestantes(Some(s), ahora, parse).value - 1
    ensures ahora == ahora.Floor as real ==>
      DiasRestantesEscrito(Some(s), ahora, parse) == DiasRestantes(Some(s), ahora, parse)
  {
    var fin := PlanesClient.DiaCivil(s);
    DiasRestantesFechaSimple(s, ahora, parse);
    var e := DiasRestantesEscrito(Some(s), ahora, parse).value;
    var n := ahora.Floor;
    assert e as real <= fin as real - ahora < e as real + 1.0;
    if ahora != n as real {
      assert n as real < ahora < n as real + 1.0;
      assert e == fin - n - 1;
    } else {
      assert e == fin - n;
    }
  }

  /** The status the page gives a user. */
  datatype Estado = SinPlan | Vencido | Activo

  /** `estado`: "sin-plan" without days, "vencido" below 0, else "activo". */
  function EstadoDe(d: Option<int>): (e: Estado)
    ensures e == SinPlan <==> d.None?
    ensures e == Vencido <==> d.Some? && d.value < 0
    ensures e == Activo <==> d.Some? && d.value >= 0
  {
    if d.None? then SinPlan else if d.value < 0 then Vencido else Activo
  }

  /** On the last paid day after midnight UTC, the page as written marks the
      user "vencido" while the calendar count marks them "activo". */
  lemma UltimoDiaVencidoEscrito(s: string, ahora: real, parse: string -> Option<real>)
    requires IsYearMonthDay(s) && PlanesClient.FechaReal(s)
    requires PlanesClient.DiaCivil(s) == ahora.Floor && ahora != ahora.Floor as real
    ensures DiasRestantesEscrito(Some(s), ahora, parse) == Some(-1)
    ensures EstadoDe(DiasRestantesEscrito(Some(s), ahora, parse)) == Vencido
    ensures EstadoDe(DiasRestantes(Some(s), ahora, parse)) == Activo
  {
    DiasRestantesEscritoUnDiaMenos(s, ahora, parse);
    DiasRestantesFechaSimple(s, ahora, parse);
  }

  /** A user as the server sends it; `dias_restantes` and `estado` are
      recomputed by the page, so they are not listed. */
  datatype Usuario = Usuario(
    id: int, nombre: string, apellido: string, numeroTaquilla: Option<int>,
    planVigente: Option<PlanesTaquillas.PlanResumen>, ultimoPago: Option<string>, fechaFin: Option<string>)

  /** `new Date(x).toLocaleDateString()`, or `-` for a missing value. */
  datatype FechaVista = Guion | Local(instante: real) | FechaInvalida

  function Vista(fecha: Option<string>, parse: string -> Option<real>): (v: FechaVista)
    ensures v == Guion <==> fecha.None? || fecha.value == ""
    ensures v == FechaInvalida <==> fecha.Some? && fecha.value != "" && Instante(fecha.value, parse).None?
  {
    if fecha.None? || fecha.value == "" then Guion
    else match Instante(fecha.value, parse)
      case None => FechaInvalida
      case Some(t) => Local(t)
  }

  /** An element of `usuariosConEstado`. */
  datatype UsuarioConEstado = UsuarioConEstado(
    id: int, nombre: string, apellido: string, numeroTaquilla: Option<int>,
    planVigente: Option<PlanesTaquillas.PlanResumen>,
    diasRestantes: Option<int>, estado: Estado, ultimoPago: FechaVista, fechaFin: FechaVista)

  /** One element of the map as written: the status comes from
      `calcularDiasRestantes`, the instant count rounded down. */
  function ConEstado(u: Usuario, ahora: real, parse: string -> Option<real>): UsuarioConEstado
  {
    var d := DiasRestantesEscrito(u.fechaFin, ahora, parse);
    UsuarioConEstado(u.id, u.nombre, u.apellido, u.numeroTaquilla, u.planVigente,
                     d, EstadoDe(d), Vista(u.ultimoPago, parse), Vista(u.fechaFin, parse))
  }

  /** `usuarios.map(...)` as written: one element per user, in order,
      keeping the user's identity, locker and plan; "activo" only while
      the present instant has not passed the midnight that starts the end
      day, so the end day itself already reads "vencido". */
  function UsuariosConEstado(usuarios: seq<Usuario>, ahora: real, parse: string -> Option<real>)
    : (r: seq<UsuarioConEstado>)
    ensures |r| == |usuarios|
    ensures forall i :: 0 <= i < |r| ==>
      var u := usuarios[i];
      r[i].id == u.id && r[i].nombre == u.nombre && r[i].apellido == u.apellido
      && r[i].numeroTaquilla == u.numeroTaquilla && r[i].planVigente == u.planVigente
      && (r[i].estado == SinPlan <==> SinFecha(u.fechaFin, parse))
      && (r[i].estado == Activo <==> !SinFecha(u.fechaFin, parse) && ahora <= Instante(u.fechaFin.value, parse).value)
  {
    seq(|usuarios|, i requires 0 <= i < |usuarios| => ConEstado(usuarios[i], ahora, parse))
  }

  /** One element of the map with the status from the calendar count. */
  function ConEstadoCorregido(u: Usuario, ahora: real, parse: string -> Option<real>): UsuarioConEstado
  {
    var d := DiasRestantes(u.fechaFin, ahora, parse);
    UsuarioConEstado(u.id, u.nombre, u.apellido, u.numeroTaquilla, u.planVigente,
                     d, EstadoDe(d), Vista(u.ultimoPago, parse), Vista(u.fechaFin, parse))
  }

  /** The map with calendar days: "activo" through the whole end day, as
      the server's own status and the user's card count it. */
  function UsuariosConEstadoCorregido(usuarios: seq<Usuario>, ahora: real, parse: string -> Option<real>)
    : (r: seq<UsuarioConEstado>)
    ensures |r| == |usuarios|
    ensures forall i :: 0 <= i < |r| ==>
      var u := usuarios[i];
      r[i].id == u.id && r[i].nombre == u.nombre && r[i].apellido == u.apellido
      && r[i].numeroTaquilla == u.numeroTaquilla && r[i].planVigente == u.planVigente
      && (r[i].estado == SinPlan <==> SinFecha(u.fechaFin, parse))
      && (r[i].estado == Activo <==>
            !SinFecha(u.fechaFin, parse) && Instante(u.fechaFin.value, parse).value.Floor >= ahora.Floor)
  {
    seq(|usuarios|, i requires 0 <= i < |usuarios| => ConEstadoCorregido(usuarios[i], ahora, parse))
  }

  /** A user whose plan ends today, seen after midnight: the map as written
      lists them as expired, the corrected map as active. */
  lemma UltimoDiaSegunMapa(u: Usuario, s: string, ahora: real, parse: string -> Option<real>)
    requires u.fechaFin == Some(s) && IsYearMonthDay(s) && PlanesClient.FechaReal(s)
    requires PlanesClient.DiaCivil(s) == ahora.Floor && ahora != ahora.Floor as real
    ensures UsuariosConEstado([u], ahora, parse)[0].estado == Vencido
    ensures UsuariosConEstadoCorregido([u], ahora, parse)[0].estado == Activo
  {
    UltimoDiaVencidoEscrito(s, ahora, parse);
  }

  /** A JavaScript quotient of two integers: finite, or the infinities and
      NaN a division by zero yields. */
  datatype Cociente = Finito(q: real) | MasInfinito | MenosInfinito | NoNumero

  function Dividir(a: int, b: int): (c: Cociente)
    ensures c.Finito? <==> b != 0
    ensures c.Finito? ==> c.q * b as real == a as real
  {
    if b != 0 then Finito(a as real / b as real)
    else if a > 0 then MasInfinito
    else if a < 0 then MenosInfinito
    else NoNumero
  }

  /** `q >= k` with JavaScript's comparison: NaN compares false. */
  predicate AlMenos(c: Cociente, k: real)
  {
    match c
    case Finito(q) => q >= k
    case MasInfinito => true
    case MenosInfinito => false
    case NoNumero => false
  }

  /** `porcentaje`: the ratio of days left to the plan's duration, as a
      percentage clamped to [0, 100]; 0 without days or without a non-zero
      duration. The page computes it but draws its bars from the raw ratio. */
  function Porcentaje(d: Option<int>, plan: Option<PlanesTaquillas.PlanResumen>): (r: real)
    ensures 0.0 <= r <= 100.0
    ensures d.None? || plan.None? || plan.value.duracionDias == 0 ==> r == 0.0
    ensures d.Some? && plan.Some? && plan.value.duracionDias != 0 ==>
      var p := d.value as real / plan.value.duracionDias as real * 100.0;
      (0.0 <= p <= 100.0 ==> r == p) && (p > 100.0 ==> r == 100.0) && (p < 0.0 ==> r == 0.0)
  {
    if plan.Some? && plan.value.duracionDias != 0 && d.Some? then
      var p := d.value as real / plan.value.duracionDias as real * 100.0;
      var acotado := if p < 100.0 then p else 100.0;
      if acotado > 0.0 then acotado else 0.0
    else 0.0
  }

  datatype Color = Gris | Verde | Amarillo | Rojo

  /** Rendering a row throws: `u.plan_vigente.duracion_dias` is read from a
      null plan. */
  datatype ErrorRender = TypeErrorPlanNulo

  /** `color`: gray without days; otherwise from the ratio of days left to
      the duration: green from 0.7, yellow from 0.3, red below. The ratio is
      read through `plan_vigente`, so a user with days but no cached plan
      makes the page throw. */
  function ColorDe(d: Option<int>, plan: Option<PlanesTaquillas.PlanResumen>): (r: Result<Color, ErrorRender>)
    ensures r == Ok(Gris) <==> d.None?
    ensures r.Err? <==> d.Some? && plan.None?
    ensures d.Some? && plan.Some? ==>
      var c := Dividir(d.value, plan.value.duracionDias);
      (r == Ok(Verde) <==> AlMenos(c, 0.7))
      && (r == Ok(Amarillo) <==> !AlMenos(c, 0.7) && AlMenos(c, 0.3))
      && (r == Ok(Rojo) <==> !AlMenos(c, 0.3))
  {
    if d.None? then Ok(Gris)
    else if plan.None? then Err(TypeErrorPlanNulo)
    else
      var c := Dividir(d.value, plan.value.duracionDias);
      if AlMenos(c, 0.7) then Ok(Verde)
      else if AlMenos(c, 0.3) then Ok(Amarillo)
      else Ok(Rojo)
  }

  /** With a positive duration the colour follows the percentage: green
      from 70, yellow from 30, red below, and so red for every expired
      user. */
  lemma ColorSigueAlPorcentaje(d: int, plan: PlanesTaquillas.PlanResumen)
    requires plan.duracionDias > 0
    ensures var p := Porcentaje(Some(d), Some(plan));
      (ColorDe(Some(d), Some(plan)) == Ok(Verde) <==> p >= 70.0)
      && (ColorDe(Some(d), Some(plan)) == Ok(Amarillo) <==> 30.0 <= p < 70.0)
      && (ColorDe(Some(d), Some(plan)) == Ok(Rojo) <==> p < 30.0)
    ensures d < 0 ==> ColorDe(Some(d), Some(plan)) == Ok(Rojo)
  {
    var q := d as real / plan.duracionDias as real;
    assert q * plan.duracionDias as real == d as real;
    if d < 0 {
      assert q < 0.0;
    }
  }

  /** The bars drawn in the progress cell: a green bar of the days left when
      positive, a bar in the row's colour of the days overdue when negative,
      nothing at 0 or without days. Widths are percentages of the duration
      and are not clamped. */
  datatype Barra = SinBarra | BarraRestante(ancho: Cociente) | BarraVencida(color: Color, ancho: Cociente)

  function Porciento(c: Cociente): Cociente
  {
    if c.Finito? then Finito(c.q * 100.0) else c
  }

  function BarraDe(d: Option<int>, plan: PlanesTaquillas.PlanResumen, color: Color): (b: Barra)
    ensures b == SinBarra <==> d.None? || d.value == 0
    ensures b.BarraRestante? <==> d.Some? && d.value > 0
    ensures b.BarraVencida? <==> d.Some? && d.value < 0
    ensures b.BarraVencida? ==> b.color == color
    ensures plan.duracionDias > 0 && b != SinBarra ==> b.ancho.Finito? && b.ancho.q > 0.0
  {
    if d.Some? && d.value > 0 then
      BarraRestante(Porciento(Dividir(d.value, plan.duracionDias)))
    else if d.Some? && d.value < 0 then
      BarraVencida(color, Porciento(Dividir(-d.value, plan.duracionDias)))
    else SinBarra
  }

  /** The text under the bar. */
  datatype Etiqueta = SinPlanTexto | Restantes(dias: nat) | VenceHoy | DiasVencido(dias: nat)

  function EtiquetaDe(d: Option<int>): (e: Etiqueta)
    ensures e == SinPlanTexto <==> d.None?
    ensures e.Restantes? <==> d.Some? && d.value > 0
    ensures e == VenceHoy <==> d == Some(0)
    ensures e.DiasVencido? <==> d.Some? && d.value < 0
    ensures e.Restantes? ==> e.dias == d.value
    ensures e.DiasVencido? ==> e.dias == -d.value
  {
    if d.None? then SinPlanTexto
    else if d.value > 0 then Restantes(d.value)
    else if d.value == 0 then VenceHoy
    else DiasVencido(-d.value)
  }

  /** The label names the days exactly (different figures, different
      labels) and agrees with the status: "sin-plan" shows "Sin plan",
      "activo" shows days left or "Vence hoy", "vencido" days overdue. */
  lemma EtiquetaConcuerdaConEstado(a: Option<int>, b: Option<int>)
    ensures EtiquetaDe(a) == EtiquetaDe(b) ==> a == b
    ensures EstadoDe(a) == SinPlan <==> EtiquetaDe(a) == SinPlanTexto
    ensures EstadoDe(a) == Activo <==> EtiquetaDe(a).Restantes? || EtiquetaDe(a) == VenceHoy
    ensures EstadoDe(a) == Vencido <==> EtiquetaDe(a).DiasVencido?
  {
    if EtiquetaDe(a) == EtiquetaDe(b) && a.Some? && b.Some? {
      assert a.value == b.value;
    }
  }

  /** The contact details shown in the pop-up. */
  datatype Contacto = Contacto(telefono: string, email: string)

  /** `usuarioPopup` and `detalles`. */
  datatype Popup = Popup(abierto: Option<int>, detalles: map<int, Contacto>)

  /** `togglePopup(userId)`: the same user closes the pop-up; another opens
      it and, when that user's details are not cached, stores what the
      request `respuesta` returned, or `-` for both fields when it failed. */
  function TogglePopup(s: Popup, userId: int, respuesta: Option<Contacto>): (r: Popup)
    ensures s.abierto == Some(userId) ==> r == Popup(None, s.detalles)
    ensures s.abierto != Some(userId) ==> r.abierto == Some(userId)
    ensures s.abierto != Some(userId) ==> userId in r.detalles
    ensures r.detalles.Keys == s.detalles.Keys || r.detalles.Keys == s.detalles.Keys + {userId}
    ensures forall k :: k in s.detalles ==> k in r.detalles && r.detalles[k] == s.detalles[k]
    ensures s.abierto != Some(userId) && userId !in s.detalles ==>
      r.detalles[userId] == (if respuesta.Some? then respuesta.value else Contacto("-", "-"))
  {
    if s.abierto == Some(userId) then Popup(None, s.detalles)
    else if userId in s.detalles then Popup(Some(userId), s.detalles)
    else Popup(Some(userId), s.detalles[userId := if respuesta.Some? then respuesta.value else Contacto("-", "-")])
  }

  /** Opening and then closing the same user's pop-up leaves it closed with
      that user's details cached; opening it again asks for nothing. */
  lemma ToggleDosVeces(s: Popup, userId: int, r1: Option<Contacto>, r2: Option<Contacto>)
    requires s.abierto != Some(userId)
    ensures var t := TogglePopup(TogglePopup(s, userId, r1), userId, r2);
      t.abierto.None? && userId in t.detalles
      && TogglePopup(t, userId, r2) == TogglePopup(t, userId, r1)
  {
  }
}
