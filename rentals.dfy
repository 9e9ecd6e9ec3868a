/** The rental-order page: pricing of a rental from its vehicle and period,
    the prefill from the `?vehiculo=` and `?cliente=` query parameters, and
    the list of orders the page creates, updates, completes and deletes. */
module Rentals {
  import opened Wrappers
  import opened Lists
  import opened Text
  import opened Numbers
  import opened Dates
  import opened Records

  /** The tax rate, in percent. */
  const TaxPercent: int := 12

  /** The form's initial state, to which resetForm returns. */
  const EmptyRental: Rental := Rental(
    None, "", "", "", "", "", "", "", "09:00", "18:00", "Pendiente",
    Blank, Blank, "Lleno", "", "Tarjeta de crédito",
    Blank, Blank, Blank, Blank, false, "Básico", "", "")

  /** The deposit tier of a vehicle category: 300.00 for SUVs and pickups,
      200.00 for every other category. */
  function DepositFor(categoria: string): (d: Num)
    ensures d == Val(30000) <==> categoria == "SUV" || categoria == "Pickup"
    ensures d == Val(30000) || d == Val(20000)
  {
    if categoria == "SUV" || categoria == "Pickup" then Val(30000) else Val(20000)
  }

  /** `record.id === parseInt(text)`: a `null` id or a `NaN` never matches. */
  predicate IdMatches(id: Option<int>, text: string) {
    id.Some? && ParseInt(text) == Some(id.value)
  }

  /** `vehiculos.find(v => v.id === parseInt(text))`. */
  function VehicleById(vehicles: seq<Vehicle>, text: string): (r: Option<Vehicle>)
    ensures r.Some? ==> r.value in vehicles && IdMatches(r.value.id, text)
    ensures r.None? <==> forall v :: v in vehicles ==> !IdMatches(v.id, text)
  {
    Find(vehicles, (v: Vehicle) => IdMatches(v.id, text))
  }

  /** `clients.find(c => c.id === parseInt(text))`. */
  function ClientById(clients: seq<Client>, text: string): (r: Option<Client>)
    ensures r.Some? ==> r.value in clients && IdMatches(r.value.id, text)
    ensures r.None? <==> forall c :: c in clients ==> !IdMatches(c.id, text)
  {
    Find(clients, (c: Client) => IdMatches(c.id, text))
  }

  /** The five form fields a pricing writes. */
  datatype Quote = Quote(subtotal: Num, impuesto: Num, total: Num, kmInicial: Num, deposito: Num)

  /** The price of renting vehicle `v` for `days` days: the subtotal is the
      daily rate times the days, the tax is 12% of the subtotal rounded to
      cents, the total is the sum of those two rounded amounts. */
  function QuoteFor(v: Vehicle, days: nat): (q: Quote)
    ensures q.subtotal.Val? <==> v.precio.Val?
    ensures q.impuesto.Val? <==> v.precio.Val?
    ensures q.total.Val? <==> v.precio.Val?
    ensures q.kmInicial == v.km && q.deposito == DepositFor(v.categoria)
  {
    var subtotal := Times(ParseFloat(v.precio), days);
    var impuesto := ScalePercent(subtotal, TaxPercent);
    Quote(subtotal, impuesto, Plus(subtotal, impuesto), v.km, DepositFor(v.categoria))
  }

  /** What a quote promises: the subtotal is rate times days, the tax is
      within half a cent of 12% of it, the total is exactly their sum, the
      kilometres come from the vehicle and the deposit from its category; a
      rate that is not a number gives `NaN` amounts. */
  lemma QuoteForAmounts(v: Vehicle, days: nat)
    ensures var q := QuoteFor(v, days);
      && (v.precio.Val? ==>
            && q.subtotal == Val(v.precio.v * days)
            && q.impuesto.Val?
            && -50 <= 100 * q.impuesto.v - TaxPercent * q.subtotal.v <= 50
            && q.total == Val(q.subtotal.v + q.impuesto.v))
      && (!v.precio.Val? ==>
            q.subtotal == NotANumber && q.impuesto == NotANumber && q.total == NotANumber)
      && q.kmInicial == v.km
      && (q.deposito == Val(30000) <==> v.categoria == "SUV" || v.categoria == "Pickup")
  {
  }

  /** A non-negative daily rate gives non-negative amounts, and the total is
      at least the subtotal. */
  lemma QuoteForNonNegative(v: Vehicle, days: nat)
    requires v.precio.Val? && v.precio.v >= 0
    ensures var q := QuoteFor(v, days);
      q.subtotal.v >= 0 && q.impuesto.v >= 0 && q.total.v >= q.subtotal.v
  {
    var q := QuoteFor(v, days);
    assert q.subtotal.v == v.precio.v * days;
  }

  /** The vehicle id, start and end the pricing reads: the field being edited
      takes its new value, the other two come from the form. */
  function PricingInputs(form: Rental, field: string, value: string): (r: (string, string, string))
    ensures r.0 == value || r.0 == form.idVehiculo
    ensures r.1 == value || r.1 == form.fechaInicio
    ensures r.2 == value || r.2 == form.fechaFin
    ensures field != "id_vehiculo" && field != "fecha_inicio" && field != "fecha_fin" ==>
              r == (form.idVehiculo, form.fechaInicio, form.fechaFin)
  {
    (if field == "id_vehiculo" then value else form.idVehiculo,
     if field == "fecha_inicio" then value else form.fechaInicio,
     if field == "fecha_fin" then value else form.fechaFin)
  }

  /** The edited field overrides the form, the two others are the form's. */
  lemma PricingInputsTakeEditedField(form: Rental, value: string)
    ensures PricingInputs(form, "id_vehiculo", value) == (value, form.fechaInicio, form.fechaFin)
    ensures PricingInputs(form, "fecha_inicio", value) == (form.idVehiculo, value, form.fechaFin)
    ensures PricingInputs(form, "fecha_fin", value) == (form.idVehiculo, form.fechaInicio, value)
  {
  }

  /** calcularTotales: the quote for the form after `field` takes `value`, or
      `None` when the form is to be left alone. */
  function CalcTotals(form: Rental, field: string, value: string, vehicles: seq<Vehicle>): (r: Option<Quote>)
    ensures var (vid, start, end) := PricingInputs(form, field, value);
      r.Some? <==>
        && vid != "" && start != "" && end != ""
        && VehicleById(vehicles, vid).Some?
        && DateValue(start).Some? && DateValue(end).Some?
        && DateValue(start).value != DateValue(end).value
    ensures var (vid, start, end) := PricingInputs(form, field, value);
      r.Some? ==>
        r.value == QuoteFor(VehicleById(vehicles, vid).value,
                            DayCount(DateValue(start).value, DateValue(end).value))
  {
    var (vid, start, end) := PricingInputs(form, field, value);
    if vid != "" && start != "" && end != "" then
      match VehicleById(vehicles, vid)
      case None => None
      case Some(v) =>
        match (DateValue(start), DateValue(end))
        case (Some(a), Some(b)) =>
          var days := DayCount(a, b);
          if days > 0 then Some(QuoteFor(v, days)) else None
        case _ => None
    else None
  }

  /** The form with a quote's five fields written into it. */
  function ApplyQuote(form: Rental, q: Quote): (r: Rental)
    ensures r.subtotal == q.subtotal && r.impuesto == q.impuesto && r.total == q.total
    ensures r.kmInicial == q.kmInicial && r.deposito == q.deposito
    ensures r.(subtotal := form.subtotal, impuesto := form.impuesto, total := form.total,
               kmInicial := form.kmInicial, deposito := form.deposito) == form
  {
    form.(subtotal := q.subtotal, impuesto := q.impuesto, total := q.total,
          kmInicial := q.kmInicial, deposito := q.deposito)
  }

  /** `setCurrentAlquiler(prev => ({...prev, ...}))` after calcularTotales:
      `prev` gets the quote computed from `base`, or stays as it is. */
  function Recalculated(prev: Rental, base: Rental, field: string, value: string,
                        vehicles: seq<Vehicle>): (r: Rental)
    ensures CalcTotals(base, field, value, vehicles).None? ==> r == prev
    ensures CalcTotals(base, field, value, vehicles).Some? ==>
              var q := CalcTotals(base, field, value, vehicles).value;
              && r.subtotal == q.subtotal && r.impuesto == q.impuesto && r.total == q.total
              && r.kmInicial == q.kmInicial && r.deposito == q.deposito
              && r.(subtotal := prev.subtotal, impuesto := prev.impuesto, total := prev.total,
                    kmInicial := prev.kmInicial, deposito := prev.deposito) == prev
  {
    match CalcTotals(base, field, value, vehicles)
    case None => prev
    case Some(q) => ApplyQuote(prev, q)
  }

  /** Worked example: 45.00 a day from 2024-03-01 to 2024-03-04 is
      3 days, 135.00, tax 16.20, total 151.20. */
  lemma ThreeDaySedanExample(v: Vehicle, form: Rental)
    requires v.id == Some(7) && v.precio == Val(4500) && v.categoria == "Sedan"
    requires form.idVehiculo == "7" && form.fechaInicio == "2024-03-01"
    ensures CalcTotals(form, "fecha_fin", "2024-03-04", [v]) ==
            Some(Quote(Val(13500), Val(1620), Val(15120), v.km, Val(20000)))
  {
    ParseSeven();
    DatesInMarch("2024-03-01", "2024-03-04");
    DayCountSameMonth("2024-03-01", "2024-03-04");
    assert PricingInputs(form, "fecha_fin", "2024-03-04") == ("7", "2024-03-01", "2024-03-04");
    assert VehicleById([v], "7") == Some(v);
    assert QuoteFor(v, 3) == Quote(Val(13500), Val(1620), Val(15120), v.km, Val(20000));
  }

  /** Worked example: an SUV at 80.00 for one day costs 80.00, tax
      9.60, total 89.60, and takes the 300.00 deposit. */
  lemma OneDaySuvExample(v: Vehicle, form: Rental)
    requires v.id == Some(7) && v.precio == Val(8000) && v.categoria == "SUV"
    requires form.fechaInicio == "2024-03-01" && form.fechaFin == "2024-03-02"
    ensures CalcTotals(form, "id_vehiculo", "7", [v]) ==
            Some(Quote(Val(8000), Val(960), Val(8960), v.km, Val(30000)))
  {
    ParseSeven();
    DatesInMarch("2024-03-01", "2024-03-02");
    DayCountSameMonth("2024-03-01", "2024-03-02");
    assert PricingInputs(form, "id_vehiculo", "7") == ("7", "2024-03-01", "2024-03-02");
    assert VehicleById([v], "7") == Some(v);
    assert QuoteFor(v, 1) == Quote(Val(8000), Val(960), Val(8960), v.km, Val(30000));
  }

  lemma ParseSeven()
    ensures ParseInt("7") == Some(7)
  {
    ParseIntOfIntToString(7);
    assert IntToString(7) == "7";
  }

  lemma DatesInMarch(s: string, t: string)
    requires s == "2024-03-01" && (t == "2024-03-02" || t == "2024-03-04")
    ensures IsDateText(s) && IsDateText(t) && s[..8] == t[..8]
    ensures TwoDigits(s[8], s[9]) == 1
    ensures TwoDigits(t[8], t[9]) == if t == "2024-03-02" then 2 else 4
  {
    assert s[..8] == "2024-03-";
    assert t[..8] == "2024-03-";
  }

  /** Swapping start and end does not change the pricing. */
  lemma CalcTotalsReversedRange(form: Rental, vehicles: seq<Vehicle>)
    ensures CalcTotals(form.(fechaInicio := form.fechaFin, fechaFin := form.fechaInicio), "", "", vehicles) ==
            CalcTotals(form, "", "", vehicles)
  {
    var swapped := form.(fechaInicio := form.fechaFin, fechaFin := form.fechaInicio);
    if DateValue(form.fechaInicio).Some? && DateValue(form.fechaFin).Some? {
      DayCountSymmetric(DateValue(form.fechaInicio).value, DateValue(form.fechaFin).value);
    }
  }

  /** The `?vehiculo=` prefill: with a matching vehicle, the form takes its
      id text, kilometres, deposit, its rate as the subtotal, 12% of the rate
      as the tax and 112% of the rate as the total, each rounded on its own. */
  function PrefillVehicle(form: Rental, param: string, vehicles: seq<Vehicle>): (r: Rental)
    ensures param == "" || VehicleById(vehicles, param).None? ==> r == form
    ensures param != "" && VehicleById(vehicles, param).Some? ==>
              var v := VehicleById(vehicles, param).value;
              && r.idVehiculo == param && r.kmInicial == v.km
              && r.deposito == DepositFor(v.categoria) && r.subtotal == v.precio
              && (r.total.Val? <==> v.precio.Val?) && (r.impuesto.Val? <==> v.precio.Val?)
              && (!v.precio.Val? ==> r.impuesto == NotANumber && r.total == NotANumber)
    ensures r.(idVehiculo := form.idVehiculo, kmInicial := form.kmInicial, deposito := form.deposito,
               subtotal := form.subtotal, impuesto := form.impuesto, total := form.total) == form
  {
    if param == "" then form
    else
      match VehicleById(vehicles, param)
      case None => form
      case Some(v) =>
        form.(idVehiculo := param, kmInicial := v.km, deposito := DepositFor(v.categoria),
              subtotal := v.precio,
              impuesto := ScalePercent(ParseFloat(v.precio), TaxPercent),
              total := ScalePercent(ParseFloat(v.precio), 100 + TaxPercent))
  }

  /** The `?cliente=` prefill copies the parameter into the form. */
  function PrefillClient(form: Rental, param: string): (r: Rental)
    ensures param == "" ==> r == form
    ensures param != "" ==> r == form.(idCliente := param)
  {
    if param == "" then form else form.(idCliente := param)
  }

  /** For a vehicle with a numeric rate, the prefill is the one-day quote:
      the total it rounds on its own, 112% of the rate, is the rate plus the
      rounded tax. Without a match, or with an empty parameter, the form is
      unchanged. */
  lemma PrefillIsOneDayQuote(form: Rental, param: string, vehicles: seq<Vehicle>)
    ensures param == "" || VehicleById(vehicles, param).None? ==>
              PrefillVehicle(form, param, vehicles) == form
    ensures param != "" && VehicleById(vehicles, param).Some? &&
            VehicleById(vehicles, param).value.precio.Val? ==>
              PrefillVehicle(form, param, vehicles) ==
              ApplyQuote(form.(idVehiculo := param), QuoteFor(VehicleById(vehicles, param).value, 1))
  {
    if param != "" && VehicleById(vehicles, param).Some? {
      var v := VehicleById(vehicles, param).value;
      if v.precio.Val? {
        var c := v.precio.v;
        RoundHundredthsShift(c, c * TaxPercent);
        assert c * (100 + TaxPercent) == 100 * c + c * TaxPercent;
      }
    }
  }

  /** The reservation date, which defaults to today when empty. */
  function Stamped(form: Rental, today: string): (r: Rental)
    ensures r.fechaReserva == if form.fechaReserva == "" then today else form.fechaReserva
    ensures r.(fechaReserva := form.fechaReserva) == form
  {
    if form.fechaReserva == "" then form.(fechaReserva := today) else form
  }

  /** The code of a new order: "ALQ-" and the last four digits of the clock. */
  function RentalCode(now: int): string {
    "ALQ-" + LastChars(IntToString(now), 4)
  }

  /** Every code is "ALQ-" followed by the last (at most four) characters of
      the clock's decimal text. */
  lemma RentalCodeShape(now: int)
    ensures var code, text := RentalCode(now), IntToString(now);
      && |code| == 4 + (if |text| < 4 then |text| else 4)
      && code[..4] == "ALQ-"
      && code[4..] == text[|text| - (|code| - 4)..]
  {
    var code, text := RentalCode(now), IntToString(now);
    assert code[4..] == LastChars(text, 4);
  }

  /** From the year 1970 on the clock has at least four digits, so the code
      is "ALQ-" and the clock's four lowest digits. */
  lemma RentalCodeDigits(now: int)
    requires now >= 1000
    ensures RentalCode(now) == "ALQ-" + FixedDigits(now, 4)
    ensures |RentalCode(now)| == 8
  {
    assert Pow10(4) == 10000;
    LastCharsOfNatToString(now, 4);
  }

  /** The order created from the form: reservation date stamped, id from the
      first clock reading and code from the second. */
  function Created(form: Rental, today: string, idNow: int, codeNow: int): (r: Rental)
    ensures r.id == Some(idNow) && r.codigo == RentalCode(codeNow)
    ensures r.fechaReserva == Stamped(form, today).fechaReserva
    ensures r.(id := form.id, codigo := form.codigo, fechaReserva := form.fechaReserva) == form
  {
    Stamped(form, today).(id := Some(idNow), codigo := RentalCode(codeNow))
  }

  /** The list after saving an edit: each order with the record's id is
      replaced by the record, every other order stays in place. */
  function Updated(rentals: seq<Rental>, r: Rental): (s: seq<Rental>)
    ensures |s| == |rentals|
    ensures forall i :: 0 <= i < |s| ==> s[i] == if rentals[i].id == r.id then r else rentals[i]
  {
    ReplaceWhere(rentals, (a: Rental) => a.id == r.id, r)
  }

  /** The list after deleting `id`: the orders with another id, in order. */
  function Deleted(rentals: seq<Rental>, id: Option<int>): (s: seq<Rental>)
    ensures IsSubsequence(s, rentals)
    ensures forall a :: a in s ==> a in rentals && a.id != id
    ensures forall a :: a in rentals && a.id != id ==> a in s
    ensures |s| == |rentals| - |Filter(rentals, (a: Rental) => a.id == id)|
  {
    FilterIsSubsequence(rentals, (a: Rental) => a.id != id);
    FilterComplement(rentals, (a: Rental) => a.id == id, (a: Rental) => a.id != id);
    Filter(rentals, (a: Rental) => a.id != id)
  }

  /** "Completar": the orders with the id of `r` become `r` with the state
      "Completado"; every other order stays in place. */
  function Completed(rentals: seq<Rental>, r: Rental): (s: seq<Rental>)
    ensures |s| == |rentals|
    ensures forall i :: 0 <= i < |s| ==>
              s[i] == if rentals[i].id == r.id then r.(estado := "Completado") else rentals[i]
  {
    ReplaceWhere(rentals, (a: Rental) => a.id == r.id, r.(estado := "Completado"))
  }

  /** getClientName: "nombre apellido" of the first client whose id matches,
      or "No disponible". */
  function ClientName(clients: seq<Client>, clientId: string): (name: string)
    ensures ClientById(clients, clientId).None? ==> name == "No disponible"
    ensures ClientById(clients, clientId).Some? ==>
              name == ClientById(clients, clientId).value.nombre + " " +
                      ClientById(clients, clientId).value.apellido
  {
    match ClientById(clients, clientId)
    case Some(c) => c.nombre + " " + c.apellido
    case None => "No disponible"
  }

  /** getVehiculoName: "nombre (placa)" of the first vehicle whose id
      matches, or "No disponible". */
  function VehicleName(vehicles: seq<Vehicle>, vehicleId: string): (name: string)
    ensures VehicleById(vehicles, vehicleId).None? ==> name == "No disponible"
    ensures VehicleById(vehicles, vehicleId).Some? ==>
              name == VehicleById(vehicles, vehicleId).value.nombre + " (" +
                      VehicleById(vehicles, vehicleId).value.placa + ")"
  {
    match VehicleById(vehicles, vehicleId)
    case Some(v) => v.nombre + " (" + v.placa + ")"
    case None => "No disponible"
  }

  /** The text inputs of the form, which write their value as typed. */
  predicate IsTextField(name: string) {
    name in {"codigo", "descripcion", "id_cliente", "id_vehiculo", "fecha_reserva",
             "fecha_inicio", "fecha_fin", "hora_entrega", "hora_devolucion", "estado",
             "combustible_inicial", "combustible_final", "metodo_pago", "seguro",
             "observaciones_entrega", "observaciones_devolucion"}
  }

  /** The text field `name` of the form. */
  function FieldText(form: Rental, name: string): string
    requires IsTextField(name)
  {
    match name
    case "codigo" => form.codigo
    case "descripcion" => form.descripcion
    case "id_cliente" => form.idCliente
    case "id_vehiculo" => form.idVehiculo
    case "fecha_reserva" => form.fechaReserva
    case "fecha_inicio" => form.fechaInicio
    case "fecha_fin" => form.fechaFin
    case "hora_entrega" => form.horaEntrega
    case "hora_devolucion" => form.horaDevolucion
    case "estado" => form.estado
    case "combustible_inicial" => form.combustibleInicial
    case "combustible_final" => form.combustibleFinal
    case "metodo_pago" => form.metodoPago
    case "seguro" => form.seguro
    case "observaciones_entrega" => form.observacionesEntrega
    case _ => form.observacionesDevolucion
  }

  /** `{...form, [name]: value}` for a text input: the named field reads
      back the value, every other text field, the numeric fields, the id and
      the checkbox keep theirs. */
  function SetText(form: Rental, name: string, value: string): (r: Rental)
    requires IsTextField(name)
    ensures FieldText(r, name) == value
    ensures forall m :: IsTextField(m) && m != name ==> FieldText(r, m) == FieldText(form, m)
    ensures r.id == form.id && r.depositoDevuelto == form.depositoDevuelto
    ensures r.kmInicial == form.kmInicial && r.kmFinal == form.kmFinal && r.subtotal == form.subtotal
    ensures r.impuesto == form.impuesto && r.total == form.total && r.deposito == form.deposito
  {
    match name
    case "codigo" => form.(codigo := value)
    case "descripcion" => form.(descripcion := value)
    case "id_cliente" => form.(idCliente := value)
    case "id_vehiculo" => form.(idVehiculo := value)
    case "fecha_reserva" => form.(fechaReserva := value)
    case "fecha_inicio" => form.(fechaInicio := value)
    case "fecha_fin" => form.(fechaFin := value)
    case "hora_entrega" => form.(horaEntrega := value)
    case "hora_devolucion" => form.(horaDevolucion := value)
    case "estado" => form.(estado := value)
    case "combustible_inicial" => form.(combustibleInicial := value)
    case "combustible_final" => form.(combustibleFinal := value)
    case "metodo_pago" => form.(metodoPago := value)
    case "seguro" => form.(seguro := value)
    case "observaciones_entrega" => form.(observacionesEntrega := value)
    case _ => form.(observacionesDevolucion := value)
  }

  /** The number inputs of the form. */
  predicate IsNumberField(name: string) {
    name in {"km_inicial", "km_final", "deposito", "subtotal", "impuesto", "total"}
  }

  /** The number field `name` of the form. */
  function FieldNumber(form: Rental, name: string): Num
    requires IsNumberField(name)
  {
    match name
    case "km_inicial" => form.kmInicial
    case "km_final" => form.kmFinal
    case "deposito" => form.deposito
    case "subtotal" => form.subtotal
    case "impuesto" => form.impuesto
    case _ => form.total
  }

  /** `{...form, [name]: value}` for a number input, `n` being the reading
      of what was typed: the named field reads back `n`, every other number
      field and every text field keep theirs. */
  function SetNumber(form: Rental, name: string, n: Num): (r: Rental)
    requires IsNumberField(name)
    ensures FieldNumber(r, name) == n
    ensures forall m :: IsNumberField(m) && m != name ==> FieldNumber(r, m) == FieldNumber(form, m)
    ensures forall m :: IsTextField(m) ==> FieldText(r, m) == FieldText(form, m)
    ensures r.id == form.id && r.depositoDevuelto == form.depositoDevuelto
  {
    match name
    case "km_inicial" => form.(kmInicial := n)
    case "km_final" => form.(kmFinal := n)
    case "deposito" => form.(deposito := n)
    case "subtotal" => form.(subtotal := n)
    case "impuesto" => form.(impuesto := n)
    case _ => form.(total := n)
  }

  /** After typing into a field the pricing reads, the form holds exactly
      what the pricing read for it. */
  lemma SetTextFeedsPricing(form: Rental, name: string, value: string)
    requires IsTextField(name)
    ensures var f := SetText(form, name, value);
      PricingInputs(form, name, value) == (f.idVehiculo, f.fechaInicio, f.fechaFin)
  {
    var f := SetText(form, name, value);
    assert f.idVehiculo == FieldText(f, "id_vehiculo") && form.idVehiculo == FieldText(form, "id_vehiculo");
    assert f.fechaInicio == FieldText(f, "fecha_inicio") && form.fechaInicio == FieldText(form, "fecha_inicio");
    assert f.fechaFin == FieldText(f, "fecha_fin") && form.fechaFin == FieldText(form, "fecha_fin");
  }

  /** The rental page's state. */
  class RentalsPage {
    var rentals: seq<Rental>
    var clients: seq<Client>
    var vehicles: seq<Vehicle>
    var current: Rental
    var isEditing: bool

    /** The page once its mock data has loaded. */
    constructor (rentals0: seq<Rental>, clients0: seq<Client>, vehicles0: seq<Vehicle>)
      ensures rentals == rentals0 && clients == clients0 && vehicles == vehicles0
      ensures current == EmptyRental && !isEditing
    {
      rentals, clients, vehicles := rentals0, clients0, vehicles0;
      current, isEditing := EmptyRental, false;
    }

    /** The query-parameter effect: first `?vehiculo=`, then `?cliente=`. */
    method ApplyQuery(vehiculoParam: string, clienteParam: string)
      modifies this
      ensures current == PrefillClient(PrefillVehicle(old(current), vehiculoParam, vehicles), clienteParam)
      ensures rentals == old(rentals) && clients == old(clients) && vehicles == old(vehicles)
      ensures isEditing == old(isEditing)
    {
      current := PrefillVehicle(current, vehiculoParam, vehicles);
      current := PrefillClient(current, clienteParam);
    }

    /** handleInputChange on a text input: the field takes the value, and a
        change of vehicle, start or end re-prices the form. */
    method HandleInputChange(name: string, value: string)
      requires IsTextField(name)
      modifies this
      ensures name != "id_vehiculo" && name != "fecha_inicio" && name != "fecha_fin" ==>
                current == SetText(old(current), name, value)
      ensures name == "id_vehiculo" || name == "fecha_inicio" || name == "fecha_fin" ==>
                current == Recalculated(SetText(old(current), name, value), old(current), name, value, vehicles)
      ensures rentals == old(rentals) && clients == old(clients) && vehicles == old(vehicles)
      ensures isEditing == old(isEditing)
    {
      var base := current;
      current := SetText(current, name, value);
      if name == "id_vehiculo" || name == "fecha_inicio" || name == "fecha_fin" {
        current := Recalculated(current, base, name, value, vehicles);
      }
    }

    /** handleInputChange on a number input: only the field changes; no
        number input re-prices the form. */
    method HandleNumberInput(name: string, n: Num)
      requires IsNumberField(name)
      modifies this
      ensures current == SetNumber(old(current), name, n)
      ensures rentals == old(rentals) && clients == old(clients) && vehicles == old(vehicles)
      ensures isEditing == old(isEditing)
    {
      current := SetNumber(current, name, n);
    }

    /** The "Depósito devuelto" checkbox. */
    method SetDepositReturned(checked: bool)
      modifies this
      ensures current == old(current).(depositoDevuelto := checked)
      ensures rentals == old(rentals) && clients == old(clients) && vehicles == old(vehicles)
      ensures isEditing == old(isEditing)
    {
      current := current.(depositoDevuelto := checked);
    }

    /** resetForm: the empty form, out of edit mode. */
    method ResetForm()
      modifies this
      ensures current == EmptyRental && !isEditing
      ensures rentals == old(rentals) && clients == old(clients) && vehicles == old(vehicles)
    {
      current, isEditing := EmptyRental, false;
    }

    /** handleSubmit: an edit replaces the orders with the form's id, a new
        order is appended with a fresh id and code; then the form resets.
        `today` and the two clock readings are the environment's. */
    method Submit(today: string, idNow: int, codeNow: int)
      modifies this
      ensures old(isEditing) ==> rentals == Updated(old(rentals), Stamped(old(current), today))
      ensures !old(isEditing) ==> rentals == old(rentals) + [Created(old(current), today, idNow, codeNow)]
      ensures current == EmptyRental && !isEditing
      ensures clients == old(clients) && vehicles == old(vehicles)
    {
      if isEditing {
        rentals := Updated(rentals, Stamped(current, today));
      } else {
        var created := Created(current, today, idNow, codeNow);
        rentals := rentals + [created];
      }
      current, isEditing := EmptyRental, false;
    }

    /** handleEdit: the order is loaded into the form in edit mode. */
    method Edit(r: Rental)
      modifies this
      ensures current == r && isEditing
      ensures rentals == old(rentals) && clients == old(clients) && vehicles == old(vehicles)
    {
      current, isEditing := r, true;
    }

    /** handleDelete. */
    method Delete(id: Option<int>)
      modifies this
      ensures rentals == Deleted(old(rentals), id)
      ensures current == old(current) && isEditing == old(isEditing)
      ensures clients == old(clients) && vehicles == old(vehicles)
    {
      rentals := Deleted(rentals, id);
    }

    /** The "Completar" button of the row showing `r`. */
    method Complete(r: Rental)
      modifies this
      ensures rentals == Completed(old(rentals), r)
      ensures current == old(current) && isEditing == old(isEditing)
      ensures clients == old(clients) && vehicles == old(vehicles)
    {
      rentals := Completed(rentals, r);
    }
  }
}
