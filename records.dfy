/** The records the mock-data pages keep in their lists and forms: vehicles,
    clients and rental orders. A record that has not been saved yet has a
    `null` id (`None`). Text inputs are strings; numeric inputs are `Num`. */
module Records {
  import opened Wrappers
  import opened Numbers

  /** A vehicle of the fleet: `precio` in cents per day, `stock` in units,
      `km` in kilometres. */
  datatype Vehicle = Vehicle(
    id: Option<int>,
    codigo: string,
    nombre: string,
    descripcion: string,
    categoria: string,
    precio: Num,
    stock: Num,
    fechaIngreso: string,
    placa: string,
    modelo: string,
    color: string,
    transmision: string,
    combustible: string,
    km: Num)

  /** A client of the rental company. */
  datatype Client = Client(
    id: Option<int>,
    nombre: string,
    apellido: string,
    cedula: string,
    email: string,
    telefono: string,
    ciudad: string,
    direccion: string,
    licencia: string,
    fechaEmisionLicencia: string,
    fechaVencimientoLicencia: string,
    fechaNacimiento: string,
    tipoCliente: string,
    notas: string)

  /** A rental order. `idCliente` and `idVehiculo` hold the text of the
      selected option; the money fields are in cents. */
  datatype Rental = Rental(
    id: Option<int>,
    codigo: string,
    descripcion: string,
    idCliente: string,
    idVehiculo: string,
    fechaReserva: string,
    fechaInicio: string,
    fechaFin: string,
    horaEntrega: string,
    horaDevolucion: string,
    estado: string,
    kmInicial: Num,
    kmFinal: Num,
    combustibleInicial: string,
    combustibleFinal: string,
    metodoPago: string,
    subtotal: Num,
    impuesto: Num,
    total: Num,
    deposito: Num,
    depositoDevuelto: bool,
    seguro: string,
    observacionesEntrega: string,
    observacionesDevolucion: string)
}
