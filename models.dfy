/** The persistent entities of the insurance back end: the choice tables of
    every status and method column with their stored codes, the field defaults,
    one record per table row, and the policy object whose `save` derives the
    monthly premium. Money columns are exact `real`s; dates are ISO strings. */
module Models {
  import opened Common

  // ---------------------------------------------------------------------
  // Choice tables (stored code <-> constructor)
  // ---------------------------------------------------------------------

  datatype Rol = Admin | Agente | Cliente {
    function Code(): string {
      match this
      case Admin => "ADMIN"
      case Agente => "AGENTE"
      case Cliente => "CLIENTE"
    }

    static function Parse(s: string): (r: Option<Rol>)
      ensures r.Some? ==> r.value.Code() == s
    {
      if s == "ADMIN" then Some(Admin)
      else if s == "AGENTE" then Some(Agente)
      else if s == "CLIENTE" then Some(Cliente)
      else None
    }

    /** The stored code reads back as this choice, so no two choices share a
        code. */
    lemma CodeRoundTrip()
      ensures Parse(Code()) == Some(this)
    {
    }
  }

  datatype EstadoPoliza = Cotizacion | Activa | Inactiva | Vencida | Cancelada {
    function Code(): string {
      match this
      case Cotizacion => "cotizacion"
      case Activa => "activa"
      case Inactiva => "inactiva"
      case Vencida => "vencida"
      case Cancelada => "cancelada"
    }

    static function Parse(s: string): (r: Option<EstadoPoliza>)
      ensures r.Some? ==> r.value.Code() == s
    {
      if s == "cotizacion" then Some(Cotizacion)
      else if s == "activa" then Some(Activa)
      else if s == "inactiva" then Some(Inactiva)
      else if s == "vencida" then Some(EstadoPoliza.Vencida)
      else if s == "cancelada" then Some(EstadoPoliza.Cancelada)
      else None
    }

    /** The stored code reads back as this choice, so no two choices share a
        code. */
    lemma CodeRoundTrip()
      ensures Parse(Code()) == Some(this)
    {
    }
  }

  datatype EstadoFactura = Pendiente | Pagada | Vencida | Cancelada {
    function Code(): string {
      match this
      case Pendiente => "pendiente"
      case Pagada => "pagada"
      case Vencida => "vencida"
      case Cancelada => "cancelada"
    }

    static function Parse(s: string): (r: Option<EstadoFactura>)
      ensures r.Some? ==> r.value.Code() == s
    {
      if s == "pendiente" then Some(EstadoFactura.Pendiente)
      else if s == "pagada" then Some(Pagada)
      else if s == "vencida" then Some(EstadoFactura.Vencida)
      else if s == "cancelada" then Some(EstadoFactura.Cancelada)
      else None
    }

    /** The stored code reads back as this choice, so no two choices share a
        code. */
    lemma CodeRoundTrip()
      ensures Parse(Code()) == Some(this)
    {
    }
  }

  datatype EstadoPago = Pendiente | Completado | Fallido | Reembolsado {
    function Code(): string {
      match this
      case Pendiente => "pendiente"
      case Completado => "completado"
      case Fallido => "fallido"
      case Reembolsado => "reembolsado"
    }

    static function Parse(s: string): (r: Option<EstadoPago>)
      ensures r.Some? ==> r.value.Code() == s
    {
      if s == "pendiente" then Some(EstadoPago.Pendiente)
      else if s == "completado" then Some(Completado)
      else if s == "fallido" then Some(Fallido)
      else if s == "reembolsado" then Some(Reembolsado)
      else None
    }

    /** The stored code reads back as this choice, so no two choices share a
        code. */
    lemma CodeRoundTrip()
      ensures Parse(Code()) == Some(this)
    {
    }
  }

  datatype MetodoPago = Transferencia | Tarjeta | Efectivo | Cheque {
    function Code(): string {
      match this
      case Transferencia => "transferencia"
      case Tarjeta => "tarjeta"
      case Efectivo => "efectivo"
      case Cheque => "cheque"
    }

    static function Parse(s: string): (r: Option<MetodoPago>)
      ensures r.Some? ==> r.value.Code() == s
    {
      if s == "transferencia" then Some(Transferencia)
      else if s == "tarjeta" then Some(Tarjeta)
      else if s == "efectivo" then Some(Efectivo)
      else if s == "cheque" then Some(Cheque)
      else None
    }

    /** The stored code reads back as this choice, so no two choices share a
        code. */
    lemma CodeRoundTrip()
      ensures Parse(Code()) == Some(this)
    {
    }
  }

  datatype EstadoAgente = Activo | Inactivo | Vacaciones {
    function Code(): string {
      match this
      case Activo => "activo"
      case Inactivo => "inactivo"
      case Vacaciones => "vacaciones"
    }

    static function Parse(s: string): (r: Option<EstadoAgente>)
      ensures r.Some? ==> r.value.Code() == s
    {
      if s == "activo" then Some(Activo)
      else if s == "inactivo" then Some(Inactivo)
      else if s == "vacaciones" then Some(Vacaciones)
      else None
    }

    /** The stored code reads back as this choice, so no two choices share a
        code. */
    lemma CodeRoundTrip()
      ensures Parse(Code()) == Some(this)
    {
    }
  }

  datatype EstadoSiniestro = Reportado | EnRevision | Aprobado | Rechazado | Pagado {
    function Code(): string {
      match this
      case Reportado => "reportado"
      case EnRevision => "en_revision"
      case Aprobado => "aprobado"
      case Rechazado => "rechazado"
      case Pagado => "pagado"
    }

    static function Parse(s: string): (r: Option<EstadoSiniestro>)
      ensures r.Some? ==> r.value.Code() == s
    {
      if s == "reportado" then Some(Reportado)
      else if s == "en_revision" then Some(EnRevision)
      else if s == "aprobado" then Some(Aprobado)
      else if s == "rechazado" then Some(Rechazado)
      else if s == "pagado" then Some(Pagado)
      else None
    }

    /** The stored code reads back as this choice, so no two choices share a
        code. */
    lemma CodeRoundTrip()
      ensures Parse(Code()) == Some(this)
    {
    }
  }

  datatype TipoSiniestro =
    | Muerte | Invalidez | InvalidezParcial | GastosMedicos
    | Hospitalizacion | IncapacidadTemporal | Otros
  {
    function Code(): string {
      match this
      case Muerte => "muerte"
      case Invalidez => "invalidez"
      case InvalidezParcial => "invalidez_parcial"
      case GastosMedicos => "gastos_medicos"
      case Hospitalizacion => "hospitalizacion"
      case IncapacidadTemporal => "incapacidad_temporal"
      case Otros => "otros"
    }

    static function Parse(s: string): (r: Option<TipoSiniestro>)
      ensures r.Some? ==> r.value.Code() == s
    {
      if s == "muerte" then Some(Muerte)
      else if s == "invalidez" then Some(Invalidez)
      else if s == "invalidez_parcial" then Some(InvalidezParcial)
      else if s == "gastos_medicos" then Some(GastosMedicos)
      else if s == "hospitalizacion" then Some(Hospitalizacion)
      else if s == "incapacidad_temporal" then Some(IncapacidadTemporal)
      else if s == "otros" then Some(Otros)
      else None
    }

    /** The stored code reads back as this choice, so no two choices share a
        code. */
    lemma CodeRoundTrip()
      ensures Parse(Code()) == Some(this)
    {
    }
  }

  datatype TipoNota = General | Seguimiento | Recordatorio | Importante {
    function Code(): string {
      match this
      case General => "general"
      case Seguimiento => "seguimiento"
      case Recordatorio => "recordatorio"
      case Importante => "importante"
    }

    static function Parse(s: string): (r: Option<TipoNota>)
      ensures r.Some? ==> r.value.Code() == s
    {
      if s == "general" then Some(General)
      else if s == "seguimiento" then Some(Seguimiento)
      else if s == "recordatorio" then Some(Recordatorio)
      else if s == "importante" then Some(Importante)
      else None
    }

    /** The stored code reads back as this choice, so no two choices share a
        code. */
    lemma CodeRoundTrip()
      ensures Parse(Code()) == Some(this)
    {
    }
  }

  /** A policy is in exactly one of the five states; "pendiente_pago" is not
      one of them. */
  lemma PolicyStatesAreFive(s: string)
    ensures EstadoPoliza.Parse(s).Some? <==>
      s in {"cotizacion", "activa", "inactiva", "vencida", "cancelada"}
    ensures EstadoPoliza.Parse("pendiente_pago") == None
  {
  }

  // ---------------------------------------------------------------------
  // Rows
  // ---------------------------------------------------------------------

  /** A login account. `isActive` is the framework's flag that the views clear
      instead of deleting the row. */
  datatype UsuarioRecord = UsuarioRecord(
    username: string, firstName: string, lastName: string, email: string,
    telefono: Option<string>, identificacion: Option<string>,
    rol: Rol, isActive: bool)

  datatype ClienteRecord = ClienteRecord(
    usuario: nat, fechaNacimiento: string, direccion: string,
    identificacion: string, estadoSalud: string)

  datatype PolizaRecord = PolizaRecord(
    cliente: nat, agente: Option<nat>, numeroPoliza: string,
    sumaAsegurada: real, primaAnual: Option<real>, primaMensual: Option<real>,
    fechaInicio: string, fechaVencimiento: string,
    estado: EstadoPoliza, cobertura: Option<string>)

  datatype FacturaRecord = FacturaRecord(
    poliza: nat, numeroFactura: string, monto: real,
    fechaEmision: string, fechaVencimiento: string,
    estado: EstadoFactura, concepto: string)

  datatype PagoRecord = PagoRecord(
    factura: nat, montoPagado: real, metodoPago: MetodoPago,
    referenciaPago: Option<string>, estado: EstadoPago, descripcion: Option<string>)

  datatype BeneficiarioRecord = BeneficiarioRecord(
    poliza: nat, nombreCompleto: string, parentesco: string,
    porcentaje: real, fechaNacimiento: Option<string>)

  datatype AgenteRecord = AgenteRecord(
    usuario: nat, codigoAgente: string, fechaContratacion: string,
    especialidad: string, comision: real, estado: EstadoAgente,
    telefonoOficina: Option<string>, direccionOficina: Option<string>)

  /** A claim: the claimed amount is required, the approved amount, the
      resolution text and its date may be absent. */
  datatype SiniestroRecord = SiniestroRecord(
    poliza: nat, numeroSiniestro: string, tipoSiniestro: TipoSiniestro,
    fechaSiniestro: string, descripcion: string,
    montoReclamado: real, montoAprobado: Option<real>,
    estado: EstadoSiniestro, documentosAdjuntos: Option<string>,
    resolucion: Option<string>, fechaResolucion: Option<string>)

  datatype NotaPolizaRecord = NotaPolizaRecord(
    poliza: nat, usuario: nat, titulo: string, contenido: string, tipoNota: TipoNota)

  // ---------------------------------------------------------------------
  // Field defaults
  // ---------------------------------------------------------------------

  /** A new account built with every defaulted field left out. */
  function NewUsuario(username: string, firstName: string, lastName: string, email: string): (u: UsuarioRecord)
    ensures u.rol == Cliente && u.isActive
    ensures u.telefono.None? && u.identificacion.None?
    ensures u.username == username
  {
    UsuarioRecord(username, firstName, lastName, email, None, None, Cliente, true)
  }

  function NewCliente(usuario: nat, fechaNacimiento: string, direccion: string, identificacion: string): (c: ClienteRecord)
    ensures c.estadoSalud == "Bueno" && c.usuario == usuario
  {
    ClienteRecord(usuario, fechaNacimiento, direccion, identificacion, "Bueno")
  }

  function NewFactura(poliza: nat, numero: string, monto: real, emision: string, vencimiento: string): (f: FacturaRecord)
    ensures f.estado == EstadoFactura.Pendiente && f.concepto == "Prima anual de seguro"
    ensures f.poliza == poliza && f.monto == monto
  {
    FacturaRecord(poliza, numero, monto, emision, vencimiento, EstadoFactura.Pendiente, "Prima anual de seguro")
  }

  function NewPago(factura: nat, monto: real, metodo: MetodoPago): (p: PagoRecord)
    ensures p.estado == Completado && p.referenciaPago.None? && p.descripcion.None?
    ensures p.factura == factura && p.montoPagado == monto && p.metodoPago == metodo
  {
    PagoRecord(factura, monto, metodo, None, Completado, None)
  }

  function NewAgente(usuario: nat, codigo: string, fechaContratacion: string): (a: AgenteRecord)
    ensures a.estado == Activo && a.comision == 10.0 && a.especialidad == "Seguros de Vida"
    ensures a.usuario == usuario && a.codigoAgente == codigo
  {
    AgenteRecord(usuario, codigo, fechaContratacion, "Seguros de Vida", 10.0, Activo, None, None)
  }

  function NewSiniestro(poliza: nat, numero: string, tipo: TipoSiniestro, fecha: string,
                        descripcion: string, montoReclamado: real): (s: SiniestroRecord)
    ensures s.estado == Reportado && s.montoReclamado == montoReclamado
    ensures s.montoAprobado.None? && s.resolucion.None? && s.fechaResolucion.None?
  {
    SiniestroRecord(poliza, numero, tipo, fecha, descripcion, montoReclamado, None,
                    Reportado, None, None, None)
  }

  function NewNotaPoliza(poliza: nat, usuario: nat, titulo: string, contenido: string): (n: NotaPolizaRecord)
    ensures n.tipoNota == General && n.poliza == poliza && n.usuario == usuario
  {
    NotaPolizaRecord(poliza, usuario, titulo, contenido, General)
  }

  /** A new policy row with the defaulted fields left out: state
      "cotizacion" and a monthly premium of 0.00, which `save` then replaces
      by a twelfth of a non-zero annual premium. */
  function NewPoliza(cliente: nat, agente: Option<nat>, numeroPoliza: string, sumaAsegurada: real,
                     primaAnual: Option<real>, fechaInicio: string, fechaVencimiento: string,
                     cobertura: Option<string>): (p: PolizaRecord)
    ensures p.estado == Cotizacion && p.primaMensual == Some(0.0) && !Truthy(p.primaMensual)
    ensures p.cliente == cliente && p.agente == agente && p.numeroPoliza == numeroPoliza
    ensures p.sumaAsegurada == sumaAsegurada && p.primaAnual == primaAnual
  {
    PolizaRecord(cliente, agente, numeroPoliza, sumaAsegurada, primaAnual, Some(0.0),
                 fechaInicio, fechaVencimiento, Cotizacion, cobertura)
  }

  // ---------------------------------------------------------------------
  // Policy premium derivation
  // ---------------------------------------------------------------------

  /** The monthly premium that `Poliza.save` leaves in place: a twelfth of the
      annual premium when the annual one is set and the monthly one is not,
      and the monthly premium as it was otherwise. */
  function DerivedPrimaMensual(anual: Option<real>, mensual: Option<real>): (r: Option<real>)
    ensures r == mensual || (Truthy(anual) && !Truthy(mensual) && r.Some? && r.value * 12.0 == anual.value)
    ensures Truthy(anual) ==> Truthy(r)
  {
    if Truthy(anual) && !Truthy(mensual) then Some(anual.value / 12.0) else mensual
  }

  /** A set monthly premium is never overwritten, whatever the annual one is. */
  lemma SaveKeepsExplicitMonthly(anual: Option<real>, mensual: Option<real>)
    requires Truthy(mensual)
    ensures DerivedPrimaMensual(anual, mensual) == mensual
  {
  }

  /** Without an annual premium nothing is derived. */
  lemma SaveWithoutAnnual(anual: Option<real>, mensual: Option<real>)
    requires !Truthy(anual)
    ensures DerivedPrimaMensual(anual, mensual) == mensual
  {
  }

  /** Saving twice derives nothing new. */
  lemma SaveIdempotent(anual: Option<real>, mensual: Option<real>)
    ensures DerivedPrimaMensual(anual, DerivedPrimaMensual(anual, mensual)) == DerivedPrimaMensual(anual, mensual)
  {
  }

  /** The in-memory policy object; `Save` completes the monthly premium and
      hands back the row that is written. */
  class Poliza {
    var cliente: nat
    var agente: Option<nat>
    var numeroPoliza: string
    var sumaAsegurada: real
    var primaAnual: Option<real>
    var primaMensual: Option<real>
    var fechaInicio: string
    var fechaVencimiento: string
    var estado: EstadoPoliza
    var cobertura: Option<string>

    /** A policy built with its defaulted fields left out. */
    constructor (cliente: nat, agente: Option<nat>, numeroPoliza: string, sumaAsegurada: real,
                 primaAnual: Option<real>, fechaInicio: string, fechaVencimiento: string,
                 cobertura: Option<string>)
      ensures Record() == NewPoliza(cliente, agente, numeroPoliza, sumaAsegurada, primaAnual,
                                    fechaInicio, fechaVencimiento, cobertura)
    {
      this.cliente := cliente;
      this.agente := agente;
      this.numeroPoliza := numeroPoliza;
      this.sumaAsegurada := sumaAsegurada;
      this.primaAnual := primaAnual;
      this.primaMensual := Some(0.0);
      this.fechaInicio := fechaInicio;
      this.fechaVencimiento := fechaVencimiento;
      this.estado := Cotizacion;
      this.cobertura := cobertura;
    }

    /** The row the object stands for. */
    function Record(): PolizaRecord
      reads this
    {
      PolizaRecord(cliente, agente, numeroPoliza, sumaAsegurada, primaAnual, primaMensual,
                   fechaInicio, fechaVencimiento, estado, cobertura)
    }

    /** `Poliza.save`: fills in the monthly premium, changes no other field,
        and returns the row handed to the database. */
    method Save() returns (row: PolizaRecord)
      modifies this`primaMensual
      ensures primaMensual == DerivedPrimaMensual(old(primaAnual), old(primaMensual))
      ensures row == Record() == old(Record()).(primaMensual := primaMensual)
    {
      if Truthy(primaAnual) && !Truthy(primaMensual) {
        primaMensual := Some(primaAnual.value / 12.0);
      }
      row := Record();
    }
  }
}
