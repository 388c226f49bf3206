/** The administrator's new-policy form: the premium preview computed from
    the sum insured, the generated policy number, and the body posted to the
    policies endpoint with its fallback texts and fixed state. Amounts are
    exact reals; the form fields hold a premium rendered with two decimals,
    which is kept here as the amount it renders. */
module AdminCrearPoliza {
  import opened Common
  import DatedNumber
  import Models
  import Views

  // ---------------------------------------------------------------------
  // Policy number
  // ---------------------------------------------------------------------

  const POLIZA_PREFIX := "POL-ACC-"

  /** `generarNumeroPoliza` for the clock reading and random draw in `d`. */
  function NumeroPoliza(d: DatedNumber.Stamp): (s: string)
    requires DatedNumber.ValidStamp(d)
    ensures StartsWith(s, POLIZA_PREFIX)
    ensures DatedNumber.Parse(POLIZA_PREFIX, s) == Some(d)
  {
    DatedNumber.ParseFormat(POLIZA_PREFIX, d);
    DatedNumber.Format(POLIZA_PREFIX, d)
  }

  /** With a four-digit year a policy number has 17 characters. */
  lemma NumeroPolizaLength(d: DatedNumber.Stamp)
    requires DatedNumber.ValidStamp(d) && 1000 <= d.year <= 9999
    ensures |NumeroPoliza(d)| == 17
  {
    DatedNumber.FormatLength(POLIZA_PREFIX, d);
  }

  /** Different clock readings or draws give different policy numbers. */
  lemma NumeroPolizaInjective(d1: DatedNumber.Stamp, d2: DatedNumber.Stamp)
    requires DatedNumber.ValidStamp(d1) && DatedNumber.ValidStamp(d2)
    requires NumeroPoliza(d1) == NumeroPoliza(d2)
    ensures d1 == d2
  {
    DatedNumber.FormatInjective(POLIZA_PREFIX, d1, d2);
  }

  // ---------------------------------------------------------------------
  // Premium preview
  // ---------------------------------------------------------------------

  /** The annual premium rate: 2% of the sum insured. */
  const TASA_PRIMA: real := 0.02

  /** A premium form field: empty, or showing an amount with two decimals. */
  datatype Field = Empty | Fixed(amount: real)

  /** `value ? Number(value) : 0`: a missing or zero input reads as 0. */
  function ValorNumerico(value: Option<real>): (v: real)
    ensures Truthy(value) ==> v == value.value
    ensures !Truthy(value) ==> v == 0.0
  {
    if Truthy(value) then value.value else 0.0
  }

  /** A premium is shown only when it is strictly positive. */
  function FieldOf(x: real): (f: Field)
    ensures f.Fixed? <==> x > 0.0
    ensures f.Fixed? ==> f.amount == x
  {
    if x > 0.0 then Fixed(x) else Empty
  }

  /** The state `calcularPrimas` sets: the three amounts and the two form
      fields. */
  class PrimaPreview {
    var sumaAsegurada: real
    var primaAnual: real
    var primaMensual: real
    var campoPrimaAnual: Field
    var campoPrimaMensual: Field

    constructor ()
      ensures sumaAsegurada == 0.0 && primaAnual == 0.0 && primaMensual == 0.0
      ensures campoPrimaAnual == Empty && campoPrimaMensual == Empty
    {
      sumaAsegurada := 0.0;
      primaAnual := 0.0;
      primaMensual := 0.0;
      campoPrimaAnual := Empty;
      campoPrimaMensual := Empty;
    }

    /** `calcularPrimas`: the sum insured read from the input, 2% of it a
        year, a twelfth of that a month, and the form fields filled only with
        positive premiums. */
    method CalcularPrimas(value: Option<real>)
      modifies this
      ensures sumaAsegurada == ValorNumerico(value)
      ensures primaAnual == sumaAsegurada * TASA_PRIMA && primaMensual * 12.0 == primaAnual
      ensures campoPrimaAnual == FieldOf(primaAnual) && campoPrimaMensual == FieldOf(primaMensual)
      ensures campoPrimaAnual.Fixed? <==> sumaAsegurada > 0.0
      ensures campoPrimaMensual.Fixed? <==> sumaAsegurada > 0.0
      ensures (primaAnual, primaMensual) == Primas(value)
    {
      var valorNumerico := ValorNumerico(value);
      sumaAsegurada := valorNumerico;
      var anual := valorNumerico * TASA_PRIMA;
      var mensual := anual / 12.0;
      primaAnual := anual;
      primaMensual := mensual;
      campoPrimaAnual := FieldOf(anual);
      campoPrimaMensual := FieldOf(mensual);
    }
  }

  /** The preview's premiums for an input, as `CalcularPrimas` leaves them. */
  function Primas(value: Option<real>): (r: (real, real))
    ensures r.0 == ValorNumerico(value) * TASA_PRIMA && r.1 * 12.0 == r.0
    ensures r.0 > 0.0 <==> ValorNumerico(value) > 0.0
    ensures r.1 > 0.0 <==> ValorNumerico(value) > 0.0
  {
    var anual := ValorNumerico(value) * TASA_PRIMA;
    (anual, anual / 12.0)
  }

  /** A missing or zero sum insured leaves both premium fields empty. */
  lemma FalsyInputClearsFields(value: Option<real>)
    requires !Truthy(value)
    ensures FieldOf(Primas(value).0) == Empty && FieldOf(Primas(value).1) == Empty
  {
  }

  /** The monthly premium previewed is the one the backend derives when it
      stores a policy with only the annual premium. */
  lemma PreviewAgreesWithSave(value: Option<real>)
    requires Truthy(value)
    ensures Models.DerivedPrimaMensual(Some(Primas(value).0), None) == Some(Primas(value).1)
  {
  }

  // ---------------------------------------------------------------------
  // Submission
  // ---------------------------------------------------------------------

  const COBERTURA_DEFAULT :=
    "Seguro de Accidentes Personales - Cobertura básica por muerte e invalidez permanente total o parcial resultante de accidente."
  const EXCLUSIONES_DEFAULT :=
    "Suicidio, lesiones autoinfligidas, participación en actos ilícitos, guerra, actividades deportivas profesionales de alto riesgo."

  /** The form's values; dates are kept as `format('YYYY-MM-DD')` text. */
  datatype PolizaForm = PolizaForm(
    clienteId: int,
    agenteId: Option<int>,
    numeroPoliza: Option<string>,
    sumaAsegurada: real,
    primaAnual: Field,
    primaMensual: Field,
    fechaInicio: string,
    fechaVencimiento: string,
    cobertura: Option<string>,
    exclusiones: Option<string>)

  /** The JSON body posted to the policies endpoint. */
  datatype PolizaPayload = PolizaPayload(
    cliente: int,
    agente: Option<int>,
    numeroPoliza: string,
    sumaAsegurada: real,
    primaAnual: Field,
    primaMensual: Field,
    fechaInicio: string,
    fechaVencimiento: string,
    cobertura: string,
    exclusiones: string,
    estado: string)

  datatype Submission = NotAuthenticated | Send(payload: PolizaPayload)

  /** `handleFormSubmit` up to the POST, for the stored token and the clock
      reading and random draw `d` a generated number would use. */
  function Submit(v: PolizaForm, token: Option<string>, d: DatedNumber.Stamp): (r: Submission)
    requires DatedNumber.ValidStamp(d)
    ensures r.NotAuthenticated? <==> !TruthyText(token)
    ensures r.Send? ==>
      && r.payload.cliente == v.clienteId && r.payload.agente == v.agenteId
      && r.payload.sumaAsegurada == v.sumaAsegurada
      && r.payload.primaAnual == v.primaAnual && r.payload.primaMensual == v.primaMensual
      && r.payload.fechaInicio == v.fechaInicio && r.payload.fechaVencimiento == v.fechaVencimiento
      && r.payload.numeroPoliza != "" && r.payload.cobertura != "" && r.payload.exclusiones != ""
      && (TruthyText(v.numeroPoliza) ==> r.payload.numeroPoliza == v.numeroPoliza.value)
      && (!TruthyText(v.numeroPoliza) ==> DatedNumber.Parse(POLIZA_PREFIX, r.payload.numeroPoliza) == Some(d))
      && (TruthyText(v.cobertura) ==> r.payload.cobertura == v.cobertura.value)
      && (!TruthyText(v.cobertura) ==> r.payload.cobertura == COBERTURA_DEFAULT)
      && (TruthyText(v.exclusiones) ==> r.payload.exclusiones == v.exclusiones.value)
      && (!TruthyText(v.exclusiones) ==> r.payload.exclusiones == EXCLUSIONES_DEFAULT)
      && r.payload.estado == Models.EstadoPoliza.Activa.Code()
  {
    if !TruthyText(token) then NotAuthenticated
    else
      var numero := if TruthyText(v.numeroPoliza) then v.numeroPoliza.value else NumeroPoliza(d);
      Send(PolizaPayload(
        v.clienteId, v.agenteId, numero, v.sumaAsegurada, v.primaAnual, v.primaMensual,
        v.fechaInicio, v.fechaVencimiento,
        OrDefault(v.cobertura, COBERTURA_DEFAULT), OrDefault(v.exclusiones, EXCLUSIONES_DEFAULT),
        "activa"))
  }

  /** The body the page posts is read by a serializer that keeps only the
      client, the sum, the annual premium and the two dates: the policy
      stored is a quotation with an empty number, not the active policy with
      the number the page generated or was given. */
  lemma PostedStateAndNumberDropped(v: PolizaForm, token: Option<string>, d: DatedNumber.Stamp,
                                    db: Views.Db, i: Views.PolizaInput)
    requires DatedNumber.ValidStamp(d) && Submit(v, token, d).Send? && db.Valid()
    requires var p := Submit(v, token, d).payload;
      && p.cliente == i.cliente && p.sumaAsegurada == i.sumaAsegurada && p.primaAnual == Fixed(i.primaAnual)
      && p.fechaInicio == i.fechaInicio && p.fechaVencimiento == i.fechaVencimiento
    requires !Views.NumeroTaken(db, "")
    ensures var p := Submit(v, token, d).payload;
      var stored := Views.CrearPolizaSpec(db, Some(i)).0.polizas.rows[db.polizas.nextId];
      && Models.EstadoPoliza.Parse(p.estado) == Some(Models.Activa) && stored.estado == Models.Cotizacion
      && p.numeroPoliza != "" && stored.numeroPoliza == ""
      && stored.cobertura.None? && stored.agente.None?
  {
  }
}
