/** The claim report form: a three-step wizard that collects the affected
    policy, the kind and date of the loss, a description, the amount claimed
    and the supporting documents, and then posts a claim in state
    "reportado". The form library's field validation, the HTTP call and the
    messages shown are outside the model; what the page itself decides is
    inside it. Values the form may leave `undefined` are `Option`s. */
module ReportarSiniestro {
  import opened Common
  import DatedNumber
  import Models

  // ---------------------------------------------------------------------
  // Claim number
  // ---------------------------------------------------------------------

  const SINIESTRO_PREFIX := "SIN-"

  /** `generarNumeroSiniestro` for the clock reading and random draw in `d`. */
  function NumeroSiniestro(d: DatedNumber.Stamp): (s: string)
    requires DatedNumber.ValidStamp(d)
    ensures StartsWith(s, SINIESTRO_PREFIX)
    ensures DatedNumber.Parse(SINIESTRO_PREFIX, s) == Some(d)
  {
    DatedNumber.ParseFormat(SINIESTRO_PREFIX, d);
    DatedNumber.Format(SINIESTRO_PREFIX, d)
  }

  /** With a four-digit year a claim number has 13 characters. */
  lemma NumeroSiniestroLength(d: DatedNumber.Stamp)
    requires DatedNumber.ValidStamp(d) && 1000 <= d.year <= 9999
    ensures |NumeroSiniestro(d)| == 13
  {
    DatedNumber.FormatLength(SINIESTRO_PREFIX, d);
  }

  /** Different clock readings or draws give different claim numbers. */
  lemma NumeroSiniestroInjective(d1: DatedNumber.Stamp, d2: DatedNumber.Stamp)
    requires DatedNumber.ValidStamp(d1) && DatedNumber.ValidStamp(d2)
    requires NumeroSiniestro(d1) == NumeroSiniestro(d2)
    ensures d1 == d2
  {
    DatedNumber.FormatInjective(SINIESTRO_PREFIX, d1, d2);
  }

  // ---------------------------------------------------------------------
  // Policies offered and the amount rule
  // ---------------------------------------------------------------------

  /** What the page reads of a policy: its id, its sum insured (already read
      as a number) and its state. */
  datatype PolizaOpcion = PolizaOpcion(id: int, sumaAsegurada: real, estado: string)

  predicate EsActiva(p: PolizaOpcion) {
    p.estado == "activa"
  }

  /** Only active policies are offered. */
  function PolizasActivas(ps: seq<PolizaOpcion>): (r: seq<PolizaOpcion>)
    ensures |r| <= |ps|
    ensures forall p :: p in r <==> p in ps && p.estado == "activa"
  {
    Filter(ps, EsActiva)
  }

  /** Each active policy is offered as often as it is listed, and in list
      order. */
  lemma PolizasActivasCountsInOrder(a: seq<PolizaOpcion>, b: seq<PolizaOpcion>, p: PolizaOpcion)
    ensures multiset(PolizasActivas(a))[p] == if p.estado == "activa" then multiset(a)[p] else 0
    ensures PolizasActivas(a + b) == PolizasActivas(a) + PolizasActivas(b)
  {
    FilterCounts(a, EsActiva, p);
    FilterAppend(a, b, EsActiva);
  }

  /** The sum insured of the first offered policy whose id is the selected
      one, or 0 when nothing is selected or the id is not offered. */
  function SumaAsegurada(ps: seq<PolizaOpcion>, poliza: Option<int>): (s: real)
    ensures s != 0.0 ==> exists p :: p in ps && Some(p.id) == poliza && p.sumaAsegurada == s
    ensures ps != [] && Some(ps[0].id) == poliza ==> s == ps[0].sumaAsegurada
    ensures poliza.None? ==> s == 0.0
    ensures (forall p :: p in ps ==> Some(p.id) != poliza) ==> s == 0.0
    ensures forall i :: 0 <= i < |ps| && Some(ps[i].id) == poliza && (forall j :: 0 <= j < i ==> Some(ps[j].id) != poliza) ==>
      s == ps[i].sumaAsegurada
  {
    if ps == [] then 0.0
    else if Some(ps[0].id) == poliza then ps[0].sumaAsegurada
    else
      var rest := ps[1..];
      assert forall i :: 1 <= i < |ps| ==> ps[i] == rest[i - 1];
      SumaAsegurada(rest, poliza)
  }

  /** The amount validator: an amount is refused exactly when it is set,
      non-zero and above the sum insured. */
  predicate MontoValido(monto: Option<real>, suma: real)
    ensures MontoValido(monto, suma) <==> monto.None? || monto.value == 0.0 || monto.value <= suma
  {
    !(Truthy(monto) && monto.value > suma)
  }

  /** With no policy selected the sum insured is 0, so every positive amount
      is refused. */
  lemma NoPolicyRefusesPositive(ps: seq<PolizaOpcion>, monto: real)
    requires monto > 0.0
    ensures !MontoValido(Some(monto), SumaAsegurada(ps, None))
  {
  }

  /** An amount up to the sum insured, or none at all, passes the rule. */
  lemma WithinSumAccepted(monto: Option<real>, suma: real)
    requires monto.None? || monto.value <= suma
    ensures MontoValido(monto, suma)
  {
  }

  // ---------------------------------------------------------------------
  // Form data and submission
  // ---------------------------------------------------------------------

  /** `formData`. The date is kept as the text `format('YYYY-MM-DD')` gives. */
  datatype FormData = FormData(
    poliza: Option<int>,
    tipoSiniestro: Option<string>,
    fechaSiniestro: string,
    descripcion: Option<string>,
    montoReclamado: Option<real>,
    documentosAdjuntos: seq<string>,
    numeroSiniestro: Option<string>)

  /** The initial form: nothing chosen, no documents, an empty number. */
  function InitialFormData(today: string): (f: FormData)
    ensures f.poliza.None? && f.tipoSiniestro.None? && f.descripcion.None? && f.montoReclamado.None?
    ensures f.documentosAdjuntos == [] && f.numeroSiniestro == Some("") && f.fechaSiniestro == today
  {
    FormData(None, None, today, None, None, [], Some(""))
  }

  /** The four fields the submit handler insists on; 0 counts as missing. */
  predicate Complete(f: FormData) {
    TruthyId(f.poliza) && TruthyText(f.tipoSiniestro) && TruthyText(f.descripcion)
    && Truthy(f.montoReclamado)
  }

  /** The JSON body posted to the claims endpoint. */
  datatype SiniestroPayload = SiniestroPayload(
    poliza: int,
    numeroSiniestro: string,
    tipoSiniestro: string,
    fechaSiniestro: string,
    descripcion: string,
    montoReclamado: real,
    documentosAdjuntos: string,
    estado: string)

  /** What `handleFormSubmit` does: stop on a missing field, stop without a
      stored token, or post the payload. */
  datatype Submission = MissingFields | NotAuthenticated | Send(payload: SiniestroPayload)

  /** `handleFormSubmit` up to the POST, for the stored token and the clock
      reading and random draw `d` that a generated number would use. */
  function Submit(f: FormData, token: Option<string>, d: DatedNumber.Stamp): (r: Submission)
    requires DatedNumber.ValidStamp(d)
    ensures r.MissingFields? <==> !Complete(f)
    ensures r.NotAuthenticated? <==> Complete(f) && !TruthyText(token)
    ensures r.Send? ==>
      && r.payload.poliza == f.poliza.value && r.payload.poliza != 0
      && r.payload.tipoSiniestro == f.tipoSiniestro.value && r.payload.tipoSiniestro != ""
      && r.payload.descripcion == f.descripcion.value && r.payload.descripcion != ""
      && r.payload.montoReclamado == f.montoReclamado.value && r.payload.montoReclamado != 0.0
      && r.payload.fechaSiniestro == f.fechaSiniestro
      && r.payload.estado == Models.EstadoSiniestro.Reportado.Code()
      && r.payload.documentosAdjuntos == Join(f.documentosAdjuntos, ", ")
      && r.payload.numeroSiniestro != ""
      && (TruthyText(f.numeroSiniestro) ==> r.payload.numeroSiniestro == f.numeroSiniestro.value)
      && (!TruthyText(f.numeroSiniestro) ==> DatedNumber.Parse(SINIESTRO_PREFIX, r.payload.numeroSiniestro) == Some(d))
  {
    if !Complete(f) then MissingFields
    else if !TruthyText(token) then NotAuthenticated
    else
      var numero := if TruthyText(f.numeroSiniestro) then f.numeroSiniestro.value else NumeroSiniestro(d);
      Send(SiniestroPayload(
        f.poliza.value, numero, f.tipoSiniestro.value, f.fechaSiniestro, f.descripcion.value,
        f.montoReclamado.value, Join(f.documentosAdjuntos, ", "), "reportado"))
  }

  /** A form submitted without choosing a number gets a fresh one built from
      the clock and the draw, which therefore starts with "SIN-". */
  lemma GeneratedNumberWhenEmpty(f: FormData, token: Option<string>, d: DatedNumber.Stamp)
    requires DatedNumber.ValidStamp(d) && Submit(f, token, d).Send?
    requires f.numeroSiniestro == Some("") || f.numeroSiniestro.None?
    ensures Submit(f, token, d).payload.numeroSiniestro == NumeroSiniestro(d)
  {
  }

  // ---------------------------------------------------------------------
  // The wizard's state
  // ---------------------------------------------------------------------

  /** The fields the first step validates, as the form library returns them
      once its required rules pass. */
  datatype Step1Values = Step1Values(poliza: int, tipoSiniestro: string, fechaSiniestro: string)

  /** The fields the second step validates; the number and the documents are
      not required. */
  datatype Step2Values = Step2Values(descripcion: string, montoReclamado: real,
                                     numeroSiniestro: Option<string>, documentosAdjuntos: Option<seq<string>>)

  function AfterStep1(f: FormData, v: Step1Values): (g: FormData)
    ensures g.poliza == Some(v.poliza) && g.tipoSiniestro == Some(v.tipoSiniestro)
    ensures g.fechaSiniestro == v.fechaSiniestro
    ensures g.descripcion == f.descripcion && g.montoReclamado == f.montoReclamado
    ensures g.documentosAdjuntos == f.documentosAdjuntos && g.numeroSiniestro == f.numeroSiniestro
  {
    f.(poliza := Some(v.poliza), tipoSiniestro := Some(v.tipoSiniestro), fechaSiniestro := v.fechaSiniestro)
  }

  /** The second step stores what it validated; a missing document list
      becomes the empty list. */
  function AfterStep2(f: FormData, v: Step2Values): (g: FormData)
    ensures g.descripcion == Some(v.descripcion) && g.montoReclamado == Some(v.montoReclamado)
    ensures g.numeroSiniestro == v.numeroSiniestro
    ensures v.documentosAdjuntos.None? ==> g.documentosAdjuntos == []
    ensures v.documentosAdjuntos.Some? ==> g.documentosAdjuntos == v.documentosAdjuntos.value
    ensures g.poliza == f.poliza && g.tipoSiniestro == f.tipoSiniestro && g.fechaSiniestro == f.fechaSiniestro
  {
    f.(descripcion := Some(v.descripcion), montoReclamado := Some(v.montoReclamado),
       numeroSiniestro := v.numeroSiniestro, documentosAdjuntos := v.documentosAdjuntos.GetOr([]))
  }

  /** Passing both steps with non-empty values makes the form complete, so
      the submit handler goes on to the token check. */
  lemma StepsCompleteTheForm(f: FormData, v1: Step1Values, v2: Step2Values)
    requires v1.poliza != 0 && v1.tipoSiniestro != "" && v2.descripcion != "" && v2.montoReclamado != 0.0
    ensures Complete(AfterStep2(AfterStep1(f, v1), v2))
  {
  }

  /** A single field set by `handleFieldChange`. */
  datatype FieldChange =
    | SetPoliza(poliza: Option<int>)
    | SetTipoSiniestro(tipo: Option<string>)
    | SetFechaSiniestro(fecha: string)
    | SetDescripcion(descripcion: Option<string>)
    | SetMontoReclamado(monto: Option<real>)
    | SetDocumentosAdjuntos(documentos: seq<string>)
    | SetNumeroSiniestro(numero: Option<string>)

  /** The wizard: the current step and the collected data. */
  class ReporteForm {
    var currentStep: int
    var data: FormData

    constructor (today: string)
      ensures currentStep == 0 && data == InitialFormData(today)
    {
      currentStep := 0;
      data := InitialFormData(today);
    }

    /** `nextStep`. */
    method NextStep()
      modifies this
      ensures currentStep == old(currentStep) + 1 && data == old(data)
    {
      currentStep := currentStep + 1;
    }

    /** `prevStep`. */
    method PrevStep()
      modifies this
      ensures currentStep == old(currentStep) - 1 && data == old(data)
    {
      currentStep := currentStep - 1;
    }

    /** `validateStep1`: `None` is a failed validation, which changes
        nothing; otherwise the values are stored and the wizard advances. */
    method ValidateStep1(values: Option<Step1Values>)
      modifies this
      ensures values.None? ==> currentStep == old(currentStep) && data == old(data)
      ensures values.Some? ==> currentStep == old(currentStep) + 1 && data == AfterStep1(old(data), values.value)
    {
      if values.Some? {
        data := AfterStep1(data, values.value);
        NextStep();
      }
    }

    /** `validateStep2`, in the same way. */
    method ValidateStep2(values: Option<Step2Values>)
      modifies this
      ensures values.None? ==> currentStep == old(currentStep) && data == old(data)
      ensures values.Some? ==> currentStep == old(currentStep) + 1 && data == AfterStep2(old(data), values.value)
    {
      if values.Some? {
        data := AfterStep2(data, values.value);
        NextStep();
      }
    }

    /** `handleFieldChange`: one field takes the new value, the others and
        the step stay as they were. */
    method HandleFieldChange(change: FieldChange)
      modifies this
      ensures currentStep == old(currentStep)
      ensures change.SetPoliza? ==> data == old(data).(poliza := change.poliza)
      ensures change.SetTipoSiniestro? ==> data == old(data).(tipoSiniestro := change.tipo)
      ensures change.SetFechaSiniestro? ==> data == old(data).(fechaSiniestro := change.fecha)
      ensures change.SetDescripcion? ==> data == old(data).(descripcion := change.descripcion)
      ensures change.SetMontoReclamado? ==> data == old(data).(montoReclamado := change.monto)
      ensures change.SetDocumentosAdjuntos? ==> data == old(data).(documentosAdjuntos := change.documentos)
      ensures change.SetNumeroSiniestro? ==> data == old(data).(numeroSiniestro := change.numero)
    {
      match change
      case SetPoliza(p) => data := data.(poliza := p);
      case SetTipoSiniestro(t) => data := data.(tipoSiniestro := t);
      case SetFechaSiniestro(x) => data := data.(fechaSiniestro := x);
      case SetDescripcion(x) => data := data.(descripcion := x);
      case SetMontoReclamado(m) => data := data.(montoReclamado := m);
      case SetDocumentosAdjuntos(ds) => data := data.(documentosAdjuntos := ds);
      case SetNumeroSiniestro(n) => data := data.(numeroSiniestro := n);
    }
  }

  /** Going forward and back again returns the wizard to the step it was on
      with the same data. */
  method NextThenPrev(form: ReporteForm)
    modifies form
    ensures form.currentStep == old(form.currentStep) && form.data == old(form.data)
  {
    form.NextStep();
    form.PrevStep();
  }
}
