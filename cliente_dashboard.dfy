/** The client's portal home: which policy is "mine", which claims and
    payments belong to it, the quick-menu counters, the plan name shown for
    the policy, the claim summary cards and the cancel action. Fields the API
    may leave out (`cliente_info?.usuario_info?.username`, `cobertura`, the
    token's `username`) are `Option`s; `None` is `undefined`. */
module ClienteDashboard {
  import opened Common
  import Models
  import AdminDashboard
  import ClienteDetalleSiniestro

  // ---------------------------------------------------------------------
  // Plan name
  // ---------------------------------------------------------------------

  /** The fixed plan names `getNombrePlan` can answer with. */
  predicate FixedPlanName(r: string) {
    r in {"Plan Personalizado", "Plan Básico", "Plan Estándar", "Plan Premium", "Seguro de Vida"}
  }

  /** `getNombrePlan`: empty coverage is a custom plan; otherwise the first
      plan code found, in priority order, names the plan; otherwise the first
      sentence of the coverage text, or "Seguro de Vida" if it is empty. */
  function NombrePlan(cobertura: Option<string>): (r: string)
    ensures r != ""
    ensures FixedPlanName(r) || (cobertura.Some? && StartsWith(cobertura.value, r) && '.' !in r)
    ensures cobertura.None? || cobertura == Some("") ==> r == "Plan Personalizado"
    ensures cobertura.Some? && Contains(cobertura.value, "vida_temporal") ==> r == "Plan Básico"
    ensures (cobertura.Some? && cobertura.value != "" && !Contains(cobertura.value, "vida_temporal")
             && !Contains(cobertura.value, "accidentes") && !Contains(cobertura.value, "vida_entera")) ==>
      r == (if BeforeFirst(cobertura.value, '.') != "" then BeforeFirst(cobertura.value, '.') else "Seguro de Vida")
  {
    if cobertura.None? || cobertura.value == "" then "Plan Personalizado"
    else
      var c := cobertura.value;
      if Contains(c, "vida_temporal") then "Plan Básico"
      else if Contains(c, "accidentes") then "Plan Estándar"
      else if Contains(c, "vida_entera") then "Plan Premium"
      else
        var first := BeforeFirst(c, '.');
        if first != "" then first else "Seguro de Vida"
  }

  /** The plan codes are tried in order: "accidentes" only names the plan
      when "vida_temporal" is absent, "vida_entera" only when both are. */
  lemma NombrePlanPriority(c: string)
    requires c != ""
    ensures !Contains(c, "vida_temporal") && Contains(c, "accidentes") ==> NombrePlan(Some(c)) == "Plan Estándar"
    ensures !Contains(c, "vida_temporal") && !Contains(c, "accidentes") && Contains(c, "vida_entera") ==>
      NombrePlan(Some(c)) == "Plan Premium"
  {
  }

  /** A coverage text that starts with a full stop and names no plan code
      falls back to "Seguro de Vida". */
  lemma LeadingStopFallsBack(c: string)
    requires c != [] && c[0] == '.'
    requires !Contains(c, "vida_temporal") && !Contains(c, "accidentes") && !Contains(c, "vida_entera")
    ensures NombrePlan(Some(c)) == "Seguro de Vida"
  {
  }

  // ---------------------------------------------------------------------
  // Selection
  // ---------------------------------------------------------------------

  /** What the page reads of a policy in the list. */
  datatype PolizaItem = PolizaItem(id: nat, username: Option<string>, estado: string, cobertura: Option<string>)

  /** The `find` predicate: the client's username matches (two missing
      usernames match too, as `undefined === undefined`) and the policy is
      not cancelled. */
  predicate EsMiPoliza(p: PolizaItem, me: Option<string>)
    ensures EsMiPoliza(p, me) <==> p.username == me && Models.EstadoPoliza.Parse(p.estado) != Some(Models.EstadoPoliza.Cancelada)
  {
    p.username == me && p.estado != "cancelada"
  }

  /** `Array.prototype.find` from position `from` on: the index of the first
      matching policy. */
  function FindFrom(ps: seq<PolizaItem>, me: Option<string>, from: nat): (r: Option<nat>)
    requires from <= |ps|
    ensures r.Some? ==> from <= r.value < |ps| && EsMiPoliza(ps[r.value], me)
    ensures r.Some? ==> forall j :: from <= j < r.value ==> !EsMiPoliza(ps[j], me)
    ensures r.None? ==> forall j :: from <= j < |ps| ==> !EsMiPoliza(ps[j], me)
    decreases |ps| - from
  {
    if from == |ps| then None
    else if EsMiPoliza(ps[from], me) then Some(from)
    else FindFrom(ps, me, from + 1)
  }

  /** The client's policy: the first non-cancelled one of theirs in list
      order, or none. */
  function MiPoliza(ps: seq<PolizaItem>, me: Option<string>): (r: Option<PolizaItem>)
    ensures r.Some? ==> r.value in ps && EsMiPoliza(r.value, me)
    ensures r.None? ==> forall p :: p in ps ==> !EsMiPoliza(p, me)
    ensures r.Some? ==> exists i :: 0 <= i < |ps| && ps[i] == r.value && forall j :: 0 <= j < i ==> !EsMiPoliza(ps[j], me)
  {
    match FindFrom(ps, me, 0)
    case None => None
    case Some(i) => Some(ps[i])
  }

  /** A cancelled policy is never the client's policy. */
  lemma CancelledNeverChosen(ps: seq<PolizaItem>, me: Option<string>)
    requires MiPoliza(ps, me).Some?
    ensures MiPoliza(ps, me).value.estado != "cancelada"
  {
  }

  /** What the page reads of a claim. */
  datatype SiniestroItem = SiniestroItem(id: nat, username: Option<string>, estado: string)

  predicate EsMiSiniestro(s: SiniestroItem, me: Option<string>) {
    s.username == me
  }

  /** The test `misSiniestros` filters with. */
  function SiniestroDe(me: Option<string>): SiniestroItem -> bool {
    s => EsMiSiniestro(s, me)
  }

  /** `misSiniestros`: the client's claims, whatever their policy. */
  function MisSiniestros(ss: seq<SiniestroItem>, me: Option<string>): (r: seq<SiniestroItem>)
    ensures |r| <= |ss|
    ensures forall s :: s in r <==> s in ss && s.username == me
  {
    Filter(ss, SiniestroDe(me))
  }

  /** Each of the client's claims is listed as often as it occurs, and no
      other claim is. */
  lemma MisSiniestrosCounts(ss: seq<SiniestroItem>, me: Option<string>, s: SiniestroItem)
    ensures multiset(MisSiniestros(ss, me))[s] == if s.username == me then multiset(ss)[s] else 0
  {
    FilterCounts(ss, SiniestroDe(me), s);
  }

  /** The claims keep the order of the list: the list split in two gives the
      client's claims of the first part followed by those of the second. */
  lemma MisSiniestrosInOrder(a: seq<SiniestroItem>, b: seq<SiniestroItem>, me: Option<string>)
    ensures MisSiniestros(a + b, me) == MisSiniestros(a, me) + MisSiniestros(b, me)
  {
    FilterAppend(a, b, SiniestroDe(me));
  }

  /** What the page reads of a payment: the policy of its invoice. */
  datatype PagoItem = PagoItem(id: nat, polizaId: Option<nat>)

  /** The test `misPagos` filters with. */
  function PagoDe(poliza: PolizaItem): PagoItem -> bool {
    (p: PagoItem) => p.polizaId == Some(poliza.id)
  }

  /** `misPagos`: the payments whose invoice belongs to the chosen policy. */
  function MisPagos(pagos: seq<PagoItem>, poliza: PolizaItem): (r: seq<PagoItem>)
    ensures |r| <= |pagos|
    ensures forall p :: p in r <==> p in pagos && p.polizaId == Some(poliza.id)
  {
    Filter(pagos, PagoDe(poliza))
  }

  /** Each payment of the policy is listed as often as it occurs, and no
      other payment is. */
  lemma MisPagosCounts(pagos: seq<PagoItem>, poliza: PolizaItem, p: PagoItem)
    ensures multiset(MisPagos(pagos, poliza))[p] == if p.polizaId == Some(poliza.id) then multiset(pagos)[p] else 0
  {
    FilterCounts(pagos, PagoDe(poliza), p);
  }

  /** The payments keep the order of the list. */
  lemma MisPagosInOrder(a: seq<PagoItem>, b: seq<PagoItem>, poliza: PolizaItem)
    ensures MisPagos(a + b, poliza) == MisPagos(a, poliza) + MisPagos(b, poliza)
  {
    FilterAppend(a, b, PagoDe(poliza));
  }

  // ---------------------------------------------------------------------
  // Quick menu and claim summary
  // ---------------------------------------------------------------------

  predicate EsPendiente(estado: string) {
    estado == "pendiente"
  }

  datatype Counters = Counters(pagosPendientes: nat, siniestrosActivos: nat)

  /** `MenuRapido`: unpaid invoices and open claims. */
  function MenuRapido(facturas: seq<string>, siniestros: seq<SiniestroItem>): (c: Counters)
    ensures c.pagosPendientes <= |facturas| && c.siniestrosActivos <= |siniestros|
    ensures c.pagosPendientes == |Filter(facturas, EsPendiente)|
    ensures c.siniestrosActivos == |Filter(siniestros, (s: SiniestroItem) => AdminDashboard.EsPendiente(s.estado))|
  {
    Counters(|Filter(facturas, EsPendiente)|,
             |Filter(siniestros, (s: SiniestroItem) => AdminDashboard.EsPendiente(s.estado))|)
  }

  /** `siniestros.slice(0, 3)`: the first three claims, or all if fewer. */
  function Resumen(ss: seq<SiniestroItem>): (r: seq<SiniestroItem>)
    ensures |r| == if |ss| < 3 then |ss| else 3
    ensures r == ss[..|r|]
  {
    if |ss| <= 3 then ss else ss[..3]
  }

  /** The colour of a summary card's tag; unlike the detail page there is
      no red. */
  function ResumenTagColor(estado: string): (c: string)
    ensures c in {"gold", "green", "blue"}
    ensures c == ClienteDetalleSiniestro.ColorEstado(estado) || estado == "rechazado"
  {
    if estado == "pagado" then "gold" else if estado == "aprobado" then "green" else "blue"
  }

  /** A rejected claim shows blue on the home page but red on its detail
      page. */
  lemma RejectedColoursDisagree()
    ensures ResumenTagColor("rechazado") == "blue"
    ensures ClienteDetalleSiniestro.ColorEstado("rechazado") == "red"
  {
  }

  /** The cancel action is offered only for a policy still in quotation:
      the one stored state whose code is "cotizacion". */
  predicate PuedeCancelar(estado: string)
    ensures PuedeCancelar(estado) <==> Models.EstadoPoliza.Parse(estado) == Some(Models.Cotizacion)
  {
    estado == "cotizacion"
  }

  lemma PuedeCancelarOnlyQuotes(e: Models.EstadoPoliza)
    ensures PuedeCancelar(e.Code()) <==> e == Models.Cotizacion
  {
  }
}
