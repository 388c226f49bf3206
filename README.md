# Univida insurance portal — a verified model of its core

Univida is an insurance portal. Its Django back end stores clients, agents,
policies, invoices, payments, claims and policy notes. It also serves REST
views that look records up, create them and soft-delete them. Its React front
end keeps the session in the browser's `localStorage` and makes a few
decisions of its own on each page:
- where a role lands after login;
- which menu item is highlighted;
- the dashboard figures;
- which policy is the client's;
- how far a claim has progressed;
- how claim and policy numbers are generated and what is posted.

This project models those pieces in Dafny and proves what they promise.

- `common.dfy` (`Common`): shared helpers.
  - `Option`.
  - Truthiness of optional amounts, texts and ids, as both JavaScript and Python decimals read it.
  - Decimal digits, `toString` and `padStart`.
  - A `parseInt` that reads an optional sign and the leading digits.
  - Prefix and substring tests, `split('.')[0]`, `join` and `toUpperCase`.
  - `filter`.
- `models.py` → `models.dfy` (`Models`):
  - Every choice table, as a datatype with its stored code and a parser.
  - One record per table row, and the field defaults.
  - The class `Poliza`, whose `Save` fills in the monthly premium as `Poliza.save` does.
- `views.py` → `views.dfy` (`Views`): the ORM becomes a `Store` object.
  - The store holds one table per model: rows by id, and the auto-increment counter.
  - Each writing view is a `Store` method that makes the view's writes in order.
  - Each such method is proved equal to a pure function from the store before to the store after and the response. The properties are proved on that function.
  - Those properties: lookup-or-404, the role filter of the agent views, the soft deletes, the compensating delete in `crear_agente`, and the POST branches.
- `authService.ts` → `auth_service.dfy` (`AuthServiceModel`):
  - `localStorage` is an object holding a map.
  - `Date.now()` is a parameter.
  - `jwtDecode` is a partial function from a token to its claims.
- `LoginPage.tsx` → `login_page.dfy`: the role switch, and the `onFinish` handlers as a class.
- `AgenteLayout.tsx` → `agente_layout.dfy`: the path-to-menu-key choice and the header name.
- `AdminDashboardPage.tsx` → `admin_dashboard.dfy`:
  - The counters.
  - The per-state histogram loop, as a method with loop invariants.
  - The pie data.
- `ClienteDashboardPage.tsx` → `cliente_dashboard.dfy`: the plan name, the policy, claim and payment selection, the quick-menu counters, the claim summary and the cancel action.
- `ClienteDetalleSiniestroPage.tsx` → `cliente_detalle_siniestro.dfy`: the timeline step (a method over the page's successive `if`s), the colours and the resolution alert.
- `ReportarSiniestroPage.tsx` → `reportar_siniestro.dfy`:
  - The claim number.
  - The offered policies and the amount rule.
  - The submit gate and payload.
  - The wizard state as a class.
- `AdminCrearPolizaPage.tsx` → `admin_crear_poliza.dfy`:
  - The policy number.
  - The premium preview as a class.
  - The submitted payload.
- `dated_number.dfy` (`DatedNumber`): the number format both generators share, with its parser. The parser proves the format can be read back.

Amounts are exact `real`s. Clock readings, random draws, the stored token and
the HTTP outcome are parameters.

Some facts about the code are worth stating up front:
- **Policy states.** The policy choice table has exactly five states: cotizacion, activa, inactiva, vencida and cancelada. There is no "pending payment" state (`Models.PolicyStatesAreFive`).
- **Client deactivation.** `eliminar_cliente` only clears the user's active flag. It touches no policy (`Views.EliminarClienteSpec`).
- **Policy numbers.** The admin page generates `POL-ACC-`, then the year, the month and a three-digit random (`AdminCrearPoliza.NumeroPoliza`).
- **Policy creation.** `lista_polizas` saves through a serializer that accepts only the client, the sum insured, the annual premium and the two dates. Every policy it creates is therefore a quotation with an empty number, whatever the admin page posts, and once one such policy exists every further creation fails on the unique number (`Views.CrearPolizaSpec`, `Views.SecondPolicyFails`, `AdminCrearPoliza.PostedStateAndNumberDropped`).
- **Claim summary.** A comment at `ClienteDashboardPage.tsx:166` calls the summary "the 3 latest" claims. The code takes the first three in list order (`ClienteDashboard.Resumen`).

## Model

| member | source | states |
|---|---|---|
| Common.FilterCounts | frontend/src/pages/cliente/ClienteDashboardPage.tsx:69-71 | `filter` keeps each passing element as many times as it occurs and drops every other one |
| Common.FilterAppend | frontend/src/pages/cliente/ClienteDashboardPage.tsx:69-71 | `filter` of a concatenation is the concatenation of the filters, so list order is kept |
| Models.Rol.CodeRoundTrip | univida/seguros/models.py:10-15 | the stored code of a role parses back to it, so no two choices share a code |
| Models.EstadoPoliza.CodeRoundTrip | univida/seguros/models.py:41-47 | the stored code of a policy state parses back to it, so no two choices share a code |
| Models.EstadoFactura.CodeRoundTrip | univida/seguros/models.py:81-86 | the stored code of an invoice state parses back to it, so no two choices share a code |
| Models.EstadoPago.CodeRoundTrip | univida/seguros/models.py:105-110 | the stored code of a payment state parses back to it, so no two choices share a code |
| Models.MetodoPago.CodeRoundTrip | univida/seguros/models.py:112-117 | the stored code of a payment method parses back to it, so no two choices share a code |
| Models.EstadoAgente.CodeRoundTrip | univida/seguros/models.py:156-160 | the stored code of an agent state parses back to it, so no two choices share a code |
| Models.EstadoSiniestro.CodeRoundTrip | univida/seguros/models.py:175-181 | the stored code of a claim state parses back to it, so no two choices share a code |
| Models.TipoSiniestro.CodeRoundTrip | univida/seguros/models.py:183-191 | the stored code of a claim type parses back to it, so no two choices share a code |
| Models.TipoNota.CodeRoundTrip | univida/seguros/models.py:215-220 | the stored code of a note type parses back to it, so no two choices share a code |
| Models.PolicyStatesAreFive | univida/seguros/models.py:41-47 | a policy state code is valid iff it is one of cotizacion, activa, inactiva, vencida, cancelada; "pendiente_pago" is not one |
| Models.NewUsuario | univida/seguros/models.py:15-19 | a new user has role CLIENTE and is active |
| Models.NewCliente | univida/seguros/models.py:32 | a new client's health state is "Bueno" |
| Models.NewFactura | univida/seguros/models.py:93-94 | a new invoice is pendiente with concept "Prima anual de seguro" |
| Models.NewPago | univida/seguros/models.py:124 | a new payment is completado |
| Models.NewAgente | univida/seguros/models.py:152-161 | a new agent profile is activo, commission 10.0, speciality "Seguros de Vida" |
| Models.NewSiniestro | univida/seguros/models.py:199-201 | a new claim is reportado, and its approved amount, resolution and resolution date are absent |
| Models.NewNotaPoliza | univida/seguros/models.py:226 | a new note is of type general |
| Models.NewPoliza | univida/seguros/models.py:60-63 | a new policy is cotizacion with monthly premium 0.00 |
| Models.Poliza.constructor | univida/seguros/models.py:49-64 | the object built without the defaulted fields holds `NewPoliza`'s row |
| Models.DerivedPrimaMensual | univida/seguros/models.py:72-73 | the monthly premium is kept, or (annual set, monthly unset) it is the one whose twelvefold is the annual premium; a set annual premium always leaves a set monthly one |
| Models.SaveKeepsExplicitMonthly | univida/seguros/models.py:72 | a non-zero monthly premium is never overwritten |
| Models.SaveWithoutAnnual | univida/seguros/models.py:72 | with a zero or missing annual premium nothing changes |
| Models.SaveIdempotent | univida/seguros/models.py:70-74 | deriving twice gives what deriving once gives |
| Models.Poliza.Save | univida/seguros/models.py:70-74 | `save` sets the monthly premium to the derived one, changes no other field, and returns the row written |
| DatedNumber.Format | frontend/src/pages/siniestros/ReportarSiniestroPage.tsx:87-91 | a generated number starts with its prefix and is 5 characters plus the year longer than it |
| DatedNumber.ParseFormat | frontend/src/pages/siniestros/ReportarSiniestroPage.tsx:87-91 | year, month and random draw are read back from a generated number |
| DatedNumber.FormatInjective | frontend/src/pages/polizas/AdminCrearPolizaPage.tsx:101-105 | different stamps give different numbers |
| DatedNumber.FormatLength | frontend/src/pages/polizas/AdminCrearPolizaPage.tsx:101-105 | with a four-digit year the number is the prefix plus 9 characters |
| Views.LookupOr404 | univida/seguros/views.py:47-55 | 200 with the row iff the id exists, else 404 with the view's message |
| Views.Post | univida/seguros/views.py:30-35 | an invalid body gives 400 and stores nothing; a valid one is stored under a fresh id with 201, keeping every existing row |
| Views.PostThenLookup | univida/seguros/views.py:30-55 | the row a POST stored is what the detail view returns for its id |
| Views.DetallePoliza | univida/seguros/views.py:46-55 | the policy iff it exists, else 404 "Póliza no encontrada" |
| Views.DetalleSiniestro | univida/seguros/views.py:128-134 | the claim iff it exists, else 404 "Siniestro no encontrado" |
| Views.DetalleNotaPoliza | univida/seguros/views.py:137-143 | the note iff it exists, else 404 "Nota no encontrada" |
| Views.DetalleCliente | univida/seguros/views.py:289-301 | the client iff it exists, else 404 "Cliente no encontrado" |
| Views.IsAgenteUser | univida/seguros/views.py:148-157 | a user is an agent iff it exists and its stored role code is "AGENTE", whatever its active flag |
| Views.ListaAgentes | univida/seguros/views.py:148-157 | exactly the users whose role is AGENTE, unchanged |
| Views.DetalleAgente | univida/seguros/views.py:193-208 | 200 iff the user is listed by `lista_agentes`, else 404 "Agente no encontrado" |
| Views.ApplyUsuarioPatch | univida/seguros/views.py:221-223 | each of username, first and last name, email and phone takes the patch's value when given and keeps the old one otherwise; role, active flag and identification never change; the empty patch changes nothing |
| Views.ApplyClientePatch | univida/seguros/views.py:318-320 | each of birth date, address, identification and health state takes the patch's value when given and keeps the old one otherwise; the user link never changes; the empty patch changes nothing |
| Views.InactivateProfileOf | univida/seguros/views.py:255-260 | the agent profile of the user becomes inactivo, every other profile is unchanged |
| Views.EliminarAgenteSpec | univida/seguros/views.py:241-261 | not an agent: 404 and nothing changes; otherwise 204, the user inactive, its profile (if any) inactivo, no other table or row touched |
| Views.EliminarClienteSpec | univida/seguros/views.py:327-346 | unknown client: 404, nothing changes; otherwise 204 and only the client's user is deactivated, no policy touched |
| Views.EditarAgenteSpec | univida/seguros/views.py:212-237 | 404 for a non-agent, then 400 for an invalid body, else only that user is patched and stays an agent |
| Views.EditarClienteSpec | univida/seguros/views.py:306-322 | 404, then 400, else only that client row is patched |
| Views.CodigoAgente | univida/seguros/views.py:177 | the requested code, or "TEMP-" followed by the new user's id |
| Views.TempCodesDistinct | univida/seguros/views.py:177 | two users get different TEMP- codes |
| Views.ProfileFailureOf | univida/seguros/views.py:175-180 | the profile insert succeeds iff a hiring date is given and the code is unused |
| Views.CrearAgenteSpec | univida/seguros/views.py:161-189 | invalid body: 400, nothing stored; failed profile: the user is removed again and 400 "No se pudo crear el perfil Agente: …"; otherwise the AGENTE user and an active profile are added |
| Views.PerfilNoCreado | univida/seguros/views.py:184 | the 400 message starts with "No se pudo crear el perfil Agente: " |
| Views.CrearAgenteSpecFailure | univida/seguros/views.py:170-184 | when the profile fails, the outcome is the user saved and deleted again, with the 400 message |
| Views.CrearAgenteSpecSuccess | univida/seguros/views.py:170-189 | when the profile succeeds, the outcome is the AGENTE user and then its profile saved, with 201 |
| Views.PolizaRow | univida/seguros/serializers.py:33-35 | the stored row keeps the five accepted fields; its number is empty, its state cotizacion, agent and coverage absent, and the monthly premium a twelfth of a non-zero annual one |
| Views.CrearPolizaSpec | univida/seguros/views.py:30-35 | invalid body: 400, nothing stored; a stored policy with the empty number already: 500, nothing stored; otherwise `PolizaRow` stored under a fresh id with 201 |
| Views.CreatedPolicyIsBlankQuote | univida/seguros/serializers.py:33-35 | whatever is posted, a created policy is a quotation without number, agent or coverage |
| Views.SecondPolicyFails | univida/seguros/models.py:57 | after one policy is created through the view, every further valid body fails with 500 and changes nothing |
| Views.EliminarAgenteIdempotent | univida/seguros/views.py:250-261 | deactivating an agent twice leaves the store as once |
| Views.EliminarAgenteWithoutProfile | univida/seguros/views.py:255-261 | a missing profile is no error: 204 and the profiles untouched |
| Views.DeactivatedAgentStillFound | univida/seguros/views.py:246-253 | after the soft delete `detalle_agente` still finds the user, now inactive |
| Views.EliminarClienteIdempotent | univida/seguros/views.py:339-346 | deactivating a client twice leaves the store as once |
| Views.CrearAgenteRollback | univida/seguros/views.py:181-184 | after a failed profile every row is as before; only the user id sequence moved |
| Views.CrearAgenteListed | univida/seguros/views.py:170-180 | a created agent is listed by `lista_agentes` and has an active profile linked to it |
| Views.Store.constructor | univida/seguros/views.py:15-35 | an empty database whose tables start at id 1 |
| Views.Store.EliminarAgente | univida/seguros/views.py:241-261 | the step-by-step writes give `EliminarAgenteSpec`'s store and response, keeping the schema invariants |
| Views.Store.EliminarCliente | univida/seguros/views.py:327-346 | the writes give `EliminarClienteSpec`'s store and response |
| Views.Store.EditarAgente | univida/seguros/views.py:212-237 | the writes give `EditarAgenteSpec`'s store and response |
| Views.Store.EditarCliente | univida/seguros/views.py:306-322 | the writes give `EditarClienteSpec`'s store and response |
| Views.Store.CrearAgente | univida/seguros/views.py:161-189 | insert, then compensating delete or profile insert, give `CrearAgenteSpec`'s store and response |
| Views.Store.SaveUsuario | univida/seguros/views.py:170 | the user is stored under the next id, the sequence moves on, nothing else changes |
| Views.Store.DeleteUsuario | univida/seguros/views.py:183 | for a user no client or agent profile refers to (so no cascade applies), the user's row goes; the sequence and every other table stay |
| Views.Store.CreateAgente | univida/seguros/views.py:175-180 | the profile is stored under the next id; nothing else changes |
| Views.Store.CrearPoliza | univida/seguros/views.py:30-35 | the policy object built from the five fields, its `Save`, then the unique check and the insert give `CrearPolizaSpec`'s store and response |
| Views.Store.CrearFactura | univida/seguros/views.py:58-70 | the POST branch of invoices as `Post` on that table alone |
| Views.Store.CrearPago | univida/seguros/views.py:73-85 | the POST branch of payments as `Post` on that table alone |
| Views.Store.CrearSiniestro | univida/seguros/views.py:96-108 | the POST branch of claims as `Post` on that table alone |
| Views.Store.CrearNotaPoliza | univida/seguros/views.py:111-123 | the POST branch of notes as `Post` on that table alone |
| AuthServiceModel.GetItem | frontend/src/services/authService.ts:26-32 | `getToken`/`getRefreshToken`: the stored value iff the key is present, else null |
| AuthServiceModel.SessionExpired | frontend/src/services/authService.ts:38-44 | expired when no or an empty activity time is stored; with a stored time t, expired iff more than 30 minutes passed since t; a non-empty entry that does not parse as a number never expires |
| AuthServiceModel.Authenticated | frontend/src/services/authService.ts:52-55 | authenticated iff a non-empty access token is stored and the session is not expired |
| AuthServiceModel.ExpiryMonotone | frontend/src/services/authService.ts:38-44 | once expired, a later clock reading is expired too |
| AuthServiceModel.ExpiryBoundary | frontend/src/services/authService.ts:38-44 | exactly 30 minutes after the last activity the session is alive, one millisecond later it is expired |
| AuthServiceModel.RecordActivity | frontend/src/services/authService.ts:34-36 | the last-activity entry becomes the clock reading; nothing else changes |
| AuthServiceModel.StoreTokens | frontend/src/services/authService.ts:18-24 | the access token is stored; the refresh token only when given and non-empty, otherwise the old one stays; the activity time is the clock reading; no other key is added and the other keys keep their values |
| AuthServiceModel.ClearSession | frontend/src/services/authService.ts:46-50 | exactly the three session keys are removed |
| AuthServiceModel.ActivityNotExpired | frontend/src/services/authService.ts:34-44 | right after recording activity the session is not expired |
| AuthServiceModel.StoreTokensAuthenticates | frontend/src/services/authService.ts:52-55 | after storing a non-empty access token the user is authenticated at that clock reading |
| AuthServiceModel.ClearSessionLogsOut | frontend/src/services/authService.ts:46-55 | after logout no token is stored, the session is expired and nobody is authenticated |
| AuthServiceModel.Claim | frontend/src/services/authService.ts:65-69 | a missing claim reads as '' |
| AuthServiceModel.UserInfoOf | frontend/src/services/authService.ts:58-75 | user info exists iff a non-empty token is stored and decodes; its five fields are the claims |
| AuthServiceModel.FullName | frontend/src/services/authService.ts:78-89 | first name, a space and last name when both are set; the first name alone; otherwise the username; "Usuario" without user info |
| AuthServiceModel.Username | frontend/src/services/authService.ts:92-95 | the username, or "Usuario" when it is missing or empty; never empty |
| AuthServiceModel.UserRole | frontend/src/services/authService.ts:98-101 | the role claim, or '' without user info |
| AuthServiceModel.UndecodableTokenIsAnonymous | frontend/src/services/authService.ts:71-74 | a token that does not decode gives name "Usuario" and role '' |
| AuthServiceModel.AuthService.UpdateLastActivity | frontend/src/services/authService.ts:34-36 | the storage becomes `RecordActivity` of what it was |
| AuthServiceModel.AuthService.SetTokens | frontend/src/services/authService.ts:18-24 | the storage becomes `StoreTokens` of what it was |
| AuthServiceModel.AuthService.Logout | frontend/src/services/authService.ts:46-50 | the storage becomes `ClearSession` of what it was |
| LoginPage.RouteForRole | frontend/src/LoginPage.tsx:48-61 | ADMIN, AGENTE, CLIENTE land on their dashboards; any other or missing role on "/" |
| LoginPage.RolClaim | frontend/src/LoginPage.tsx:43-44 | the `rol` claim iff the token has one |
| LoginPage.RolesLandApart | frontend/src/LoginPage.tsx:48-57 | every stored role has its own landing page, none of them "/" |
| LoginPage.AfterDecodeFailure | frontend/src/LoginPage.tsx:62-66 | after a decode failure the access token is gone but the refresh token and activity time stay |
| LoginPage.DecodeFailureLogsOut | frontend/src/LoginPage.tsx:39-66 | after a decode failure the user is not authenticated although the session is not expired |
| LoginPage.LoginForm.constructor | frontend/src/LoginPage.tsx:23-24 | no error, not loading, not navigated |
| LoginPage.LoginForm.OnFinish | frontend/src/LoginPage.tsx:27-29 | the error is cleared and the form is loading |
| LoginPage.LoginForm.OnResponse | frontend/src/LoginPage.tsx:35-72 | loading ends; failure: storage untouched and "Usuario o contraseña incorrectos."; success: tokens stored and navigation to the role's route; decode failure: only the access token removed and the processing error shown |
| AgenteLayout.SelectedKey | frontend/src/layouts/AgenteLayout.tsx:103-111 | always one key of the menu; "1" when the path starts with none of the five section links |
| AgenteLayout.SectionPrefixesExclusive | frontend/src/layouts/AgenteLayout.tsx:105-109 | no path starts with two section links, so the order of the checks does not matter |
| AgenteLayout.SelectedKeyOfSection | frontend/src/layouts/AgenteLayout.tsx:103-111 | a path under a section link selects that section's key |
| AgenteLayout.EveryLinkSelectsItself | frontend/src/layouts/AgenteLayout.tsx:69-111 | following any menu link highlights that same item, the summary's link by the default |
| AgenteLayout.InitialUserName | frontend/src/layouts/AgenteLayout.tsx:32-43 | "Agente" without user info, else the full name |
| AgenteLayout.EmptyClaimsShowEmptyName | frontend/src/layouts/AgenteLayout.tsx:38-43 | the header is empty iff user info exists without a first name and without a username; so a token lacking those claims shows "", not "Agente" |
| AdminDashboard.EsActiva | frontend/src/pages/AdminDashboardPage.tsx:76 | a policy counts as active iff its stored state is Activa |
| AdminDashboard.EsPendiente | frontend/src/pages/AdminDashboardPage.tsx:77 | a claim counts as pending iff its stored state is Reportado or EnRevision |
| AdminDashboard.KpiStats | frontend/src/pages/AdminDashboardPage.tsx:76-78 | active policies, pending claims (each at most its list's length) and the agent count |
| AdminDashboard.PendientesAreOpenClaims | frontend/src/pages/AdminDashboardPage.tsx:77 | a claim is counted as pending iff it is reportado or en_revision |
| AdminDashboard.EstadoKey | frontend/src/pages/AdminDashboardPage.tsx:88 | an empty or missing state is counted under "Desconocido" |
| AdminDashboard.DistinctKeys | frontend/src/pages/AdminDashboardPage.tsx:86-96 | the histogram keys are distinct, and a key is present iff some policy falls under it |
| AdminDashboard.PolizasPorEstado | frontend/src/pages/AdminDashboardPage.tsx:86-94 | the loop's dictionary has a key iff some policy has that state, each count is that number and at least 1, keys in first-seen order |
| AdminDashboard.HistogramTotal | frontend/src/pages/AdminDashboardPage.tsx:86-94 | the histogram counts add up to the number of policies |
| AdminDashboard.ActivasMatchHistogram | frontend/src/pages/AdminDashboardPage.tsx:76-94 | the active count equals the histogram's count for "activa" (0 when absent) |
| AdminDashboard.PieData | frontend/src/pages/AdminDashboardPage.tsx:96-99 | one slice per key, labelled with the upper-cased state and valued with its count |
| AdminDashboard.PieMatchesHistogram | frontend/src/pages/AdminDashboardPage.tsx:96-99 | the pie slices of any keys add up to those keys' histogram counts |
| AdminDashboard.PieTotal | frontend/src/pages/AdminDashboardPage.tsx:86-99 | the pie's values add up to the number of policies |
| ClienteDashboard.NombrePlan | frontend/src/pages/cliente/ClienteDashboardPage.tsx:42-48 | never empty: a custom plan for empty coverage, "Plan Básico" for vida_temporal; with no plan code, the text before the first full stop, or "Seguro de Vida" when that is empty |
| ClienteDashboard.NombrePlanPriority | frontend/src/pages/cliente/ClienteDashboardPage.tsx:44-46 | the plan codes are tried in priority order |
| ClienteDashboard.LeadingStopFallsBack | frontend/src/pages/cliente/ClienteDashboardPage.tsx:47 | an empty first sentence gives "Seguro de Vida" |
| ClienteDashboard.EsMiPoliza | frontend/src/pages/cliente/ClienteDashboardPage.tsx:62-65 | a policy is the client's iff its username is the client's and its stored state is not Cancelada |
| ClienteDashboard.FindFrom | frontend/src/pages/cliente/ClienteDashboardPage.tsx:62-65 | the index of the first matching policy, or none when none matches |
| ClienteDashboard.MiPoliza | frontend/src/pages/cliente/ClienteDashboardPage.tsx:62-86 | the first of the client's non-cancelled policies in list order, or none if there is none |
| ClienteDashboard.CancelledNeverChosen | frontend/src/pages/cliente/ClienteDashboardPage.tsx:62-65 | the chosen policy is never cancelled |
| ClienteDashboard.MisSiniestros | frontend/src/pages/cliente/ClienteDashboardPage.tsx:69-71 | a claim is listed iff it is in the list and has the client's username |
| ClienteDashboard.MisSiniestrosCounts | frontend/src/pages/cliente/ClienteDashboardPage.tsx:69-71 | each of the client's claims is listed as often as it occurs, any other claim never |
| ClienteDashboard.MisSiniestrosInOrder | frontend/src/pages/cliente/ClienteDashboardPage.tsx:69-71 | the claims keep list order: a split list gives the first part's claims, then the second's |
| ClienteDashboard.MisPagos | frontend/src/pages/cliente/ClienteDashboardPage.tsx:79 | a payment is listed iff it is in the list and its invoice belongs to the chosen policy |
| ClienteDashboard.MisPagosCounts | frontend/src/pages/cliente/ClienteDashboardPage.tsx:79 | each payment of the policy is listed as often as it occurs, any other payment never |
| ClienteDashboard.MisPagosInOrder | frontend/src/pages/cliente/ClienteDashboardPage.tsx:79 | the payments keep list order |
| ClienteDashboard.MenuRapido | frontend/src/pages/cliente/ClienteDashboardPage.tsx:106-108 | pending invoices and open claims, each at most its list's length |
| ClienteDashboard.Resumen | frontend/src/pages/cliente/ClienteDashboardPage.tsx:166 | the first three claims, or all when fewer |
| ClienteDashboard.ResumenTagColor | frontend/src/pages/cliente/ClienteDashboardPage.tsx:168 | gold, green or blue, agreeing with the detail page except for rejected claims |
| ClienteDashboard.RejectedColoursDisagree | frontend/src/pages/cliente/ClienteDashboardPage.tsx:168 | a rejected claim is blue here and red on its detail page |
| ClienteDashboard.PuedeCancelar | frontend/src/pages/cliente/ClienteDashboardPage.tsx:209-211 | the cancel action is offered iff the state text is the stored code of Cotizacion |
| ClienteDashboard.PuedeCancelarOnlyQuotes | frontend/src/pages/cliente/ClienteDashboardPage.tsx:209-211 | the cancel action is offered iff the policy is in quotation |
| ClienteDetalleSiniestro.EstadoTimeline | frontend/src/pages/cliente/ClienteDetalleSiniestroPage.tsx:46-49 | step 2 for en_revision, 3 for aprobado or rechazado, 4 for pagado, 1 otherwise; always 1..4; the resolution is shown iff the step is at least 3 |
| ClienteDetalleSiniestro.ColorEstado | frontend/src/pages/cliente/ClienteDetalleSiniestroPage.tsx:51-56 | red iff rechazado, gold iff pagado, green iff aprobado, blue otherwise |
| ClienteDetalleSiniestro.TimelineColors | frontend/src/pages/cliente/ClienteDetalleSiniestroPage.tsx:82-91 | item k is not gray iff the step is at least k; the resolution item is red iff the claim is rejected |
| ClienteDetalleSiniestro.ShowResolution | frontend/src/pages/cliente/ClienteDetalleSiniestroPage.tsx:95 | the resolution is shown iff the state tag is not blue |
| ClienteDetalleSiniestro.AlertType | frontend/src/pages/cliente/ClienteDetalleSiniestroPage.tsx:99 | "error" iff rechazado, otherwise "success" |
| ClienteDetalleSiniestro.ResolutionText | frontend/src/pages/cliente/ClienteDetalleSiniestroPage.tsx:98 | the resolution, or "Sin comentarios adicionales." when it is empty or missing |
| ClienteDetalleSiniestro.CurrentItemMatchesTag | frontend/src/pages/cliente/ClienteDetalleSiniestroPage.tsx:76-91 | the item of a resolved claim's current stage has its tag's colour |
| ClienteDetalleSiniestro.StoredStatesOnTimeline | frontend/src/pages/cliente/ClienteDetalleSiniestroPage.tsx:51-95 | the resolution shows exactly for the three resolved states, blue exactly for the two open ones |
| ReportarSiniestro.NumeroSiniestro | frontend/src/pages/siniestros/ReportarSiniestroPage.tsx:87-91 | a claim number starts with "SIN-" and reads back to its year, month and draw |
| ReportarSiniestro.NumeroSiniestroLength | frontend/src/pages/siniestros/ReportarSiniestroPage.tsx:87-91 | 13 characters for a four-digit year |
| ReportarSiniestro.NumeroSiniestroInjective | frontend/src/pages/siniestros/ReportarSiniestroPage.tsx:87-91 | different stamps give different claim numbers |
| ReportarSiniestro.PolizasActivas | frontend/src/pages/siniestros/ReportarSiniestroPage.tsx:69-72 | a policy is offered iff it is listed and active |
| ReportarSiniestro.PolizasActivasCountsInOrder | frontend/src/pages/siniestros/ReportarSiniestroPage.tsx:69-72 | each active policy is offered as often as it is listed, in list order |
| ReportarSiniestro.SumaAsegurada | frontend/src/pages/siniestros/ReportarSiniestroPage.tsx:217-218 | the sum insured of the first policy whose id is the selected one; 0 with nothing selected or no such policy |
| ReportarSiniestro.MontoValido | frontend/src/pages/siniestros/ReportarSiniestroPage.tsx:368-373 | an amount passes iff it is missing, zero, or at most the sum insured |
| ReportarSiniestro.NoPolicyRefusesPositive | frontend/src/pages/siniestros/ReportarSiniestroPage.tsx:368-373 | with no policy selected every positive amount is refused |
| ReportarSiniestro.WithinSumAccepted | frontend/src/pages/siniestros/ReportarSiniestroPage.tsx:368-373 | an amount up to the sum insured, or none, is accepted |
| ReportarSiniestro.InitialFormData | frontend/src/pages/siniestros/ReportarSiniestroPage.tsx:45-53 | nothing chosen, no documents, an empty number |
| ReportarSiniestro.Submit | frontend/src/pages/siniestros/ReportarSiniestroPage.tsx:93-130 | nothing sent iff a required field is missing or falsy; then nothing without a token; else the payload with the form's values, state reportado, documents joined by ", " and the form's or a generated number |
| ReportarSiniestro.GeneratedNumberWhenEmpty | frontend/src/pages/siniestros/ReportarSiniestroPage.tsx:123 | an empty number is replaced by the generated one |
| ReportarSiniestro.AfterStep1 | frontend/src/pages/siniestros/ReportarSiniestroPage.tsx:176-181 | step 1 stores policy, type and date, nothing else |
| ReportarSiniestro.AfterStep2 | frontend/src/pages/siniestros/ReportarSiniestroPage.tsx:194-200 | step 2 stores description, amount, number and documents (missing documents as []), nothing else |
| ReportarSiniestro.StepsCompleteTheForm | frontend/src/pages/siniestros/ReportarSiniestroPage.tsx:172-207 | passing both steps with non-empty values makes the form pass the submit gate |
| ReportarSiniestro.ReporteForm.constructor | frontend/src/pages/siniestros/ReportarSiniestroPage.tsx:39-53 | step 0 and the initial form data |
| ReportarSiniestro.ReporteForm.NextStep | frontend/src/pages/siniestros/ReportarSiniestroPage.tsx:164-166 | the step goes up by one, data unchanged |
| ReportarSiniestro.ReporteForm.PrevStep | frontend/src/pages/siniestros/ReportarSiniestroPage.tsx:168-170 | the step goes down by one, data unchanged |
| ReportarSiniestro.ReporteForm.ValidateStep1 | frontend/src/pages/siniestros/ReportarSiniestroPage.tsx:172-188 | failed validation changes nothing; else `AfterStep1` and one step on |
| ReportarSiniestro.ReporteForm.ValidateStep2 | frontend/src/pages/siniestros/ReportarSiniestroPage.tsx:190-207 | failed validation changes nothing; else `AfterStep2` and one step on |
| ReportarSiniestro.ReporteForm.HandleFieldChange | frontend/src/pages/siniestros/ReportarSiniestroPage.tsx:210-215 | exactly the named field takes the new value |
| ReportarSiniestro.NextThenPrev | frontend/src/pages/siniestros/ReportarSiniestroPage.tsx:164-170 | next then previous returns to the same step with the same data |
| AdminCrearPoliza.NumeroPoliza | frontend/src/pages/polizas/AdminCrearPolizaPage.tsx:101-105 | a policy number starts with "POL-ACC-" and reads back to its year, month and draw |
| AdminCrearPoliza.NumeroPolizaLength | frontend/src/pages/polizas/AdminCrearPolizaPage.tsx:101-105 | 17 characters for a four-digit year |
| AdminCrearPoliza.NumeroPolizaInjective | frontend/src/pages/polizas/AdminCrearPolizaPage.tsx:101-105 | different stamps give different policy numbers |
| AdminCrearPoliza.ValorNumerico | frontend/src/pages/polizas/AdminCrearPolizaPage.tsx:84 | a missing or zero input reads as 0 |
| AdminCrearPoliza.FieldOf | frontend/src/pages/polizas/AdminCrearPolizaPage.tsx:96-97 | a premium field is filled iff the premium is strictly positive |
| AdminCrearPoliza.Primas | frontend/src/pages/polizas/AdminCrearPolizaPage.tsx:84-89 | annual is 2% of the sum, monthly a twelfth of it; each is positive iff the sum is |
| AdminCrearPoliza.FalsyInputClearsFields | frontend/src/pages/polizas/AdminCrearPolizaPage.tsx:84-97 | a missing or zero sum leaves both premium fields empty |
| AdminCrearPoliza.PreviewAgreesWithSave | frontend/src/pages/polizas/AdminCrearPolizaPage.tsx:88-89 | the previewed monthly premium is the one `Poliza.save` derives from the annual one |
| AdminCrearPoliza.PrimaPreview.constructor | frontend/src/pages/polizas/AdminCrearPolizaPage.tsx:48-50 | all amounts 0 and both fields empty |
| AdminCrearPoliza.PrimaPreview.CalcularPrimas | frontend/src/pages/polizas/AdminCrearPolizaPage.tsx:82-99 | the state becomes `Primas` of the input, the fields filled iff the sum insured is positive |
| Common.OrDefault | frontend/src/pages/polizas/AdminCrearPolizaPage.tsx:129-130 | `values.x \|\| fallback` for an optional text: the text when non-empty, else the fallback, never empty when the fallback is not |
| AdminCrearPoliza.Submit | frontend/src/pages/polizas/AdminCrearPolizaPage.tsx:107-132 | nothing without a token; else the form's values, the form's or a generated number, the default coverage and exclusion texts when empty, state activa |
| AdminCrearPoliza.PostedStateAndNumberDropped | frontend/src/pages/polizas/AdminCrearPolizaPage.tsx:107-132 | the page posts state activa and a non-empty number, but the policy stored from that body is a quotation with an empty number, no agent and no coverage |

## Left out

- Lifecycle endpoints are routed but not defined in `views.py`, so there is no code to model: `activar_poliza`, `cancelar_poliza`, `aprobar_siniestro`, `rechazar_siniestro`, `reactivar_cliente` and `reactivar_agente`. The same holds for payment reconciliation and a client-deactivation cascade.
- The GET list branches (`lista_clientes`, `lista_beneficiarios` and the GET halves of the list views) return every row. They are serializer output and are not modelled. Only `lista_agentes`' role filter is.
- `crear_cliente` depends on a serializer that is not part of this model.
- The back end is modelled as if `serializers.py` imported cleanly, and as written it does not:
  - `BeneficiarioSerializer` names `Beneficiarios123` (`serializers.py:18`), which is not defined.
  - `views.py:11-13` imports `FacturaSerializer`, `CrearFacturaSerializer`, `PagoSerializer`, `CrearPagoSerializer`, `UsuarioAgenteSerializer`, `SiniestroSerializer`, `CrearSiniestroSerializer`, `NotaPolizaSerializer` and `CrearNotaPolizaSerializer`. `views.py:271` imports `CrearClienteSerializer`. `serializers.py` defines none of them.
  - So importing the views fails, and every fact about the views here describes them as they would behave if those imports succeeded.
- What the serializers validate is not modelled. A request body arrives already validated or is rejected (`None`).
  - `UsuarioSerializer`, `ClienteSerializer`, `PolizaSerializer` and `CrearPolizaSerializer` exist (`serializers.py:4-35`).
  - `ClienteSerializer` validates the body of `editar_cliente`. Its four writable fields are exactly those of `Views.ClientePatch`.
  - `CrearPolizaSerializer` accepts five fields, which `Views.PolizaInput` holds.
  - The missing serializers' fields are taken from the models: the whole row for the POST branches, `Views.UsuarioPatch` for `editar_agente`.
- Other failures are not modelled: a unique-constraint violation other than the agent code and the policy number, or any other exception. Those surface as server errors.
- Views.CrearPolizaSpec: the 201 body is the stored row. `serializer.data` carries only the five accepted fields of that row.
- Permissions are not modelled. `@permission_classes([IsAdminUser])` guards the views at `views.py:147`, 160, 192, 211, 240, 275, 305 and 326. It answers 403 unless the user has `is_staff`, which is not the same as role ADMIN. The model takes every request as authorised.
- Views.CrearAgenteSpec:
  - The role of the created user is set to AGENTE, following the comment at `views.py:169`. The serializer that does it is not part of this model.
  - Only two profile failures are modelled: a missing hiring date and a duplicate code.
  - The exception text follows SQLite's wording.
  - Date-format errors and the code's 20-character limit are not modelled.
- The admin site, URL routing and the `createsu` command are left out. They are configuration.
- The `__str__` methods are left out. They depend on the framework's `get_full_name`.
- Decimal quantisation to two places is done by the database and is left out. Amounts are exact reals.
- The commented-out profile update in `editar_agente` is not code and is not modelled.
- AuthServiceModel.SessionExpired: `parseInt` is modelled as an optional sign and leading decimal digits. Leading whitespace, hexadecimal prefixes and values beyond double precision are not modelled.
- The axios token-refresh interceptor is left out: its point is concurrency. The session-timeout hook (DOM listeners and timers) and the route guard are left out too.
- AdminDashboard.KpiStats: `totalPagado` sums `parseFloat` amounts in floating point and is left out.
- AdminDashboard.PieData: `toUpperCase` is modelled for ASCII letters only. Key order follows insertion, which is `Object.keys` order for keys that do not look like array indices.
- AdminCrearPoliza.Primas: the premium arithmetic is exact. The page computes it in binary floating point, and `toFixed(2)` rounding is not modelled: a field holds the amount it renders.
- ReportarSiniestro.SumaAsegurada: the sum insured is taken as already read by `parseFloat`.
- ReportarSiniestro.Submit: the date is the text `format('YYYY-MM-DD')` produces. The form library's own rules (required fields, the 50-character minimum description) are treated as the validation outcome passed to `ValidateStep1`/`ValidateStep2`.
- The HTTP calls, messages, navigation timers and all rendering are left out.
- Pages other than those named above are left out. So are `App.tsx` and the static script.
