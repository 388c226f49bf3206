/** The REST views over the record store. The ORM is a set of in-memory tables
    from id to row, each with the auto-increment counter that hands out the
    next id. Every view that writes is specified by a function from the store
    before to the store after and the response; the `Store` class performs the
    same writes step by step, as the view's `save` and `delete` calls do.
    Serializer validation is not modelled: a request body arrives either
    rejected (`None`) or as the validated row (or partial update). */
module Views {
  import opened Common
  import opened Models

  // ---------------------------------------------------------------------
  // Responses
  // ---------------------------------------------------------------------

  const OK: nat := 200
  const CREATED: nat := 201
  const NO_CONTENT: nat := 204
  const BAD_REQUEST: nat := 400
  const NOT_FOUND: nat := 404
  const SERVER_ERROR: nat := 500

  /** The response body: one serialized row, a serialized listing, an
      `{'error': …}` or `{'mensaje': …}` object, the serializer's errors, or
      the page of an exception the view does not catch. */
  datatype Body<T> =
    | Data(value: T)
    | Listing(rows: map<nat, T>)
    | Error(text: string)
    | Mensaje(text: string)
    | ValidationErrors
    | ServerError

  datatype Response<T> = Response(status: nat, body: Body<T>)

  // ---------------------------------------------------------------------
  // Tables
  // ---------------------------------------------------------------------

  /** One database table: its rows by primary key and the next key the
      auto-increment sequence hands out (ids are never reused). */
  datatype Table<T> = Table(rows: map<nat, T>, nextId: nat) {
    predicate Valid() {
      forall id :: id in rows ==> id < nextId
    }
  }

  /** `Model.objects.get(id=…)` with `DoesNotExist` turned into a 404 carrying
      the view's message. */
  function LookupOr404<T>(rows: map<nat, T>, id: nat, notFound: string): (r: Response<T>)
    ensures r.status == OK <==> id in rows
    ensures id in rows ==> r.body == Data(rows[id])
    ensures id !in rows ==> r == Response(NOT_FOUND, Error(notFound))
  {
    if id in rows then Response(OK, Data(rows[id])) else Response(NOT_FOUND, Error(notFound))
  }

  /** The POST branch of a list view: a valid body is saved under a fresh id
      and echoed with 201; an invalid one gives 400 and stores nothing. */
  function Post<T>(t: Table<T>, data: Option<T>): (res: (Table<T>, Response<T>))
    requires t.Valid()
    ensures res.0.Valid()
    ensures data.None? ==> res.0 == t && res.1 == Response(BAD_REQUEST, ValidationErrors)
    ensures data.Some? ==> res.1 == Response(CREATED, Data(data.value))
    ensures data.Some? ==>
      t.nextId !in t.rows && res.0.nextId == t.nextId + 1 && res.0.rows == t.rows[t.nextId := data.value]
    ensures |res.0.rows| == |t.rows| + (if data.Some? then 1 else 0)
    ensures forall id :: id in t.rows ==> id in res.0.rows && res.0.rows[id] == t.rows[id]
  {
    match data
    case None => (t, Response(BAD_REQUEST, ValidationErrors))
    case Some(row) =>
      assert t.nextId !in t.rows;
      (Table(t.rows[t.nextId := row], t.nextId + 1), Response(CREATED, Data(row)))
  }

  /** What a POST stored is what the matching detail view then returns. */
  lemma PostThenLookup<T>(t: Table<T>, row: T, notFound: string)
    requires t.Valid()
    ensures LookupOr404(Post(t, Some(row)).0.rows, t.nextId, notFound) == Response(OK, Data(row))
  {
  }

  // ---------------------------------------------------------------------
  // The store
  // ---------------------------------------------------------------------

  datatype Db = Db(
    usuarios: Table<UsuarioRecord>,
    clientes: Table<ClienteRecord>,
    agentes: Table<AgenteRecord>,
    polizas: Table<PolizaRecord>,
    facturas: Table<FacturaRecord>,
    pagos: Table<PagoRecord>,
    siniestros: Table<SiniestroRecord>,
    notas: Table<NotaPolizaRecord>)
  {
    /** What the schema guarantees: ids come from the counters, a client or
        agent profile belongs to an existing user, a user has at most one
        agent profile, and agent codes are unique. */
    predicate Valid() {
      && usuarios.Valid() && clientes.Valid() && agentes.Valid() && polizas.Valid()
      && facturas.Valid() && pagos.Valid() && siniestros.Valid() && notas.Valid()
      && (forall c :: c in clientes.rows ==> clientes.rows[c].usuario in usuarios.rows)
      && (forall a :: a in agentes.rows ==> agentes.rows[a].usuario in usuarios.rows)
      && UniqueProfiles(agentes.rows)
    }
  }

  predicate UniqueProfiles(agentes: map<nat, AgenteRecord>) {
    forall a, b :: a in agentes && b in agentes && a != b ==>
      agentes[a].usuario != agentes[b].usuario && agentes[a].codigoAgente != agentes[b].codigoAgente
  }

  // ---------------------------------------------------------------------
  // Read-only views
  // ---------------------------------------------------------------------

  function DetallePoliza(db: Db, id: nat): (r: Response<PolizaRecord>)
    ensures r.status == OK <==> id in db.polizas.rows
    ensures r.status == OK ==> r.body == Data(db.polizas.rows[id])
    ensures r.status != OK ==> r == Response(NOT_FOUND, Error("Póliza no encontrada"))
  {
    LookupOr404(db.polizas.rows, id, "Póliza no encontrada")
  }

  function DetalleSiniestro(db: Db, id: nat): (r: Response<SiniestroRecord>)
    ensures r.status == OK <==> id in db.siniestros.rows
    ensures r.status == OK ==> r.body == Data(db.siniestros.rows[id])
    ensures r.status != OK ==> r == Response(NOT_FOUND, Error("Siniestro no encontrado"))
  {
    LookupOr404(db.siniestros.rows, id, "Siniestro no encontrado")
  }

  function DetalleNotaPoliza(db: Db, id: nat): (r: Response<NotaPolizaRecord>)
    ensures r.status == OK <==> id in db.notas.rows
    ensures r.status == OK ==> r.body == Data(db.notas.rows[id])
    ensures r.status != OK ==> r == Response(NOT_FOUND, Error("Nota no encontrada"))
  {
    LookupOr404(db.notas.rows, id, "Nota no encontrada")
  }

  function DetalleCliente(db: Db, id: nat): (r: Response<ClienteRecord>)
    ensures r.status == OK <==> id in db.clientes.rows
    ensures r.status == OK ==> r.body == Data(db.clientes.rows[id])
    ensures r.status != OK ==> r == Response(NOT_FOUND, Error("Cliente no encontrado"))
  {
    LookupOr404(db.clientes.rows, id, "Cliente no encontrado")
  }

  /** `Usuario.objects.get(pk=id, rol='AGENTE')` succeeds; the active flag is
      not part of the filter. */
  predicate IsAgenteUser(db: Db, id: nat)
    ensures IsAgenteUser(db, id) <==> id in db.usuarios.rows && db.usuarios.rows[id].rol.Code() == "AGENTE"
  {
    id in db.usuarios.rows && db.usuarios.rows[id].rol == Agente
  }

  /** `lista_agentes`: exactly the users whose role is AGENTE. */
  function ListaAgentes(db: Db): (r: map<nat, UsuarioRecord>)
    ensures forall id :: id in r <==> IsAgenteUser(db, id)
    ensures forall id :: id in r ==> id in db.usuarios.rows && r[id] == db.usuarios.rows[id] && r[id].rol == Agente
  {
    map id | id in db.usuarios.rows && db.usuarios.rows[id].rol == Agente :: db.usuarios.rows[id]
  }

  /** `detalle_agente`: found exactly when listed by `lista_agentes`. */
  function DetalleAgente(db: Db, id: nat): (r: Response<UsuarioRecord>)
    ensures r.status == OK <==> id in ListaAgentes(db)
    ensures r.status == OK ==> r.body == Data(ListaAgentes(db)[id])
    ensures r.status != OK ==> r == Response(NOT_FOUND, Error("Agente no encontrado"))
  {
    if IsAgenteUser(db, id) then Response(OK, Data(db.usuarios.rows[id]))
    else Response(NOT_FOUND, Error("Agente no encontrado"))
  }

  // ---------------------------------------------------------------------
  // Writes, as functions of the store
  // ---------------------------------------------------------------------

  /** The fields a partial update of a user may carry (absent = untouched). */
  datatype UsuarioPatch = UsuarioPatch(
    username: Option<string>, firstName: Option<string>, lastName: Option<string>,
    email: Option<string>, telefono: Option<string>)

  /** The fields a partial update of a client may carry. */
  datatype ClientePatch = ClientePatch(
    fechaNacimiento: Option<string>, direccion: Option<string>,
    identificacion: Option<string>, estadoSalud: Option<string>)

  function ApplyUsuarioPatch(u: UsuarioRecord, p: UsuarioPatch): (r: UsuarioRecord)
    ensures r.rol == u.rol && r.isActive == u.isActive && r.identificacion == u.identificacion
    ensures p.username.Some? ==> r.username == p.username.value
    ensures p.username.None? ==> r.username == u.username
    ensures p.firstName.Some? ==> r.firstName == p.firstName.value
    ensures p.firstName.None? ==> r.firstName == u.firstName
    ensures p.lastName.Some? ==> r.lastName == p.lastName.value
    ensures p.lastName.None? ==> r.lastName == u.lastName
    ensures p.email.Some? ==> r.email == p.email.value
    ensures p.email.None? ==> r.email == u.email
    ensures p.telefono.Some? ==> r.telefono == p.telefono
    ensures p.telefono.None? ==> r.telefono == u.telefono
    ensures p == UsuarioPatch(None, None, None, None, None) ==> r == u
  {
    u.(username := p.username.GetOr(u.username),
       firstName := p.firstName.GetOr(u.firstName),
       lastName := p.lastName.GetOr(u.lastName),
       email := p.email.GetOr(u.email),
       telefono := if p.telefono.Some? then p.telefono else u.telefono)
  }

  function ApplyClientePatch(c: ClienteRecord, p: ClientePatch): (r: ClienteRecord)
    ensures r.usuario == c.usuario
    ensures p.fechaNacimiento.Some? ==> r.fechaNacimiento == p.fechaNacimiento.value
    ensures p.fechaNacimiento.None? ==> r.fechaNacimiento == c.fechaNacimiento
    ensures p.direccion.Some? ==> r.direccion == p.direccion.value
    ensures p.direccion.None? ==> r.direccion == c.direccion
    ensures p.identificacion.Some? ==> r.identificacion == p.identificacion.value
    ensures p.identificacion.None? ==> r.identificacion == c.identificacion
    ensures p.estadoSalud.Some? ==> r.estadoSalud == p.estadoSalud.value
    ensures p.estadoSalud.None? ==> r.estadoSalud == c.estadoSalud
    ensures p == ClientePatch(None, None, None, None) ==> r == c
  {
    c.(fechaNacimiento := p.fechaNacimiento.GetOr(c.fechaNacimiento),
       direccion := p.direccion.GetOr(c.direccion),
       identificacion := p.identificacion.GetOr(c.identificacion),
       estadoSalud := p.estadoSalud.GetOr(c.estadoSalud))
  }

  /** Sets `estado = 'inactivo'` on the agent profile of user `uid`, if any. */
  function InactivateProfileOf(agentes: map<nat, AgenteRecord>, uid: nat): (r: map<nat, AgenteRecord>)
    ensures r.Keys == agentes.Keys
    ensures forall a :: a in agentes && agentes[a].usuario == uid ==> r[a] == agentes[a].(estado := Inactivo)
    ensures forall a :: a in agentes && agentes[a].usuario != uid ==> r[a] == agentes[a]
  {
    map a | a in agentes :: if agentes[a].usuario == uid then agentes[a].(estado := Inactivo) else agentes[a]
  }

  /** `eliminar_agente`: a soft delete. The user is deactivated and its agent
      profile, when there is one, set to "inactivo"; nothing else changes. */
  function EliminarAgenteSpec(db: Db, id: nat): (res: (Db, Response<UsuarioRecord>))
    requires db.Valid()
    ensures res.0.Valid()
    ensures !IsAgenteUser(db, id) ==> res == (db, Response(NOT_FOUND, Error("Agente no encontrado")))
    ensures IsAgenteUser(db, id) ==>
      && res.1 == Response(NO_CONTENT, Mensaje("Agente desactivado correctamente"))
      && res.0 == db.(usuarios := res.0.usuarios, agentes := res.0.agentes)
      && res.0.usuarios.nextId == db.usuarios.nextId && res.0.agentes.nextId == db.agentes.nextId
      && res.0.usuarios.rows == db.usuarios.rows[id := db.usuarios.rows[id].(isActive := false)]
      && res.0.agentes.rows == InactivateProfileOf(db.agentes.rows, id)
  {
    if !IsAgenteUser(db, id) then (db, Response(NOT_FOUND, Error("Agente no encontrado")))
    else
      var u := db.usuarios.rows[id].(isActive := false);
      var db' := db.(usuarios := db.usuarios.(rows := db.usuarios.rows[id := u]),
                     agentes := db.agentes.(rows := InactivateProfileOf(db.agentes.rows, id)));
      assert db'.Valid() by {
        assert forall a :: a in db'.agentes.rows ==> db'.agentes.rows[a].usuario == db.agentes.rows[a].usuario;
        assert forall a :: a in db'.agentes.rows ==> db'.agentes.rows[a].codigoAgente == db.agentes.rows[a].codigoAgente;
      }
      (db', Response(NO_CONTENT, Mensaje("Agente desactivado correctamente")))
  }

  /** `eliminar_cliente`: only the client's user is deactivated; the client
      row, its policies and every other table stay as they were. */
  function EliminarClienteSpec(db: Db, id: nat): (res: (Db, Response<ClienteRecord>))
    requires db.Valid()
    ensures res.0.Valid()
    ensures id !in db.clientes.rows ==> res == (db, Response(NOT_FOUND, Error("Cliente no encontrado")))
    ensures id in db.clientes.rows ==>
      && res.1 == Response(NO_CONTENT, Mensaje("Cliente desactivado correctamente"))
      && res.0 == db.(usuarios := res.0.usuarios)
      && res.0.usuarios.nextId == db.usuarios.nextId
      && res.0.usuarios.rows.Keys == db.usuarios.rows.Keys
      && (forall u :: u in db.usuarios.rows ==>
            res.0.usuarios.rows[u] ==
              if u == db.clientes.rows[id].usuario then db.usuarios.rows[u].(isActive := false)
              else db.usuarios.rows[u])
  {
    if id !in db.clientes.rows then (db, Response(NOT_FOUND, Error("Cliente no encontrado")))
    else
      var uid := db.clientes.rows[id].usuario;
      var u := db.usuarios.rows[uid].(isActive := false);
      (db.(usuarios := db.usuarios.(rows := db.usuarios.rows[uid := u])),
       Response(NO_CONTENT, Mensaje("Cliente desactivado correctamente")))
  }

  /** `editar_agente`: a 404 for anything but an agent, then a 400 for an
      invalid body; otherwise the partial update of that one user. */
  function EditarAgenteSpec(db: Db, id: nat, patch: Option<UsuarioPatch>): (res: (Db, Response<UsuarioRecord>))
    requires db.Valid()
    ensures res.0.Valid()
    ensures !IsAgenteUser(db, id) ==> res == (db, Response(NOT_FOUND, Error("Agente no encontrado")))
    ensures IsAgenteUser(db, id) && patch.None? ==> res == (db, Response(BAD_REQUEST, ValidationErrors))
    ensures IsAgenteUser(db, id) && patch.Some? ==>
      && res.0 == db.(usuarios := res.0.usuarios)
      && res.0.usuarios.rows == db.usuarios.rows[id := ApplyUsuarioPatch(db.usuarios.rows[id], patch.value)]
      && res.1 == Response(OK, Data(res.0.usuarios.rows[id]))
      && res.0.usuarios.nextId == db.usuarios.nextId
      && IsAgenteUser(res.0, id)
  {
    if !IsAgenteUser(db, id) then (db, Response(NOT_FOUND, Error("Agente no encontrado")))
    else if patch.None? then (db, Response(BAD_REQUEST, ValidationErrors))
    else
      var u := ApplyUsuarioPatch(db.usuarios.rows[id], patch.value);
      (db.(usuarios := db.usuarios.(rows := db.usuarios.rows[id := u])), Response(OK, Data(u)))
  }

  /** `editar_cliente`: a 404 for an unknown id, a 400 for an invalid body,
      otherwise the partial update of that one client row. */
  function EditarClienteSpec(db: Db, id: nat, patch: Option<ClientePatch>): (res: (Db, Response<ClienteRecord>))
    requires db.Valid()
    ensures res.0.Valid()
    ensures id !in db.clientes.rows ==> res == (db, Response(NOT_FOUND, Error("Cliente no encontrado")))
    ensures id in db.clientes.rows && patch.None? ==> res == (db, Response(BAD_REQUEST, ValidationErrors))
    ensures id in db.clientes.rows && patch.Some? ==>
      && res.0 == db.(clientes := res.0.clientes)
      && res.0.clientes.rows == db.clientes.rows[id := ApplyClientePatch(db.clientes.rows[id], patch.value)]
      && res.1 == Response(OK, Data(res.0.clientes.rows[id]))
      && res.0.clientes.nextId == db.clientes.nextId
  {
    if id !in db.clientes.rows then (db, Response(NOT_FOUND, Error("Cliente no encontrado")))
    else if patch.None? then (db, Response(BAD_REQUEST, ValidationErrors))
    else
      var c := ApplyClientePatch(db.clientes.rows[id], patch.value);
      (db.(clientes := db.clientes.(rows := db.clientes.rows[id := c])), Response(OK, Data(c)))
  }

  /** The agent code `crear_agente` asks for: the one in the request, or
      "TEMP-" followed by the new user's id. */
  function CodigoAgente(requested: Option<string>, uid: nat): (c: string)
    ensures requested.Some? ==> c == requested.value
    ensures requested.None? ==> StartsWith(c, "TEMP-") && ParseInt(c[5..]) == Some(uid as int)
  {
    match requested
    case Some(c) => c
    case None =>
      var c := "TEMP-" + NatToString(uid);
      assert c[5..] == IntToString(uid);
      ParseIntOfIntToString(uid);
      c
  }

  /** Two users created without a requested code get different codes. */
  lemma TempCodesDistinct(u1: nat, u2: nat)
    requires u1 != u2
    ensures CodigoAgente(None, u1) != CodigoAgente(None, u2)
  {
  }

  /** Why `Agente.objects.create` raises: a missing hiring date violates the
      NOT NULL column, an agent code in use violates the unique one. */
  datatype ProfileFailure = MissingFecha | DuplicateCodigo {
    function Text(): string {
      match this
      case MissingFecha => "NOT NULL constraint failed: univida_agente.fecha_contratacion"
      case DuplicateCodigo => "UNIQUE constraint failed: univida_agente.codigo_agente"
    }
  }

  function ProfileFailureOf(agentes: map<nat, AgenteRecord>, codigo: string, fecha: Option<string>): (f: Option<ProfileFailure>)
    ensures f.None? <==> fecha.Some? && forall a :: a in agentes ==> agentes[a].codigoAgente != codigo
  {
    if fecha.None? then Some(MissingFecha)
    else if exists a :: a in agentes && agentes[a].codigoAgente == codigo then Some(DuplicateCodigo)
    else None
  }

  const PERFIL_NO_CREADO := "No se pudo crear el perfil Agente: "

  /** The 400 message: the fixed prefix and the database's exception text. */
  function PerfilNoCreado(e: ProfileFailure): (t: string)
    ensures StartsWith(t, PERFIL_NO_CREADO)
  {
    PERFIL_NO_CREADO + e.Text()
  }

  /** `crear_agente`. A valid body creates the user with role AGENTE and then
      its agent profile; when creating the profile fails the user is deleted
      again, which leaves every row as it was (only the id sequence has moved
      on), and the answer is 400. */
  function CrearAgenteSpec(db: Db, data: Option<UsuarioRecord>, codigo: Option<string>, fecha: Option<string>)
    : (res: (Db, Response<UsuarioRecord>))
    requires db.Valid()
    ensures res.0.Valid()
    ensures data.None? ==> res == (db, Response(BAD_REQUEST, ValidationErrors))
    ensures data.Some? ==> res.0.usuarios.nextId == db.usuarios.nextId + 1
    ensures data.Some? && ProfileFailureOf(db.agentes.rows, CodigoAgente(codigo, db.usuarios.nextId), fecha).Some? ==>
      && res.0 == db.(usuarios := db.usuarios.(nextId := db.usuarios.nextId + 1))
      && res.1.status == BAD_REQUEST && res.1.body.Error? && StartsWith(res.1.body.text, PERFIL_NO_CREADO)
    ensures data.Some? && ProfileFailureOf(db.agentes.rows, CodigoAgente(codigo, db.usuarios.nextId), fecha).None? ==>
      var uid := db.usuarios.nextId;
      && res.1 == Response(CREATED, Data(data.value.(rol := Agente)))
      && res.0 == db.(usuarios := res.0.usuarios, agentes := res.0.agentes)
      && res.0.usuarios.rows == db.usuarios.rows[uid := data.value.(rol := Agente)]
      && res.0.agentes.nextId == db.agentes.nextId + 1
      && res.0.agentes.rows == db.agentes.rows[db.agentes.nextId := NewAgente(uid, CodigoAgente(codigo, uid), fecha.value)]
      && IsAgenteUser(res.0, uid)
  {
    if data.None? then (db, Response(BAD_REQUEST, ValidationErrors))
    else
      var uid := db.usuarios.nextId;
      var user := data.value.(rol := Agente);
      var code := CodigoAgente(codigo, uid);
      match ProfileFailureOf(db.agentes.rows, code, fecha)
      case Some(e) =>
        (db.(usuarios := db.usuarios.(nextId := uid + 1)),
         Response(BAD_REQUEST, Error(PerfilNoCreado(e))))
      case None =>
        assert uid !in db.usuarios.rows;
        var aid := db.agentes.nextId;
        assert aid !in db.agentes.rows;
        var profile := NewAgente(uid, code, fecha.value);
        var db' := db.(usuarios := Table(db.usuarios.rows[uid := user], uid + 1),
                       agentes := Table(db.agentes.rows[aid := profile], aid + 1));
        assert UniqueProfiles(db'.agentes.rows);
        (db', Response(CREATED, Data(user)))
  }

  /** What `CrearPolizaSerializer` accepts: its five fields and no others. */
  datatype PolizaInput = PolizaInput(
    cliente: nat, sumaAsegurada: real, primaAnual: real,
    fechaInicio: string, fechaVencimiento: string)

  /** The row `serializer.save()` writes: every field outside the five takes
      its column default (an empty number, state "cotizacion", no agent, no
      coverage), and `Poliza.save` derives the monthly premium. */
  function PolizaRow(i: PolizaInput): (p: PolizaRecord)
    ensures p.numeroPoliza == "" && p.estado == Cotizacion && p.agente.None? && p.cobertura.None?
    ensures p.cliente == i.cliente && p.sumaAsegurada == i.sumaAsegurada && p.primaAnual == Some(i.primaAnual)
    ensures p.fechaInicio == i.fechaInicio && p.fechaVencimiento == i.fechaVencimiento
    ensures i.primaAnual != 0.0 ==> p.primaMensual == Some(i.primaAnual / 12.0)
    ensures i.primaAnual == 0.0 ==> p.primaMensual == Some(0.0)
  {
    var p := NewPoliza(i.cliente, None, "", i.sumaAsegurada, Some(i.primaAnual),
                       i.fechaInicio, i.fechaVencimiento, None);
    p.(primaMensual := DerivedPrimaMensual(p.primaAnual, p.primaMensual))
  }

  /** Some stored policy already has number `numero`; `numero_poliza` is
      unique, so inserting another row with it fails. */
  predicate NumeroTaken(db: Db, numero: string) {
    exists id | id in db.polizas.rows :: db.polizas.rows[id].numeroPoliza == numero
  }

  /** The POST branch of `lista_polizas`: a valid body is stored as
      `PolizaRow`; when a stored policy already has the empty number the
      insert violates the unique constraint, which the view does not catch. */
  function CrearPolizaSpec(db: Db, data: Option<PolizaInput>): (res: (Db, Response<PolizaRecord>))
    requires db.Valid()
    ensures res.0.Valid()
    ensures data.None? ==> res == (db, Response(BAD_REQUEST, ValidationErrors))
    ensures data.Some? && NumeroTaken(db, "") ==> res == (db, Response(SERVER_ERROR, ServerError))
    ensures data.Some? && !NumeroTaken(db, "") ==>
      && res.1 == Response(CREATED, Data(PolizaRow(data.value)))
      && res.0 == db.(polizas := Table(db.polizas.rows[db.polizas.nextId := PolizaRow(data.value)], db.polizas.nextId + 1))
  {
    match data
    case None => (db, Response(BAD_REQUEST, ValidationErrors))
    case Some(i) =>
      var row := PolizaRow(i);
      if NumeroTaken(db, row.numeroPoliza) then (db, Response(SERVER_ERROR, ServerError))
      else
        var (t, r) := Post(db.polizas, Some(row));
        (db.(polizas := t), r)
  }

  // ---------------------------------------------------------------------
  // Properties of the writes
  // ---------------------------------------------------------------------

  /** Whatever body is posted, a created policy is a quotation without a
      number, an agent or a coverage text. */
  lemma CreatedPolicyIsBlankQuote(db: Db, i: PolizaInput)
    requires db.Valid()
    ensures var res := CrearPolizaSpec(db, Some(i));
      res.1.status == CREATED ==>
        var stored := res.0.polizas.rows[db.polizas.nextId];
        stored.estado == Cotizacion && stored.numeroPoliza == "" && stored.agente.None? && stored.cobertura.None?
  {
  }

  /** Once one policy has been created through the endpoint, every further
      valid body fails with a server error and changes nothing. */
  lemma SecondPolicyFails(db: Db, i1: PolizaInput, i2: PolizaInput)
    requires db.Valid()
    ensures var first := CrearPolizaSpec(db, Some(i1));
      first.1.status == CREATED ==>
        CrearPolizaSpec(first.0, Some(i2)) == (first.0, Response(SERVER_ERROR, ServerError))
  {
    var first := CrearPolizaSpec(db, Some(i1));
    if first.1.status == CREATED {
      var id := db.polizas.nextId;
      assert id in first.0.polizas.rows && first.0.polizas.rows[id].numeroPoliza == "";
    }
  }

  /** Deactivating an agent twice leaves the store as deactivating it once. */
  lemma EliminarAgenteIdempotent(db: Db, id: nat)
    requires db.Valid()
    ensures var once := EliminarAgenteSpec(db, id).0;
      EliminarAgenteSpec(once, id).0 == once
  {
    var once := EliminarAgenteSpec(db, id).0;
    if IsAgenteUser(db, id) {
      assert IsAgenteUser(once, id);
      var twice := EliminarAgenteSpec(once, id).0;
      assert twice.usuarios.rows == once.usuarios.rows;
      assert twice.agentes.rows == once.agentes.rows;
    }
  }

  /** An agent without a profile is still deactivated with 204, and the
      profiles table is left alone. */
  lemma EliminarAgenteWithoutProfile(db: Db, id: nat)
    requires db.Valid() && IsAgenteUser(db, id)
    requires forall a :: a in db.agentes.rows ==> db.agentes.rows[a].usuario != id
    ensures EliminarAgenteSpec(db, id).1.status == NO_CONTENT
    ensures EliminarAgenteSpec(db, id).0.agentes == db.agentes
  {
    var after := EliminarAgenteSpec(db, id).0;
    assert after.agentes.rows == db.agentes.rows;
  }

  /** The soft delete does not hide the agent: `detalle_agente` still finds
      the user, now inactive. */
  lemma DeactivatedAgentStillFound(db: Db, id: nat)
    requires db.Valid() && IsAgenteUser(db, id)
    ensures var after := EliminarAgenteSpec(db, id).0;
      && DetalleAgente(after, id).status == OK
      && !DetalleAgente(after, id).body.value.isActive
  {
    var after := EliminarAgenteSpec(db, id).0;
    assert IsAgenteUser(after, id);
  }

  /** Deactivating a client twice leaves the store as deactivating it once. */
  lemma EliminarClienteIdempotent(db: Db, id: nat)
    requires db.Valid()
    ensures var once := EliminarClienteSpec(db, id).0;
      EliminarClienteSpec(once, id).0 == once
  {
    var once := EliminarClienteSpec(db, id).0;
    if id in db.clientes.rows {
      var twice := EliminarClienteSpec(once, id).0;
      assert twice.usuarios.rows == once.usuarios.rows;
    }
  }

  /** A failed profile creation is undone: apart from the user id sequence,
      the store is the one before the request. */
  lemma CrearAgenteRollback(db: Db, data: UsuarioRecord, codigo: Option<string>)
    requires db.Valid()
    ensures var after := CrearAgenteSpec(db, Some(data), codigo, None).0;
      && after.usuarios.rows == db.usuarios.rows
      && after.agentes == db.agentes
      && after.(usuarios := db.usuarios) == db
  {
  }

  /** A created agent is listed by `lista_agentes` and its profile code is
      the requested one or the TEMP- code of its user id. */
  lemma CrearAgenteListed(db: Db, data: UsuarioRecord, codigo: Option<string>, fecha: string)
    requires db.Valid()
    requires ProfileFailureOf(db.agentes.rows, CodigoAgente(codigo, db.usuarios.nextId), Some(fecha)).None?
    ensures var after := CrearAgenteSpec(db, Some(data), codigo, Some(fecha)).0;
      && db.usuarios.nextId in ListaAgentes(after)
      && db.usuarios.nextId !in ListaAgentes(db)
      && after.agentes.rows[db.agentes.nextId].usuario == db.usuarios.nextId
      && after.agentes.rows[db.agentes.nextId].estado == Activo
  {
    assert db.usuarios.nextId !in db.usuarios.rows;
  }

  /** The single-row writes `crear_agente` is made of. */
  function WithUsuario(db: Db, user: UsuarioRecord): Db {
    db.(usuarios := Table(db.usuarios.rows[db.usuarios.nextId := user], db.usuarios.nextId + 1))
  }

  function WithoutUsuario(db: Db, uid: nat): Db {
    db.(usuarios := db.usuarios.(rows := db.usuarios.rows - {uid}))
  }

  function WithAgente(db: Db, a: AgenteRecord): Db {
    db.(agentes := Table(db.agentes.rows[db.agentes.nextId := a], db.agentes.nextId + 1))
  }

  /** `CrearAgenteSpec` when the profile cannot be created: the user is
      saved and deleted again. */
  lemma CrearAgenteSpecFailure(db: Db, data: Option<UsuarioRecord>, codigo: Option<string>, fecha: Option<string>,
                               e: ProfileFailure)
    requires db.Valid() && data.Some?
    requires ProfileFailureOf(db.agentes.rows, CodigoAgente(codigo, db.usuarios.nextId), fecha) == Some(e)
    ensures CrearAgenteSpec(db, data, codigo, fecha) ==
      (WithoutUsuario(WithUsuario(db, data.value.(rol := Agente)), db.usuarios.nextId),
       Response(BAD_REQUEST, Error(PerfilNoCreado(e))))
  {
    var m := db.usuarios.rows;
    assert db.usuarios.nextId !in m;
    assert m[db.usuarios.nextId := data.value.(rol := Agente)] - {db.usuarios.nextId} == m;
  }

  /** `CrearAgenteSpec` when the profile is created: the user and then its
      profile are saved. */
  lemma CrearAgenteSpecSuccess(db: Db, data: Option<UsuarioRecord>, codigo: Option<string>, fecha: Option<string>)
    requires db.Valid() && data.Some?
    requires ProfileFailureOf(db.agentes.rows, CodigoAgente(codigo, db.usuarios.nextId), fecha).None?
    ensures fecha.Some?
    ensures var uid := db.usuarios.nextId;
      CrearAgenteSpec(db, data, codigo, fecha) ==
      (WithAgente(WithUsuario(db, data.value.(rol := Agente)), NewAgente(uid, CodigoAgente(codigo, uid), fecha.value)),
       Response(CREATED, Data(data.value.(rol := Agente))))
  {
  }

  // ---------------------------------------------------------------------
  // The store as the views mutate it
  // ---------------------------------------------------------------------

  /** The database the views share; each method performs its view's
      `save`/`delete` calls in order. */
  class Store {
    var usuarios: Table<UsuarioRecord>
    var clientes: Table<ClienteRecord>
    var agentes: Table<AgenteRecord>
    var polizas: Table<PolizaRecord>
    var facturas: Table<FacturaRecord>
    var pagos: Table<PagoRecord>
    var siniestros: Table<SiniestroRecord>
    var notas: Table<NotaPolizaRecord>

    function Snapshot(): Db
      reads this
    {
      Db(usuarios, clientes, agentes, polizas, facturas, pagos, siniestros, notas)
    }

    predicate Valid()
      reads this
    {
      Snapshot().Valid()
    }

    /** An empty database; the first id of every table is 1. */
    constructor ()
      ensures Valid()
      ensures Snapshot() == Db(Table(map[], 1), Table(map[], 1), Table(map[], 1), Table(map[], 1),
                               Table(map[], 1), Table(map[], 1), Table(map[], 1), Table(map[], 1))
    {
      usuarios := Table(map[], 1);
      clientes := Table(map[], 1);
      agentes := Table(map[], 1);
      polizas := Table(map[], 1);
      facturas := Table(map[], 1);
      pagos := Table(map[], 1);
      siniestros := Table(map[], 1);
      notas := Table(map[], 1);
    }

    /** `eliminar_agente`: look the agent up, deactivate and save the user,
        then set the profile (if any) to "inactivo" and save it. */
    method EliminarAgente(id: nat) returns (r: Response<UsuarioRecord>)
      requires Valid()
      modifies this
      ensures (Snapshot(), r) == EliminarAgenteSpec(old(Snapshot()), id)
      ensures Valid()
    {
      if !(id in usuarios.rows && usuarios.rows[id].rol == Agente) {
        return Response(NOT_FOUND, Error("Agente no encontrado"));
      }
      var u := usuarios.rows[id].(isActive := false);
      usuarios := usuarios.(rows := usuarios.rows[id := u]);
      agentes := agentes.(rows := InactivateProfileOf(agentes.rows, id));
      r := Response(NO_CONTENT, Mensaje("Agente desactivado correctamente"));
    }

    /** `eliminar_cliente`: look the client up, deactivate and save its user. */
    method EliminarCliente(id: nat) returns (r: Response<ClienteRecord>)
      requires Valid()
      modifies this
      ensures (Snapshot(), r) == EliminarClienteSpec(old(Snapshot()), id)
      ensures Valid()
    {
      if id !in clientes.rows {
        return Response(NOT_FOUND, Error("Cliente no encontrado"));
      }
      var uid := clientes.rows[id].usuario;
      var u := usuarios.rows[uid].(isActive := false);
      usuarios := usuarios.(rows := usuarios.rows[uid := u]);
      r := Response(NO_CONTENT, Mensaje("Cliente desactivado correctamente"));
    }

    /** `editar_agente`. */
    method EditarAgente(id: nat, patch: Option<UsuarioPatch>) returns (r: Response<UsuarioRecord>)
      requires Valid()
      modifies this
      ensures (Snapshot(), r) == EditarAgenteSpec(old(Snapshot()), id, patch)
      ensures Valid()
    {
      if !(id in usuarios.rows && usuarios.rows[id].rol == Agente) {
        return Response(NOT_FOUND, Error("Agente no encontrado"));
      }
      if patch.None? {
        return Response(BAD_REQUEST, ValidationErrors);
      }
      var u := ApplyUsuarioPatch(usuarios.rows[id], patch.value);
      usuarios := usuarios.(rows := usuarios.rows[id := u]);
      r := Response(OK, Data(u));
    }

    /** `editar_cliente`. */
    method EditarCliente(id: nat, patch: Option<ClientePatch>) returns (r: Response<ClienteRecord>)
      requires Valid()
      modifies this
      ensures (Snapshot(), r) == EditarClienteSpec(old(Snapshot()), id, patch)
      ensures Valid()
    {
      if id !in clientes.rows {
        return Response(NOT_FOUND, Error("Cliente no encontrado"));
      }
      if patch.None? {
        return Response(BAD_REQUEST, ValidationErrors);
      }
      var c := ApplyClientePatch(clientes.rows[id], patch.value);
      clientes := clientes.(rows := clientes.rows[id := c]);
      r := Response(OK, Data(c));
    }

    /** `crear_agente`: save the user, try to create its profile, and delete
        the user again when that fails. */
    method CrearAgente(data: Option<UsuarioRecord>, codigo: Option<string>, fecha: Option<string>)
      returns (r: Response<UsuarioRecord>)
      requires Valid()
      modifies this
      ensures (Snapshot(), r) == CrearAgenteSpec(old(Snapshot()), data, codigo, fecha)
      ensures Valid()
    {
      if data.None? {
        return Response(BAD_REQUEST, ValidationErrors);
      }
      ghost var db := Snapshot();
      var user := data.value.(rol := Agente);
      var uid := SaveUsuario(user);
      var code := CodigoAgente(codigo, uid);
      var failure := ProfileFailureOf(agentes.rows, code, fecha);
      if failure.Some? {
        DeleteUsuario(uid);
        r := Response(BAD_REQUEST, Error(PerfilNoCreado(failure.value)));
        CrearAgenteSpecFailure(db, data, codigo, fecha, failure.value);
        return;
      }
      CreateAgente(NewAgente(uid, code, fecha.value));
      r := Response(CREATED, Data(user));
      CrearAgenteSpecSuccess(db, data, codigo, fecha);
    }

    /** `serializer.save()` for a new user: stored under the next id. */
    method SaveUsuario(user: UsuarioRecord) returns (uid: nat)
      modifies this
      ensures uid == old(usuarios.nextId)
      ensures Snapshot() == WithUsuario(old(Snapshot()), user)
    {
      uid := usuarios.nextId;
      usuarios := Table(usuarios.rows[uid := user], uid + 1);
    }

    /** `user.delete()`: the row goes, the id sequence stays where it is.
        Django would cascade the delete to the user's profiles; this step is
        only taken for a user no profile refers to. */
    method DeleteUsuario(uid: nat)
      requires forall c :: c in clientes.rows ==> clientes.rows[c].usuario != uid
      requires forall a :: a in agentes.rows ==> agentes.rows[a].usuario != uid
      modifies this
      ensures Snapshot() == WithoutUsuario(old(Snapshot()), uid)
    {
      usuarios := usuarios.(rows := usuarios.rows - {uid});
    }

    /** `Agente.objects.create(...)` when no constraint fails. */
    method CreateAgente(a: AgenteRecord)
      modifies this
      ensures Snapshot() == WithAgente(old(Snapshot()), a)
    {
      agentes := Table(agentes.rows[agentes.nextId := a], agentes.nextId + 1);
    }

    /** The POST branch of `lista_polizas`: build the policy object from the
        five accepted fields, let its `save` complete the monthly premium,
        and insert the row unless its number is taken. */
    method CrearPoliza(data: Option<PolizaInput>) returns (r: Response<PolizaRecord>)
      requires Valid()
      modifies this
      ensures (Snapshot(), r) == CrearPolizaSpec(old(Snapshot()), data)
      ensures Valid()
    {
      if data.None? {
        return Response(BAD_REQUEST, ValidationErrors);
      }
      var i := data.value;
      var p := new Poliza(i.cliente, None, "", i.sumaAsegurada, Some(i.primaAnual),
                          i.fechaInicio, i.fechaVencimiento, None);
      var row := p.Save();
      if exists id | id in polizas.rows :: polizas.rows[id].numeroPoliza == row.numeroPoliza {
        return Response(SERVER_ERROR, ServerError);
      }
      var res := Post(polizas, Some(row));
      polizas, r := res.0, res.1;
    }

    /** The POST branch of `lista_facturas`. */
    method CrearFactura(data: Option<FacturaRecord>) returns (r: Response<FacturaRecord>)
      requires Valid()
      modifies this
      ensures (Snapshot(), r) == (old(Snapshot()).(facturas := Post(old(facturas), data).0), Post(old(facturas), data).1)
      ensures Valid()
    {
      var res := Post(facturas, data);
      facturas, r := res.0, res.1;
    }

    /** The POST branch of `lista_pagos`. */
    method CrearPago(data: Option<PagoRecord>) returns (r: Response<PagoRecord>)
      requires Valid()
      modifies this
      ensures (Snapshot(), r) == (old(Snapshot()).(pagos := Post(old(pagos), data).0), Post(old(pagos), data).1)
      ensures Valid()
    {
      var res := Post(pagos, data);
      pagos, r := res.0, res.1;
    }

    /** The POST branch of `lista_siniestros`. */
    method CrearSiniestro(data: Option<SiniestroRecord>) returns (r: Response<SiniestroRecord>)
      requires Valid()
      modifies this
      ensures (Snapshot(), r) == (old(Snapshot()).(siniestros := Post(old(siniestros), data).0), Post(old(siniestros), data).1)
      ensures Valid()
    {
      var res := Post(siniestros, data);
      siniestros, r := res.0, res.1;
    }

    /** The POST branch of `lista_notas_poliza`. */
    method CrearNotaPoliza(data: Option<NotaPolizaRecord>) returns (r: Response<NotaPolizaRecord>)
      requires Valid()
      modifies this
      ensures (Snapshot(), r) == (old(Snapshot()).(notas := Post(old(notas), data).0), Post(old(notas), data).1)
      ensures Valid()
    {
      var res := Post(notas, data);
      notas, r := res.0, res.1;
    }
  }
}
