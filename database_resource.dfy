/**
 * The sevalla_database resource (internal/provider/database_resource.go): the create and
 * update requests built from the plan, and the response written back into the resource data.
 * Create and Read write back the same attributes; Update only four of them.
 */
module DatabaseResource {
  import opened Wrappers
  import opened Models
  import opened Transport

  /** DatabaseResourceModel: the resource's plan and state. */
  datatype DatabaseResourceModel = DatabaseResourceModel(
    id: TfString,
    name: TfString,
    displayName: TfString,
    companyId: TfString,
    location: TfString,
    resourceType: TfString,
    dbType: TfString,
    version: TfString,
    dbName: TfString,
    dbPassword: TfString,
    dbUser: TfString,
    status: TfString,
    internalHostname: TfString,
    internalPort: TfString,
    externalHostname: TfString,
    externalPort: TfString)

  // ---------------------------------------------------------------- requests

  /**
   * The create request a plan produces: eight attributes verbatim and db_user, which is sent
   * only when the plan holds a non-empty user (`omitempty` drops the empty string).
   */
  function CreateRequestFor(plan: DatabaseResourceModel): (r: CreateDatabaseRequest)
    ensures r.companyId == ValueString(plan.companyId) && r.location == ValueString(plan.location)
    ensures r.resourceType == ValueString(plan.resourceType) && r.displayName == ValueString(plan.displayName)
    ensures r.dbName == ValueString(plan.dbName) && r.dbPassword == ValueString(plan.dbPassword)
    ensures r.dbType == ValueString(plan.dbType) && r.version == ValueString(plan.version)
    ensures plan.dbUser.IsNull() ==> r.dbUser == ""
    ensures !plan.dbUser.IsNull() ==> r.dbUser == ValueString(plan.dbUser)
    ensures "db_user" in CreateDatabaseKeys(r) <==> plan.dbUser.Known? && plan.dbUser.value != ""
    ensures CreateDatabaseKeys(r) - {"db_user"}
            == {"company_id", "location", "resource_type", "display_name", "db_name", "db_password", "type", "version"}
  {
    CreateDatabaseRequest(
      ValueString(plan.companyId), ValueString(plan.location), ValueString(plan.resourceType),
      ValueString(plan.displayName), ValueString(plan.dbName), ValueString(plan.dbPassword),
      if plan.dbUser.IsNull() then "" else ValueString(plan.dbUser),
      ValueString(plan.dbType), ValueString(plan.version))
  }

  /**
   * The update request a plan produces: display_name always (even an empty one),
   * resource_type exactly when the plan's is not null.
   */
  function UpdateRequestFor(plan: DatabaseResourceModel): (r: UpdateDatabaseRequest)
    ensures r.displayName == Some(ValueString(plan.displayName))
    ensures r.resourceType.Some? <==> !plan.resourceType.IsNull()
    ensures r.resourceType.Some? ==> r.resourceType.value == ValueString(plan.resourceType)
    ensures UpdateDatabaseKeys(r) == {"display_name"} + (if plan.resourceType.IsNull() then {} else {"resource_type"})
  {
    UpdateDatabaseRequest(
      Some(ValueString(plan.displayName)),
      if plan.resourceType.IsNull() then None else Some(ValueString(plan.resourceType)))
  }

  /**
   * The null guard on db_user changes nothing about the request: ValueString of a null is the
   * empty string the request starts with.
   */
  lemma DbUserGuardIsRedundant(plan: DatabaseResourceModel)
    ensures CreateRequestFor(plan).dbUser == ValueString(plan.dbUser)
  {
  }

  /** Create's request: the eight attributes, then db_user when the plan's is not null. */
  method BuildCreateRequest(plan: DatabaseResourceModel) returns (req: CreateDatabaseRequest)
    ensures req == CreateRequestFor(plan)
  {
    req := CreateDatabaseRequest(
      ValueString(plan.companyId), ValueString(plan.location), ValueString(plan.resourceType),
      ValueString(plan.displayName), ValueString(plan.dbName), ValueString(plan.dbPassword),
      "", ValueString(plan.dbType), ValueString(plan.version));
    if !plan.dbUser.IsNull() {
      req := req.(dbUser := ValueString(plan.dbUser));
    }
  }

  /** Update's request: display_name, then resource_type when the plan's is not null. */
  method BuildUpdateRequest(plan: DatabaseResourceModel) returns (req: UpdateDatabaseRequest)
    ensures req == UpdateRequestFor(plan)
  {
    req := UpdateDatabaseRequest(Some(ValueString(plan.displayName)), None);
    if !plan.resourceType.IsNull() {
      req := req.(resourceType := Some(ValueString(plan.resourceType)));
    }
  }

  // ---------------------------------------------------------------- responses

  /** The attributes Create and Read take from the response. */
  predicate ShowsDatabase(data: DatabaseResourceModel, db: DatabaseDetails) {
    && data.id == Known(db.id)
    && data.name == Known(db.name)
    && data.displayName == Known(db.displayName)
    && data.status == Known(db.status)
    && data.dbType == Known(db.dbType)
    && data.version == Known(db.version)
    && data.internalHostname == NullableString(db.internalHostname)
    && data.internalPort == NullableString(db.internalPort)
    && data.externalHostname == NullableString(db.externalHostname)
    && data.externalPort == NullableString(db.externalPort)
  }

  /** The attributes only the plan sets: no response writes them. */
  predicate SameUnmanaged(a: DatabaseResourceModel, b: DatabaseResourceModel) {
    && a.companyId == b.companyId && a.location == b.location && a.resourceType == b.resourceType
    && a.dbName == b.dbName && a.dbPassword == b.dbPassword && a.dbUser == b.dbUser
  }

  /**
   * The data after Create or Read: the response shown, each connection attribute null exactly
   * when the response carries none, and the plan-only attributes as they were.
   */
  function Refreshed(data: DatabaseResourceModel, db: DatabaseDetails): (r: DatabaseResourceModel)
    ensures ShowsDatabase(r, db)
    ensures SameUnmanaged(r, data)
    ensures r.internalHostname.IsNull() <==> db.internalHostname.None?
    ensures r.internalPort.IsNull() <==> db.internalPort.None?
    ensures r.externalHostname.IsNull() <==> db.externalHostname.None?
    ensures r.externalPort.IsNull() <==> db.externalPort.None?
  {
    data.(
      id := Known(db.id), name := Known(db.name), displayName := Known(db.displayName),
      status := Known(db.status), dbType := Known(db.dbType), version := Known(db.version),
      internalHostname := NullableString(db.internalHostname), internalPort := NullableString(db.internalPort),
      externalHostname := NullableString(db.externalHostname), externalPort := NullableString(db.externalPort))
  }

  /** The data after Update: id, name, display_name and status; every other attribute as planned. */
  function Repopulated(data: DatabaseResourceModel, db: DatabaseDetails): (r: DatabaseResourceModel)
    ensures r.id == Known(db.id) && r.name == Known(db.name)
    ensures r.displayName == Known(db.displayName) && r.status == Known(db.status)
    ensures r.dbType == data.dbType && r.version == data.version
    ensures r.internalHostname == data.internalHostname && r.internalPort == data.internalPort
    ensures r.externalHostname == data.externalHostname && r.externalPort == data.externalPort
    ensures SameUnmanaged(r, data)
  {
    data.(id := Known(db.id), name := Known(db.name), displayName := Known(db.displayName), status := Known(db.status))
  }

  /** The state after Create or Read is the plan-only attributes plus the response: nothing else survives. */
  lemma RefreshDependsOnlyOnUnmanaged(a: DatabaseResourceModel, b: DatabaseResourceModel, db: DatabaseDetails)
    requires SameUnmanaged(a, b)
    ensures Refreshed(a, db) == Refreshed(b, db)
  {
  }

  /** Reading the same record again changes nothing. */
  lemma RefreshIsIdempotent(data: DatabaseResourceModel, db: DatabaseDetails)
    ensures Refreshed(Refreshed(data, db), db) == Refreshed(data, db)
  {
  }

  /** A Read after an Update, given the same record, ends where a Read alone would. */
  lemma ReadAfterUpdate(data: DatabaseResourceModel, db: DatabaseDetails)
    ensures Refreshed(Repopulated(data, db), db) == Refreshed(data, db)
  {
  }

  /** The assignments Create and Read make after a successful call. */
  method ApplyDatabase(data: DatabaseResourceModel, db: DatabaseDetails) returns (r: DatabaseResourceModel)
    ensures r == Refreshed(data, db)
  {
    r := data;
    r := r.(id := Known(db.id));
    r := r.(name := Known(db.name));
    r := r.(displayName := Known(db.displayName));
    r := r.(status := Known(db.status));
    r := r.(dbType := Known(db.dbType));
    r := r.(version := Known(db.version));
    if db.internalHostname.Some? {
      r := r.(internalHostname := Known(db.internalHostname.value));
    } else {
      r := r.(internalHostname := Null);
    }
    if db.internalPort.Some? {
      r := r.(internalPort := Known(db.internalPort.value));
    } else {
      r := r.(internalPort := Null);
    }
    if db.externalHostname.Some? {
      r := r.(externalHostname := Known(db.externalHostname.value));
    } else {
      r := r.(externalHostname := Null);
    }
    if db.externalPort.Some? {
      r := r.(externalPort := Known(db.externalPort.value));
    } else {
      r := r.(externalPort := Null);
    }
  }

  /** The assignments Update makes after a successful call. */
  method ApplyUpdated(data: DatabaseResourceModel, db: DatabaseDetails) returns (r: DatabaseResourceModel)
    ensures r == Repopulated(data, db)
  {
    r := data;
    r := r.(id := Known(db.id));
    r := r.(name := Known(db.name));
    r := r.(displayName := Known(db.displayName));
    r := r.(status := Known(db.status));
  }

  // ---------------------------------------------------------------- CRUD

  /** Create: the request sent, then the created record written back or the client error. */
  method Create(plan: DatabaseResourceModel, created: Result<Database, ApiError>)
    returns (req: CreateDatabaseRequest, outcome: Outcome<DatabaseResourceModel>)
    ensures req == CreateRequestFor(plan)
    ensures created.Failure? ==> outcome == Failed(ClientError("create", "database", created.error.text))
    ensures created.Success? ==> outcome == Saved(Refreshed(plan, created.value.database))
  {
    req := BuildCreateRequest(plan);
    if created.Failure? {
      return req, Failed(ClientError("create", "database", created.error.text));
    }
    var data := ApplyDatabase(plan, created.value.database);
    outcome := Saved(data);
  }

  /** Read: fetches the state's id, then writes the record back or reports the client error. */
  method Read(state: DatabaseResourceModel, fetched: Result<Database, ApiError>)
    returns (id: string, outcome: Outcome<DatabaseResourceModel>)
    ensures id == ValueString(state.id)
    ensures fetched.Failure? ==> outcome == Failed(ClientError("read", "database", fetched.error.text))
    ensures fetched.Success? ==> outcome == Saved(Refreshed(state, fetched.value.database))
  {
    id := ValueString(state.id);
    if fetched.Failure? {
      return id, Failed(ClientError("read", "database", fetched.error.text));
    }
    var data := ApplyDatabase(state, fetched.value.database);
    outcome := Saved(data);
  }

  /** Update: the request for the plan's id, then four attributes written back or the client error. */
  method Update(plan: DatabaseResourceModel, updated: Result<Database, ApiError>)
    returns (id: string, req: UpdateDatabaseRequest, outcome: Outcome<DatabaseResourceModel>)
    ensures id == ValueString(plan.id) && req == UpdateRequestFor(plan)
    ensures updated.Failure? ==> outcome == Failed(ClientError("update", "database", updated.error.text))
    ensures updated.Success? ==> outcome == Saved(Repopulated(plan, updated.value.database))
  {
    req := BuildUpdateRequest(plan);
    id := ValueString(plan.id);
    if updated.Failure? {
      return id, req, Failed(ClientError("update", "database", updated.error.text));
    }
    var data := ApplyUpdated(plan, updated.value.database);
    outcome := Saved(data);
  }

  /** Delete: the id deleted and, when the call failed, the client error. */
  method Delete(state: DatabaseResourceModel, err: Option<ApiError>) returns (id: string, diagnostics: seq<Diagnostic>)
    ensures id == ValueString(state.id)
    ensures err.None? <==> diagnostics == []
    ensures err.Some? ==> diagnostics == [ClientError("delete", "database", err.value.text)]
  {
    id := ValueString(state.id);
    diagnostics := [];
    if err.Some? {
      diagnostics := [ClientError("delete", "database", err.value.text)];
    }
  }
}
