/**
 * The records the Sevalla API exchanges (internal/sevallaapi/models.go), reduced to the
 * fields the modelled code reads or writes, and the Terraform framework's plan/state values.
 */
module Models {
  import opened Wrappers

  /**
   * A framework value (types.String, types.Bool, types.Int64): null, unknown (not yet
   * computed) or known.
   */
  datatype Tf<T> = Null | Unknown | Known(value: T) {
    predicate IsNull() {
      Null?
    }

    /** ValueString() / ValueBool() / ValueInt64(): the known value, else the zero value. */
    function ValueOr(zero: T): T {
      if Known? then value else zero
    }
  }

  type TfString = Tf<string>
  type TfBool = Tf<bool>
  type TfInt = Tf<int>

  /** ValueString() of a string value. */
  function ValueString(v: TfString): string {
    v.ValueOr("")
  }

  /** ValueBool() of a bool value. */
  function ValueBool(v: TfBool): bool {
    v.ValueOr(false)
  }

  /** types.StringValue(*p) when the pointer p is set, types.StringNull() when it is nil. */
  function NullableString(p: Option<string>): (v: TfString)
    ensures v.IsNull() <==> p.None?
    ensures p.Some? ==> v == Known(p.value)
  {
    match p
    case Some(s) => Known(s)
    case None => Null
  }

  /** A diagnostic added to a framework response: its summary and detail. */
  datatype Diagnostic = Diagnostic(summary: string, detail: string)

  /** The diagnostic every adapter adds when a service call fails: "Unable to <verb> <what>, got error: <err>". */
  function ClientError(verb: string, what: string, err: string): (d: Diagnostic)
    ensures d.summary == "Client Error"
    ensures d.detail == "Unable to " + verb + " " + what + ", got error: " + err
  {
    Diagnostic("Client Error", "Unable to " + verb + " " + what + ", got error: " + err)
  }

  /**
   * The service's error text is the tail of the detail, after a prefix fixed by the verb and
   * the entity: two failures that report the same diagnostic had the same error.
   */
  lemma ClientErrorCarriesError(verb: string, what: string, e1: string, e2: string)
    ensures var d := ClientError(verb, what, e1).detail; |e1| <= |d| && d[|d| - |e1|..] == e1
    ensures ClientError(verb, what, e1) == ClientError(verb, what, e2) ==> e1 == e2
  {
    var p := "Unable to " + verb + " " + what + ", got error: ";
    assert ClientError(verb, what, e1).detail == p + e1;
    assert ClientError(verb, what, e2).detail == p + e2;
    assert (p + e1)[|p|..] == e1;
    assert (p + e2)[|p|..] == e2;
  }

  /** What an adapter's Create, Read or Update leaves in the response: a new state, or an error. */
  datatype Outcome<M> = Saved(state: M) | Failed(diagnostic: Diagnostic)

  // ---------------------------------------------------------------- responses

  /** DatabaseDetails: the fields the database adapter maps. */
  datatype DatabaseDetails = DatabaseDetails(
    id: string,
    name: string,
    displayName: string,
    status: string,
    dbType: string,
    version: string,
    internalHostname: Option<string>,
    internalPort: Option<string>,
    externalHostname: Option<string>,
    externalPort: Option<string>)

  /** Database: the `{"database": …}` envelope. */
  datatype Database = Database(database: DatabaseDetails)

  datatype DatabaseListItem = DatabaseListItem(id: string, name: string, displayName: string, status: string)

  /** DatabaseListResponse: `{"company": {"databases": {"items": […]}}}`. */
  datatype DatabaseListResponse = DatabaseListResponse(items: seq<DatabaseListItem>)

  datatype StaticSiteDeployment = StaticSiteDeployment(
    id: string,
    status: string,
    repoUrl: string,
    branch: string,
    commitMessage: Option<string>,
    createdAt: int)

  /** StaticSiteDetails: every field of the detailed static-site view. */
  datatype StaticSiteDetails = StaticSiteDetails(
    id: string,
    name: string,
    displayName: string,
    status: string,
    repoUrl: string,
    defaultBranch: string,
    autoDeploy: bool,
    remoteRepositoryId: string,
    gitRepositoryId: string,
    gitType: string,
    hostname: string,
    buildCommand: Option<string>,
    createdAt: int,
    updatedAt: int,
    deployments: seq<StaticSiteDeployment>)

  /** StaticSite: the `{"static_site": …}` envelope. */
  datatype StaticSite = StaticSite(staticSite: StaticSiteDetails)

  datatype StaticSiteListItem = StaticSiteListItem(id: string, name: string, displayName: string, status: string)

  datatype StaticSiteListResponse = StaticSiteListResponse(items: seq<StaticSiteListItem>)

  datatype Domain = Domain(id: string, name: string, domainType: string)

  datatype Environment = Environment(
    id: string,
    name: string,
    displayName: string,
    isPremium: bool,
    isBlocked: bool,
    domains: seq<Domain>,
    primaryDomain: Domain)

  datatype SiteDetails = SiteDetails(
    id: string,
    name: string,
    displayName: string,
    companyId: string,
    status: string,
    environments: seq<Environment>)

  /** Site: the `{"site": …}` envelope. */
  datatype Site = Site(site: SiteDetails)

  datatype SiteListItem = SiteListItem(id: string, name: string, displayName: string, status: string)

  datatype SiteListResponse = SiteListResponse(sites: seq<SiteListItem>)

  datatype Pipeline = Pipeline(id: string, displayName: string)

  /** Application: only its identity matters to the modelled code (the response cache). */
  datatype Application = Application(id: string, name: string, displayName: string)

  /** A value found under a key of an operation's free-form `data` object. */
  datatype DataValue = StringValue(s: string) | NonStringValue

  /**
   * Operation.Data, an `interface{}` decoded from JSON: absent (nil), a JSON object, or any
   * other JSON value (array, string, number, bool).
   */
  datatype OperationData = NoData | ObjectData(fields: map<string, DataValue>) | OtherData

  /** Operation: the fields of an operation status that the poller reads. */
  datatype Operation = Operation(
    id: string,
    status: string,
    resourceId: string,
    error: Option<string>,
    data: OperationData)

  /** OperationResponse: what an asynchronous create returns. */
  datatype OperationResponse = OperationResponse(operationId: string, message: string, status: int)

  // ---------------------------------------------------------------- requests

  /** CreateDatabaseRequest; `db_user` carries `omitempty`. */
  datatype CreateDatabaseRequest = CreateDatabaseRequest(
    companyId: string,
    location: string,
    resourceType: string,
    displayName: string,
    dbName: string,
    dbPassword: string,
    dbUser: string,
    dbType: string,
    version: string)

  /** UpdateDatabaseRequest: both fields are `omitempty` pointers. */
  datatype UpdateDatabaseRequest = UpdateDatabaseRequest(displayName: Option<string>, resourceType: Option<string>)

  /** CreateStaticSiteRequest; `branch` is an `omitempty` pointer. */
  datatype CreateStaticSiteRequest = CreateStaticSiteRequest(
    companyId: string,
    displayName: string,
    repoUrl: string,
    branch: Option<string>)

  /** UpdateStaticSiteRequest: six `omitempty` pointers. */
  datatype UpdateStaticSiteRequest = UpdateStaticSiteRequest(
    displayName: Option<string>,
    autoDeploy: Option<bool>,
    defaultBranch: Option<string>,
    buildCommand: Option<string>,
    nodeVersion: Option<string>,
    publishedDirectory: Option<string>)

  datatype CreateSiteRequest = CreateSiteRequest(companyId: string, displayName: string)

  /** UpdateSiteRequest: display_name is an `omitempty` pointer. */
  datatype UpdateSiteRequest = UpdateSiteRequest(displayName: Option<string>)

  datatype CreatePipelineRequest = CreatePipelineRequest(displayName: string)

  datatype UpdatePipelineRequest = UpdatePipelineRequest(displayName: Option<string>)

  /** The JSON key `key` when the pointer field is non-nil: `omitempty` drops nil pointers. */
  function KeyIfSet<T>(key: string, field: Option<T>): set<string> {
    if field.Some? then {key} else {}
  }

  /** The JSON key `key` when the string field is non-empty: `omitempty` drops "". */
  function KeyIfNonEmpty(key: string, field: string): set<string> {
    if field != "" then {key} else {}
  }

  /** The keys json.Marshal emits for a CreateDatabaseRequest. */
  function CreateDatabaseKeys(r: CreateDatabaseRequest): set<string> {
    {"company_id", "location", "resource_type", "display_name", "db_name", "db_password", "type", "version"}
    + KeyIfNonEmpty("db_user", r.dbUser)
  }

  /** The keys json.Marshal emits for an UpdateDatabaseRequest. */
  function UpdateDatabaseKeys(r: UpdateDatabaseRequest): set<string> {
    KeyIfSet("display_name", r.displayName) + KeyIfSet("resource_type", r.resourceType)
  }

  /** The keys json.Marshal emits for a CreateStaticSiteRequest. */
  function CreateStaticSiteKeys(r: CreateStaticSiteRequest): set<string> {
    {"company_id", "display_name", "repo_url"} + KeyIfSet("branch", r.branch)
  }

  /** The keys json.Marshal emits for an UpdateStaticSiteRequest. */
  function UpdateStaticSiteKeys(r: UpdateStaticSiteRequest): set<string> {
    KeyIfSet("display_name", r.displayName) + KeyIfSet("auto_deploy", r.autoDeploy)
    + KeyIfSet("default_branch", r.defaultBranch) + KeyIfSet("build_command", r.buildCommand)
    + KeyIfSet("node_version", r.nodeVersion) + KeyIfSet("published_directory", r.publishedDirectory)
  }

  /** The keys json.Marshal emits for a CreatePipelineRequest. */
  function CreatePipelineKeys(r: CreatePipelineRequest): set<string> {
    {"display_name"}
  }

  /** The keys json.Marshal emits for an UpdatePipelineRequest. */
  function UpdatePipelineKeys(r: UpdatePipelineRequest): set<string> {
    KeyIfSet("display_name", r.displayName)
  }
}
