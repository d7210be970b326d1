/**
 * The sevalla_static_site resource (internal/provider/static_site_resource.go): how a plan
 * becomes the create and update requests, and how each response is written back into the
 * resource data. Each adapter step is a method with the source's step-by-step assignments,
 * proved equal to a function that states the outcome as a whole.
 */
module StaticSiteResource {
  import opened Wrappers
  import opened Models
  import opened Transport

  /** StaticSiteResourceModel: the resource's plan and state. */
  datatype StaticSiteResourceModel = StaticSiteResourceModel(
    id: TfString,
    name: TfString,
    displayName: TfString,
    companyId: TfString,
    status: TfString,
    repoUrl: TfString,
    defaultBranch: TfString,
    autoDeploy: TfBool,
    gitType: TfString,
    hostname: TfString,
    buildCommand: TfString,
    nodeVersion: TfString,
    publishedDirectory: TfString)

  /** A pointer to the plan's value when the attribute is not null. */
  function PointerIfSet<T>(v: Tf<T>, zero: T): (p: Option<T>)
    ensures p.Some? <==> !v.IsNull()
    ensures p.Some? ==> p.value == v.ValueOr(zero)
  {
    if v.IsNull() then None else Some(v.ValueOr(zero))
  }

  // ---------------------------------------------------------------- requests

  /** The create request a plan produces. */
  function CreateRequestFor(plan: StaticSiteResourceModel): (r: CreateStaticSiteRequest)
    ensures r.companyId == ValueString(plan.companyId)
    ensures r.displayName == ValueString(plan.displayName)
    ensures r.repoUrl == ValueString(plan.repoUrl)
    ensures r.branch.Some? <==> !plan.defaultBranch.IsNull()
    ensures r.branch.Some? ==> r.branch.value == ValueString(plan.defaultBranch)
    ensures CreateStaticSiteKeys(r)
            == {"company_id", "display_name", "repo_url"} + (if plan.defaultBranch.IsNull() then {} else {"branch"})
  {
    CreateStaticSiteRequest(
      ValueString(plan.companyId), ValueString(plan.displayName), ValueString(plan.repoUrl),
      PointerIfSet(plan.defaultBranch, ""))
  }

  /** The JSON keys of the plan attributes Update may send: the non-null ones. */
  function NonNullUpdateKeys(plan: StaticSiteResourceModel): set<string> {
    (if plan.displayName.IsNull() then {} else {"display_name"})
    + (if plan.autoDeploy.IsNull() then {} else {"auto_deploy"})
    + (if plan.defaultBranch.IsNull() then {} else {"default_branch"})
    + (if plan.buildCommand.IsNull() then {} else {"build_command"})
    + (if plan.nodeVersion.IsNull() then {} else {"node_version"})
    + (if plan.publishedDirectory.IsNull() then {} else {"published_directory"})
  }

  /** The update request a plan produces: every non-null attribute, and nothing else. */
  function UpdateRequestFor(plan: StaticSiteResourceModel): (r: UpdateStaticSiteRequest)
    ensures r.displayName.Some? <==> !plan.displayName.IsNull()
    ensures r.autoDeploy.Some? <==> !plan.autoDeploy.IsNull()
    ensures r.defaultBranch.Some? <==> !plan.defaultBranch.IsNull()
    ensures r.buildCommand.Some? <==> !plan.buildCommand.IsNull()
    ensures r.nodeVersion.Some? <==> !plan.nodeVersion.IsNull()
    ensures r.publishedDirectory.Some? <==> !plan.publishedDirectory.IsNull()
    ensures r.displayName.Some? ==> r.displayName.value == ValueString(plan.displayName)
    ensures r.autoDeploy.Some? ==> r.autoDeploy.value == ValueBool(plan.autoDeploy)
    ensures r.defaultBranch.Some? ==> r.defaultBranch.value == ValueString(plan.defaultBranch)
    ensures r.buildCommand.Some? ==> r.buildCommand.value == ValueString(plan.buildCommand)
    ensures r.nodeVersion.Some? ==> r.nodeVersion.value == ValueString(plan.nodeVersion)
    ensures r.publishedDirectory.Some? ==> r.publishedDirectory.value == ValueString(plan.publishedDirectory)
    ensures UpdateStaticSiteKeys(r) == NonNullUpdateKeys(plan)
  {
    UpdateStaticSiteRequest(
      PointerIfSet(plan.displayName, ""), PointerIfSet(plan.autoDeploy, false),
      PointerIfSet(plan.defaultBranch, ""), PointerIfSet(plan.buildCommand, ""),
      PointerIfSet(plan.nodeVersion, ""), PointerIfSet(plan.publishedDirectory, ""))
  }

  /** Create's request: the three required strings, then the branch when the plan has one. */
  method BuildCreateRequest(plan: StaticSiteResourceModel) returns (req: CreateStaticSiteRequest)
    ensures req == CreateRequestFor(plan)
  {
    req := CreateStaticSiteRequest(ValueString(plan.companyId), ValueString(plan.displayName), ValueString(plan.repoUrl), None);
    if !plan.defaultBranch.IsNull() {
      var branch := ValueString(plan.defaultBranch);
      req := req.(branch := Some(branch));
    }
  }

  /** Update's request: starts empty and sets each of six pointers when its attribute is not null. */
  method BuildUpdateRequest(plan: StaticSiteResourceModel) returns (req: UpdateStaticSiteRequest)
    ensures req == UpdateRequestFor(plan)
  {
    req := UpdateStaticSiteRequest(None, None, None, None, None, None);
    if !plan.displayName.IsNull() {
      req := req.(displayName := Some(ValueString(plan.displayName)));
    }
    if !plan.autoDeploy.IsNull() {
      var autoDeploy := ValueBool(plan.autoDeploy);
      req := req.(autoDeploy := Some(autoDeploy));
    }
    if !plan.defaultBranch.IsNull() {
      req := req.(defaultBranch := Some(ValueString(plan.defaultBranch)));
    }
    if !plan.buildCommand.IsNull() {
      req := req.(buildCommand := Some(ValueString(plan.buildCommand)));
    }
    if !plan.nodeVersion.IsNull() {
      req := req.(nodeVersion := Some(ValueString(plan.nodeVersion)));
    }
    if !plan.publishedDirectory.IsNull() {
      req := req.(publishedDirectory := Some(ValueString(plan.publishedDirectory)));
    }
  }

  /** A plan with every optional attribute null sends an empty JSON object on update. */
  lemma AllNullPlanSendsNothing(plan: StaticSiteResourceModel)
    requires plan.displayName.IsNull() && plan.autoDeploy.IsNull() && plan.defaultBranch.IsNull()
    requires plan.buildCommand.IsNull() && plan.nodeVersion.IsNull() && plan.publishedDirectory.IsNull()
    ensures UpdateStaticSiteKeys(UpdateRequestFor(plan)) == {}
  {
  }

  // ---------------------------------------------------------------- responses

  /** The nine attributes Create and Read take from the response, as known values. */
  predicate ShowsStaticSite(data: StaticSiteResourceModel, s: StaticSiteDetails) {
    && data.id == Known(s.id)
    && data.name == Known(s.name)
    && data.displayName == Known(s.displayName)
    && data.status == Known(s.status)
    && data.repoUrl == Known(s.repoUrl)
    && data.defaultBranch == Known(s.defaultBranch)
    && data.autoDeploy == Known(s.autoDeploy)
    && data.gitType == Known(s.gitType)
    && data.hostname == Known(s.hostname)
  }

  /** The attributes no response ever writes. */
  predicate SameUnmanaged(a: StaticSiteResourceModel, b: StaticSiteResourceModel) {
    a.companyId == b.companyId && a.nodeVersion == b.nodeVersion && a.publishedDirectory == b.publishedDirectory
  }

  /**
   * The data after Create or Read: the response shown, build_command replaced only when the
   * response has one, and company_id, node_version and published_directory as they were.
   */
  function Refreshed(data: StaticSiteResourceModel, s: StaticSiteDetails): (r: StaticSiteResourceModel)
    ensures ShowsStaticSite(r, s)
    ensures r.buildCommand == if s.buildCommand.Some? then Known(s.buildCommand.value) else data.buildCommand
    ensures SameUnmanaged(r, data)
  {
    data.(
      id := Known(s.id), name := Known(s.name), displayName := Known(s.displayName), status := Known(s.status),
      repoUrl := Known(s.repoUrl), defaultBranch := Known(s.defaultBranch), autoDeploy := Known(s.autoDeploy),
      gitType := Known(s.gitType), hostname := Known(s.hostname),
      buildCommand := if s.buildCommand.Some? then Known(s.buildCommand.value) else data.buildCommand)
  }

  /** The data after Update: six attributes from the response; the rest keep the plan's values. */
  function Repopulated(data: StaticSiteResourceModel, s: StaticSiteDetails): (r: StaticSiteResourceModel)
    ensures r.id == Known(s.id) && r.name == Known(s.name) && r.displayName == Known(s.displayName)
    ensures r.status == Known(s.status) && r.autoDeploy == Known(s.autoDeploy) && r.defaultBranch == Known(s.defaultBranch)
    ensures r.repoUrl == data.repoUrl && r.gitType == data.gitType && r.hostname == data.hostname
    ensures r.buildCommand == data.buildCommand && SameUnmanaged(r, data)
  {
    data.(
      id := Known(s.id), name := Known(s.name), displayName := Known(s.displayName), status := Known(s.status),
      autoDeploy := Known(s.autoDeploy), defaultBranch := Known(s.defaultBranch))
  }

  /** Reading the same response twice leaves what reading it once does. */
  lemma RefreshIsIdempotent(data: StaticSiteResourceModel, s: StaticSiteDetails)
    ensures Refreshed(Refreshed(data, s), s) == Refreshed(data, s)
  {
  }

  /** A Read after an Update, given the same record, ends where a Read alone would. */
  lemma ReadAfterUpdate(data: StaticSiteResourceModel, s: StaticSiteDetails)
    ensures Refreshed(Repopulated(data, s), s) == Refreshed(data, s)
  {
  }

  /**
   * After Create or Read the data depends on the prior data only through the attributes no
   * response writes, and through build_command when the response has none.
   */
  lemma RefreshDependsOnlyOnUnmanaged(a: StaticSiteResourceModel, b: StaticSiteResourceModel, s: StaticSiteDetails)
    requires SameUnmanaged(a, b)
    requires s.buildCommand.None? ==> a.buildCommand == b.buildCommand
    ensures Refreshed(a, s) == Refreshed(b, s)
  {
  }

  /** The assignments Create and Read make after a successful call. */
  method ApplyStaticSite(data: StaticSiteResourceModel, s: StaticSiteDetails) returns (r: StaticSiteResourceModel)
    ensures r == Refreshed(data, s)
  {
    r := data;
    r := r.(id := Known(s.id));
    r := r.(name := Known(s.name));
    r := r.(displayName := Known(s.displayName));
    r := r.(status := Known(s.status));
    r := r.(repoUrl := Known(s.repoUrl));
    r := r.(defaultBranch := Known(s.defaultBranch));
    r := r.(autoDeploy := Known(s.autoDeploy));
    r := r.(gitType := Known(s.gitType));
    r := r.(hostname := Known(s.hostname));
    if s.buildCommand.Some? {
      r := r.(buildCommand := Known(s.buildCommand.value));
    }
  }

  /** The assignments Update makes after a successful call. */
  method ApplyUpdated(data: StaticSiteResourceModel, s: StaticSiteDetails) returns (r: StaticSiteResourceModel)
    ensures r == Repopulated(data, s)
  {
    r := data;
    r := r.(id := Known(s.id));
    r := r.(name := Known(s.name));
    r := r.(displayName := Known(s.displayName));
    r := r.(status := Known(s.status));
    r := r.(autoDeploy := Known(s.autoDeploy));
    r := r.(defaultBranch := Known(s.defaultBranch));
  }

  // ---------------------------------------------------------------- CRUD

  /** Create: the request sent, then the created record written back or the client error. */
  method Create(plan: StaticSiteResourceModel, created: Result<StaticSite, ApiError>)
    returns (req: CreateStaticSiteRequest, outcome: Outcome<StaticSiteResourceModel>)
    ensures req == CreateRequestFor(plan)
    ensures created.Failure? ==> outcome == Failed(ClientError("create", "static site", created.error.text))
    ensures created.Success? ==> outcome == Saved(Refreshed(plan, created.value.staticSite))
  {
    req := BuildCreateRequest(plan);
    if created.Failure? {
      return req, Failed(ClientError("create", "static site", created.error.text));
    }
    var data := ApplyStaticSite(plan, created.value.staticSite);
    outcome := Saved(data);
  }

  /** Read: fetches the state's id, then writes the record back or reports the client error. */
  method Read(state: StaticSiteResourceModel, fetched: Result<StaticSite, ApiError>)
    returns (id: string, outcome: Outcome<StaticSiteResourceModel>)
    ensures id == ValueString(state.id)
    ensures fetched.Failure? ==> outcome == Failed(ClientError("read", "static site", fetched.error.text))
    ensures fetched.Success? ==> outcome == Saved(Refreshed(state, fetched.value.staticSite))
  {
    id := ValueString(state.id);
    if fetched.Failure? {
      return id, Failed(ClientError("read", "static site", fetched.error.text));
    }
    var data := ApplyStaticSite(state, fetched.value.staticSite);
    outcome := Saved(data);
  }

  /** Update: the request for the plan's id, then six attributes written back or the client error. */
  method Update(plan: StaticSiteResourceModel, updated: Result<StaticSite, ApiError>)
    returns (id: string, req: UpdateStaticSiteRequest, outcome: Outcome<StaticSiteResourceModel>)
    ensures id == ValueString(plan.id) && req == UpdateRequestFor(plan)
    ensures updated.Failure? ==> outcome == Failed(ClientError("update", "static site", updated.error.text))
    ensures updated.Success? ==> outcome == Saved(Repopulated(plan, updated.value.staticSite))
  {
    req := BuildUpdateRequest(plan);
    id := ValueString(plan.id);
    if updated.Failure? {
      return id, req, Failed(ClientError("update", "static site", updated.error.text));
    }
    var data := ApplyUpdated(plan, updated.value.staticSite);
    outcome := Saved(data);
  }

  /** Delete: the id deleted and, when the call failed, the client error. */
  method Delete(state: StaticSiteResourceModel, err: Option<ApiError>) returns (id: string, diagnostics: seq<Diagnostic>)
    ensures id == ValueString(state.id)
    ensures err.None? <==> diagnostics == []
    ensures err.Some? ==> diagnostics == [ClientError("delete", "static site", err.value.text)]
  {
    id := ValueString(state.id);
    diagnostics := [];
    if err.Some? {
      diagnostics := [ClientError("delete", "static site", err.value.text)];
    }
  }
}
