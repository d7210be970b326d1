/**
 * The sevalla_pipeline resource (internal/provider/pipeline_resource.go). The API's pipeline
 * has only an id and a display name, so both requests carry the plan's name and nothing
 * else; branch, auto_deploy and the timestamps are filled in locally.
 */
module PipelineResource {
  import opened Wrappers
  import opened Models
  import opened Transport

  /** PipelineResourceModel: the resource's plan and state. */
  datatype PipelineResourceModel = PipelineResourceModel(
    id: TfString,
    name: TfString,
    appId: TfString,
    branch: TfString,
    autoDeploy: TfBool,
    createdAt: TfString,
    updatedAt: TfString)

  /** The branch Create records when the plan has none. */
  const DefaultBranch: string := "main"

  /** The auto_deploy Create records when the plan has none. */
  const DefaultAutoDeploy: bool := true

  // ---------------------------------------------------------------- requests

  /** The create request: the plan's name as display_name; app_id is never sent. */
  function CreateRequestFor(plan: PipelineResourceModel): (r: CreatePipelineRequest)
    ensures r.displayName == ValueString(plan.name)
    ensures CreatePipelineKeys(r) == {"display_name"}
  {
    CreatePipelineRequest(ValueString(plan.name))
  }

  /** The update request: the plan's name as display_name, always present; nothing else. */
  function UpdateRequestFor(plan: PipelineResourceModel): (r: UpdatePipelineRequest)
    ensures r.displayName == Some(ValueString(plan.name))
    ensures UpdatePipelineKeys(r) == {"display_name"}
  {
    UpdatePipelineRequest(Some(ValueString(plan.name)))
  }

  /** Two plans that differ anywhere but in their name send the same requests. */
  lemma RequestsDependOnlyOnName(a: PipelineResourceModel, b: PipelineResourceModel)
    requires ValueString(a.name) == ValueString(b.name)
    ensures CreateRequestFor(a) == CreateRequestFor(b)
    ensures UpdateRequestFor(a) == UpdateRequestFor(b)
  {
  }

  // ---------------------------------------------------------------- responses

  /**
   * The data after Create: id and name from the response, a null branch or auto_deploy
   * replaced by its default (a set one kept), both timestamps "", app_id as planned.
   */
  function Created(plan: PipelineResourceModel, p: Pipeline): (r: PipelineResourceModel)
    ensures r.id == Known(p.id) && r.name == Known(p.displayName) && r.appId == plan.appId
    ensures r.branch == if plan.branch.IsNull() then Known(DefaultBranch) else plan.branch
    ensures r.autoDeploy == if plan.autoDeploy.IsNull() then Known(DefaultAutoDeploy) else plan.autoDeploy
    ensures r.createdAt == Known("") && r.updatedAt == Known("")
    ensures !r.branch.IsNull() && !r.autoDeploy.IsNull()
  {
    plan.(
      id := Known(p.id), name := Known(p.displayName),
      branch := if plan.branch.IsNull() then Known(DefaultBranch) else plan.branch,
      autoDeploy := if plan.autoDeploy.IsNull() then Known(DefaultAutoDeploy) else plan.autoDeploy,
      createdAt := Known(""), updatedAt := Known(""))
  }

  /** The data after Read: id and name from the response; every other attribute as in the state. */
  function Refreshed(state: PipelineResourceModel, p: Pipeline): (r: PipelineResourceModel)
    ensures r.id == Known(p.id) && r.name == Known(p.displayName)
    ensures r.appId == state.appId && r.branch == state.branch && r.autoDeploy == state.autoDeploy
    ensures r.createdAt == state.createdAt && r.updatedAt == state.updatedAt
  {
    state.(id := Known(p.id), name := Known(p.displayName))
  }

  /** The data after Update: id, name and an empty updated_at; every other attribute as planned. */
  function Repopulated(plan: PipelineResourceModel, p: Pipeline): (r: PipelineResourceModel)
    ensures r.id == Known(p.id) && r.name == Known(p.displayName) && r.updatedAt == Known("")
    ensures r.appId == plan.appId && r.branch == plan.branch && r.autoDeploy == plan.autoDeploy
    ensures r.createdAt == plan.createdAt
  {
    plan.(id := Known(p.id), name := Known(p.displayName), updatedAt := Known(""))
  }

  /** A Read of the record just created changes nothing. */
  lemma ReadAfterCreateIsStable(plan: PipelineResourceModel, p: Pipeline)
    ensures Refreshed(Created(plan, p), p) == Created(plan, p)
  {
  }

  /** An Update of freshly created data with the same record changes nothing. */
  lemma UpdateAfterCreateIsStable(plan: PipelineResourceModel, p: Pipeline)
    ensures Repopulated(Created(plan, p), p) == Created(plan, p)
  {
  }

  /** Create applied to its own result gives it back: the defaults are applied once. */
  lemma CreateDefaultsAreIdempotent(plan: PipelineResourceModel, p: Pipeline)
    ensures Created(Created(plan, p), p) == Created(plan, p)
  {
  }

  /** The assignments Create makes after a successful call. */
  method ApplyCreated(plan: PipelineResourceModel, p: Pipeline) returns (r: PipelineResourceModel)
    ensures r == Created(plan, p)
  {
    r := plan;
    r := r.(id := Known(p.id));
    r := r.(name := Known(p.displayName));
    if r.branch.IsNull() {
      r := r.(branch := Known(DefaultBranch));
    }
    if r.autoDeploy.IsNull() {
      r := r.(autoDeploy := Known(DefaultAutoDeploy));
    }
    r := r.(createdAt := Known(""));
    r := r.(updatedAt := Known(""));
  }

  // ---------------------------------------------------------------- CRUD

  /** Create: the request sent, then the created pipeline written back or the client error. */
  method Create(plan: PipelineResourceModel, created: Result<Pipeline, ApiError>)
    returns (req: CreatePipelineRequest, outcome: Outcome<PipelineResourceModel>)
    ensures req == CreateRequestFor(plan)
    ensures created.Failure? ==> outcome == Failed(ClientError("create", "pipeline", created.error.text))
    ensures created.Success? ==> outcome == Saved(Created(plan, created.value))
  {
    req := CreatePipelineRequest(ValueString(plan.name));
    if created.Failure? {
      return req, Failed(ClientError("create", "pipeline", created.error.text));
    }
    var data := ApplyCreated(plan, created.value);
    outcome := Saved(data);
  }

  /** Read: fetches the state's id, then writes id and name back or reports the client error. */
  method Read(state: PipelineResourceModel, fetched: Result<Pipeline, ApiError>)
    returns (id: string, outcome: Outcome<PipelineResourceModel>)
    ensures id == ValueString(state.id)
    ensures fetched.Failure? ==> outcome == Failed(ClientError("read", "pipeline", fetched.error.text))
    ensures fetched.Success? ==> outcome == Saved(Refreshed(state, fetched.value))
  {
    id := ValueString(state.id);
    if fetched.Failure? {
      return id, Failed(ClientError("read", "pipeline", fetched.error.text));
    }
    var data := state;
    data := data.(id := Known(fetched.value.id));
    data := data.(name := Known(fetched.value.displayName));
    outcome := Saved(data);
  }

  /** Update: the request for the plan's id, then id, name and updated_at written back or the client error. */
  method Update(plan: PipelineResourceModel, updated: Result<Pipeline, ApiError>)
    returns (id: string, req: UpdatePipelineRequest, outcome: Outcome<PipelineResourceModel>)
    ensures id == ValueString(plan.id) && req == UpdateRequestFor(plan)
    ensures updated.Failure? ==> outcome == Failed(ClientError("update", "pipeline", updated.error.text))
    ensures updated.Success? ==> outcome == Saved(Repopulated(plan, updated.value))
  {
    req := UpdatePipelineRequest(Some(ValueString(plan.name)));
    id := ValueString(plan.id);
    if updated.Failure? {
      return id, req, Failed(ClientError("update", "pipeline", updated.error.text));
    }
    var data := plan;
    data := data.(id := Known(updated.value.id));
    data := data.(name := Known(updated.value.displayName));
    data := data.(updatedAt := Known(""));
    outcome := Saved(data);
  }

  /** Delete: the id deleted and, when the call failed, the client error. */
  method Delete(state: PipelineResourceModel, err: Option<ApiError>) returns (id: string, diagnostics: seq<Diagnostic>)
    ensures id == ValueString(state.id)
    ensures err.None? <==> diagnostics == []
    ensures err.Some? ==> diagnostics == [ClientError("delete", "pipeline", err.value.text)]
  {
    id := ValueString(state.id);
    diagnostics := [];
    if err.Some? {
      diagnostics := [ClientError("delete", "pipeline", err.value.text)];
    }
  }
}
