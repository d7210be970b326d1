/**
 * The sevalla_static_site data source (internal/provider/static_site_data_source.go): its Read
 * fetches the configured id and writes every attribute of the response into the data, with
 * the deployments converted one by one into a list of objects.
 */
module StaticSiteDataSource {
  import opened Wrappers
  import opened Models
  import opened Transport

  /** StaticSiteDeploymentModel: one element of the deployments list. */
  datatype StaticSiteDeploymentModel = StaticSiteDeploymentModel(
    id: TfString,
    status: TfString,
    repoUrl: TfString,
    branch: TfString,
    commitMessage: TfString,
    createdAt: TfInt)

  /** StaticSiteDataSourceModel: the data source's configuration and result. */
  datatype StaticSiteDataSourceModel = StaticSiteDataSourceModel(
    id: TfString,
    name: TfString,
    displayName: TfString,
    companyId: TfString,
    status: TfString,
    repoUrl: TfString,
    defaultBranch: TfString,
    autoDeploy: TfBool,
    remoteRepositoryId: TfString,
    gitRepositoryId: TfString,
    gitType: TfString,
    hostname: TfString,
    buildCommand: TfString,
    createdAt: TfInt,
    updatedAt: TfInt,
    deployments: Tf<seq<StaticSiteDeploymentModel>>)

  /** The object a deployment becomes: a nil commit message is shown as the empty string. */
  function DeploymentObject(d: StaticSiteDeployment): (m: StaticSiteDeploymentModel)
    ensures m.commitMessage == Known(if d.commitMessage.Some? then d.commitMessage.value else "")
    ensures m.id == Known(d.id) && m.status == Known(d.status) && m.repoUrl == Known(d.repoUrl)
    ensures m.branch == Known(d.branch) && m.createdAt == Known(d.createdAt)
    ensures !m.commitMessage.IsNull()
  {
    StaticSiteDeploymentModel(
      Known(d.id), Known(d.status), Known(d.repoUrl), Known(d.branch),
      Known(d.commitMessage.GetOr("")), Known(d.createdAt))
  }

  /** The deployments list shows the response's deployments: same length, same order. */
  predicate ShowsDeployments(list: seq<StaticSiteDeploymentModel>, ds: seq<StaticSiteDeployment>) {
    |list| == |ds| && forall i :: 0 <= i < |ds| ==> list[i] == DeploymentObject(ds[i])
  }

  /**
   * The data after Read shows the static site: every scalar as a known value (timestamps
   * included), build_command null exactly when the response has none, the deployments in
   * order; company_id keeps the configured value.
   */
  predicate ShowsStaticSite(data: StaticSiteDataSourceModel, config: StaticSiteDataSourceModel, s: StaticSiteDetails) {
    && data.id == Known(s.id) && data.name == Known(s.name) && data.displayName == Known(s.displayName)
    && data.status == Known(s.status) && data.repoUrl == Known(s.repoUrl)
    && data.defaultBranch == Known(s.defaultBranch) && data.autoDeploy == Known(s.autoDeploy)
    && data.remoteRepositoryId == Known(s.remoteRepositoryId) && data.gitRepositoryId == Known(s.gitRepositoryId)
    && data.gitType == Known(s.gitType) && data.hostname == Known(s.hostname)
    && data.createdAt == Known(s.createdAt) && data.updatedAt == Known(s.updatedAt)
    && data.buildCommand == NullableString(s.buildCommand)
    && data.deployments.Known? && ShowsDeployments(data.deployments.value, s.deployments)
    && data.companyId == config.companyId
  }

  /** Two configurations with the same company_id read the same data from the same response. */
  lemma ShownDataIsDetermined(a: StaticSiteDataSourceModel, b: StaticSiteDataSourceModel,
                              configA: StaticSiteDataSourceModel, configB: StaticSiteDataSourceModel,
                              s: StaticSiteDetails)
    requires ShowsStaticSite(a, configA, s) && ShowsStaticSite(b, configB, s)
    requires configA.companyId == configB.companyId
    ensures a == b
  {
    assert a.deployments.value == b.deployments.value;
  }

  /** The deployments conversion: a list as long as the response's, filled by index. */
  method ConvertDeployments(ds: seq<StaticSiteDeployment>) returns (list: seq<StaticSiteDeploymentModel>)
    ensures ShowsDeployments(list, ds)
  {
    var deployments := new StaticSiteDeploymentModel[|ds|];
    for i := 0 to |ds|
      invariant forall k :: 0 <= k < i ==> deployments[k] == DeploymentObject(ds[k])
    {
      var deployment := ds[i];
      var commitMsg := "";
      if deployment.commitMessage.Some? {
        commitMsg := deployment.commitMessage.value;
      }
      deployments[i] := StaticSiteDeploymentModel(
        Known(deployment.id), Known(deployment.status), Known(deployment.repoUrl),
        Known(deployment.branch), Known(commitMsg), Known(deployment.createdAt));
    }
    list := deployments[..];
  }

  /** StaticSiteDataSource.Read: the id fetched, then the data or the client error. */
  method Read(config: StaticSiteDataSourceModel, fetched: Result<StaticSite, ApiError>)
    returns (id: string, outcome: Outcome<StaticSiteDataSourceModel>)
    ensures id == ValueString(config.id)
    ensures fetched.Failure? ==> outcome == Failed(ClientError("read", "static site", fetched.error.text))
    ensures fetched.Success? ==> outcome.Saved? && ShowsStaticSite(outcome.state, config, fetched.value.staticSite)
  {
    id := ValueString(config.id);
    if fetched.Failure? {
      return id, Failed(ClientError("read", "static site", fetched.error.text));
    }
    var s := fetched.value.staticSite;
    var data := config;
    data := data.(id := Known(s.id));
    data := data.(name := Known(s.name));
    data := data.(displayName := Known(s.displayName));
    data := data.(status := Known(s.status));
    data := data.(repoUrl := Known(s.repoUrl));
    data := data.(defaultBranch := Known(s.defaultBranch));
    data := data.(autoDeploy := Known(s.autoDeploy));
    data := data.(remoteRepositoryId := Known(s.remoteRepositoryId));
    data := data.(gitRepositoryId := Known(s.gitRepositoryId));
    data := data.(gitType := Known(s.gitType));
    data := data.(hostname := Known(s.hostname));
    data := data.(createdAt := Known(s.createdAt));
    data := data.(updatedAt := Known(s.updatedAt));
    if s.buildCommand.Some? {
      data := data.(buildCommand := Known(s.buildCommand.value));
    } else {
      data := data.(buildCommand := Null);
    }
    var deployments := ConvertDeployments(s.deployments);
    data := data.(deployments := Known(deployments));
    outcome := Saved(data);
  }
}
