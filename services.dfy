/**
 * The per-kind services (internal/sevallaapi/services.go): each is one Transport call over a
 * fixed path, except DatabaseService.Create (a POST then up to three GETs) and
 * DatabaseService.Update (a PUT then a GET). What a call returns is an input; what the model
 * records is which calls are made, on which paths, and what is returned.
 */
module Services {
  import opened Wrappers
  import opened Models
  import opened Transport

  /** The entity kinds with a collection under the API root. */
  datatype Kind = Applications | Databases | StaticSites | Pipelines | Sites

  function Segment(k: Kind): string {
    match k
    case Applications => "applications"
    case Databases => "databases"
    case StaticSites => "static-sites"
    case Pipelines => "pipelines"
    case Sites => "sites"
  }

  /** The path Create posts to. */
  function CollectionPath(k: Kind): string {
    "/" + Segment(k)
  }

  /** The path Get, Update and Delete address: "/<kind>/" + id. */
  function ItemPath(k: Kind, id: string): string {
    CollectionPath(k) + "/" + id
  }

  /** The path List reads: "/<kind>?company=" + company. */
  function ListPath(k: Kind, companyId: string): string {
    CollectionPath(k) + "?company=" + companyId
  }

  /** The query the database Get endpoint requires. */
  const DatabaseGetQuery: string := "?internal=true&external=true"

  /** DatabaseService.Get's path. */
  function DatabaseGetPath(id: string): string {
    ItemPath(Databases, id) + DatabaseGetQuery
  }

  /** OperationService.GetStatus's path. */
  function OperationStatusPath(operationId: string): string {
    "/operations/" + operationId
  }

  /** DeploymentService.List's path. */
  function DeploymentsPath(appId: string): string {
    ItemPath(Applications, appId) + "/deployments"
  }

  /** DeploymentService.Get's path. */
  function DeploymentPath(appId: string, deploymentId: string): string {
    DeploymentsPath(appId) + "/" + deploymentId
  }

  /** CompanyService.GetUsers's path. */
  function CompanyUsersPath(companyId: string): string {
    "/company/" + companyId + "/users"
  }

  /** The id an item path addresses is what follows "/<kind>/": the path determines the id. */
  lemma ItemPathDeterminesId(k: Kind, a: string, b: string)
    ensures ItemPath(k, a)[|CollectionPath(k)| + 1..] == a
    ensures ItemPath(k, a) == ItemPath(k, b) ==> a == b
  {
    var n := |CollectionPath(k)| + 1;
    assert ItemPath(k, a)[n..] == a;
    assert ItemPath(k, b)[n..] == b;
  }

  /** Item paths of two different kinds never coincide, whatever the ids. */
  lemma KindsDoNotCollide(k1: Kind, k2: Kind, a: string, b: string)
    requires k1 != k2
    ensures ItemPath(k1, a) != ItemPath(k2, b)
  {
    var p1, p2 := ItemPath(k1, a), ItemPath(k2, b);
    assert p1[1] == Segment(k1)[0] && p1[2] == Segment(k1)[1];
    assert p2[1] == Segment(k2)[0] && p2[2] == Segment(k2)[1];
  }

  /** The database Get path is the item path with the internal/external query appended. */
  lemma DatabaseGetPathShape(id: string)
    ensures DatabaseGetPath(id) == "/databases/" + id + "?internal=true&external=true"
    ensures ItemPath(Databases, id) <= DatabaseGetPath(id)
  {
  }

  // ---------------------------------------------------------------- calls

  /** One Transport call: its verb and path. */
  datatype Call = Call(verb: string, path: string)

  /** The number of GETs DatabaseService.Create will try. */
  const CreateAttempts: nat := 3

  /**
   * DatabaseService.Create. `post` is what the POST to "/databases" returned (the created id
   * on success); `gets` holds what each GET attempt would return, in order. Returns the result,
   * the calls made and the number of one-second sleeps.
   */
  method CreateDatabase(post: Result<string, ApiError>, gets: seq<Result<Database, ApiError>>)
    returns (r: Result<Database, ApiError>, calls: seq<Call>, sleeps: nat)
    requires |gets| == CreateAttempts
    ensures |calls| >= 1 && calls[0] == Call("POST", CollectionPath(Databases))
    ensures post.Failure? ==> r == Failure(post.error) && |calls| == 1 && sleeps == 0
    ensures post.Success? ==>
              var attempts := |calls| - 1;
              && 1 <= attempts <= CreateAttempts
              && (forall k :: 1 <= k < |calls| ==> calls[k] == Call("GET", DatabaseGetPath(post.value)))
              && sleeps == attempts - 1
              && (forall k :: 0 <= k < attempts - 1 ==> gets[k].Failure?)
              && r == gets[attempts - 1]
              && (attempts < CreateAttempts ==> r.Success?)
    ensures post.Success? && (forall k :: 0 <= k < CreateAttempts ==> gets[k].Failure?) ==>
              r == gets[CreateAttempts - 1]
  {
    calls := [Call("POST", CollectionPath(Databases))];
    sleeps := 0;
    if post.Failure? {
      return Failure(post.error), calls, sleeps;
    }
    var id := post.value;
    var last: Option<Result<Database, ApiError>> := None;
    var i := 0;
    while i < CreateAttempts
      invariant 0 <= i <= CreateAttempts
      invariant |calls| == i + 1 && calls[0] == Call("POST", CollectionPath(Databases))
      invariant forall k :: 1 <= k < |calls| ==> calls[k] == Call("GET", DatabaseGetPath(id))
      invariant sleeps == if i == 0 then 0 else i - 1
      invariant forall k :: 0 <= k < i ==> gets[k].Failure?
      invariant i == 0 <==> last.None?
      invariant i > 0 ==> last == Some(gets[i - 1])
    {
      if i > 0 {
        sleeps := sleeps + 1;
      }
      last := Some(gets[i]);
      calls := calls + [Call("GET", DatabaseGetPath(id))];
      i := i + 1;
      if last.value.Success? {
        break;
      }
    }
    r := last.value;
  }

  /**
   * DatabaseService.Update: a PUT to the item path; only when it succeeds, the full record is
   * fetched and that fetch is the result.
   */
  function UpdateDatabase(id: string, put: Result<(), ApiError>, get: Result<Database, ApiError>)
    : (r: (Result<Database, ApiError>, seq<Call>))
    ensures |r.1| >= 1 && r.1[0] == Call("PUT", ItemPath(Databases, id))
    ensures put.Failure? ==> r.0 == Failure(put.error) && |r.1| == 1
    ensures put.Success? ==> r.0 == get && r.1 == [Call("PUT", ItemPath(Databases, id)), Call("GET", DatabaseGetPath(id))]
  {
    var putCall := Call("PUT", ItemPath(Databases, id));
    if put.Failure? then (Failure(put.error), [putCall])
    else (get, [putCall, Call("GET", DatabaseGetPath(id))])
  }

  /** The Go pair `(items, err)` a List returns. */
  datatype Listed<T> = Listed(items: seq<T>, err: Option<ApiError>)

  /** The guard of the database, static-site and site List: an error discards what was decoded. */
  function NilOnError<T>(decoded: seq<T>, err: Option<ApiError>): (r: Listed<T>)
    ensures r.err == err
    ensures err.Some? ==> r.items == []
    ensures err.None? ==> r.items == decoded
  {
    if err.Some? then Listed([], err) else Listed(decoded, None)
  }

  /**
   * DatabaseService.List; `decoded` is the response as far as the GET filled it in and `err`
   * the error it returned.
   */
  function ListDatabases(companyId: string, decoded: DatabaseListResponse, err: Option<ApiError>)
    : (r: (Call, Listed<DatabaseListItem>))
    ensures r.0 == Call("GET", "/databases?company=" + companyId)
    ensures r.1.err == err && (err.Some? ==> r.1.items == []) && (err.None? ==> r.1.items == decoded.items)
  {
    (Call("GET", ListPath(Databases, companyId)), NilOnError(decoded.items, err))
  }

  /** StaticSiteService.List. */
  function ListStaticSites(companyId: string, decoded: StaticSiteListResponse, err: Option<ApiError>)
    : (r: (Call, Listed<StaticSiteListItem>))
    ensures r.0 == Call("GET", "/static-sites?company=" + companyId)
    ensures r.1.err == err && (err.Some? ==> r.1.items == []) && (err.None? ==> r.1.items == decoded.items)
  {
    (Call("GET", ListPath(StaticSites, companyId)), NilOnError(decoded.items, err))
  }

  /** SiteService.List: the sites sit directly under "company". */
  function ListSites(companyId: string, decoded: SiteListResponse, err: Option<ApiError>)
    : (r: (Call, Listed<SiteListItem>))
    ensures r.0 == Call("GET", "/sites?company=" + companyId)
    ensures r.1.err == err && (err.Some? ==> r.1.items == []) && (err.None? ==> r.1.items == decoded.sites)
  {
    (Call("GET", ListPath(Sites, companyId)), NilOnError(decoded.sites, err))
  }

  /**
   * The single call each remaining service method makes: verb and path by kind and operation.
   * Get of a database adds the query; every other Get, Update and Delete uses the item path,
   * every Create the collection path.
   */
  datatype Op = GetOp(id: string) | CreateOp | UpdateOp(id: string) | DeleteOp(id: string)

  function ServiceCall(k: Kind, op: Op): (c: Call)
    ensures op.CreateOp? ==> c == Call("POST", "/" + Segment(k))
    ensures op.UpdateOp? ==> c == Call("PUT", "/" + Segment(k) + "/" + op.id)
    ensures op.DeleteOp? ==> c == Call("DELETE", "/" + Segment(k) + "/" + op.id)
    ensures op.GetOp? && k != Databases ==> c == Call("GET", "/" + Segment(k) + "/" + op.id)
    ensures op.GetOp? && k == Databases ==> c == Call("GET", "/databases/" + op.id + "?internal=true&external=true")
  {
    match op
    case GetOp(id) => Call("GET", if k == Databases then DatabaseGetPath(id) else ItemPath(k, id))
    case CreateOp => Call("POST", CollectionPath(k))
    case UpdateOp(id) => Call("PUT", ItemPath(k, id))
    case DeleteOp(id) => Call("DELETE", ItemPath(k, id))
  }
}
