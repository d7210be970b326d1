/**
 * The WordPress-site resource (internal/provider/site_resource.go): the operation poller
 * waitForOperation, the Create sequence submit -> wait -> Get, and mapSiteToModel.
 *
 * The poller's ticker, its ten-minute deadline and the caller's cancellation are channels in
 * the source; here they are a finite sequence of events in the order `select` takes them.
 */
module SiteResource {
  import opened Wrappers
  import opened Models
  import opened Transport
  import opened Services

  // ---------------------------------------------------------------- one poll

  /** What one observation of the operation decides. */
  datatype Decision = Resolved(id: string) | Rejected(message: string) | KeepPolling

  /** The string under "site_id" when the operation's data is a JSON object holding one. */
  function SiteIdFromData(data: OperationData): Option<string> {
    if data.ObjectData? && "site_id" in data.fields && data.fields["site_id"].StringValue?
    then Some(data.fields["site_id"].s)
    else None
  }

  /**
   * The `switch op.Status` of one tick. Only "completed" resolves, to the resource id when it
   * is non-empty and else to a string `site_id` in the data; "failed" rejects with the
   * operation's error text if it has one; every other status polls again.
   */
  function PollDecision(op: Operation): (d: Decision)
    ensures d.Resolved? ==> op.status == "completed"
    ensures op.status == "completed" && op.resourceId != "" ==> d == Resolved(op.resourceId)
    ensures op.status == "completed" && op.resourceId == "" && SiteIdFromData(op.data).Some? ==>
              d == Resolved(SiteIdFromData(op.data).value)
    ensures op.status == "completed" && op.resourceId == "" && SiteIdFromData(op.data).None? ==>
              d == Rejected("operation completed but site ID not found")
    ensures op.status == "failed" && op.error.Some? ==> d == Rejected("operation failed: " + op.error.value)
    ensures op.status == "failed" && op.error.None? ==> d == Rejected("operation failed with unknown error")
    ensures d.KeepPolling? <==> op.status != "completed" && op.status != "failed"
  {
    if op.status == "completed" then
      if op.resourceId != "" then Resolved(op.resourceId)
      else match SiteIdFromData(op.data)
        case Some(id) => Resolved(id)
        case None => Rejected("operation completed but site ID not found")
    else if op.status == "failed" then
      match op.error
      case Some(e) => Rejected("operation failed: " + e)
      case None => Rejected("operation failed with unknown error")
    else KeepPolling
  }

  /** A resolved id is returned even when the data's "site_id" is the empty string. */
  lemma EmptySiteIdResolves(opId: string)
    ensures PollDecision(Operation(opId, "completed", "", None, ObjectData(map["site_id" := StringValue("")])))
            == Resolved("")
  {
  }

  // ---------------------------------------------------------------- the wait

  /** What the `select` of the wait loop receives. */
  datatype Event =
    | Tick(lookup: Result<Operation, ApiError>)   // the ticker fired; GetStatus returned `lookup`
    | Timeout                                     // the ten-minute deadline passed
    | Cancelled(reason: string)                   // ctx.Done(); `reason` is ctx.Err()'s text

  /** What one event decides. */
  function EventDecision(e: Event): (d: Decision)
    ensures d.Resolved? ==> e.Tick? && e.lookup.Success? && e.lookup.value.status == "completed"
    ensures !e.Tick? ==> d.Rejected?
    ensures e.Tick? && e.lookup.Failure? ==> d == Rejected("failed to get operation status: " + e.lookup.error.text)
  {
    match e
    case Tick(lookup) =>
      (match lookup
       case Failure(err) => Rejected("failed to get operation status: " + err.text)
       case Success(op) => PollDecision(op))
    case Timeout => Rejected("operation timed out after 10 minutes")
    case Cancelled(reason) => Rejected(reason)
  }

  /** waitForOperation's result; StillWaiting when no event of the sequence ends the wait. */
  datatype WaitOutcome = SiteId(id: string) | WaitError(message: string) | StillWaiting

  function Conclude(d: Decision): WaitOutcome {
    match d
    case Resolved(id) => SiteId(id)
    case Rejected(m) => WaitError(m)
    case KeepPolling => StillWaiting
  }

  /** The reference definition of the wait: its outcome and how many events it consumed. */
  function Wait(events: seq<Event>): (r: (WaitOutcome, nat))
    ensures r.1 <= |events|
    decreases |events|
  {
    if events == [] then (StillWaiting, 0)
    else
      var d := EventDecision(events[0]);
      if d.KeepPolling? then
        var rest := Wait(events[1..]);
        (rest.0, rest.1 + 1)
      else (Conclude(d), 1)
  }

  /** The number of ticks in a sequence of events: each is one status lookup. */
  function TickCount(events: seq<Event>): nat {
    if events == [] then 0
    else TickCount(events[..|events| - 1]) + (if events[|events| - 1].Tick? then 1 else 0)
  }

  /** n status lookups of one operation. */
  function StatusPolls(operationId: string, n: nat): (s: seq<Call>)
    ensures |s| == n && forall k :: 0 <= k < n ==> s[k] == Call("GET", OperationStatusPath(operationId))
  {
    seq(n, _ => Call("GET", OperationStatusPath(operationId)))
  }

  /**
   * The wait ends at the first event that does not poll again, with that event's verdict; it
   * is still waiting exactly when no event ends it, having consumed them all.
   */
  lemma {:induction false} WaitStopsAtFirstEnd(events: seq<Event>)
    ensures var (o, n) := Wait(events);
            && (o.StillWaiting? <==> forall k :: 0 <= k < |events| ==> EventDecision(events[k]).KeepPolling?)
            && (o.StillWaiting? ==> n == |events|)
            && (!o.StillWaiting? ==>
                  && 1 <= n <= |events|
                  && !EventDecision(events[n - 1]).KeepPolling?
                  && (forall k :: 0 <= k < n - 1 ==> EventDecision(events[k]).KeepPolling?)
                  && o == Conclude(EventDecision(events[n - 1])))
  {
    if events != [] && EventDecision(events[0]).KeepPolling? {
      WaitStopsAtFirstEnd(events[1..]);
      assert forall k :: 1 <= k < |events| ==> events[k] == events[1..][k - 1];
    }
  }

  /** Only a "completed" status yields an id; a lookup failure, the deadline and cancellation are errors. */
  lemma SuccessOnlyFromCompleted(events: seq<Event>)
    ensures var (o, n) := Wait(events);
            o.SiteId? ==> n >= 1 && events[n - 1].Tick? && events[n - 1].lookup.Success?
                          && events[n - 1].lookup.value.status == "completed"
    ensures events != [] && !events[0].Tick? ==> Wait(events).0.WaitError? && Wait(events).1 == 1
    ensures events != [] && events[0].Tick? && events[0].lookup.Failure? ==> Wait(events).0.WaitError? && Wait(events).1 == 1
  {
    WaitStopsAtFirstEnd(events);
  }

  /** pending, running, then completed with a resource id: that id, after three lookups. */
  lemma PendingRunningCompleted(opId: string, siteId: string)
    requires siteId != ""
    ensures Wait([Tick(Success(Operation(opId, "pending", "", None, NoData))),
                  Tick(Success(Operation(opId, "running", "", None, NoData))),
                  Tick(Success(Operation(opId, "completed", siteId, None, NoData)))])
            == (SiteId(siteId), 3)
  {
    var e0 := Tick(Success(Operation(opId, "pending", "", None, NoData)));
    var e1 := Tick(Success(Operation(opId, "running", "", None, NoData)));
    var e2 := Tick(Success(Operation(opId, "completed", siteId, None, NoData)));
    assert "pending" != "completed" && "pending" != "failed" by { assert "pending"[0] != "completed"[0]; assert "pending"[0] != "failed"[0]; }
    assert "running" != "completed" && "running" != "failed" by { assert "running"[0] != "completed"[0]; assert "running"[0] != "failed"[0]; }
    assert Wait([e2]) == (SiteId(siteId), 1);
    assert [e1, e2][1..] == [e2];
    assert Wait([e1, e2]) == (SiteId(siteId), 2);
    assert [e0, e1, e2][1..] == [e1, e2];
  }

  /** A failed operation's error text is surfaced. */
  lemma FailedWithError(opId: string)
    ensures Wait([Tick(Success(Operation(opId, "failed", "", Some("quota exceeded"), NoData)))])
            == (WaitError("operation failed: quota exceeded"), 1)
  {
    var e := Tick(Success(Operation(opId, "failed", "", Some("quota exceeded"), NoData)));
    assert "failed" != "completed" by { assert "failed"[0] != "completed"[0]; }
    assert "operation failed: " + "quota exceeded" == "operation failed: quota exceeded";
    assert EventDecision(e) == Rejected("operation failed: quota exceeded");
  }

  /**
   * waitForOperation: consumes events until one ends the wait, performing one status GET per
   * tick consumed and none after the wait has ended.
   */
  method WaitForOperation(operationId: string, events: seq<Event>)
    returns (outcome: WaitOutcome, polls: seq<Call>, consumed: nat)
    ensures (outcome, consumed) == Wait(events)
    ensures consumed <= |events| && polls == StatusPolls(operationId, TickCount(events[..consumed]))
  {
    outcome, polls, consumed := StillWaiting, [], 0;
    while consumed < |events|
      invariant consumed <= |events|
      invariant Wait(events) == (Wait(events[consumed..]).0, Wait(events[consumed..]).1 + consumed)
      invariant polls == StatusPolls(operationId, TickCount(events[..consumed]))
    {
      var e := events[consumed];
      assert events[..consumed + 1][..consumed] == events[..consumed];
      if e.Tick? {
        polls := polls + [Call("GET", OperationStatusPath(operationId))];
      }
      assert events[consumed..][1..] == events[consumed + 1..];
      consumed := consumed + 1;
      var d := EventDecision(e);
      if !d.KeepPolling? {
        outcome := Conclude(d);
        return;
      }
    }
    assert events[consumed..] == [];
  }

  // ---------------------------------------------------------------- mapSiteToModel

  datatype DomainModel = DomainModel(id: TfString, name: TfString, domainType: TfString)

  datatype EnvironmentModel = EnvironmentModel(
    id: TfString,
    name: TfString,
    displayName: TfString,
    isPremium: TfBool,
    isBlocked: TfBool,
    domains: seq<DomainModel>,
    primaryDomain: DomainModel)

  /** SiteResourceModel: the resource's state. */
  datatype SiteResourceModel = SiteResourceModel(
    id: TfString,
    name: TfString,
    displayName: TfString,
    companyId: TfString,
    status: TfString,
    environments: Tf<seq<EnvironmentModel>>)

  /** The object a domain becomes. */
  function DomainObject(d: Domain): DomainModel {
    DomainModel(Known(d.id), Known(d.name), Known(d.domainType))
  }

  /** An environment object shows its environment: scalars, primary domain, and every domain in order. */
  predicate ShowsEnvironment(m: EnvironmentModel, e: Environment) {
    && m.id == Known(e.id) && m.name == Known(e.name) && m.displayName == Known(e.displayName)
    && m.isPremium == Known(e.isPremium) && m.isBlocked == Known(e.isBlocked)
    && |m.domains| == |e.domains|
    && (forall j :: 0 <= j < |e.domains| ==> m.domains[j] == DomainObject(e.domains[j]))
    && m.primaryDomain == DomainObject(e.primaryDomain)
  }

  /** A site state shows a site: every field, and every environment in count and order. */
  predicate ShowsSite(data: SiteResourceModel, site: SiteDetails) {
    && data.id == Known(site.id) && data.name == Known(site.name)
    && data.displayName == Known(site.displayName) && data.companyId == Known(site.companyId)
    && data.status == Known(site.status)
    && data.environments.Known?
    && |data.environments.value| == |site.environments|
    && (forall i :: 0 <= i < |site.environments| ==> ShowsEnvironment(data.environments.value[i], site.environments[i]))
  }

  /**
   * mapSiteToModel: overwrites every field of the state from the site, filling the
   * environment list, and each environment's domain list, by index.
   */
  method MapSiteToModel(site: SiteDetails) returns (data: SiteResourceModel)
    ensures ShowsSite(data, site)
  {
    var environments := new EnvironmentModel[|site.environments|];
    for i := 0 to |site.environments|
      invariant forall k :: 0 <= k < i ==> ShowsEnvironment(environments[k], site.environments[k])
    {
      var env := site.environments[i];
      var domains := new DomainModel[|env.domains|];
      for j := 0 to |env.domains|
        modifies domains
        invariant forall m :: 0 <= m < j ==> domains[m] == DomainObject(env.domains[m])
      {
        domains[j] := DomainObject(env.domains[j]);
      }
      environments[i] := EnvironmentModel(Known(env.id), Known(env.name), Known(env.displayName),
                                          Known(env.isPremium), Known(env.isBlocked),
                                          domains[..], DomainObject(env.primaryDomain));
    }
    data := SiteResourceModel(Known(site.id), Known(site.name), Known(site.displayName),
                              Known(site.companyId), Known(site.status), Known(environments[..]));
  }

  // ---------------------------------------------------------------- Create

  /** The end of a site Create; AwaitingOperation when the events given do not end the wait. */
  datatype CreateOutcome = Created(state: SiteResourceModel) | CreateFailed(diagnostic: Diagnostic) | AwaitingOperation

  /**
   * SiteResource.Create: submit the create request, wait for its operation, then fetch the
   * site by the id the wait returned. `submit`, `events` and `fetch` are what the POST, the
   * wait's channels and the GET deliver.
   */
  method CreateSite(plan: SiteResourceModel, submit: Result<OperationResponse, ApiError>,
                    events: seq<Event>, fetch: Result<Site, ApiError>)
    returns (outcome: CreateOutcome, request: CreateSiteRequest, calls: seq<Call>)
    ensures request == CreateSiteRequest(ValueString(plan.companyId), ValueString(plan.displayName))
    ensures |calls| >= 1 && calls[0] == Call("POST", "/sites")
    ensures submit.Failure? ==>
              && outcome == CreateFailed(ClientError("create", "site", submit.error.text))
              && |calls| == 1
    ensures submit.Success? ==>
              var (w, n) := Wait(events);
              var polls := StatusPolls(submit.value.operationId, TickCount(events[..n]));
              && (w.SiteId? ==> calls == [Call("POST", "/sites")] + polls + [Call("GET", ItemPath(Sites, w.id))])
              && (!w.SiteId? ==> calls == [Call("POST", "/sites")] + polls)
              && (w.WaitError? ==> outcome == CreateFailed(Diagnostic("Operation Error", "Site creation operation failed: " + w.message)))
              && (w.StillWaiting? ==> outcome == AwaitingOperation)
              && (w.SiteId? && fetch.Failure? ==>
                    outcome == CreateFailed(ClientError("read created", "site", fetch.error.text)))
              && (w.SiteId? && fetch.Success? ==> outcome.Created? && ShowsSite(outcome.state, fetch.value.site))
    ensures outcome.Created? ==> submit.Success? && Wait(events).0.SiteId? && fetch.Success?
  {
    request := CreateSiteRequest(ValueString(plan.companyId), ValueString(plan.displayName));
    calls := [Call("POST", CollectionPath(Sites))];
    if submit.Failure? {
      outcome := CreateFailed(ClientError("create", "site", submit.error.text));
      return;
    }
    var waited, polls, _ := WaitForOperation(submit.value.operationId, events);
    calls := calls + polls;
    match waited
    case StillWaiting =>
      outcome := AwaitingOperation;
    case WaitError(m) =>
      outcome := CreateFailed(Diagnostic("Operation Error", "Site creation operation failed: " + m));
    case SiteId(siteId) =>
      calls := calls + [Call("GET", ItemPath(Sites, siteId))];
      if fetch.Failure? {
        outcome := CreateFailed(ClientError("read created", "site", fetch.error.text));
      } else {
        var state := MapSiteToModel(fetch.value.site);
        outcome := Created(state);
      }
  }

  // ---------------------------------------------------------------- Read, Update, Delete

  /** SiteResource.Read: fetches the state's id and maps the whole site, or reports the client error. */
  method ReadSite(state: SiteResourceModel, fetched: Result<Site, ApiError>)
    returns (id: string, outcome: Outcome<SiteResourceModel>)
    ensures id == ValueString(state.id)
    ensures fetched.Failure? ==> outcome == Failed(ClientError("read", "site", fetched.error.text))
    ensures fetched.Success? ==> outcome.Saved? && ShowsSite(outcome.state, fetched.value.site)
  {
    id := ValueString(state.id);
    if fetched.Failure? {
      return id, Failed(ClientError("read", "site", fetched.error.text));
    }
    var data := MapSiteToModel(fetched.value.site);
    outcome := Saved(data);
  }

  /** SiteResource.Update: sends the plan's display name, then maps the whole site returned. */
  method UpdateSite(plan: SiteResourceModel, updated: Result<Site, ApiError>)
    returns (id: string, req: UpdateSiteRequest, outcome: Outcome<SiteResourceModel>)
    ensures id == ValueString(plan.id)
    ensures req == UpdateSiteRequest(Some(ValueString(plan.displayName)))
    ensures updated.Failure? ==> outcome == Failed(ClientError("update", "site", updated.error.text))
    ensures updated.Success? ==> outcome.Saved? && ShowsSite(outcome.state, updated.value.site)
  {
    id := ValueString(plan.id);
    req := UpdateSiteRequest(Some(ValueString(plan.displayName)));
    if updated.Failure? {
      return id, req, Failed(ClientError("update", "site", updated.error.text));
    }
    var data := MapSiteToModel(updated.value.site);
    outcome := Saved(data);
  }

  /** SiteResource.Delete: the id deleted and, when the call failed, the client error. */
  method DeleteSite(state: SiteResourceModel, err: Option<ApiError>) returns (id: string, diagnostics: seq<Diagnostic>)
    ensures id == ValueString(state.id)
    ensures err.None? <==> diagnostics == []
    ensures err.Some? ==> diagnostics == [ClientError("delete", "site", err.value.text)]
  {
    id := ValueString(state.id);
    diagnostics := [];
    if err.Some? {
      diagnostics := [ClientError("delete", "site", err.value.text)];
    }
  }
}
