# Sevalla Terraform provider — a Dafny model of its core

This project models the core of the Terraform provider for the Sevalla platform. That core has four parts:

- **HTTP client and services.** They build authenticated requests, turn a status of 400 or more into an error through `handleError`, and fix the path of every API call. Two database calls have logic of their own. Create is a POST, then up to three GETs with a sleep between them. Update is a PUT, then a GET only when the PUT succeeded.
- **Provider `Configure`.** It decides the token and the base URL, and hands one client to every resource and data source.
- **Resource and data-source adapters.** They turn a Terraform plan into partial create and update requests, and write API responses back into the state:
  - the static-site, database and pipeline resources;
  - the static-site data source;
  - the WordPress-site resource, including its asynchronous Create. That Create submits the site, polls the operation until it ends, then fetches the new site.
- **Performance helpers.** These are the environment-driven `PerformanceConfig` with its `Validate` repair, and the TTL response cache with its cache-aside getters.

Some inputs the model cannot compute are taken as parameters:

- what the network delivers;
- what the JSON decoder produced;
- the clock;
- the ticker, deadline and cancellation channels;
- the environment;
- the `strconv`/`time` parsers.

With these inputs the model covers the core listed above; the parts of the repository outside it are named under "Left out".

Framework values (`types.String`, `types.Bool`, `types.Int64`) are `Tf<T>`: null, unknown or known. `ValueString`/`ValueBool` give the zero value for null and unknown, as the framework does. A Go `(value, error)` pair is a `Result`, and a nil pointer is `None`.

The code is pure where the source is pure. It is imperative where the source changes things step by step:

- the database-create retry loop;
- the operation poller's loop;
- the nested loops of `mapSiteToModel` and the deployments loop, over arrays;
- the cache's map, mutated in place by `Set`, `Clear`, `ClearExpired` and `InvalidateCache`;
- the configuration object rewritten by the loaders and by `Validate`;
- the adapters' conditional request building and field-by-field state updates.

Each such method is proved equal to a function, or to a predicate, that fixes its whole result. Lemmas about those functions give the properties: round trips, idempotence, what is never overwritten, and which JSON keys a request carries.

Modules:

- `Wrappers`: `Option` and `Result`.
- `Models`: API records, requests and their JSON keys, and framework values.
- `Transport`: `client.go`.
- `Services`: `services.go`.
- `SevallaProvider`: `provider.go`.
- `SiteResource`: WordPress sites and the poller.
- `StaticSiteResource`, `DatabaseResource`, `PipelineResource`, `StaticSiteDataSource`: the adapters.
- `PerformanceConfiguration`: `performance_config.go`.
- `ResponseCache`: the cache part of `performance_utils.go`.

## Model

| member | source | states |
|---|---|---|
| `Models.NullableString` | internal/provider/database_resource.go:201-220 | a nil response pointer becomes a null attribute, a set one the known pointee; null exactly when nil |
| `Models.ClientErrorCarriesError` | internal/provider/static_site_resource.go:162-166 | the service's error text is the tail of the detail, so two failures that report the same diagnostic had the same error |
| `Models.ClientError` | internal/provider/static_site_resource.go:162-166 | a failed service call is reported with summary "Client Error" and detail "Unable to <verb> <what>, got error: <error text>" |
| `Transport.Client.constructor` | internal/sevallaapi/client.go:44-58 | an empty base URL becomes https://api.sevalla.com/v2 and a zero timeout 30 s; any other value is kept; the token is passed through unchanged |
| `Transport.Client.MakeRequest` | internal/sevallaapi/client.go:73-98 | a body marshal error wins over a URL error; on success the request has the verb, the joined URL, the bearer token, JSON content type and accept headers, and carries a body exactly when one was given |
| `Transport.TrimLeft` | internal/sevallaapi/client.go:180 | the result is a suffix that does not start with white space, and everything removed is white space |
| `Transport.TrimRight` | internal/sevallaapi/client.go:190 | the result is a prefix that does not end with white space, and everything removed is white space |
| `Transport.TrimSpace` | internal/sevallaapi/client.go:180-190 | the result is an infix of the body with only white space cut off on either side, and neither starts nor ends with white space |
| `Transport.HandleError` | internal/sevallaapi/client.go:168-191 | every error text starts "HTTP <status>: "; an unreadable body gives "failed to read error response"; an undecodable body gives the trimmed raw body; otherwise `message`, then `error`, then the trimmed body |
| `Transport.Get` | internal/sevallaapi/client.go:100-113 | a transport error is returned as a request failure; a status >= 400 always gives the handleError error (and only then an HTTP error); a status below 400 returns the decoded value or the decode error |
| `Transport.Send` | internal/sevallaapi/client.go:115-151 | Post and Put: the same dispatch as Get, except that with no result to fill a success returns nothing and nothing is decoded |
| `Transport.Delete` | internal/sevallaapi/client.go:153-166 | a status >= 400 gives the handleError error; any lower status succeeds without decoding |
| `Transport.FailureStatusIgnoresBody` | internal/sevallaapi/client.go:107-110 | for a status >= 400 the outcome of Get, Post/Put and Delete does not depend on what the success body would decode to, and is always a failure |
| `Transport.ErrorTextChoice` | internal/sevallaapi/client.go:179-190 | after the status prefix, a decodable error body yields its message if non-empty, else its error if non-empty, else the trimmed raw body |
| `Services.ItemPathDeterminesId` | internal/sevallaapi/services.go:149-153 | the id is what follows "/<kind>/": two equal item paths address the same id |
| `Services.KindsDoNotCollide` | internal/sevallaapi/services.go:19-272 | item paths of two different resource kinds never coincide, whatever the ids |
| `Services.DatabaseGetPathShape` | internal/sevallaapi/services.go:72-78 | the database Get path is "/databases/<id>?internal=true&external=true", the item path plus the required query |
| `Services.CreateDatabase` | internal/sevallaapi/services.go:80-106 | a failed POST returns its error with no GET; otherwise 1 to 3 GETs of the created id, one sleep between consecutive GETs, stopping at the first success; after three failures the last error is returned |
| `Services.UpdateDatabase` | internal/sevallaapi/services.go:108-123 | a failed PUT returns its error and fetches nothing; a successful one is followed by a GET of the full record, whose outcome is the result |
| `Services.NilOnError` | internal/sevallaapi/services.go:62-70 | an error discards whatever was decoded: the items are empty and the error is returned; without error, the decoded items |
| `Services.ListDatabases` | internal/sevallaapi/services.go:62-70 | GET "/databases?company=<id>"; the items under company.databases.items, or none with the error |
| `Services.ListStaticSites` | internal/sevallaapi/services.go:139-147 | GET "/static-sites?company=<id>"; the items, or none with the error |
| `Services.ListSites` | internal/sevallaapi/services.go:242-250 | GET "/sites?company=<id>"; the sites under company, or none with the error |
| `Services.ServiceCall` | internal/sevallaapi/services.go:19-272 | every other service method is one call: POST to the collection, PUT/DELETE/GET to "/<kind>/<id>", the database GET with its query |
| `SevallaProvider.ResolvedToken` | internal/provider/provider.go:75-80 | a configured token is used whenever it is not null, even when empty; a null one falls back to SEVALLA_TOKEN |
| `SevallaProvider.ResolvedBaseURL` | internal/provider/provider.go:76-84 | a configured base URL is used whenever it is not null; a null one gives the default URL |
| `SevallaProvider.Configure` | internal/provider/provider.go:61-116 | a decode error stops Configure; an empty resolved token gives only "Unable to find token" and no client; otherwise no diagnostic, and resources and data sources get the same fresh client with the resolved token, base URL (empty becomes the default) and the default timeout |
| `SevallaProvider.ConfiguredEmptyTokenWins` | internal/provider/provider.go:78-94 | a token configured as "" is not replaced by the environment's, so Configure reports the missing token |
| `SevallaProvider.EmptyBaseURLBecomesDefault` | internal/provider/provider.go:82-84 | a base URL configured as "" reaches the client as the default URL |
| `SiteResource.PollDecision` | internal/provider/site_resource.go:302-322 | only "completed" resolves: to resource_id when non-empty, else to a string data.site_id, else "site ID not found"; "failed" gives its error text or "unknown error"; every other status keeps polling, and only those |
| `SiteResource.EmptySiteIdResolves` | internal/provider/site_resource.go:309-313 | an empty string under data.site_id is accepted as the site id |
| `SiteResource.EventDecision` | internal/provider/site_resource.go:296-327 | a failed status lookup ends the wait with "failed to get operation status: …"; the deadline and cancellation always end it with an error; only a completed lookup resolves |
| `SiteResource.Wait` | internal/provider/site_resource.go:294-328 | the reference definition of the loop: the outcome and the number of events consumed, never more than were given |
| `SiteResource.StatusPolls` | internal/provider/site_resource.go:296-297 | n status lookups are n GETs of "/operations/<id>" |
| `SiteResource.WaitStopsAtFirstEnd` | internal/provider/site_resource.go:294-328 | the wait ends at the first event that does not poll again, with that event's verdict; it is still waiting exactly when no event ends it, having consumed all |
| `SiteResource.SuccessOnlyFromCompleted` | internal/provider/site_resource.go:296-327 | an id comes only from a lookup of a completed operation; a deadline, a cancellation or a failed lookup as the first event ends the wait with an error at once |
| `SiteResource.PendingRunningCompleted` | internal/provider/site_resource.go:302-307 | pending, running, completed with a resource id: that id after three lookups |
| `SiteResource.FailedWithError` | internal/provider/site_resource.go:317-319 | a failed operation's error text is surfaced as "operation failed: <text>" |
| `SiteResource.WaitForOperation` | internal/provider/site_resource.go:289-329 | the loop agrees with Wait, and performs one status GET per tick consumed and none after the wait has ended |
| `SiteResource.MapSiteToModel` | internal/provider/site_resource.go:332-422 | every site attribute is set from the response, and the environments and each environment's domains appear with the same count and order, plus the primary domain |
| `SiteResource.CreateSite` | internal/provider/site_resource.go:179-223 | POST /sites with company and display name; a submit failure, an operation error or a failed fetch each give their own diagnostic; on success, polls then GET /sites/<id> of the id the wait returned, and the state shows that site |
| `SiteResource.ReadSite` | internal/provider/site_resource.go:225-243 | fetches the state's id; the state then shows the whole site, or the read error is reported |
| `SiteResource.UpdateSite` | internal/provider/site_resource.go:245-267 | sends only the plan's display name; the state then shows the whole returned site, or the update error is reported |
| `SiteResource.DeleteSite` | internal/provider/site_resource.go:269-282 | deletes the state's id; a diagnostic exactly when the call failed |
| `StaticSiteResource.PointerIfSet` | internal/provider/static_site_resource.go:224-251 | a pointer exactly when the plan attribute is not null, to its value |
| `StaticSiteResource.CreateRequestFor` | internal/provider/static_site_resource.go:145-154 | company_id, display_name and repo_url copied; branch set exactly when default_branch is not null; the JSON keys are those three plus branch in that case |
| `StaticSiteResource.UpdateRequestFor` | internal/provider/static_site_resource.go:224-251 | each of the six fields is set exactly when its plan attribute is not null, with that value; the JSON body holds exactly the keys of the non-null attributes |
| `StaticSiteResource.BuildCreateRequest` | internal/provider/static_site_resource.go:145-154 | the step-by-step construction yields the create request above |
| `StaticSiteResource.BuildUpdateRequest` | internal/provider/static_site_resource.go:224-251 | the six conditional assignments yield the update request above |
| `StaticSiteResource.AllNullPlanSendsNothing` | internal/provider/static_site_resource.go:224-251 | a plan with every optional attribute null sends an empty JSON object |
| `StaticSiteResource.Refreshed` | internal/provider/static_site_resource.go:168-180 | after Create/Read the nine attributes show the response; build_command is replaced only when the response has one; company_id, node_version and published_directory are never written |
| `StaticSiteResource.Repopulated` | internal/provider/static_site_resource.go:259-264 | after Update only id, name, display_name, status, auto_deploy and default_branch change; every other attribute keeps its plan value |
| `StaticSiteResource.RefreshIsIdempotent` | internal/provider/static_site_resource.go:201-213 | reading the same response twice leaves what reading it once does |
| `StaticSiteResource.ReadAfterUpdate` | internal/provider/static_site_resource.go:259-264 | a Read after an Update, given the same record, ends where a Read alone would |
| `StaticSiteResource.RefreshDependsOnlyOnUnmanaged` | internal/provider/static_site_resource.go:168-180 | the state after Create/Read depends on the prior state only through the attributes no response writes, and build_command when the response has none |
| `StaticSiteResource.ApplyStaticSite` | internal/provider/static_site_resource.go:168-180 | the field-by-field assignments of Create and Read yield Refreshed |
| `StaticSiteResource.ApplyUpdated` | internal/provider/static_site_resource.go:259-264 | the field-by-field assignments of Update yield Repopulated |
| `StaticSiteResource.Create` | internal/provider/static_site_resource.go:137-185 | sends the create request; a failure gives "Unable to create static site, got error: …"; success saves the refreshed state |
| `StaticSiteResource.Read` | internal/provider/static_site_resource.go:187-216 | fetches the state's id; the read error, or the refreshed state |
| `StaticSiteResource.Update` | internal/provider/static_site_resource.go:218-267 | sends the update request for the plan's id; the update error, or the repopulated state |
| `StaticSiteResource.Delete` | internal/provider/static_site_resource.go:269-282 | deletes the state's id; a diagnostic exactly when the call failed |
| `DatabaseResource.CreateRequestFor` | internal/provider/database_resource.go:164-177 | eight attributes copied verbatim; db_user is the plan's when not null, else empty; the db_user key is sent exactly when the plan holds a known non-empty user |
| `DatabaseResource.UpdateRequestFor` | internal/provider/database_resource.go:280-286 | display_name is always sent; resource_type exactly when it is not null, with its value |
| `DatabaseResource.DbUserGuardIsRedundant` | internal/provider/database_resource.go:175-177 | the null guard on db_user makes no difference: the request always holds the plan's ValueString |
| `DatabaseResource.BuildCreateRequest` | internal/provider/database_resource.go:164-177 | the step-by-step construction yields the create request above |
| `DatabaseResource.BuildUpdateRequest` | internal/provider/database_resource.go:280-286 | the conditional construction yields the update request above |
| `DatabaseResource.Refreshed` | internal/provider/database_resource.go:194-220 | after Create/Read id, name, display_name, status, type and version show the response; each connection attribute is null exactly when the response has none, else its value; company_id, location, resource_type, db_name, db_password and db_user are never written |
| `DatabaseResource.Repopulated` | internal/provider/database_resource.go:294-297 | after Update only id, name, display_name and status change; the connection attributes, type and version keep their plan values |
| `DatabaseResource.RefreshDependsOnlyOnUnmanaged` | internal/provider/database_resource.go:194-220 | Create and Read apply one mapping: the state depends only on the response and the plan-only attributes |
| `DatabaseResource.RefreshIsIdempotent` | internal/provider/database_resource.go:241-267 | reading the same record again changes nothing |
| `DatabaseResource.ReadAfterUpdate` | internal/provider/database_resource.go:294-297 | a Read after an Update, given the same record, ends where a Read alone would |
| `DatabaseResource.ApplyDatabase` | internal/provider/database_resource.go:194-220 | the assignments and null-or-value branches of Create and Read yield Refreshed |
| `DatabaseResource.ApplyUpdated` | internal/provider/database_resource.go:294-297 | the assignments of Update yield Repopulated |
| `DatabaseResource.Create` | internal/provider/database_resource.go:156-225 | sends the create request; a failure gives "Unable to create database, got error: …"; success saves the refreshed state |
| `DatabaseResource.Read` | internal/provider/database_resource.go:227-270 | fetches the state's id; the read error, or the refreshed state |
| `DatabaseResource.Update` | internal/provider/database_resource.go:272-300 | sends the update request for the plan's id; the update error, or the repopulated state |
| `DatabaseResource.Delete` | internal/provider/database_resource.go:302-315 | deletes the state's id; a diagnostic exactly when the call failed |
| `PipelineResource.CreateRequestFor` | internal/provider/pipeline_resource.go:121-124 | display_name is the plan's name and is the only key sent; app_id is never sent |
| `PipelineResource.UpdateRequestFor` | internal/provider/pipeline_resource.go:186-189 | display_name is always the plan's name, and is the only key sent |
| `PipelineResource.RequestsDependOnlyOnName` | internal/provider/pipeline_resource.go:121-124 | two plans with the same name send the same create and update requests, whatever their other attributes |
| `PipelineResource.Created` | internal/provider/pipeline_resource.go:133-143 | id and name from the response; a null branch becomes "main" and a null auto_deploy true, set values kept; created_at and updated_at are ""; app_id as planned |
| `PipelineResource.Refreshed` | internal/provider/pipeline_resource.go:168-169 | Read changes only id and name; app_id, branch, auto_deploy and the timestamps keep their state values |
| `PipelineResource.Repopulated` | internal/provider/pipeline_resource.go:198-200 | Update changes only id, name and updated_at (to "") |
| `PipelineResource.ReadAfterCreateIsStable` | internal/provider/pipeline_resource.go:133-169 | a Read of the record just created changes nothing |
| `PipelineResource.UpdateAfterCreateIsStable` | internal/provider/pipeline_resource.go:133-200 | an Update of freshly created data with the same record changes nothing |
| `PipelineResource.CreateDefaultsAreIdempotent` | internal/provider/pipeline_resource.go:136-141 | the defaults apply once: creating from an already created state changes nothing |
| `PipelineResource.ApplyCreated` | internal/provider/pipeline_resource.go:133-143 | the assignments and conditional defaults of Create yield Created |
| `PipelineResource.Create` | internal/provider/pipeline_resource.go:111-149 | sends the create request; a failure gives "Unable to create pipeline, got error: …"; success saves the created state |
| `PipelineResource.Read` | internal/provider/pipeline_resource.go:151-174 | fetches the state's id; the read error, or the refreshed state |
| `PipelineResource.Update` | internal/provider/pipeline_resource.go:176-204 | sends the update request for the plan's id; the update error, or the repopulated state |
| `PipelineResource.Delete` | internal/provider/pipeline_resource.go:206-221 | deletes the state's id; a diagnostic exactly when the call failed |
| `StaticSiteDataSource.DeploymentObject` | internal/provider/static_site_data_source.go:220-244 | a deployment becomes an object with its fields; a nil commit message is "", never null |
| `StaticSiteDataSource.ShownDataIsDetermined` | internal/provider/static_site_data_source.go:198-244 | the data read is determined by the response and the configured company_id: nothing else of the configuration survives |
| `StaticSiteDataSource.ConvertDeployments` | internal/provider/static_site_data_source.go:218-244 | the deployments list has the response's length and order, each element its deployment's object |
| `StaticSiteDataSource.Read` | internal/provider/static_site_data_source.go:179-258 | fetches the configured id; on success every scalar including created_at and updated_at equals the response's, build_command is null exactly when the response has none, and the deployments are converted in order; on failure the read error |
| `PerformanceConfiguration.Wrap64` | internal/provider/performance_config.go:192 | Go's 64-bit int arithmetic: an in-range result is exact, an out-of-range one is off by exactly 2^64 |
| `PerformanceConfiguration.PositiveOr` | internal/provider/performance_config.go:187-189 | a value that is not positive is replaced by the fallback; a positive one is kept |
| `PerformanceConfiguration.NonNegativeOr` | internal/provider/performance_config.go:223-225 | a negative value is replaced by the fallback; zero and positive ones are kept |
| `PerformanceConfiguration.RepairedBurst` | internal/provider/performance_config.go:191-193 | a burst that is not positive becomes twice the limit, computed in 64-bit int; a positive one is kept |
| `PerformanceConfiguration.Validated` | internal/provider/performance_config.go:186-236 | Validate's effect as a value; the three enable flags are never touched |
| `PerformanceConfiguration.ValidatedIsInRange` | internal/provider/performance_config.go:186-236 | after Validate every limit, size and duration is positive and the retry count is not negative; the burst is positive when doubling the limit fits in an int |
| `PerformanceConfiguration.ValidatedKeepsInRange` | internal/provider/performance_config.go:186-236 | every setting already in range (zero retries included) is left unchanged |
| `PerformanceConfiguration.BurstFollowsLimit` | internal/provider/performance_config.go:187-193 | a missing limit and burst become 10 and 20; a missing burst with a valid limit becomes twice that limit |
| `PerformanceConfiguration.NegativeRetriesReset` | internal/provider/performance_config.go:223-225 | a negative retry count is reset to 3 |
| `PerformanceConfiguration.BurstCanWrapNegative` | internal/provider/performance_config.go:191-193 | a limit of 2^62 with a zero burst leaves the burst at the smallest int: the doubling wraps |
| `PerformanceConfiguration.ValidatedIdempotent` | internal/provider/performance_config.go:186-236 | validating twice is validating once |
| `PerformanceConfiguration.DefaultsAreValid` | internal/provider/performance_config.go:38-65 | DefaultPerformanceConfig is left unchanged by Validate |
| `PerformanceConfiguration.Override` | internal/provider/performance_config.go:82-92 | a variable replaces the setting only when it is non-empty and parses; otherwise the setting is kept |
| `PerformanceConfiguration.LoadCacheReadsOwnFields` | internal/provider/performance_config.go:81-93 | loadCacheConfig loads the two cache settings from their variables and leaves every other setting alone |
| `PerformanceConfiguration.LoadRateLimitReadsOwnFields` | internal/provider/performance_config.go:96-114 | loadRateLimitConfig loads the three rate-limit settings and leaves every other setting alone |
| `PerformanceConfiguration.LoadBatchReadsOwnFields` | internal/provider/performance_config.go:117-135 | loadBatchConfig loads the three batch settings and leaves every other setting alone |
| `PerformanceConfiguration.LoadConnectionReadsOwnFields` | internal/provider/performance_config.go:138-162 | loadConnectionConfig loads the four connection settings and leaves every other setting alone |
| `PerformanceConfiguration.LoadRequestReadsOwnFields` | internal/provider/performance_config.go:165-183 | loadRequestConfig loads the three request settings and leaves every other setting alone |
| `PerformanceConfiguration.FromEnvReadsOwnVariable` | internal/provider/performance_config.go:68-78 | each loaded setting is its default unless its own variable holds text its own parser accepts, then the parsed value |
| `PerformanceConfiguration.FromEnvFieldDependsOnlyOnItsVariable` | internal/provider/performance_config.go:68-183 | environments that agree on a setting's variable give that setting the same value |
| `PerformanceConfiguration.EmptyEnvironmentGivesDefaults` | internal/provider/performance_config.go:68-78 | with no variable set the loaded configuration is the default one |
| `PerformanceConfiguration.PerformanceConfig.Default` | internal/provider/performance_config.go:38-65 | a configuration holding the default values |
| `PerformanceConfiguration.PerformanceConfig.LoadCacheConfig` | internal/provider/performance_config.go:81-93 | the in-place updates give the cache loader's result |
| `PerformanceConfiguration.PerformanceConfig.LoadRateLimitConfig` | internal/provider/performance_config.go:96-114 | the in-place updates give the rate-limit loader's result |
| `PerformanceConfiguration.PerformanceConfig.LoadBatchConfig` | internal/provider/performance_config.go:117-135 | the in-place updates give the batch loader's result |
| `PerformanceConfiguration.PerformanceConfig.LoadConnectionConfig` | internal/provider/performance_config.go:138-162 | the in-place updates give the connection loader's result |
| `PerformanceConfiguration.PerformanceConfig.LoadRequestConfig` | internal/provider/performance_config.go:165-183 | the in-place updates give the request loader's result |
| `PerformanceConfiguration.PerformanceConfig.Validate` | internal/provider/performance_config.go:186-236 | the twelve conditional repairs, each seeing the ones before it, give Validated of the old settings; the error is always nil |
| `PerformanceConfiguration.LoadPerformanceConfigFromEnv` | internal/provider/performance_config.go:68-78 | a fresh configuration: the defaults with the five groups loaded in turn |
| `ResponseCache.ExpiryIsStrict` | internal/provider/performance_utils.go:20-22 | an entry exactly as old as its TTL is still live; one nanosecond later it has expired |
| `ResponseCache.Lookup` | internal/provider/performance_utils.go:38-49 | a key is found exactly when present and not expired, with its stored data |
| `ResponseCache.Live` | internal/provider/performance_utils.go:71-81 | exactly the unexpired entries are kept, each unchanged |
| `ResponseCache.SetThenGetHits` | internal/provider/performance_utils.go:38-61 | data stored at t with TTL d is found at every time up to t + d |
| `ResponseCache.SetThenGetExpires` | internal/provider/performance_utils.go:38-61 | after t + d the stored data is no longer found |
| `ResponseCache.SetLeavesOtherKeys` | internal/provider/performance_utils.go:51-61 | storing under one key changes no other key's lookup |
| `ResponseCache.LiveKeepsEveryLookup` | internal/provider/performance_utils.go:71-81 | dropping the expired entries changes no lookup made at the same time |
| `ResponseCache.DeleteRemovesOnlyThatKey` | internal/provider/performance_utils.go:467-474 | deleting a key makes it miss and changes no other key's lookup |
| `ResponseCache.ProviderCache.constructor` | internal/provider/performance_utils.go:31-36 | a new cache is empty |
| `ResponseCache.ProviderCache.Get` | internal/provider/performance_utils.go:38-49 | the entry's data when present and live; a miss otherwise, changing nothing |
| `ResponseCache.ProviderCache.Set` | internal/provider/performance_utils.go:51-61 | adds or replaces the one entry, stamped now with the given TTL |
| `ResponseCache.ProviderCache.Clear` | internal/provider/performance_utils.go:63-69 | an empty map: every later lookup misses |
| `ResponseCache.ProviderCache.ClearExpired` | internal/provider/performance_utils.go:71-81 | the deleting loop over the keys leaves exactly the live entries |
| `ResponseCache.CacheKeysOfKindsDiffer` | internal/provider/performance_utils.go:318-438 | keys of two different kinds never coincide, so a getter never sees another kind's entry under its own key |
| `ResponseCache.CacheKeyDeterminesId` | internal/provider/performance_utils.go:467-468 | within a kind, the key determines the id |
| `ResponseCache.PerformanceOptimizedClient.constructor` | internal/provider/performance_utils.go:307-315 | the client wraps the given cache |
| `ResponseCache.PerformanceOptimizedClient.GetCached` | internal/provider/performance_utils.go:317-405 | the application, database and static-site getters, and GetPipelineCached at performance_utils.go:437-465: a live entry of the right type is returned without a call; otherwise a rate-limiter error or a fetch error is returned and nothing is stored; a fetched value is stored for five minutes and returned |
| `ResponseCache.PerformanceOptimizedClient.InvalidateCache` | internal/provider/performance_utils.go:467-474 | removes the one entry under type + ":" + id |
| `ResponseCache.PerformanceOptimizedClient.ClearCache` | internal/provider/performance_utils.go:476-479 | the cache is then empty |

## Left out

- The exchange itself is not modelled: `http.Client.Do`, `url.JoinPath`, `json.Marshal`, the JSON decoder and `io.ReadAll`. Their outcomes are inputs. A `Transport.ApiError`'s text is the Go error string.
- Transport.Client.MakeRequest: the "failed to create request" error of `http.NewRequestWithContext` is not modelled. With one of the four fixed verbs and a URL that `url.JoinPath` accepted, it can only come from a nil context, which the provider never passes.
- `NewClient`'s wiring of the eight service objects is not modelled. Each service is stateless over the client, and the services are modelled as the calls they make.
- The pipeline convenience methods `GetPipeline`, `CreatePipeline`, `UpdatePipeline` and `DeletePipeline` are not modelled. They are one-line pass-throughs to the pipeline service.
- Some service methods are left out: the application, deployment and pipeline `List` methods and `CompanyService.GetUsers` return the decoded value as is. Only their paths are modelled.
- Clocks and timers are inputs, not modelled behaviour:
  - The ticker, the ten-minute deadline and context cancellation in `waitForOperation` are a finite sequence of events. A sequence that never ends the wait gives `StillWaiting`; a longer one would be needed to decide it.
  - The one-second sleeps in the database Create are counted, not slept.
  - The cache's clock is the reading `now` passed to each operation.
- `BatchProcessor`, `RateLimiter` and the cache's `sync.RWMutex` are not modelled. They exist for concurrency. The cache operations run one after another, and the rate limiter's `Wait` is an input that lets the call through or fails.
- The cache's `Stop` is not modelled, since it stops the rate limiter; the cache-clearing half is `ClearCache`.
- `GetObjectStorageCached` and the application and object-storage adapters are not in this model. They use types and services that are absent from the API package they import.
- Framework boilerplate is not modelled: Schema, Metadata, the Configure type assertion, ImportState, logging and token masking. Reading the plan or state surfaces as a decode error only in the provider's `Configure`; in the adapters the plan is taken as already read.
- The straight field copies of the site, company-users, pipeline and database data sources are not modelled. They have no branching of their own, and the database one repeats `DatabaseResource.Refreshed`.
- `NewSiteResource` is not listed in the provider's `Resources` (internal/provider/provider.go:118-126), so the site resource is not reachable from Terraform. It is modelled for its poller.
- Parsing of environment values is taken as parameters, and so is `os.Getenv` (an environment map; unset reads as ""). The parameters are `strconv.ParseBool`, `strconv.Atoi` and `time.ParseDuration`.
- `PerformanceConfig`'s fifteen fields are held as one `Settings` value. Every statement of the loaders and of `Validate` updates it in turn.
- PerformanceConfiguration.ValidatedIsInRange: the burst is promised positive only when twice the repaired per-second limit fits in a 64-bit `int`. For larger limits Go's multiplication wraps, and `BurstCanWrapNegative` shows the burst left at the smallest `int`.
- Transport.HandleError: the error body is a Go `[]byte` converted to a string, here a sequence of Unicode code points. Bytes that are not valid UTF-8, which `strings.TrimSpace` reads as U+FFFD and does not trim, are outside the model.
- ResponseCache.PerformanceOptimizedClient.GetCached: the four typed getters share one body over the kind. The Go type assertion is the predicate `HoldsKind`. A nil result with a nil error from a service is not distinguished from a value.
