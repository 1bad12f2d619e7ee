# Accessgate: a verified model of its protocols and codecs

Accessgate is an authentication service and an authorizing proxy. This project models the parts
of it whose correctness lies in runs, loops and arithmetic, and proves what they promise for every
input and every run. `dafny verify dfyconfig.toml` checks all of it.

Protocols in which several requests interleave over shared stores are step machines: a state, the
steps a worker or the environment can take, and theorems over every run of steps. Code that changes
its own fields or runs a loop is a class or a method, proved against a function or a property.

- `SessionRefresh`: any number of workers refresh one session through a lock with a time to live,
  against an identity provider that rotates refresh tokens. Every store and provider call may fail,
  with or without effect, and a worker may die at any point. `spoiled` records the tokens whose
  replacement was refused, omitted or lost; for all others the single-use and spacing theorems hold
  as long as every holder finishes within the lock's time to live. Workers of `ensureFresh` need
  nothing else. The refresh endpoint uses the record it read before locking, and attaching a tenant
  writes back without the lock, so both act on a copy. For them the theorems hold on all runs on which
  a copy is acted on only while the stored record still carries its token (`Guarded`), and two lemmas
  show that this condition is exact as long as the record exists; for a record that was removed
  meanwhile it refuses. Runs from a fresh start show what happens without it.
- `SessionCalls`: what a whole call of `ensureFresh`, of the refresh endpoint or of tenant attachment
  returns and leaves behind when nobody disturbs it, for every luck with the stores, the lock and the
  identity provider.
- `SessionRemoval`: a record removed meanwhile comes back exactly if some worker stands between its
  read and its write.
- `Claims`: which identity a session carries over a login and any sequence of refreshes.
- `Login`: login attempts on several connectors, their PKCE records, and callbacks that exchange
  codes at an identity provider anybody may use. Reading and deleting a record are two steps; the
  steps that open the way to a second session for one state are characterized exactly (`Opens`), and
  runs without them create one at most.
- `LoginCalls`: what a whole `LoginEnd` does for every luck, and the successful steps behind every
  session of every run.
- `StartupOrder` and `PluginRegistry`: Kahn's algorithm over a multigraph, and the registry whose
  capability tables produce that graph. Loops over Go maps pick their next key arbitrarily. Edges
  may have been recorded by earlier calls. The verdict of every call is characterized exactly in
  terms of these edges, and it agrees with the descriptors as long as the edges belong to plugins with
  a single provider.
- `Handoff`: one-time tickets with whole-second expiry and a replay record of sub-second lifetime,
  of which the store may lose a configurable amount by rounding.
- `HotReload` and `PolicyWatcher`: the policy poller and the bundle loader with its cache, first as
  a step machine with writes between any two steps, then as the classes themselves, whose ticks
  are shown to be paths of that machine, so that its safety and convergence are theirs.
- `RateLimit`: the token bucket over real numbers.
- `FramePumps`: two goroutines copying gRPC frames and the director that waits for them, first
  interleaved, then each loop on its own as a run of the same machine.
- `Leb128`: the encoders of the WebAssembly bundle generator.
- `Base64Url` and `SignedTokens`: signed cookies with key rotation, and the ticket codec.
- `KeyLayout` and `SessionSweep`: the Redis key namespaces, and deleting a user's sessions by scan.
- `OperationName`: the GraphQL operation lexer.

Where the code and its own description differ, the model follows the code:

- `internal/plugin/registry.go` describes `BuildDependencyGraph` without limiting it to one call,
  but the reverse edges are never cleared. Order and verdict are proved right for a first call and
  for every repeated call that finds edges of single-provider plugins only. On any call a cycle is
  reported if and only if some part of the graph blocks the rest (`Blocks`): so an acyclic registry is
  never refused, and a cycle is missed exactly if nothing blocks. `SecondBuildMisorders` and
  `SecondBuildAcceptsCycle`, over registries that `BuildTwice` and `BuildCyclicTwice` construct, show
  a wrong order and a missed cycle.
- `internal/auth/handoff/handoff.go` calls a ticket redeemable exactly once. A redemption that
  passes the expiry check and reaches the store only after the ticket's last second can be a second
  one; `BoundaryIsExact` gives the exact instant.
- `internal/graphql/parser.go` ends a comment only at a newline, not at a carriage return as the
  GraphQL specification has it (`CarriageReturnDoesNotEndComment`).
- `DeleteSessionsBySubjectEmail` is meant for one connector's sessions; under the default connector
  it also reads the keys of a connector named `session`. The user's sessions there are counted and
  stay, and for each of them the default connector's session of the same id is deleted, whoever owns
  it. `ConfiguredSweepIsExact` says exactly when the sweep is right, `ConfiguredSweepLeaves` what it
  leaves in any case.

## Model

| member | source | states |
|---|---|---|
| SessionRefresh.StepKeepsInv | internal/auth/service/service.go:693-757 | every step of any worker, of the clock or of the store keeps the protocol invariant, whatever fails |
| SessionRefresh.ObtainKeepsInv | internal/redis/redis.go:296-307 | granting, refusing or failing to answer for the lock keeps it: a free lock means no holder is within its time |
| SessionRefresh.PresentKeepsHistory | internal/auth/service/service.go:721-735 | a call with a token not yet used up keeps single use and spacing of the whole call history |
| SessionRefresh.PresentKeepsInv | internal/auth/service/service.go:725-739 | presenting a token keeps the invariant for refusals, rotations and replies without a new token |
| SessionRefresh.PutKeepsInv | internal/auth/service/service.go:752-756 | storing keeps it whether or not the write took effect and was acknowledged, and so does writing back a guarded copy |
| SessionRefresh.ReleaseKeepsInv | internal/redis/redis.go:308-315 | the unconditional delete of the lock keeps it, and so does a delete that fails |
| SessionRefresh.CrashKeepsInv | internal/auth/service/service.go:715-757 | a worker that dies inside the critical section breaks nothing but may spoil one token |
| SessionRefresh.StepKeepsCopies | internal/auth/service/service.go:571-593 | every step keeps what a kept copy is worth: its token was presented since or is still the only one at work, and while it is stored its expiry respects the last grant |
| SessionRefresh.RunKeepsInv | internal/auth/service/service.go:693-757 | both invariants hold in every state of every guarded run of all three roles in which holders stay within the lock's lifetime |
| SessionRefresh.RefreshIsSafe | internal/auth/service/service.go:553-757 | on all such runs: at most one worker in the critical section; a token goes to the provider twice only if its replacement was refused, omitted or lost; other calls keep their distance |
| SessionRefresh.RecordIsTheLastReply | internal/auth/service/service.go:725-751 | on guarded runs, with no call in flight, the stored record is exactly what the last reply made of the record presented: its access token, its lifetime counted from the computation, and the refresh and identity token where one was sent, unless the replacement was refused, omitted or lost |
| SessionRefresh.RefreshedIsTheLastReply | internal/auth/service/service.go:725-757 | a worker leaving with a refreshed session hands out exactly that record |
| SessionRefresh.ServedWasStored | internal/auth/service/service.go:697-757 | on any run, whatever fails, every record handed out was in the store |
| SessionCalls.EnsureFreshCall | internal/auth/service/service.go:693-757 | the outcome, the record and the lock after a call nobody disturbs: not found, fresh, lock error, busy with a second read, gone or fresh under the lock, refused, store failed or refreshed, with the new record field by field |
| SessionCalls.RefreshEndpointCall | internal/auth/service/service.go:571-643 | the same for the refresh endpoint, which needs a refresh token, does not read again and is content without the lock |
| SessionCalls.AttachTenantCall | internal/auth/service/service.go:889-903 | attaching a tenant changes the tenant of the record and nothing else |
| SessionRefresh.EnsureFreshIsGuarded | internal/auth/service/service.go:693-757 | runs of ensureFresh workers alone satisfy the guard without any condition |
| SessionRefresh.EnsureFreshIsSafe | internal/auth/service/service.go:693-757 | hence the same safety on all in-time runs of ensureFresh workers |
| SessionRefresh.GrantIsSafeWhileStored | internal/auth/service/service.go:571-593 | at any point of a guarded run with the record present: a refresh-endpoint caller that locks and presents its copy keeps single use if and only if the record still carries the copy's token or that token is spoiled |
| SessionRefresh.WriteIsSafeWhileStored | internal/auth/service/service.go:897-902 | likewise for a tenant written back with no call in flight, and the next presentation of the token it stored |
| SessionRefresh.LoneEndpointIsGuarded | internal/auth/service/service.go:571-643 | a single refresh-endpoint caller stays within the guard and renews the session, from every start |
| SessionRefresh.FaultFreeSpoilsNothing | internal/auth/service/service.go:721-757 | without failures no token is ever spoiled |
| SessionRefresh.NoTokenTwice | internal/auth/service/service.go:717-735 | on guarded runs without failures no refresh token is presented twice, and two calls are the granted lifetime less the early margin apart |
| SessionRefresh.OneCallPerWindow | pkg/session/session.go:93-95 | if grants last at least L, a window of L less the early margin contains one provider call |
| SessionRefresh.OverrunAdmitsSecondHolder | internal/redis/redis.go:296-315 | while a holder is at work the lock is granted again exactly from the end of its lifetime on, and then two workers are inside |
| SessionRefresh.RefreshEndpointReusesToken | internal/auth/service/service.go:571-593 | from every start with a session due for refresh there is a run without faults on which two unguarded refresh-endpoint callers present one token twice |
| SessionRefresh.AttachTenantRestoresToken | internal/auth/service/service.go:889-903 | likewise a run on which a tenant written back unguarded restores a used token, which is then presented again |
| SessionRemoval.RecordReturnsIffCarried | internal/auth/service/service.go:797-804 | from any state without the record, with any later steps, it comes back if and only if some worker stands between its read and its write |
| SessionRemoval.RefreshRestoresRemovedRecord | internal/auth/service/service.go:717-757 | from every start with a session due for refresh there is a run without faults on which one ensureFresh worker stores the record again after its removal |
| Claims.Session.Login | internal/auth/service/service.go:411-428 | the claims a login stores |
| Claims.Session.ApplyRefreshedClaims | internal/auth/service/service.go:651-670 | the session's claims after a refresh as a function of the old claims and the token's |
| Claims.IdIsTheMappedClaim | internal/auth/service/service.go:482-508 | the authoritative id is the mapped claim, a text as it is and a number in decimal form, and empty for anything else |
| Claims.TextClaimIs | internal/auth/service/service.go:472-477 | only text claims are read as text |
| Claims.LoginStores | internal/auth/service/service.go:411-428 | claim by claim what a login stores: identity, kind, roles, and the token's own claims otherwise |
| Claims.IdentityAfter | internal/auth/service/service.go:651-670 | from any session claims, with a mapped claim, the identity after any refreshes is the latest authoritative id, or before one is seen the earliest non-empty subject |
| Claims.IdentityIsLatestAuthoritative | internal/auth/service/service.go:418-425 | after login and any refreshes the session's sub is the latest non-empty authoritative id of a validated token, else the login subject, else the first subject a refreshed token names |
| Claims.UnmappedIdentityFollowsToken | internal/auth/service/service.go:482-488 | with no mapped claim the identity is the last validated token's own subject |
| Claims.ConfiguredKindStays | internal/auth/service/service.go:664-669 | a configured kind label is on the session after login and every refresh |
| Claims.SuppliedKindSticks | internal/auth/service/service.go:664-669 | without one, the first label any token supplied stays for good |
| Claims.OtherClaimsAreReplaced | internal/auth/service/service.go:654-655 | every other claim, roles included, is the last validated token's |
| Claims.Latest | internal/auth/service/service.go:656-660 | the reference notion of latest: the last non-empty entry, empty only if all are |
| Claims.Earliest | internal/auth/service/service.go:656-663 | the reference notion of earliest: the first non-empty entry, empty only if all are |
| Login.StepKeepsTrace | internal/auth/service/service.go:296-470 | every step keeps each record, callback and session tied to a begun attempt |
| Login.RunKeepsTrace | internal/auth/service/service.go:296-470 | so do all runs, under any interleaving and any failures |
| LoginCalls.LoginStartCall | internal/auth/service/service.go:296-350 | beginning a login stores its record under the connector and the state and changes nothing else |
| LoginCalls.LoginEndCall | internal/auth/service/service.go:353-470 | a LoginEnd nobody disturbs creates exactly one session if there is no error, the record is there, the exchange and the store succeed, and challenge, audience and nonce fit, and none otherwise; the record is deleted whenever it was read |
| LoginCalls.WasEntered | internal/auth/service/service.go:365-445 | on any run a callback is where it is because of a successful step from the stage before |
| LoginCalls.SessionHasItsSteps | internal/auth/service/service.go:353-445 | on any run every session was created by a successful store of a callback that arrived without an error, read its record, got through the exchange and passed validation, in this order |
| Login.SessionTracesToOneAttempt | internal/auth/service/service.go:353-445 | a session belongs to exactly one earlier LoginStart on the same connector, and its code was issued for that attempt's challenge and nonce and for the audience the connector expects |
| Login.StepKeepsOnce | internal/auth/service/service.go:374-382 | with careful steps a record is in the store, with one live callback, or spent on one session |
| Login.RunKeepsOnce | internal/auth/service/service.go:374-382 | on every careful run |
| Login.StateCreatesOneSession | internal/auth/service/service.go:353-470 | on such runs no state creates two sessions, also not across connectors |
| Login.OrderlyIsCareful | internal/auth/service/service.go:374-382 | runs on which all deletes succeed and callbacks for one state do not overlap are careful |
| Login.OpeningIsExact | internal/auth/service/service.go:374-382 | wherever a careful run has got to, a step leaves a careful way open to two sessions of one state if and only if it fails to delete the stored record of a live callback, or reads for a live callback a record that another live one has read |
| Login.OverlapCreatesTwoSessions | internal/auth/service/service.go:374-382 | from every start there is a run with all deletes succeeding on which two callbacks that read the record before either deletes it both create a session |
| Login.FailedDeleteCreatesTwoSessions | internal/auth/service/service.go:374-382 | and a run without overlap on which a failed delete lets a later callback create a second session |
| StartupOrder.PopShrinks | internal/plugin/registry.go:152-162 | every round of the queue loop makes a measure smaller, for any waiting lists, so the loop ends |
| StartupOrder.RelaxEffect | internal/plugin/registry.go:156-161 | walking a waiting list lowers each degree by its number of occurrences and queues exactly those that pass through zero, once |
| StartupOrder.PopKeepsInv | internal/plugin/registry.go:152-162 | a round keeps degrees equal to outstanding edges, or below zero where none is left, the listing duplicate-free and providers first |
| StartupOrder.DrainKeepsInv | internal/plugin/registry.go:151-162 | so does the whole loop |
| StartupOrder.StuckSetHasCycle | internal/plugin/registry.go:164-166 | a set in which every plugin waits for a member of the set contains a cycle |
| StartupOrder.OrderedMeansAcyclic | internal/plugin/registry.go:164-167 | a complete order with providers first excludes every cycle |
| StartupOrder.DrainIsCorrect | internal/plugin/registry.go:132-167 | from any starting queue, with each edge recorded as often as it exists or more often for plugins with one provider: a complete result is a startup order, and the result is incomplete exactly when the graph is cyclic |
| StartupOrder.DrainVerdict | internal/plugin/registry.go:132-167 | for any recorded edges the result is incomplete if and only if some part of the graph holds up the rest, whatever the order of queue and lists; a complete one lists every plugin once, each started when it had received as many edges as it has provider entries |
| StartupOrder.BlockedIsCyclic | internal/plugin/registry.go:164-166 | what holds up the rest leaves a cycle outside it |
| StartupOrder.RepeatedVerdict | internal/plugin/registry.go:118-167 | the same for one recording on top of any earlier edges, in terms of those |
| PluginRegistry.Registry.constructor | internal/plugin/registry.go:33-40 | an empty consistent registry |
| PluginRegistry.Registry.Register | internal/plugin/registry.go:53-71 | refuses a known id and changes nothing, else adds one enabled plugin to all tables, listed last under each of its capabilities, and keeps them consistent |
| PluginRegistry.Registry.Enable | internal/plugin/registry.go:74-81 | enables a known plugin, reports an unknown one |
| PluginRegistry.Registry.Disable | internal/plugin/registry.go:84-91 | disables a known plugin, reports an unknown one |
| PluginRegistry.Registry.ResolveByCapability | internal/plugin/registry.go:94-103 | the descriptors of the enabled plugins listed for the capability in order of registration; these are exactly the registered and enabled plugins that provide it |
| PluginRegistry.Registry.RecordEdges | internal/plugin/registry.go:120-130 | names an unmet dependency, or there is none and each edge was appended as often as it is required and provided; in both cases only requirements are recorded |
| PluginRegistry.Registry.CountProviders | internal/plugin/registry.go:133-141 | the number of providers of every plugin with repetitions |
| PluginRegistry.Registry.QueueFree | internal/plugin/registry.go:143-148 | each plugin of degree zero once, in any order |
| PluginRegistry.Registry.RunQueue | internal/plugin/registry.go:150-162 | the queue loop ends and computes the drained order |
| PluginRegistry.Registry.BuildDependencyGraph | internal/plugin/registry.go:118-168 | on every call: an unmet dependency exactly if there is one, else a cycle error if and only if some part of the graph gives each plugin outside it fewer earlier edges than that plugin has provider entries outside, which only happens in a cyclic registry, else an order of all ids; on calls that find edges of single-provider plugins only, first calls among them, a cycle error exactly if the requirements have a cycle and an order with every provider strictly before every plugin requiring it; a failure keeps the previous order |
| PluginRegistry.Registry.ComputeOrder | internal/plugin/registry.go:132-162 | the loop runs from the resolved degrees over all edges recorded so far |
| PluginRegistry.AddCapsCounts | internal/plugin/registry.go:121-128 | recording a plugin's dependencies adds exactly the multiplicities of its resolved providers |
| PluginRegistry.RecordedAreKnown | internal/plugin/registry.go:120-128 | also when it stops at an unmet dependency, what it recorded are requirements |
| PluginRegistry.ProvidersOfMember | internal/plugin/registry.go:121-128 | who is a provider of some capability of a list, both ways |
| PluginRegistry.ResolvedIsRequired | internal/plugin/registry.go:118-130 | the resolved edges are the requirements the descriptors express, both ways |
| PluginRegistry.GrewIsRecordedOnce | internal/plugin/registry.go:120-130 | a recording adds exactly the edges of the resolved graph to those recorded before |
| PluginRegistry.BuildIsJudged | internal/plugin/registry.go:118-168 | hence the exact verdict of any call in terms of the edges recorded before it |
| PluginRegistry.BuildIsAdequate | internal/plugin/registry.go:120-130 | what is recorded on top of single-provider edges is enough and not too much for the queue loop |
| PluginRegistry.BuildIsExact | internal/plugin/registry.go:118-168 | hence the verdict of that call is exact in terms of the descriptors |
| PluginRegistry.SoleProvidersRepeat | internal/plugin/registry.go:118-168 | if no plugin has two providers, every call in the life of the registry is such a call |
| PluginRegistry.SecondBuildMisorders | internal/plugin/registry.go:120-130 | after two recordings of a consistent four-plugin registry a plugin comes before its provider for some map order and no error is returned |
| PluginRegistry.BuildTwice | internal/plugin/registry.go:118-168 | registering those plugins and building twice leads there |
| PluginRegistry.SecondBuildAcceptsCycle | internal/plugin/registry.go:120-130 | after two recordings of a registry whose requirements have a cycle the call succeeds |
| PluginRegistry.BuildCyclicTwice | internal/plugin/registry.go:118-168 | registering its two plugins and building twice leads there |
| Handoff.StepKeepsInv | internal/auth/handoff/handoff.go:57-128 | issuing, verifying, measuring, consuming and time passing keep the replay records ahead of expiry |
| Handoff.ConsumeKeepsInv | internal/redis/redis.go:366-369 | set-if-absent with a lifetime keeps that, also when its answer is lost and when the lifetime is rounded down |
| Handoff.RunKeepsInv | internal/auth/handoff/handoff.go:57-128 | on every run |
| Handoff.SecondRedemptionStalled | internal/auth/handoff/handoff.go:81-101 | a second success for one ticket passed the expiry check in time and consumed after the ticket's last second, less what rounding takes |
| Handoff.RedeemedAtMostOnce | internal/auth/handoff/handoff.go:81-128 | if attempts consume before second ExpiresAt + 1, less what rounding takes, at most one redemption per ticket succeeds |
| Handoff.RedeemedIsIssued | internal/auth/handoff/handoff.go:57-128 | what a redemption hands out is what some Issue call was asked for, field by field, verified before its last second was over |
| Handoff.IssueCall | internal/auth/handoff/handoff.go:48-77 | issuing puts in force exactly the ticket asked for, for two minutes if no time was given, and nothing without a session or a ticket id |
| Handoff.RedeemCall | internal/auth/handoff/handoff.go:81-128 | a redemption nobody disturbs succeeds exactly for a genuine, unexpired ticket without a live replay record when the store answers, and leaves a record until the ticket's last second is over |
| Handoff.RecordOutlivesTicket | internal/auth/handoff/handoff.go:89-92 | how long the replay record is to live |
| Handoff.BoundaryIsExact | internal/auth/handoff/handoff.go:57-101 | from every start and for every ticket asked for there is a run on which a delayed second attempt is handed the ticket as well exactly from the end of its last second on, less what rounding took |
| HotReload.StepKeepsSafe | internal/policy/bundle.go:50-96 | every step and write keeps engine, cache and load in progress tied to verified bytes |
| HotReload.AlwaysServesVerified | internal/policy/hotwatcher.go:171-207 | on every run there is an engine from the first load on, compiled, if a key is configured, from bytes a signature verified for |
| HotReload.OnlySuccessSwaps | internal/policy/hotwatcher.go:173-204 | engine and remembered time change together and only at the end of a successful load |
| HotReload.FirstLoad | cmd/accessgate-proxy/bootstrap.go:178-217 | an undisturbed start serves the bundle exactly if it passes the whole load path, and ends without an engine otherwise |
| HotReload.StepKeepsTimes | internal/policy/bundle.go:50-87 | with unreused times, what is cached, read or served under a time still on disk is what the disk holds |
| HotReload.RunKeepsTimes | internal/policy/hotwatcher.go:85-90 | on every run whose seed matches the first engine |
| HotReload.TickConverges | internal/policy/hotwatcher.go:171-207 | an undisturbed tick over a loadable bundle serves it, and a further tick changes nothing |
| HotReload.ConvergesWhenWritesStop | internal/policy/hotwatcher.go:171-207 | after any earlier writes, also inside a tick: once they stop at a loadable bundle the next tick serves its bytes and later ones change nothing |
| HotReload.SeedDecidesConvergence | cmd/accessgate-proxy/bootstrap.go:178-217 | a bundle written between first load and seeding is never served; the seeding condition is exact |
| PolicyWatcher.BundleLoader.LoadBundle | internal/policy/bundle.go:50-87 | the loader does what the step machine does with the disk it finds at each call, cache included |
| PolicyWatcher.LoadOutcome | internal/policy/bundle.go:50-87 | exactly when a load delivers an engine, from which bytes, and what it caches, for the first load and later ones, with writes between its calls |
| PolicyWatcher.TickOutcome | internal/policy/hotwatcher.go:171-207 | a tick swaps exactly if the stat shows a new time and the load delivers, and remembers the time of the stat |
| PolicyWatcher.BundleLoader.Compile | internal/policy/bundle.go:68-86 | likewise for bytes that are not in the cache |
| PolicyWatcher.BundleLoader.Instantiate | internal/policy/bundle.go:90-96 | likewise for the last step |
| PolicyWatcher.HotWatcher.constructor | internal/policy/hotwatcher.go:69-92 | likewise for seeding the remembered time |
| PolicyWatcher.HotWatcher.CheckAndReload | internal/policy/hotwatcher.go:171-207 | a tick leaves engine, remembered time and cache where the step machine leaves them; without a swap both stay |
| PolicyWatcher.TickIsPath | internal/policy/hotwatcher.go:171-207 | a tick with writes between any two of its calls is a path of the step machine |
| PolicyWatcher.TickKeepsInvariants | internal/policy/hotwatcher.go:171-207 | hence it keeps the served engine verified and in step with the disk |
| PolicyWatcher.SeedKeepsInvariants | internal/policy/hotwatcher.go:85-90 | and so does starting the watcher if its seed matches its engine |
| PolicyWatcher.QuietTick | internal/policy/hotwatcher.go:171-207 | with the disk at rest it is the tick convergence is proved for |
| PolicyWatcher.RestConverges | internal/policy/hotwatcher.go:171-207 | after any earlier disturbances one tick at rest over a loadable bundle serves that bundle |
| PolicyWatcher.HotWatcher.Poll | internal/policy/hotwatcher.go:143-156 | the ticker loop follows the step machine through any disturbed ticks, keeps both invariants, and serves the bundle of a tick at rest |
| RateLimit.Plugin.Configure | internal/plugins/ratelimit/ratelimit.go:68-111 | takes effect exactly if rate, burst, key strategy, header name and trusted proxies are all acceptable, keeps the old settings otherwise and the buckets always |
| RateLimit.Plugin.Handle | internal/plugins/ratelimit/ratelimit.go:129-165 | answer and buckets after a request are those of one round of play |
| RateLimit.KeysAreIndependent | internal/plugins/ratelimit/ratelimit.go:139-143 | a key gets the answers and the bucket it would get alone |
| RateLimit.ChargeConserves | internal/plugins/ratelimit/ratelimit.go:145-158 | a request keeps tokens between zero and burst and spends no more than was held and earned |
| RateLimit.TokensConserved | internal/plugins/ratelimit/ratelimit.go:145-158 | so does any sequence of requests |
| RateLimit.PlayKeepsFilled | internal/plugins/ratelimit/ratelimit.go:129-165 | tokens of every bucket stay between zero and burst on every run |
| RateLimit.WindowBound | internal/plugins/ratelimit/ratelimit.go:129-165 | after any history, if the clock moves forward by at most T between a key's requests, at most burst + T * rpm / 60 are admitted, for clock readings in any order |
| RateLimit.WindowBoundInOrder | internal/plugins/ratelimit/ratelimit.go:129-165 | in particular for a window of length T with readings in order |
| RateLimit.PatientKeyNeverDenied | internal/plugins/ratelimit/ratelimit.go:145-158 | requests at least 60 / rpm seconds apart are all admitted |
| RateLimit.PatientAmongOthers | internal/plugins/ratelimit/ratelimit.go:129-165 | whatever other keys do |
| RateLimit.BurstIsAdmitted | internal/plugins/ratelimit/ratelimit.go:139-158 | as many requests as a bucket holds tokens, for a new key the whole burst, are admitted for clock readings in any order |
| RateLimit.NewKeyGetsItsBurst | internal/plugins/ratelimit/ratelimit.go:139-158 | among other keys too |
| RateLimit.AdmittedIffNoneShort | internal/plugins/ratelimit/ratelimit.go:145-158 | a request is denied exactly if admissions since some earlier request, counted from a full bucket, or since the beginning, counted from what was held, have used up what was earned meanwhile at rpm / 60 a second |
| RateLimit.NewKeyAdmittedIff | internal/plugins/ratelimit/ratelimit.go:139-158 | the same for a new key, whose account begins full |
| FramePumps.StepKeepsInv | cmd/accessgate-proxy/grpcserver.go:156-261 | every step keeps what was sent in step with what was received |
| FramePumps.RunKeepsInv | cmd/accessgate-proxy/grpcserver.go:156-261 | on every interleaving |
| FramePumps.ForwardsFaithfully | cmd/accessgate-proxy/grpcserver.go:156-185 | frames sent are an in-order prefix of frames received, CloseSend comes after all client frames, nil is returned only after the whole upstream answer, and the director returns the failure of the answering direction, else the upstream's status, else what the glance found |
| FramePumps.ForwardClientToUpstream | cmd/accessgate-proxy/grpcserver.go:207-229 | the loop ends, its effect is a run of the step machine, and it closes exactly if no receive or send failed |
| FramePumps.ForwardUpstreamToClient | cmd/accessgate-proxy/grpcserver.go:234-261 | likewise; it reports the first failure or else the upstream's own status |
| Leb128.EncodeUnsigned | internal/policy/testdata/gen/main.go:60-73 | the loop computes the unsigned encoding |
| Leb128.EncodeSigned | internal/policy/testdata/gen/main.go:75-89 | the loop computes the signed encoding |
| Leb128.EncodeVec | internal/policy/testdata/gen/main.go:97-103 | a vector is its 32-bit count and its items |
| Leb128.EncodeSection | internal/policy/testdata/gen/main.go:91-95 | a section is its id, 32-bit size and body |
| Leb128.UnsignedRoundTrip | internal/policy/testdata/gen/main.go:60-73 | decoding returns the number and exactly the rest of the stream |
| Leb128.SignedRoundTrip | internal/policy/testdata/gen/main.go:75-89 | the same for signed numbers |
| Leb128.UnsignedIsShortest | internal/policy/testdata/gen/main.go:60-73 | no byte string that decodes to the number is shorter |
| Leb128.SignedIsShortest | internal/policy/testdata/gen/main.go:75-89 | the same for signed numbers |
| Leb128.FiveBytesSuffice | internal/policy/testdata/gen/main.go:60-89 | 32-bit numbers take at most five bytes |
| Leb128.SectionRoundTrip | internal/policy/testdata/gen/main.go:91-95 | a section parses back from any stream exactly if its size fits 32 bits |
| Leb128.VecRoundTrip | internal/policy/testdata/gen/main.go:97-103 | a vector of self-delimiting items parses back from any stream exactly if its count fits 32 bits |
| Base64Url.EncodeIsPlain | pkg/cookie/signed.go:69-71 | encoded text contains no separator and no line break |
| Base64Url.RoundTrip | pkg/cookie/signed.go:69-101 | decoding padded base64url inverts encoding for all bytes |
| Base64Url.SymbolsAre | pkg/cookie/signed.go:69-71 | the alphabet is the URL-safe one |
| Base64Url.GroupIsBigEndian | pkg/cookie/signed.go:69-71 | four symbols carry the bits of three bytes in order |
| SignedTokens.SplitJoined | pkg/cookie/signed.go:77-81 | splitting at the first dot returns both halves |
| SignedTokens.DecodeCookie | pkg/cookie/signed.go:76-109 | succeeds exactly for well-formed values some known secret signed, and returns the payload's bytes |
| SignedTokens.RotationKeepsKeys | pkg/cookie/signed.go:30-36 | a chain of rotations keeps every earlier secret for verification |
| SignedTokens.CookieRoundTrip | pkg/cookie/signed.go:64-109 | any manager that knows the signing secret decodes the cookie to the same id |
| SignedTokens.CookieSurvivesRotation | pkg/cookie/signed.go:28-109 | after any chain of rotations |
| SignedTokens.CookieIs | pkg/cookie/signed.go:64-72 | a cookie is the encoded id, a dot, and the encoded signature of the encoded id by the primary secret |
| SignedTokens.RotatedCookieNeedsNewSecret | pkg/cookie/signed.go:28-36 | after a rotation the new secret signs |
| SignedTokens.TicketRoundTrip | internal/auth/handoff/handoff.go:57-128 | an issued ticket verifies with all fields until its last second is over and is expired afterwards |
| SignedTokens.ValidIffSigned | internal/auth/handoff/handoff.go:103-128 | a ticket verifies exactly if it is a payload with that payload's own signature, decodes, and is not expired |
| SignedTokens.RejectedFor | internal/auth/handoff/handoff.go:103-128 | the error of a rejected ticket names the first thing found wrong |
| KeyLayout.Config.Normalize | internal/auth/config/config.go:263-335 | the list, the implicit default and every connector after normalization |
| KeyLayout.Config.Fill | internal/auth/config/config.go:290-334 | one connector with every setting left open filled in |
| KeyLayout.FilledTwice | internal/auth/config/config.go:290-334 | normalizing again changes nothing |
| KeyLayout.FilledIsComplete | internal/auth/config/config.go:290-334 | namespace, cookie, scopes, claim source, identity claim and kind label are set afterwards |
| KeyLayout.FilledSettings | internal/auth/config/config.go:290-323 | setting by setting: what was set stays and what was open gets its default |
| KeyLayout.FilledIdentity | internal/auth/config/config.go:295-334 | the same for scopes, claim source, identity claim and kind label |
| KeyLayout.CookiesDiffer | internal/auth/config/config.go:308-314 | connectors without cookie names of their own get different ones |
| KeyLayout.ValidateConnectors | internal/auth/config/config.go:224-256 | accepts exactly well-formed, distinct ids with required fields and one default |
| KeyLayout.AcceptedIs | internal/auth/config/config.go:224-256 | nothing required missing, distinct ids, and exactly one default, in full |
| KeyLayout.KeysAre | pkg/session/session.go:51-80 | the keys of all five kinds in full |
| KeyLayout.NormalizedIsNamespaced | internal/auth/config/config.go:282-307 | normalized connectors without own prefixes have the base or base and id as prefix |
| KeyLayout.JoinInjective | pkg/session/session.go:52-80 | colon-free fields can be read back from their joined text |
| KeyLayout.KeysAreInjective | internal/auth/config/config.go:385-400 | connector, kind and id can be read back from the key, ticket replay keys included |
| KeyLayout.ScanMeetsOwnSessions | internal/redis/redis.go:155-161 | a session scan meets exactly the connector's own sessions, and under the default connector also all keys of a connector named session |
| SessionSweep.Store.DeleteSessionsBySubjectEmail | internal/redis/redis.go:148-198 | deletes nothing for empty lookup values, else has swept the keys met so far, all of them if no call failed |
| SessionSweep.Store.VisitKey | internal/redis/redis.go:165-190 | what meeting one key does |
| SessionSweep.SweepIsExact | internal/redis/redis.go:165-190 | sweeping any keys, repeated or not, removes exactly the matching unexpired ones and counts each once |
| SessionSweep.CompleteSweepIsExact | internal/redis/redis.go:148-198 | if every matching record sits at the key made from its own id, pages that cover the prefix remove exactly the user's unexpired sessions under it and return their number |
| SessionSweep.SweptExactlyTheirs | internal/redis/redis.go:148-198 | record by record: gone are exactly the unexpired sessions under the prefix with the trimmed subject and the trimmed lower-case email looked for, all others are unchanged, and the count is theirs |
| SessionSweep.MisplacedSurvives | internal/redis/redis.go:165-190 | of the records that do not, the one counted last survives, and so do those not met |
| SessionSweep.ExactIffOwnKeys | internal/redis/redis.go:148-198 | hence the sweep is exact if and only if every matching record sits at the key made from its own id |
| SessionSweep.OwnKeysIffNoForeignMatch | internal/redis/redis.go:155-161 | in the configured namespaces that is so if and only if the sweep is not the default connector's or the user has no session on a connector named session |
| SessionSweep.ConfiguredSweepIsExact | internal/redis/redis.go:148-198 | hence the exact condition on the configuration and the store under which a sweep is exact |
| SessionSweep.PartialSweepIsSound | internal/redis/redis.go:162-188 | a sweep cut short removed matching sessions only and returns how many |
| SessionSweep.ForeignRecordIsMiscounted | internal/redis/redis.go:186-189 | such a session lies under the scanned prefix, is counted each time it is met and is never removed |
| SessionSweep.SweepLeaves | internal/redis/redis.go:165-190 | unless a record's id leads to a misplaced record, a sweep leaves exactly the data without the keys made from the ids of the matching records met |
| SessionSweep.ConfiguredSweepLeaves | internal/redis/redis.go:148-198 | key by key what a complete sweep leaves: all but the user's sessions of that connector and, for the default one, the keys made from the ids of the user's sessions on a connector named session |
| OperationName.Reader.NextToken | internal/graphql/parser.go:108-150 | the next token and the position after it, on any input |
| OperationName.ParseDocument | internal/graphql/parser.go:73-102 | terminates on any input with the first operation's name and type |
| OperationName.NamedOperationIsFound | internal/graphql/parser.go:73-182 | every named operation of that grammar is reported with its name and type |
| OperationName.OnlyNamedOperationsAreFound | internal/graphql/parser.go:73-182 | a name is reported only for a document of that grammar, and the type is a keyword or empty |
| OperationName.ShorthandIsQuery | internal/graphql/parser.go:80-83 | a selection set in front is an unnamed query |
| OperationName.UnnamedOperation | internal/graphql/parser.go:84-101 | a keyword followed by anything else than a name gives its type and no name |
| OperationName.OtherWordsAreNoOperation | internal/graphql/parser.go:86-89 | any other word in front gives neither |
| OperationName.TokenInFrontIs | internal/graphql/parser.go:130-148 | what the next token is |
| OperationName.CharactersAre | internal/graphql/parser.go:152-162 | which characters are skipped and which make a name |
| OperationName.CommentNeedsNewline | internal/graphql/parser.go:114-126 | a comment no newline ends swallows the rest of the document |
| OperationName.CarriageReturnDoesNotEndComment | internal/graphql/parser.go:114-126 | an operation after a comment is found if a newline ends the comment and not found if a carriage return does |

## Left out

- PluginRegistry.Registry.BuildDependencyGraph: for a repeated call that finds edges of a plugin with several providers, states exactly when it succeeds, but of the order only how many providers may come late; which orders are right then depends on the order of the waiting lists.
- RateLimit.Plugin.Handle: the bucket key is an input; uses real numbers, so floating-point rounding is not captured; the configuration is fixed along a run.
- Handoff.StepKeepsInv: an issuer without a one-time store, which refuses everything, is not modelled.
- SessionRefresh.StepKeepsInv: claims are not part of this state machine (they are in Claims), and a lock time to live of zero, which Redis treats as no expiry, is outside the in-time runs.
- SessionRefresh.GrantIsSafeWhileStored: says nothing of a copy whose record was removed, where the store no longer tells whether the token was used.
- HotReload.TickConverges: modification times are never reused; a file whose time is the zero time is not treated specially, and closing superseded engines is not modelled.
- Login.SessionTracesToOneAttempt: code exchange and token validation follow the mock identity provider, with one audience per token; state, verifier and nonce are assumed never to repeat.
- SessionRefresh, Login and Handoff model the service's methods as steps rather than as methods with local variables, because what is proved is about their interleaving; SessionCalls, LoginCalls and the call lemmas of Handoff put the steps together again.
- HTTP handlers, cookie headers, CORS, tracing, metrics, logging and command-line entry points: plumbing.
- OIDC discovery, key fetching and the post-login webhook: network clients.
- HMAC, Ed25519 and token cryptography: parameters about which nothing is assumed beyond what a lemma's statement says; in `Handoff` only issued tickets verify.
- JSON: an encode and decode pair, and the JSON envelope of GraphQL requests is outside the lexer model.
- WASM and Rego evaluation, compilation and instantiation: predicates of the bytes; the Rego engine, which reloads in place, is not modelled.
- Redirect validation, upstream address validation, IP and CIDR handling: they rest on library behaviour.
- Logout beyond the removal of the record, revocation, session lookup and the handoff endpoints of the service: short sequences of store calls over operations modelled here.
- ResolveAllByKind, AllPluginIDs and RegistrationFor of the plugin registry: one-line reads.
- White space trimming, lower-casing and address-block syntax, and which characters beyond ASCII are digits in the lexer: parameters.
