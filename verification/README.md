# TinyCloud platform: a verified model

TinyCloud is a small self-hosted platform: it generates Kubernetes manifests for applications, ships build
events to a log service, shows the health of the infrastructure below it through replaceable Providers, and
rolls applications back and forth through a GitOps repository. This project models the stateful engines of that
platform in Dafny and proves what they promise over every input, every interleaving and every run.

| file | engine |
|---|---|
| `Substitution.dfy`, `Manifests.dfy` | manifest generation: sequential text replacement in Go's arbitrary map order |
| `Emitter.dfy` | the background log emitter: producers, a bounded channel, a batching worker, a drain |
| `Cache.dfy` | the snapshot cache: single flight, throttle, serve-stale, a clock |
| `Summaries.dfy`, `Collector.dfy`, `NonInterference.dfy`, `Readout.dfy` | the nine-way fan-out, the assembly of a snapshot, what a failure costs, what a snapshot shows |
| `Contract.dfy`, `Client.dfy`, `Rediscovery.dfy`, `Sources.dfy`, `Conformance.dfy` | both ends of the Provider contract, its client under concurrency, the ranking of sources, and the conformance suite |
| `Rollback.dfy` | rollback and restore over three stores, with failing external calls |
| `Layout.dfy` | the placement algorithm of the resource graph |
| `Common.dfy`, `Strings.dfy` | shared vocabulary: 64-bit wrap-around, string order, trimming, sorting |

Objects whose methods update fields are classes, loops are loops, and an in-place sort sorts an array; each such
method is tied by its contract to a function or predicate, and the properties are proved of that. Engines that
are interleaved (the emitter, the cache, the fan-out, concurrent callers of one client, rollback requests) are
also step systems whose steps are the program's critical sections or external calls; the lemmas about them
quantify over every sequence of steps.

HTTP is a function from request to response and JSON bodies are tagged values. Statuses are those of RFC 9110
(section 15.5.2 for 401, section 15.6.2 for 501); the Authorization header is the bearer form of section 2.1 of
RFC 6750. Time is an integer number of nanoseconds, and metric values are reals.

## What the code does where its comments say otherwise

- The cache's comments (internal/infra/cache.go:19-20, internal/provider/client.go:222-223) say a Provider that
  goes down leaves the last good snapshot on screen, flagged stale. Once a collector has been built a refresh
  cannot fail any more: a partial snapshot replaces the good one. `Cache.CollectorStays` states it, and it is why
  the freshness bound needs no assumption that refreshes succeed.
- Environment values are not checked by validation (internal/manifests/generator.go:120-122). If one mentions a
  placeholder, the deployment manifest depends on Go's map order. `Manifests.DeploymentIsOrderFreeExactly` gives
  the exact condition and `Manifests.EnvironmentCanBreakIt` a request and two orders that break it.
- Environment keys are not checked either: one with a line break garbles the block it is written into.
  `Manifests.BlockReadsBack` says exactly which environments survive the rendering.
- The values are trimmed (internal/manifests/generator.go:140-147) but the paths use the name as it came
  (internal/manifests/generator.go:149-158), so a padded name validates and yields padded paths:
  `Manifests.NormalizingKeepsContents`.
- The five-minute bound on a discovery answer (internal/provider/client.go:18-22) holds at the caller's age test,
  not at its request. `Rediscovery.AgeIsBounded` bounds the age at the request for every run, and
  `Rediscovery.LateExactly` says which pauses can make a request late: any, for a caller that found the answer just
  fresh enough, and only those longer than five minutes for one that asked itself.
- The server accepts requests without any header when its token is the empty string, so such a Provider is not
  conformant; a token with outer whitespace never matches itself. `Contract.NoHeaderPasses`,
  `Contract.OwnTokenPasses` and `Conformance.SuiteAcceptsExactly` give both directions.
- The error of reading an application's target is discarded (internal/api/handlers/apps.go:381, 477). A Rollback
  whose read fails repeats a rollback: `Rollback.BlindRollback`. Everything else keeps its alternation, lost
  replies included: `Rollback.NextPatchAlternates`.
- An entry the emitter accepts after its worker has stopped is neither put nor counted as dropped:
  `Emitter.LateEntriesAreLost`, with a run in `Emitter.OneEntryIsLost`.

## Model

| member | source | states |
|---|---|---|
| `Substitution.ReplaceInTemplate` | internal/manifests/generator.go:190-196 | one ReplaceAll over the flat text acts on each hole separately; no placeholder is created or destroyed across the border of a hole |
| `Substitution.OrderWorksHoleByHole` | internal/manifests/generator.go:190-196 | so does a whole sequence of replacements, in any order |
| `Substitution.Confluence` | internal/manifests/generator.go:190-196 | on a hygienic template with placeholder-free values every visiting order gives the one simultaneous substitution, with no placeholder left |
| `Substitution.EnvironmentLast` | internal/manifests/generator.go:190-196 | with the other values brace-free, an order that visits the environment last always gives the simultaneous substitution, whatever the environment holds |
| `Substitution.OrderFreeExactly` | internal/manifests/generator.go:190-196 | with the other values brace-free, any two visiting orders agree if and only if the environment text contains none of the other five placeholders; then they agree on the simultaneous substitution |
| `Manifests.TemplatesAreHygienic` | internal/manifests/generator.go:198-450 | the eight templates satisfy the hygiene condition, braces in their literal text included, and only the deployment has the environment hole |
| `Manifests.ExchangeSort` | internal/manifests/generator.go:173-179 | the nested exchange loops sort the keys in place and keep their multiset |
| `Manifests.CollectKeys` | internal/manifests/generator.go:165-171 | every key but PORT is collected once, whatever order the map yields |
| `Manifests.RenderEnvVars` | internal/manifests/generator.go:164-188 | the block is PORT followed by the other keys in sorted order, the same for every map order |
| `Manifests.EnvTextContains` | internal/manifests/generator.go:181-187 | the rendered block mentions a placeholder exactly when some key or quoted value does |
| `Manifests.ReplaceVars` | internal/manifests/generator.go:190-196 | the result is the replacement in some visiting order of the six variables |
| `Manifests.GenerateAppFiles` | internal/manifests/generator.go:139-162 | each of the eight paths gets its template with the placeholders replaced in an order of its own; for a validated request that is the plain text of the template with the request's own trimmed name, image and tag, its replicas, port and environment block in their places |
| `Manifests.FilesAreSpelledOut` | internal/manifests/generator.go:139-147 | the same of every possible content, whatever the visiting order: which field of the request stands in which place of which file |
| `Manifests.BlockReadsBack` | internal/manifests/generator.go:181-187 | read line by line the environment block gives back PORT with 8080 and then every other name with its quoted value in sorted order, if and only if no key and no quoted value spans lines |
| `Manifests.FirstFaultDecides` | internal/manifests/generator.go:75-125 | a request is refused for the first of the thirteen rules it breaks, and accepted if and only if it breaks none |
| `Manifests.PathsDistinct` | internal/manifests/generator.go:149-159 | the eight paths never collide |
| `Manifests.ValidatedIsClean` | internal/manifests/generator.go:75-125 | a validated request with a brace-free environment puts only placeholder-free values into the templates |
| `Manifests.GenerationIsDeterministic` | internal/manifests/generator.go:139-162 | for such a request every visiting order yields the same eight files, each the simultaneous substitution with no placeholder left |
| `Manifests.DeploymentIsOrderFreeExactly` | internal/manifests/generator.go:139-188 | for a validated request any two visiting orders give the same deployment if and only if no environment key or quoted value mentions another placeholder; then it is the simultaneous substitution |
| `Manifests.OtherFilesAreOrderFree` | internal/manifests/generator.go:139-162 | in the other seven files all visiting orders agree on the simultaneous substitution, whatever the environment |
| `Manifests.MentionBreaksIt` | internal/manifests/generator.go:190-196 | for every placeholder the environment mentions, the order that visits the environment first and the one that visits it last give different deployments |
| `Manifests.EnvironmentCanBreakIt` | internal/manifests/generator.go:120-122 | one concrete request, with the environment value `{{TAG}}`, passes validation and has two visiting orders with different deployments |
| `Manifests.NormalizingKeepsContents` | internal/manifests/generator.go:128-159 | normalising keeps a valid request valid and its possible contents the same; a path stays the same exactly when the name carried no outer whitespace |
| `Manifests.CreateAppRequest.Normalize` | internal/manifests/generator.go:128-136 | trims the three names, fixes the port, defaults the replicas, leaves the environment |
| `Emitter.Safety` | internal/ocilog/ocilog.go:33-44 | in every interleaving: accepted = all puts, then the batch, then the channel, in order; emitted = accepted + dropped; channel at most 2048; every put has 1 to 128 entries |
| `Emitter.LossOnlyWhenFull` | internal/ocilog/ocilog.go:108-119 | in every run the accepted entries are exactly the Emit calls that found room, in their order; the calls that found 2048 entries are exactly those counted as dropped or about to be; no call is anything else |
| `Emitter.TickDelivers` | internal/ocilog/ocilog.go:161-162 | everything received when the ticker fires in the outer select has been put, in order, once the worker has served that tick, whatever producers, receives and a close do in between |
| `Emitter.TickThenPut` | internal/ocilog/ocilog.go:146-162 | served at once, a tick leaves the worker with an empty batch: all that is accepted has been put or is in the channel |
| `Emitter.NothingIsStuck` | internal/ocilog/ocilog.go:154-181 | from every state of every run the worker by itself puts everything accepted so far, and then is idle, or stopped if done is closed; only what is in the channel after the drain found it empty is out of reach |
| `Emitter.CloseDelivers` | internal/ocilog/ocilog.go:123-181 | in every run that ends with the worker stopped, everything accepted before the close has been put, in order, and what has been put is an initial stretch of what was accepted |
| `Emitter.LateEntriesAreLost` | internal/ocilog/ocilog.go:112-118 | once the worker has stopped, what is put stays the first n accepted entries, n being what had left the channel by then; every later Emit that finds room is accepted into the channel, and only those that find it full are counted as dropped |
| `Emitter.OneEntryIsLost` | internal/ocilog/ocilog.go:112-118 | a run in which the only entry emitted is accepted, never put and not counted as dropped |
| `Emitter.DrainPuts` | internal/ocilog/ocilog.go:163-179 | with no later Emit the drain hands over exactly batch and channel, in ceil((batch + channel) / 128) puts, and stops |
| `Emitter.ChunksExact` | internal/ocilog/ocilog.go:146-160 | cutting into batches loses nothing, and all batches but the last are full |
| `Emitter.Emitter.Emit` | internal/ocilog/ocilog.go:108-119 | an uninterrupted Emit queues the entry or counts it, never both, and touches nothing else |
| `Emitter.Emitter.OnEntry` | internal/ocilog/ocilog.go:156-160 | the receive case is one receive, followed by a put when the batch is full |
| `Emitter.Emitter.OnDone` | internal/ocilog/ocilog.go:163-179 | the drain loop ends on the channel length with the exact puts of the batch and the channel |
| `Cache.GetRefinesLastSuccess` | internal/infra/cache.go:113-132 | in every run Get answers with the last successful refresh, stale exactly when older than the threshold; before the first one with the latest attempt's error |
| `Cache.CollectorStays` | internal/infra/cache.go:174-197 | the goroutine that stored the collector was the only one flying, so no refresh fails after the first success |
| `Cache.SingleFlight` | internal/infra/cache.go:137-172 | in every run at most one refresh goroutine exists, exactly while `refreshing` is set; the starts are the completed refreshes and the one in flight |
| `Cache.StartsSpaced` | internal/infra/cache.go:134-147 | any two refresh starts are at least a TTL apart, and `attempted` is the last start |
| `Cache.StartsPerWindow` | internal/infra/cache.go:134-147 | a window of length T holds at most floor(T / ttl) + 1 starts, whatever mix of Get, Prime, success and failure |
| `Cache.FirstCallStarts` | internal/infra/cache.go:134-147 | in every run the first Get or Prime starts a refresh, and nothing else ever starts the first |
| `Cache.StartsKeepComing` | internal/infra/cache.go:113-147 | with Gets at least every P and refreshes over within D, successes and failures alike, consecutive starts are at most ttl + P + D apart and the last one is never longer ago |
| `Cache.StaysFresh` | internal/infra/cache.go:113-172 | after a success the throttle cannot suppress a due refresh: `attempted` is not later than `fetchedAt` while idle |
| `Cache.AgeBound` | internal/infra/cache.go:113-172 | with a monotone clock, Gets at least every P and refreshes over within D, no Get after the first success serves anything older than ttl + P + D |
| `Cache.DefaultsStayFresh` | internal/infra/cache.go:58-76 | with the default options P + D of at most four minutes never shows a stale snapshot |
| `Cache.Cache.Get` | internal/infra/cache.go:113-132 | one critical section: the reply and the new state, with the snapshot itself untouched |
| `Cache.Cache.StartRefreshLocked` | internal/infra/cache.go:137-147 | starts a refresh unless one is running or the last start is less than a TTL ago |
| `Cache.Cache.PublishLocked` | internal/infra/cache.go:158-167 | a success replaces the snapshot and its time, a failure only the error |
| `Cache.Cache.Refresh` | internal/infra/cache.go:152-197 | a refresh that nothing interrupts is its three critical sections, and ends with a snapshot exactly when there was one, or a collector, or building one succeeds |
| `Collector.FanOutIsDeterministic` | internal/infra/collect.go:202-343 | every interleaving of the locked steps ends with each source either marked ok or with exactly one warning, never both, and with the record its outcomes determine |
| `Collector.ResultUnique` | internal/infra/collect.go:426-427 | with sorted warnings the outcomes admit only one record |
| `Collector.TwoStepsFinish` | internal/infra/collect.go:243-255 | a goroutine that has had its two steps is finished, whatever the others did |
| `Readout.SnapshotTells` | internal/infra/collect.go:237-429 | from end to end: whatever the interleaving, every field of the snapshot shows what its own source answered - per node the newest labelled point, null where a source failed - and every failed source is named in a warning |
| `Readout.AmpereAddsUp` | internal/infra/collect.go:387-391 | the Ampere shares are sums over the instances of an Ampere shape |
| `NonInterference.CollectIsDeterministic` | internal/infra/collect.go:237-343 | the same outcomes give the same snapshot whatever the interleaving, up to the order of equal names |
| `NonInterference.SnapshotDetermined` | internal/infra/collect.go:361-429 | the specification of the assembly leaves no other choice |
| `Collector.CollectResult.Read` | internal/infra/collect.go:243-255 | one goroutine is its two locked steps: data then mark, or one warning |
| `Collector.Assemble` | internal/infra/collect.go:361-429 | the snapshot of a record: sorted nodes and alarms, null for what a failed source would have given, totals and constants |
| `Collector.ListNodes` | internal/infra/collect.go:367-391 | one node per instance, with readings only from sources that answered, and the Ampere shares summed in list order |
| `NonInterference.FailureCostsOnlyItsOwn` | internal/infra/collect.go:361-429 | turning one source's answer into a failure changes only its own fields, to null or empty, and adds its warning |
| `Summaries.LatestByDimension` | internal/infra/collect.go:450-467 | per non-empty key, the first series of maximal timestamp, and no other keys |
| `Summaries.NewestUnique` | internal/infra/collect.go:450-467 | that specification determines the map |
| `Summaries.LatestTells` | internal/infra/collect.go:450-467 | the same in terms of the labels: no empty label, and for each label value in use the first of the newest series that carry it |
| `Summaries.UptimeTells` | internal/infra/collect.go:521-544 | every entry shows the last word on its monitor and target, every monitored pair has an entry, no pair has two |
| `Summaries.TruncateExactly` | internal/infra/collect.go:482 | the whole number towards zero, less than one away |
| `Summaries.SummariseUptime` | internal/infra/collect.go:521-544 | one entry per monitor and target with the newest value, ordered by monitor |
| `Summaries.MaxAcrossSeries` | internal/infra/collect.go:469-484 | no series is unknown; otherwise the greatest value, rounded |
| `Summaries.SummariseBackups` | internal/infra/collect.go:486-519 | object count, wrapped 64-bit size, and per prefix the number and the newest of the objects whose first matching prefix it is |
| `Summaries.StreamsTell` | internal/infra/collect.go:495-517 | each stream counts the objects for which its prefix, with or without a trailing slash, is the first folder they lie under, and dates the newest of them |
| `Summaries.StreamsConserveObjects` | internal/infra/collect.go:495-508 | with distinct prefixes the stream counts and the unmatched objects add up to the object count |
| `Summaries.SizeIsExact` | internal/infra/collect.go:495-497 | the reported size is the true sum exactly when that fits 64 bits |
| `Contract.BearerRoundTrip` | internal/provider/server.go:93-99 | reading back a bearer header yields the trimmed token |
| `Contract.SchemeDecides` | internal/provider/server.go:93-99 | a header is a token only if its first word is "bearer" in any case and a space follows |
| `Contract.RefusesExactly` | internal/provider/server.go:44-88 | discovery and the five endpoints, whatever the method, answer 401 exactly to a bearer token that is not the one read, and to everyone when it cannot be read; no other path does, and the refusal is the same whatever the Provider |
| `Contract.OwnTokenPasses` | internal/provider/server.go:67-99 | a caller with the server's token passes every protected path's door exactly when the token has no outer whitespace |
| `Contract.NoHeaderPasses` | internal/provider/server.go:67-88 | a request without the header passes it exactly when the token is empty |
| `Contract.DiscoveryIsHonest` | internal/provider/server.go:115-130 | discovery lists exactly the declared capabilities the contract defines, each once |
| `Contract.GateMatchesDiscovery` | internal/provider/server.go:101-113 | an authorised GET is answered 200 only for what discovery lists, and 501 for everything else |
| `Contract.StatusTells` | internal/provider/server.go:33-239 | each of the statuses 200, 400, 404, 405, 501 and 502 if and only if a condition on request, guard and Provider that does not mention the order in which the server finds out |
| `Client.ClientOverAnyServer` | internal/provider/client.go:109-254 | for every Provider, guard and credential, each free to change between the calls: an error if the door is shut when discovery or the capability is asked, otherwise the Provider's value, not implemented, or its error |
| `Client.ClientOverServer` | internal/provider/client.go:109-254 | with a shared trimmed token, for all five reads: the Provider's value if declared and successful, not implemented exactly when undeclared or so reported, another error otherwise |
| `Client.ClientOverAnyNet` | internal/provider/client.go:75-254 | whatever answers: success exactly if a usable discovery answer lists the capability and the call is answered 200, not implemented exactly on a 501 or a usable answer without the capability |
| `Client.UnreadableTokenSendsNothing` | internal/provider/client.go:212-220 | with a token that cannot be read the outcome does not depend on the network |
| `Client.PaddedTokenNeverWorks` | internal/provider/server.go:93-99 | with a token that trimming changes, no run of calls ever learns a declaration, and every read after it is an error other than "not implemented" |
| `Client.WindowArrives` | internal/provider/client.go:148-152 | a metric window arrives as a positive whole number of seconds, rounded down and never wrapped |
| `Client.AlwaysAgrees` | internal/provider/client.go:75-127 | after any run of calls over a hosted Provider, what the client remembers is what the Provider declares |
| `Client.EveryReadIsFaithful` | internal/provider/client.go:109-254 | hence after any run of calls each read gives back what the Provider says |
| `Client.Client.Capabilities` | internal/provider/client.go:75-100 | a well-formed answer is filtered and remembered with its time; a failure forgets nothing |
| `Client.Client.Supports` | internal/provider/client.go:109-127 | asks again exactly when nothing is known or the answer is older than five minutes |
| `Client.Client.ReadSource` | internal/provider/client.go:132-195 | one source method: discovery first, then the call, with the three kinds of outcome, and what the client remembers afterwards |
| `Rediscovery.OnlyDeclaredIsAsked` | internal/provider/client.go:75-127 | with any number of concurrent callers a request goes out only for a contract capability in a discovery answer stored no earlier than five minutes before the caller's age test |
| `Rediscovery.AgeIsBounded` | internal/provider/client.go:75-127 | in every run an answer is at most five minutes plus the caller's pause old when the request goes out, and no older than the pause if the caller asked itself; it is late exactly when the pause exceeds what the age test had left |
| `Rediscovery.LateExactly` | internal/provider/client.go:114-121 | some run sends a request with this pause on an answer older than five minutes if and only if the pause is positive, or longer than five minutes for a caller that asked itself |
| `Rediscovery.KnownAnswerAges` | internal/provider/client.go:114 | for every pause, a run whose request rests on an answer of exactly five minutes plus the pause |
| `Rediscovery.OwnAnswerAges` | internal/provider/client.go:115-121 | for every pause, a run of a caller that asked itself whose request rests on an answer exactly as old as the pause |
| `Rediscovery.FailureForgetsNothing` | internal/provider/client.go:75-127 | over any stretch in which every rediscovery fails the stored answers stay as they were, and a caller that comes within five minutes of the last one is decided by it without asking: its request goes out exactly if it lists the capability |
| `Rediscovery.HistoryGrows` | internal/provider/client.go:94-97 | over any run the stored answers only grow |
| `Rediscovery.EmptyIsKnown` | internal/provider/client.go:114-126 | a fresh empty declaration refuses the call without asking again |
| `Rediscovery.SupportsIsARun` | internal/provider/client.go:109-127 | one uninterrupted `Supports` is a run of the interleaved steps, in any run: the same answer consulted, the same answer stored, and a request to follow exactly if it says supported |
| `Sources.InfraSources` | internal/provider/config.go:146-187 | every slot is filled by the ranking: first reachable Provider declaring it, fallback, first unreachable Provider, stub, nothing |
| `Sources.RankedUnique` | internal/provider/config.go:173-187 | the ranking admits one choice |
| `Sources.UnreachableRanksLast` | internal/provider/config.go:140-145 | an unreachable Provider never displaces a declaring one or the fallback |
| `Sources.Scan` | internal/provider/config.go:153-171 | the first loop finds the first declaring entry per capability and the first unreachable one |
| `Conformance.PassedExactly` | internal/conformance/conformance.go:120-320 | whoever answers, a report passes if and only if unauthenticated discovery is refused, no unknown name is listed, every declared capability answers 200 in its shape (five metrics, two refusals) and every undeclared one 501 |
| `Conformance.SuiteAcceptsExactly` | internal/conformance/conformance.go:120-168 | for every hosted Provider and token: the suite can ask exactly when the token is trimmed, and passes exactly when it is not empty and every call to a declared capability succeeds; undeclared ones are reported absent |
| `Conformance.HostedCapability` | internal/conformance/conformance.go:195-239 | a declared capability passes exactly when its calls succeed; an undeclared one is absent |
| `Conformance.HostedMetrics` | internal/conformance/conformance.go:241-273 | the metric checks hold exactly when all five contract metrics are answered; the two refusals always are |
| `Conformance.Suite.Run` | internal/conformance/conformance.go:120-168 | an error exactly when discovery is unusable, otherwise one line per unknown name, one for authentication, one per capability in contract order |
| `Conformance.Suite.CheckCapability` | internal/conformance/conformance.go:195-239 | the verdict of one capability from the statuses and bodies it answers |
| `Rollback.AlwaysSafe` | internal/api/handlers/apps.go:353-444 | in every run, between any two calls and however they fail: an app whose target is its rollback branch has that branch, at the validated commit of the last Rollback that pushed it |
| `Rollback.BranchMovesOnlyWhenLeft` | internal/git/gitops.go:519-548 | a rollback branch moves only by a Rollback's push, or by a Restore after the target has become main |
| `Rollback.AlwaysFollows` | internal/api/handlers/apps.go:381-415 | an app is on a rollback branch exactly when its last effective patch was a Rollback |
| `Rollback.PatchesAlternate` | internal/api/handlers/apps.go:477-495 | when no target read fails, effective patches alternate, starting with a Rollback |
| `Rollback.NextPatchAlternates` | internal/api/handlers/apps.go:381-385 | in any run the next patch alternates unless it is a Rollback of an app already on a rollback branch |
| `Rollback.BlindRollback` | internal/api/handlers/apps.go:381-385 | a failed target read is enough for two Rollbacks in a row |
| `Rollback.HistoryIsTrue` | internal/git/gitops.go:387-401 | recorded history is a subsequence of the effective patches; status is rollback iff an active rollback is set iff the last entry is one |
| `Rollback.HistoryIsAppendOnly` | internal/git/gitops.go:468-481 | a step appends at most the entry of the request in flight and leaves every other app's record alone |
| `Rollback.HistoryGrows` | internal/git/gitops.go:387-401 | over any run an app's history only grows |
| `Rollback.RecordMatchesStores` | internal/git/gitops.go:387-401 | a recorded rollback names the branch Argo follows and the commit it points at; a restore is recorded while Argo is on main |
| `Rollback.ReplyTells` | internal/api/handlers/apps.go:353-520 | a 4xx reply changed nothing in any store; a 200 reply means exactly one more patch, to the target asked for |
| `Rollback.StatusTells` | internal/api/handlers/apps.go:353-520 | each reply if and only if a condition on the request, the stores and how the calls went |
| `Rollback.RollbackDone` | internal/api/handlers/apps.go:353-444 | the whole new state after a 200: target, branch, and - if the record got through - exactly this entry, active, on main |
| `Rollback.RestoreDone` | internal/git/gitops.go:519-548 | after a 200 Argo is on main; if the record came back without an error and the push took effect, branch and main are both at the recorded commit, otherwise the branch is as it was; all other branches are |
| `Rollback.RestoreMovesBranch` | internal/git/gitops.go:519-548 | the same for the two calls within any run |
| `Rollback.FailureTells` | internal/api/handlers/apps.go:353-495 | after a 500 the history is untouched, and branch and target are as they were except for what the call that failed, or the one before it, has taken effect on |
| `Rollback.ServeIsARun` | internal/api/handlers/apps.go:353-520 | a whole request is the run of its external calls |
| `Rollback.Platform.Rollback` | internal/api/handlers/apps.go:353-444 | the handler's reply and effects are those of the step system, for every way its calls go |
| `Rollback.Platform.Restore` | internal/api/handlers/apps.go:453-520 | likewise for Restore |
| `Rollback.Platform.RecordRestore` | internal/git/gitops.go:445-551 | the branch is moved only after the record has been pushed |
| `Layout.GraphIsDrawable` | ui/src/components/ResourceGraph.tsx:188-230 | for every forest: no two cards overlap, cards of a column are a row apart, all lie inside the canvas, parents are centred over their children and the root over the top-level cards, the nodes drawn are the root and the multiset of nodes of the forest, each below its parent, and the leaves take the rows one after the other |
| `Layout.SubtreeBand` | ui/src/components/ResourceGraph.tsx:198-205 | a subtree owns a contiguous interval of leaf rows |
| `Layout.SubtreeRows` | ui/src/components/ResourceGraph.tsx:198-201 | the leaves of a subtree take exactly its rows, one after the other, so no row is wasted |
| `Layout.ForestLinked` | ui/src/components/ResourceGraph.tsx:193-207 | every card hangs one column to the right of its own parent's card, under an id made of its parent's id, its kind and its name |
| `Layout.SubtreeCentred` | ui/src/components/ResourceGraph.tsx:203-204 | every parent is midway between its first and last child, one column to their left |
| `Layout.Layout.Walk` | ui/src/components/ResourceGraph.tsx:193-209 | the recursive closure places exactly the cards of its subtree and advances row and depth by what the subtree takes |
| `Layout.Layout.Run` | ui/src/components/ResourceGraph.tsx:188-230 | the whole layout, its width and height, and that the result is drawable and complete |

## Left out

- Network, disk and SDK calls (HTTP transport, go-git, Kubernetes, Argo CD, the log service): each is a parameter
  or an outcome that may be anything.
- The plain words of the eight templates: a template keeps its placeholders and its brace-carrying fragments in
  order; the text between is any text without an
  opening brace that neither starts nor ends with a character placeholders are made of.
- The escaping of `%q`: any function from strings to strings.
- JSON and YAML encoding, response-size limits and header values HTTP itself would refuse.
- Floating point: metric values are reals, and `window.Seconds()` is exact division.
- The order of nodes, alarms and uptime entries with equal names, which the program leaves open; results are
  stated up to it.
- The alphabetical order of a conformance report's declared list, its provider name and kind, and all detail texts.
- Error and warning wording beyond the source label and the error text.
- The cache's `timeout` option and the sharing of slices between the cached snapshot and its copies.
- Rollback identifiers and timestamps, which have second resolution, and concurrent rollback requests, which share
  one working directory.
- Writers to Argo CD or the GitOps repository other than these handlers.
- Scheduler fairness: whether the emitter's select ever picks `done` is not modelled, nor that callers make progress.
- `RoleFor` and `isAmpere`: parameters, since the assembly only applies them to one name or shape.
- A nil `*Emitter`, whose methods do nothing.
- HTTP routing details, pagination, the resource tree builder, the OpenAPI document, middleware, configuration
  loading and the React components: they would only add easy members.
- The build coordinator is not part of this model.
