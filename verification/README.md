# ramjet: proofs

Machine-checked models of the Ingress controller's control plane and of the
engine's I/O machines. `dafny verify dfyconfig.toml` checks all of it.

The compiler turns a bag of cluster objects into a plan and a 64-bit digest; the
rebuild loop publishes when the digest moves; the status writer and the event
emitter write back; the promotion loop walks a canary up its weights or rolls it
back; the applier diffs and publishes. Below them sit a helper thread that
answers every connect with one note, a TLS session, the head rewriter and the
random source.

## How it is modelled

- Compiler: `Config`, `Objects`, `Planning`, `Endpoints`, `Backends`,
  `Certificates`, `Promotions`, `Digests`, `Router`, `Assembly`, `Translate`,
  `Admission`. The loops over mutable state are classes and methods, each tied to
  a function of its inputs; the theorems are about those functions. A hash map is
  walked in an arbitrary order (`Ordering.Walk`), so nothing proved can depend on
  one. `Router` is the table builder the compiler loads, `Assembly` why building
  never fails and what the table serves.
- Digest: `PlanBytes` and `PlanStreams` say which plans share a digest stream,
  `ProtocolFlip` when an edited protocol annotation is published.
- Rebuild protocol: `Rebuild` is a step system over five feeders, a one-slot
  channel and a loop that reads the five stores one at a time; marking a restart,
  changing a store and poking are separate steps. `Controller` is the loop's own
  state, each method one step. `Status`, `Diagnostics` and `WriteBack` are the
  write-back half, and `Cycle` closes it: the loop over the real compiler, its own
  writes coming back to it as watch events.
- Promotion: `Annotations`, `Promotion` (one process, many canaries) and
  `PromotionRun` (one canary over whole runs: versions of the object, a delayed
  view, humans, restarts). `RouteCounters` is the counter blocks that tables share
  and rebuilds carry or replace, `Traffic` what the windows say of the responses
  those blocks recorded, `Miscounts` where they go wrong.
- Generations: `Views` (what a comparison sees of a table), `Diff` and `Publisher`.
- Engine: `Notes`, `Helper`, `TlsSession`, `Codec`, `Headers`, `Rng`.
- `Wrappers`, `Machine`, `Bits`, `Ordering`, `TextOps` are shared.

Outcomes of the world are parameters or choices: what the API server answers,
what `poll`, a pipe or rustls does, clocks, tables read, rendered addresses and
thresholds. `TlsSession` states in its first section everything it relies on of
rustls: reads make progress after processing until the peer closes, and the
acceptor holds at most one constant number of bytes and frees none of them before
the hello is taken. That what does not fit the acceptor is gone depends on the
latter.

## What the proofs say that the comments do not

- `helper.rs` line 310 says job `i` is at `i + 1`. That holds for jobs that were
  polled. A job received after `poll` reads whatever is at its index, which is a
  core's pipe when one owed something; `backlog_start` is computed for this and
  not used. `LateJobReportedConnected` is the consequence,
  `LateJobsReadSilenceExactly` the exact condition, and
  `BoundedLookupSparesLateJobs` what a bounded lookup would give. The code is
  modelled as it is.
- `promotion.rs` lines 542-549 call re-deciding safe when a patch landed and its
  response was lost. While the view lags it is not: the next healthy window writes
  a weight over the rollback. `UndoneExactlyWithoutTrust` shows that, shows the
  same of a restart onto an old list, of a canary that leaves the targets early
  and of a patch that lands after its process died, and shows that with all four
  assumptions no run does it.
- `tls.rs` lines 309-313 promise every byte for a handoff, which holds. A
  connection kept here receives every byte exactly when the hello phase fits the
  acceptor's buffer (`ConservedExactlyWhenHelloFits`); past that the rest of the
  chunk is not offered again, and `OversizedHello` is a connection it happens to.
- A head that came in under the parser's limits can leave over them, because this
  hop adds five to eight fields (`UpstreamReadsBack`, `UpstreamCount`,
  `UpstreamSize`): `AcceptedThenRefused` is one. A client that names Host in
  Connection sends none upstream (`HostUpstream`, `HostStripped`).
- A canary's window is what was served since the last reading exactly when the
  blocks covered now held, then, what was read then, or held less and nothing was
  served (`JudgedIsServed`). Every rebuild that keeps the covered routes and their
  production backends keeps the blocks, and no other does (`BlocksSurviveExactly`);
  while all do, a window counts the responses given, whichever table is published
  (`CoveredResponsesAreCounted`).
  A production backend that moves resets its counter, so the next window loses
  what was served (`ServedAndLost`), or most of it without any reading falling
  (`ServedAndOvertaken`); a route newly covered brings its past into one window
  (`NewlyCoveredCountsItsPast`). Separately, canary responses that land while a
  reading is made are counted as stable in the next (`RaceOvercountsStable`).
- `translate.rs` lines 885-914 drop a canary and a mirror together: either being
  broken costs both, never the route (`ExtrasNeverCostTheRoute`).
- The digest writes no counts between its sections. Plans over objects named as
  the API server lets them be are still told apart (`PlanReadsBack`); with a slash
  in a TLS host two plans need not be (`PlansCanCollide`). That pair is of plans:
  no snapshot is shown to compile to either.
- `diff.rs` compares a mirror by its printed text. Mirrors of two backends can
  print alike exactly when one backend's name is the other's followed by a
  percentage and "host", as a mirror's text is (`MirrorTextsCollideExactly`,
  `MirrorTextsCanCollide`); with no space in a name none can.
- A cached key is served for as long as its handle id recurs. The keys are those
  of the newest generation parsed afresh as long as no two handles of the run
  collide (`KeysAreAlwaysFresh`); where two do, the old key stays
  (`StaleKeyServed`), and a step is right certificate by certificate
  (`ReuseIsExact`).
- A pinned pass sleeps the whole idle poll whatever is due; the bound on
  oversleeping is for unpinned passes.

## Model

| member | source | states |
|---|---|---|
| `Config.RenderThenParse` | crates/ramjet-controller/src/config.rs:176-237 | a Service reference survives being rendered and parsed exactly when it is well formed: no slash in the namespace, a non-negative number or a port name with no colon and no leading digit |
| `Config.ParsedIsWellFormed` | crates/ramjet-controller/src/config.rs:206-237 | everything `from_str` accepts is well formed, so rendering it is safe |
| `Config.ParseThenRender` | crates/ramjet-controller/src/config.rs:176-237 | parsing then rendering gives the text back exactly when a numeric port was written without redundant leading zeros |
| `Config.BackendNamesDistinct` | crates/ramjet-controller/src/config.rs:176-190 | two well-formed references share a backend name only by being the same reference |
| `Config.MalformedNamesCanCollide` | crates/ramjet-controller/src/config.rs:176-190 | without the port-name rule a name and a number render alike, by example |
| `Config.RefOrder` | crates/ramjet-controller/src/config.rs:143-174 | the derived order on references is total and leaves no ties, so a `BTreeMap` walk is one list |
| `Objects.AgeOrder` | crates/ramjet-controller/src/translate.rs:437-441 | creation time, then namespace and name: total, and only objects of one key tie |
| `Objects.RouteOrder` | crates/ramjet-controller/src/translate.rs:240-262 | the route sort key is total and leaves no ties |
| `Planning.Planner.PlanPaths` | crates/ramjet-controller/src/translate.rs:447-515 | one rule's paths claim their routes in turn; a taken one is reported to its author naming the holder |
| `Planning.Planner.PlanRules` | crates/ramjet-controller/src/translate.rs:447-515 | an Ingress's rules claim in order, and its distinct hosts come out in order of first mention |
| `Planning.Planner.PushFallbacks` | crates/ramjet-controller/src/translate.rs:515-552 | a `defaultBackend` beside rules queues a catch-all path for each host, behind those queued before |
| `Planning.Planner.PlanIngress` | crates/ramjet-controller/src/translate.rs:447-552 | the whole new state after planning one Ingress: routes, fallbacks, global default |
| `Planning.Planner.PlanAll` | crates/ramjet-controller/src/translate.rs:323-343 | planning every production Ingress leaves explicit claims first and fallbacks in what is left |
| `Planning.Planner.FillGaps` | crates/ramjet-controller/src/translate.rs:337-343 | fallbacks take only keys nobody holds |
| `Planning.Planner.AttachCanary` | crates/ramjet-controller/src/translate.rs:554-644 | a canary Ingress attaches to planned routes that have none; orphans and latecomers are reported |
| `Planning.Planner.AttachCanaries` | crates/ramjet-controller/src/translate.rs:345-347 | every canary Ingress in turn |
| `Planning.FirstClaimWins` | crates/ramjet-controller/src/translate.rs:323-343 | a key belongs to whoever held it, else to its first claim, else to nobody |
| `Planning.FirstCanaryWins` | crates/ramjet-controller/src/translate.rs:554-644 | attaching adds no key, changes nothing but the canary, never displaces one, and gives a free route its first claimant |
| `Planning.OldestExplicitWins` | crates/ramjet-controller/src/translate.rs:323-343 | whoever declares a route, its owner is a declarer at least as old |
| `Planning.OldestCanaryWins` | crates/ramjet-controller/src/translate.rs:345-347 | whoever claims a planned route as canary, the canary it gets is that of a claimant at least as old, on an otherwise unchanged route |
| `Planning.FallbackYields` | crates/ramjet-controller/src/translate.rs:337-343 | a fallback serves a key only when no Ingress of any age declares it, and the first fallback does |
| `Planning.PlannedIsClaimed` | crates/ramjet-controller/src/translate.rs:323-343 | every planned route was claimed by somebody under its own key |
| `Planning.RefusalsNameTheHolder` | crates/ramjet-controller/src/translate.rs:447-515 | a claim that came second is reported, naming the owner the route ends up with |
| `Planning.ClaimsAreGrantedOrReported` | crates/ramjet-controller/src/translate.rs:447-515 | each claim is either granted or reported, once |
| `Endpoints.EndpointIndex.constructor` | crates/ramjet-controller/src/endpoints.rs:82-113 | Services by name, the last of a name winning, and each Service's slices in arrival order |
| `Endpoints.EndpointIndex.ResolveTarget` | crates/ramjet-controller/src/endpoints.rs:121-195 | the loop over slices, pods and addresses yields the resolution, or the first issue met |
| `Endpoints.ResolvedAddresses` | crates/ramjet-controller/src/endpoints.rs:121-235 | resolved addresses are strictly ascending, never empty, and exactly the parseable ones of serving pods in usable slices of that Service |
| `Endpoints.ResolveForgetsOrder` | crates/ramjet-controller/src/endpoints.rs:142-195 | the same Services and slices in another order resolve every backend identically |
| `Backends.CollectBackends` | crates/ramjet-controller/src/translate.rs:662-710 | every distinct backend and how to dial it, whatever order the plan's hash map is walked in |
| `Backends.BackendsAreClosed` | crates/ramjet-controller/src/translate.rs:662-710 | a reference is registered exactly when a route, canary, mirror or the default names it |
| `Backends.ProtocolIsTheFirstClaims` | crates/ramjet-controller/src/translate.rs:662-710 | a shared Service port is dialled as the first claim in route order asked |
| `Backends.DefaultAloneIsHttp1` | crates/ramjet-controller/src/translate.rs:702-709 | a default backend no route names is dialled as HTTP/1.1 |
| `Backends.RegisterBackends` | crates/ramjet-controller/src/translate.rs:719-798 | registration succeeds exactly when no two backends share a name, with unresolvable ones registered empty, and folds each into the digest |
| `Backends.RegistrationSucceeds` | crates/ramjet-controller/src/translate.rs:719-798 | well-formed references never share a registered name |
| `Backends.RegisteredExactlyOnce` | crates/ramjet-controller/src/translate.rs:719-798 | each referenced backend is registered once, with its own resolution and protocol, under a name nothing else has |
| `Backends.ProtocolFlipShows` | crates/ramjet-controller/src/translate.rs:774-786 | flipping the protocol of one registered backend changes the digest, whatever follows |
| `Certificates.SecretIndex.constructor` | crates/ramjet-controller/src/tls.rs:68-80 | Secrets with a namespace and a name, indexed |
| `Certificates.SecretIndex.Material` | crates/ramjet-controller/src/tls.rs:87-136 | the checks in order, and a handle id that hashes namespace, name and content |
| `Certificates.CertRegistry.TakeEntry` | crates/ramjet-controller/src/translate.rs:945-1005 | one `spec.tls` entry claims its normalised hosts when it has a usable Secret, and stores the material |
| `Certificates.RegisterCertificates` | crates/ramjet-controller/src/translate.rs:926-1048 | SNI map, material and default certificate, folded into the digest in host order |
| `Certificates.OldestCertificateWins` | crates/ramjet-controller/src/translate.rs:988-1003 | a host answers with the certificate of an Ingress at least as old as any that brings a usable one |
| `Certificates.NoHandleWithoutMaterial` | crates/ramjet-controller/src/translate.rs:926-1048 | whatever handle a handshake can be answered with, its material is shipped under that id |
| `Certificates.SecretsForgetOrder` | crates/ramjet-controller/src/tls.rs:68-80 | the Secret index does not depend on arrival order |
| `Promotions.CoveredRoutes` | crates/ramjet-controller/src/translate.rs:1099-1124 | filtering the plan's hash map and sorting gives one list however it is walked |
| `Promotions.CoveredIsAttached` | crates/ramjet-controller/src/translate.rs:1099-1124 | covered routes are ascending and exactly those the canary attached to |
| `Promotions.CollectPromotions` | crates/ramjet-controller/src/translate.rs:1074-1152 | targets sorted by key, digested in age order |
| `Promotions.PromotedExactlyWhenAttached` | crates/ramjet-controller/src/translate.rs:1066-1115 | a canary is handed to the promotion loop exactly when it opted in and holds a route |
| `Digests.StepIsABijection` | crates/ramjet-controller/src/digest.rs:34-40 | for every byte, mixing it in is a bijection on the 2^64 states |
| `Digests.OneByteChangeShows` | crates/ramjet-controller/src/digest.rs:34-40 | two equal-length streams differing in one byte always hash apart, with no collision assumption |
| `Digests.DivergenceIsPermanent` | crates/ramjet-controller/src/digest.rs:34-40 | different states stay different whatever is mixed in after them |
| `Digests.StreamPrefixFree` | crates/ramjet-controller/src/digest.rs:42-71 | items written by the same calls can be told apart, and told from what follows, by their bytes alone |
| `Digests.Utf8Injective` | crates/ramjet-controller/src/digest.rs:42-50 | text is hashed by its bytes, which are no other text's |
| `Digests.Digest.Bytes` | crates/ramjet-controller/src/digest.rs:34-40 | the loop is FNV-1a over the bytes |
| `Digests.Digest.Str` | crates/ramjet-controller/src/digest.rs:42-50 | length first, then the bytes |
| `Digests.Digest.OptStr` | crates/ramjet-controller/src/digest.rs:60-71 | a tag tells none from empty |
| `Digests.CertHandleId` | crates/ramjet-controller/src/digest.rs:76-92 | the handle hashes four length-prefixed parts |
| `Digests.CertStreamInjective` | crates/ramjet-controller/src/digest.rs:76-92 | bytes cannot move between the four parts of a handle unseen |
| `Translate.Compile` | crates/ramjet-controller/src/translate.rs:309-403 | the compiler's phases, the router's table builder among them, give the table, material, promotions and digest of the specification, and fail exactly on a repeated backend name |
| `Translate.TableIsBuilt` | crates/ramjet-controller/src/translate.rs:386-403 | a compiled plan's keys are normal and its references registered, so the router builds its table |
| `Translate.RegisterRoutes` | crates/ramjet-controller/src/translate.rs:801-922 | routes are digested in route order whether taken or not, and the builder holds exactly those the router takes, each with its canary and mirror or without both |
| `Translate.ManagedIsFilteredByAge` | crates/ramjet-controller/src/translate.rs:410-443 | managed Ingresses are exactly the filtered ones, oldest first |
| `Translate.CompilationForgetsOrder` | crates/ramjet-controller/src/translate.rs:309-403 | the same objects in any order and after any previous table compile to the same plan, promotions and digest |
| `Translate.FlippedProtocolRepublishes` | crates/ramjet-controller/src/translate.rs:774-786 | plans that differ in one backend's protocol have different digests, so the change is published |
| `Translate.RouteReadsBack` | crates/ramjet-controller/src/translate.rs:801-850 | a route's digested bytes say where its entry ends and agree with another's only when every digested field does, with or without canary and mirror |
| `Translate.RouteFieldsMeanTheRoute` | crates/ramjet-controller/src/translate.rs:801-850 | equal digest fields mean the same key and backend, and the same canary and mirror fields |
| `PlanStreams.PlanReadsBack` | crates/ramjet-controller/src/translate.rs:719-850 | two plans over plainly named objects share a digest stream exactly when all five sections agree, whatever their sizes |
| `PlanStreams.PlansCanCollide` | crates/ramjet-controller/src/translate.rs:801-850 | without plain names two plans can share a stream: a route reads as a certificate host and a default certificate, by example |
| `ProtocolFlip.AnnotationRepublishesExactly` | crates/ramjet-controller/src/translate.rs:662-786 | editing an Ingress's protocol annotation moves only Service ports it names; what the digest hashes changes exactly when one moves, and the digest whenever exactly one does |
| `Router.SlotsCollideExactly` | crates/ramjet-controller/src/translate.rs:1051-1061 | two hosts share a slot in the router exactly when the translator had normalised them alike |
| `Router.SameNormalForm` | crates/ramjet-router/src/builder.rs:785-828 | a host the router takes is normalised by the translator to what the router displays |
| `Router.ExtrasNeverCostTheRoute` | crates/ramjet-controller/src/translate.rs:885-914 | a route is in exactly when its own host and path are acceptable, and keeps its canary and mirror exactly when both are |
| `Router.RouteTableBuilder.Route` | crates/ramjet-controller/src/translate.rs:883-922 | a planned route is added whole, else plain, else refused |
| `Router.RouteTableBuilder.BackendWith` | crates/ramjet-router/src/builder.rs:345-366 | a backend is registered unless its name is taken |
| `Router.RouteTableBuilder.Build` | crates/ramjet-router/src/builder.rs:518-676 | grouping, the collision check, name resolution and the precedence order give the specified table or its first error |
| `Router.RulesAreTheDrafts` | crates/ramjet-router/src/builder.rs:556-640 | drafts in distinct places with known names make a table of exactly their rules |
| `Router.RulesAreInPrecedence` | crates/ramjet-router/src/path.rs:173-178 | in a built table rules stand exact first, then prefixes from longest to shortest, then patterns in the order they were added |
| `Assembly.BuildSucceeds` | crates/ramjet-router/src/builder.rs:518-676 | building never fails on a plan whose keys are normal and whose references are registered |
| `Assembly.TableServesThePlan` | crates/ramjet-controller/src/translate.rs:801-922 | the table's rules are exactly those of the accepted routes |
| `Assembly.ServedByItsBackend` | crates/ramjet-router/src/builder.rs:600-676 | a rule sends to the backend its route named, canary and mirror too |
| `Admission.CompilationSucceeds` | crates/ramjet-controller/src/translate.rs:303-308 | on admitted objects and a parsed default backend compilation never fails, the router's own refusals included |
| `Admission.GoodRoutes` | crates/ramjet-controller/src/translate.rs:662-671 | every planned route refers to well-formed backends only, mirrors included because they are parsed here |
| `WriteBack.WriteBackIsInvisible` | crates/ramjet-controller/src/annotations.rs:73-86 | snapshots that differ only in the written-back generation compile identically |
| `Cycle.CompilesItsEssence` | crates/ramjet-controller/src/watch.rs:320-360 | the real compiler over the five stores looks at nothing the write-back touches |
| `Cycle.OwnWritesNeverPublish` | crates/ramjet-controller/src/watch.rs:364-392 | watch events that carry only our own annotations never advance the generation, in any interleaving |
| `Cycle.StepPays` | crates/ramjet-controller/src/status.rs:164-204 | each step of the closed cycle writes only what is owed, and settles exactly that |
| `Cycle.CycleEnds` | crates/ramjet-controller/src/status.rs:290-313 | from a steady state the cycle of writes, watch events and rebuilds publishes nothing, writes nothing twice and ends within a bounded number of steps |
| `Cycle.QuietOrMoves` | crates/ramjet-controller/src/watch.rs:261-312 | the cycle stops only with the loop quiet and every event delivered |
| `Rebuild.QuietMeansCurrent` | crates/ramjet-controller/src/watch.rs:226-408 | in every interleaving, once quiet: the last compile saw the stores as they are, its digest is the published one, every restart was answered, and neighbouring publishes differ |
| `Rebuild.UpdatesKept` | crates/ramjet-controller/src/watch.rs:226-312 | no step loses an update: a change the snapshot misses leaves the slot full, a poke owed, or the loop bound to read that store again |
| `Rebuild.RestartsKept` | crates/ramjet-controller/src/watch.rs:279-289 | no step drops an unanswered restart, and the flag will be looked at again |
| `Rebuild.PublishesKept` | crates/ramjet-controller/src/watch.rs:364-392 | generations count publishes and neighbours differ, after every step |
| `Rebuild.Settles` | crates/ramjet-controller/src/watch.rs:301-312 | once the cluster stops changing the system is quiet within a bounded number of steps |
| `Rebuild.QuietOrEnabled` | crates/ramjet-controller/src/watch.rs:261-312 | a system past its initial lists is quiet or can move without the cluster |
| `Rebuild.InessentialEventsNeverPublish` | crates/ramjet-controller/src/watch.rs:364-392 | watch events that change nothing compiled never advance the generation, in any interleaving |
| `Rebuild.Controller.MarkRestart` | crates/ramjet-controller/src/watch.rs:247-250 | a new list sets the restart flag before the poke |
| `Rebuild.Controller.TrySend` | crates/ramjet-controller/src/watch.rs:254-256 | a poke fills the slot or finds it full |
| `Rebuild.Controller.TakeResynced` | crates/ramjet-controller/src/watch.rs:280-289 | the caches are invalidated exactly when a restart was unanswered |
| `Rebuild.Controller.ReadStore` | crates/ramjet-controller/src/watch.rs:100-108 | each store is read once per rebuild |
| `Rebuild.Controller.Rebuild` | crates/ramjet-controller/src/watch.rs:330-392 | publishes one generation further exactly when the digest is new; a failed compile keeps the last table |
| `Rebuild.Controller.Receive` | crates/ramjet-controller/src/watch.rs:301-311 | a receive empties the slot and opens or continues the window |
| `Status.StatusWriter.Sync` | crates/ramjet-controller/src/status.rs:164-204 | clears each stale address once, then visits managed Ingresses in order; only what stuck is remembered |
| `Status.StatusWriter.ClearUnmanaged` | crates/ramjet-controller/src/status.rs:172-187 | stale entries are cleared in any order, each once, and kept when the clear fails |
| `Status.StatusWriter.VisitOne` | crates/ramjet-controller/src/status.rs:193-203 | address if it differs, generation if neither the view nor the cache has it |
| `Status.StatusWriter.Invalidate` | crates/ramjet-controller/src/status.rs:210-213 | forgets everything written |
| `Status.SyncSendsWhatIsDue` | crates/ramjet-controller/src/status.rs:164-204 | a call is made exactly when it is due: none too many, none forgotten |
| `Status.SyncPays` | crates/ramjet-controller/src/status.rs:164-204 | every call that lands was owed and is owed no more, and nothing else changes |
| `Status.NothingLandsTwice` | crates/ramjet-controller/src/status.rs:306-313 | over any run towards one goal no write lands twice, whatever the view shows and whichever calls fail |
| `Status.SecondSyncIsSilent` | crates/ramjet-controller/src/status.rs:306-313 | after a sync whose calls all landed the next one sends nothing |
| `Status.AnnotatedOncePerGeneration` | crates/ramjet-controller/src/status.rs:306-313 | at most one annotation per Ingress per generation while generations advance and it stays managed |
| `Diagnostics.Group` | crates/ramjet-controller/src/diagnostics.rs:162-184 | refusals by object, sorted; objects with none are absent |
| `Diagnostics.HashGroup` | crates/ramjet-controller/src/diagnostics.rs:186-194 | one hash per object over its refusals |
| `Diagnostics.WarningEvents.Sync` | crates/ramjet-controller/src/diagnostics.rs:108-159 | exactly the objects with a uid and a changed hash are reported, in key order, and the cache follows |
| `Diagnostics.WarningEvents.Invalidate` | crates/ramjet-controller/src/diagnostics.rs:90-98 | forgets what was said |
| `Diagnostics.SyncRefinesLastTold` | crates/ramjet-controller/src/diagnostics.rs:100-159 | one sync reports exactly what the specification that remembers refusals would, but for lists that share a hash |
| `Diagnostics.RunRefinesLastTold` | crates/ramjet-controller/src/diagnostics.rs:90-159 | over every run an object is reported exactly when it has a uid and its refusals are neither those last told since it was clean or the cache invalidated nor of one hash with them |
| `Diagnostics.GroupForgetsOrder` | crates/ramjet-controller/src/diagnostics.rs:162-184 | the order of the translator's warnings never looks like a change |
| `Diagnostics.GroupIsItsRefusals` | crates/ramjet-controller/src/diagnostics.rs:162-184 | two groups are equal exactly when their refusals are, counted |
| `Diagnostics.GroupBytesAreItsOwn` | crates/ramjet-controller/src/diagnostics.rs:186-194 | the hashed bytes are one refusal list's and no other's, of any length |
| `Annotations.ParseSteps` | crates/ramjet-controller/src/annotations.rs:453-472 | the loop reads the steps, refusing any field that is not a number in 1..100 |
| `Annotations.StepsAreALadder` | crates/ramjet-controller/src/annotations.rs:449-472 | parsed steps are never empty, strictly ascending, in 1..100, and exactly those written |
| `Annotations.SpelledReadsBack` | crates/ramjet-controller/src/annotations.rs:449-472 | a ladder written out parses back to itself |
| `Annotations.NextIsLeast` | crates/ramjet-controller/src/annotations.rs:413-416 | the next step is the least configured one above the weight, and absent exactly at the top |
| `Annotations.ClimbingUsesARung` | crates/ramjet-controller/src/annotations.rs:413-416 | each step leaves strictly fewer rungs above |
| `Annotations.ParseDuration` | crates/ramjet-controller/src/annotations.rs:430-446 | an interval is never zero, in whatever unit |
| `Annotations.DurationReadsBack` | crates/ramjet-controller/src/annotations.rs:430-446 | a number of seconds, minutes or hours reads as that many seconds, saturating; zero and numbers past 64 bits are refused |
| `Annotations.DurationIsTrimmed` | crates/ramjet-controller/src/annotations.rs:430-446 | spaces around it do not matter |
| `Promotion.DecideExactly` | crates/ramjet-ingressd/src/promotion.rs:161-224 | each verdict exactly when its gates say so, stated without division |
| `Promotion.HostMatchesDisplay` | crates/ramjet-ingressd/src/promotion.rs:286-302 | comparing hosts variant by variant is comparing what they display |
| `Promotion.Read` | crates/ramjet-ingressd/src/promotion.rs:450-481 | the counters of every covered route, summed, or nothing when none is in the table |
| `Promotion.WindowsPartition` | crates/ramjet-router/src/stats.rs:243-263 | windows add up to no less than the last reading less the first, and to just that exactly when no reading falls |
| `Promotion.Promoter.Apply` | crates/ramjet-ingressd/src/promotion.rs:484-560 | the patch of the verdict; only one that stuck finishes the canary |
| `Promotion.Promoter.Evaluate` | crates/ramjet-ingressd/src/promotion.rs:426-447 | the reading replaces the baseline whatever is decided; the first reading decides nothing |
| `Promotion.Promoter.Visit` | crates/ramjet-ingressd/src/promotion.rs:405-420 | skips the finished, waits for the deadline, reschedules before evaluating |
| `Promotion.Promoter.Retain` | crates/ramjet-ingressd/src/promotion.rs:398-403 | canaries that have gone are forgotten |
| `Promotion.Promoter.RunPass` | crates/ramjet-ingressd/src/promotion.rs:381-423 | the whole memory after a pass; a pinned pass touches nothing; an unpinned one oversleeps no unfinished deadline by the minimum tick |
| `Promotion.VisitedAlone` | crates/ramjet-ingressd/src/promotion.rs:405-422 | a pass treats each canary as if it were the only one |
| `Promotion.WindowsAreConsecutive` | crates/ramjet-ingressd/src/promotion.rs:426-447 | over any run of passes each window runs from one reading to the next: holds, failed patches, missing routes and pins skip nothing |
| `Promotion.JudgedIsRead` | crates/ramjet-ingressd/src/promotion.rs:426-447 | over any run of passes the windows add up to last reading less first, on each side exactly when that side's readings never fell |
| `RouteCounters.Rebuild` | crates/ramjet-router/src/stats.rs:402-425 | the loop carries the block of every identity the previous table indexed and numbers a new one for any other |
| `RouteCounters.RebuiltIsIndexed` | crates/ramjet-router/src/stats.rs:402-425 | after a rebuild each route has its own block, carried exactly when its identity was known |
| `RouteCounters.BlocksCountWhatIsRecorded` | crates/ramjet-router/src/stats.rs:366-373 | over any run of responses, rebuilds and publishes a block advances by exactly what was recorded in it, on either side |
| `Traffic.ReadingIsSeen` | crates/ramjet-ingressd/src/promotion.rs:450-481 | a reading is the sum over the covered blocks of the published table |
| `Traffic.WindowIsServedExactly` | crates/ramjet-ingressd/src/promotion.rs:426-447 | a window is what the covered blocks held and recorded since, less what was read; and is what was served exactly when they held what was read, or held less and served nothing |
| `Traffic.BlocksSurviveExactly` | crates/ramjet-router/src/stats.rs:402-425 | a rebuild keeps a canary's counters exactly when it keeps the covered routes' hosts, paths, types and production backends |
| `Traffic.CoverageSurvives` | crates/ramjet-router/src/stats.rs:366-373 | while every table built keeps them, all of those tables read the same counters |
| `Traffic.CoveredResponsesAreCounted` | crates/ramjet-ingressd/src/promotion.rs:426-447 | meanwhile a window counts the responses recorded on the covered routes between its readings, the canary's and the rest |
| `Traffic.JudgedIsServed` | crates/ramjet-ingressd/src/promotion.rs:426-447 | every window judged over a run of passes from a first sighting is what was served since the last reading exactly under that condition, on each side |
| `Traffic.SteadyTrafficIsJudged` | crates/ramjet-ingressd/src/promotion.rs:426-447 | while the covered blocks stay the same every canary request between first and last reading is judged, once |
| `Miscounts.ServedAndLost` | crates/ramjet-router/src/stats.rs:345-353 | after a production backend moves the next window can miss everything served, by example |
| `Miscounts.ServedAndOvertaken` | crates/ramjet-router/src/stats.rs:345-353 | or most of it with no reading falling, by example |
| `Miscounts.NewlyCoveredCountsItsPast` | crates/ramjet-ingressd/src/promotion.rs:450-481 | a route newly covered is counted with its whole past, by example |
| `Miscounts.RaceOvercountsStable` | crates/ramjet-router/src/stats.rs:247-251 | canary responses landing between the two reads of a slot are counted as stable in the next window, by example |
| `PromotionRun.PatchesChangeWhatTheyName` | crates/ramjet-ingressd/src/promotion.rs:499-540 | a step changes only the weight, a promotion only the status, a rollback weight, arming and status |
| `PromotionRun.RollbackIsOneWay` | crates/ramjet-ingressd/src/promotion.rs:405-408 | after a landed rollback the loop sends nothing until a human clears the status, through lag, restarts and edits |
| `PromotionRun.NoPatchAfterRollback` | crates/ramjet-ingressd/src/promotion.rs:231-233 | from any guarded state with an uncleared rollback, no run contains a decision or a patch |
| `PromotionRun.UndoneExactlyWithoutTrust` | crates/ramjet-ingressd/src/promotion.rs:542-560 | some run writes a weight over an uncleared rollback exactly when one of four assumptions is dropped: fresh restarts, canaries that stay listed, failed patches that did not land, patches that never land late |
| `PromotionRun.LadderIsClimbed` | crates/ramjet-ingressd/src/promotion.rs:220-223 | left alone, with fresh restarts and nothing landing late, the weight never falls and rises at most as often as there were rungs |
| `PromotionRun.PromotedAtTheTop` | crates/ramjet-ingressd/src/promotion.rs:220-223 | a canary is promoted only when no configured step is above the weight seen |
| `PromotionRun.LateStep` | crates/ramjet-ingressd/src/promotion.rs:542-560 | a weight in flight when its process dies can land over the next process's rollback, by example |
| `PromotionRun.PassIsARun` | crates/ramjet-ingressd/src/promotion.rs:381-423 | a pass over a canary it lists is a run of this system: the same decision, history and memory |
| `PromotionRun.OtherPassesAreEvents` | crates/ramjet-ingressd/src/promotion.rs:381-403 | a pass that does not list the canary is its vanishing, and a pinned one nothing |
| `Diff.Compute` | crates/ramjet-controller/src/diff.rs:109-201 | the walks and sorts yield the difference of the two tables' views, whatever order the maps are walked in |
| `Diff.CompareRoutes` | crates/ramjet-controller/src/diff.rs:119-167 | added, removed, moved and mirrored routes, each a sorted list |
| `Diff.CompareCerts` | crates/ramjet-controller/src/diff.rs:174-192 | certificates that appeared, changed or went, in one list, and two counts |
| `Diff.EmptyExactlyWhenEqual` | crates/ramjet-controller/src/diff.rs:203-219 | a difference is empty exactly when the two views are equal |
| `Diff.CountsBalance` | crates/ramjet-controller/src/diff.rs:109-192 | added less removed is the change in size for routes, mirrors, hosts and certificates |
| `Diff.RotatedCountsReplacements` | crates/ramjet-controller/src/diff.rs:254-258 | the summary's subtraction never saturates and counts the replacements |
| `Diff.SwapSwaps` | crates/ramjet-controller/src/diff.rs:109-201 | swapping the arguments swaps added for removed and keeps what is symmetric |
| `Diff.SummaryIsSilentExactlyWhenEqual` | crates/ramjet-controller/src/diff.rs:227-290 | the summary has something to say exactly when something compared is different |
| `Views.CompiledIsUnambiguous` | crates/ramjet-controller/src/diff.rs:326-380 | in a compiled table no two hosts print alike and no host holds a path twice, so the view loses nothing |
| `Views.ReportsApart` | crates/ramjet-controller/src/diff.rs:326-360 | two routes are reported under one name only by being one route |
| `Views.PlanIsInView` | crates/ramjet-controller/src/diff.rs:326-360 | the view shows a planned route exactly when the router took it, with the backend, endpoints and protocol planned |
| `Views.MirrorTextsDiffer` | crates/ramjet-controller/src/diff.rs:326-360 | mirrors print alike exactly when they are alike, while backend names hold no space |
| `Views.MirrorTextsCollideExactly` | crates/ramjet-controller/src/diff.rs:326-360 | mirrors of two backends can print alike exactly when one name is the other opened as a mirror's text is, up to "host", and ends there or goes on with a space |
| `Views.MirrorTextsCanCollide` | crates/ramjet-controller/src/diff.rs:326-360 | two well-formed references with spaces print as one mirror, by example |
| `Publisher.KeyCache.Prepare` | crates/ramjet-ingressd/src/kubernetes.rs:117-153 | the keys are the cached one under each reused id and the parsed one otherwise, and become the cache |
| `Publisher.KeysAreAlwaysFresh` | crates/ramjet-ingressd/src/kubernetes.rs:117-153 | over any run of generations without two handles colliding the keys are those of the newest parsed from scratch |
| `Publisher.ReuseIsExact` | crates/ramjet-ingressd/src/kubernetes.rs:117-153 | reusing gives what parsing from scratch would exactly when every reused certificate parses to the key held under its id |
| `Publisher.StaleKeyServed` | crates/ramjet-ingressd/src/kubernetes.rs:117-153 | a handle that stood for other material keeps serving the old key |
| `Publisher.CountsCover` | crates/ramjet-ingressd/src/kubernetes.rs:117-153 | reused, parsed and rejected cover every certificate, the first two are what is held, and nothing cached is parsed again |
| `Publisher.Applier.Apply` | crates/ramjet-ingressd/src/kubernetes.rs:565-611 | each generation is compared with its own predecessor, published or not, and readiness never goes back |
| `Publisher.ChainTelescopes` | crates/ramjet-ingressd/src/kubernetes.rs:565-587 | along the whole chain what was added less what was removed is what the newest table has |
| `Publisher.ReadyStaysReady` | crates/ramjet-ingressd/src/kubernetes.rs:603-610 | nothing that follows takes readiness back |
| `Notes.DecodeEncode` | crates/ramjet-engine/src/helper.rs:74-102 | decode undoes encode for every descriptor and error, negative ones included |
| `Notes.NoteReader.Feed` | crates/ramjet-engine/src/helper.rs:113-134 | either path emits every completed note and keeps the rest, under one note long |
| `Notes.ChunkingDoesNotMatter` | crates/ramjet-engine/src/helper.rs:105-134 | however the pipe splits the stream the notes are the same |
| `Notes.WrittenIsRead` | crates/ramjet-engine/src/helper.rs:74-134 | what a core reads is what was written, in order, however it arrives |
| `Helper.HelperLoop.Hand` | crates/ramjet-engine/src/helper.rs:192-206 | a job handed over is in the channel |
| `Helper.HelperLoop.BuildPollSet` | crates/ramjet-engine/src/helper.rs:235-260 | wake pipe, pending sockets, owing pipes, in that order |
| `Helper.HelperLoop.Drain` | crates/ramjet-engine/src/helper.rs:280-290 | everything handed over by now is received, polled or not |
| `Helper.HelperLoop.Judge` | crates/ramjet-engine/src/helper.rs:308-332 | the backward walk with `swap_remove` judges every job once, by its own index |
| `Helper.HelperLoop.Retire` | crates/ramjet-engine/src/helper.rs:308-332 | answers what is over and loses track of nothing |
| `Helper.HelperLoop.TickAll` | crates/ramjet-engine/src/helper.rs:334-344 | a tick is queued only for a core owed nothing |
| `Helper.HelperLoop.FlushCore` | crates/ramjet-engine/src/helper.rs:358-390 | a prefix goes out whole and in order; the rest waits, or is dropped only on a torn or refused write |
| `Helper.HelperLoop.FlushAll` | crates/ramjet-engine/src/helper.rs:358-390 | every core's queue, nothing overtaking anything |
| `Helper.HelperLoop.Stop` | crates/ramjet-engine/src/helper.rs:291-304 | with healthy pipes every job handed over has exactly one note, queued or delivered |
| `Helper.HelperLoop.Round` | crates/ramjet-engine/src/helper.rs:262-346 | one pass keeps the ledger: each job handed over is in the channel, pending, queued, delivered or lost, once |
| `Helper.RetiringConserves` | crates/ramjet-engine/src/helper.rs:308-332 | retiring moves each finished job from `pending` to its own core's queue |
| `Helper.LateJobsReadSilenceExactly` | crates/ramjet-engine/src/helper.rs:310-312 | polled jobs read their own entry; jobs received after the poll see nothing of it exactly when there were none or no pipe owed anything |
| `Helper.BoundedLookupSparesLateJobs` | crates/ramjet-engine/src/helper.rs:250-250 | a lookup bounded by `backlog_start` spares every late job |
| `Helper.LateJobReportedConnected` | crates/ramjet-engine/src/helper.rs:310-330 | a job received after the poll can be reported connected while its socket was never polled, by example |
| `TlsSession.Session.Feed` | crates/ramjet-engine/src/tls.rs:171-190 | every state's whole effect: replay and pending grow by the chunk, live bytes reach the record layer once in order, dead stays dead |
| `TlsSession.Session.FeedHello` | crates/ramjet-engine/src/tls.rs:192-228 | the acceptor holds the longest prefix that fits; replay holds everything |
| `TlsSession.Session.FeedLive` | crates/ramjet-engine/src/tls.rs:230-263 | a chunk is taken whole unless refused or closed, and failure leaves the alert to flush |
| `TlsSession.Session.Accept` | crates/ramjet-engine/src/tls.rs:275-307 | what the acceptor read, then what was held, reach the record layer once each |
| `TlsSession.Session.IntoReplay` | crates/ramjet-engine/src/tls.rs:309-316 | until accepted, every byte fed can be replayed |
| `TlsSession.Session.Seal` | crates/ramjet-engine/src/tls.rs:326-349 | rustls is handed exactly the prefix reported, and the wire grows by exactly what it produced for it |
| `TlsSession.Session.TakeWire` | crates/ramjet-engine/src/tls.rs:351-354 | taking bytes off the wire keeps what was taken and what waits together all a live connection ever produced |
| `TlsSession.Session.TakeEstablished` | crates/ramjet-engine/src/tls.rs:385-391 | a completed handshake is reported at most once |
| `TlsSession.ConservedExactlyWhenHelloFits` | crates/ramjet-engine/src/tls.rs:192-209 | a live session's record layer has received every byte fed exactly when the hello phase fits the acceptor |
| `TlsSession.OversizedHello` | crates/ramjet-engine/src/tls.rs:192-209 | a hello chunk longer than the acceptor holds, accepted, gives a live session whose record layer never receives the tail |
| `Codec.WrittenReadsBack` | crates/ramjet-engine/src/codec/head.rs:201-256 | a good head written out parses back to itself, unless it is over one of the two limits |
| `Codec.ParsedIsGood` | crates/ramjet-engine/src/codec/head.rs:267-400 | whatever the parser lets in is a head a hop can write out again |
| `Codec.FieldsReadBack` | crates/ramjet-engine/src/codec/head.rs:346-395 | good fields parse back in order, up to the limit on their number |
| `Headers.HeadWriter.WriteUpstreamRequest` | crates/ramjet-engine/src/headers.rs:173-251 | the head appended is request line, forwarded fields in order, then this hop's |
| `Headers.OnlyForwardableCross` | crates/ramjet-engine/src/headers.rs:66-117 | exactly the fields that are not hop-by-hop, self-written or named on any Connection line cross, in order |
| `Headers.OneTrailOneId` | crates/ramjet-engine/src/headers.rs:127-170 | one X-Forwarded-For goes upstream with every inbound trail and the client, and one request id |
| `Headers.HostUpstream` | crates/ramjet-engine/src/headers.rs:196-214 | at most one Host goes upstream, and none exactly when a Connection line names the client's |
| `Headers.HostStripped` | crates/ramjet-engine/src/headers.rs:196-214 | a request with a Host that goes upstream with none, by example |
| `Headers.UpstreamReadsBack` | crates/ramjet-engine/src/headers.rs:173-251 | the head written reads back as the same method and target, the forwarded fields, then this hop's, exactly when it fits the parser's two limits |
| `Headers.UpstreamCount` | crates/ramjet-engine/src/headers.rs:173-251 | the fields sent are the forwardable ones that came in, and five to eight of this hop's |
| `Headers.UpstreamSize` | crates/ramjet-engine/src/headers.rs:173-251 | how long the head sent is, from the fields that came in, the hop and how the message goes on |
| `Headers.AcceptedThenRefused` | crates/ramjet-engine/src/headers.rs:173-251 | a head the parser accepts and, forwarded, refuses, by example |
| `Headers.TwoHopsAppend` | crates/ramjet-engine/src/headers.rs:127-170 | a second hop appends to the first one's trail and keeps its request id |
| `Headers.IdInto` | crates/ramjet-engine/src/headers.rs:151-165 | the first 32 bytes of the id and its real length |
| `Bits.ShiftedIsArithmetic` | crates/ramjet-engine/src/rng.rs:54-56 | shifting a word by k places, one at a time, is multiplying by 2^k modulo 2^64 or dividing by 2^k |
| `Rng.FoldIsABijection` | crates/ramjet-engine/src/rng.rs:54-56 | mixing a word with itself shifted, either way and by any distance, loses nothing: folding 63 times more undoes it |
| `Rng.StepIsABijection` | crates/ramjet-engine/src/rng.rs:51-60 | every xorshift state has exactly one predecessor, and zero's is zero |
| `Rng.NeverStuck` | crates/ramjet-engine/src/rng.rs:45-60 | a seeded state never reaches zero |
| `Rng.Generator.NextU64` | crates/ramjet-engine/src/rng.rs:51-60 | the state advances by one xorshift step and never sticks |
| `Rng.Generator.Below` | crates/ramjet-engine/src/rng.rs:66-71 | the roll is below its bound and a zero bound draws nothing |
| `Rng.RollsBelow` | crates/ramjet-engine/src/rng.rs:62-71 | for every w up to the bound exactly ceil(w * 2^64 / bound) words roll below w |
| `Rng.RollIsFair` | crates/ramjet-engine/src/rng.rs:62-71 | each outcome is rolled by floor or ceil of 2^64 / bound of the words |
| `Rng.Generator.HexId` | crates/ramjet-engine/src/rng.rs:74-80 | two words' digits fill the array |
| `Rng.IdHoldsBothWords` | crates/ramjet-engine/src/rng.rs:73-80 | an id is 32 lower-case hex digits that read back as both words |

## Left out

- Reading raw annotations, except the promotion steps and interval: an Ingress carries them parsed, as the parsers read named keys only.
- The class filter: a predicate on Ingresses.
- Warnings other than refused claims and the per-object refusals: no rule depends on them.
- Matching a request against the table, and the per-backend load-balancing state a table carries over.
- A response counts in a route's block and in its canary block at one moment, and a slot's shards are read at one moment; only the two blocks of a slot are read apart.
- Which header patterns and regular-expression paths compile: a parameter.
- The collision case of two certificates with one handle id, beyond what `NoHandleWithoutMaterial` says of it.
- Promotion thresholds are exact rationals, and their six-decimal rendering is a parameter.
- Generations and counters are unbounded in `Rebuild`, `Status` and `Promotion`; `Translate` has the saturating step.
- `PlanStreams.PlansCanCollide`: the two plans are not shown to come from any snapshot.
- `PlanStreams.PlanReadsBack`: says when plans share a stream, not when two streams share an FNV-1a hash.
- `Publisher.KeysAreAlwaysFresh`: assumes no two handles of the run collide; `ReuseIsExact` is the exact condition at one step.
- `Helper.HelperLoop.Round`: a failed `poll` ends the thread with its jobs unanswered, as the source does; the ledger still accounts for them.
- `Helper.HelperLoop.Stop`: a pipe that stays full through a hundred attempts keeps its notes queued when the thread leaves.
- `PromotionRun.RollbackIsOneWay`: one process at a time, in-order views, and the four assumptions `UndoneExactlyWithoutTrust` proves necessary.
- `Status.AnnotatedOncePerGeneration`: an Ingress that leaves the managed set and returns is written again, as the source intends.
- The response head writer, cookies, routing accessors and gRPC tests of `headers.rs`.
- The scan cursor that resumes the search for a head's end across reads; heads are parsed from whole buffers.
- Seeding from the clock: any mixed word, with its low bit set.
- Sockets, threads, the reactor, the Kubernetes client, Events, webhooks, metrics, admin JSON, `class.rs`, `route.rs`, `metrics.rs`, `engine.rs`, `mirror.rs`, command line and static configuration.
