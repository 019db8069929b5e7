# Verified model of the Cloudflare Zero Trust provider and its route broker

This project models, in Dafny 4.11, how several ExternalDNS provider instances share one Cloudflare
account, how each keeps a hostname's two legs (the Cloudflare route and the CoreDNS rewrite) together,
and how the route broker keeps clients of one account apart. It proves what the code and its
documentation promise about them.

`dafny verify dfyconfig.toml` checks everything.

## How it is laid out

The account is a value: live routes by lower-case hostname, the routes deleted so far, and a bound on the
ids in use (`routes.dfy`). Every call takes a `Reply`: it works, it fails, or it is *lost* — it took
effect and its answer never arrived. The network an instance meets in one reconciliation is a function
from operation and key to reply, so every result holds for every pattern of failures.

| files | what they hold |
|---|---|
| `wrappers`, `text`, `sorting`, `domains` | options and results, the string operations, sorting, domain suffixes as label suffixes |
| `resolver` | TUNNEL_MAP and TUNNEL_DRAIN: the map resolver and its most-specific-domain meaning |
| `fragment_codec`, `fragment` | the text of the CoreDNS key as a printer and a parser, and the read-modify-write over it |
| `routes`, `account` | the account's semantics, and the client that lists and calls it |
| `reconcile`, `provider` | the decisions of one reconciliation as functions, and the provider's class, whose loops are proved to do exactly those |
| `endpoints` | what AdjustEndpoints keeps and what the fragment holds afterwards, told by the endpoints and labels given |
| `per_host`, `pending`, `dry_run`, `stabilise` | one batch: per-host independence, pending reasons, dry run, self-stabilisation and quiescence |
| `ownership`, `effects` | ownership read off the comments' text, and what ApplyChanges does to each hostname, told by plan, comments and replies |
| `protocol`, `solo` | many instances, one API call at a time, with failures and crashes; what one instance does alone |
| `safety`, `clash` | cross-owner safety in every run, whatever is planned, and the exact condition for it |
| `lawful`, `lawful_clash` | the same for lawful plans, with routes appearing from outside |
| `drain`, `converge`, `rounds`, `progress` | draining, convergence in two rounds, and no deadlock on the way |
| `planner`, `reachable` | a planner that keeps the assumed contract, and convergence reached from every reachable state |
| `two_legs`, `snapshots` | the route-and-rewrite invariant over every run, and what prune knows when it acts |
| `policy`, `policy_parse`, `stored_names`, `upstream`, `broker` | the broker's policy, the names it stores, the API behind it, and the handler |
| `broker_effects` | what each request of a client does to the account, by id and name, and what the policy document admits |
| `broker_views`, `broker_isolation`, `broker_secrecy` | non-interference, for one request and for whole runs |
| `broker_runs`, `broker_checks` | isolation over interleaved runs |
| `pagination`, `prune`, `jwks` | the paginated list, the prune command, and the signing-key cache |

What the code changes in place is a class here with the same fields: the provider, the account's client,
the ConfigMap key, the resolver under construction, the broker's handler and upstream, the key cache. Each
method's postcondition ties its new state to a specification function, and the lemmas are about those
functions. What the functions mean is stated apart from them, in the terms a caller has: the endpoints, labels,
comments, ids and documents given (`endpoints`, `ownership`, `effects`, `broker_effects`, the `…Exact` lemmas). The multi-instance protocol and the interleaved broker are state machines over values, because
what matters there is every interleaving.

## Main results

- **Cross-owner safety, exactly.** `LawfulClashes.SafeExactlyWithoutLawfulClash`: in runs in which every plan
  is one the planner may make and untagged routes appear from outside at any moment, instances with distinct
  owner ids leave each other's routes alone, at single-call interleaving, if and only if none of them claims
  untagged routes for a host on a tunnel where another may act on them. The runs that break it are lawful,
  each instance's demand never changing. `Clashes.SafeExactlyWithoutClash` is the same for plans that need
  not be lawful, where a larger set of fleets is unsafe. `Safety.StrictNeverClash` and
  `Safety.DisjointNeverClash` with `LawfulSafety.NoClashIsLawful`: the two configurations the documentation
  recommends are safe either way.
- **Convergence without deadlock.** `Rounds.TwoRoundsConverge` with `Progressing.CycleCompletes`: strict
  instances wanting different names, from any assignment of holders (cyclic swaps included), through any
  failures and crashes. A round is done when every instance has completed a cycle that reported no error;
  after one nobody owns an unwanted name, after two every wanted name is where it belongs, for good.
  `Reachable.AlwaysCanConverge`: and from every reachable state, cycles half done and all, some lawful
  schedule without a crash gets there.
- **Self-stabilisation and quiescence** of both legs from any state, told by the endpoints given:
  `Stabilise.SelfStabilises`, `Stabilise.SettledIsQuiet`.
- **What one call does, by its input.** `Provider.AdjustEndpoints` answers exactly the endpoints in the filter
  with a tunnel, in order; each name it or `Provider.ApplyChanges` answers in the cluster points to its own
  Service, and each it does not is reported with the one reason (`Endpoints.AdjustExact`,
  `Endpoints.ApplyExactly`); ApplyChanges does to every hostname exactly what `Effects` says, whatever fails.
  `Ownership.StrictSpares` and `StrictSparesRun`: a strict instance leaves every route alone whose comment is not
  its own tag, letter for letter.
- **Both legs together** in every reachable state: `TwoLegs.BothLegs`. **Prune never acts on a partial view:**
  `Snapshots.RecordsComplete`, and for a strict instance `Snapshots.StrictPruneExact`.
- **Broker non-interference:** `BrokerSecrecy.OnlyBitsTold`: over a whole run, what a client is told is a
  function of its own routes, its own requests, and one bit for each name it asks for; `BitIsTold`: that
  bit cannot be kept from it.
- **Broker effects:** `BrokerEffects.DeleteEffect`, `PatchEffect`, `CreateEffect`: an allowed request does exactly
  what it asks, by id and name, and the client is told so; every other changes nothing.
  `PolicyParse.ParsePolicy` reads the document as written, and `BrokerEffects.OwnerBinds`: a document that names an
  owner admits from that client no comment but that owner's tag.
- **Broker isolation over whole runs**, changes split at their upstream calls and interleaved:
  `BrokerRuns.RunLeavesMine`, `BrokerRuns.StaysForTheRun`, `BrokerChecks.NothingInFlight`,
  `BrokerChecks.TagsForTheRun`.
- **Machine and methods agree.** `Solo.CycleAlone`: an uninterrupted cycle of the step-by-step machine
  leaves exactly what the specification functions of the class methods say, whatever fails in it.

Some promises turn out to hold under a condition, which is stated exactly:

- `Policy.NormalizeTwice`: the broker's hostname normalisation is idempotent exactly on the hostnames with no
  second wildcard label and no white space beside the dots that are cut; `*.*.a` is where it is not.
- `StoredNames.StoredAllowedExactly`: a name a client may use is one it may manage in the form it is stored in,
  exactly when each of the client's suffixes that begins in white space stands for a name it may manage without
  it.
- `JwksCache.AsksBounded` and `FailuresUnbounded`: a forced refresh is honoured at most once a minute while
  fetches succeed; each failed fetch may be one request more, and nothing bounds those.
- `Routes.OwnTag`: an owner recognises its own tag exactly when its id does not end in white space,
  because the comment is trimmed when it is read.

## Model

| member | source | states |
|---|---|---|
| `Domains.UnderIsLabelSuffix` | internal/provider/tunnel.go:86-90 | "equal, or ends in a dot and the domain" is exactly "the domain's labels are the host's last labels" |
| `Domains.UnderTransitive` | broker/src/policy.ts:129-136 | a subdomain of a name under a domain is under the domain |
| `Resolver.NewMapTunnelResolver` | internal/provider/tunnel.go:55-78 | succeeds exactly for a non-empty map whose domains have a name in them and whose tunnels are not blank; the entries are the map's, longest domain first |
| `Resolver.TunnelResolver.ConfiguredTunnels` | internal/provider/tunnel.go:143-157 | the distinct tunnels of the entries in first-occurrence order, or the fallback alone |
| `Resolver.TunnelResolver.SetDrain` | internal/provider/tunnel.go:111-135 | refused exactly when a draining tunnel is configured; otherwise the distinct non-blank ids, in order |
| `Resolver.ResolveMostSpecific` | internal/provider/tunnel.go:49-92 | one tunnel carries everything; or, over distinct domains, resolve answers a tunnel if and only if it is that of the configured domain whose labels end the host's with most labels: letter case, one dot at the end of the host and one in front of the domain aside, and whatever order the map yields its entries in |
| `Resolver.ResolvesToConfigured` | internal/provider/tunnel.go:81-92 | what a hostname resolves to is configured, listed, and never draining |
| `Resolver.TunnelsDistinct` | internal/provider/tunnel.go:137-157 | no tunnel is listed twice |
| `Resolver.ResolveIgnoresCase` | internal/provider/tunnel.go:81-92 | letter case does not matter to resolution |
| `Resolver.TargetInjective` | internal/provider/tunnel.go:94-97 | different tunnels have different targets |
| `FragmentCodec.ParseRewrites` | internal/coredns/fragment.go:216-229 | the loop reads exactly the specification's map from any text |
| `FragmentCodec.ParseExact` | internal/coredns/fragment.go:212-229 | what the key says of a host is the target of the last line that reads `rewrite name exact <host> <target>` in words |
| `FragmentCodec.RenderRewrites` | internal/coredns/fragment.go:196-210 | the text is the specification's, whatever order the map yields its hosts in |
| `FragmentCodec.RoundTrip` | internal/coredns/fragment.go:196-229 | parse after render gives the map back if and only if hosts are lower-case white-space-free words and targets white-space-free words |
| `FragmentCodec.RenderInjective` | internal/coredns/fragment.go:196-210 | two such maps with the same text are the same map |
| `FragmentCodec.ParsedCarriable` | internal/coredns/fragment.go:212-229 | whatever an operator left in the key, what is read from it can be written back |
| `FragmentCodec.SameRewritesIsEquality` | internal/coredns/fragment.go:231-241 | the length-and-lookup comparison is map equality, because parsed targets are never empty |
| `FragmentStore.Fragment.Load` | internal/coredns/fragment.go:139-151 | a missing ConfigMap or key is the empty map; only a failed read is an error |
| `FragmentStore.Fragment.Apply` | internal/coredns/fragment.go:159-192 | refines the map edit: removals, then additions; writes only a change, only this key, and says so truthfully |
| `FragmentStore.Delta` | internal/coredns/fragment.go:165-174 | the desired map: current less removals, overridden by additions, names lower-cased |
| `Reconcile.ServiceTargetExact` | internal/coredns/fragment.go:123-137 | exactly `service/<namespace>/<name>` is answered, each with its own cluster-local name |
| `Reconcile.EditIsEdited` | internal/coredns/fragment.go:159-174 | an edit under lower-case names has one result |
| `Routes.OwnTag` | internal/provider/provider.go:234-253 | an owner recognises its own tag if and only if its id does not end in white space |
| `Routes.OwnerExact` | internal/provider/provider.go:242-253 | over all comments: one names owner o if and only if, trimmed, it is `managed-by=external-dns/` and o, or o is empty and it is `managed-by=external-dns`; every other names none |
| `Text.TrimSpaceExact` | internal/provider/provider.go:244-246 | trimming leaves exactly what stands between the white space at both ends |
| `Ownership.IndexExact` | internal/provider/provider.go:268-282 | an instance reads back, and may delete or move, exactly the live routes on listed tunnels that bear its own tag, or nobody's unless it is strict |
| `Ownership.StrictSpares` | internal/provider/provider.go:611-685 | a strict instance that adopts nothing leaves every route without its own tag as it is, whatever is planned and fails, and does not read it back |
| `Ownership.StrictSparesRun` | internal/provider/provider.go:268-282 | the same for every step of every run of instances of which no two clash |
| `Routes.PerformLocal` | internal/provider/provider_test.go:88-160 | a call changes only the route under its own hostname; ids are never reused and names stay unique |
| `Routes.PerformAtHost` | internal/provider/provider_test.go:88-160 | what becomes of that route: created only if the name is free, changed or deleted only if the id is live |
| `Routes.PinnedStable` | internal/provider/provider_test.go:88-160 | an id never moves to another hostname, whatever calls are made |
| `AccountApi.Account.Send` | internal/cloudflare/client.go:286-356 | one mutating call: recorded, and performed as the account does |
| `AccountApi.Account.ListTunnel` | internal/cloudflare/client.go:247-277 | a successful listing holds every live route of the tunnel once |
| `AccountApi.Account.ListAll` | internal/cloudflare/client.go:247-277 | likewise for the account; each use is counted |
| `Reconcile.RunAllConcat` | internal/provider/provider.go:603-607 | carrying out two lists of decisions is carrying out one after the other |
| `Reconcile.RunAllKeeps` | internal/provider/provider.go:611-746 | the account stays consistent through any batch, and decisions still to come still name their own routes |
| `Reconcile.DecisionsPinned` | internal/provider/provider.go:842-883 | every decision names a route by the id it was listed under at its own hostname |
| `Reconcile.BatchPinned` | internal/provider/provider.go:566-608 | so for the decisions of a whole batch, read from the account as it is |
| `ProviderEngine.Provider.constructor` | internal/provider/provider.go:208-231 | starts with nothing read, nothing pending, and the gauge at zero |
| `ProviderEngine.Provider.PublishPending` | internal/provider/provider.go:831-837 | the published count of each reason is the number of pending hosts with it |
| `ProviderEngine.Provider.SetPending` | internal/provider/provider.go:798-803 | the host waits for this reason, and the gauge shows it |
| `ProviderEngine.Provider.ClearPending` | internal/provider/provider.go:805-813 | the host no longer waits, and the gauge shows it |
| `ProviderEngine.Provider.RetainPending` | internal/provider/provider.go:815-829 | exactly the hosts to keep still wait, and the gauge shows it |
| `ProviderEngine.GaugeGrows` | internal/provider/provider.go:831-837 | one more host with a reason raises that count by one and no other |
| `ProviderEngine.Provider.OwnedRouteIndex` | internal/provider/provider.go:839-861 | exactly the manageable live routes on the listed tunnels; any failed listing fails it |
| `ProviderEngine.Provider.AdoptionIndex` | internal/provider/provider.go:863-883 | exactly the live routes on the listed tunnels, whoever owns them |
| `ProviderEngine.Provider.AccountRouteIndex` | internal/provider/provider.go:885-906 | every live route, or nothing when the listing fails, never an error |
| `ProviderEngine.RecordTunnel` | internal/provider/provider.go:302-318 | one tunnel's managed routes are each reported or counted outside the filter, once |
| `ProviderEngine.Provider.ListForRecords` | internal/provider/provider.go:294-319 | every tunnel is counted; the first failed listing ends it |
| `ProviderEngine.Provider.Records` | internal/provider/provider.go:286-356 | complete exactly when every listing worked; then it reports exactly the manageable in-filter routes, drops them from pending, and the per-tunnel counts sum to managed plus out-of-filter |
| `ProviderEngine.RecordsTotals` | internal/provider/provider.go:286-330 | every managed route is reported or outside the filter, and counted on exactly one tunnel |
| `ProviderEngine.Provider.Attempt` | internal/provider/provider.go:621-641 | reports in dry run, calls otherwise, and turns a failure into one error |
| `ProviderEngine.Provider.ApplyDeletes` | internal/provider/provider.go:611-632 | the loop carries out exactly the decided deletes, each failing alone |
| `ProviderEngine.Provider.ApplyUpdates` | internal/provider/provider.go:648-685 | likewise for retargets; one already on the wanted tunnel is left alone |
| `ProviderEngine.Provider.ClaimRoute` | internal/provider/provider.go:1050-1093 | claims only an untagged route on the wanted tunnel, refuses every other that is not ours |
| `ProviderEngine.Provider.PostRoute` | internal/provider/provider.go:721-743 | a refusal as already routed makes the host pending, with at most one account-wide list; any other failure is an error |
| `ProviderEngine.Provider.ApplyCreates` | internal/provider/provider.go:690-746 | the loop carries out exactly the decided creates and claims, with at most one account-wide list |
| `ProviderEngine.Provider.ApplyCoreDNS` | internal/provider/provider.go:943-1004 | one edit of the fragment for the batch: each planned create in the filter whose label is `service/<namespace>/<name>` points to `<name>.<namespace>.svc.<cluster domain>`, each that cannot be answered is returned with its reason and not written, what a planned delete gives up is gone, the rest stays; nothing in dry run |
| `Endpoints.AnswerExact` | internal/provider/provider.go:951-974 | an endpoint is answered if and only if it is no wildcard and its label is a well-formed Service, then by that Service; else it is skipped for exactly one reason: a wildcard, no label, a label of another kind, a malformed one |
| `Endpoints.LegExact` | internal/provider/provider.go:943-1004 | a successful edit leaves in the fragment exactly: the answers of the planned creates, and what was there that is neither answered anew nor given up |
| `Endpoints.ApplyExactly` | internal/provider/provider.go:566-608 | so for ApplyChanges, unless a listing or the write failed; and it reports exactly the planned creates that cannot be answered, each with its reason |
| `ProviderEngine.Provider.ReconcileExisting` | internal/provider/provider.go:1018-1048 | rewrites only hosts Records exposed, never removes one |
| `ProviderEngine.Provider.PruneCoreDNS` | internal/provider/provider.go:480-528 | removes exactly the stale entries, only on a complete view, and never fails the caller |
| `ProviderEngine.Provider.StaleEntries` | internal/provider/provider.go:480-510 | exactly the keys neither owned nor desired that are in the filter and resolvable, in order; none without a complete view |
| `ProviderEngine.Provider.AdjustEndpoints` | internal/provider/provider.go:409-451 | answers exactly the given endpoints in the filter with a tunnel, in order and each once, under their own names and labels at their tunnels' targets; keeps waiting only for hosts asked for; on success every reported host asked for points to its own Service, stale entries are gone if prune saw everything and worked, and the rest of the fragment stays |
| `ProviderEngine.Provider.Canonicalize` | internal/provider/provider.go:410-425 | the loop keeps exactly the endpoints in the filter with a tunnel, in order |
| `Endpoints.AdjustIsCanonical` | internal/provider/provider.go:409-425 | there are places in the list given, strictly increasing, that hold exactly the endpoints in the filter with a tunnel, and the answer is those endpoints in that order at their tunnels' targets |
| `Endpoints.CanonicalOnce` | internal/provider/provider.go:409-425 | there is only one such answer |
| `Endpoints.AdjustExact` | internal/provider/provider.go:426-451 | the fragment after a successful AdjustEndpoints, entry by entry: repaired, pruned or as it was |
| `Endpoints.AdjustSucceeds` | internal/provider/provider.go:432-447 | it succeeds if and only if the repair is carried out and every reported host asked for, wildcards aside, has a usable Service label |
| `ProviderEngine.Provider.SkippedErrors` | internal/provider/provider.go:908-921 | one error per unanswerable host, in hostname order |
| `ProviderEngine.Provider.ApplyChanges` | internal/provider/provider.go:566-608 | reads, then the fragment, then deletes, updates and creates: exactly the specified progress of account, pending, errors and calls, with at most one account-wide list; and, unless cut short, every planned create is answered by its own Service or reported with the reason it is not |
| `Effects.DeleteEffect` | internal/provider/provider.go:611-632 | a planned delete in the filter: a route the instance may change is gone once the call takes effect, and the host is reported unless the call works; any other host is left alone without a word |
| `Effects.UpdateEffect` | internal/provider/provider.go:648-685 | a planned update in the filter: a route the instance may change is moved to the tunnel its name resolves to under the same id, name and comment, unless it is there; reported exactly if no tunnel is configured or the call does not work |
| `Effects.CreateEffect` | internal/provider/provider.go:708-743 | a planned create of a free name: once the call takes effect the name is routed on the tunnel it resolves to under this instance's tag; a host whose create works waits no longer, and one whose create does not is reported |
| `Effects.WaitEffect` | internal/provider/provider.go:721-783 | a planned create of a held name: the route stays, and the host waits, unreported, for the reason the holder's comment gives, or an unknown one if the account could not be listed |
| `Effects.ClaimEffect` | internal/provider/provider.go:1058-1093 | with adoption, a route nobody has tagged, already on the wanted tunnel, gets this instance's tag and nothing else changes |
| `Effects.CreateLeftAlone` | internal/provider/provider.go:704-719 | a planned create outside the filter, unanswerable, without a tunnel, or refused as a claim changes nothing; it is reported unless outside the filter or already this instance's where it belongs |
| `Effects.NoEffect` | internal/provider/provider.go:540-549 | a host the plan does not name keeps its route and its pending state, and is not reported |
| `PerHost.RunAllHere` | internal/provider/provider.go:540-549 | the one call made for a hostname decides its route and pending state, whatever else the batch does |
| `PerHost.RunAllElsewhere` | internal/provider/provider.go:540-549 | a hostname no call is made for keeps its route and pending state |
| `PerHost.PerHostIndependence` | internal/provider/provider.go:540-549 | under any two failure patterns that agree on a host's own calls, the host ends with the same route (up to the id drawn), errors and rewrite, and pending in both or in neither |
| `Pending.PerHostReason` | internal/provider/provider.go:721-759 | and for the same reason, when the account-wide listing works in both or in neither |
| `PerHost.ApplySilent` | internal/provider/provider.go:540-549 | ApplyChanges returns no error if and only if the reads and the write worked, every host could be answered, and no call failed for another reason than already routed |
| `Pending.ApplyExplained` | internal/provider/provider.go:690-783 | a host becomes pending only while a live route holds its name, and the reason given is what that holder is |
| `Pending.PendingExplained` | internal/provider/provider.go:694-743 | through a whole batch one account-wide listing stays right about every host still to be explained |
| `DryRun.DryRunChangesNothing` | internal/provider/provider.go:561-565 | with dry run neither ApplyChanges nor AdjustEndpoints changes the account, the fragment, or, in ApplyChanges, the pending hosts |
| `DryRun.DryRunReportsRealRun` | internal/provider/provider.go:561-746 | what dry run reports is, in order, exactly what the real run attempts from the same state, with the same validation errors |
| `DryRun.DryRunAdjust` | internal/provider/provider.go:480-517 | dry run asks for the same fragment edits, although the repair before the prune was suppressed |
| `DryRun.LogIsCalls` | internal/provider/provider.go:611-746 | what is attempted is decided before the first call |
| `Stabilise.SelfStabilises` | internal/provider/provider.go:286-1048 | from any account, fragment and pending set, one reconciliation in which every call works routes every given endpoint in the filter with a tunnel there, answers it with its own Service, leaves no other managed route in the filter and no other answer among the configured names, and nothing pending |
| `Stabilise.SettledIsQuiet` | internal/coredns/fragment.go:176-180 | the next reconciliation makes no Cloudflare call and no ConfigMap write |
| `Stabilise.AdjustRepairs` | internal/provider/provider.go:409-528 | after AdjustEndpoints every routed desired host is answered and no stale entry is left |
| `Stabilise.RoutesSettle` | internal/provider/provider.go:566-608 | after ApplyChanges the reported hosts are exactly the desired ones, each on its resolved tunnel |
| `Stabilise.FragmentSettles` | internal/provider/provider.go:943-1004 | after both edits the fragment says exactly what is desired on the configured hosts |
| `Stabilise.PendingSettles` | internal/provider/provider.go:785-796 | a host that waited is created and waits no longer; none starts to wait |
| `Protocol.StoreChangesByCall` | internal/provider/provider.go:566-608 | an instance changes the account only by its next call |
| `Protocol.CalledParts` | internal/provider/provider.go:603-607 | a call leaves what was read and moves on to the next decision |
| `Solo.RunTimes` | docs/multi-tunnel-lifecycle.md:58-59 | scheduling one instance only is that instance running alone |
| `Solo.CycleAlone` | docs/multi-tunnel-lifecycle.md:58-59 | an uninterrupted cycle ends, whatever fails in it, leaves exactly what Records, AdjustEndpoints and ApplyChanges say, and is good exactly when none reports an error |
| `Safety.CrossOwnerSafety` | internal/provider/provider.go:268-282 | where no two instances clash, no step of any run deletes, moves or re-comments a route tagged by another owner, whatever is planned and although indexes are read before they are acted on |
| `Safety.StrictNeverClash` | internal/provider/provider.go:268-282 | instances that adopt nothing never clash |
| `Safety.DisjointNeverClash` | internal/provider/provider.go:863-883 | instances that list no tunnel in common never clash, whatever their modes |
| `Safety.GripKept` | internal/provider/provider.go:611-685 | what an instance may rely on about a route it read survives every call of every instance |
| `Safety.SteadyStep` | internal/provider/provider.go:566-608 | the rely holds of all instances through every step and crash |
| `Safety.OthersLeaveOwned` | internal/provider/provider.go:244-282 | another instance's step neither takes, nor alters, nor makes a route of this owner |
| `Safety.StrictIndexStaysTrue` | internal/provider/provider.go:842-861 | a strict instance's route index cannot go stale through others' steps |
| `Clashes.ClashBreaksSafety` | internal/provider/provider.go:1058-1093 | whenever two instances clash, a run of some plans, not always lawful ones, has one alter a route the other has tagged |
| `Clashes.SafeExactlyWithoutClash` | internal/provider/provider.go:268-282 | cross-owner safety under arbitrary plans, lawful or not, if and only if no two instances clash |
| `LawfulSafety.NoClashIsLawful` | internal/provider/provider.go:268-282 | fleets that are safe under arbitrary plans meet the condition for lawful ones |
| `LawfulSafety.FirmEvent` | internal/provider/provider.go:566-608 | what each instance may rely on about what it has read survives every lawful step of any instance, every crash, and every route made outside |
| `LawfulSafety.LawfulPlansSpare` | internal/provider/provider.go:268-282 | where none claims what another may act on, no step of any run of lawful plans deletes, moves or re-comments a route tagged by another owner |
| `LawfulClashes.LawfulClashBreaksSafety` | internal/provider/provider.go:1058-1093 | where one does, a run of two lawful cycles, with one route made from outside between two steps, has one instance alter what the other has tagged |
| `LawfulClashes.SafeExactlyWithoutLawfulClash` | internal/provider/provider.go:268-282 | cross-owner safety in all runs of lawful plans if and only if none claims what another may act on, whether demands change or not |
| `Drain.DrainNeverRises` | internal/provider/tunnel.go:111-157 | in every run the owner's routes on a draining tunnel only ever leave it |
| `Drain.CycleDrains` | internal/provider/provider.go:286-323 | one reconciliation without failures leaves on a draining tunnel only what is outside the filter |
| `Drain.UpdatesNeverUnroute` | internal/provider/provider.go:634-685 | every intermediate state of a batch of updates has the same live ids, hostnames and comments |
| `Converge.GoodStep` | docs/multi-tunnel-lifecycle.md:93-98 | every lawful step and crash keeps: what is read is so, every route is held by its owner, and a cycle without errors still covers every undesired route |
| `Converge.PlanCoversUndesired` | internal/provider/provider.go:611-632 | a lawful plan deletes every undesired route the instance owns |
| `Converge.PlanCoversDesired` | internal/provider/provider.go:648-746 | with nobody else holding a wanted name, a lawful plan places every one |
| `Rounds.FirstRoundCleans` | docs/multi-tunnel-lifecycle.md:93-98 | whoever held what, once every instance has completed a cycle none owns a name it does not want |
| `Rounds.SecondRoundConverges` | docs/multi-tunnel-lifecycle.md:93-98 | after another, every endpoint given to an instance, in its filter and with a tunnel, is routed by it on the tunnel it resolves to, and it owns no other route |
| `Rounds.ConvergedStays` | docs/multi-tunnel-lifecycle.md:93-98 | and no later step or crash undoes it |
| `Rounds.TwoRoundsConverge` | internal/provider/provider.go:551-559 | both rounds together, from any assignment of holders, told by the endpoints given |
| `Progressing.HoldersAreNoError` | internal/provider/provider.go:544-549 | when calls work a batch reports no error, whoever holds the names it creates |
| `Progressing.CycleCompletes` | internal/provider/provider.go:551-556 | from every reachable state an idle instance can complete a cycle without an error, so no swap deadlocks |
| `Planner.DifferenceIsPlan` | docs/multi-tunnel-lifecycle.md:58-68 | the planner's contract can be kept, whatever was read: the plain difference of desired and reported meets it |
| `Reachable.StepsNearer` | internal/provider/provider.go:566-608 | whatever the network answers, every step brings a cycle nearer its end |
| `Reachable.CycleEnds` | internal/provider/provider.go:566-608 | an instance left to itself ends the cycle it is in, wherever it stands |
| `Reachable.RoundCompletes` | docs/multi-tunnel-lifecycle.md:93-98 | from rest a whole round of cycles without error can be completed, whoever holds which names |
| `Reachable.AlwaysCanConverge` | docs/multi-tunnel-lifecycle.md:93-98 | from every reachable state some lawful schedule without a crash routes every given endpoint where it is wanted, and nothing else |
| `TwoLegs.BothLegs` | internal/provider/provider.go:923-942 | in every reachable state a live route this instance created or adopted has its rewrite, or was in a planned Delete that has not landed and that no successful AdjustEndpoints has made good |
| `TwoLegs.PruneSeesAll` | internal/provider/provider.go:476-487 | about to prune, any instance knows every route it has tagged on a listed tunnel |
| `Snapshots.RecordsComplete` | internal/provider/provider.go:286-330 | in every reachable state in which Records counts as complete, the hosts prune spares are exactly those of the manageable routes on all listed tunnels, each as it stood when this cycle listed it |
| `Snapshots.StrictPruneExact` | internal/provider/provider.go:476-487 | a strict instance about to prune knows exactly the routes it owns on listed tunnels at that moment |
| `TwoLegs.RewriteGoes` | internal/provider/provider.go:978-986 | a rewrite leaves the fragment only by a planned Delete inside the filter, and then is on record as taken away, or by prune on a complete view |
| `TwoLegs.AdjustAnswers` | internal/provider/provider.go:432-447 | after a successful AdjustEndpoints, and through the prune that follows, every host it wants that Records reported, wildcards aside, has its rewrite in the fragment |
| `Policy.Normalize` | broker/src/policy.ts:42-48 | the loops compute the canonical hostname |
| `Policy.NormalizeExact` | broker/src/policy.ts:42-48 | the canonical form is exactly the name left in the trimmed, lower-case hostname between one wildcard label, if there is one, and dots in front, and dots behind |
| `Policy.AllowedByLabels` | broker/src/policy.ts:129-136 | a hostname is allowed if and only if that name is not empty, has no wildcard, and ends in the labels of one of the suffixes |
| `Policy.NormalForm` | broker/src/policy.ts:37-48 | the canonical form is lower case and neither begins nor ends in a dot |
| `Policy.NormalizeTwice` | broker/src/policy.ts:42-48 | normalising again changes nothing if and only if behind the wildcard label and its dots there is neither another wildcard label nor a space, and none in front of the trailing dots |
| `Policy.NormalizeTwiceDiffers` | broker/src/policy.ts:42-48 | there is a name on which two passes differ from one |
| `Policy.ManagedByLabels` | broker/src/policy.ts:125-136 | whole labels decide: one of the suffixes is the tail of the name's labels |
| `Policy.SubdomainsManaged` | broker/src/policy.ts:125-136 | however a name it may manage is spelled, a client may manage every subdomain of it, in any letter case |
| `Policy.AllowedCommentIsOwn` | broker/src/policy.ts:138-149 | an owned client may write a comment if and only if, trimmed, it is `managed-by=external-dns/` and its owner: exactly those the provider reads as that owner's |
| `PolicyParse.StringList` | broker/src/policy.ts:52-62 | accepts exactly a non-empty list of non-blank strings, trimmed |
| `PolicyParse.ParseClient` | broker/src/policy.ts:85-105 | accepts exactly an entry with known keys, usable tunnels and suffixes, and a plain owner if any, and reads it as written: that owner or none, the listed tunnels trimmed and lower-cased, the listed suffixes normalised, each once |
| `PolicyParse.ClaimTunnels` | broker/src/policy.ts:107-113 | refuses exactly when another client already holds one of the tunnels |
| `PolicyParse.ParsePolicy` | broker/src/policy.ts:69-118 | accepts exactly the non-empty objects of well-formed entries in which no two list one tunnel in whatever spelling; the policy has exactly their clients, each with the owner, tunnels and suffixes its entry says |
| `PolicyParse.ClientAsWritten` | broker/src/policy.ts:85-114 | a client's owner is o if and only if its entry's owner field is the string o; a tunnel or suffix is its own if and only if some listed one comes to it |
| `PolicyParse.AcceptedExactly` | broker/src/policy.ts:69-118 | what is accepted, told by the fields of the document |
| `PolicyParse.AcceptedIsWellDivided` | broker/src/policy.ts:107-114 | an accepted policy gives every canonical tunnel to one client |
| `UpstreamApi.PatchKeeps` | broker/test/support.ts:113-119 | a patch keeps ids distinct and names unique |
| `UpstreamApi.Upstream.GetPage` | broker/test/support.ts:73-92 | one page of what fits the query, with its size and the number of all that fits |
| `Broker.Handler.LookUp` | broker/src/handler.ts:130-150 | the client's own route, or the answer for one that does not exist |
| `Broker.Handler.ListPages` | broker/src/handler.ts:173-193 | the page loop gathers the specified pages, up to the cap |
| `Broker.Handler.List` | broker/src/handler.ts:152-208 | the tunnel asked for or all the client's, one after another; one failed page fails the list |
| `Broker.Handler.Create` | broker/src/handler.ts:210-233 | posts only what tunnel, name and comment allow |
| `Broker.Handler.Patch` | broker/src/handler.ts:235-257 | looks the route up, then patches only what is allowed |
| `Broker.Handler.Remove` | broker/src/handler.ts:259-268 | looks the route up, then deletes it: once it answers that an id is deleted, exactly the route with that id is gone; and unless the answer was lost no other response leaves the account changed |
| `Broker.Handler.HandleRequest` | broker/src/handler.ts:270-314 | no identity, an unknown client and a known one are told apart before anything is sent upstream |
| `BrokerEffects.DeleteEffect` | broker/src/handler.ts:259-268 | a delete of a route on the client's own tunnel under its own suffix: once the call takes effect no route has the id, every other is where it was, and the answer says so when it arrives |
| `BrokerEffects.DeleteRefused` | broker/src/handler.ts:130-150 | every other delete changes nothing and is answered as not found, or as upstream failed when the look-up does |
| `BrokerEffects.PatchEffect` | broker/src/handler.ts:235-257 | a patch of such a route with fields the client may give: they replace the route's own, a null comment clears it, the rest stays, no other route changes; unless another route has the name, which the client is told |
| `BrokerEffects.PatchRefused` | broker/src/handler.ts:235-257 | every other patch changes nothing, and which refusal it gets |
| `BrokerEffects.CreateEffect` | broker/src/handler.ts:210-233 | a create the client may make: one new route with the given name, tunnel and comment behind all that were there; unless the name is taken, which the client is told |
| `BrokerEffects.CreateRefused` | broker/src/handler.ts:210-233 | every other create changes nothing |
| `BrokerEffects.OwnerBinds` | broker/src/policy.ts:99-114 | from the document to the account: where an entry names an owner, no request of that client leaves on a route any comment but that owner's tag, none, or the one that was there |
| `BrokerViews.FindMineAgrees` | broker/src/handler.ts:130-150 | where two accounts agree on a client's routes, an id finds the same route of its own in both, or none |
| `BrokerIsolation.NonInterference` | broker/src/handler.ts:130-268 | where two accounts agree on a client's routes and on which names are taken, every request gets the same answer and they still agree afterwards |
| `BrokerIsolation.OthersKeepView` | broker/src/handler.ts:210-268 | no request of one client changes another's routes |
| `BrokerIsolation.ForeignIsMissing` | broker/src/handler.ts:143-149 | an id that is someone else's is answered exactly as one that does not exist |
| `BrokerIsolation.GatherIsOwn` | broker/src/handler.ts:161-189 | a client lists only its own routes |
| `BrokerIsolation.ForeignHolderUnknown` | internal/provider/provider.go:753-759 | behind the broker, a name someone else holds is pending for an unknown reason |
| `BrokerSecrecy.OneBitTold` | broker/src/handler.ts:130-268 | one request tells a client about others at most whether the one name it asks for is taken |
| `BrokerSecrecy.BitIsTold` | docs/multi-tunnel-lifecycle.md:53-54 | and an allowed create that gets through is told exactly that |
| `BrokerSecrecy.OnlyBitsTold` | broker/src/handler.ts:130-314 | two whole runs with the same routes and requests of a client, and the same bit at each request, tell it the same and leave it the same routes, whatever others hold and do |
| `BrokerRuns.StepChanges` | broker/src/handler.ts:210-268 | every step changes only routes on the tunnels of the client it is made for |
| `BrokerRuns.SoundStep` | broker/src/handler.ts:130-150 | the look-up's verdict survives every step of every client between the look-up and the change |
| `BrokerRuns.RunLeavesMine` | broker/src/handler.ts:210-268 | over whole interleaved runs in which nobody acts for a client, its routes are exactly what they were and none appears on its tunnels |
| `BrokerRuns.StaysUntilDeleted` | broker/src/handler.ts:235-268 | no step but the client's own delete takes its route off its tunnels |
| `BrokerRuns.StaysForTheRun` | broker/src/handler.ts:235-268 | over whole interleaved runs, a client's route is live and on its tunnels until the client itself deletes it |
| `StoredNames.StoredAllowedExactly` | broker/src/policy.ts:37-48 | every name a client may use is one it may manage in the form it is stored in, if and only if each of its suffixes that begins in white space stands for a name it may manage without it |
| `BrokerChecks.OwnStep` | broker/src/handler.ts:235-268 | every check, of tunnel and of name, survives one step of anyone |
| `BrokerChecks.NothingInFlight` | broker/src/handler.ts:235-268 | at the end of every run from a broker with nothing in flight, every change still to land is to the client's own route, under a name it may manage |
| `BrokerChecks.OwnTagOnly` | broker/src/policy.ts:138-149 | an owned client's step leaves on any route its own tag, the comment that was there, or none |
| `BrokerChecks.TagsForTheRun` | broker/src/policy.ts:138-149 | over whole interleaved runs, the comment of a route on an owned client's tunnels is the first one, the client's own tag, or none |
| `Pagination.ListHostnameRoutes` | internal/cloudflare/client.go:249-277 | the loop ends against any server with a bounded total; it fails if and only if a page it reaches does not arrive, and else gathers the pages up to the one after which nothing more is to come |
| `Pagination.CollectExact` | internal/cloudflare/client.go:249-277 | the same, of the specification, told by the server's pages |
| `Pagination.PaginationComplete` | internal/cloudflare/client.go:249-277 | against a server that slices a list by its reported page size, exactly that list, once, in order |
| `Pagination.CapIsExact` | broker/src/handler.ts:173-193 | the broker's listing of a tunnel is complete if and only if it fits the page cap |
| `Pagination.ListThroughBroker` | broker/src/handler.ts:195-207 | behind the broker the client's listing is one request and holds precisely the routes on its tunnels, each once |
| `Pagination.ListNamedTunnel` | broker/src/handler.ts:152-193 | with a tunnel asked for, in whatever spelling: refused if it is not the client's, failed if and only if a page asked for fails, and else exactly that tunnel's routes with the hostname and comment asked for, each once, up to the cap of 100 pages |
| `Pagination.ListAllFails` | broker/src/handler.ts:173-181 | with none asked for, the list fails if and only if a page asked for on one of the client's tunnels fails |
| `PruneCommand.FindTargets` | cmd/webhook/prune.go:128-149 | exactly the live routes with the owner's tag, in the filter and the scopes, each once however scopes overlap; a failed listing fails it |
| `PruneCommand.DeleteAll` | cmd/webhook/prune.go:177-187 | attempts each once; exactly those whose delete landed are gone, and failures are counted |
| `PruneCommand.RunPrune` | cmd/webhook/prune.go:89-193 | with --apply exactly the live routes with the owner's tag, letter for letter, in the filter, and on one of the tunnels given if any are, are attempted, each once in hostname order; those whose delete lands are gone and nothing else; success exactly when nothing failed; nothing is deleted after a usage error, a failed listing or without --apply |
| `JwksCache.Cache.Get` | broker/src/access.ts:122-149 | one use of the cache: when it asks, what it returns, what it remembers |
| `JwksCache.ReturnsLatest` | broker/src/access.ts:131-148 | every returned key set is that of the latest successful fetch |
| `JwksCache.UseExact` | broker/src/access.ts:131-148 | every use of every run: while no fetch has succeeded it asks; then it asks if and only if the last keys are more than ten minutes old, or more than one and a refresh is forced; it returns those keys whenever it does not ask or meets an error status, and new ones when it gets them |
| `JwksCache.SuccessesApart` | broker/src/access.ts:132-136 | two successful fetches are more than a minute apart |
| `JwksCache.SuccessesBounded` | broker/src/access.ts:117-121 | in any T milliseconds at most 1 + T/60000 fetches succeed |
| `JwksCache.AsksSplit` | broker/src/access.ts:131-146 | every request is a successful fetch or a failed one |
| `JwksCache.AsksBounded` | broker/src/access.ts:117-121 | in any T milliseconds at most 1 + T/60000 requests, and one more for each that fails |
| `JwksCache.FailuresUnbounded` | broker/src/access.ts:138-146 | for every n there is a run of n forced uses in no time that asks n times, all in vain |

## Left out

- Stabilise.SelfStabilises: takes the planner's contract under the sync policy, because the planner is not part of the repository; upsert-only is not modelled. It also asks that the names served be distinct and have usable Service labels, and that no route this instance cannot see or may not change holds one.
- Effects.DeleteEffect: of a batch that names each hostname once and is not cut short by a failed listing or fragment write, as are the other effects of ApplyChanges; cut short, it changes no route.
- Endpoints.AdjustExact: for endpoints of which no two that are served have one name.
- PolicyParse.ParsePolicy: the texts of its errors, and which of several faults of one document is named.
- Rounds.TwoRoundsConverge: asks that instances be strict, adopt nothing, want different names, and that every live route be one its owner lists and has in its filter; other configurations can wait for ever on a holder nobody moves.
- LawfulSafety.LawfulPlansSpare: from outside, routes are made, without an owner tag; a route that is moved between tunnels from outside while an instance acts on it is not modelled.
- Protocol.StoreChangesByCall: the listing of one tunnel is one step, as it is one request while the tunnel's routes fit one page of 100; the results about runs are under that condition.
- Safety.CrossOwnerSafety: owner ids are distinct; instances that share an owner id share its routes by design.
- PerHost.PerHostIndependence: a batch names each hostname once, as the planner does; the failure pattern is keyed by operation and hostname, so a batch that named one twice would meet the same reply twice.
- Pagination.ListHostnameRoutes: the server's answers are a function of the page; routes changing between two pages are not modelled, and elsewhere a listing is one step.
- BrokerRuns.StepChanges: a list through the broker is one step; patches and deletes are split at their upstream calls.
- BrokerSecrecy.OnlyBitsTold: requests are served one after another; changes split at their upstream calls are the subject of `broker_runs`.
- BrokerChecks.OwnStep: asks of the policy that names stay manageable as they are stored, which `StoredNames.StoredAllowedExactly` shows can fail only for suffixes that begin in white space.
- UpstreamApi.PatchKeeps: a patch that renames a route onto a taken name is refused like a create, and a renamed route is stored without its wildcard label like a created one.
- JwksCache.SuccessesBounded: for uses one after another; concurrent uses of one isolate may each fetch.
- PruneCommand.RunPrune: flag parsing and printing; the account is taken not to change under the command.
- Wildcard hostnames, which the repository does not support, beyond their being skipped or normalised.
- HTTP, JSON bytes, header handling, body limits, retries and URL parsing: upstream calls are operations with a reply, bodies and policies are parsed values.
- JWT signature checks in `broker/src/access.ts`: the caller's identity is an input.
- Prometheus collectors and log text, except the pending, per-tunnel, managed and out-of-filter counts.
- Kubernetes server-side apply, field managers and RBAC: the ConfigMap is a map of which one key is written.
- Letter case beyond ASCII, and the difference between Go's and JavaScript's white space.
- Names of JavaScript object prototypes as client ids.
- Mutexes and goroutines: locked sections and single calls are atomic steps.
- `cmd/webhook/main.go`, `cmd/webhook/backend.go`, `broker/src/index.ts` and `broker/e2e/serve.ts`: wiring.
