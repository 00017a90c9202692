# Smoke alarm: a verified model

OCD Smoke Alarm is a Go daemon that probes MCP, ACP and HTTP targets and reports their state. This
project models the parts of it whose correctness spans several functions, several goroutines or
several processes, and proves what they keep.

| module | models |
|---|---|
| `RuntimeLock` | the lock file of `acquireLock` and `releaseLock`, one file-system step at a time, between any number of processes that may crash |
| `HealthSync` | the loop that publishes check results in `/status`, the SIGHUP reload, and the peers' writers, one locked call at a time |
| `AlertDedupe` | the severity filter, dedupe key and throttle map of the log and desktop sinks, with callers that read the clock before they take the mutex |
| `Escalation` | the known-state store, how a check result is classified and escalated, and which alerts a run of checks raises |
| `HostPort`, `Url`, `Following`, `SelfRefs` | host:port and URL parsers and printers, which references name a listener of this process, and how they follow listeners that bound another port; `Following` is stated for any way of addressing listeners that obeys three laws, `SelfRefs.RealLaws` shows that the program's way does |
| `Config`, `Defaults`, `Validation`, `FreshConfig`, `Accepted` | the configuration, `ApplyDefaults`, `Validate`, and what later code relies on |
| `DiscoveryMerge`, `LlmsTxt`, `LlmsRecords`, `SecretRefs` | the merge of discovered records, the llms.txt parser, the records it registers, and the secret references they carry |
| `ReseedPlan`, `FeaturePlan` | the cache reseed plan, its index, tag counts, and feature files |
| `GoStrings`, `Slices` | the string and slice operations the rest uses |

Code that computes is modelled by functions. Code that changes state step by step is modelled by
methods and classes, each proved against a function or predicate about which the lemmas speak.
Concurrent code is modelled by a step machine whose runs are sequences of actions.

## Results that are not plain guarantees

Some properties one would expect do not hold of the code. Each has a lemma giving a run or an input
that shows it, and the exact condition under which the property holds.

- Stale-lock recovery is a race: two processes that judge the same lock stale can both end up holding
  it (`RuntimeLock.StaleRemovalRace`). A removal is harmless exactly when the file it takes belongs to
  no running process (`RuntimeLock.StaleRemovalExact`). A process that dies before writing its pid
  leaves a lock that is never acquired again in runs without such a race (`RuntimeLock.StuckForever`);
  over all runs that is so exactly when no running process is still on its way to a stale removal
  (`RuntimeLock.StuckExactly`).
- A row the reload has withdrawn can come back (`HealthSync.ReloadRaceResurrects`), exactly when the
  loop held a status of it still to publish (`HealthSync.ReloadHonestExactly`); the next full tick
  removes it (`HealthSync.GoneAfterNextTick`).
- Two different events handed to the sinks can share a dedupe key, and then the log sink can swallow a
  loud one that the desktop sink shows (`AlertDedupe.SharedKeyInstance`). For arbitrary events of a set
  of targets this happens exactly when an id is another id continued with the words of an alert, as
  `api|outage|network|critical` continues `api` (`AlertDedupe.KeysDistinguishExactly`,
  `AlertDedupe.DesktopFollowsLogExactly`). That takes a prober of one's own
  (`Escalation.CustomProberPasses`): the alerts the program's probers lead to are all critical and
  have two fixed forms, their keys always tell them apart, and both sinks answer them alike
  (`Escalation.RaisedKeysDistinguish`, `Escalation.RunSinksAlike`).
- Rewriting self-references twice is the same as once exactly when no listener moved onto an address
  another one moved away from (`Following.FollowIdempotentExactly`).
- The two spellings of a remote target agree exactly when the URL does not select stdio and the scopes
  are space-free and not a lone empty token (`Defaults.RemoteSpellingsAgree`).
- Federation ports repaired by defaulting are valid except for a base port above 65532
  (`Accepted.RepairedPortsValid`).
- `Validate` accepts targets that `toTarget` then refuses (`Accepted.SseOverWebSocket`);
  `Accepted.CompilesExactly` says which.
- The client-secret reference written for a discovered OAuth target cannot be resolved by anything
  (`SecretRefs.ScaffoldedRefUnresolvable`).
- Tags of different documents can become one query (`ReseedPlan.CatalogTagsCollide`), exactly when two
  of them have different names that trim alike (`ReseedPlan.NeverCollideExactly`); tags read from
  feature files never do (`ReseedPlan.FeatureTagsNeverCollide`).
- The order in which discovered records are listed is determined exactly when their ids are distinct
  (`DiscoveryMerge.ListingUniqueExactly`), which records of two files on one host need not have
  (`LlmsRecords.TwoFilesShareId`).

## Model

| member | source | states |
|---|---|---|
| `RuntimeLock.MutualExclusion` | cmd/ocd-smoke-alarm/main.go:1973-2028 | in every interleaving of any number of processes, with crashes, whose stale removals hit the generation that was read, at most one running process holds the lock |
| `RuntimeLock.WhoRemoves` | cmd/ocd-smoke-alarm/main.go:1998-2028 | in such runs a lock file only disappears by its owner's release or as a written lock of a dead owner; a lock not yet written is never removed by another process |
| `RuntimeLock.ReleaseFrees` | cmd/ocd-smoke-alarm/main.go:2023-2028 | a release frees the path: the next undisturbed newcomer holds the lock |
| `RuntimeLock.ReleasedForGood` | cmd/ocd-smoke-alarm/main.go:2023-2028 | in every run after a release the released file is never at the path again |
| `RuntimeLock.GenerationsNeverReturn` | cmd/ocd-smoke-alarm/main.go:1982-1989 | a lock file gone from the path never comes back |
| `RuntimeLock.PathChanges` | cmd/ocd-smoke-alarm/main.go:1973-2028 | what each step does to the path; a crash leaves the lock behind |
| `RuntimeLock.StaleRemovalExact` | cmd/ocd-smoke-alarm/main.go:2012-2019 | whenever a stale lock is about to be removed in a state that meets the invariant: exclusion survives every disciplined continuation if and only if the file taken belongs to no running process |
| `RuntimeLock.HitsSeenIsAbandoned` | cmd/ocd-smoke-alarm/main.go:2004-2014 | taking the generation whose pid was read is taking an abandoned file |
| `RuntimeLock.TwoHolders` | cmd/ocd-smoke-alarm/main.go:2012-2019 | otherwise a continuation ends with two holders |
| `RuntimeLock.StaleRemovalRace` | cmd/ocd-smoke-alarm/main.go:2000-2019 | from every start-up that finds a dead process's lock, a run leads two fresh processes to hold it at once |
| `RuntimeLock.StepInv` | cmd/ocd-smoke-alarm/main.go:1973-2028 | every step keeps the invariant: owners have distinct generations, a running owner's file is the one at the path, a pid that was read belongs to the only owner its generation can have |
| `RuntimeLock.RunInv` | cmd/ocd-smoke-alarm/main.go:1973-2028 | the invariant over whole runs |
| `RuntimeLock.StuckForever` | cmd/ocd-smoke-alarm/main.go:2000-2006 | in every run whose stale removals hit what was read, an empty lock file whose owner died stays, and nobody holds the lock again |
| `RuntimeLock.StuckExactly` | cmd/ocd-smoke-alarm/main.go:2000-2019 | over all runs: such a file stays, and nobody holds the lock again, if and only if no running process has judged a lock stale or read the pid of another process |
| `RuntimeLock.TakeStuck` | cmd/ocd-smoke-alarm/main.go:2008-2019 | any such process can end up holding the lock |
| `RuntimeLock.RecoverableExactly` | cmd/ocd-smoke-alarm/main.go:2000-2019 | an abandoned lock can be acquired again without a race if and only if its pid was written |
| `RuntimeLock.LockPath.Create` | cmd/ocd-smoke-alarm/main.go:1982-1989 | exclusive create: succeeds exactly on a free path that can be opened, which then holds a new file, with this pid if it could be written |
| `RuntimeLock.LockPath.Acquire` | cmd/ocd-smoke-alarm/main.go:1973-2021 | the outcome of an undisturbed call for every path and every failing file operation: when it gets the lock, and what it leaves at the path when it does not |
| `RuntimeLock.SoloCallOutcome` | cmd/ocd-smoke-alarm/main.go:1973-2021 | the step machine, run by one process alone, has the outcome of the undisturbed call |
| `HealthSync.TickEndsHonest` | cmd/ocd-smoke-alarm/main.go:847-885 | every tick of every interleaving ends with each of this process's rows in that tick's `current` |
| `HealthSync.StepInv` | cmd/ocd-smoke-alarm/main.go:847-885 | every step of loop, reload and peers keeps the accounting between rows, owned ids and the tick in progress |
| `HealthSync.RunInv` | cmd/ocd-smoke-alarm/main.go:501-543 | the accounting over whole runs |
| `HealthSync.ForeignRowsUntouched` | cmd/ocd-smoke-alarm/main.go:851-855 | in every interleaving the foreign rows are what the peers' own writes alone would leave |
| `HealthSync.NoBlankRows` | internal/health/server.go:434-437 | no row without an id is ever shown |
| `HealthSync.GoneAfterNextTick` | cmd/ocd-smoke-alarm/main.go:862-885 | a row whose target left the configuration is gone by the end of the next full tick, however it got there, and stays gone |
| `HealthSync.GoneStays` | cmd/ocd-smoke-alarm/main.go:847-885 | a target that is gone stays gone while no reload brings it back |
| `HealthSync.ReloadHonestExactly` | cmd/ocd-smoke-alarm/main.go:517-532 | a dropped target's row stays away after its withdrawal, in every run, if and only if the loop held no status of it still to publish when the reload landed |
| `HealthSync.WithdrawnStaysExactly` | cmd/ocd-smoke-alarm/main.go:866-879 | a row not shown for an id that is no target stays away if and only if the loop has not got it left to publish |
| `HealthSync.ReloadRaceResurrects` | cmd/ocd-smoke-alarm/main.go:517-532 | the run in which the withdrawn row comes back |
| `HealthSync.ResurrectionReachable` | cmd/ocd-smoke-alarm/main.go:862-879 | from every start-up and for every target some run gets there |
| `HealthSync.QuietTickPublishes` | cmd/ocd-smoke-alarm/main.go:862-885 | a tick no reload disturbs publishes every recorded result and leaves only target rows of this process |
| `HealthSync.SnapshotIsFresh` | internal/engine/engine.go:278-334 | a snapshot taken after a reload holds only results recorded after it, for the new targets |
| `HealthSync.ReloadWithdrawsLeavers` | internal/engine/engine.go:278-348 | a reload sets out to withdraw exactly the targets that left, and touches no row itself |
| `HealthSync.StatusBoard.Tick` | cmd/ocd-smoke-alarm/main.go:862-885 | one undisturbed tick, as the program's loops run it: the exact rows and owned ids it leaves |
| `AlertDedupe.RefinesThrottles` | internal/alerts/notifier.go:80-135 | what the shared map answers for a key is what an independent throttle answers to that key's severity-allowed events |
| `AlertDedupe.RankExactly` | internal/alerts/notifier.go:275-295 | severities rank by their word, however cased or padded, and unknown words rank lowest |
| `AlertDedupe.FilteredEventsInvisible` | internal/alerts/notifier.go:80-86 | for every sequence, the memory and the answers are those of the severity-allowed events alone, and the others are answered with silence |
| `AlertDedupe.ThrottleSpacing` | internal/alerts/notifier.go:120-135 | with readings in any order, passed readings of a key are a window apart each |
| `AlertDedupe.EmissionRate` | internal/alerts/notifier.go:120-135 | for every interleaving of clock readings and mutex sections, n emissions of a key span n-1 windows and fit the length of the run |
| `AlertDedupe.RunSerialized` | internal/alerts/notifier.go:124-134 | the answers of concurrent callers are those of one call per event in mutex order |
| `AlertDedupe.RememberedOnlyGrows` | internal/alerts/notifier.go:130-133 | stored readings only increase, whatever order readings arrive in |
| `AlertDedupe.SuppressedInRun` | internal/alerts/notifier.go:130-132 | in every interleaving a suppressed event read at t has an earlier emission e of its key with t < e + window |
| `AlertDedupe.SuppressedHasCause` | internal/alerts/notifier.go:130-132 | the same for one key's throttle |
| `AlertDedupe.SaturationHarmless` | internal/alerts/notifier.go:130 | the saturating subtraction of times decides as the exact one would |
| `AlertDedupe.KeyInjective` | internal/alerts/notifier.go:297-305 | for every id, events of pipe-free states, classes and severities share a key only if they agree up to case or one id continues the other with a pipe |
| `AlertDedupe.PlainEventsDistinguished` | internal/alerts/notifier.go:297-305 | events whose words and shown messages hold no pipe share a key if and only if they agree up to case, for any ids |
| `AlertDedupe.KeysDistinguishExactly` | internal/alerts/notifier.go:297-305 | for arbitrary events handed to the sinks, with any messages: keys tell those of a set of targets apart if and only if no id is another id continued with the words of an alert |
| `AlertDedupe.SharedKey` | internal/alerts/notifier.go:297-305 | two such events with one key are the same up to case, or one id extends the other so |
| `AlertDedupe.TheWordsSound` | internal/targets/targets.go:47-77 | the vocabularies of states, severities and classes are pipe-free and lower-case, and no severity is a state or a class |
| `AlertDedupe.SameKeySameRank` | internal/alerts/notifier.go:282-305 | events with one key have one severity rank, unless one id continues the other |
| `AlertDedupe.LoudSinksAlike` | internal/alerts/config.go:18-38 | on events of rank warn or above both sinks have one memory and give one answer |
| `AlertDedupe.DesktopFollowsLogExactly` | internal/alerts/config.go:18-38 | for arbitrary events handed to the sinks: the desktop sink attempts exactly the log sink's emissions that rank warn or above, on every stream for a set of targets, if and only if no id is another id continued with the words of an alert |
| `AlertDedupe.DesktopFollowsLog` | internal/alerts/config.go:18-38 | the same from any two memories that agree on loud events |
| `AlertDedupe.SinksAgreePerKey` | internal/alerts/notifier.go:80-135 | for a key whose events reach both sinks in one order, both answer alike, whatever the order of other keys |
| `AlertDedupe.SharedKeySilences` | internal/alerts/notifier.go:120-135 | where a quiet and a loud event share a key, the log sink swallows the loud one and the desktop sink does not |
| `AlertDedupe.SharedKeyInstance` | internal/alerts/notifier.go:120-135 | two ids and two events over the program's words, from a prober of one's own, that do so |
| `Escalation.AlertExactly` | internal/engine/engine.go:463-626 | for every result of the program's own probers: when an alert is raised, and which of two forms it has |
| `Escalation.ClassifiedKeeps` | internal/engine/engine.go:463-548 | what the classification leaves: the prober's state, severity and message without an alert, a degraded result staying degraded; the alert's with one |
| `Escalation.ChecksCounted` | internal/engine/engine.go:481-490 | how a check of each kind counts in the store, and that other targets are untouched |
| `Escalation.RaisedFor` | internal/engine/engine.go:588-626 | an alert is raised exactly for regressions, outages and critical results |
| `Escalation.SeverityConfigured` | internal/engine/engine.go:1345-1370 | which configured words a blank severity takes, and what it falls back to |
| `Escalation.RunRaisesWell` | internal/engine/engine.go:588-626 | every alert of every run of checks, from any remembered state and under changing policies, has one of these forms |
| `Escalation.RaisedKeysDistinguish` | internal/alerts/notifier.go:297-305 | keys tell all alerts the program's probers lead to apart, whatever the ids |
| `Escalation.RunSinksAlike` | internal/alerts/config.go:18-38 | both sinks answer every stream of such alerts alike, and the desktop sink follows the log sink |
| `Escalation.NoOutageAfterRegression` | internal/engine/engine.go:499-523 | a target once reported as a regression is never reported as an outage again |
| `Escalation.AggressiveChangesNothing` | internal/engine/engine.go:536-544 | the aggressive policy changes no result of the program's own probers |
| `Escalation.AggressiveEscalates` | internal/engine/engine.go:536-544 | what it does to a custom prober's result |
| `Escalation.CustomProberPasses` | internal/engine/engine.go:463-626 | an outage a custom prober returns is raised as it is when known state is off |
| `Escalation.ClassifyWithPolicy` | internal/engine/engine.go:463-548 | the assignments, in order, compute the classification, and leave the store as the update says |
| `Escalation.ApplyKnownState` | internal/engine/engine.go:481-523 | the branch that known state opens |
| `Escalation.Store.Update` | internal/knownstate/store.go:237-310 | the memory it leaves and what it reports, refused and unsaved updates included |
| `Escalation.LearnedExactly` | internal/knownstate/store.go:266-287 | the counters count the failing, or healthy, observations at the end of the history, and a baseline is known if and only if enough healthy ones once came in a row |
| `Escalation.BaselinePersists` | internal/knownstate/store.go:271-279 | a baseline is never lost in a run |
| `AlertDedupe.PipesCollide` | internal/alerts/notifier.go:297-305 | an id continued with another event's words shares its key, for a message that supplies the rest |
| `AlertDedupe.Notifier.constructor` | internal/alerts/notifier.go:67-77 | a sink starts with its threshold trimmed and lower-cased and remembers nothing |
| `AlertDedupe.Notifier.Notify` | internal/alerts/notifier.go:80-86 | emits and remembers as the specification of one call says |
| `AlertDedupe.Notifier.IsDeduped` | internal/alerts/notifier.go:120-135 | the decision and the new map |
| `AlertDedupe.NotifierFromConfig` | internal/alerts/config.go:18-48 | exactly which sinks exist, with which thresholds, and for each the configured window if it parses to a positive duration, else two minutes |
| `HostPort.SplitUndoesJoin` | internal/config/selfrefs.go:59-63 | splitting undoes joining, bracketed IPv6 hosts included |
| `HostPort.SplitParts` | internal/config/selfrefs.go:71-72 | a successful split accounts for every character of the address |
| `HostPort.SplitExactly` | internal/config/selfrefs.go:71-72 | exactly which addresses split, and into what |
| `HostPort.LocalHostExactly` | internal/config/selfrefs.go:80-87 | exactly which names are this machine's |
| `HostPort.LocalListenersSame` | internal/config/selfrefs.go:70-87 | all of them name one listener on a port |
| `HostPort.HostnameIsSplitHost` | internal/config/selfrefs.go:59-63 | the host taken from a parsed URL is the host of the split, and its port is digits |
| `HostPort.SameListenerEquivalence` | internal/config/selfrefs.go:70-87 | naming the same listener is an equivalence on the addresses that split |
| `HostPort.SameHostEquivalence` | internal/config/selfrefs.go:76-87 | the host half: fold-equal, or both local |
| `Url.ParsePrint` | internal/config/selfrefs.go:50-64 | parsing undoes printing for every well-formed URL |
| `Url.ParseWellFormed` | internal/config/selfrefs.go:50-53 | every parsed URL with a host is well-formed, so the round trip applies to it |
| `Url.ParseKeepsText` | internal/config/selfrefs.go:50-64 | nothing is lost in parsing: the URL printed is the text parsed, the scheme in lower case |
| `Following.RewriteSelfEndpoint` | internal/config/selfrefs.go:45-66 | the loop over the map gives the result of some visiting order |
| `Following.OrderIrrelevantExactly` | internal/config/selfrefs.go:54-65 | visiting orders agree if and only if all listeners the reference matches lead to one text |
| `Following.EveryOrderFollows` | internal/config/selfrefs.go:54-65 | with pairwise inequivalent configured addresses every order gives one simultaneous substitution |
| `Following.FollowOnce` | internal/config/selfrefs.go:42-66 | a reference naming no moved listener stays as written; any other keeps its host and gets the port bound by the listener it named, with no chains |
| `Following.FollowIdempotentExactly` | internal/config/selfrefs.go:45-66 | rewriting is idempotent if and only if no listener moved onto an address another moved away from |
| `Following.FollowTwice` | internal/config/selfrefs.go:45-66 | without chained moves the second rewriting changes nothing |
| `Following.ChainBreaksIdempotence` | internal/config/selfrefs.go:45-66 | a chained move gives a reference that changes twice |
| `Following.RewriteSelfReferences` | internal/config/selfrefs.go:26-40 | the target list after rewriting in place: four families of fields substituted, everything else untouched |
| `Following.RewriteTests` | internal/config/selfrefs.go:35-37 | every nested test endpoint is substituted and nothing else of a test changes |
| `Following.RewriteTarget` | internal/config/selfrefs.go:30-38 | the four field families of one target |
| `Following.FourFamilies` | internal/config/selfrefs.go:30-38 | the four field families are the substituted ones, and nothing else changes |
| `SelfRefs.RealLaws` | internal/config/selfrefs.go:45-87 | the program's addressing obeys the laws, so the results of Following hold of it |
| `SelfRefs.RealMeaning` | internal/config/selfrefs.go:54-64 | what matching, swapping and equivalence are for the program's addressing |
| `SelfRefs.RepointNames` | internal/config/selfrefs.go:59-64 | the rewritten endpoint parses to the same URL with only the port changed |
| `SelfRefs.LocalReferenceFollows` | internal/config/selfrefs.go:42-66 | a reference under any name of this machine follows the listener configured under any other, and keeps its name |
| `SelfRefs.RealNameable` | internal/config/selfrefs.go:45-66 | every listener with a URL-parsable address can be referred to |
| `SelfRefs.ListenerClaims.Claim` | cmd/ocd-smoke-alarm/main.go:347-356 | a claim is recorded exactly when the listener bound another address than configured |
| `SelfRefs.MovesOfDistinct` | cmd/ocd-smoke-alarm/main.go:344-384 | with distinct configured addresses the record holds exactly the listeners that moved, each under its own address |
| `SelfRefs.MovesInequivalent` | cmd/ocd-smoke-alarm/main.go:344-384 | and its keys are pairwise inequivalent |
| `SelfRefs.SelfCheckFollowsHealth` | cmd/ocd-smoke-alarm/main.go:740-758 | for every outcome of the claims the self-check target names the port the health listener bound |
| `SelfRefs.BindAndRewrite` | cmd/ocd-smoke-alarm/main.go:344-388 | binding and rewriting at start-up: fails only if the health listener does, otherwise yields the simultaneous substitution of all targets |
| `Defaults.DefaultsIdempotent` | internal/config/config.go:546-855 | a second ApplyDefaults changes nothing, for every configuration |
| `Defaults.ServiceIdempotent` | internal/config/config.go:158-198 | in particular across the efficiency profile |
| `Defaults.FederationIdempotent` | internal/config/config.go:765-794 | across port repair and the upstream alias |
| `Defaults.TargetIdempotent` | internal/config/config.go:796-854 | across reconciliation and the per-target loop |
| `Defaults.ReconcileCarries` | internal/config/config.go:1314-1362 | reconciliation leaves nothing of the OpenCode spelling uncarried, and then does nothing |
| `Defaults.FillSettles` | internal/config/config.go:802-853 | filling a target settles it and keeps it carried over |
| `Defaults.OverridesStick` | cmd/ocd-smoke-alarm/main.go:175-202 | after the command-line overrides, the federation flag among them, the second ApplyDefaults only switches on a health endpoint moved to the default address: no profile, worker count, port, lock file or target is revised |
| `Defaults.ParseFederationFlag` | cmd/ocd-smoke-alarm/main.go:2314-2327 | the loop over the flag's parts: the last upstream or introducer sets both addresses, and federation is on |
| `Defaults.ApplyEfficiencyProfile` | internal/config/config.go:158-198 | the profile's assignments, in order |
| `Defaults.ApplyService` | internal/config/config.go:551-583 | the service section around it |
| `Defaults.ApplyFederation` | internal/config/config.go:765-794 | port repair, intervals and the upstream alias, in order |
| `Defaults.ReconcileFields` | internal/config/config.go:1314-1362 | the field-by-field reconciliation computes the carried-over target |
| `Defaults.FillFields` | internal/config/config.go:802-853 | the rest of the loop body, in order |
| `Defaults.ApplyTargets` | internal/config/config.go:796-854 | the loop over the targets, in place |
| `Defaults.Loaded.ApplyDefaults` | internal/config/config.go:546-855 | the in-place pass leaves the defaulted configuration in the same object and list |
| `Defaults.TransportInferred` | internal/config/config.go:1364-1391 | which transport an endpoint gets: by its scheme, and for http by the marks of an event stream |
| `Defaults.TransportKept` | internal/config/config.go:838-840 | a written transport is kept |
| `Defaults.CodesBeforeInference` | internal/config/config.go:830-840 | status codes are chosen by the written transport: a WebSocket target that leaves it to be inferred is expected to answer 200 |
| `Defaults.HandshakeByProtocol` | internal/config/config.go:808-829 | an unwritten handshake follows the protocol, unwritten times the service |
| `Defaults.WorkersByProfile` | internal/config/config.go:158-198 | how many workers each profile leaves of any number |
| `Defaults.TimesByProfile` | internal/config/config.go:158-198 | which times a profile supplies, written ones being kept |
| `Defaults.ProfileByMode` | internal/config/config.go:563-569 | which profile a mode implies |
| `Defaults.HealthSwitch` | internal/config/config.go:586-607 | when health ends up enabled |
| `Defaults.LockFileNamed` | internal/config/config.go:610-612 | the default lock file is named after the service |
| `Defaults.CanonicalFieldsWin` | internal/config/config.go:1311-1362 | where both spellings of a field are written the canonical one wins |
| `Defaults.UpstreamShapes` | internal/config/config.go:1396-1405 | an upstream written as host and port, with or without a slash, becomes a URL |
| `Defaults.LastAddressWins` | cmd/ocd-smoke-alarm/main.go:2314-2327 | the last upstream or introducer of the federation flag sets both addresses, further colons included |
| `FreshConfig.BlankFilled` | internal/config/config.go:546-855 | every value ApplyDefaults supplies to a configuration that says nothing |
| `FreshConfig.FreshAcceptedExactly` | internal/config/config.go:858-1288 | whatever is switched on, such a configuration is accepted after defaulting if and only if its version is "1" and its targets are |
| `FreshConfig.MinimalAcceptedExactly` | internal/config/config.go:796-854 | a target of an id, a protocol and an endpoint is accepted if and only if the protocol is known and the endpoint is an http or WebSocket URL |
| `FreshConfig.AcceptableExactly` | internal/config/config.go:858-1288 | acceptance is version "1" and every part |
| `FreshConfig.ServiceWords` | internal/config/config.go:870-887 | which mode, profile, level, duration and number of workers an acceptable service section may have instead |
| `FreshConfig.SeverityWords` | internal/config/config.go:973-1001 | which severities, windows and retries an acceptable alert section may have instead |
| `FreshConfig.AuthNeeds` | internal/config/config.go:1003-1025 | what the auth section needs, in words |
| `FreshConfig.FormatNeeds` | internal/config/config.go:1043-1053 | formats are listed words, and no two are one word however spelled |
| `FreshConfig.LlmsTxtUriNeeds` | internal/config/config.go:1437-1460 | scheme, host and path of a remote llms.txt address |
| `FreshConfig.TransportWords` | internal/config/config.go:1177-1197 | which transports an acceptable target may have instead |
| `FreshConfig.CredentialsNeed` | internal/config/config.go:1246-1281 | what each kind of credentials needs |
| `FreshConfig.MethodWords` | internal/config/config.go:1232-1235 | which request methods a test may use, however cased |
| `Defaults.RemoteSpellingsAgree` | internal/config/config.go:1311-1391 | both spellings of a remote target agree on the canonical fields if and only if the URL does not select stdio and the scopes survive joining |
| `Defaults.LocalSpellingsAgree` | internal/config/config.go:1314-1344 | both spellings of a local target always agree |
| `Defaults.ScopeRoundTrip` | internal/config/config.go:1358-1360 | a scope list survives the space-separated form of section 3.3 of RFC 6749 if and only if its tokens hold no space and it is not a lone empty token |
| `Validation.Validate` | internal/config/config.go:858-1288 | reports no problem if and only if the configuration is acceptable |
| `Validation.ValidateSections` | internal/config/config.go:864-1025 | the sections up to auth |
| `Validation.ValidateFeatures` | internal/config/config.go:1027-1157 | the optional features |
| `Validation.ValidateTargets` | internal/config/config.go:1159-1282 | no problem if and only if all ids are present and pairwise distinct, over disabled targets too, and every enabled target is valid |
| `Validation.ValidateTrust` | internal/config/config.go:912-930 | every cluster has an identity and a secret, whatever the map order, and the roots parse |
| `Validation.ValidateDiscovery` | internal/config/config.go:939-971 | ports, catalogue URLs and the llms.txt block |
| `Validation.ValidateLlmsTxt` | internal/config/config.go:954-970 | each remote URI is non-blank and valid under the scheme policy |
| `Validation.ValidateAlerts` | internal/config/config.go:973-1001 | windows positive and all four severities known, "warn" included |
| `Validation.ValidateMetaFormats` | internal/config/config.go:1043-1053 | formats are allowed and pairwise distinct after folding |
| `Validation.ValidateDynamicFormats` | internal/config/config.go:1111-1123 | the same condition, though this loop forgets formats that had a problem |
| `Validation.ValidateHosted` | internal/config/config.go:1072-1099 | transports, protocols and the three routes |
| `Validation.ValidateAddress` | internal/config/config.go:1174-1197 | where an enabled target is reached |
| `Validation.ValidateHurl` | internal/config/config.go:1216-1236 | a test names exactly one of a file and an endpoint |
| `Validation.ValidateCheck` | internal/config/config.go:1199-1236 | the check policy |
| `Accepted.SelfCheckKeepsIdsDistinct` | cmd/ocd-smoke-alarm/main.go:740-758 | accepted ids are distinct, and stay so after the self-check append if and only if no target has its name |
| `Accepted.NeverFallsBack` | cmd/ocd-smoke-alarm/main.go:1885-1887 | an enabled target of an accepted configuration runs at its own interval and timeout; no fallback is used |
| `Accepted.FallbackTimes` | cmd/ocd-smoke-alarm/main.go:1885-1887 | which fallback an unusable time would get |
| `Accepted.CompiledWords` | cmd/ocd-smoke-alarm/main.go:1885-1927 | a compiled target uses the program's lower-case words and no others |
| `Accepted.CompiledKeeps` | cmd/ocd-smoke-alarm/main.go:1885-1927 | and keeps everything the target says, up to their case |
| `Accepted.SelfCheckCompiles` | cmd/ocd-smoke-alarm/main.go:740-758 | the self-check target, added after validation, compiles: every thirty seconds with five to answer |
| `Accepted.CompilesExactly` | internal/targets/targets.go:159-276 | such a target passes the second validator if and only if its id is not blank, its endpoints can stand in a request and an sse endpoint is http or https |
| `Accepted.TargetCompilesExactly` | cmd/ocd-smoke-alarm/main.go:1885-1931 | the same for one valid target under any service section |
| `Accepted.SseOverWebSocket` | internal/targets/targets.go:181-192 | an accepted configuration with a target the second validator refuses |
| `Accepted.RepairedPortsValid` | internal/config/config.go:765-770 | defaulted federation ports are valid if and only if no range had to be supplied above base port 65532 |
| `Accepted.ValidateConfigIssues` | cmd/ocd-smoke-alarm/main.go:1311-1352 | the second checker lists exactly the deserved issues, each once, target by target with the health section last |
| `Accepted.AcceptedHasNoIssues` | cmd/ocd-smoke-alarm/main.go:1311-1352 | and deserves none for any accepted configuration, with or without the self-check target |
| `DiscoveryMerge.Discover` | internal/discovery/discovery.go:102-181 | an id-sorted permutation with distinct keys, covering exactly the keys some source asked has; what is kept for a key is the first enabled target's record, else the first in the environment, else among the proxies, else in llms.txt |
| `DiscoveryMerge.OfferedSupplied` | internal/discovery/discovery.go:113-172 | which source supplies the record kept for a key |
| `DiscoveryMerge.EnvironmentFirst` | internal/discovery/discovery.go:134-172 | a service in the environment and in llms.txt is kept as the environment gave it |
| `DiscoveryMerge.LessEqExactly` | internal/discovery/discovery.go:174-176 | the order is that of the characters at the first difference, a prefix coming first |
| `DiscoveryMerge.DiscoverResult` | internal/discovery/discovery.go:102-181 | an ordered permutation of the first records has distinct keys and every offered key |
| `DiscoveryMerge.SameKeyExactly` | internal/discovery/discovery.go:871-873 | records of pipe-free protocols and transports share a key if and only if protocol, transport and endpoint agree up to letter case |
| `DiscoveryMerge.FirstsFacts` | internal/discovery/discovery.go:112-172 | keeping the unseen keys keeps the first record of every key and no other |
| `DiscoveryMerge.MergeStatic` | internal/discovery/discovery.go:112-131 | the enabled configured targets |
| `DiscoveryMerge.Merge` | internal/discovery/discovery.go:139-172 | one source merged by the seen-set |
| `DiscoveryMerge.SortById` | internal/discovery/discovery.go:174-176 | ordered by id, a permutation |
| `DiscoveryMerge.DiscoverDeterminedExactly` | internal/discovery/discovery.go:102-181 | what Discover returns is determined by what the sources offer if and only if the records kept have distinct ids |
| `DiscoveryMerge.ListingUniqueExactly` | internal/discovery/discovery.go:174-176 | the unstable sort has one possible result if and only if no two records share an id |
| `DiscoveryMerge.ListingUnique` | internal/discovery/discovery.go:174-176 | the direction from distinct ids |
| `LlmsTxt.MatchLinkExact` | internal/discovery/discovery.go:330 | the link matcher accepts exactly the lines of the pattern's grammar, with the same parts |
| `LlmsTxt.ParseCandidates` | internal/discovery/discovery.go:465-515 | the candidates are, in order, those of the lines that contribute one under the last heading before them; an overlong line discards all |
| `LlmsTxt.CandidateSection` | internal/discovery/discovery.go:478-508 | each candidate carries the last preceding heading and the matching optional flag |
| `LlmsTxt.SectionUnique` | internal/discovery/discovery.go:478-482 | a line belongs to one section |
| `LlmsTxt.ReadItem` | internal/discovery/discovery.go:484-508 | what one list item contributes |
| `LlmsTxt.ItemExactly` | internal/discovery/discovery.go:484-545 | an item contributes if and only if its link resolves to a URL of four schemes with a host and some text speaks of MCP or ACP |
| `LlmsTxt.HeadingsExactly` | internal/discovery/discovery.go:478-482 | two hashes and a blank make a heading, one or three do not |
| `LlmsRecords.RegisterFile` | internal/discovery/discovery.go:364-436 | with auto-registration each candidate yields exactly one MCP or ACP record, in order: the filters drop none |
| `LlmsRecords.BuildRecords` | internal/discovery/discovery.go:377-436 | for arbitrary candidates, the records of those that pass the filters, in order |
| `LlmsRecords.ContributedIsRegistrable` | internal/discovery/discovery.go:536-557 | whatever the parser lets through, the protocol filter lets through |
| `LlmsRecords.ProtocolExactly` | internal/discovery/discovery.go:547-591 | which protocol, credentials, scopes and name a candidate gets, from its texts |
| `LlmsRecords.IdsSharedExactly` | internal/discovery/discovery.go:377-390 | records have one id if and only if they stand at one position of files on one host, with one protocol |
| `LlmsRecords.IdsDistinctPerFile` | internal/discovery/discovery.go:377-390 | so the records of one file have distinct ids |
| `LlmsRecords.TwoFilesShareId` | internal/discovery/discovery.go:377-390 | and two files of one host give the same id at the same position exactly when the protocols agree |
| `LlmsRecords.TwoFilesUndetermined` | internal/discovery/discovery.go:158-176 | a discovery that merges two such records under two keys may list them in either order |
| `LlmsRecords.DiscoverFromLlmsTxt` | internal/discovery/discovery.go:340-440 | the records of all listed files, file by file, and the files that failed |
| `LlmsRecords.ScaffoldedOAuthUnresolvable` | internal/discovery/discovery.go:559-576 | an OAuth record's client secret resolves nowhere |
| `SecretRefs.MakeSafeId` | internal/discovery/discovery.go:883-902 | the builder loop computes the slug function |
| `SecretRefs.SafeIdIsSlug` | internal/discovery/discovery.go:883-902 | every result is a non-empty `[a-z0-9-]` word with no edge dash |
| `SecretRefs.SlugsAreFixed` | internal/discovery/discovery.go:883-902 | the fixed points are exactly the slugs |
| `SecretRefs.SafeIdIdempotent` | internal/discovery/discovery.go:883-902 | idempotence |
| `SecretRefs.SafeIdJoins` | internal/discovery/discovery.go:883-902 | between two slugs separators become a dash, capitals are folded and other characters dropped |
| `SecretRefs.KeyringRefExact` | internal/auth/provider.go:342-358 | a reference is accepted if and only if it has two non-blank segments, and yields them trimmed |
| `SecretRefs.ScaffoldedRefRejected` | internal/discovery/discovery.go:574 | the reference discovery writes is rejected for every name |
| `SecretRefs.ScaffoldedRefUnresolvable` | internal/auth/provider.go:257-278 | and no chain in any environment resolves it |
| `SecretRefs.ResolveChain` | internal/auth/provider.go:257-278 | the loop computes the chain's verdict |
| `SecretRefs.SchemesResolve` | internal/auth/provider.go:280-318 | what a chain answers to an environment or file reference |
| `SecretRefs.VerdictIsDecisive` | internal/auth/provider.go:257-278 | the verdict is that of the one resolver that succeeds or fails hard; errors are joined exactly when there is none |
| `SecretRefs.OneDecides` | internal/auth/provider.go:280-347 | a reference is the business of one kind of resolver at most |
| `SecretRefs.ChainOrderIrrelevant` | internal/auth/provider.go:257-278 | the same resolvers in any order give the same success or hard error |
| `ReseedPlan.Plan.constructor` | cmd/synapse-cache-reseed/main.go:571-574 | an empty plan |
| `ReseedPlan.Plan.AddLearn` | cmd/synapse-cache-reseed/main.go:507-520 | keeps the index equal to the map of the list, and does by index what searching the list would do |
| `ReseedPlan.FirstOfferWins` | cmd/synapse-cache-reseed/main.go:507-520 | queries are distinct, trimmed and not empty, each with the chunk it was first offered with |
| `ReseedPlan.WarnedExactly` | cmd/synapse-cache-reseed/main.go:512-516 | a query is warned about if and only if some offer for it named another chunk than the first |
| `ReseedPlan.LookupFirst` | cmd/synapse-cache-reseed/main.go:512-519 | searching a list finds its first entry |
| `ReseedPlan.TagFrequency` | cmd/synapse-cache-reseed/main.go:255-269 | counts the lists that carry a name, repeats within a list counting once |
| `ReseedPlan.CountList` | cmd/synapse-cache-reseed/main.go:258-266 | one list's contribution |
| `ReseedPlan.TagQueriesDisjoint` | cmd/synapse-cache-reseed/main.go:279-289 | tag queries of different lists never coincide |
| `ReseedPlan.NeverCollideExactly` | cmd/synapse-cache-reseed/main.go:255-289 | tags of a class never yield queries of different lists that trim alike if and only if no two of them have different names that trim alike |
| `ReseedPlan.FeatureTagsNeverCollide` | cmd/synapse-cache-reseed/main.go:406-416 | in feature mode no two queries of different features trim alike |
| `ReseedPlan.CatalogTagsCollide` | cmd/synapse-cache-reseed/main.go:279-289 | in docs mode they may: any class with "@ smoke" and "@smoke" has lists that collide |
| `FeaturePlan.ParseFeatureFile` | cmd/synapse-cache-reseed/main.go:354-384 | one pass reads off the tags above the Feature line, its name, and the prose down to the first keyword or tag |
| `FeaturePlan.FeatureOfParts` | cmd/synapse-cache-reseed/main.go:354-384 | a file put together from its parts is read as them |
| `FeaturePlan.LineKinds` | cmd/synapse-cache-reseed/main.go:365-380 | which lines open a feature, end a description or add nothing to it |
| `FeaturePlan.KeywordsExactly` | cmd/synapse-cache-reseed/main.go:388-404 | the seven keywords, each with its colon |
| `FeaturePlan.FieldsOfLaid` | cmd/synapse-cache-reseed/main.go:367 | splitting at white space reads back the words of every layout |
| `FeaturePlan.FieldsLaidOut` | cmd/synapse-cache-reseed/main.go:367 | and every text is a layout of the words found |
| `FeaturePlan.SummaryExactly` | cmd/synapse-cache-reseed/main.go:308-319 | a summary is what there is of name and description |
| `FeaturePlan.QueriesExactly` | cmd/synapse-cache-reseed/main.go:406-416 | a feature offers its name, its alias and the tags no other carries |
| `FeaturePlan.ParsedTagsSolid` | cmd/synapse-cache-reseed/main.go:366-367 | parsed tags hold no white space |
| `FeaturePlan.FeatureQueries` | cmd/synapse-cache-reseed/main.go:406-416 | name, alias, and the tags no other feature carries |
| `FeaturePlan.BuildFeaturePlan` | cmd/synapse-cache-reseed/main.go:570-593 | the plan of all offers and summaries of the features that have a chunk, the failures of the others, and the input count |
| `FeaturePlan.TagOffersAgree` | cmd/synapse-cache-reseed/main.go:570-593 | two tag offers for one query come from one feature and name one chunk |
| `FeaturePlan.TagsNeverWarn` | cmd/synapse-cache-reseed/main.go:507-516 | whenever the plan warns, a feature's name or alias is involved |

## Left out

- Letter case is that of ASCII; `EqualFold`, `ToLower` and `ToUpper` disagree on some other letters (the Kelvin sign, the long s), and the model does not follow them there.
- Url.ParsePrint: percent-escapes are ordinary characters and may not occur in hosts, the user part is kept unchecked, and characters that `URL.String` would escape are printed as they are; an empty fragment or query mark is kept.
- SelfRefs.RepointNames: the same limits of the URL model.
- Lock files: a pid half written when it is read, pid reuse, and a permission error read as "not running" are not modelled; removing the file and failing to is one step each.
- The rows of `/status` are modelled by their ids; their contents are copied through.
- Clock readings are integers and the redaction of message text is an arbitrary function; delivery errors of the sinks, which do not reach the dedupe state, are left out.
- `time.ParseDuration`, `url.Parse` as validation uses it, `isotope.ParseRoots` and file-name aliases are arbitrary functions, with the laws a lemma needs as its `requires`.
- The texts of validation problems: the model keeps the field and, where there is one, the position.
- Configuration fields that neither defaulting, validation nor rewriting touches; the telemetry flag, which sets only such fields, and the federation rank.
- DiscoveryMerge.Discover: what the environment, the proxy scan and llms.txt offer is given; the probing and the URL guessing behind the first two are not modelled.
- LlmsRecords.RegisterFile: the transport and the token URL read off an address are arbitrary functions, as are the host of an address and the fetching of a file.
- The probers themselves: what the program's probers, its safety stage and its error paths can return is stated as a condition on results (`Escalation.Probed`); retries and the history of events are left out, and redaction is assumed to put no pipe into the texts of the two alerts.
- AlertDedupe.DesktopFollowsLog: both sinks take the events in one order; where callers reach the two mutexes in different orders only AlertDedupe.SinksAgreePerKey is stated.
- AlertDedupe.KeysDistinguishExactly: assumes that redaction leaves alone a message made of a piece of an id and the words of an outage.
- LlmsTxt.ParseCandidates: the scanner's limit of 65536 counts characters where the program counts bytes; resolving a link against the file's address is an arbitrary function.
- SecretRefs.ChainOrderIrrelevant: when every resolver passes, the joined error messages do depend on the order; only that all of them passed is stated to be the same.
- The docs mode of the reseed plan, apart from its tag queries: its resolution of chunks is remote.
- HTTP, mDNS, keychain and desktop commands, CLI and terminal output, the check engine's scheduler, federation, and the hosted server: their logic is either I/O or would add easier members of the same kinds.
