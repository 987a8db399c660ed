# IsardVDI: verified models of its stateful core

This project models, in Dafny, the parts of IsardVDI whose correctness depends on the order in which things
happen: the identity-provider manager, user sessions over Redis, Guacamole framing, HAProxy reconciliation, the
shutdown of a proxied SSH channel, the normalisation of OpenAPI operation ids and the configuration watcher.

| files | what they model |
|---|---|
| `ProviderModel.dfy`, `ProviderConvergence.dfy`, `ProviderWatcher.dfy`, `ProviderManager.dfy` | which identity providers a category offers, how two watchers and the manager interleave over a configuration change, and where the manager ends up |
| `ProviderHistory.dfy`, `ProviderOverlap.dfy`, `ProviderExposure.dfy` | changes that follow one another without waiting for the manager |
| `Sessions.dfy`, `SessionTimes.dfy` | New, Renew and Revoke interleaved at single Redis commands that may fail, with expiring records and locks |
| `GuacInstruction.dfy`, `GuacStream.dfy`, `GuacTunnel.dfy` | printing, scanning, parsing and batching of Guacamole instructions over a buffer window |
| `HaproxyWorker.dfy`, `HaproxyServing.dfy`, `HaproxyBastion.dfy`, `HaproxyDomains.dfy`, `HaproxySync.dfy` | bringing a HAProxy worker to a requested state with commands that may fail, while reloads replace the worker at any time |
| `SshChannel.dfy` | the goroutines and the request loop of one proxied SSH channel |
| `OperationIds.dfy` | shortening operation ids in place |
| `Watch.dfy` | a polling watcher and the changes it emits |
| `Common.dfy` | what several of them share |

`dafny verify dfyconfig.toml` checks everything.

## How to read it

* A class carries the state the source updates in place. Each of its methods is proved against a function of the old
  state, or states the promised property itself, and lemmas are proved about those functions.
* Concurrent code is a state machine: `Enabled` says when a step is possible, `Apply` what it does, and the main
  lemmas speak about every run.
* Where a promise does not hold for all inputs, the exact condition is proved, with a concrete input that breaks it.

These promises have such conditions.

* Convergence of the provider manager after one change (`ReloadSettlesIffSafe`). It fails in some order exactly when,
  for some category, all old custom providers are announced before all new ones (`Late`: the scope and its channels are
  dropped in between and the enable finds no channels), or LDAP goes from custom to disabled and Local becomes
  custom while the global Local is withdrawn (`Swap`; `FlagsThenGlobalsIsRealizable` shows that the goroutines can
  produce the order that loses it).
* Convergence after changes that follow one another without waiting (`OverlapSettlesIffSpared`). It fails in some order
  exactly when a category that has customs in the end is `Exposed`: a Form sub-provider among them was switched off by a
  flag at some time (`StaleFlag`); or a disable leaves no custom provider but such that flags may have taken out
  (`Drained`); or flags have at some time taken out all customs there were, and a global provider the category inherits
  is withdrawn (`Swept`). Two changes that are safe by themselves can do this: `OverlapLoses` and `StaleFlagLoses`.
* At most one live session per user (`OneSessionPerUser`) survives every failed command but one that falls between the
  writing of a session and of its pointer; `OrphanIsSecondSession` shows that every failure there can bring a second
  session.
* Every routed domain is served (`ServedUnlessTorn`) exactly as long as no reload falls between the listing of a
  domain's certificate and its routing; a reload earlier in the adding makes the next command fail instead. Each worker
  has at most one such domain (`SafeExec`, and with it every operation and run of the service). `ReloadBeforeRouting` is
  such a run.
* After a requested sync the recorded process id vouches for the worker exactly under the conditions in `HandleDomains`
  and `HandleBastion`, one for each way the sync can end. A sync that gives up half-way can leave worker and memory out
  of step in a way no check notices (`GivesUpUnnoticed`, `Check`, `Supervise`).
* A read of the stream returns (`ReadSome`) exactly if the instruction fits between its start and the end of the array,
  or in the whole array when it starts in the last third, where the buffer is moved first (`DigitsStall`).
* The renewal bound (`WithinMaxIffConfigured`) needs both configured durations to be at most MaxTime;
  `RenewablePastMaxTime` breaks it. It fails only for a session that was never renewed (`WithinMaxOnceRenewed`).
* A bastion sync (`SyncedIffPrefixed`) makes the subdomain map equal the request exactly when all keys in it were
  dot-prefixed: a stray key without the dot is never deleted (`StrayKeyStays`).
* Distinct operation ids (`DistinctIffNoClash`). The documentation of the function says that a stem is used only when
  globally unique, but only five verbs are counted, so an id on another verb can clash (`HeadClashes`).

Lock exclusion is proved under the hypothesis that no holder outlives its TTL; `OutlivedLockIsShared` shows that every
violation of the hypothesis can bring a second holder, and `SharedReleaseUnlocks` what its release does.

Smaller observations are stated as contracts: a restore cannot succeed while the deployment's own domain is among the
remembered domains (`RestoreInto`); a sync of the domains that cannot list the map forgets all of them (`DomainSync`);
and a watcher cancelled while a change waits in the channel ends with a current value it never announced (`Watch`).

## Model

| member | source | states |
|---|---|---|
| `ProviderModel.StepKeepsConsistent` | authentication/providermanager/provider_manager.go:238-499 | every event keeps the slot rule: a category's Form holds its own provider if custom, nothing if disabled, otherwise the very reference the global Form holds |
| `ProviderModel.ReachableConsistent` | authentication/providermanager/provider_manager.go:117-140 | the slot rule holds after any sequence of events in any order |
| `ProviderModel.ListedIffResolved` | authentication/providermanager/provider_manager.go:620-718 | in every consistent state a name is offered exactly when a lookup of it does not end at the Unknown provider |
| `ProviderModel.EmptyScopeInherits` | authentication/providermanager/provider_manager.go:396-418 | a scope judged empty holds only what it inherits |
| `ProviderModel.EmptyScopeInvisible` | authentication/providermanager/provider_manager.go:360-366 | removing a scope judged empty changes no lookup and no listing |
| `ProviderConvergence.EnableEffect` | authentication/providermanager/provider_manager.go:420-499 | an enable for a category adds the custom provider if the category has change channels and otherwise only creates the scope |
| `ProviderConvergence.DisableEffect` | authentication/providermanager/provider_manager.go:304-356 | a disable removes the custom provider, and the scope and its channels with the last one |
| `ProviderConvergence.GlobalOffEffect` | authentication/providermanager/provider_manager.go:318-346 | a global disable removes a category scope exactly when it has nothing of its own left and inherited that provider |
| `ProviderConvergence.QueuePending` | authentication/providermanager/cfg.go:199-304 | each queue announces exactly the switches that differ, in the fixed provider order, with their new values |
| `ProviderConvergence.SafeChangeSettles` | authentication/providermanager/cfg.go:199-393 | in every order that keeps each queue and creates a category's channels before its events, sending and handling overlapping, a safe change ends in the state the new configuration alone determines |
| `ProviderConvergence.LostForGood` | authentication/providermanager/provider_manager.go:449-459 | a category whose channels are gone never gains the provider until they are created again |
| `ProviderConvergence.LateNeverSettles` | authentication/providermanager/cfg.go:205-303 | if every old custom provider is announced before every new one, none of those orders reaches the new configuration |
| `ProviderConvergence.SwapRun` | authentication/providermanager/provider_manager.go:304-356 | LDAP going from custom to disabled while the global Local is withdrawn: with all flags handled first and then the global events, the category's new Local is lost |
| `ProviderConvergence.LdapToSamlIsLate` | authentication/providermanager/cfg.go:228-248 | a concrete late change: a category moving from its own LDAP to its own SAML |
| `ProviderConvergence.LocalHandoverIsSwap` | authentication/providermanager/cfg.go:217-237 | a concrete swapped change that is not late |
| `ProviderConvergence.HistorySettles` | authentication/providermanager/cfg.go:86-91 | after any number of safe changes, each handled in any order before the next is announced, only the last configuration matters |
| `ProviderWatcher.OnlyCategory` | authentication/providermanager/cfg.go:205-392 | what the watcher does about one category holds each of its queues whole and in order, and nothing else |
| `ProviderWatcher.ScriptOpensFirst` | authentication/providermanager/cfg.go:213-213 | in whatever order the categories are visited, a category's channels are created before anything of it is sent |
| `ProviderWatcher.TurnComing` | authentication/providermanager/cfg.go:395-412 | a turn of any of the three goroutines takes the next event off exactly one queue and moves no other |
| `ProviderWatcher.YieldsQueue` | authentication/providermanager/cfg.go:64-65 | whatever the interleaving of the two watchers and the manager, every queue is handled whole and in order |
| `ProviderWatcher.YieldsOpensFirst` | authentication/providermanager/cfg.go:395-412 | whatever the interleaving, no event of a category is handled before its channels are created |
| `ProviderWatcher.RealizableIsSchedule` | authentication/providermanager/provider_manager.go:117-140 | every order of events the three goroutines can produce is a schedule of the change |
| `ProviderWatcher.OrderYields` | authentication/providermanager/provider_manager.go:117-140 | the categories watcher working in two parts with the global one after each, and the manager changing channels in between, is something the goroutines can do |
| `ProviderWatcher.FlagsThenGlobalsIsRealizable` | authentication/providermanager/provider_manager.go:127-136 | both watchers finishing first, then all flags, then the provider channel, is an order the goroutines can produce |
| `ProviderWatcher.FlagsThenGlobalsLoses` | authentication/providermanager/provider_manager.go:304-356 | that order loses a swapped category |
| `ProviderWatcher.ReloadSettlesIffSafe` | authentication/providermanager/provider_manager.go:117-140 | from any settled state, a change settles in every order the goroutines can produce if and only if it is safe, which can be read off the two configurations |
| `ProviderWatcher.Goroutine.HandleGlobalChange` | authentication/providermanager/cfg.go:127-168 | the global watcher sends the global queue of the change |
| `ProviderWatcher.Goroutine.AnnounceCategory` | authentication/providermanager/cfg.go:205-304 | channels created, events sent, channels deleted if nothing needs them, in this order |
| `ProviderWatcher.Goroutine.RetractCategory` | authentication/providermanager/cfg.go:306-392 | a deleted category: what it had is taken back, then its channels go |
| `ProviderWatcher.Goroutine.HandleCategoriesChange` | authentication/providermanager/cfg.go:199-393 | for any order of ranging over the two maps, the whole list of what the categories watcher does |
| `ProviderHistory.QueueAllToggles` | authentication/providermanager/cfg.go:199-304 | over a whole history each queue takes its switches from the first configuration to the last |
| `ProviderOverlap.EnableFindsChannels` | authentication/providermanager/provider_manager.go:449-459 | in a category with customs in the end that its history does not expose, an enable is handled while the category has channels, however late |
| `ProviderOverlap.LastingIsReady` | authentication/providermanager/cfg.go:205-304 | if no change of a history takes a category's last custom provider, channels are created before the first enable is sent and never deleted after it |
| `ProviderOverlap.EndsClosed` | authentication/providermanager/cfg.go:298-303 | with nothing custom in the end, the last thing the watcher does about a category's channels is to delete them |
| `ProviderOverlap.AllReceives` | authentication/providermanager/provider_manager.go:117-140 | whatever the manager receives next, every category keeps to its history: what is custom, disabled and global, its scope and its channels |
| `ProviderOverlap.SparedHistorySettles` | authentication/providermanager/cfg.go:93-197 | changes announced without waiting, in every order the goroutines can produce: a history that exposes no category settles on its last configuration |
| `ProviderExposure.RunBounded` | authentication/providermanager/provider_manager.go:238-499 | the most a category can have after some provider events, then flags, with global events at any time |
| `ProviderExposure.StaleOrder` | authentication/providermanager/provider_manager.go:262-277 | flags handled last take out a provider that is custom in the end |
| `ProviderExposure.DrainOrder` | authentication/providermanager/provider_manager.go:304-356 | a disable handled after the flags leaves nothing, drops the channels, and the category never gets its customs back |
| `ProviderExposure.SweepOrder` | authentication/providermanager/provider_manager.go:318-346 | a global disable handled when flags have taken out all that was custom drops the scope and the channels for good |
| `ProviderExposure.ExposedHistoryLoses` | authentication/providermanager/cfg.go:93-197 | for every exposed category there is an order the goroutines can produce that ends without its customs |
| `ProviderExposure.OverlapSettlesIffSpared` | authentication/providermanager/cfg.go:93-197 | from any settled state, any list of changes announced without waiting settles in every order the goroutines can produce if and only if it exposes no category, which can be read off the configurations |
| `ProviderExposure.OneChangeSparedIffSafe` | authentication/providermanager/cfg.go:199-393 | for a single change the condition is that it is safe |
| `ProviderExposure.OverlapLoses` | authentication/providermanager/cfg.go:298-303 | two changes safe for the category: announcing the second before the first is handled loses the second's enable |
| `ProviderExposure.StaleFlagLoses` | authentication/providermanager/provider_manager.go:262-277 | two changes safe for the category: a flag of the first, handled after the enable of the second, takes the new provider out |
| `ProviderManager.ProviderManager.IsScopeEmpty` | authentication/providermanager/provider_manager.go:396-418 | empty means no stand-alone provider and no custom sub-provider in the Form |
| `ProviderManager.ProviderManager.RestoreInherited` | authentication/providermanager/provider_manager.go:724-752 | the method does to a scope what the value model says |
| `ProviderManager.ProviderManager.Propagate` | authentication/providermanager/provider_manager.go:491-496 | every existing scope gets a new global sub-provider unless custom, disabled or already there |
| `ProviderManager.ProviderManager.Withdraw` | authentication/providermanager/provider_manager.go:318-339 | every inheriting scope loses the sub-provider, and exactly the scopes this empties are named |
| `ProviderManager.ProviderManager.EnableGlobalProvider` | authentication/providermanager/provider_manager.go:420-499 | the whole manager state after a global enable |
| `ProviderManager.ProviderManager.DisableGlobalProvider` | authentication/providermanager/provider_manager.go:304-356 | the whole manager state after a global disable, emptied scopes and their channels removed |
| `ProviderManager.ProviderManager.EnableCategoryProvider` | authentication/providermanager/provider_manager.go:420-489 | the whole manager state after a category enable, including the early return without channels |
| `ProviderManager.ProviderManager.DisableCategoryProvider` | authentication/providermanager/provider_manager.go:304-356 | the whole manager state after a category disable |
| `ProviderManager.ProviderManager.SetDisabled` | authentication/providermanager/provider_manager.go:262-277 | the whole manager state after a disabled flag is set |
| `ProviderManager.ProviderManager.ClearDisabled` | authentication/providermanager/provider_manager.go:244-259 | the whole manager state after a disabled flag is cleared |
| `ProviderManager.ProviderManager.Handle` | authentication/providermanager/provider_manager.go:289-302 | one event off a channel takes the state to its successor in the value model |
| `ProviderManager.ProviderManager.Provider` | authentication/providermanager/provider_manager.go:679-704 | the lookup returns what the value model resolves |
| `ProviderManager.ProviderManager.ListProviders` | authentication/providermanager/provider_manager.go:655-677 | the names of one scope: stand-alone ones, those of its Form, and the Form if it has any |
| `ProviderManager.ProviderManager.Providers` | authentication/providermanager/provider_manager.go:620-653 | the offered names are exactly the listed ones: both scopes, less disabled ones, no Form without a sub-provider |
| `ProviderManager.ProviderManager.Interleave` | authentication/providermanager/provider_manager.go:117-140 | any interleaving of the two watchers and the manager runs the events of one of the orders they can produce |
| `ProviderManager.ProviderManager.Announce` | authentication/providermanager/cfg.go:93-197 | what both watchers will do about a change |
| `ProviderManager.ProviderManager.Reload` | authentication/providermanager/provider_manager.go:117-140 | one reload, whatever the interleaving: consistent always, settled on the new configuration when the change is safe, and never when some category is late |
| `ProviderManager.ProviderManager.ReloadAll` | authentication/providermanager/provider_manager.go:117-140 | any number of reloads, none waiting for those before: consistent always, and settled on the last configuration when no category is exposed |
| `Sessions.ExecMidway` | sessions/sessions/sessions.go:61-120 | each Redis command of a lock holder leads to what its next command expects |
| `Sessions.CommandKeeps` | sessions/sessions/sessions.go:176-280 | a command keeps the invariant of the whole store and of every other call in progress |
| `Sessions.FailsKeeps` | sessions/sessions/sessions.go:86-116 | so does a command that fails, with or without having taken effect, anywhere but between a session and its pointer |
| `Sessions.AcquireKeeps` | pkg/redis/model.go:97-120 | taking a free lock keeps the invariant: nobody held it and the user's records were in order |
| `Sessions.UnlockKeeps` | pkg/redis/model.go:121-125 | a release finds its own key and leaves the user's records in order |
| `Sessions.ActionKeepsInv` | sessions/sessions/sessions.go:61-280 | every step of every call, failures included, and time passing within lock lifetimes, keeps the invariant |
| `Sessions.RunInv` | sessions/sessions/sessions.go:61-280 | the invariant holds in every state of every run |
| `Sessions.OneSessionPerUser` | sessions/sessions/sessions.go:61-120 | a user never has two live sessions; with the lock free the live one is the one named by the user's pointer and they expire together; and without failures no pointer is left over |
| `Sessions.LocksExclusive` | pkg/redis/model.go:97-125 | a lock has one holder, its key is that holder's, so no release deletes another's key |
| `Sessions.RenewOnlyOverwrites` | sessions/sessions/sessions.go:193-235 | Renew writes only over a live, never revoked session of its own user and keeps its MaxTime |
| `Sessions.RevokeKeepsNewerPointer` | sessions/sessions/sessions.go:260-280 | Revoke never removes a user pointer that names another session |
| `Sessions.RevokedForGood` | sessions/sessions/sessions.go:182-256 | a session revoked by anyone is never live again in the run |
| `Sessions.OrphanIsSecondSession` | sessions/sessions/sessions.go:110-116 | without the hypothesis on failures the promise fails: after any failure between a session and its pointer, the user's next New gives a second live session |
| `Sessions.OutlivedLockIsShared` | pkg/redis/model.go:97-119 | without the time hypothesis exclusion fails: from any state where a holder, at any step, outlives its TTL, a second holder appears |
| `Sessions.SharedReleaseUnlocks` | pkg/redis/model.go:122-124 | with two holders, the release of one deletes the key of the other |
| `SessionTimes.MaxTimeFixed` | sessions/sessions/sessions.go:193-235 | no number of renewals changes MaxTime |
| `SessionTimes.DurationsBoundTimes` | sessions/sessions/sessions.go:71-76 | with both durations at most MaxTime, no renewal exceeds creation plus MaxTime |
| `SessionTimes.WithinMaxIffConfigured` | sessions/sessions/sessions.go:193-235 | that bound holds for all renewal histories if and only if both configured durations are at most MaxTime |
| `SessionTimes.RenewablePastMaxTime` | sessions/sessions/sessions.go:71-76 | a concrete configuration that breaks the bound |
| `SessionTimes.WithinMaxOnceRenewed` | sessions/sessions/sessions.go:193-235 | after any list of renewals the bound holds if and only if the durations are so configured or one of the renewals was accepted |
| `SessionTimes.RunTimes` | sessions/sessions/sessions.go:176-236 | in every interleaving and under any configuration a stored session is within its MaxTime or was never renewed; and always within it if so configured |
| `GuacInstruction.NumberDigits` | guac/instruction.go:24-36 | a decimal length reads back as the number it was printed from |
| `GuacInstruction.ScanStable` | guac/stream.go:61-126 | a verdict on the bytes seen so far does not change when more arrive |
| `GuacInstruction.ScanExact` | guac/stream.go:61-126 | the verdict depends on no byte past the instruction |
| `GuacInstruction.ScanPrinted` | guac/stream.go:61-126 | the scanner finds the end of a printed instruction wherever it sits, whatever its elements contain |
| `GuacInstruction.NextElement` | guac/instruction.go:48-80 | the parser's inner step returns what the element specification says |
| `GuacInstruction.Parse` | guac/instruction.go:42-90 | the parser loop returns what its specification says, error cases and index panics included |
| `GuacInstruction.ScannedNeverPanics` | guac/instruction.go:42-90 | data the scanner accepted never drives the parser out of range |
| `GuacInstruction.RoundTrip` | guac/instruction.go:24-90 | parsing a printed instruction gives it back, and the scanner cuts it exactly whatever follows |
| `GuacInstruction.PrintJoined` | guac/instruction.go:24-36 | the printed form is the elements joined by commas and closed by a semicolon |
| `GuacInstruction.InstructionObject.String` | guac/instruction.go:24-36 | the cached text is the printed instruction, on the first and every later call |
| `GuacStream.ScanWindow` | guac/stream.go:61-126 | the scanning loop, resumed at any element boundary, gives the verdict of scanning from the start |
| `GuacStream.ShortFits` | guac/stream.go:127-150 | an instruction of at most MaxGuacMessage bytes fits wherever it starts in the buffer |
| `GuacStream.DigitsStall` | guac/stream.go:127-150 | a concrete stream on which the read never returns |
| `GuacStream.Stream.constructor` | guac/stream.go:33-41 | a new stream has everything unread and an empty window on its own array |
| `GuacStream.Stream.Flush` | guac/stream.go:54-57 | moving the window to the front keeps its bytes, overlap or not |
| `GuacStream.Stream.ScanBuffered` | guac/stream.go:61-126 | a complete instruction is handed out and taken off the unread bytes, an incomplete one changes nothing |
| `GuacStream.Stream.MakeRoom` | guac/stream.go:127-131 | the slice offered to the connection is empty if and only if the window reaches the end of the array and starts within its first two thirds |
| `GuacStream.Stream.Receive` | guac/stream.go:131-150 | received bytes go from the connection to the window, none lost, and progress is made |
| `GuacStream.Stream.ReadSome` | guac/stream.go:61-152 | whatever the chunks and the length, the result is exactly the first instruction of the unread bytes, and the call never returns if and only if the instruction does not fit behind its start |
| `GuacStream.EncodedIsShort` | guac/instruction.go:24-40 | a printed instruction of permitted size is decided within MaxGuacMessage bytes whatever follows |
| `GuacStream.ReadOne` | guac/instruction.go:93-101 | the parsed first instruction, never a panic and never an incomplete one |
| `GuacStream.ReadPrinted` | guac/instruction.go:93-101 | a printed instruction at the head of the stream is read back and the rest stays |
| `GuacStream.ReadAll` | guac/instruction.go:93-101 | any list of printed instructions, cut into reads anyhow, is read back in order |
| `GuacTunnel.DeliveredBytes` | guac/ws_server.go:184-223 | messages written and bytes still buffered are together the forwarded instructions in order |
| `GuacTunnel.WholeNeverPanics` | guac/ws_server.go:54-57 | deciding the outcome never drives the parser out of range, because the stream hands out whole instructions |
| `GuacTunnel.HandedOutIsWhole` | guac/stream.go:61-126 | what a read hands out is one whole instruction and nothing behind it |
| `GuacTunnel.GuacdToWs` | guac/ws_server.go:184-223 | conservation, message boundaries on whole instructions, message size and the reports of every run of the loop |
| `GuacTunnel.AtMostOneReport` | guac/ws_server.go:194-199 | the outcome is reported at most once, on the first instruction that settles it |
| `HaproxyWorker.OnwardTwice` | haproxy-sync/haproxy-sync/haproxy-sync.go:94-95 | process ids do not come back, so the same worker at the end of a run was there throughout |
| `HaproxyWorker.HAProxy.Exec` | haproxy-sync/haproxy/haproxy.go:94-122 | a command reaches the worker of before or, after a reload, an empty one; it succeeds with its effect, or fails with or without it |
| `HaproxyServing.CertPathInjective` | haproxy-sync/haproxy-sync/domain.go:37-43 | two domains have the same certificate file if and only if they are the same |
| `HaproxyServing.HarmlessKeepsCovered` | haproxy-sync/haproxy-sync/domain.go:58-165 | which commands leave every routed domain served, but for one that was torn, for all eight kinds |
| `HaproxyServing.ServedUnlessTorn` | haproxy-sync/haproxy-sync/domain.go:215-233 | every routed domain has been served after every command so far if and only if no reload fell between listing a certificate and routing its domain |
| `HaproxyServing.StartedIsHarmless` | haproxy-sync/haproxy-sync/domain.go:227-233 | on a worker that has just started, routing a domain is the one command that leaves a routed domain unserved |
| `HaproxyServing.SafeExec` | haproxy-sync/haproxy/haproxy.go:94-122 | whichever worker a harmless command reaches and however it fails: of the domains that worker routes, at most one is not served, the one whose adding its start tore apart |
| `HaproxyServing.ReloadBeforeRouting` | haproxy-sync/haproxy-sync/domain.go:215-233 | the steps of adding a domain with a reload before the last one: the domain is routed and not served |
| `HaproxyBastion.SyncedIffPrefixed` | haproxy-sync/haproxy-sync/bastion.go:26-63 | adding what is missing and deleting what is extra makes the map equal the request if and only if every key in it was dot-prefixed |
| `HaproxyBastion.StrayKeyStays` | haproxy-sync/haproxy-sync/bastion.go:10-17 | a concrete map with an undotted key that a sync leaves in place |
| `HaproxyBastion.FailedInStep` | haproxy-sync/haproxy-sync/bastion.go:41-63 | a failed map command leaves map and memory in step if and only if it has not taken effect |
| `HaproxyBastion.AddMissing` | haproxy-sync/haproxy-sync/bastion.go:41-51 | the missing names are added once each, duplicates in the request included, until a command fails, and exactly when map and memory are then in step |
| `HaproxyBastion.DeleteExtra` | haproxy-sync/haproxy-sync/bastion.go:53-63 | the names nobody wants are deleted once each until a command fails, and exactly when map and memory are then in step |
| `HaproxyBastion.SyncMap` | haproxy-sync/haproxy-sync/bastion.go:26-63 | it fails exactly if a command or the listing fails; on a worker not lost on the way: the map, exact counters, for each way to fail exactly when map and memory are in step, and no change at all when the names already agree |
| `HaproxyDomains.DesiredMeaning` | haproxy-sync/haproxy-sync/domain.go:78-100 | desired are exactly the requested names other than the base domain |
| `HaproxyDomains.NamesSplit` | haproxy-sync/haproxy-sync/domain.go:78-100 | every requested name is either desired or refused |
| `HaproxyDomains.NothingFailed` | haproxy-sync/haproxy-sync/domain.go:158-164 | with nothing reported as failed the remembered domains are the requested ones |
| `HaproxyDomains.InStepIff` | haproxy-sync/haproxy-sync/domain.go:102-156 | after a sync that went through, what is routed is what is remembered if and only if no name reported as failed is routed all the same |
| `HaproxyDomains.StoppedIff` | haproxy-sync/haproxy-sync/domain.go:121-149 | after a sync that gave up at a domain, what is routed is what is remembered if and only if that domain still has its entry, the base domain is not remembered, and no failed name is routed |
| `HaproxyDomains.HoldingKept` | haproxy-sync/haproxy-sync/domain.go:58-165 | a sync of the domains a worker already holds keeps them even when it fails |
| `HaproxySync.HAproxySync.InstallCertificate` | haproxy-sync/haproxy-sync/domain.go:215-229 | on success the certificate is committed with the given content and listed, all in one worker |
| `HaproxySync.HAproxySync.AddDomain` | haproxy-sync/haproxy-sync/domain.go:193-237 | on success the domain is routed and remembered, and served unless a reload came in between |
| `HaproxySync.HAproxySync.RemoveDomain` | haproxy-sync/haproxy-sync/domain.go:139-149 | on success the domain is neither routed nor served; the map entry goes first |
| `HaproxySync.HAproxySync.DropBaseDomain` | haproxy-sync/haproxy-sync/domain.go:167-185 | best effort removal of the base domain takes no certificate from another routed domain |
| `HaproxySync.HAproxySync.SplitRequests` | haproxy-sync/haproxy-sync/domain.go:76-94 | every request is kept, in order, or refused, and refused exactly if it is for the base domain in any letter case |
| `HaproxySync.HAproxySync.AddMissingDomains` | haproxy-sync/haproxy-sync/domain.go:102-119 | every wanted name ends remembered or reported; added and issued counters |
| `HaproxySync.HAproxySync.RemoveExtraDomains` | haproxy-sync/haproxy-sync/domain.go:121-156 | what nobody wants goes, what is desired stays, on failure too; removal counters; where it gave up |
| `HaproxySync.HAproxySync.DomainSync` | haproxy-sync/haproxy-sync/domain.go:58-165 | with any failures and reloads: no desired domain unrouted and no other routed; what each outcome remembers, an unlisted map forgetting everything; the report; for each outcome exactly when worker and memory are in step; and that it goes through with only the base domain refused if nothing fails |
| `HaproxySync.HAproxySync.BastionSyncMaps` | haproxy-sync/haproxy-sync/bastion.go:26-109 | it fails exactly if a command or a listing fails; on a worker not lost on the way: both maps and mirrors equal the request, four exact counters, no change for a worker already there, and after a failure exactly when maps and memory are in step |
| `HaproxySync.SyncAgainIsSilent` | haproxy-sync/haproxy-sync/bastion.go:26-109 | repeating a sync adds and deletes nothing |
| `HaproxySync.HAproxySync.RestoreBastion` | haproxy-sync/haproxy-sync/haproxy-sync.go:184-194 | an empty group is never synced; otherwise the maps equal what is remembered |
| `HaproxySync.HAproxySync.RestoreDomains` | haproxy-sync/haproxy-sync/haproxy-sync.go:196-220 | an empty group is never synced; otherwise the routed domains equal what is remembered, or it fails |
| `HaproxySync.HAproxySync.RestoreInto` | haproxy-sync/haproxy-sync/haproxy-sync.go:170-232 | a failure leaves all remembered sets and the recorded pid as they were; success records the given pid, with every non-empty group held by the worker if it is still the same; impossible while the base domain is remembered, otherwise certain if nothing fails |
| `HaproxySync.HAproxySync.Restore` | haproxy-sync/haproxy-sync/haproxy-sync.go:158-168 | with reloads at any point: afterwards the recorded pid vouches for the worker, because the pid is read first and recorded last |
| `HaproxySync.HAproxySync.Check` | haproxy-sync/haproxy-sync/haproxy-sync.go:141-156 | the worker restored into last is left alone, any other is restored into, exactly a restore changes the recorded pid, and it keeps vouching |
| `HaproxySync.HAproxySync.HandleDomains` | haproxy-sync/haproxy-sync/domain.go:58-165 | for each outcome of a requested sync of the domains, exactly when the recorded pid still vouches for the worker, and what is remembered |
| `HaproxySync.HAproxySync.HandleBastion` | haproxy-sync/haproxy-sync/bastion.go:26-109 | for each way a requested sync of the bastion maps can end, exactly when the recorded pid still vouches for the worker |
| `HaproxySync.HAproxySync.Supervise` | haproxy-sync/haproxy-sync/haproxy-sync.go:141-232 | over any run of checks, restores and requested syncs, with any failures and reloads between any two commands: the certificate invariant; that the answers decide when the recorded pid is known to vouch for the worker, always if nothing fails; that nothing remembered is lost without a requested sync; and that checks alone never mend a worker still there |
| `HaproxySync.GivesUpUnnoticed` | haproxy-sync/haproxy-sync/domain.go:139-149 | a removal that deletes the map entry and then fails: the domain is remembered and not routed, on the worker the recorded pid stands for |
| `SshChannel.StepKeepsInv` | bastion/transport/ssh/ssh.go:404-507 | the shutdown invariant is kept by every step of every goroutine, of both peers, and by copies and requests that break |
| `SshChannel.RunKeepsInv` | bastion/transport/ssh/ssh.go:404-507 | the shutdown invariant holds after every run |
| `SshChannel.NothingLostOrLate` | bastion/transport/ssh/ssh.go:437-452 | in every run, broken or not, the transcripts are well ordered and are prefixes, stream by stream, of what was sent |
| `SshChannel.EverythingBeforeClose` | bastion/transport/ssh/ssh.go:454-507 | in every run: end-of-file follows all of each stream whose copy did not break, and unless the session was aborted close follows end-of-file and all requests, the exit status among them |
| `SshChannel.BrokenBySteps` | bastion/transport/ssh/ssh.go:432-452 | a copy counts as broken, and a session as aborted, exactly if a step of the run did it |
| `SshChannel.OneReplyEach` | bastion/transport/ssh/ssh.go:470-498 | forwarded requests that want a reply have had one each, sent or failed to be sent, but for the one being waited for |
| `SshChannel.NeverStuck` | bastion/transport/ssh/ssh.go:462-505 | once the target is done the proxy has a step to take until it closes, unless it waits for a reply, client input open or not |
| `SshChannel.SettlesClosed` | bastion/transport/ssh/ssh.go:462-507 | left alone the proxy stops within a bounded number of steps, and with the target done it stops closed or waiting for a reply |
| `OperationIds.FindMark` | component/apiv4/src/gen_openapi.py:184-184 | the first occurrence of the marker, or the end |
| `OperationIds.StemOfStem` | component/apiv4/src/gen_openapi.py:184-184 | a stem is its own stem |
| `OperationIds.Gather` | component/apiv4/src/gen_openapi.py:168-180 | the operations of the five verbs with a non-empty id, with their positions, in order |
| `OperationIds.CountClaims` | component/apiv4/src/gen_openapi.py:182-185 | the dictionary counts the claims on every stem |
| `OperationIds.CountIsClaims` | component/apiv4/src/gen_openapi.py:182-185 | counting over the gathered list is counting over the document |
| `OperationIds.RewrittenPrefix` | component/apiv4/src/gen_openapi.py:187-190 | rewriting the gathered operations changes each of them once and no other |
| `OperationIds.Rewrite` | component/apiv4/src/gen_openapi.py:187-190 | the in-place loop over the gathered list |
| `OperationIds.NormalizeOperationIds` | component/apiv4/src/gen_openapi.py:153-190 | the in-place program shortens exactly the ids whose stem is non-empty, different and claimed once |
| `OperationIds.ShortenedIsUnique` | component/apiv4/src/gen_openapi.py:163-167 | a shortened id equals no other collected operation's id, shortened or kept |
| `OperationIds.Idempotent` | component/apiv4/src/gen_openapi.py:153-190 | normalising twice is normalising once, for every document |
| `OperationIds.DistinctIffNoClash` | component/apiv4/src/gen_openapi.py:163-190 | distinct ids stay distinct if and only if no operation left out already has a short id |
| `OperationIds.CollectedStayDistinct` | component/apiv4/src/gen_openapi.py:163-190 | with only the five verbs, distinct ids always stay distinct |
| `OperationIds.HeadClashes` | component/apiv4/src/gen_openapi.py:172-174 | two distinct ids, one on a HEAD operation, that become equal |
| `Watch.ChangesTelescope` | pkg/db/watch.go:84-118 | for every sequence of loads, some failing, the changes telescope and end at the latest value |
| `Watch.Watcher.Follow` | pkg/db/watch.go:84-118 | the loop emits exactly one change per load that moves the value, and current is the last loaded value |
| `Watch.Watcher.Watch` | pkg/db/watch.go:66-122 | over a whole run the first change starts at the zero value and current is the end of the last change, except when the cancellation catches the last change unsent |

## Left out

- Provider configurations, loaders and their retry goroutines, SAML, LDAP, Google, OAuth2 and External logins: a provider is an opaque reference, and of its configuration channels only their existence matters.
- Branding domains and the persisted provider status: they do not influence which providers a scope holds.
- Provider names other than the four the watcher sends, and the sort order and text of listings.
- ProviderManager.ProviderManager.Handle: scopes and their Forms are values in fields of the manager, so sharing one Form object between scopes, which the source never does, is not expressible; the shared sub-provider references are.
- ProviderManager.ProviderManager.Interleave: the capacity of the channels, 1024 events each, and so a watcher blocked on a full one; the orders that lose an exposed category are shown without that bound.
- ProviderConvergence.HistorySettles: changes that wait for one another; ProviderExposure.OverlapSettlesIffSpared is about those that do not.
- Sessions.ActionKeepsInv: time does not pass the end of a held lock, and a failure does not fall between a session and its pointer, both needed; a failed release, which leaves the lock to its TTL, is not modelled.
- The lock's retry loop: waiting and giving up are steps of the model, the retry delay is not.
- Get and GetUserSession, remote address checks and their logging: they only read, or add per-call conditions.
- GuacStream.Stream.ReadSome: reads that return data together with an error, calls after a malformed instruction, and overflow of an element length.
- The Guacamole handshake, status tables, websocket to guacd direction and HTTP tunnel: request handling without state to preserve.
- HaproxyServing.CertPathInjective: the path is the directory, a slash and the name; cleaning of names that contain slashes is not modelled.
- HaproxyServing.SafeExec: the text of responses; a response is an outcome that may or may not match what happened.
- HaproxySync.HAproxySync.SplitRequests: letter case is folded for ASCII only.
- HaproxySync.HAproxySync.AddDomain: file contents and the ACME client are outcomes chosen by the environment.
- HaproxySync.HAproxySync.DomainSync: the validation of names before it, which uses an IDNA library.
- HaproxySync.HAproxySync.Supervise: process ids do not come back, and a worker starts with empty maps and no runtime certificates.
- Adding and deleting single bastion names: one command and one set update each.
- OperationIds.NormalizeOperationIds: the document is the sequence of its operation objects in iteration order; one object used twice is not modelled.
- Watch.Watcher.Follow: concurrent readers of the current value and the channel's capacity.
- JWT signing, password hashing, database models, gRPC and HTTP transports, orchestrator, frontends and scripts.
