# holepunch, verified

holepunch keeps port-forwarding sessions to remote services open: a daemon gives each configured service a loopback
address, answers its DNS name with it, listens there with a TCP proxy, and forwards through an SSM session that it
restarts when it ends. This project models the parts of it that hold state or interleave, in Dafny, and proves what
they are relied on for.

`dafny verify dfyconfig.toml` checks everything.

## How the model is built

An object whose methods update its fields under a mutex is a class with those fields and one method per critical
section. Each method is proved to compute a function of the old state. Where such sections interleave, a step function
on values, built from those same functions, says which step each thread can take next, and the theorems are about every
sequence of steps it allows (`Run`).

| file | part |
|---|---|
| `State`, `Lifecycle`, `LifecycleInvariant`, `LifecycleOutcome` | one service: its goroutine, one stop, any number of session drops |
| `Daemon`, `DaemonInvariant`, `DaemonAddress`, `DaemonAlias`, `DaemonDown`, `DaemonRelease`, `DaemonRuns`, `DaemonRestart` | all services with up and down commands, the allocator and the resolver's records |
| `Allocator`, `Setup` | the loopback allocator and the aliases that `setup` creates |
| `Hosts`, `HostsTheorems`, `HostsLines`, `IPv4` | the managed block of the hosts file |
| `Text`, `Unicode`, `RingBuffer`, `Classify` | UTF-8 texts, the tail of a session's stderr and the verdict on it |
| `Bus` | the event bus |
| `Proxy` | the TCP proxy's handlers and its shutdown |
| `Bastion`, `BastionHistory` | the lookup of an instance and its cache |
| `Names`, `Tray` | keys of services; the tray's merge of snapshots and events |
| `Netwatch` | the network watcher |
| `Config`, `Selectors`, `Resolver`, `ConfigNames` | validation, selectors, resolver records, and whether the names are apart for all of them |

## What was found

Where the code does less than one would like, the model keeps the code, and a lemma says exactly when the property
holds.

- `firstMatchingLine` takes offsets from the lower-cased stderr and slices the original with them
  (`internal/session/errors.go:84-99`). Lower-casing changes lengths: a byte that begins no rune becomes three, and the
  8 KiB capture may cut a rune (`Classify.CaptureCutsRune`). Then the detail is a shifted part of stderr that need not
  show the phrase (`Classify.InvalidByteHidesPhrase`), or the slice is out of range and the daemon ends
  (`Classify.InvalidByteEndsDaemon`). `Classify.VerdictMeaning` says exactly when; on texts whose runes keep their
  length, such as ASCII, all is well (`Classify.VerdictOnSteadyText`).
- `Stop` does not wait for a service's goroutine. One that had passed its context check allocates the address again after
  its release, and one that had not finished its registration registers the DNS name again after its removal. The exact
  conditions are `DaemonRelease.AddressStaysReleased` and `DaemonRelease.RecordStaysRemoved`; runs in which it happens
  are `DaemonRestart.AddressComesBack` and `DaemonRestart.RecordComesBack`. A restarted service is answered with a
  stale address exactly when an old goroutine was about to register one (`DaemonRestart.RestartIsSafe`,
  `DaemonRestart.StaleRestartExists`).
- `setup` and the engine join profile and service name with `/`, and neither is checked for slashes. Two names share a
  key exactly when one straddles the slash of the other (`Names.SameKey`). The tray then leaves a service that is gone in
  its old state (`Tray.SafeMerge`, `Tray.ShadowedServiceStays`), and a profile with a slash cannot be selected
  (`Selectors.KeySelectsService`, `ConfigNames.AcceptedSharedKey`).
- `validate` compares DNS names as texts, but the resolver's records are keyed by the fully qualified name. `x.dev` and
  `x.dev.` are accepted together and share a record (`ConfigNames.AcceptedTwins`, `ConfigNames.AcceptedNamesAreDistinct`,
  `DaemonRestart.NameMustBeOwn`).
- Rewriting a hosts file drops one final CR per line, so a line that ends in two changes again on the next rewrite
  (`HostsTheorems.ReplaceIsIdempotent`, `HostsTheorems.TwoCarriageReturns`). A line of 64 KiB or more ends the scan, and
  an edit cuts the file off there (`HostsLines.EditsKeepOtherLines`, `HostsLines.OverlongLineIsLost`).
- A comment at `internal/dns/manager.go:83-85` says that `Remove` writes nothing when there is nothing to remove. It still
  rewrites a file without a block whose last line ends in a newline, because that newline is trimmed
  (`HostsLines.RemoveWritesNothing`, `HostsLines.RemoveTrimsNewline`). The model follows the code.
- The resolver adapter's `Remove` leaves a record behind if a hostname ends in a backslash that escapes the final dot
  (`Resolver.RemoveEmpties`, `Resolver.EscapedNameStays`).

## Model

| member | source | states |
|---|---|---|
| LifecycleInvariant.NothingLeaks | internal/engine/engine.go:371-533 | in every interleaving, once `stopService` and the goroutine have returned, every session ever started was told to stop or has ended, and every proxy ever created was stopped exactly once |
| LifecycleInvariant.OneLiveSession | internal/engine/engine.go:431-526 | at every moment the only committed session that neither ended nor was told to stop is the stored one, no proxy is stopped twice, and a held proxy implies a held session |
| LifecycleInvariant.ReturnsOnlyIf | internal/engine/engine.go:292-369 | a goroutine whose context is live returns only after expired credentials, in state Failed, with that error recorded |
| LifecycleOutcome.ExpiredCredentialsEnd | internal/engine/engine.go:309-346 | after a session that ends with expired credentials, or a call that fails with them, no continuation begins another `connect`; with a live context the goroutine can always step until it has returned by credentials, in at most 18 steps, with the service Failed, the error recorded, every session settled and every proxy stopped once |
| LifecycleOutcome.OtherErrorsReconnect | internal/engine/engine.go:309-369 | after any other error and with a live context the goroutine does not return, can always step, and has at most 11 steps to the next `connect` |
| LifecycleOutcome.ReconnectsAfter | internal/engine/engine.go:320-369 | at that `connect` the error is recorded, nothing is left open, there was exactly one pause, and the cached target was invalidated exactly once if a session of a service with a target group ended by the loss of its target, and otherwise not at all |
| LifecycleOutcome.EndDecides | internal/engine/engine.go:309-369 | left to itself after an error, the goroutine comes to Failed if the credentials expired, and to its next `connect` if not |
| LifecycleOutcome.ConnectSucceeds | internal/engine/engine.go:371-454 | a `connect` that no call fails and no cancel meets makes exactly nine steps in any interleaving, in the order of the source, and leaves the service Connected with the session and the proxy it created, on the address it allocated |
| LifecycleOutcome.ConnectCanGoOn | internal/engine/engine.go:371-454 | each of these steps is possible when it is due |
| LifecycleOutcome.ConnectedServes | internal/engine/engine.go:431-448 | with a live context a stored session means: Connected, no error, and a stored proxy that was not stopped |
| LifecycleInvariant.PcFixesState | internal/engine/engine.go:292-494 | while the context is live, the program counter fixes the service's state |
| LifecycleInvariant.MovesAccepted | internal/engine/engine.go:459-494 | a move of the goroutine is refused only after a stop moved the service; the commit's move never is; Starting is never entered from Failed |
| LifecycleOutcome.MovesFollowTable | internal/engine/engine.go:585-594 | whatever thread steps, the state changes only as the table allows |
| LifecycleOutcome.CheckSeesCancel | internal/engine/engine.go:293-323 | once the context is done, a goroutine that looks at it returns and leaves the instance as it is |
| LifecycleOutcome.MoveOrReturn | internal/engine/engine.go:459-494 | in every run a goroutine whose move is allowed makes it, and one whose move is refused returns and leaves the instance as it is |
| LifecycleOutcome.SessionsBeginAndEnd | internal/engine/engine.go:391-403 | only `connect` begins a session, neither told to stop nor ended nor committed, and no thread of the engine ends one |
| LifecycleInvariant.StopCompletes | internal/engine/engine.go:496-533 | a stop that read any state but Disconnected gets both its moves accepted, whatever the goroutine does between |
| LifecycleOutcome.StopTellsStored | internal/engine/engine.go:496-533 | the session stored when `stopService` looks has been told to stop when it returns, in every interleaving |
| LifecycleOutcome.StopReturns | internal/engine/engine.go:496-533 | `stopService` makes at most seven steps |
| LifecycleOutcome.StopNeverStuck | internal/engine/engine.go:496-533 | until it returned it can step, or the goroutine can take a step of its commit, for which alone it waits |
| LifecycleInvariant.StateAfterStop | internal/engine/engine.go:496-533 | after any stop and the goroutine's return the service is Disconnected, or Starting if the goroutine noticed the cancel only after its check |
| LifecycleInvariant.CancelEndsGoroutine | internal/engine/engine.go:292-369 | after cancellation the goroutine makes at most Rank more steps and begins at most one more `connect`, in every interleaving |
| LifecycleInvariant.NeverStuck | internal/engine/engine.go:292-454 | a goroutine that has not returned can step, or waits for its session to end, which a finished stop has told to |
| LifecycleInvariant.DropsCommittedOnly | internal/engine/engine.go:198-228 | `DropSessions` only ever tells committed sessions to stop |
| LifecycleOutcome.DropStopsStored | internal/engine/engine.go:198-228 | if `DropSessions` looks at a service that is Connected and stores a session, then in every continuation it can stop that session until it does, and the session stays told from then on |
| LifecycleOutcome.DropPassesOver | internal/engine/engine.go:208-215 | if it looks in any other state, or no session is stored, it changes nothing and never tells a session to stop |
| LifecycleOutcome.ToldByWhom | internal/engine/engine.go:198-454 | with a live context nobody but a `DropSessions` tells a committed session to stop, and only a failed `connect` its own uncommitted one |
| LifecycleInvariant.StepKeepsInv | internal/engine/engine.go:292-533 | every step of every thread keeps the invariant on state, sessions, proxies and the stop's progress |
| Lifecycle.ServiceInstance.Transition | internal/engine/engine.go:585-594 | moves the state if the table allows it and says whether it did |
| Lifecycle.ServiceInstance.Commit | internal/engine/engine.go:431-448 | stores session and proxy together with the move to Connected, or changes nothing |
| Lifecycle.ServiceInstance.Detach | internal/engine/engine.go:325-331 | takes session and proxy out of the instance in one section |
| Lifecycle.ServiceInstance.TakeProxy | internal/engine/engine.go:513-526 | takes the proxy out, so that nobody else stops it |
| DaemonInvariant.OneLiveSessionPerKey | internal/engine/engine.go:78-171 | over every run of ups and downs, two committed unsettled sessions of one key are the same session of the running instance |
| DaemonInvariant.StoppedInstancesHoldNothing | internal/engine/engine.go:124-196 | an instance taken out of the map whose goroutine returned has only settled sessions and only proxies stopped once |
| DaemonAddress.HeldProxyAddress | internal/engine/engine.go:374-425 | in a run that inserts no instance while an old goroutine of its key is about to register another address, a proxy held by a running instance whose name is its own listens on the instance's address, the resolver answers its name with it, and the allocator gives that address to this key and no other |
| DaemonRestart.RestartIsSafe | internal/engine/engine.go:95-118 | from the insertion of an instance on, the resolver answers its name with its address in every continuation while it is running and registered, if and only if no goroutine of the key was about to register another address |
| DaemonRestart.StaleRestartExists | internal/engine/engine.go:374-376 | whenever two keys have the same hash octet, a run that restarts a key while such a goroutine is left |
| DaemonRestart.NameMustBeOwn | internal/resolver/resolver.go:78-83 | a key's service is answered in all runs without such insertions if and only if no other key has its FQDN |
| DaemonAlias.EveryProxyHasAlias | internal/engine/engine.go:95-110 | every proxy ever created, in any run with any restarts, listens on an address that `setup` made an alias for, in whatever order it loaded the keys |
| DaemonRelease.AddressStaysReleased | internal/engine/engine.go:157-171 | a released address stays released in every continuation without an up of the key if and only if no goroutine of the key is between its context check and its allocation |
| DaemonRelease.RecordStaysRemoved | internal/engine/engine.go:173-177 | a removed record stays removed in every continuation without an up of the key if and only if no goroutine of the key is between its context check and the end of its registration |
| DaemonDown.DownStopsAll | internal/engine/engine.go:124-177 | in every run, when a down command is over, each instance it collected is stopped and out of the map; its key has no address unless a goroutine of the key allocated after its stop; and its own name has no record unless such a goroutine registered it |
| DaemonDown.AskedForIsOwn | internal/engine/engine.go:157-165 | the allocation that a down command asks for before the release is the instance's own address, and nothing is allocated then |
| DaemonDown.CommandEnds | internal/engine/engine.go:78-177 | a command takes a bounded number of steps of its own, in every interleaving |
| DaemonDown.CommandNeverStuck | internal/engine/engine.go:78-177 | until it is over a command can step, or waits for a stop that can step or that waits for a goroutine to leave its commit |
| DaemonDown.UpStartsKey | internal/engine/engine.go:78-118 | with at most 253 configured keys, when an up command is over its key has a running instance that is not being stopped |
| DaemonRestart.AddressComesBack | internal/engine/engine.go:157-171 | in any configuration, a run in which a released address comes back |
| DaemonRestart.RecordComesBack | internal/engine/engine.go:173-177 | in any configuration, a run in which a removed record comes back though no goroutine is left that could allocate |
| IPAllocator.HistoryStaysInside | internal/ip/allocator.go:32-71 | the octets in use after any history of allocations and releases on some keys are among those in use once all those keys are loaded |
| IPAllocator.LoadOrderIrrelevant | internal/ip/allocator.go:32-60 | the set of octets that loading keys takes does not depend on the order |
| IPAllocator.DaemonStaysInsideSetup | internal/ip/allocator.go:32-60 | after any history on at most 253 configured keys, allocating one more of them succeeds, inside the loaded set |
| IPAllocator.AllocateMeaning | internal/ip/allocator.go:32-60 | succeeds exactly when the key owns an octet or fewer than 253 are assigned; a new key gets the first free octet cyclically from its hash; the wrapped-around error never happens; owners stay injective and octets in 2..254 |
| IPAllocator.HashMeaning | internal/ip/allocator.go:84-88 | the first octet tried for a key is the one octet of 2..254 whose distance from 2 is congruent to the hash modulo 253 |
| IPAllocator.PasserBalance | internal/ip/allocator.go:44-58 | per octet, the probes that pass it and the key on it are those that start there and those that passed the octet before |
| IPAllocator.Allocator.Allocate | internal/ip/allocator.go:32-60 | the probing loop computes the specified table and answer |
| IPAllocator.Allocator.Release | internal/ip/allocator.go:62-71 | removes the key's octet and nothing else |
| Setup.RunSetup | cmd/setup.go:54-80 | fails exactly when more than 253 different keys are configured, or else when no DNS name has a dot; otherwise its addresses are those that loading the keys in any order takes, and its domains those of the configured names |
| Setup.ExtractTLDs | internal/resolver/resolver.go:185-199 | each top-level domain of the names once, and nothing else |
| Setup.TLDMeaning | internal/resolver/resolver.go:188-197 | the top-level domain of a name is what stands after its last dot |
| ConfigNames.AcceptedNamesAreDistinct | internal/config/config.go:121-130 | for an accepted configuration with unambiguous keys, different keys have different FQDNs if and only if no DNS name is another's with a final dot |
| ConfigNames.SlashFreeProfilesSuffice | internal/engine/engine.go:85 | in an accepted configuration whose profile names have no slash, different services have different keys |
| ConfigNames.AcceptedTwins | internal/config/config.go:121-130 | an accepted configuration in which two services share a record |
| ConfigNames.AcceptedSharedKey | internal/config/config.go:97-119 | an accepted configuration in which two services share a key, and the one whose profile has a slash cannot be selected |
| HostsTheorems.ParseOfReplace | internal/dns/manager.go:107-219 | for any file content, parsing after a replacement gives back exactly the entries written |
| HostsTheorems.OutsideOfReplace | internal/dns/manager.go:170-219 | what a replacement does to the lines outside the block: one final CR less, and trailing blank lines gone when the block goes |
| HostsTheorems.OutsideKept | internal/dns/manager.go:170-219 | without CRs the other lines keep content and order up to trailing blank lines |
| HostsTheorems.ReplaceIsIdempotent | internal/dns/manager.go:170-219 | replacing twice equals replacing once if and only if no line outside the block ends in a CR after the scan |
| HostsTheorems.TwoCarriageReturns | internal/dns/manager.go:176-197 | the input on which replacing twice differs |
| HostsLines.ScannerStopsAtLongLine | internal/dns/manager.go:111-112 | the scanner yields the raw lines up to the first that is too long, each without one final CR |
| HostsLines.EditSeesAllLines | internal/dns/manager.go:175-176 | the scanner delivers every raw line, less a final CR, if and only if each is shorter than 64 KiB |
| HostsTheorems.EditsAreAnOrderedList | internal/dns/manager.go:55-105 | over every sequence of `Add`, `RemoveEntries` and `Remove`, the parsed block is what the same edits make of an ordered list |
| HostsLines.EditsKeepOtherLines | internal/dns/manager.go:55-105 | over every sequence of edits the raw lines outside the block stay as they stand in the file, up to trailing blank lines, if and only if none of them ends in a CR and those from the first overlong line on are blank |
| HostsLines.ShortLinesAreSafe | internal/dns/manager.go:170-219 | without overlong lines, that is: no line outside the block ends in a CR |
| HostsLines.OverlongLineIsLost | internal/dns/manager.go:175-176 | a file of one overlong line, of which an edit leaves nothing |
| HostsLines.RemoveWritesNothing | internal/dns/manager.go:81-88 | `Remove` finds nothing to write if and only if the file has no marker, no overlong line, no CR at the end of a line and no newline at its end |
| HostsLines.RemoveTrimsNewline | internal/dns/manager.go:81-88 | a file without a block that `Remove` writes all the same |
| HostsTheorems.EditLookup | internal/dns/manager.go:135-168 | what each edit does to the address of each hostname: existing entries win, removed ones go, others stay |
| HostsTheorems.AddsAreDistinct | internal/dns/manager.go:135-154 | after an `Add` no hostname is listed twice |
| HostsTheorems.NoMarkersNoBlock | internal/dns/manager.go:107-133 | a file without marker lines has an empty block, and all its lines are outside it |
| HostsTheorems.ParsedWellFormed | internal/dns/manager.go:107-133 | entries that were parsed can be written and parsed again, if their lines fit |
| Hosts.ParseManagedBlock | internal/dns/manager.go:107-133 | the line loop computes the block |
| Hosts.MergeEntries | internal/dns/manager.go:135-154 | the two loops insert each hostname once, in order |
| Hosts.SubtractEntries | internal/dns/manager.go:156-168 | keeps in order the entries whose hostname is not removed |
| Hosts.ReplaceManagedBlock | internal/dns/manager.go:170-219 | the line loop computes the new file |
| Hosts.Manager.Add | internal/dns/manager.go:55-69 | the file becomes the replacement with the merged entries, or stays when the write fails |
| Hosts.Manager.Remove | internal/dns/manager.go:72-88 | the write function is called exactly when the replacement differs from the file |
| IPv4.ParseIPv4IsCanonical | internal/dns/manager.go:126-128 | a parsed IPv4 address is the text it prints as, without white space, as the hosts theorems ask of the parser |
| IPv4.AllocatedEntryIsWellFormed | internal/dns/manager.go:26-28 | every entry for an allocated address and a word as hostname can be written and parsed back |
| RingBuffer.Buffer.Write | internal/session/ringbuffer.go:21-45 | the buffer holds the tail of what it held and the written bytes, for every capacity |
| RingBuffer.Buffer.Bytes | internal/session/ringbuffer.go:48-60 | reads the contents in write order |
| RingBuffer.KeptIsTail | internal/session/ringbuffer.go:21-60 | whatever the chunks, the contents are the last min(total, capacity) bytes of their concatenation |
| Classify.EndOfSession | internal/session/manager.go:137-156 | the verdict on a session is that on the last 8 KiB of its stderr |
| Classify.VerdictMeaning | internal/session/manager.go:144-156 | for any bytes and any table of letters: expired phrases take precedence over the lost target; the outcome is a panic exactly when the lower case of the text up to the matched line's end (its start, if it is the last) is longer than stderr; else the detail is the trimmed part of stderr where the lower case of the line stands |
| Classify.VerdictOnSteadyText | internal/session/manager.go:144-156 | on ASCII, or whenever every rune keeps its length, nothing panics and each verdict shows its phrase |
| Classify.SnippetShowsPhrase | internal/session/errors.go:84-99 | the slice is the matched line itself exactly when the lower case of what precedes it, and of the line unless it is the last, has the same length; trimming never hides or makes a phrase |
| Classify.InvalidByteEndsDaemon | internal/session/errors.go:91-96 | two lines of stderr on which the slice is out of range |
| Classify.InvalidByteHidesPhrase | internal/session/errors.go:91-96 | the same with one byte more: the detail shows no phrase |
| Classify.CaptureCutsRune | internal/session/ringbuffer.go:48-60 | a capture that begins in the middle of a rune, which grows in lower case |
| Classify.VerdictDependsOnTail | internal/session/manager.go:148-156 | two sessions with the same last 8 KiB of stderr get the same verdict, however it was chunked |
| Classify.SnippetIsShiftedLine | internal/session/errors.go:84-99 | the snippet is the slice where the lower case of the first matching line stands in the lower-cased text, trimmed, and a panic when that is out of range |
| Classify.MatchedLineHolds | internal/session/errors.go:71-99 | a phrase occurs in the lower-cased text if and only if some line holds one when lower-cased by itself |
| Text.TrimMeaning | internal/session/errors.go:94-96 | trimming takes white space off both ends, and all of it |
| Unicode.SpaceMeaning | internal/session/errors.go:94-96 | white space is what has Unicode's property White_Space, in its UTF-8 encoding |
| Unicode.RuneMeaning | internal/session/errors.go:84-93 | the text is lower-cased rune by rune: the first rune is the UTF-8 encoding (section 3 of RFC 3629) with which the text begins, or one byte if it begins with none |
| Unicode.TrimKeeps | internal/session/errors.go:94-96 | trimming Unicode white space neither hides a phrase of the lower-cased text nor makes one |
| Bus.NeverPanics | internal/daemon/bus.go:31-78 | no run sends on a closed channel or closes one twice, and no channel holds more than 128 events |
| Bus.InOrder | internal/daemon/bus.go:31-43 | what a subscriber took and what waits for it is, in order, part of the events dispatched while it was registered |
| Bus.LosslessIffKeepsUp | internal/daemon/bus.go:35-41 | a subscriber loses nothing if and only if at every moment at most 128 of its events were not taken |
| Bus.OthersDoNotMatter | internal/daemon/bus.go:17-78 | taking all other subscribers' steps out of a run leaves a run in which this subscriber's channel is the same |
| Bus.SubscribersAreIsolated | internal/daemon/bus.go:17-78 | two runs that agree on the events and on one subscriber's own steps give it the same events |
| Bus.DispatchNeverBlocks | internal/daemon/bus.go:32-43 | from any moment of a dispatch it can be brought to its end with one send per subscriber left, whatever they do |
| Bus.RoundIsOrderFree | internal/daemon/bus.go:33-42 | an undisturbed round offers the event once to each subscriber, in whatever order they are visited |
| Bus.EventBus.Subscribe | internal/daemon/bus.go:55-64 | the critical section is the protocol's step |
| Bus.EventBus.Cancel | internal/daemon/bus.go:66-76 | the critical section is the protocol's step, and does nothing the second time |
| Bus.EventBus.CloseAll | internal/daemon/bus.go:44-50 | the closing loop is the protocol's step |
| Bus.EventBus.Dispatch | internal/daemon/bus.go:32-43 | the sending loop is one round |
| Proxy.WaitsOnNothingOpen | internal/proxy/proxy.go:57-73 | when `Stop` waits, every handler that copies or comes to copy has both connections closed, and nothing is accepted |
| Proxy.HandlerServes | internal/proxy/proxy.go:103-134 | as long as `Stop` has not marked the proxy, in every interleaving, where a handler stands is decided by its own steps and its dial: it copies after a dial that succeeded, between two connections that are tracked and open, for as long as it makes no step |
| Proxy.ClosesAfterCopying | internal/proxy/proxy.go:103-134 | a handler that closes a connection it dialled has copied, unless `Stop` has marked the proxy |
| Proxy.EachGetsHandler | internal/proxy/proxy.go:83-101 | each accepted connection gets exactly one handler, and the loop accepts on until an accept fails |
| Proxy.StopLeavesNothing | internal/proxy/proxy.go:57-152 | once `Stop` returned, every connection ever accepted or dialled is closed, none is tracked, and nobody has a step left |
| Proxy.StopIsNeverStuck | internal/proxy/proxy.go:57-152 | until `Stop` returned, some step is possible that no peer has to make |
| Proxy.StopReturnsUnaided | internal/proxy/proxy.go:57-152 | from any moment after the listener closed, steps that need no peer lead `Stop` to its return |
| Proxy.StopReturnsSoon | internal/proxy/proxy.go:57-152 | and no interleaving goes on for more than Rank steps from there |
| Proxy.TcpProxy.TrackConn | internal/proxy/proxy.go:138-146 | registers the connection unless `Stop` has marked the proxy, and says which |
| Proxy.TcpProxy.Mark | internal/proxy/proxy.go:58-64 | takes all tracked connections and refuses later ones, in one step of the protocol |
| Bastion.TargetIsFresh | internal/bastion/asg.go:68-105 | in every run of any number of services, a running service's target is its pinned one, or was in service and online in an answer to a lookup begun after the service last lost a target and invalidated it |
| BastionHistory.TargetIsFreshByHistory | internal/bastion/asg.go:68-105 | the same in terms of the actions alone: the target comes from an answer to a service with the same account profile, region and group, which asked after every loss that this service followed by an invalidation |
| BastionHistory.ResolveByHistory | internal/bastion/asg.go:68-96 | in every run, a resolve gives a pinned profile its target whoever holds the mutex, leaves a profile with neither where it is, and otherwise gives the instance that the last lookup of the same account profile, region and group found, if none was invalidated since, or begins a lookup; it waits only for a holder who can be answered |
| BastionHistory.AnswerByHistory | internal/bastion/asg.go:81-95 | who looks up keeps the mutex until it is answered, then lets go of it and runs with what was found, or resolves anew |
| BastionHistory.EndsByHistory | internal/bastion/asg.go:68-105 | which actions are possible for a service is decided by where it stands and by the mutex; after a session ends it resolves anew, if it lost its target once its cache entry is gone or it was cancelled |
| BastionHistory.ConfiguredResolves | internal/bastion/asg.go:68-96 | a profile that validation accepts never gets the answer that it has neither |
| BastionHistory.CacheIsLatest | internal/bastion/asg.go:81-105 | for each key the cache holds what the last successful lookup found, unless it was invalidated since |
| Bastion.LookupMeaning | internal/bastion/asg.go:124-173 | a lookup finds an instance if and only if its answer shows one that is in service and online on a page reached without failure, and then finds such a one |
| Bastion.LookupFails | internal/bastion/asg.go:124-173 | which error a lookup ends with, in the order in which they are met; it searches the pages up to the first that fails or lists one |
| Bastion.LookupOnlineInstance | internal/bastion/asg.go:124-173 | the loops compute the lookup with its five errors |
| Bastion.ASGResolver.Resolve | internal/bastion/asg.go:68-96 | pinned, unconfigured, cached or looked up; the cache changes only on a successful lookup |
| Names.SameKey | internal/engine/engine.go:85 | two services have the same key if and only if they are equal or one straddles the slash of the other |
| Tray.EventsPrevail | internal/tray/tray.go:266-314 | in every interleaving, no merge overwrites the state or error of an event counted after that snapshot was asked for |
| Tray.SnapshotPrevails | internal/tray/tray.go:277-310 | if no event was counted since the snapshot was asked for, listed services come to match it, and others not shadowed by a listed one become Disconnected |
| Tray.SafeMerge | internal/tray/tray.go:277-310 | such a merge resets an absent service, its state, error and address, exactly when no listed service has the same key |
| Tray.CredentialsShown | internal/tray/tray.go:400-450 | in every interleaving, a profile shows expired credentials if and only if an event said so after which none of its services came to a state other than Failed |
| Tray.AccountShown | internal/tray/tray.go:433-441 | it shows the account profile of the last such event |
| Tray.NoAccountShown | internal/tray/tray.go:433-441 | without such an event it shows none |
| Tray.AddressShown | internal/tray/tray.go:277-310 | an address shown is that of the last snapshot that listed the service, and no event has disconnected it since |
| Tray.AddressStays | internal/tray/tray.go:277-310 | the address of a snapshot is shown until the next snapshot or such an event |
| Tray.ServicesHaveProfiles | internal/tray/tray.go:277-298 | every service that the tray knows is in a profile that it lists |
| Tray.AsksWhenAddressIsMissing | internal/tray/tray.go:405-431 | a state change asks for a snapshot exactly when it leaves the service Starting, or Connected without an address |
| Tray.ShadowedServiceStays | internal/tray/tray.go:299-309 | the input on which an absent service is not reset |
| Tray.SameBaseline | internal/tray/tray.go:269-278 | the counter is unchanged since a snapshot was asked for if and only if no counted event was applied since |
| Tray.TrayModel.ApplyEvent | internal/tray/tray.go:400-450 | the update by an event, and when it asks for a snapshot |
| Tray.TrayModel.MergeSeed | internal/tray/tray.go:277-310 | the merging loops compute the merge |
| Netwatch.TickNotices | internal/netwatch/watcher.go:68-97 | after any ticks, failed listings and receives, an event is pending after a tick if the gap exceeds twice the interval or the set of addresses differs from the last known one; otherwise the tick leaves what is pending alone |
| Netwatch.PendingIsFirst | internal/netwatch/watcher.go:68-97 | the pending event is that of the first tick with something to say since the last receive, and says how long the gap was if it exceeded twice the interval, and both lists if the sets differ |
| Netwatch.ListsDecideSets | internal/netwatch/watcher.go:100-111 | the sorted compacted lists are equal if and only if the sets of non-loopback IPv4 addresses are |
| Netwatch.ListMeaning | internal/netwatch/watcher.go:100-111 | the list is strictly sorted and holds exactly those addresses |
| Netwatch.Watcher.DoTick | internal/netwatch/watcher.go:68-97 | the state and the channel after a tick |
| Config.Validate | internal/config/config.go:90-142 | accepts exactly the configurations that keep the declarative rules, in whatever order the profiles come; every error is true of the configuration |
| Selectors.ResolveTargets | internal/engine/engine.go:263-290 | the loops compute the expansion, with the first error in order |
| Selectors.ExpandAllMeaning | internal/engine/engine.go:263-290 | succeeds if and only if every selector does, and yields exactly what they do |
| Selectors.KeySelectsService | internal/engine/engine.go:263-290 | a configured service's key selects it alone if and only if its profile's name has no slash |
| Selectors.ProfileSelectsItsServices | internal/engine/engine.go:263-290 | a profile's name selects its services in order if and only if it has no slash |
| Selectors.OnlyConfigured | internal/engine/engine.go:263-290 | only configured services are reached |
| Resolver.FqdnCollides | internal/resolver/resolver.go:78-91 | two hostnames share a record if and only if they are equal or one is the other with the final dot |
| Resolver.AddAnswers | internal/resolver/adapter.go:20-25 | after an `Add` a name answers with the last entry for it, and as before when there is none |
| Resolver.RemoveUndoesAdd | internal/resolver/adapter.go:20-39 | removing the entries just added restores the records if and only if none of the names had one |
| Resolver.RemoveEmpties | internal/resolver/adapter.go:27-32 | `Remove` empties the records of some hostnames if and only if none of them ends in a backslash that would escape the final dot |
| Resolver.EscapedNameStays | internal/resolver/adapter.go:27-32 | a hostname whose record is left behind |
| Resolver.DNSAdapter.Remove | internal/resolver/adapter.go:27-32 | the loop over a copy of the records unregisters each of its names |

## Left out

- StopCompletes: speaks of one `stopService` per instance; up and down commands run one at a time in the model, because the engine does not order concurrent ones on one key.
- TargetIsFresh: a service cancelled between its session's end and its `Invalidate` starts again without having invalidated, so nothing is claimed about that loss.
- StopIsNeverStuck: a dial counts as a step that ends by itself; the dialler's time-out is not modelled.
- TickNotices: clock readings other than Go's zero time are assumed; durations are unbounded integers, without saturation.
- EditsAreAnOrderedList: asks that entries are well formed, that is words as hostnames, canonical addresses and lines under the scanner's limit.
- ParseIPv4IsCanonical: the IPv4 half of `net.ParseIP`; the hosts theorems take any address parser as a parameter.
- RunSetup: the platform commands that create the aliases are not modelled.
- VerdictMeaning: the table of lower-case letters is a parameter, of which only what holds of Unicode's is used: it makes no newlines and leaves white space alone.
- RemoveEmpties: the DNS library's test for a final dot is modelled for names whose escapes follow an ASCII character; the library is not part of the repository.
- EndOfSession: process groups, signals and time-outs of a session are operating-system behaviour; a session is told to stop, and ends at some moment.
- `ClassifyCredentials` for errors before a session starts: the same phrase search on an error's text; the engine's model takes its verdict as given.
- The hash of the allocator: any function from keys to 32-bit values.
- Back-off delays and timers: a pause ends at some moment, or with the context.
- Events and log lines of the engine, and their order: they are emitted outside the mutex, and dropped when the channel is full.
- The fields `connectedAt` and `cancel`, and `Status`: readers of the instance add no constraint.
- The mutexes of the allocator, the hosts manager, the resolver and the tray: each of their methods is one critical section.
- A hosts write that fails half-way: a failed write leaves the file as it was.
- The candidate list in the SSM filter: what AWS answers is arbitrary, so the filter does not matter.
- `applyDefaults`: sets a local port, an interval and a back-off limit where they are missing; easy.
- State values outside the six named ones: the code has none.
- DNS wire format, upstream forwarding, HTTP reverse proxying, request signing, control-socket framing, menus, notifications, service files and PID files: input and output around the modelled parts.
