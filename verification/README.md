# A verified model of the telemt panel

The panel manages MTProto proxies. Each proxy is a row in a database, a labelled container and a
config directory, and no transaction spans the three. This project models the panel's logic in
Dafny 4.11 and proves what it does over whole runs: with runtime calls that fail, callers that
hang up, containers removed by hand, and the panel killed between any two steps.

`dafny verify dfyconfig.toml` checks everything.

## How it is built

**The lifecycle** is modelled twice, and the two are proved to be the same.

- `Machine` is the small-step form: an operation is a program counter and its locals, and one
  `Step` performs at most one effect on a `World` of rows, containers and directories. A `Choice`
  says, at each step, whether the caller's context is cancelled by now (for good), whether the
  call fails, and what a listing returns. A crash is stopping between two steps.
- `Service` (with `Store` and `Runtime`) is the imperative form: classes whose methods update
  fields in the source's order. Every operation's `ensures` says that what it did to the stores is
  a run of its step program, from the stores as they were to the stores as they are, and that its
  result is the program's. `Histories` and `CrashPoints` turn that into statements about calls.
- `Invariant` holds the crash-consistent invariant (`Base`: unique allowed ports, at most one
  container per row, on its port, never another proxy's id recorded) and, for every program
  counter, what the operation relies on. `Steps`, `ReconcileSteps` and `AllSteps` prove that every
  step keeps them. `System` runs operations as processes: any number of creates interleaved, the
  others one at a time, reconciliation before serving, crashes anywhere. The server serves whatever
  that reconciliation came to: `Serving` after one that listed both stores and landed every relink,
  `Degraded` after any other.
- `Calls`, `CreateCalls`, `MoveCalls` and `Passes` say what one call comes to, taken alone, for any choices
  at its steps: the error it returns, the row, and every store it leaves, without naming the step
  functions. `Calls.RecordIsCall` makes these statements about the service's methods.
- `Guarantees`, `Recovery`, `Progress`, `Convergence`, `Commits`, `Launches`, `Rollbacks`, `ConfigFiles`,
  `RepairLimits` and `Unlinked` are the results over whole runs. The standing hypothesis is `Lands`: a store write the source makes
  on an uncancellable context succeeds unless the database refuses it for a held port or a missing
  row. While `Degraded`, statements about containers also ask (`Orderly`) that a delete or a move
  starts on a row that records the container it has; `Unlinked` shows what happens when it does not,
  and that such rows occur.
- `AnyOrder` drops both hypotheses and the order: every operation interleaved with every other, at
  any moment, any write lost. What survives there survives always.

**The poller** is the class in `Polling`, proved against an order-free function of one sweep, and
`Fanout`, a state machine of subscribers, tokens, locks and cancels. **The login limiter** is the
class in `Limiter`, proved against functions that refine an unbounded limiter, and `LoginRace`,
concurrent logins. **The printers** - `Toml`/`Tables`/`Tconfig`/`ConfigRoundTrip` (config.toml),
`Sse`, `Link`, `MergePatch`, `Forms` - each come with a reader written from the format's own
standard, and a proof of what that reader gets back. `Delivery` joins the lifecycle to the
config printer: what a proxy reads is what its row says.

## What turned out otherwise

Where the code does less than its comments say, the model follows the code and the theorem gives
the exact condition. For most of them `Examples` has an input the panel can be given.

- A create whose spec the config guard refuses, or whose config write fails, leaves an empty
  directory behind: the directory is made before the spec is checked, and its compensation is
  registered after (`Rollbacks.InterleavedCreates`: a failed call leaves a directory if and only if
  it came to its config write, and the guard refuses its spec or the write failed;
  `Examples.QuotedCreate` is a quote in the domain).
- Reconciliation never rewrites a config file, so a crash between a move's port commit and its
  config write leaves the old file for good (`RepairLimits.StaleConfigSurvives`: the file agrees
  with the row if and only if the change did not show in it; a change of port does,
  `Examples.StaleFile`).
- A port held by another row, or a spec the guard refuses, is found by a move only after the old
  container is gone, although a rejected port is documented to leave a working proxy running
  (`Commits.MoveIsStored`: undisturbed up to the removal, a move ends up stored if and only if its
  request is in order, no other row holds the port and the guard accepts the new spec; a request out
  of order changes nothing, the other two cost the proxy its container.
  `Examples.MovedOntoNeighbour` is two running proxies, one asked onto the other's port).
- Reconciliation repairs the recorded container id, never the state field
  (`RepairLimits.ReconcileLeavesState`).
- The server starts even if the boot-time reconciliation failed. From there, without a single
  failure, a delete can leave a container behind, and a move a second container beside the old one
  and its old port, each exactly when the row did not record the container it had
  (`Unlinked.DeleteNeedsTheLink`, `Unlinked.RecreateNeedsTheLink`; `Unlinked.UnlinkedIsReachable`
  is a run from a fresh installation to such a row, for any settings and first row;
  `Examples.UnlinkedCustomer` is the run of one customer).
- Reconciliation drops the error of removing an abandoned directory, so an id it reports as cleaned
  up can keep one (`Convergence.ReportIsTrue`: exactly if it had one and the removal failed).
- The config guard looks at every printed string but the expiration, and lets control characters
  and quotas of 2^63 bytes and more through, and usernames that are no bare key
  (`ConfigRoundTrip.RenderRoundTrip`: the reader gets the spec back if and only if those are absent;
  `Examples.ControlledFile` is a row of the create form a strict reader does not get back,
  `Examples.UnendingFile` a row no reader gets back).
- A carriage return in a payload breaks a server-sent event (`Sse.StreamRoundTrip`, if and only if;
  `Examples.ReturnedRows`).
- The limits form loses a quota that is not whole gigabytes and an expiry that is not midnight UTC
  (`Forms.ResubmittingUnchanged`, if and only if;
  `Examples.TinyQuota` is a quota of one byte).

## Model

| member | source | states |
|---|---|---|
| AllSteps.EveryStepKeeps | internal/proxy/service.go:98-204 | every step of every operation, failed, cancelled or not, keeps the crash-consistent invariant and the operation's own facts, and changes nothing of other proxies |
| Steps.CreateUnwindsWorld | internal/proxy/service.go:126-139 | a rollback's compensations touch the failed proxy only and keep the invariant |
| System.RunKeepsInv | internal/proxy/lifecycle.go:43-404 | the whole-run invariant: kept by every sequence of starts, steps, finishes, hand removals and crashes, the server serving whatever the boot-time pass came to, when uncancellable writes land and, after an unfinished pass, no delete or move starts on a row that does not record its container |
| System.CreateFrame | internal/proxy/service.go:98-204 | one create's facts survive any step of another, its rollback included |
| Guarantees.FirstBootIsSound | cmd/panel/main.go:90-95 | an empty database beside other people's containers is a state the invariant covers |
| Guarantees.SafeOverEveryRun | internal/proxy/lifecycle.go:43-308 | in every state such a run reaches ports are unique, in range and unreserved; a managed container has no row, or is its row's only one and publishes the row's port, and, between operations of a panel whose boot-time pass finished, is the one recorded |
| Guarantees.DeleteLeavesNothing | internal/proxy/lifecycle.go:43-65 | a delete of a proxy whose row records its container, from its first step to its last, leaves no row, directory or container of that id if it returns no error |
| Guarantees.GoneForever | internal/proxy/lifecycle.go:43-65 | a proxy without row, directory and container stays so in every later state of every run |
| Guarantees.DeleteIsFinal | internal/proxy/lifecycle.go:55-64 | after a successful delete nothing of the proxy ever reappears, whatever is run, fails or crashes afterwards |
| Guarantees.RemoveOrphanSparesRows | internal/proxy/lifecycle.go:297-308 | removing an orphan touches no row and no container that belongs to, or is recorded by, a row |
| AnyOrder.SafeInAnyOrder | internal/proxy/lifecycle.go:43-404 | with every operation interleaved with every other, every write and relink liable to be lost and the panel killed anywhere: ports are unique, in range and unreserved, and a recorded container that exists carries its row's label |
| AnyOrder.CredentialsNeverChange | internal/proxy/lifecycle.go:159-210 | over the same runs, a row's id, secret and token are the same in any two states that have the row |
| AnyOrder.FormsLeaveFormBorn | internal/web/handlers_proxy.go:116-166 | over the same runs, where rows come from the create form and patches from the limits form, every row has a trimmed ad tag, whole gigabytes and a midnight expiry |
| AnyOrder.RunIsJumps | cmd/panel/main.go:90-95 | the runs in which operations wait for one another are among them |
| Recovery.CrashRecovery | internal/proxy/lifecycle.go:327-404 | after a crash anywhere and one undisturbed reconciliation, every row whose rebuild the runtime accepted has exactly one container, recorded and on its port, and none is "creating" without one |
| Progress.RecoveryIsReachable | internal/proxy/lifecycle.go:341-404 | however the panel was killed, an undisturbed pass can always reach its end, and when no rebuild is refused it leaves every row with its container |
| Recovery.PassRestores | internal/proxy/lifecycle.go:368-401 | at every step of an undisturbed pass the rows done with are restored, or in error because the runtime refused them |
| Convergence.ReconcileConverges | internal/proxy/lifecycle.go:341-404 | after a pass in which no rebuild was refused, a second pass, even a disturbed one, changes nothing and reports nothing restarted or cleaned up |
| Convergence.ReconcileKeepsContainers | internal/proxy/lifecycle.go:334-340 | every pass, however disturbed, keeps every existing container with its labels and port |
| Convergence.ReportIsTrue | internal/proxy/lifecycle.go:327-332 | after any pass whose uncancellable writes land, each restarted id has its recorded container, running, each cleaned-up id has no row, and a directory exactly if it had one and its removal failed, each orphan has no row, and the lists do not overlap |
| Convergence.PassDirs | internal/proxy/lifecycle.go:383-393 | a pass, however disturbed, takes away exactly the config directories whose removal succeeded |
| Passes.PassOutcome | internal/proxy/lifecycle.go:341-404 | any completed pass whose uncancellable writes land, whatever else fails: a failed listing has changed nothing; otherwise the orphans are exactly the labelled containers without a row, the restarted exactly the rows without a container whose new one was started, the cleaned up exactly the abandoned creates, and every row is left as the calls made for it say - relinked, rebuilt well, found ill with the text, or in error because it could not be built or started |
| Passes.PassFails | internal/proxy/lifecycle.go:341-352 | and a listing that fails is the error the pass returns |
| RepairLimits.ReconcileNeverMendsConfig | internal/proxy/lifecycle.go:398-400 | for a row past creation, the file agrees with the row after a pass if and only if it did before |
| RepairLimits.StaleConfigSurvives | internal/proxy/lifecycle.go:203-208 | after a crash between a move's port commit and its config write, and a pass, file and row agree if and only if the change did not show in the file |
| RepairLimits.ReconcileLeavesState | internal/proxy/lifecycle.go:370-382 | a row whose container survived keeps everything but its recorded container id, its state included |
| Unlinked.DeleteNeedsTheLink | internal/proxy/lifecycle.go:49-54 | from any crash-consistent world a delete without failures succeeds, and leaves no container if and only if the row recorded the one it had |
| Unlinked.RecreateNeedsTheLink | internal/proxy/lifecycle.go:191-210 | from any crash-consistent world a move without failures, its request in order, its port free and its spec accepted, is stored, and leaves a crash-consistent world if and only if the row recorded the container it had |
| Unlinked.UnlinkedIsReachable | cmd/panel/main.go:90-95 | for any settings, and any first row they accept, a run from a fresh installation to a serving panel with a row that does not record its container: killed between a create's container and its commit, then a boot-time pass that cannot list containers |
| Unlinked.MovingTheUnlinked | cmd/panel/main.go:90-95 | from that state any move that would work, without a failure, leaves the crash-consistent worlds |
| Commits.StartedCreateIsRecorded | internal/proxy/service.go:185-204 | once a create's container has started, in every later state of the call it is on its way to, or has reached, a stored row that is running or in error, as requested and recording that container, which runs as long as it exists |
| Commits.CreateEnds | internal/proxy/service.go:185-204 | each of its own steps brings the call nearer its end, at most two away, however cancelled or failed |
| Launches.LaunchedRuns | internal/proxy/service.go:180-204 | over every run of the system: a create, a move or a rebuild past the start of its container, or returned without an error, holds a container that carries its label and runs, unless it has been removed |
| Commits.RemovedRecreateIsRecorded | internal/proxy/lifecycle.go:197-264 | once a move has removed the old container, with its config directory writable, it ends with the requested port and domain stored, running or in error, if and only if no other row holds the port and the guard accepts the new spec; the row then records a container exactly when one was created, and otherwise the proxy is left without one, on its old port or, recreating, on the new |
| Commits.MoveIsStored | internal/proxy/lifecycle.go:159-210 | for a move of a proxy whose row records its container, undisturbed up to the removal: stored if and only if, before the call, the request is in order, no other row holds the port and the guard accepts the row as it is to be; a request out of order changes nothing |
| Commits.TakenPortStopsTheProxy | internal/proxy/lifecycle.go:162-164 | in any crash-consistent world of two rows or more, a move of one that records its container onto the port of another, without a failure: it has lost its container and is recreating on its old port |
| Commits.RecreateEnds | internal/proxy/lifecycle.go:197-264 | each of its own steps brings the call nearer its end, at most seven away, however cancelled or failed |
| Rollbacks.InterleavedCreates | internal/proxy/service.go:126-204 | any number of creates interleaved step by step, runtime calls and config writes failing at will: each finished call has its exact effect whatever the others' rollbacks did - a successful one its row and its running container, a failed one no row, no container, and a directory if and only if its config write came and the guard refuses its spec or that write failed - other proxies are untouched, no port is held twice |
| Rollbacks.FailedCreatesLeaveNothing | internal/proxy/service.go:126-183 | if every call failed, rows and containers are what they were, and directories if and only if no call's config write came and was refused or failed; none is when the guard accepts every spec and no write fails |
| ConfigFiles.ConfigFollowsRows | internal/proxy/lifecycle.go:82-128 | over crash-free runs, whenever nothing is under way, the config directories are exactly the rows' and each file is the rendering of the spec that shows, field by field, what its row and the settings say |
| Delivery.RowsReachTelemt | internal/proxy/service.go:279-297 | over crash-free runs, what a reader of a row's config.toml gets is, field by field, the row's own secret, port, domain, ad tag, token and limits and the settings' subnet and public host if and only if they are clean, and always when the operator has only used the create form and the limits form |
| Histories.GenuineIsRun | internal/proxy/service.go:98-204 | the record a service call leaves is a run of its step program, and so is each of its prefixes |
| CrashPoints.EveryStateIsSound | internal/proxy/service.go:98-204 | every intermediate state of every service call satisfies the crash-consistent invariant |
| CrashPoints.EveryCrashPointRecovers | internal/proxy/lifecycle.go:341-404 | kill the panel at any point of any service call, reconcile undisturbed: recovered |
| CrashPoints.CallsKeepLinks | internal/proxy/lifecycle.go:43-264 | a completed call leaves every row recording its container, if every row did before |
| CrashPoints.ReconcileLinks | internal/proxy/lifecycle.go:368-382 | a pass whose listings and relinks landed makes every row record its container, from any crash-consistent world |
| Calls.RecordIsCall | internal/proxy/service.go:98-204 | the record of a finished service call has the stores, error and row of the run of its choices, whatever choices are thought to follow, so that the statements about whole calls are about it |
| CreateCalls.CreateCall | internal/proxy/service.go:98-204 | a create succeeds if and only if nothing stands in the way of any of its ten steps, and returns the error of the first thing that does; with its container started it leaves it running, and the row stored is the one returned, running, or in error with the reason if the container was not found well |
| CreateCalls.CreateStores | internal/proxy/service.go:98-204 | the row a successful create stores, field by field of the request |
| Calls.DeleteCall | internal/proxy/lifecycle.go:43-65 | which error a delete returns, if any, and what it leaves, for whatever fails: the row goes last, and hanging up matters only until the container is gone |
| Calls.UpdateCall | internal/proxy/lifecycle.go:82-128 | limits are stored if and only if the row is found, its new config accepted and written and the store takes it; the stored row is the one returned, with the message empty if the running proxy answered and the failure text otherwise; nothing but that row and its file changes |
| Calls.UpdateStores | internal/proxy/lifecycle.go:82-128 | the row a successful update stores, field by field of the row and the patch |
| MoveCalls.MoveCall | internal/proxy/lifecycle.go:165-264 | a move ends at the first thing in its way with that error and the stores as the steps before have left them, nothing undone; past its config file it reports a runtime that fails it and stores with the row what became of the new container |
| Calls.OrphanCall | internal/proxy/lifecycle.go:297-308 | removing an orphan succeeds if and only if its calls are answered and the container carries the panel's label for no row; then that container alone is gone, and otherwise nothing has changed and the error says why |
| Service.ProxyService.Create | internal/proxy/service.go:98-204 | what a call does to the stores is a run of the create program, and it returns that program's row and error; `CreateCalls.CreateCall` says what they are |
| Service.ProxyService.CheckPort | internal/proxy/ports.go:37-52 | out of range, reserved, in use on the host, or no error, in that order |
| Service.ProxyService.Delete | internal/proxy/lifecycle.go:43-65 | a run of the delete program and its error; `Calls.DeleteCall` says what they come to |
| Service.ProxyService.UpdateLimits | internal/proxy/lifecycle.go:82-128 | a run of the limits program, and the row it returns; `Calls.UpdateCall` says what they come to |
| Service.ProxyService.Recreate | internal/proxy/lifecycle.go:165-210 | a run of the move program, and the row it returns; `MoveCalls.MoveCall` says what they come to |
| Service.ProxyService.StartContainer | internal/proxy/lifecycle.go:225-264 | a run of the shared start program, from its first step to its return to the caller |
| Service.ProxyService.Reconcile | internal/proxy/lifecycle.go:341-404 | a run of the reconcile program, with its three report lists; `Passes.PassOutcome` says what they are |
| Service.ProxyService.Unclaimed | internal/proxy/lifecycle.go:279-290 | exactly the listed containers whose label names no known proxy |
| Service.ProxyService.ByProxyId | internal/proxy/lifecycle.go:353-356 | a lookup from every label in use to one container carrying it |
| Service.ProxyService.RemoveOrphan | internal/proxy/lifecycle.go:297-308 | a run of the remove-orphan program and its error; `Calls.OrphanCall` says what they come to |
| Store.Reinterpretation | internal/store/proxies.go:168-173 | uint64 and int64 convert back and forth without loss, as the identity exactly below 2^63 |
| Store.ScanInvertsEncode | internal/store/proxies.go:131-187 | a row read back is the row stored, quotas of 2^63 and more included |
| Store.Table.CreateProxy | internal/store/proxies.go:45-64 | an atomic insert: refused for a held port or a used id, changing nothing |
| Store.Table.UpdateProxy | internal/store/proxies.go:93-116 | an atomic update: refused for a missing row or a port another row holds, changing nothing |
| Store.Table.DeleteProxy | internal/store/proxies.go:118-127 | an atomic delete: refused for a missing row |
| Store.Table.ListProxies | internal/store/proxies.go:75-91 | every row exactly once, ordered by port |
| Runtime.Docker.List | internal/docker/fake.go:98-115 | every container with the panel's label exactly once, in no particular order |
| Polling.Poller.PollOnce | internal/poller/poller.go:87-149 | one sweep: the three maps become an order-free function of what they were and what the proxies answer, whose meaning `Polling.CacheAgreement` and `Polling.HealthyRate` give; a failed List changes nothing |
| Polling.SweptAt | internal/poller/poller.go:95-133 | what a sweep leaves of a proxy is the backoff automaton's step from that proxy's own entries and answer, and nothing else |
| Polling.CacheAgreement | internal/poller/poller.go:119-145 | after a sweep the snapshots are exactly the listed proxies', failure and skip counts exist for none but those, a skipped proxy keeps its snapshot, and the snapshot of one that was asked has its first user's figures, an error if it reported none, or why it could not be reached |
| Polling.RunAgrees | internal/poller/poller.go:87-149 | the same over any number of sweeps |
| Polling.AskedOnceInSix | internal/poller/poller.go:95-106 | of any n consecutive sweeps listing a proxy at least n/6, rounded down, ask it, whatever the cache and the answers |
| Polling.FailingProxy | internal/poller/poller.go:17-22 | a proxy that never answers is asked in exactly min(n, 3) + max(0, n - 3) / 6 of its first n sweeps |
| Polling.HealthyRate | internal/poller/poller.go:119-130 | a proxy that answers from now on is asked in every sweep but the at most five it is still skipped for, and then has the latest answer's figures in its snapshot and no failures |
| Polling.RecoversWithinSix | internal/poller/poller.go:95-130 | whatever its past, a proxy that starts to answer has an OK snapshot within six sweeps and is asked in every sweep after |
| Fanout.EveryInterleaving | internal/poller/poller.go:210-242 | under every interleaving of sweeps, receives, reads and cancels: no send on a closed channel, no second close, at most one token, and every registered subscriber has a token, is about to read, or has read the last notified sweep |
| Fanout.NotifyNeverWaits | internal/poller/poller.go:233-242 | from anywhere in a notify the poll loop reaches idle by its own steps alone |
| Fanout.WokenOncePerSweep | internal/poller/poller.go:210-242 | under every interleaving a subscriber is woken at most once for each sweep there has been, and reads once for each time it is woken, besides its first read |
| Fanout.CancelEnds | internal/poller/poller.go:210-231 | a cancel, however far earlier calls of it have come, unsubscribes and closes its channel once the lock is free, and nothing later undoes that |
| Limiter.LoginLimiter.Limited | internal/web/auth.go:262-275 | limited if and only if the record is live and has five failures; an expired record is dropped, nothing else changes |
| Limiter.LoginLimiter.EvictExpired | internal/web/auth.go:341-355 | looks at eight entries, or at all of a smaller table, whichever the iteration meets, and removes exactly the expired ones among them |
| Limiter.LoginLimiter.RecordFailure | internal/web/auth.go:317-339 | the table after a failure, as a function of the table, the entries such a sweep took and the clock |
| Limiter.LoginLimiter.Login | internal/web/auth.go:198-225 | which of the four outcomes a login has, and what each leaves of the table |
| Limiter.BoundKept | internal/web/auth.go:332-338 | the table never outgrows its bound |
| Limiter.OthersUntouched | internal/web/auth.go:295-301 | a call for one address never changes or drops another's live record |
| Limiter.NeverRefusedAgain | internal/web/auth.go:323-330 | an address with a record, however old, is always given one again |
| Limiter.AnswersAgree | internal/web/auth.go:262-361 | after any run, under a clock that never goes back and any sweeps, every address never turned away is limited exactly when an unbounded limiter that never sweeps would limit it |
| Limiter.LimitCannotBeFlushed | internal/web/auth.go:291-301 | no other address, and no further failure, lifts a limit before its window ends; only a successful login does |
| Limiter.LimitLastsItsWindow | internal/web/auth.go:262-275 | a limited address that does nothing itself is limited until fifteen minutes after its first failure and no longer, whatever others do |
| Limiter.FiveFailuresLimit | internal/web/auth.go:262-339 | five failures within fifteen minutes limit an address, and four do not |
| Limiter.SweepClears | internal/web/auth.go:341-355 | a sweep leaves no expired entry in a table of up to eight, and takes eight from a larger one in which all have expired |
| LoginRace.ChecksAgree | internal/web/auth.go:262-275 | one address's part in a check, projected from the table, is the race model's step |
| LoginRace.FailuresAgree | internal/web/auth.go:317-339 | and so is its part in a recorded failure |
| LoginRace.CountIsBounded | internal/web/auth.go:198-225 | with at most k logins in flight from one address, under every interleaving, its count never exceeds 4 + k |
| LoginRace.BoundIsReached | internal/web/auth.go:198-225 | and for every k some interleaving of such logins, from no record at all, reaches it |
| MergePatch.MarshalJSON | internal/telemt/client/client.go:125-150 | the payload says of every member what the patch says of its field - nothing, null or a value - and of nothing else |
| MergePatch.PayloadDeterminesPatch | internal/telemt/client/client.go:125-150 | two patches are sent alike if and only if they mean the same |
| MergePatch.CommutingSquare | internal/proxy/lifecycle.go:88-157 | patching the row and viewing it is merging the marshalled patch into the old view by RFC 7396, for every row, patch and other members |
| MergePatch.CommutingRun | internal/proxy/lifecycle.go:88-157 | the same for any sequence of patches |
| Toml.DocumentReadsBack | internal/telemt/tconfig/config.toml.tmpl:1-68 | a document of printable lines is read back line for line, whatever follows it |
| Toml.UnfitFirstLine | internal/telemt/tconfig/render.go:74-84 | a quoted string with a quote, backslash or newline in it is never read back as itself, whatever it makes of the lines that follow |
| Toml.DocumentUnread | internal/telemt/tconfig/render.go:74-84 | a strict reader refuses a document with a control character or an oversized integer in it |
| Tables.SectionsGroup | internal/telemt/tconfig/config.toml.tmpl:4-68 | tables and keys written once each are gathered back as written |
| ConfigRoundTrip.RenderRoundTrip | internal/telemt/tconfig/render.go:36-86 | for every spec the guard accepts, reading the rendered file gives exactly the spec if and only if its username is a bare key and the spec is clean |
| ConfigRoundTrip.UserIsBare | internal/telemt/tconfig/config.toml.tmpl:40-68 | whatever the text, the user a reader gets is a bare key |
| ConfigRoundTrip.FieldsExtract | internal/telemt/tconfig/config.toml.tmpl:4-68 | every field is where the reader looks, absent limits differ from zero, the port is the same in three places |
| ConfigRoundTrip.CommonSettings | internal/telemt/tconfig/config.toml.tmpl:4-40 | whatever the row, a reader of its file finds the TLS mode on and no other, the control API on its port, and the masking of other handshakes |
| ConfigRoundTrip.GuardAccepts | internal/telemt/tconfig/render.go:52-86 | exactly the specs the guard lets through |
| Sse.SseFrame | internal/web/sse.go:73-86 | the frame: an event line, a data line per payload line, a blank line |
| Sse.GetEvents | internal/web/sse.go:14-71 | what the client is given is the frames and keepalives of the wakes up to the first that stops the handler |
| Sse.StreamsUntilStopped | internal/web/sse.go:34-71 | the client is given a rendering's rows or a keepalive for each wake up to the first that ends the handler - the request over, the channel closed, a write not taken - and a rendering that fails ends nothing |
| Sse.StreamRoundTrip | internal/web/sse.go:64-86 | the standard's reader gets exactly the events written if and only if every event has a one-line name and a payload without a carriage return |
| Sse.RowsRoundTrip | internal/web/sse.go:34-71 | what a handler streams is read back as the rows it rendered, in order, if and only if none holds a carriage return |
| Link.LinkRoundTrip | internal/telemt/link/link.go:26-60 | taking a built link apart gives the host, port, lower-case secret and domain it was built from |
| Link.LinksAreInjective | internal/telemt/link/link.go:26-60 | two links are equal if and only if host, port, domain and secret up to case are |
| Link.FormsAgree | internal/telemt/link/link.go:15-24 | both forms of a link exist together and say the same |
| Link.LinkExists | internal/telemt/link/link.go:15-60 | a link can be built if and only if the secret has 32 hexadecimal digits, the host and the domain are there and the port is in range, and the error names the first of these that is wrong; which of the two forms begins how, and the secret's digits in lower case |
| Link.DisplayedHostIsTheLinks | internal/web/handlers_proxy.go:57-76 | the host shown beside a built link is the host it was built with |
| Link.ShownLink | internal/web/handlers_proxy.go:87-95 | with a public host: a link for it and the row's own port, secret and domain, or none if one cannot be built; without: telemt's own or none, never one for the placeholder; and which host is shown beside none |
| Forms.PostLimits | internal/web/handlers_detail.go:95-133 | accepted if and only if every field fits, and then every limit becomes what its field says - blank clears it, a quota counts gigabytes modulo 2^64 bytes - and any row it is applied to is one the forms could have left; otherwise the error names the first field that does not fit |
| Forms.PostCreate | internal/web/handlers_proxy.go:116-166 | accepted if and only if the port is a number and every other field fits, only the empty one meaning no limit; the request is then what the form says, and otherwise the error names the first field that does not fit |
| Forms.CreatedIsFormBorn | internal/web/handlers_proxy.go:128-166 | the row such a request makes, whatever id, secret and token it is given, says field by field what the form says, and is one the forms could have left |
| Forms.DetailPage | internal/web/handlers_detail.go:64-84 | the form shown is accepted as it is, and saving it keeps all of the row but space around the ad tag, part of a gigabyte, and a time of day other than midnight UTC |
| Forms.SubmittedIsFormBorn | internal/web/handlers_detail.go:216-249 | whatever is submitted, overflowing quotas included, leaves whole gigabytes and midnight expiries |
| Forms.TrimSpaceTrims | internal/web/handlers_proxy.go:129-132 | trimming takes all the space off both ends and nothing else |
| Forms.MonthsFollow | internal/web/handlers_detail.go:239-249 | a date the form accepts is a day of the Gregorian calendar: each month ends on the day before the next begins |
| Forms.ClockTimes | internal/web/handlers_detail.go:72-76 | the times of day a date-time can have are those of a clock of 24 hours |
| Decimal.AtoiReads | internal/web/handlers_detail.go:228-237 | the numbers a form field can hold: signed, of 64 bits, leading zeros and a plus sign included |
| Forms.ResubmittingUnchanged | internal/web/handlers_detail.go:64-84 | the pre-filled form is always accepted, and submitting it unchanged after a trip through the table changes nothing if and only if the row is one the forms could have left |
| Forms.EditedThenResubmitted | internal/web/handlers_detail.go:86-133 | a row last edited through the form is a fixed point of viewing and saving |
| Examples.Accepted | internal/telemt/tconfig/render.go:52-86 | a row with the secret of 32 hexadecimal digits and the token of these examples, no ad tag, a port in range and a domain without a quote, backslash or newline is accepted, and its file is the rendering |
| Examples.UnlinkedCustomer | cmd/panel/main.go:90-95 | a customer the guard accepts, the run to a serving panel that does not record its container, and a change of port that leaves two containers on the proxy |
| Examples.MovedOntoNeighbour | internal/proxy/lifecycle.go:162-164 | two running proxies, the first asked onto the second's port: the call reports the held port and the first has no container |
| Examples.RefusedCreate | internal/proxy/service.go:126-151 | an undisturbed create of any row the guard refuses, in any world that can take the row: the world is what it was and an empty directory |
| Examples.QuotedCreate | internal/proxy/service.go:126-151 | one such row, a domain with a quote, on a fresh installation |
| Examples.StaleFile | internal/proxy/lifecycle.go:203-208 | a running proxy whose file is right, moved to another port and killed once the port is stored: after any pass the file is wrong |
| Examples.ControlledFile | internal/telemt/tconfig/render.go:74-84 | a domain with a control character, which the create form can leave: written, and not read back by a strict reader |
| Examples.UnendingFile | internal/telemt/tconfig/render.go:74-84 | an expiration that is a quote: written, and read back by none |
| Examples.ReturnedRows | internal/web/sse.go:73-86 | one rendered row with a carriage return is not what its reader gets |
| Examples.TinyQuota | internal/web/handlers_detail.go:64-84 | a quota of one byte, shown and saved unchanged, is a quota of none |

## Left out

- Interleavings of operations other than create against create, beyond what `AnyOrder` proves of them: the service takes no lock, so two updates of one row can overwrite each other; the statements about containers, directories and files take each other operation alone.
- System.RunKeepsInv: while the panel serves after an unfinished reconciliation, only for runs in which no delete or move starts on a row that does not record its container, because from there they do leave the invariant (`Unlinked.RecreateNeedsTheLink`).
- The real Docker client: the runtime follows the in-memory fake - fresh container ids, no name uniqueness, a listing that is complete when it succeeds. Networks and image pulls have no effect in the model.
- waitHealthy's polling and clock: only its verdict - healthy, or not with some message - is kept, and "healthy" needs the container to exist.
- Error texts: errors are their kinds; the port-conflict message matching is not part of the model.
- Randomness and identifiers: ids are numbers handed out fresh, secrets and tokens are parameters; their generation is not modelled.
- Timestamps of rows and snapshots, and SQL, HTTP, cookies, templates and QR images.
- The atomic file write: one step that leaves the old file or the new one; its temporary file is not modelled.
- Passwords: whether a user exists and a password matches are parameters; argon2, hashing and session tokens are not modelled.
- JSON text: payloads are JSON values, and their serialisation is the library's.
- TOML beyond the subset: unicode escapes, dotted and quoted keys, multi-line strings and other types make the reader refuse.
- Fanout.EveryInterleaving: a read whose rendering fails counts as a read, as the handler does not retry it before the next token.
- Forms.ResubmittingUnchanged: date-times are RFC 3339 as its section 5.6 has them; what else Go's parser lets pass cannot change the equivalence, since it only affects rows that are lost anyway.
- Limiter.AnswersAgree: nothing is said of an address that was once turned away, as the source documents.
- The states "stopped" and "deleting" are declared but never assigned.
- Logs, the Docker health check and configuration loading: wiring without a property of its own.
