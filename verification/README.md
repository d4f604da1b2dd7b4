# Coppice: models and proofs

Coppice is a self-hosted library server. This project models the parts of it that keep state across
failures, restarts and concurrent tasks, and proves what holds of them over every run.

| files | what they model |
|---|---|
| `Runtime`, `RuntimeRegistry`, `RuntimeTheorems`, `RuntimeRestarts`, `RuntimeCommands` | the registry of optional server components: dependency-ordered loading, switching on and off, restarts |
| `Delivery`, `DeliveryProtocol`, `DeliveryProofs`, `DeliveryTheorems`, `DeliveryLife`, `DeliveryBudget`, `DeliveryStart` | the queue that sends books to CrossPoint devices: workers, device permits, cancel, retry, abort, crash, recovery |
| `RemotePath`, `DeliveryKey`, `Separated` | device paths of a delivery, and the bytes behind its idempotency key |
| `Grabs`, `GrabProofs`, `GrabTheorems`, `GrabVisits`, `GrabRuns`, `GrabEdges` | MAM grabs: rows that shadow grabs of an external bridge, the refresh jobs, and the claims that keep two jobs off one row |
| `AnnotationExport`, `AnnotationHistory` | export jobs that send changed works to several sinks and keep one cursor per sink |
| `Debouncer` | the per-user deadlines that start an export |
| `Chapters` | audiobook chapters in the time of the book and in the time of each file |
| `AbsIds` | stable ids for Audiobookshelf clients, one at a time and in bulk |
| `Common` | shared small types |

The concurrent parts are state machines. A label is one awaited step (one database statement, one bridge
call, one upload) or an event from outside (a crash, a tick of the clock, a user's command); `Step` is
total, and a label that is not enabled changes nothing, so a run is any sequence of labels and `Exec`
covers every interleaving. Outcomes of I/O are part of the label. The state an object holds
(`ComponentRuntime`, the queue table, the claim set, the debouncer, the id table) is also a class whose
methods have the loops of the original and are proved against the functions the theorems speak about.

Assumptions that are visible in the model:

- A conditional update (claim, retry, cancel) is one atomic step; an insert that does nothing on a conflict
  counts as a success.
- At most one `create_grab` per torrent is under way at a time, and one that is under way is less than two
  minutes old (the POST is bounded to 30 seconds). `BeginExactly`, `InsertExactly` and `RacingCreates` say what happens
  otherwise. There is one dispatcher.
- The bridge gives every grab a fresh id and never changes its torrent. Everything else it answers is
  arbitrary, including phases the server does not know and listings that leave grabs out.
- An annotation write gives its work the next sequence number of the user.

## What the code does not keep

Some properties one would expect are false of the code. Each has an input that shows it and a lemma that says
exactly when the property holds.

- `register` replaces the definition of a loaded component but not its state: `RedefinitionBreaks`,
  `Redefined`. It also publishes before it loads, so a command can fall between: `RegistrationWindow`,
  `WindowExactly`. A failed load is marked as done by the next one: `MarkedWithoutRows`.
- A restart can switch an effective component off: `RestartKeepsExactly`. Disabling a chain of RESTART
  components therefore takes one restart per link: `ChainOutlasts`, `ExactRestarts`.
- A manual retry does not reset the attempt counter and a claim does not look at the budget:
  `BoundAttained`, `QueuedUsedUp`, `ExceededExactly`.
- A delivery need not end while the process lives: a worker lost after its claim leaves its row in flight
  until a restart. `OrphanReached`, `TendedExactly`, `OrphanUntilRestart`; what a restart then guarantees is
  `RecoveredTerminal`.
- Fields with a zero byte make the key preimage ambiguous: `Reslice`, `AmbiguousExactly`. Two destinations can
  name one device path: `CollidingPair`, `ComposeCollides`.
- Two confirmations of one release at the same moment make two active rows: `RacingCreates`, `BeginExactly`,
  `InsertExactly`.
- The claim set is not always the ids of the live jobs: `LeakReached`, `LeakedExactly`; the rows concerned are
  not refreshed until the process restarts: `LeakedUntilRestart`.
- A row whose bridge id was saved but whose phase was not is given up at the next visit:
  `RecoveredGrabLost`, `AdoptionOutcome`.
- Overlapping export jobs can leave an old version of a work at a sink behind a newer cursor:
  `OverlapKeepsOldVersion`, `HeldExactly`; jobs that do not overlap cannot: `HoldsCurrent`.

## Model

| member | source | states |
|---|---|---|
| `Runtime.LeastFixed` | core/src/component_runtime.rs:671-795 | the reference meaning of a load, the intersection of all closed sets, is a fixed point of "on already, or pending, desired, compiled and with dependencies on", and lies below every other |
| `Runtime.LeastMember` | core/src/component_runtime.rs:685-694 | a newly loaded key is on if and only if it is desired, compiled and its dependencies are on in the same set |
| `Runtime.StuckStayOff` | core/src/component_runtime.rs:744-791 | keys that each wait for another of them are off in the least fixed point, which is what the fallback of the worklist writes |
| `Runtime.SameAnswer` | core/src/component_runtime.rs:1166-1179 | the answer for a key depends only on which of its own dependencies are on |
| `RuntimeRegistry.ComponentRuntime.constructor` | core/src/component_runtime.rs:568-600 | every definition starts wanted as its default says and effective if also compiled, with nothing loaded |
| `RuntimeRegistry.ComponentRuntime.Visit` | core/src/component_runtime.rs:675-739 | a key whose dependencies are known is loaded with its least-fixed-point answer although the states it is computed from are incomplete; any other is left alone |
| `RuntimeRegistry.ComponentRuntime.Pass` | core/src/component_runtime.rs:674-740 | a pass that loads something leaves a shorter worklist; a pass that loads nothing leaves only keys that wait for each other |
| `RuntimeRegistry.ComponentRuntime.GiveUp` | core/src/component_runtime.rs:744-791 | switching off everything that is left gives the least-fixed-point answers too |
| `RuntimeRegistry.ComponentRuntime.LoadAll` | core/src/component_runtime.rs:671-795 | the worklist terminates with every pending key loaded and every answer equal to the least fixed point, whatever the order of visits |
| `RuntimeRegistry.ComponentRuntime.SaveRows` | core/src/component_runtime.rs:796-806 | rows are written one by one up to the first failure, each with the desired flag that was loaded |
| `RuntimeRegistry.ComponentRuntime.Initialize` | core/src/component_runtime.rs:640-809 | for any definitions, circles and missing dependencies included, the registry ends in the state the least fixed point describes; the load reports success exactly when every row it had to write was saved |
| `RuntimeRegistry.ComponentRuntime.Register` | core/src/component_runtime.rs:605-634 | publishing and then loading, in that order, with old states kept |
| `RuntimeRegistry.ComponentRuntime.SetEnabled` | core/src/component_runtime.rs:879-1010 | initializes first if needed; on success this component has the new wish, its row says so, and a HOT one has followed; a refusal to disable names an effective component that depends on it |
| `RuntimeRegistry.ComponentRuntime.Toggle` | core/src/component_runtime.rs:897-980 | accepted exactly when known and, to enable, compiled with effective dependencies, or, to disable, not required; then the component has the new wish, a HOT one follows at once, a RESTART one keeps its flag and every other component its state; each refusal comes with its reason and changes nothing |
| `RuntimeTheorems.FirstLoad` | core/src/component_runtime.rs:640-809 | after a first load every key is loaded and wants what its row says, and without a row its default; it is effective if and only if it is wanted, compiled and all its dependencies are defined, compiled and effective, and the effective keys are the least such set |
| `RuntimeTheorems.LoadAnswers` | core/src/component_runtime.rs:640-809 | the same for any later load: new keys are answered so, loaded keys keep their state, and nothing is effective that a set closed under the rule leaves out |
| `RuntimeTheorems.LoadRows` | core/src/component_runtime.rs:796-806 | a load leaves every existing row alone and writes a missing row only for a new key, with its default |
| `RuntimeCommands.CommandExactly` | core/src/component_runtime.rs:879-980 | a command goes through if and only if the component is known and, to be enabled, compiled with every dependency defined, compiled and effective, or, to be disabled, needed by nobody effective; what it then changes is stated component by component, and a refused one changes nothing |
| `RuntimeCommands.CommandsObeyed` | core/src/component_runtime.rs:945-952 | over every run of one process a loaded component wants what the last command that went through asked for, a HOT one is effective exactly then, a RESTART one never moves, and without a command nothing changes |
| `RuntimeCommands.PublishedAt` | core/src/component_runtime.rs:609-632 | publishing gives new keys their defaults and leaves every existing state alone |
| `RuntimeCommands.RowFollows` | core/src/component_runtime.rs:973-980 | over every run, restarts included, a row holds what the last saved command asked for, and without one what it held before |
| `RuntimeCommands.RestartFollows` | core/src/component_runtime.rs:685-688 | after any run, a restarted server wants of a component what the last saved command asked for, else what its old row says whatever its default, and of one without a row its default |
| `RuntimeTheorems.DependenciesHold` | core/src/component_runtime.rs:605-1010 | in every run of initialize, registrations that are safe when they come (of new keys, loaded keys or both), commands (with failing saves) and restarts, every effective component is compiled with all dependencies defined, compiled and effective |
| `RuntimeTheorems.SupportedRun` | core/src/component_runtime.rs:605-1010 | the dependency property is kept from any supported state, through every step of such a run |
| `RuntimeTheorems.FreshRunSafe` | core/src/component_runtime.rs:605-634 | registrations that name no loaded key are always safe |
| `RuntimeTheorems.NeverCircular` | core/src/component_runtime.rs:744-791 | in every run whose registrations name no loaded key, no effective component is on or behind a dependency circle |
| `RuntimeTheorems.RunKeeps` | core/src/component_runtime.rs:605-1010 | "the effective set is grounded" survives every run whose registrations name no loaded key |
| `RuntimeTheorems.ToggledKeeps` | core/src/component_runtime.rs:914-952 | accepted commands keep the effective set grounded, HOT or RESTART, saved or not |
| `RuntimeTheorems.InitializedKeeps` | core/src/component_runtime.rs:640-809 | a later load keeps what is on and adds the least fixed point over it |
| `RuntimeTheorems.NoCircle` | core/src/component_runtime.rs:744-791 | a grounded set contains no component that depends on itself through others |
| `RuntimeTheorems.PublishedKeeps` | core/src/component_runtime.rs:609-633 | publishing keys that are not loaded keeps the invariant for what is loaded, with only the initialized flag ahead of the facts |
| `RuntimeTheorems.Redefined` | core/src/component_runtime.rs:605-634 | for any list of definitions, a registration leaves every effective component supported if and only if each one effective before it is compiled and ready under the new definitions, against the keys the load will leave effective |
| `RuntimeTheorems.LoadExactly` | core/src/component_runtime.rs:640-809 | a load leaves everything supported if and only if it leaves supported what was effective before it; the keys it adds always are |
| `RuntimeTheorems.RedefinitionBreaks` | core/src/component_runtime.rs:618-633 | a concrete redefinition after which an effective component is not compiled |
| `RuntimeTheorems.RegistrationWindow` | core/src/component_runtime.rs:605-634 | a concrete command between publish and load after which an effective component has a dependency that is off |
| `RuntimeTheorems.WindowExactly` | core/src/component_runtime.rs:605-634 | an accepted command between publish and load is harmless unless it switches a loaded HOT component on, and then harmless if and only if the load leaves every published dependency of that component effective |
| `RuntimeTheorems.MarkedWithoutRows` | core/src/component_runtime.rs:796-809 | after a load that could not write every row, the next load changes nothing but the initialized flag, so the rows that failed stay unwritten |
| `RuntimeRestarts.RebootOn` | core/src/component_runtime.rs:640-809 | a restart makes exactly the least fixed point of the saved rows effective |
| `RuntimeRestarts.CommandSettled` | core/src/component_runtime.rs:945-952 | no command changes the effective flag of a RESTART component |
| `RuntimeRestarts.OneLayer` | core/src/component_runtime.rs:929-952 | what an effective RESTART component depends on is effective again after the next restart, whichever commands came between |
| `RuntimeRestarts.ChainOutlasts` | core/src/component_runtime.rs:929-952 | over any commands and restarts a chain of effective RESTART components loses at most its last element per restart, so its first goes off after n restarts at the earliest |
| `RuntimeRestarts.ExactRestarts` | core/src/component_runtime.rs:929-952 | the bound is attained: for every n a chain of n exists that no fewer than n restarts, and some n restarts, switch off |
| `RuntimeRestarts.RestartKeepsExactly` | core/src/component_runtime.rs:685-694 | a restart keeps every effective component if and only if every one of them is still wanted |
| `DeliveryRows.Store.constructor` | core/src/crosspoint_delivery/service.rs:289-302 | an empty table is valid |
| `DeliveryRows.Store.Enqueue` | core/src/crosspoint_delivery/service.rs:422-470 | returns the one row that carries the key; if it was there nothing changes, otherwise it is new, queued and unattempted |
| `DeliveryRows.Store.Claim` | core/src/crosspoint_delivery/service.rs:523-555 | succeeds exactly for a queued row that is due, which it moves to Preparing with one more attempt; nothing else changes |
| `DeliveryRows.Store.Retry` | core/src/crosspoint_delivery/service.rs:652-687 | exactly a failed row becomes queued and due at once, keeping its attempts |
| `DeliveryRows.Store.Cancel` | core/src/crosspoint_delivery/service.rs:691-718 | exactly a queued row becomes cancelled |
| `DeliveryRows.Store.RecoverInflight` | core/src/crosspoint_delivery/service.rs:310-355 | afterwards no row is in flight; each that was is queued again or failed by its own budget, the others are untouched, and the count is right |
| `DeliveryProofs.StepKeeps` | core/src/crosspoint_delivery/service.rs:310-963 | every statement of every worker, every command, abort, crash and recovery step keeps the protocol's invariant |
| `DeliveryProofs.LogKeeps` | core/src/crosspoint_delivery/service.rs:562-574 | the insert of an attempt never hits the unique index on row and attempt number |
| `DeliveryProofs.MarkedKeeps` | core/src/crosspoint_delivery/service.rs:872-891 | the unconditional write of Transferring only ever hits the worker's own row in flight |
| `DeliveryTheorems.RunKeeps` | core/src/crosspoint_delivery/service.rs:310-963 | the invariant holds after every run |
| `DeliveryTheorems.OneWorker` | core/src/crosspoint_delivery/service.rs:474-648 | at every moment a row has at most one worker past its claim, a device at most one permit holder, and every write still to come is aimed at a row in flight |
| `DeliveryStart.AcquireExactly` | core/src/crosspoint_delivery/service.rs:494-500 | a waiting worker gets through its device's gate with its next try if and only if nobody is inside, and then holds the permit |
| `DeliveryStart.CheckExactly` | core/src/crosspoint_delivery/service.rs:516-522 | the status check lets a worker go on if and only if its row is queued; otherwise it is gone, its permit is back and nothing else has changed |
| `DeliveryStart.ClaimExactly` | core/src/crosspoint_delivery/service.rs:523-555 | the claim succeeds if and only if the row is queued and due at that moment, whatever the check saw; otherwise the worker gives up |
| `DeliveryStart.SpawnExactly` | core/src/crosspoint_delivery/service.rs:474-500 | which rows get a worker, gated from the due query and ungated from a direct call |
| `DeliveryStart.SpawnClaims` | core/src/crosspoint_delivery/service.rs:474-555 | from every state of a running process with a due row and a free gate, a new worker's own steps bring the row into preparation with one more attempt, the worker live and holding the permit |
| `DeliveryStart.StartToOutcome` | core/src/crosspoint_delivery/service.rs:494-648 | from the moment a worker exists, and whatever falls between its steps: once it has claimed it keeps the row until it is done and leaves it completed, queued or failed as staging, upload and budget demand |
| `DeliveryStart.DueToOutcome` | core/src/crosspoint_delivery/service.rs:474-648 | some run takes a due row of a free device from spawn to that outcome with no other row changed |
| `DeliveryStart.LogStep` | core/src/crosspoint_delivery/service.rs:562-574 | the attempt log gains an entry only when a live worker opens its attempt, under a number not yet used, and an entry changes only when its worker closes it as completed or failed |
| `DeliveryStart.LoggedOutcome` | core/src/crosspoint_delivery/service.rs:934-963 | when a worker writes its row's outcome, the row's current attempt is logged completed if the row is completed and failed otherwise |
| `DeliveryTheorems.RowStep` | core/src/crosspoint_delivery/service.rs:512-963 | a step moves a row if and only if it is a claim of a due queued row, a cancel of a queued one, a retry of a failed one, a write of the row's own worker, or recovery of a row on its list; each such step is given column by column, and every other step leaves the row as it is |
| `DeliveryTheorems.RowForever` | core/src/crosspoint_delivery/service.rs:872-932 | a completed or cancelled row never changes again in any column, and snapshot columns never change in any row |
| `DeliveryTheorems.Accounting` | core/src/crosspoint_delivery/service.rs:523-687 | over every run the stored attempts are the claims of the row and the retry history its manual retries |
| `DeliveryTheorems.ClaimBound` | core/src/crosspoint_delivery/service.rs:310-687 | the stored attempts are the claims, never exceed the budget plus the manual retries and stay strictly below while the row is queued, crashes included |
| `DeliveryTheorems.ReachableRows` | core/src/crosspoint_delivery/service.rs:893-963 | completed time set iff terminal, started time set iff in flight, no next attempt when terminal, no logged attempt beyond the counter, and a completed row's last attempt is logged completed |
| `DeliveryTheorems.EnqueueOnce` | core/src/crosspoint_delivery/service.rs:422-470 | one key names one row for ever, and enqueuing it again at any point of any run changes nothing |
| `DeliveryTheorems.WorkerSettles` | core/src/crosspoint_delivery/service.rs:556-648 | from every reachable state some run of the worker's own statements, at most as many as it has left, takes its row out of flight: completed, queued again or failed as the outcomes of staging and upload and the budget demand, with no other row changed |
| `DeliveryLife.WorkerCourse` | core/src/crosspoint_delivery/service.rs:556-648 | whatever steps of others fall between its own, a worker that is not killed keeps its row until it is done, is done after at most eight turns, and leaves the row in the status its outcomes demand |
| `DeliveryLife.OtherStep` | core/src/crosspoint_delivery/service.rs:512-648 | no step of anybody else touches a live worker or its row |
| `DeliveryLife.LastAttemptEnds` | core/src/crosspoint_delivery/service.rs:606-640 | the worker of a row whose budget is used up can only complete it or fail it |
| `DeliveryLife.TendedExactly` | core/src/crosspoint_delivery/service.rs:512-648 | a row in flight of a running process loses its worker exactly at the loss of a live worker or when the process starts to run over rows in flight |
| `DeliveryLife.ExactlyOneWorker` | core/src/crosspoint_delivery/service.rs:474-648 | in every run without such a step, every row in flight of a running process has exactly one live worker |
| `DeliveryLife.AbortOrphans` | core/src/crosspoint_delivery/service.rs:556-648 | a worker lost after its claim leaves its row in flight with nobody behind it |
| `DeliveryLife.OrphanUntilRestart` | core/src/crosspoint_delivery/service.rs:652-718 | such a row does not change in any run without a restart; retry and cancel refuse it |
| `DeliveryLife.RecoveryComplete` | core/src/crosspoint_delivery/service.rs:310-355 | a recovery that has worked off its list leaves no row in flight, in every run |
| `DeliveryBudget.OrphanReached` | core/src/crosspoint_delivery/service.rs:523-574 | a run from the start that orphans a row |
| `DeliveryBudget.QueuedUsedUp` | core/src/crosspoint_delivery/service.rs:652-687 | a queued row has its budget used up if and only if it was last queued by a manual retry that found it used up |
| `DeliveryBudget.ExceededExactly` | core/src/crosspoint_delivery/service.rs:523-555 | a row has more attempts than its budget if and only if some step claimed it after such a retry |
| `DeliveryBudget.BoundAttained` | core/src/crosspoint_delivery/service.rs:652-687 | for every budget and every number of manual retries a run reaches exactly budget plus retries, so the bound is exact |
| `DeliveryBudget.RecoveredTerminal` | core/src/crosspoint_delivery/service.rs:310-355 | after a recovery that has worked off its list, a row whose budget is used up is terminal if and only if no manual retry queued it again |
| `DeliveryBudget.AtTheLimit` | core/src/crosspoint_delivery/service.rs:310-687 | without manual retries a row claimed as often as its budget allows is terminal or in flight and never queued |
| `RemotePath.RemoteComponents` | core/src/crosspoint_delivery/service.rs:1138-1173 | the loop computes the parse whose acceptance, errors and components the next rows describe |
| `RemotePath.ParsedComponents` | core/src/crosspoint_delivery/service.rs:1138-1173 | the components of an accepted path are exactly the non-empty stretches between its slashes; none is a dot entry and none holds a separator, a colon or a control character |
| `RemotePath.AcceptedExactly` | core/src/crosspoint_delivery/service.rs:1138-1173 | a path is accepted if and only if it holds no backslash, control character or colon and no stretch between slashes is a dot entry; a backslash or control character is reported before anything else |
| `RemotePath.PrintParse` | core/src/crosspoint_delivery/service.rs:1131-1156 | parsing undoes printing |
| `RemotePath.ComposeParses` | core/src/crosspoint_delivery/service.rs:1120-1136 | composition fails exactly when an input does not parse; otherwise the result starts with the root's components, ends with the destination's, and has nothing else |
| `RemotePath.ComposedContained` | core/src/crosspoint_delivery/service.rs:1120-1136 | a composed path is absolute, without empty stretches or a trailing slash, extends the root component by component, and has no dot entry |
| `RemotePath.ComposeIdempotent` | core/src/crosspoint_delivery/service.rs:859-859 | the path recomposed at transfer equals the stored one for every root that still has the same components |
| `RemotePath.ComposeCollides` | core/src/crosspoint_delivery/service.rs:1123-1130 | two destinations give one path if and only if their components agree or one spells out the root before the other's |
| `RemotePath.CollidingPair` | core/src/crosspoint_delivery/service.rs:1123-1130 | below the root /a the different destinations /b and /a/b give one path |
| `DeliveryKey.PreimageReadable` | core/src/crosspoint_delivery/service.rs:1093-1105 | fields without zero bytes can be read back from the digested bytes |
| `DeliveryKey.PreimagePrefix` | core/src/crosspoint_delivery/service.rs:1094-1094 | what is digested starts with the version text and a zero byte |
| `DeliveryKey.AmbiguousExactly` | core/src/crosspoint_delivery/service.rs:1093-1105 | another tuple of as many fields has the same preimage if and only if some field contains a zero byte |
| `DeliveryKey.Reslice` | core/src/crosspoint_delivery/service.rs:1095-1105 | a zero byte in one of two neighbouring fields lets their boundary move |
| `Separated.SplitJoin` | core/src/crosspoint_delivery/service.rs:1134-1148 | splitting at a separator undoes joining with it |
| `Separated.SplitParts` | core/src/crosspoint_delivery/service.rs:1148-1154 | no piece of a split holds the separator or anything the whole did not hold |
| `Separated.PieceListed` | core/src/crosspoint_delivery/service.rs:1148-1148 | splitting misses no stretch between separators |
| `Separated.PieceFound` | core/src/crosspoint_delivery/service.rs:1148-1148 | every piece of a split is such a stretch |
| `Separated.SplitTerminated` | core/src/crosspoint_delivery/service.rs:1095-1105 | splitting terminated fields gives the fields back and one empty piece |
| `Grabs.DueGrabIds` | core/src/mam_acquisition.rs:1173-1214 | a batch is due, unclaimed, without repetition, oldest first and at most 100 long; it leaves a due row behind only when it is full, and then none that is older |
| `Grabs.RefreshClaims.constructor` | core/src/mam_acquisition.rs:1128-1129 | nothing is claimed at first |
| `Grabs.RefreshClaims.Claim` | core/src/mam_acquisition.rs:1142-1144 | adds exactly the given ids |
| `Grabs.RefreshClaims.Release` | core/src/mam_acquisition.rs:1160-1166 | the guard's loop takes back exactly the given ids |
| `Grabs.ChooseGrab` | core/src/mam_acquisition.rs:1306-1310 | the pass over the listing computes the adoption choice |
| `Grabs.AdoptedBest` | core/src/mam_acquisition.rs:1306-1310 | the choice is an untracked grab of the torrent, unfinished whenever such a one is listed, and the newest of its kind; there is none exactly when every listed grab of the torrent is recorded |
| `GrabProofs.StepKeeps` | core/src/mam_acquisition.rs:673-1387 | every step of creates, jobs, dispatcher, bridge, clock and crash keeps the invariant of rows, bridge ids and claims |
| `GrabProofs.RowsWrite` | core/src/mam_acquisition.rs:1250-1275 | a lawful save keeps one active row per torrent and one row per bridge grab |
| `GrabProofs.StillUnrecorded` | core/src/mam_acquisition.rs:1283-1330 | an id about to be recorded for one row cannot be taken by a save of another, because no two active rows share a torrent |
| `GrabProofs.SelectedFree` | core/src/mam_acquisition.rs:1173-1214 | a selected row is open and unclaimed and no unfinished create works on it |
| `GrabProofs.HeldLess` | core/src/mam_acquisition.rs:1160-1166 | a job that ends gives back exactly its own ids |
| `GrabTheorems.RunKeeps` | core/src/mam_acquisition.rs:673-1387 | the invariant holds after every run |
| `GrabTheorems.ReachableRows` | core/src/mam_acquisition.rs:673-1373 | at most one active row per torrent, no bridge grab on two rows, a bridge id behind every queued, downloading or completed row, at most 288 failed handoffs with active rows strictly below, at most one POST per row |
| `GrabTheorems.PostAlone` | core/src/mam_acquisition.rs:698-740 | a POST goes out only for a row that has had none, while no other row of its torrent is active |
| `GrabTheorems.InsertExactly` | core/src/mam_acquisition.rs:702-732 | an insert keeps one active row per torrent if and only if none is active at that moment |
| `GrabTheorems.RacingCreates` | core/src/mam_acquisition.rs:702-732 | two creates that both pass the check before either inserts make two active rows, straight from the start |
| `GrabTheorems.BeginExactly` | core/src/mam_acquisition.rs:698-718 | a create that has passed its check keeps the invariant if and only if no other create of its torrent is under way |
| `GrabTheorems.RowStep` | core/src/mam_acquisition.rs:1219-1387 | a row changes only through its create or the job standing at it; request and torrent never change, and the handoff count grows exactly by failed handoffs (column by column: `GrabEdges.RowEdge`) |
| `GrabEdges.RowEdge` | core/src/mam_acquisition.rs:741-1387 | each step that saves a row is given column by column with its guard, and every other step leaves the row as it is; a failed bridge call changes nothing but the time stamp |
| `GrabEdges.NewRowEdge` | core/src/mam_acquisition.rs:714-730 | a row appears only by the insert of a create: starting, untracked, unlinked and unspent |
| `GrabEdges.PostExactly` | core/src/mam_acquisition.rs:731-758 | an accepted POST is to save the new grab and its phase, any other answer to end the row |
| `GrabEdges.LeavesActive` | core/src/mam_acquisition.rs:741-1387 | a row leaves the active phases only by a POST that was not accepted, by giving up when every listed grab of its torrent is recorded, by a phase the bridge reported, or by its 288th failed handoff |
| `GrabEdges.DueExactly` | core/src/mam_acquisition.rs:1173-1200 | a row is due 60, 300 or 120 seconds after its last save by its phase, and in no other phase |
| `GrabEdges.SurvivesOutage` | core/src/mam_acquisition.rs:1375-1387 | over every run in which no answer for it comes, a row keeps its phase, grab, item and handoff count, and once nobody holds it and its interval has passed it can be selected again |
| `GrabTheorems.ClosedForever` | core/src/mam_acquisition.rs:1184-1200 | a row that left the active phases or was linked to its item is never written or selected again |
| `GrabTheorems.HandoffsCounted` | core/src/mam_acquisition.rs:1339-1373 | over every run the stored count grows by exactly the failed handoffs, so it is never reset |
| `GrabTheorems.HandoffBudget` | core/src/mam_acquisition.rs:1339-1373 | no row sees more than 288 failed handoffs over its whole life, and the last one ends it |
| `GrabVisits.VisitCourse` | core/src/mam_acquisition.rs:1227-1275 | whatever other jobs, creates, the dispatcher, the bridge and the clock do between its steps, an uninterrupted visit is over after at most six steps of its own and leaves the row its answers demand |
| `GrabVisits.ChoiceKept` | core/src/mam_acquisition.rs:1283-1330 | no step of others touches the row a job is at or changes which listed grab it would adopt |
| `GrabVisits.AdoptionOutcome` | core/src/mam_acquisition.rs:1283-1330 | over every run from the arrival of the listing: the starting row ends in error without a new grab if and only if every listed grab of its torrent was recorded on some row, its own included; otherwise it takes over an unrecorded one, unfinished whenever there is one |
| `GrabVisits.RefreshOutcome` | core/src/mam_acquisition.rs:1236-1275 | over every run: the row keeps its grab and takes the reported phase, the item is linked or the failed handoff counted, and the last failure ends the row |
| `GrabVisits.OwnIdStrands` | core/src/mam_acquisition.rs:1323-1329 | over every run: a row that recorded its id but not its phase is given up unless another grab of its torrent is listed |
| `GrabRuns.HalfAdoptedReached` | core/src/mam_acquisition.rs:1323-1329 | a run from the start to a starting row with its bridge id saved |
| `GrabRuns.RecoveredGrabLost` | core/src/mam_acquisition.rs:1311-1329 | a run from the start to a row in error whose own grab the bridge still lists as queued |
| `GrabTheorems.ClaimsExact` | core/src/job/services.rs:328-354 | in every reachable state, with or without jobs, the claims are without overlap the ids of the jobs, of the batch in hand and the leaked ones |
| `GrabTheorems.JobsDisjoint` | core/src/job/services.rs:328-354 | the ids of any two jobs are disjoint and claimed |
| `GrabRuns.LeakedExactly` | crates/jobs/src/worker.rs:75-131 | claims have leaked if and only if, since the last restart, a queued job with ids was dropped before it opened or the dispatcher was aborted with a batch in hand |
| `GrabRuns.LeakReached` | crates/jobs/src/worker.rs:75-131 | a run from the start to a claim that no job holds |
| `GrabTheorems.NoLeak` | core/src/job/services.rs:269-274 | nothing leaks in a run without a job dropped before it opened and without an aborted dispatcher |
| `GrabTheorems.LeakedUntilRestart` | crates/jobs/src/worker.rs:75-131 | a row whose claim leaked stays claimed and unwritten through every run without a restart |
| `GrabTheorems.RestartFrees` | core/src/job/services.rs:328-354 | after a restart nothing is leaked as long as nothing leaks anew |
| `AnnotationExport.MinCursor` | core/src/job/annotation_sync.rs:141-147 | the smallest of the cursors, zero when there are none |
| `AnnotationExport.Changed` | crates/annotation-sync/src/model.rs:663-699 | exactly the works above the starting point, at their present versions |
| `AnnotationExport.ExportDelivers` | core/src/job/annotation_sync.rs:177-197 | a batch built from the smallest cursor completes a sink with a larger one up to the high-water mark |
| `AnnotationExport.StepKeeps` | core/src/job/annotation_sync.rs:100-218 | every write, build, export, store, failure and drop keeps "stored and pending cursors are delivered" |
| `AnnotationExport.NothingMissed` | core/src/job/annotation_sync.rs:141-218 | however jobs overlap and fail, a work at or below a sink's stored cursor was delivered to that sink in its present version |
| `AnnotationExport.HoldsCurrent` | core/src/job/annotation_sync.rs:100-218 | while jobs do not overlap, every sink always holds the present version of every work at or below its cursor, half-written exports and lost stores included |
| `AnnotationExport.CatchesUp` | core/src/job/annotation_sync.rs:100-218 | a job that succeeds undisturbed leaves the sink's cursor at the last number given out and the present version of every work at the sink |
| `AnnotationExport.OverlapKeepsOldVersion` | core/src/job/annotation_sync.rs:177-218 | a concrete run of two overlapping jobs after which a sink holds an old version behind a newer cursor |
| `AnnotationHistory.HeldExactly` | core/src/job/annotation_sync.rs:100-218 | over every run, however jobs overlap and fail: a sink holds the present version of a work if and only if the last export that wrote the work there came from a batch read after the work's last change |
| `AnnotationHistory.ContentFrom` | core/src/job/annotation_sync.rs:177-197 | a sink holds a work if and only if some export wrote it, in the version of the last one's batch |
| `AnnotationHistory.BatchRead` | crates/annotation-sync/src/model.rs:663-699 | a batch holds the versions of the one step at which it was read |
| `AnnotationHistory.StoresExactly` | core/src/job/annotation_sync.rs:188-218 | over every run: a job stores the high-water mark of its batch if its export succeeded and otherwise the cursor the sink had when the job began |
| `AnnotationHistory.InitExactly` | core/src/job/annotation_sync.rs:114-172 | a job starts with exactly the sinks enabled then, each with its stored cursor, and reads from the smallest of these |
| `AnnotationHistory.DisabledUntouched` | core/src/job/annotation_sync.rs:272-284 | over every run, nothing is written to a sink from the moment it is disabled until it is enabled again, not even by a job that had taken it on |
| `Debouncer.AnnotationSyncDebouncer.constructor` | core/src/annotation_sync.rs:54-59 | no deadline at first |
| `Debouncer.AnnotationSyncDebouncer.NoteAt` | core/src/annotation_sync.rs:67-73 | arms or moves the deadline of this user only |
| `Debouncer.AnnotationSyncDebouncer.TakeDue` | core/src/annotation_sync.rs:76-92 | returns exactly the users whose deadline has passed, ascending and so each once, and removes exactly those |
| `Debouncer.PendingExactly` | core/src/annotation_sync.rs:67-101 | a deadline is pending if and only if the user's latest note has met no drain late enough, and it is that note's time plus the delay |
| `Debouncer.DrainedExactly` | core/src/annotation_sync.rs:76-92 | a user is drained at a moment if and only if the latest note is at least the delay old and no earlier drain took it |
| `Debouncer.DrainedQuiet` | core/src/annotation_sync.rs:46-48 | in ordered time every note of a drained user is at least the delay old |
| `Debouncer.DrainsAnswerNotes` | core/src/annotation_sync.rs:67-92 | drains, plus one while a deadline is pending, never outnumber notes; and a user with notes is pending or has been drained |
| `Chapters.BookMarksAt` | crates/abs/src/mapper.rs:520-533 | one mark per chapter in order; an open end is the end of the book and a missing title the chapter's number from one, up to the largest 32-bit index |
| `Chapters.FileChaptersCut` | crates/abs/src/mapper.rs:538-559 | a file's chapters are the book's chapters cut to the file |
| `Chapters.SamePlaying` | crates/abs/src/mapper.rs:520-559 | at every moment of a file its list names the chapters the book's list names then, for any chapters |
| `Chapters.FilesTile` | crates/abs/src/mapper.rs:538-559 | if tracks and chapters tile the book, every file's chapters tile that file from zero to its duration |
| `Chapters.Stitched` | crates/abs/src/mapper.rs:538-559 | the pieces of a chapter over all files tile it again and their lengths add up to its length |
| `Chapters.SwapSums` | crates/abs/src/mapper.rs:565-615 | summing by file and summing by chapter agree, for any chapters and tracks |
| `Chapters.Conserved` | crates/abs/src/mapper.rs:520-615 | the files together show exactly the chapter time of the book, gaps and overlaps included |
| `AbsIds.ParseAsStr` | crates/abs/src/ids.rs:37-52 | a text parses to a kind if and only if it is that kind's stored name |
| `AbsIds.AbsIds.constructor` | crates/abs/src/ids.rs:201-206 | the table starts empty |
| `AbsIds.AbsIds.Find` | crates/abs/src/ids.rs:152-165 | the search answers an id if and only if a row of that kind and key has it, and nothing if and only if there is no such row |
| `AbsIds.AbsIds.Insert` | crates/abs/src/ids.rs:133-150 | adds the row unless the key is there, and fails exactly when a new key meets an id in use |
| `AbsIds.AbsIds.Resolve` | crates/abs/src/ids.rs:67-82 | answers the id the table holds afterwards, allocating only a missing one |
| `AbsIds.AbsIds.Lookup` | crates/abs/src/ids.rs:117-131 | the search answers the key the id was allocated for, per kind |
| `AbsIds.AbsIds.CollectExisting` | crates/abs/src/ids.rs:167-197 | adds exactly the known keys of the chunk under their ids |
| `AbsIds.AbsIds.CollectChunked` | crates/abs/src/ids.rs:95-97 | chunks of 500 find what one query over all keys would |
| `AbsIds.AbsIds.InsertAll` | crates/abs/src/ids.rs:106-108 | inserts in turn; a collision stops them with every old row kept |
| `AbsIds.AbsIds.ResolveMany` | crates/abs/src/ids.rs:86-113 | for any keys, repetitions and any number of chunks included, answers exactly the requested keys and leaves the table that resolving them one at a time with the same draws leaves; fails only when a draw collides |
| `AbsIds.BulkIsEach` | crates/abs/src/ids.rs:98-108 | allocating for the keys missing at the start equals resolving every key in turn |
| `AbsIds.EachAdds` | crates/abs/src/ids.rs:67-82 | resolving adds exactly the requested keys of that kind, changes no id and introduces none but the draws |
| `AbsIds.EachInjective` | crates/abs/src/ids.rs:67-82 | fresh draws keep ids unique |
| `AbsIds.LookupInverts` | crates/abs/src/ids.rs:117-131 | lookup answers a key if and only if that key resolves to the id |
| `AbsIds.LookupPerKind` | crates/abs/src/ids.rs:117-131 | an id of one kind names nothing of another |

## Left out

- HTTP, the filesystem, hashing, EPUB optimisation, uploads and staging: each is a success or a failure chosen by the label.
- SHA-256 itself: the key is modelled up to the bytes that are digested.
- Error texts, progress, activity counters, memory figures and transition times of rows and components.
- The order and the limit of `process_due`, which only choose which due rows get a worker first.
- The row values a registry load reads are those at its start; a command that runs inside a load is not interleaved with it, apart from the window between publish and load.
- Deletion of requests, grab rows and ingest items, and queue rows removed by cascades.
- A second dispatcher, as exists for a moment while the scheduler reloads.
- The native books of an export, which are rebuilt in full every time, and the splitting of a work over editions.
- The works of a batch are read in one moment after the counter; the original reads them one by one.
- AnnotationHistory.DisabledUntouched: the check that a sink is active and the export it guards are one step, so an export already past its check when the sink is disabled is not covered.
- Adding a sink again after its row was deleted, and the settings and secrets of sinks.
- Users of the debouncer are numbers in their sort order; string comparison is not modelled.
- Chapter times are integral milliseconds; the conversion to seconds in floating point and 64-bit overflow are not modelled.
- Concurrent sessions on the id table; its conflict clause is modelled, interleaving is not.
- Users, libraries, Kobo and OPDS endpoints, scanning, metadata and the web client, which would add easy members.
