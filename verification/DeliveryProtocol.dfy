/**
  Every interleaving of delivery workers, user commands, worker loss and process restarts.

  A worker is one call of `process_one`.  Each awaited database statement is one step, so that any
  other step may fall between two statements of a worker.  The table and the attempt log survive a
  crash; workers and device permits do not.  `Step` is total: a label that is not enabled changes
  nothing, so every sequence of labels is a run.
 */
module DeliveryProtocol {
  import opened Common
  import opened DeliveryRows

  type WorkerId = nat

  /** The attempt log has a unique index over queue row and attempt number. */
  datatype AttemptKey = AttemptKey(row: RowId, no: nat)

  /** Where a worker stands: the statement it is about to send. */
  datatype Pc =
    | AwaitPermit
    | ReadStatus
    | SendClaim
    | ReadBack
    | InsertAttempt
    | PrepareSource
    | MarkTransferring
    | TransferFile
    | LogSuccess
    | WriteCompleted
    | LogFailure
    | WriteOutcome

  /** `no` and `budget` are the attempts and max_attempts the worker read back after its claim. */
  datatype Worker = Worker(
    row: RowId, device: DeviceId, gated: bool, pc: Pc, no: nat, budget: nat, retry: bool)

  /** The worker's claim succeeded and it has not yet written the row's outcome. */
  predicate Live(w: Worker) { !(w.pc.AwaitPermit? || w.pc.ReadStatus? || w.pc.SendClaim?) }

  predicate HasRead(w: Worker) { Live(w) && !w.pc.ReadBack? }

  predicate HasLogged(w: Worker) { HasRead(w) && !w.pc.InsertAttempt? }

  predicate HoldsPermit(w: Worker) { w.gated && !w.pc.AwaitPermit? }

  /** The status a live worker's row must have. */
  predicate StatusFits(w: Worker, s: Status) {
    match w.pc
    case ReadBack | InsertAttempt | PrepareSource | MarkTransferring => s.Preparing?
    case TransferFile | LogSuccess | WriteCompleted => s.Transferring?
    case _ => InFlight(s)
  }

  datatype Phase = Down | Recovering(seen: Table, todo: set<RowId>) | Running

  /** `retries` counts the manual retries that took effect; it is history, not part of the service. */
  datatype State = State(
    rows: Table,
    log: map<AttemptKey, Status>,
    workers: map<WorkerId, Worker>,
    permits: map<DeviceId, WorkerId>,
    phase: Phase,
    retries: map<RowId, nat>)

  const INITIAL := State(map[], map[], map[], map[], Down, map[])

  datatype Label =
    | Enqueue(id: RowId, snap: Snapshot)
    | SpawnDue(w: WorkerId, id: RowId, now: Time)
    | WakeUp(w: WorkerId, id: RowId)
    | Acquire(w: WorkerId)
    | CheckStatus(w: WorkerId)
    | Claim(w: WorkerId, now: Time)
    | Reread(w: WorkerId)
    | LogAttempt(w: WorkerId)
    | Prepared(w: WorkerId, ok: bool, retryable: bool)
    | Marked(w: WorkerId)
    | Transferred(w: WorkerId, ok: bool, retryable: bool)
    | FinishAttempt(w: WorkerId)
    | WriteRow(w: WorkerId, now: Time, next: Time)
    | Abort(w: WorkerId)
    | Retry(id: RowId)
    | Cancel(id: RowId, now: Time)
    | Crash
    | RecoverRead
    | RecoverRow(id: RowId, now: Time)
    | RecoverEnd

  /** The worker is at `pc` and the process accepts its next statement. */
  predicate At(s: State, w: WorkerId, pc: Pc) { w in s.workers && s.workers[w].pc == pc }

  function Put(s: State, w: WorkerId, me: Worker): State { s.(workers := s.workers[w := me]) }

  function Goto(s: State, w: WorkerId, pc: Pc): State
    requires w in s.workers
  {
    Put(s, w, s.workers[w].(pc := pc))
  }

  /** The worker's task ends, by return or by error, and its permit is dropped. */
  function Ended(s: State, w: WorkerId): State
    requires w in s.workers
  {
    s.(workers := s.workers - {w},
       permits := if HoldsPermit(s.workers[w]) then s.permits - {s.workers[w].device} else s.permits)
  }

  /** A failed worker retries iff the error allows it and budget is left. */
  function AfterFailure(me: Worker, retryable: bool): Worker {
    me.(pc := LogFailure, retry := retryable && me.no < me.budget)
  }

  function AfterRead(me: Worker, r: Row): Worker {
    me.(pc := InsertAttempt, no := r.attempts, budget := r.snap.maxAttempts)
  }

  function Count(m: map<RowId, nat>, id: RowId): nat { if id in m then m[id] else 0 }

  function Step(s: State, l: Label): State {
    match l
    case Enqueue(id, snap) => DoEnqueue(s, id, snap)
    case SpawnDue(w, id, now) => DoSpawn(s, w, id, now)
    case WakeUp(w, id) => DoWakeUp(s, w, id)
    case Acquire(w) => DoAcquire(s, w)
    case CheckStatus(w) => DoCheck(s, w)
    case Claim(w, now) => DoClaim(s, w, now)
    case Reread(w) => DoReread(s, w)
    case LogAttempt(w) => DoLog(s, w)
    case Prepared(w, ok, retryable) => DoIo(s, w, PrepareSource, MarkTransferring, ok, retryable)
    case Marked(w) => DoMark(s, w)
    case Transferred(w, ok, retryable) => DoIo(s, w, TransferFile, LogSuccess, ok, retryable)
    case FinishAttempt(w) => DoFinish(s, w)
    case WriteRow(w, now, next) => DoWrite(s, w, now, next)
    case Abort(w) => DoAbort(s, w)
    case Retry(id) => DoRetry(s, id)
    case Cancel(id, now) => s.(rows := CancelledRow(s.rows, id, now))
    case Crash => s.(workers := map[], permits := map[], phase := Down)
    case RecoverRead => DoRecoverRead(s)
    case RecoverRow(id, now) => DoRecoverRow(s, id, now)
    case RecoverEnd => s.(phase := Running)
  }

  /** max_attempts is the profile's retry count plus one. */
  function DoEnqueue(s: State, id: RowId, snap: Snapshot): State {
    if snap.maxAttempts == 0 then s else s.(rows := Inserted(s.rows, id, snap))
  }

  /** `process_due` found the row due and starts a task that first waits for the device's permit. */
  function DoSpawn(s: State, w: WorkerId, id: RowId, now: Time): (q: State)
    ensures q.rows == s.rows && q.retries == s.retries
  {
    if s.phase.Running? && w !in s.workers && Claimable(s.rows, id, now) then Start(s, w, id, true) else s
  }

  /** A direct call of `process_one`, with no permit and with no look at the row. */
  function DoWakeUp(s: State, w: WorkerId, id: RowId): (q: State)
    ensures q.rows == s.rows && q.retries == s.retries
  {
    if s.phase.Running? && w !in s.workers && id in s.rows then Start(s, w, id, false) else s
  }

  function DoAcquire(s: State, w: WorkerId): (q: State)
    ensures q.rows == s.rows && q.retries == s.retries
  {
    if At(s, w, AwaitPermit) && s.workers[w].device !in s.permits
    then Goto(s, w, ReadStatus).(permits := s.permits[s.workers[w].device := w])
    else s
  }

  function DoCheck(s: State, w: WorkerId): (q: State)
    ensures q.rows == s.rows && q.retries == s.retries
  {
    if !At(s, w, ReadStatus) then s
    else if Cancellable(s.rows, s.workers[w].row) then Goto(s, w, SendClaim)
    else Ended(s, w)
  }

  function DoClaim(s: State, w: WorkerId, now: Time): State {
    if !At(s, w, SendClaim) then s
    else if Claimable(s.rows, s.workers[w].row, now)
    then Goto(s, w, ReadBack).(rows := Claimed(s.rows, s.workers[w].row, now))
    else Ended(s, w)
  }

  function DoReread(s: State, w: WorkerId): (q: State)
    ensures q.rows == s.rows && q.retries == s.retries
  {
    if !At(s, w, ReadBack) then s
    else if s.workers[w].row in s.rows then Put(s, w, AfterRead(s.workers[w], s.rows[s.workers[w].row]))
    else Ended(s, w)
  }

  function DoLog(s: State, w: WorkerId): (q: State)
    ensures q.rows == s.rows && q.retries == s.retries
  {
    if !At(s, w, InsertAttempt) then s
    else if KeyOf(s.workers[w]) in s.log then Ended(s, w)
    else Goto(s, w, PrepareSource).(log := s.log[KeyOf(s.workers[w]) := Preparing])
  }

  /** Staging and uploading succeed or fail for reasons outside the model. */
  function DoIo(s: State, w: WorkerId, here: Pc, next: Pc, ok: bool, retryable: bool): (q: State)
    ensures q.rows == s.rows && q.retries == s.retries
  {
    if !At(s, w, here) then s
    else if ok then Goto(s, w, next)
    else Put(s, w, AfterFailure(s.workers[w], retryable))
  }

  function DoMark(s: State, w: WorkerId): State {
    if At(s, w, MarkTransferring)
    then Goto(s, w, TransferFile).(rows := WithStatus(s.rows, s.workers[w].row, Transferring))
    else s
  }

  function DoFinish(s: State, w: WorkerId): (q: State)
    ensures q.rows == s.rows && q.retries == s.retries
  {
    if At(s, w, LogSuccess) then Finished(s, w, Completed, WriteCompleted)
    else if At(s, w, LogFailure) then Finished(s, w, Failed, WriteOutcome)
    else s
  }

  function DoWrite(s: State, w: WorkerId, now: Time, next: Time): State {
    if At(s, w, WriteCompleted) || At(s, w, WriteOutcome)
    then Ended(s, w).(rows := Outcome(s.rows, s.workers[w], now, next))
    else s
  }

  function DoAbort(s: State, w: WorkerId): (q: State)
    ensures q.rows == s.rows && q.retries == s.retries
  {
    if w in s.workers then Ended(s, w) else s
  }

  function DoRetry(s: State, id: RowId): State {
    if Retryable(s.rows, id)
    then s.(rows := Retried(s.rows, id), retries := s.retries[id := Count(s.retries, id) + 1])
    else s
  }

  function DoRecoverRead(s: State): (q: State)
    ensures q.rows == s.rows && q.retries == s.retries
  {
    if s.phase.Down? then s.(phase := Recovering(s.rows, InFlightRows(s.rows))) else s
  }

  function DoRecoverRow(s: State, id: RowId, now: Time): State {
    if s.phase.Recovering? && id in s.phase.todo && id in s.phase.seen
    then s.(rows := Recovered(s.rows, id, s.phase.seen[id].attempts, now),
            phase := s.phase.(todo := s.phase.todo - {id}))
    else s
  }

  function Start(s: State, w: WorkerId, id: RowId, gated: bool): State
    requires id in s.rows
  {
    s.(workers := s.workers[w := Worker(id, s.rows[id].snap.device, gated,
                                        if gated then AwaitPermit else ReadStatus, 0, 0, false)])
  }

  function KeyOf(w: Worker): AttemptKey { AttemptKey(w.row, w.no) }

  function Finished(s: State, w: WorkerId, status: Status, pc: Pc): State
    requires w in s.workers
  {
    var k := KeyOf(s.workers[w]);
    Goto(s, w, pc).(log := if k in s.log then s.log[k := status] else s.log)
  }

  /** The unconditional last write of a worker. */
  function Outcome(t: Table, w: Worker, now: Time, next: Time): Table {
    if w.pc.WriteCompleted? then Settled(t, w.row, Completed, None, Some(now))
    else if w.retry then Settled(t, w.row, Queued, Some(next), None)
    else Settled(t, w.row, Failed, None, Some(now))
  }

  function InFlightRows(t: Table): set<RowId> {
    set id | id in t && InFlight(t[id].status)
  }

  function Exec(s: State, run: seq<Label>): State
    decreases |run|
  {
    if run == [] then s else Exec(Step(s, run[0]), run[1..])
  }

  // ---------------------------------------------------------------------------------------------
  // The invariant
  // ---------------------------------------------------------------------------------------------

  /** Attempts used never exceed the budget plus the manual retries, and a queued row has one left. */
  predicate WithinBudget(r: Row, retries: nat) {
    && r.snap.maxAttempts >= 1
    && r.attempts <= r.snap.maxAttempts + retries
    && (r.status.Queued? ==> r.attempts < r.snap.maxAttempts + retries)
  }

  ghost predicate RowsOk(t: Table, retries: map<RowId, nat>) {
    && UniqueKeys(t)
    && (forall id :: id in t ==> RowShape(t[id]) && WithinBudget(t[id], Count(retries, id)))
    && (forall id :: id in retries ==> id in t)
  }

  /** What a worker knows about its row, given the row. */
  predicate WorkerOk(w: Worker, r: Row) {
    && w.device == r.snap.device
    && (Live(w) ==> StatusFits(w, r.status))
    && (HasRead(w) ==> w.no == r.attempts && w.budget == r.snap.maxAttempts)
    && (w.retry ==> (w.pc.LogFailure? || w.pc.WriteOutcome?) && w.no < w.budget)
    && (w.pc.AwaitPermit? ==> w.gated)
  }

  predicate SameLiveRow(v: Worker, w: Worker) { Live(v) && Live(w) && v.row == w.row }

  ghost predicate WorkersOk(t: Table, ws: map<WorkerId, Worker>) {
    && (forall w :: w in ws ==> ws[w].row in t && WorkerOk(ws[w], t[ws[w].row]))
    && (forall v, w :: v in ws && w in ws && SameLiveRow(ws[v], ws[w]) ==> v == w)
  }

  /** Permits and permit holders are in bijection. */
  ghost predicate PermitsOk(ws: map<WorkerId, Worker>, ps: map<DeviceId, WorkerId>) {
    && (forall w :: w in ws && HoldsPermit(ws[w]) ==> ws[w].device in ps && ps[ws[w].device] == w)
    && (forall d :: d in ps ==> ps[d] in ws && HoldsPermit(ws[ps[d]]) && ws[ps[d]].device == d)
  }

  /** A live worker's own attempt is logged exactly when it has inserted it. */
  predicate WorkerLogOk(w: Worker, r: Row, log: map<AttemptKey, Status>) {
    && (HasLogged(w) ==> KeyOf(w) in log)
    && (w.pc.WriteCompleted? ==> KeyOf(w) in log && log[KeyOf(w)].Completed?)
    && (w.pc.WriteOutcome? ==> KeyOf(w) in log && log[KeyOf(w)].Failed?)
    && (Live(w) && !HasLogged(w) ==> AttemptKey(w.row, r.attempts) !in log)
  }

  /** A completed row's last attempt is logged as completed. */
  predicate RowLogOk(id: RowId, r: Row, log: map<AttemptKey, Status>) {
    var last := AttemptKey(id, r.attempts);
    r.status.Completed? ==> last in log && log[last].Completed?
  }

  ghost predicate LogOk(t: Table, ws: map<WorkerId, Worker>, log: map<AttemptKey, Status>) {
    && (forall k :: k in log ==> k.row in t && k.no <= t[k.row].attempts)
    && (forall w :: w in ws && ws[w].row in t ==> WorkerLogOk(ws[w], t[ws[w].row], log))
    && (forall id :: id in t ==> RowLogOk(id, t[id], log))
  }

  ghost predicate PhaseOk(t: Table, ws: map<WorkerId, Worker>, phase: Phase) {
    && (!phase.Running? ==> ws == map[])
    && (phase.Recovering? ==> forall id :: id in phase.todo ==>
          id in t && id in phase.seen && InFlight(t[id].status) && phase.seen[id].attempts == t[id].attempts)
  }

  ghost predicate Inv(s: State) {
    && RowsOk(s.rows, s.retries)
    && WorkersOk(s.rows, s.workers)
    && PermitsOk(s.workers, s.permits)
    && LogOk(s.rows, s.workers, s.log)
    && PhaseOk(s.rows, s.workers, s.phase)
  }
}
