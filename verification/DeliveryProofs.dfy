/** Every step of the delivery protocol keeps its invariant. */
module DeliveryProofs {
  import opened Common
  import opened DeliveryRows
  import opened DeliveryProtocol

  // ---------------------------------------------------------------------------------------------
  // One row, one worker
  // ---------------------------------------------------------------------------------------------

  /** Rewriting the mutable columns of one row keeps the table-wide facts. */
  lemma RowWrite(t: Table, retries: map<RowId, nat>, id: RowId, r: Row)
    requires RowsOk(t, retries) && id in t
    requires r.snap == t[id].snap && RowShape(r) && WithinBudget(r, Count(retries, id))
    ensures RowsOk(t[id := r], retries)
  {
  }

  lemma PutWorker(t: Table, ws: map<WorkerId, Worker>, w: WorkerId, me: Worker)
    requires WorkersOk(t, ws) && me.row in t && WorkerOk(me, t[me.row])
    requires Live(me) ==> forall v :: v in ws && v != w ==> !SameLiveRow(ws[v], me)
    ensures WorkersOk(t, ws[w := me])
  {
  }

  lemma DropWorker(t: Table, ws: map<WorkerId, Worker>, w: WorkerId)
    requires WorkersOk(t, ws)
    ensures WorkersOk(t, ws - {w})
  {
  }

  lemma RowUnderWorkers(t: Table, ws: map<WorkerId, Worker>, id: RowId, r: Row)
    requires WorkersOk(t, ws) && id in t
    requires forall w :: w in ws && ws[w].row == id ==> WorkerOk(ws[w], r)
    ensures WorkersOk(t[id := r], ws)
  {
  }

  lemma PutKeepsPermits(ws: map<WorkerId, Worker>, ps: map<DeviceId, WorkerId>, w: WorkerId, me: Worker)
    requires PermitsOk(ws, ps)
    requires w in ws && HoldsPermit(ws[w]) ==> HoldsPermit(me) && me.device == ws[w].device
    requires HoldsPermit(me) ==> w in ws && HoldsPermit(ws[w])
    ensures PermitsOk(ws[w := me], ps)
  {
  }

  /** A direct worker holds no permit, so a permit is never taken away from a task that waits. */
  lemma StartKeepsPermits(ws: map<WorkerId, Worker>, ps: map<DeviceId, WorkerId>, w: WorkerId, me: Worker)
    requires PermitsOk(ws, ps) && w !in ws && !HoldsPermit(me)
    ensures PermitsOk(ws[w := me], ps)
  {
  }

  lemma AcquireKeepsPermits(ws: map<WorkerId, Worker>, ps: map<DeviceId, WorkerId>, w: WorkerId, me: Worker)
    requires PermitsOk(ws, ps) && w in ws && !HoldsPermit(ws[w]) && HoldsPermit(me) && me.device !in ps
    ensures PermitsOk(ws[w := me], ps[me.device := w])
  {
  }

  lemma DropKeepsPermits(ws: map<WorkerId, Worker>, ps: map<DeviceId, WorkerId>, w: WorkerId)
    requires PermitsOk(ws, ps) && w in ws
    ensures PermitsOk(ws - {w}, if HoldsPermit(ws[w]) then ps - {ws[w].device} else ps)
  {
  }

  lemma PutKeepsLog(t: Table, ws: map<WorkerId, Worker>, log: map<AttemptKey, Status>, w: WorkerId, me: Worker)
    requires LogOk(t, ws, log) && me.row in t && WorkerLogOk(me, t[me.row], log)
    ensures LogOk(t, ws[w := me], log)
  {
  }

  lemma DropKeepsLog(t: Table, ws: map<WorkerId, Worker>, log: map<AttemptKey, Status>, w: WorkerId)
    requires LogOk(t, ws, log)
    ensures LogOk(t, ws - {w}, log)
  {
  }

  lemma RowUnderLog(t: Table, ws: map<WorkerId, Worker>, log: map<AttemptKey, Status>, id: RowId, r: Row)
    requires LogOk(t, ws, log) && id in t && t[id].attempts <= r.attempts && RowLogOk(id, r, log)
    requires forall w :: w in ws && ws[w].row == id ==> WorkerLogOk(ws[w], r, log)
    ensures LogOk(t[id := r], ws, log)
  {
  }

  /** A worker advances without leaving or entering the set of live workers. */
  lemma Move(s: State, w: WorkerId, me: Worker)
    requires Inv(s) && w in s.workers
    requires me.row == s.workers[w].row && me.device == s.workers[w].device
    requires HoldsPermit(me) == HoldsPermit(s.workers[w]) && (Live(me) ==> Live(s.workers[w]))
    requires WorkerOk(me, s.rows[me.row]) && WorkerLogOk(me, s.rows[me.row], s.log)
    ensures Inv(Put(s, w, me))
  {
    PutWorker(s.rows, s.workers, w, me);
    PutKeepsPermits(s.workers, s.permits, w, me);
    PutKeepsLog(s.rows, s.workers, s.log, w, me);
  }

  lemma End(s: State, w: WorkerId)
    requires Inv(s) && w in s.workers
    ensures Inv(Ended(s, w))
  {
    DropWorker(s.rows, s.workers, w);
    DropKeepsPermits(s.workers, s.permits, w);
    DropKeepsLog(s.rows, s.workers, s.log, w);
  }

  /** A write to a row that no live worker holds and recovery does not await. */
  lemma FreeRowWrite(s: State, id: RowId, r: Row)
    requires Inv(s) && id in s.rows && !InFlight(s.rows[id].status)
    requires r.snap == s.rows[id].snap && r.attempts == s.rows[id].attempts && !r.status.Completed?
    requires RowShape(r) && WithinBudget(r, Count(s.retries, id))
    ensures Inv(s.(rows := s.rows[id := r]))
  {
    hide RowsOk, PermitsOk;
    RowWrite(s.rows, s.retries, id, r);
    RowUnderWorkers(s.rows, s.workers, id, r);
    RowUnderLog(s.rows, s.workers, s.log, id, r);
  }

  // ---------------------------------------------------------------------------------------------
  // Every step keeps the invariant
  // ---------------------------------------------------------------------------------------------

  /** A new row has no worker, no log entry and no manual retry. */
  lemma InsertRow(s: State, id: RowId, r: Row)
    requires Inv(s) && id !in s.rows && r.status.Queued? && !HasKey(s.rows, r.snap.key)
    requires RowShape(r) && WithinBudget(r, 0)
    ensures Inv(s.(rows := s.rows[id := r]))
  {
    var t := s.rows[id := r];
    assert RowsOk(t, s.retries);
    NewRowUnderWorkers(s.rows, s.workers, id, r);
    NewRowUnderLog(s.rows, s.workers, s.log, id, r);
  }

  lemma NewRowUnderWorkers(t: Table, ws: map<WorkerId, Worker>, id: RowId, r: Row)
    requires WorkersOk(t, ws) && id !in t
    ensures WorkersOk(t[id := r], ws)
  {
  }

  lemma NewRowUnderLog(t: Table, ws: map<WorkerId, Worker>, log: map<AttemptKey, Status>, id: RowId, r: Row)
    requires LogOk(t, ws, log) && WorkersOk(t, ws) && id !in t && r.status.Queued?
    ensures LogOk(t[id := r], ws, log)
  {
  }

  lemma EnqueueKeeps(s: State, id: RowId, snap: Snapshot)
    requires Inv(s)
    ensures Inv(DoEnqueue(s, id, snap))
  {
    if snap.maxAttempts > 0 && id !in s.rows && !HasKey(s.rows, snap.key) {
      InsertRow(s, id, Row(snap, Queued, 0, None, None, None));
    }
  }

  lemma StartKeeps(s: State, w: WorkerId, id: RowId, gated: bool)
    requires Inv(s) && s.phase.Running? && w !in s.workers && id in s.rows
    ensures Inv(Start(s, w, id, gated))
  {
    var me := Start(s, w, id, gated).workers[w];
    PutWorker(s.rows, s.workers, w, me);
    StartKeepsPermits(s.workers, s.permits, w, me);
    PutKeepsLog(s.rows, s.workers, s.log, w, me);
  }

  lemma AcquireKeeps(s: State, w: WorkerId)
    requires Inv(s)
    ensures Inv(DoAcquire(s, w))
  {
    if At(s, w, AwaitPermit) && s.workers[w].device !in s.permits {
      var me := s.workers[w].(pc := ReadStatus);
      PutWorker(s.rows, s.workers, w, me);
      AcquireKeepsPermits(s.workers, s.permits, w, me);
      PutKeepsLog(s.rows, s.workers, s.log, w, me);
    }
  }

  lemma CheckKeeps(s: State, w: WorkerId)
    requires Inv(s)
    ensures Inv(DoCheck(s, w))
  {
    if At(s, w, ReadStatus) {
      if Cancellable(s.rows, s.workers[w].row) {
        Move(s, w, s.workers[w].(pc := SendClaim));
      } else {
        End(s, w);
      }
    }
  }

  /** The claimed row had no live worker, because a queued status fits none of them. */
  lemma ClaimKeeps(s: State, w: WorkerId, now: Time)
    requires Inv(s)
    ensures Inv(DoClaim(s, w, now))
  {
    if At(s, w, SendClaim) {
      if Claimable(s.rows, s.workers[w].row, now) {
        ClaimedKeeps(s, w, s.workers[w].row, Claimed(s.rows, s.workers[w].row, now)[s.workers[w].row]);
      } else {
        End(s, w);
      }
    }
  }

  lemma ClaimedKeeps(s: State, w: WorkerId, id: RowId, r: Row)
    requires Inv(s) && At(s, w, SendClaim) && s.workers[w].row == id && id in s.rows && s.rows[id].status.Queued?
    requires r.snap == s.rows[id].snap && r.status.Preparing? && r.attempts == s.rows[id].attempts + 1 && RowShape(r)
    ensures Inv(Goto(s, w, ReadBack).(rows := s.rows[id := r]))
  {
    var me := s.workers[w].(pc := ReadBack);
    RowWrite(s.rows, s.retries, id, r);
    EnterRow(s.rows, s.workers, s.log, w, r, me);
    PutKeepsPermits(s.workers, s.permits, w, me);
  }

  lemma EnterRow(t: Table, ws: map<WorkerId, Worker>, log: map<AttemptKey, Status>, w: WorkerId, r: Row, me: Worker)
    requires WorkersOk(t, ws) && LogOk(t, ws, log) && w in ws && ws[w].pc.SendClaim? && me == ws[w].(pc := ReadBack)
    requires t[me.row].status.Queued? && r.status.Preparing?
    requires r.snap == t[me.row].snap && r.attempts == t[me.row].attempts + 1
    ensures WorkersOk(t[me.row := r], ws[w := me]) && LogOk(t[me.row := r], ws[w := me], log)
  {
    RowUnderWorkers(t, ws, me.row, r);
    PutWorker(t[me.row := r], ws, w, me);
    RowUnderLog(t, ws, log, me.row, r);
    PutKeepsLog(t[me.row := r], ws, log, w, me);
  }

  lemma RereadKeeps(s: State, w: WorkerId)
    requires Inv(s)
    ensures Inv(DoReread(s, w))
  {
    if At(s, w, ReadBack) {
      Move(s, w, AfterRead(s.workers[w], s.rows[s.workers[w].row]));
    }
  }

  /** Adding or updating the log entry of one live worker's current attempt. */
  lemma WriteLog(t: Table, ws: map<WorkerId, Worker>, log: map<AttemptKey, Status>, w: WorkerId, me: Worker, status: Status)
    requires WorkersOk(t, ws) && LogOk(t, ws, log) && w in ws && HasRead(ws[w])
    requires me.row == ws[w].row && me.no == ws[w].no && HasLogged(me)
    requires (me.pc.WriteCompleted? ==> status.Completed?) && (me.pc.WriteOutcome? ==> status.Failed?)
    ensures LogOk(t, ws[w := me], log[KeyOf(me) := status])
  {
    assert InFlight(t[me.row].status);
  }

  /** The unique index on queue row and attempt number is never hit: the insert always succeeds. */
  lemma LogKeeps(s: State, w: WorkerId)
    requires Inv(s)
    ensures Inv(DoLog(s, w))
    ensures At(s, w, InsertAttempt) ==> At(DoLog(s, w), w, PrepareSource)
  {
    hide RowsOk, PermitsOk;
    if At(s, w, InsertAttempt) {
      var me := s.workers[w].(pc := PrepareSource);
      PutWorker(s.rows, s.workers, w, me);
      PutKeepsPermits(s.workers, s.permits, w, me);
      WriteLog(s.rows, s.workers, s.log, w, me, Preparing);
    }
  }

  lemma IoKeeps(s: State, w: WorkerId, here: Pc, next: Pc, ok: bool, retryable: bool)
    requires Inv(s)
    requires (here == PrepareSource && next == MarkTransferring) || (here == TransferFile && next == LogSuccess)
    ensures Inv(DoIo(s, w, here, next, ok, retryable))
  {
    if At(s, w, here) {
      Move(s, w, if ok then s.workers[w].(pc := next) else AfterFailure(s.workers[w], retryable));
    }
  }

  lemma MarkKeeps(s: State, w: WorkerId)
    requires Inv(s)
    ensures Inv(DoMark(s, w))
  {
    if At(s, w, MarkTransferring) {
      MarkedKeeps(s, w, s.workers[w].row);
    }
  }

  lemma MarkedKeeps(s: State, w: WorkerId, id: RowId)
    requires Inv(s) && At(s, w, MarkTransferring) && s.workers[w].row == id
    ensures id in s.rows
    ensures Inv(Goto(s, w, TransferFile).(rows := s.rows[id := s.rows[id].(status := Transferring)]))
  {
    hide PermitsOk, UniqueKeys;
    var me := s.workers[w].(pc := TransferFile);
    var r := s.rows[id].(status := Transferring);
    RowWrite(s.rows, s.retries, id, r);
    OwnedRowWrite(s.rows, s.workers, w, id, r, me);
    PutKeepsPermits(s.workers, s.permits, w, me);
    RowUnderLog(s.rows, s.workers, s.log, id, r);
    PutKeepsLog(s.rows[id := r], s.workers, s.log, w, me);
  }

  /** A live worker and its row change together; no other live worker looks at the row. */
  lemma OwnedRowWrite(t: Table, ws: map<WorkerId, Worker>, w: WorkerId, id: RowId, r: Row, me: Worker)
    requires WorkersOk(t, ws) && w in ws && ws[w].row == id == me.row && Live(ws[w]) && Live(me)
    requires r.snap == t[id].snap && WorkerOk(me, r)
    ensures WorkersOk(t[id := r], ws[w := me])
  {
  }

  lemma FinishKeeps(s: State, w: WorkerId)
    requires Inv(s)
    ensures Inv(DoFinish(s, w))
  {
    if At(s, w, LogSuccess) {
      FinishedKeeps(s, w, Completed, WriteCompleted);
    } else if At(s, w, LogFailure) {
      FinishedKeeps(s, w, Failed, WriteOutcome);
    }
  }

  lemma FinishedKeeps(s: State, w: WorkerId, status: Status, pc: Pc)
    requires Inv(s) && w in s.workers
    requires (s.workers[w].pc.LogSuccess? && status.Completed? && pc.WriteCompleted?)
          || (s.workers[w].pc.LogFailure? && status.Failed? && pc.WriteOutcome?)
    ensures Inv(Finished(s, w, status, pc))
  {
    hide RowsOk, PermitsOk;
    var me := s.workers[w].(pc := pc);
    PutWorker(s.rows, s.workers, w, me);
    PutKeepsPermits(s.workers, s.permits, w, me);
    WriteLog(s.rows, s.workers, s.log, w, me, status);
  }

  lemma WriteKeeps(s: State, w: WorkerId, now: Time, next: Time)
    requires Inv(s)
    ensures Inv(DoWrite(s, w, now, next))
  {
    if At(s, w, WriteCompleted) || At(s, w, WriteOutcome) {
      WrittenKeeps(s, w, s.workers[w].row, Outcome(s.rows, s.workers[w], now, next)[s.workers[w].row]);
    }
  }

  /** The worker leaves first; its row is then free of live workers. */
  lemma WrittenKeeps(s: State, w: WorkerId, id: RowId, r: Row)
    requires Inv(s) && w in s.workers && s.workers[w].row == id && id in s.rows
    requires s.workers[w].pc.WriteCompleted? || s.workers[w].pc.WriteOutcome?
    requires r.snap == s.rows[id].snap && r.attempts == s.rows[id].attempts && RowShape(r) && !InFlight(r.status)
    requires r.status.Completed? ==> s.workers[w].pc.WriteCompleted?
    requires r.status.Queued? ==> s.workers[w].retry
    ensures Inv(Ended(s, w).(rows := s.rows[id := r]))
  {
    RowWrite(s.rows, s.retries, id, r);
    LeaveRow(s.rows, s.workers, s.log, w, r);
    DropKeepsPermits(s.workers, s.permits, w);
  }

  lemma LeaveRow(t: Table, ws: map<WorkerId, Worker>, log: map<AttemptKey, Status>, w: WorkerId, r: Row)
    requires WorkersOk(t, ws) && LogOk(t, ws, log) && w in ws && Live(ws[w]) && HasRead(ws[w])
    requires r.snap == t[ws[w].row].snap && r.attempts == t[ws[w].row].attempts
    requires r.status.Completed? ==> ws[w].pc.WriteCompleted?
    ensures WorkersOk(t[ws[w].row := r], ws - {w}) && LogOk(t[ws[w].row := r], ws - {w}, log)
  {
    DropWorker(t, ws, w);
    DropKeepsLog(t, ws, log, w);
    RowUnderWorkers(t, ws - {w}, ws[w].row, r);
    RowUnderLog(t, ws - {w}, log, ws[w].row, r);
  }

  lemma RetryKeeps(s: State, id: RowId)
    requires Inv(s)
    ensures Inv(DoRetry(s, id))
  {
    hide WorkersOk, PermitsOk, LogOk, PhaseOk, UniqueKeys;
    if Retryable(s.rows, id) {
      var more := s.retries[id := Count(s.retries, id) + 1];
      CountRetry(s.rows, s.retries, id);
      FreeRowWrite(s.(retries := more), id, Retried(s.rows, id)[id]);
    }
  }

  lemma CountRetry(t: Table, retries: map<RowId, nat>, id: RowId)
    requires RowsOk(t, retries) && id in t
    ensures RowsOk(t, retries[id := Count(retries, id) + 1])
  {
  }

  lemma CancelKeeps(s: State, id: RowId, now: Time)
    requires Inv(s)
    ensures Inv(s.(rows := CancelledRow(s.rows, id, now)))
  {
    if Cancellable(s.rows, id) {
      FreeRowWrite(s, id, CancelledRow(s.rows, id, now)[id]);
    }
  }

  lemma RecoverKeeps(s: State, id: RowId, now: Time)
    requires Inv(s)
    ensures Inv(DoRecoverRow(s, id, now))
  {
    if s.phase.Recovering? && id in s.phase.todo {
      var r := RestartedRow(s.rows[id], s.phase.seen[id].attempts, now);
      RowWrite(s.rows, s.retries, id, r);
      RowUnderWorkers(s.rows, s.workers, id, r);
      RowUnderLog(s.rows, s.workers, s.log, id, r);
    }
  }

  lemma CrashKeeps(s: State)
    requires Inv(s)
    ensures Inv(s.(workers := map[], permits := map[], phase := Down))
  {
    NoWorkers(s.rows, s.workers, s.log);
  }

  lemma NoWorkers(t: Table, ws: map<WorkerId, Worker>, log: map<AttemptKey, Status>)
    requires LogOk(t, ws, log)
    ensures WorkersOk(t, map[]) && PermitsOk(map[], map[]) && LogOk(t, map[], log)
  {
  }

  lemma RecoverReadKeeps(s: State)
    requires Inv(s)
    ensures Inv(DoRecoverRead(s)) && Inv(s.(phase := Running))
  {
  }

  lemma SpawnKeeps(s: State, w: WorkerId, id: RowId, now: Time)
    requires Inv(s)
    ensures Inv(DoSpawn(s, w, id, now)) && Inv(DoWakeUp(s, w, id))
  {
    hide Inv;
    if DoSpawn(s, w, id, now) != s { StartKeeps(s, w, id, true); }
    if DoWakeUp(s, w, id) != s { StartKeeps(s, w, id, false); }
  }

  lemma AbortKeeps(s: State, w: WorkerId)
    requires Inv(s)
    ensures Inv(DoAbort(s, w))
  {
    hide Inv;
    if w in s.workers { End(s, w); }
  }

  predicate OfWorker(l: Label) { !(l.Enqueue? || l.Retry? || l.Cancel? || l.Crash? || l.RecoverRead? || l.RecoverRow? || l.RecoverEnd?) }

  lemma WorkerStepKeeps(s: State, l: Label)
    requires Inv(s) && OfWorker(l)
    ensures Inv(Step(s, l))
  {
    hide Inv, DoEnqueue, DoSpawn, DoWakeUp, DoAcquire, DoCheck, DoClaim, DoReread, DoLog, DoIo, DoMark, DoFinish, DoWrite, DoAbort,
         DoRetry, DoRecoverRead, DoRecoverRow, CancelledRow;
    match l
    case SpawnDue(w, id, now) => SpawnKeeps(s, w, id, now);
    case WakeUp(w, id) => SpawnKeeps(s, w, id, 0);
    case Acquire(w) => AcquireKeeps(s, w);
    case CheckStatus(w) => CheckKeeps(s, w);
    case Claim(w, now) => ClaimKeeps(s, w, now);
    case Reread(w) => RereadKeeps(s, w);
    case LogAttempt(w) => LogKeeps(s, w);
    case Prepared(w, ok, retryable) => IoKeeps(s, w, PrepareSource, MarkTransferring, ok, retryable);
    case Marked(w) => MarkKeeps(s, w);
    case Transferred(w, ok, retryable) => IoKeeps(s, w, TransferFile, LogSuccess, ok, retryable);
    case FinishAttempt(w) => FinishKeeps(s, w);
    case WriteRow(w, now, next) => WriteKeeps(s, w, now, next);
    case Abort(w) => AbortKeeps(s, w);
  }

  lemma ServiceStepKeeps(s: State, l: Label)
    requires Inv(s) && !OfWorker(l)
    ensures Inv(Step(s, l))
  {
    hide Inv, DoEnqueue, DoSpawn, DoWakeUp, DoAcquire, DoCheck, DoClaim, DoReread, DoLog, DoIo, DoMark, DoFinish, DoWrite, DoAbort,
         DoRetry, DoRecoverRead, DoRecoverRow, CancelledRow;
    match l
    case Enqueue(id, snap) => EnqueueKeeps(s, id, snap);
    case Retry(id) => RetryKeeps(s, id);
    case Cancel(id, now) => CancelKeeps(s, id, now);
    case Crash => CrashKeeps(s);
    case RecoverRead => RecoverReadKeeps(s);
    case RecoverRow(id, now) => RecoverKeeps(s, id, now);
    case RecoverEnd => RecoverReadKeeps(s);
  }

  lemma StepKeeps(s: State, l: Label)
    requires Inv(s)
    ensures Inv(Step(s, l))
  {
    hide Inv, Step;
    if OfWorker(l) { WorkerStepKeeps(s, l); } else { ServiceStepKeeps(s, l); }
  }
}
