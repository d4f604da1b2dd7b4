/** Rows in flight and the workers behind them: progress under interleaving, ownership, orphans. */
module DeliveryLife {
  import opened DeliveryRows
  import opened DeliveryProtocol
  import opened DeliveryProofs
  import opened DeliveryTheorems

  // ---------------------------------------------------------------------------------------------
  // One worker among all the others
  // ---------------------------------------------------------------------------------------------

  /** `l` ends the worker from outside. */
  predicate Kills(l: Label, w: WorkerId) { l.Crash? || l == Abort(w) }

  /** The outcomes of the worker's own staging and upload are those of `io`. */
  predicate Agrees(l: Label, w: WorkerId, io: Ios) {
    && (l.Prepared? && l.w == w ==> Io(l.ok, l.retryable) == io.staging)
    && (l.Transferred? && l.w == w ==> Io(l.ok, l.retryable) == io.upload)
  }

  /** The statements of a worker up to its claim. */
  predicate Early(l: Label) { l.SpawnDue? || l.WakeUp? || l.Acquire? || l.CheckStatus? || l.Claim? }

  lemma OtherWorkersEarly(s: State, l: Label, w: WorkerId)
    requires w in s.workers && Live(s.workers[w]) && Early(l)
    ensures w in Step(s, l).workers && Step(s, l).workers[w] == s.workers[w]
  {
  }

  /** The worker goes on with its row, or is gone, or nothing happens; no other worker is touched. */
  ghost predicate OnOrGone(ws: map<WorkerId, Worker>, ws': map<WorkerId, Worker>, w: WorkerId) {
    || ws' == ws || ws' == ws - {w}
    || (w in ws && Live(ws[w]) && w in ws' && ws' == ws[w := ws'[w]] && ws'[w].row == ws[w].row)
  }

  lemma FirstStatements(s: State, w: WorkerId)
    ensures OnOrGone(s.workers, DoReread(s, w).workers, w) && OnOrGone(s.workers, DoLog(s, w).workers, w)
    ensures OnOrGone(s.workers, DoMark(s, w).workers, w)
  {
  }

  lemma IoStatement(s: State, w: WorkerId, here: Pc, next: Pc, ok: bool, retryable: bool)
    requires here.PrepareSource? || here.TransferFile?
    ensures OnOrGone(s.workers, DoIo(s, w, here, next, ok, retryable).workers, w)
  {
  }

  lemma LastStatements(s: State, w: WorkerId, now: Time, next: Time)
    ensures OnOrGone(s.workers, DoFinish(s, w).workers, w) && OnOrGone(s.workers, DoWrite(s, w, now, next).workers, w)
    ensures OnOrGone(s.workers, DoAbort(s, w).workers, w)
  {
  }

  lemma LateWorkers(s: State, l: Label)
    requires OfWorker(l) && !Early(l)
    ensures OnOrGone(s.workers, Step(s, l).workers, l.w)
  {
    hide OnOrGone, DoReread, DoLog, DoIo, DoMark, DoFinish, DoWrite, DoAbort;
    match l
    case Reread(w) => FirstStatements(s, w);
    case LogAttempt(w) => FirstStatements(s, w);
    case Prepared(w, ok, retryable) => IoStatement(s, w, PrepareSource, MarkTransferring, ok, retryable);
    case Marked(w) => FirstStatements(s, w);
    case Transferred(w, ok, retryable) => IoStatement(s, w, TransferFile, LogSuccess, ok, retryable);
    case FinishAttempt(w) => LastStatements(s, w, 0, 0);
    case WriteRow(w, now, next) => LastStatements(s, w, now, next);
    case Abort(w) => LastStatements(s, w, 0, 0);
  }

  lemma ServiceWorkers(s: State, l: Label)
    requires !OfWorker(l)
    ensures Step(s, l).workers == if l.Crash? then map[] else s.workers
  {
  }

  lemma OtherWorkers(s: State, l: Label, w: WorkerId)
    requires w in s.workers && Live(s.workers[w]) && !Own(l, w) && !Kills(l, w)
    ensures w in Step(s, l).workers && Step(s, l).workers[w] == s.workers[w]
  {
    hide Step;
    if !OfWorker(l) {
      ServiceWorkers(s, l);
    } else if Early(l) {
      OtherWorkersEarly(s, l, w);
    } else {
      LateWorkers(s, l);
    }
  }

  /** No step of anybody else touches a live worker or its row. */
  lemma OtherStep(s: State, l: Label, w: WorkerId)
    requires Inv(s) && w in s.workers && Live(s.workers[w]) && !Own(l, w) && !Kills(l, w)
    ensures var s' := Step(s, l); var id := s.workers[w].row;
            w in s'.workers && s'.workers[w] == s.workers[w] && id in s.rows && id in s'.rows && s'.rows[id] == s.rows[id]
  {
    hide RowsOk, PermitsOk, LogOk, Step;
    var id := s.workers[w].row;
    assert WorkerOk(s.workers[w], s.rows[id]);
    OtherWorkers(s, l, w);
    RowStep(s, l, id);
    forall v | v in s.workers && v != w && Live(s.workers[v]) ensures s.workers[v].row != id {
      assert !SameLiveRow(s.workers[v], s.workers[w]);
    }
  }

  /** The statement the worker is about to send. */
  predicate Sends(me: Worker, l: Label) {
    match me.pc
    case ReadBack => l.Reread?
    case InsertAttempt => l.LogAttempt?
    case PrepareSource => l.Prepared?
    case MarkTransferring => l.Marked?
    case TransferFile => l.Transferred?
    case LogSuccess => l.FinishAttempt?
    case LogFailure => l.FinishAttempt?
    case WriteCompleted => l.WriteRow?
    case WriteOutcome => l.WriteRow?
    case _ => false
  }

  lemma OutOfTurn(s: State, l: Label, w: WorkerId)
    requires w in s.workers && Live(s.workers[w]) && Own(l, w) && !Sends(s.workers[w], l)
    ensures Step(s, l) == s
  {
  }

  lemma InTurn(s: State, l: Label, w: WorkerId, io: Ios)
    requires Inv(s) && w in s.workers && Live(s.workers[w]) && Own(l, w) && Sends(s.workers[w], l) && Agrees(l, w, io)
    ensures OnCourse(s, w, Step(s, l), io)
  {
    hide RowsOk, WorkersOk, PermitsOk, LogOk, PhaseOk, OnCourse, DoReread, DoLog, DoIo, DoMark, DoFinish, DoWrite;
    match s.workers[w].pc
    case ReadBack => BeforeIo(s, w, io);
    case InsertAttempt => BeforeIo(s, w, io);
    case PrepareSource => DuringIo(s, w, PrepareSource, MarkTransferring, io);
    case MarkTransferring => BetweenIo(s, w, io);
    case TransferFile => DuringIo(s, w, TransferFile, LogSuccess, io);
    case LogSuccess => AfterIo(s, w, io);
    case LogFailure => AfterIo(s, w, io);
    case WriteCompleted => AtEnd(s, w, io, l.now, l.next);
    case WriteOutcome => AtEnd(s, w, io, l.now, l.next);
  }

  /** The run up to the moment the worker is gone. */
  ghost function Until(s: State, run: seq<Label>, w: WorkerId): State
    decreases |run|
  {
    if run == [] || w !in s.workers then s else Until(Step(s, run[0]), run[1..], w)
  }

  /** How often the worker gets to send its next statement before it is gone. */
  ghost function Turns(s: State, run: seq<Label>, w: WorkerId): nat
    decreases |run|
  {
    if run == [] || w !in s.workers then 0
    else Bit(Own(run[0], w) && Sends(s.workers[w], run[0])) + Turns(Step(s, run[0]), run[1..], w)
  }

  ghost predicate Undisturbed(run: seq<Label>, w: WorkerId, io: Ios) {
    forall i :: 0 <= i < |run| ==> !Kills(run[i], w) && Agrees(run[i], w, io)
  }

  /** Whatever steps fall between its own, a live worker keeps its row until it is done, is done after at
      most `Remaining` turns, and then leaves the row in the status its outcomes demand. */
  lemma {:induction false} WorkerCourse(s: State, run: seq<Label>, w: WorkerId, io: Ios)
    requires Inv(s) && w in s.workers && Live(s.workers[w]) && Undisturbed(run, w, io)
    ensures var u := Until(s, run, w); var id := s.workers[w].row;
            && Inv(u) && id in s.rows && id in u.rows
            && (w in u.workers ==>
                  && Live(u.workers[w]) && u.workers[w].row == id
                  && Turns(s, run, w) + Remaining(u.workers[w].pc) <= Remaining(s.workers[w].pc)
                  && Expected(u.workers[w], u.rows[id], io) == Expected(s.workers[w], s.rows[id], io))
            && (w !in u.workers ==>
                  && Turns(s, run, w) <= Remaining(s.workers[w].pc)
                  && u.rows[id].status == Expected(s.workers[w], s.rows[id], io))
    decreases |run|
  {
    hide RowsOk, WorkersOk, PermitsOk, LogOk, PhaseOk, Step, Expected, Live, Own, Sends;
    if run == [] {
      InFlightRow(s, w);
    } else {
      var l, s' := run[0], Step(s, run[0]);
      assert !Kills(l, w) && Agrees(l, w, io);
      assert Undisturbed(run[1..], w, io);
      StepKeeps(s, l);
      InFlightRow(s, w);
      if !Own(l, w) {
        OtherStep(s, l, w);
      } else if !Sends(s.workers[w], l) {
        OutOfTurn(s, l, w);
      } else {
        InTurn(s, l, w, io);
      }
      if w in s'.workers {
        WorkerCourse(s', run[1..], w, io);
      } else {
        assert Until(s', run[1..], w) == s' && Turns(s', run[1..], w) == 0;
        AtLeastOne(s.workers[w].pc);
      }
    }
  }

  lemma AtLeastOne(pc: Pc)
    ensures Remaining(pc) >= 1
  {
  }

  lemma InFlightRow(s: State, w: WorkerId)
    requires Inv(s) && w in s.workers && Live(s.workers[w])
    ensures s.workers[w].row in s.rows && InFlight(s.rows[s.workers[w].row].status)
  {
    assert WorkerOk(s.workers[w], s.rows[s.workers[w].row]);
  }

  /** The worker of a row whose budget is used up can only end it. */
  lemma LastAttemptEnds(s: State, w: WorkerId, io: Ios)
    requires Inv(s) && w in s.workers && Live(s.workers[w])
    requires s.workers[w].row in s.rows && s.rows[s.workers[w].row].attempts >= s.rows[s.workers[w].row].snap.maxAttempts
    ensures Terminal(Expected(s.workers[w], s.rows[s.workers[w].row], io))
  {
    assert WorkerOk(s.workers[w], s.rows[s.workers[w].row]);
  }

  // ---------------------------------------------------------------------------------------------
  // Every row in flight has its worker
  // ---------------------------------------------------------------------------------------------

  predicate Owner(ws: map<WorkerId, Worker>, w: WorkerId, id: RowId) { w in ws && Live(ws[w]) && ws[w].row == id }

  ghost predicate HasOwner(ws: map<WorkerId, Worker>, id: RowId) { exists w :: Owner(ws, w, id) }

  /** While the process runs, every row in flight has a live worker. */
  ghost predicate Tended(s: State) {
    s.phase.Running? ==> forall id :: id in s.rows && InFlight(s.rows[id].status) ==> HasOwner(s.workers, id)
  }

  /** While recovery runs, every row in flight is still on its list. */
  ghost predicate Tracked(s: State) {
    s.phase.Recovering? ==> forall id :: id in s.rows && InFlight(s.rows[id].status) ==> id in s.phase.todo
  }

  /** The steps that leave a row without a worker: the loss of a live worker, and starting to run while
      rows are in flight. */
  predicate Abandons(s: State, l: Label) {
    || (l.Abort? && l.w in s.workers && Live(s.workers[l.w]))
    || (l.RecoverEnd? && !s.phase.Running? && InFlightRows(s.rows) != {})
  }

  lemma TrackedStep(s: State, l: Label)
    requires Inv(s) && Tracked(s)
    ensures Tracked(Step(s, l))
  {
    hide RowsOk, WorkersOk, PermitsOk, LogOk;
    var s' := Step(s, l);
    if s'.phase.Recovering? {
      forall id | id in s'.rows && InFlight(s'.rows[id].status) ensures id in s'.phase.todo {
        TrackedRow(s, l, id);
      }
    }
  }

  lemma PhaseStep(s: State, l: Label)
    ensures l.RecoverEnd? ==> Step(s, l) == s.(phase := Running)
    ensures l.Crash? ==> Step(s, l) == s.(workers := map[], permits := map[], phase := Down)
    ensures l.RecoverRead? ==> Step(s, l) == DoRecoverRead(s)
    ensures l.RecoverRow? ==> Step(s, l) == DoRecoverRow(s, l.id, l.now)
    ensures !l.RecoverEnd? && !l.Crash? && !l.RecoverRead? && !l.RecoverRow? ==> Step(s, l).phase == s.phase
  {
  }

  lemma TrackedRow(s: State, l: Label, id: RowId)
    requires Inv(s) && Tracked(s) && Step(s, l).phase.Recovering?
    requires id in Step(s, l).rows && InFlight(Step(s, l).rows[id].status)
    ensures id in Step(s, l).phase.todo
  {
    hide RowsOk, WorkersOk, PermitsOk, LogOk, Step;
    PhaseStep(s, l);
    if id !in s.rows {
      NewRow(s, l, id);
    } else if l.RecoverRead? {
      assert id in InFlightRows(s.rows) || !s.phase.Down?;
    } else {
      RowStep(s, l, id);
      assert s.workers == map[];
      assert InFlight(s.rows[id].status);
    }
  }

  lemma NewRow(s: State, l: Label, id: RowId)
    requires Inv(s) && id !in s.rows && id in Step(s, l).rows
    ensures Step(s, l).rows[id].status.Queued?
  {
    NewRowStep(s, l, id);
  }

  /** A row in flight is tended after the step, if the step abandons nobody. */
  lemma OwnerKept(s: State, l: Label, id: RowId)
    requires Inv(s) && Tended(s) && s.phase.Running? && !l.Crash? && !Abandons(s, l)
    requires id in Step(s, l).rows && InFlight(Step(s, l).rows[id].status)
    ensures HasOwner(Step(s, l).workers, id)
  {
    hide RowsOk, WorkersOk, PermitsOk, LogOk, Step;
    var s' := Step(s, l);
    if id !in s.rows {
      NewRow(s, l, id);
    } else {
      RowStep(s, l, id);
      if InFlight(s.rows[id].status) {
        var w :| Owner(s.workers, w, id);
        OwnerStays(s, l, w);
        assert Owner(s'.workers, w, id);
      } else {
        ClaimOwns(s, l, id);
        assert Owner(s'.workers, l.w, id);
      }
    }
  }

  lemma ClaimOwns(s: State, l: Label, id: RowId)
    requires ClaimsRow(s, l, id)
    ensures Owner(Step(s, l).workers, l.w, id)
  {
  }

  lemma OwnerStays(s: State, l: Label, w: WorkerId)
    requires Inv(s) && w in s.workers && Live(s.workers[w]) && !Kills(l, w)
    requires s.workers[w].row in Step(s, l).rows && InFlight(Step(s, l).rows[s.workers[w].row].status)
    ensures Owner(Step(s, l).workers, w, s.workers[w].row)
  {
    hide RowsOk, WorkersOk, PermitsOk, LogOk, PhaseOk, Step, Own, Sends;
    if !Own(l, w) {
      OtherStep(s, l, w);
    } else if !Sends(s.workers[w], l) {
      OutOfTurn(s, l, w);
    } else {
      var io := OutcomesOf(l);
      AgreesOf(l, w);
      InTurn(s, l, w, io);
      SettledStatus(s.workers[w], s.rows[s.workers[w].row], io);
    }
  }

  function OutcomesOf(l: Label): Ios {
    var io := if l.Prepared? || l.Transferred? then Io(l.ok, l.retryable) else Io(true, true);
    Ios(io, io)
  }

  lemma AgreesOf(l: Label, w: WorkerId)
    ensures Agrees(l, w, OutcomesOf(l))
  {
  }

  lemma SettledStatus(w: Worker, r: Row, io: Ios)
    ensures !InFlight(Expected(w, r, io))
  {
  }

  /** A row in flight loses its worker exactly at the steps of `Abandons`. */
  lemma TendedExactly(s: State, l: Label)
    requires Inv(s) && Tended(s) && Tracked(s)
    ensures Tended(Step(s, l)) <==> !Abandons(s, l)
  {
    hide RowsOk, WorkersOk, PermitsOk, LogOk, Step, HasOwner;
    var s' := Step(s, l);
    PhaseStep(s, l);
    if Abandons(s, l) {
      if l.Abort? { AbortOrphans(s, l.w); } else { EarlyEnd(s); }
    } else if s'.phase.Running? && s.phase.Running? {
      forall id | id in s'.rows && InFlight(s'.rows[id].status) ensures HasOwner(s'.workers, id) {
        OwnerKept(s, l, id);
      }
    } else if s'.phase.Running? {
      assert forall id :: id in s.rows && InFlight(s.rows[id].status) ==> id in InFlightRows(s.rows);
    }
  }

  lemma EarlyEnd(s: State)
    requires Inv(s) && !s.phase.Running? && InFlightRows(s.rows) != {}
    ensures !Tended(Step(s, RecoverEnd))
  {
    var id :| id in InFlightRows(s.rows);
    assert Step(s, RecoverEnd).workers == map[];
  }

  /** No step of the run abandons a row. */
  ghost predicate FaithfulRun(s: State, run: seq<Label>)
    decreases |run|
  {
    run == [] || (!Abandons(s, run[0]) && FaithfulRun(Step(s, run[0]), run[1..]))
  }

  lemma {:induction false} TrackedRun(s: State, run: seq<Label>)
    requires Inv(s) && Tracked(s)
    ensures Tracked(Exec(s, run))
    decreases |run|
  {
    hide Inv, Step, Tracked;
    if run != [] {
      StepKeeps(s, run[0]);
      TrackedStep(s, run[0]);
      TrackedRun(Step(s, run[0]), run[1..]);
    }
  }

  lemma {:induction false} TendedRun(s: State, run: seq<Label>)
    requires Inv(s) && Tracked(s) && Tended(s) && FaithfulRun(s, run)
    ensures Tended(Exec(s, run))
    decreases |run|
  {
    hide Inv, Step, Tended, Tracked, Abandons;
    if run != [] {
      StepKeeps(s, run[0]);
      TrackedStep(s, run[0]);
      TendedExactly(s, run[0]);
      TendedRun(Step(s, run[0]), run[1..]);
    }
  }

  /** In every run that loses no live worker and never starts to run over rows in flight, a row in flight
      of a running process has exactly one live worker. */
  lemma ExactlyOneWorker(run: seq<Label>, id: RowId) returns (w: WorkerId)
    requires FaithfulRun(INITIAL, run)
    requires var s := Exec(INITIAL, run); s.phase.Running? && id in s.rows && InFlight(s.rows[id].status)
    ensures var s := Exec(INITIAL, run); Owner(s.workers, w, id) && forall v :: Owner(s.workers, v, id) ==> v == w
  {
    TendedRun(INITIAL, run);
    OneWorker(run);
    var s := Exec(INITIAL, run);
    assert HasOwner(s.workers, id);
    w :| Owner(s.workers, w, id);
    forall v | Owner(s.workers, v, id) ensures v == w { assert SameLiveRow(s.workers[v], s.workers[w]); }
  }

  // ---------------------------------------------------------------------------------------------
  // Orphans
  // ---------------------------------------------------------------------------------------------

  /** A row in flight of a running process that nobody works on. */
  ghost predicate Orphan(s: State, id: RowId) {
    s.phase.Running? && id in s.rows && InFlight(s.rows[id].status) && !HasOwner(s.workers, id)
  }

  /** A worker lost after its claim leaves its row an orphan. */
  lemma AbortOrphans(s: State, w: WorkerId)
    requires Inv(s) && w in s.workers && Live(s.workers[w])
    ensures Orphan(Step(s, Abort(w)), s.workers[w].row)
    ensures !Tended(Step(s, Abort(w)))
  {
    hide RowsOk, PermitsOk, LogOk;
    InFlightRow(s, w);
    var s', id := Step(s, Abort(w)), s.workers[w].row;
    forall v ensures !Owner(s'.workers, v, id) {
      if v in s.workers && v != w { assert !SameLiveRow(s.workers[v], s.workers[w]); }
    }
  }

  lemma NewOwnerEarly(s: State, l: Label, v: WorkerId, id: RowId)
    requires Owner(Step(s, l).workers, v, id) && !Owner(s.workers, v, id) && Early(l)
    ensures ClaimsRow(s, l, id)
  {
  }

  /** Only a claim puts a new live worker behind a row. */
  lemma NewOwner(s: State, l: Label, v: WorkerId, id: RowId)
    ensures Owner(Step(s, l).workers, v, id) ==> Owner(s.workers, v, id) || ClaimsRow(s, l, id)
  {
    hide Step, ClaimsRow;
    if !OfWorker(l) {
      ServiceWorkers(s, l);
    } else if !Early(l) {
      LateWorkers(s, l);
    } else if Owner(Step(s, l).workers, v, id) && !Owner(s.workers, v, id) {
      NewOwnerEarly(s, l, v, id);
    }
  }

  lemma OrphanStep(s: State, l: Label, id: RowId)
    requires Inv(s) && Orphan(s, id) && !l.Crash?
    ensures Orphan(Step(s, l), id) && Step(s, l).rows[id] == s.rows[id]
  {
    hide RowsOk, WorkersOk, PermitsOk, LogOk, PhaseOk, Step;
    var s' := Step(s, l);
    RowStep(s, l, id);
    PhaseStep(s, l);
    if (l.Marked? || l.WriteRow?) && l.w in s.workers { assert !Owner(s.workers, l.w, id); }
    forall v ensures !Owner(s'.workers, v, id) {
      assert !Owner(s.workers, v, id);
      NewOwner(s, l, v, id);
    }
  }

  /** An orphan stays as it is until the process restarts: no worker, retry or cancel can move it. */
  lemma {:induction false} OrphanUntilRestart(s: State, run: seq<Label>, id: RowId)
    requires Inv(s) && Orphan(s, id) && forall i :: 0 <= i < |run| ==> !run[i].Crash?
    ensures Orphan(Exec(s, run), id) && Exec(s, run).rows[id] == s.rows[id]
    decreases |run|
  {
    hide Inv, Step, HasOwner;
    if run != [] {
      StepKeeps(s, run[0]);
      OrphanStep(s, run[0], id);
      OrphanUntilRestart(Step(s, run[0]), run[1..], id);
    }
  }

  /** A recovery that has worked off its list leaves no row in flight. */
  lemma RecoveryComplete(run: seq<Label>, id: RowId)
    requires var s := Exec(INITIAL, run); id in s.rows && s.phase.Recovering? && s.phase.todo == {}
    ensures !InFlight(Exec(INITIAL, run).rows[id].status)
  {
    TrackedRun(INITIAL, run);
  }
}
