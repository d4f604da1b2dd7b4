/** What holds in every run of the delivery queue. */
module DeliveryTheorems {
  import opened Common
  import opened DeliveryRows
  import opened DeliveryProtocol
  import opened DeliveryProofs

  lemma {:induction false} RunKeeps(s: State, run: seq<Label>)
    requires Inv(s)
    ensures Inv(Exec(s, run))
    decreases |run|
  {
    if run != [] {
      StepKeeps(s, run[0]);
      RunKeeps(Step(s, run[0]), run[1..]);
    }
  }

  predicate SamePermit(v: Worker, w: Worker) { HoldsPermit(v) && HoldsPermit(w) && v.device == w.device }

  /** At every moment of every run a row has at most one worker past its claim, a device has at most
      one worker holding its permit, and each of the unconditional writes still to come is aimed at a
      row that is in flight. */
  lemma OneWorker(run: seq<Label>)
    ensures var s := Exec(INITIAL, run);
            && (forall v, w :: v in s.workers && w in s.workers && SameLiveRow(s.workers[v], s.workers[w]) ==> v == w)
            && (forall v, w :: v in s.workers && w in s.workers && SamePermit(s.workers[v], s.workers[w]) ==> v == w)
            && (forall w :: w in s.workers && Live(s.workers[w]) ==>
                 s.workers[w].row in s.rows && InFlight(s.rows[s.workers[w].row].status))
  {
    RunKeeps(INITIAL, run);
    var s := Exec(INITIAL, run);
    assert WorkersOk(s.rows, s.workers);
    forall w | w in s.workers && Live(s.workers[w])
      ensures s.workers[w].row in s.rows && InFlight(s.rows[s.workers[w].row].status)
    {
      assert WorkerOk(s.workers[w], s.rows[s.workers[w].row]);
    }
  }

  // ---------------------------------------------------------------------------------------------
  // Rows over time
  // ---------------------------------------------------------------------------------------------

  /** A worker's claim hits its row: the row is queued and due. */
  predicate ClaimsRow(s: State, l: Label, id: RowId) {
    && l.Claim? && At(s, l.w, SendClaim) && s.workers[l.w].row == id
    && id in s.rows && s.rows[id].status.Queued? && (s.rows[id].nextAt.None? || s.rows[id].nextAt.value <= l.now)
  }

  predicate RetriesRow(s: State, l: Label, id: RowId) { l.Retry? && l.id == id && id in s.rows && s.rows[id].status.Failed? }

  predicate CancelsRow(s: State, l: Label, id: RowId) { l.Cancel? && l.id == id && id in s.rows && s.rows[id].status.Queued? }

  predicate MarksRow(s: State, l: Label, id: RowId) { l.Marked? && At(s, l.w, MarkTransferring) && s.workers[l.w].row == id }

  /** A worker writes the outcome it has reached. */
  predicate EndsRow(s: State, l: Label, id: RowId) {
    l.WriteRow? && (At(s, l.w, WriteCompleted) || At(s, l.w, WriteOutcome)) && s.workers[l.w].row == id
  }

  predicate RecoversRow(s: State, l: Label, id: RowId) {
    l.RecoverRow? && l.id == id && s.phase.Recovering? && id in s.phase.todo
  }

  function Bit(b: bool): nat { if b then 1 else 0 }

  /** The steps that move row `id`. */
  predicate Moves(s: State, l: Label, id: RowId) {
    ClaimsRow(s, l, id) || RetriesRow(s, l, id) || CancelsRow(s, l, id) || MarksRow(s, l, id) || EndsRow(s, l, id) || RecoversRow(s, l, id)
  }

  /** The row after its worker's last write: completed, queued for a later try, or failed. */
  function Ending(s: State, l: Label, r: Row): Row
    requires l.WriteRow? && l.w in s.workers
  {
    if s.workers[l.w].pc.WriteCompleted? then r.(status := Completed, nextAt := None, startedAt := None, completedAt := Some(l.now))
    else if s.workers[l.w].retry then r.(status := Queued, nextAt := Some(l.next), startedAt := None, completedAt := None)
    else r.(status := Failed, nextAt := None, startedAt := None, completedAt := Some(l.now))
  }

  /** The edges of a row's life, column by column, each with the step that takes it. */
  predicate Edge(s: State, l: Label, id: RowId, r: Row, r': Row) {
    match r.status
    case Queued =>
      || (ClaimsRow(s, l, id) && r' == r.(status := Preparing, attempts := r.attempts + 1, startedAt := Some(l.now)))
      || (CancelsRow(s, l, id) && r' == r.(status := Cancelled, nextAt := None, completedAt := Some(l.now)))
    case Failed => RetriesRow(s, l, id) && r' == r.(status := Queued, nextAt := None, startedAt := None, completedAt := None)
    case Completed => false
    case Cancelled => false
    case _ =>
      || (MarksRow(s, l, id) && r.status.Preparing? && r' == r.(status := Transferring))
      || (EndsRow(s, l, id) && r' == Ending(s, l, r)
          && (r'.status.Completed? ==> r.status.Transferring?) && (r'.status.Queued? ==> r.attempts < r.snap.maxAttempts))
      || (RecoversRow(s, l, id)
          && r' == if r.attempts < r.snap.maxAttempts
                   then r.(status := Queued, nextAt := Some(l.now), startedAt := None, completedAt := None)
                   else r.(status := Failed, nextAt := None, startedAt := None, completedAt := Some(l.now)))
  }

  /** What one step does to a row that exists: exactly one edge if it is a step that moves the row, and
      nothing otherwise. */
  ghost predicate RowEvolves(s: State, l: Label, s': State, id: RowId)
    requires id in s.rows
  {
    && id in s'.rows
    && s'.rows[id].snap == s.rows[id].snap
    && s'.rows[id].attempts == s.rows[id].attempts + Bit(ClaimsRow(s, l, id))
    && (if Moves(s, l, id) then Edge(s, l, id, s.rows[id], s'.rows[id]) else s'.rows[id] == s.rows[id])
  }

  lemma RowStep(s: State, l: Label, id: RowId)
    requires Inv(s) && id in s.rows
    ensures RowEvolves(s, l, Step(s, l), id)
  {
    hide RowsOk, WorkersOk, PermitsOk, LogOk, PhaseOk, RowEvolves;
    match l
    case Marked(w) => WorkerRowStep(s, l, w, id);
    case WriteRow(w, now, next) => WorkerRowStep(s, l, w, id);
    case RecoverRow(id', now) => RecoverRowStep(s, id', now, id);
    case Claim(w, now) => ClaimRowStep(s, w, now, id);
    case Enqueue(_, _) => CommandRowStep(s, l, id);
    case Retry(_) => CommandRowStep(s, l, id);
    case Cancel(_, _) => CommandRowStep(s, l, id);
    case _ => QuietRowStep(s, l, id);
  }

  predicate Quiet(l: Label) {
    !(l.Marked? || l.WriteRow? || l.RecoverRow? || l.Claim? || l.Enqueue? || l.Retry? || l.Cancel?)
  }

  lemma QuietRowStep(s: State, l: Label, id: RowId)
    requires id in s.rows && Quiet(l)
    ensures RowEvolves(s, l, Step(s, l), id)
  {
  }

  lemma CommandRowStep(s: State, l: Label, id: RowId)
    requires id in s.rows && (l.Enqueue? || l.Retry? || l.Cancel?)
    ensures RowEvolves(s, l, Step(s, l), id)
  {
  }

  lemma ClaimRowStep(s: State, w: WorkerId, now: Time, id: RowId)
    requires id in s.rows
    ensures RowEvolves(s, Claim(w, now), Step(s, Claim(w, now)), id)
  {
  }

  lemma RecoverRowStep(s: State, id': RowId, now: Time, id: RowId)
    requires PhaseOk(s.rows, s.workers, s.phase) && id in s.rows
    ensures RowEvolves(s, RecoverRow(id', now), Step(s, RecoverRow(id', now)), id)
  {
  }

  /** The two unconditional writes of a worker hit a row in flight, or nothing. */
  lemma WorkerRowStep(s: State, l: Label, w: WorkerId, id: RowId)
    requires WorkersOk(s.rows, s.workers) && id in s.rows
    requires l == Marked(w) || (l.WriteRow? && l.w == w)
    ensures RowEvolves(s, l, Step(s, l), id)
  {
    if w in s.workers && Live(s.workers[w]) {
      assert InFlight(s.rows[s.workers[w].row].status);
    }
  }

  /** A row that is not there can only appear fresh. */
  lemma NewRowStep(s: State, l: Label, id: RowId)
    requires RowsOk(s.rows, s.retries) && id !in s.rows
    ensures id in Step(s, l).rows ==> Step(s, l).rows[id].attempts == 0 && Step(s, l).rows[id].status.Queued?
    ensures !ClaimsRow(s, l, id) && !RetriesRow(s, l, id) && Count(s.retries, id) == 0
  {
  }

  lemma RetryStep(s: State, l: Label, id: RowId)
    ensures Count(Step(s, l).retries, id) == Count(s.retries, id) + Bit(RetriesRow(s, l, id))
  {
  }

  /** Completed and Cancelled are absorbing: from then on the whole row never changes, whatever
      workers, commands, aborts and restarts follow.  Snapshot columns never change in any row. */
  lemma {:induction false} RowForever(s: State, run: seq<Label>, id: RowId)
    requires Inv(s) && id in s.rows
    ensures id in Exec(s, run).rows
    ensures Exec(s, run).rows[id].snap == s.rows[id].snap
    ensures s.rows[id].status.Completed? || s.rows[id].status.Cancelled? ==> Exec(s, run).rows[id] == s.rows[id]
    decreases |run|
  {
    if run != [] {
      StepKeeps(s, run[0]);
      RowStep(s, run[0], id);
      RowForever(Step(s, run[0]), run[1..], id);
    }
  }

  function Claims(s: State, run: seq<Label>, id: RowId): nat
    decreases |run|
  {
    if run == [] then 0 else Bit(ClaimsRow(s, run[0], id)) + Claims(Step(s, run[0]), run[1..], id)
  }

  function ManualRetries(s: State, run: seq<Label>, id: RowId): nat
    decreases |run|
  {
    if run == [] then 0 else Bit(RetriesRow(s, run[0], id)) + ManualRetries(Step(s, run[0]), run[1..], id)
  }

  lemma {:induction false} Accounting(s: State, run: seq<Label>, id: RowId)
    requires Inv(s)
    ensures Count(Exec(s, run).retries, id) == Count(s.retries, id) + ManualRetries(s, run, id)
    ensures id in Exec(s, run).rows ==>
              Exec(s, run).rows[id].attempts == (if id in s.rows then s.rows[id].attempts else 0) + Claims(s, run, id)
    decreases |run|
  {
    if run != [] {
      var s' := Step(s, run[0]);
      StepKeeps(s, run[0]);
      RetryStep(s, run[0], id);
      if id in s.rows {
        RowStep(s, run[0], id);
      } else {
        NewRowStep(s, run[0], id);
      }
      Accounting(s', run[1..], id);
    }
  }

  /** The stored attempt number is the number of claims the row has had, and the claims never exceed
      the budget plus the manual retries.  A queued row has at least one claim left, so without manual
      retries a row claimed max_attempts times is never queued again, even across restarts. */
  lemma ClaimBound(run: seq<Label>, id: RowId)
    requires id in Exec(INITIAL, run).rows
    ensures var r := Exec(INITIAL, run).rows[id];
            && r.attempts == Claims(INITIAL, run, id)
            && Claims(INITIAL, run, id) <= r.snap.maxAttempts + ManualRetries(INITIAL, run, id)
            && (r.status.Queued? ==> Claims(INITIAL, run, id) < r.snap.maxAttempts + ManualRetries(INITIAL, run, id))
  {
    RunKeeps(INITIAL, run);
    Accounting(INITIAL, run, id);
    var s := Exec(INITIAL, run);
    assert WithinBudget(s.rows[id], Count(s.retries, id));
  }

  /** The columns a reader relies on, and what the attempt log says about a row. */
  lemma ReachableRows(run: seq<Label>)
    ensures var s := Exec(INITIAL, run);
            forall id :: id in s.rows ==>
              && (s.rows[id].completedAt.Some? <==> Terminal(s.rows[id].status))
              && (s.rows[id].startedAt.Some? <==> InFlight(s.rows[id].status))
              && (Terminal(s.rows[id].status) ==> s.rows[id].nextAt.None?)
              && (forall no: nat :: AttemptKey(id, no) in s.log ==> no <= s.rows[id].attempts)
              && (s.rows[id].status.Completed? ==>
                    AttemptKey(id, s.rows[id].attempts) in s.log
                    && s.log[AttemptKey(id, s.rows[id].attempts)].Completed?)
  {
    RunKeeps(INITIAL, run);
    var s := Exec(INITIAL, run);
    forall id | id in s.rows ensures RowShape(s.rows[id]) && RowLogOk(id, s.rows[id], s.log) {
    }
  }

  /** One idempotency key names one row for ever, and enqueuing it again changes nothing at all. */
  lemma EnqueueOnce(run: seq<Label>, more: seq<Label>, a: RowId, b: RowId, id: RowId)
    requires a in Exec(INITIAL, run).rows && b in Exec(Exec(INITIAL, run), more).rows
    requires Exec(INITIAL, run).rows[a].snap.key == Exec(Exec(INITIAL, run), more).rows[b].snap.key
    ensures a == b
    ensures forall snap: Snapshot :: snap.key == Exec(INITIAL, run).rows[a].snap.key ==>
              Step(Exec(INITIAL, run), Enqueue(id, snap)) == Exec(INITIAL, run)
  {
    RunKeeps(INITIAL, run);
    var s := Exec(INITIAL, run);
    RunKeeps(s, more);
    RowForever(s, more, a);
    var s' := Exec(s, more);
    assert RowsOk(s'.rows, s'.retries) && UniqueKeys(s'.rows);
    assert s'.rows[a].snap.key == s'.rows[b].snap.key;
  }

  // ---------------------------------------------------------------------------------------------
  // What one worker does when nothing else happens
  // ---------------------------------------------------------------------------------------------

  function Remaining(pc: Pc): nat {
    match pc
    case ReadBack => 8
    case InsertAttempt => 7
    case PrepareSource => 6
    case MarkTransferring => 5
    case TransferFile => 4
    case LogSuccess => 2
    case LogFailure => 2
    case _ => 1
  }

  /** A statement of worker `w` after its claim. */
  predicate Own(l: Label, w: WorkerId) {
    (l.Reread? || l.LogAttempt? || l.Prepared? || l.Marked? || l.Transferred? || l.FinishAttempt? || l.WriteRow?) && l.w == w
  }

  /** How staging and uploading turn out. */
  datatype Io = Io(ok: bool, retryable: bool)
  datatype Ios = Ios(staging: Io, upload: Io)

  function Undone(r: Row, retryable: bool): Status {
    if retryable && r.attempts < r.snap.maxAttempts then Queued else Failed
  }

  /** The status the row must end in, seen from anywhere along the way. */
  function Expected(w: Worker, r: Row, io: Ios): Status {
    match w.pc
    case LogSuccess => Completed
    case WriteCompleted => Completed
    case LogFailure => if w.retry then Queued else Failed
    case WriteOutcome => if w.retry then Queued else Failed
    case MarkTransferring => if io.upload.ok then Completed else Undone(r, io.upload.retryable)
    case TransferFile => if io.upload.ok then Completed else Undone(r, io.upload.retryable)
    case _ =>
      if !io.staging.ok then Undone(r, io.staging.retryable)
      else if io.upload.ok then Completed else Undone(r, io.upload.retryable)
  }

  /** One step of a live worker: it gets closer to its end, touches no other row, and does not change
      what its own row will end in. */
  ghost predicate OnCourse(s: State, w: WorkerId, s': State, io: Ios)
    requires w in s.workers
  {
    var me := s.workers[w];
    && me.row in s.rows && me.row in s'.rows
    && s'.rows == s.rows[me.row := s'.rows[me.row]]
    && (w in s'.workers ==>
          && Live(s'.workers[w]) && s'.workers[w].row == me.row
          && Remaining(s'.workers[w].pc) < Remaining(me.pc)
          && Expected(s'.workers[w], s'.rows[me.row], io) == Expected(me, s.rows[me.row], io))
    && (w !in s'.workers ==> s'.rows[me.row].status == Expected(me, s.rows[me.row], io))
  }

  lemma BeforeIo(s: State, w: WorkerId, io: Ios)
    requires WorkersOk(s.rows, s.workers) && LogOk(s.rows, s.workers, s.log) && w in s.workers
    ensures s.workers[w].pc.ReadBack? ==> OnCourse(s, w, DoReread(s, w), io)
    ensures s.workers[w].pc.InsertAttempt? ==> OnCourse(s, w, DoLog(s, w), io)
  {
    assert WorkerLogOk(s.workers[w], s.rows[s.workers[w].row], s.log);
  }

  lemma DuringIo(s: State, w: WorkerId, here: Pc, next: Pc, io: Ios)
    requires WorkersOk(s.rows, s.workers) && w in s.workers && s.workers[w].pc == here
    requires (here == PrepareSource && next == MarkTransferring) || (here == TransferFile && next == LogSuccess)
    ensures var out := if here.PrepareSource? then io.staging else io.upload;
            OnCourse(s, w, DoIo(s, w, here, next, out.ok, out.retryable), io)
  {
  }

  lemma BetweenIo(s: State, w: WorkerId, io: Ios)
    requires WorkersOk(s.rows, s.workers) && w in s.workers && s.workers[w].pc.MarkTransferring?
    ensures OnCourse(s, w, DoMark(s, w), io)
  {
  }

  lemma AfterIo(s: State, w: WorkerId, io: Ios)
    requires WorkersOk(s.rows, s.workers) && w in s.workers
    requires s.workers[w].pc.LogSuccess? || s.workers[w].pc.LogFailure?
    ensures OnCourse(s, w, DoFinish(s, w), io)
  {
  }

  lemma AtEnd(s: State, w: WorkerId, io: Ios, now: Time, next: Time)
    requires WorkersOk(s.rows, s.workers) && w in s.workers
    requires s.workers[w].pc.WriteCompleted? || s.workers[w].pc.WriteOutcome?
    ensures OnCourse(s, w, DoWrite(s, w, now, next), io)
  {
  }

  /** `l` is a statement of the worker that keeps the invariant and its course. */
  ghost predicate GoodStatement(s: State, w: WorkerId, l: Label, s': State, io: Ios)
    requires w in s.workers
  {
    Own(l, w) && Step(s, l) == s' && Inv(s') && OnCourse(s, w, s', io)
  }

  lemma StatementBeforeTransfer(s: State, w: WorkerId, io: Ios) returns (l: Label, s': State)
    requires Inv(s) && w in s.workers && Remaining(s.workers[w].pc) >= 5
    ensures GoodStatement(s, w, l, s', io)
  {
    hide RowsOk, WorkersOk, PermitsOk, LogOk, PhaseOk, OnCourse, DoReread, DoLog, DoIo, DoMark;
    match s.workers[w].pc
    case ReadBack =>
      l, s' := Reread(w), DoReread(s, w);
      BeforeIo(s, w, io);
      RereadKeeps(s, w);
    case InsertAttempt =>
      l, s' := LogAttempt(w), DoLog(s, w);
      BeforeIo(s, w, io);
      LogKeeps(s, w);
    case PrepareSource =>
      l, s' := Prepared(w, io.staging.ok, io.staging.retryable), DoIo(s, w, PrepareSource, MarkTransferring, io.staging.ok, io.staging.retryable);
      DuringIo(s, w, PrepareSource, MarkTransferring, io);
      IoKeeps(s, w, PrepareSource, MarkTransferring, io.staging.ok, io.staging.retryable);
    case MarkTransferring =>
      l, s' := Marked(w), DoMark(s, w);
      BetweenIo(s, w, io);
      MarkKeeps(s, w);
  }

  lemma StatementFromTransfer(s: State, w: WorkerId, io: Ios, now: Time, next: Time)
    returns (l: Label, s': State)
    requires Inv(s) && w in s.workers && Live(s.workers[w]) && Remaining(s.workers[w].pc) < 5
    ensures GoodStatement(s, w, l, s', io)
  {
    hide RowsOk, WorkersOk, PermitsOk, LogOk, PhaseOk, OnCourse, DoIo, DoFinish, DoWrite;
    if s.workers[w].pc.TransferFile? {
      l, s' := Transferred(w, io.upload.ok, io.upload.retryable), DoIo(s, w, TransferFile, LogSuccess, io.upload.ok, io.upload.retryable);
      DuringIo(s, w, TransferFile, LogSuccess, io);
      IoKeeps(s, w, TransferFile, LogSuccess, io.upload.ok, io.upload.retryable);
    } else if s.workers[w].pc.LogSuccess? || s.workers[w].pc.LogFailure? {
      l, s' := FinishAttempt(w), DoFinish(s, w);
      AfterIo(s, w, io);
      FinishKeeps(s, w);
    } else {
      l, s' := WriteRow(w, now, next), DoWrite(s, w, now, next);
      AtEnd(s, w, io, now, next);
      WriteKeeps(s, w, now, next);
    }
  }

  /** A worker left alone always takes its row out of flight, in at most `Remaining` statements: to Completed
      when staging and upload succeed, back to Queued when the failure is retryable and budget is left,
      to Failed otherwise.  No other row changes. */
  lemma {:induction false} WorkerSettles(s: State, w: WorkerId, io: Ios, now: Time, next: Time)
    returns (run: seq<Label>)
    requires Inv(s) && w in s.workers && Live(s.workers[w])
    ensures |run| <= Remaining(s.workers[w].pc) && forall i :: 0 <= i < |run| ==> Own(run[i], w)
    ensures Settles(s, w, Exec(s, run), io)
    decreases Remaining(s.workers[w].pc)
  {
    hide Inv, Expected, Live;
    var l, s';
    if Remaining(s.workers[w].pc) >= 5 {
      l, s' := StatementBeforeTransfer(s, w, io);
    } else {
      l, s' := StatementFromTransfer(s, w, io, now, next);
    }
    var rest := [];
    if w in s'.workers {
      rest := WorkerSettles(s', w, io, now, next);
    }
    run := [l] + rest;
    OnCourseSettles(s, w, s', Exec(s', rest), io);
  }

  ghost predicate Settles(s: State, w: WorkerId, s': State, io: Ios)
    requires w in s.workers
  {
    var id := s.workers[w].row;
    && w !in s'.workers && id in s.rows && id in s'.rows
    && s'.rows == s.rows[id := s'.rows[id]]
    && s'.rows[id].status == Expected(s.workers[w], s.rows[id], io)
  }

  lemma OnCourseSettles(s: State, w: WorkerId, s': State, s'': State, io: Ios)
    requires w in s.workers && OnCourse(s, w, s', io)
    requires if w in s'.workers then Settles(s', w, s'', io) else s'' == s'
    ensures Settles(s, w, s'', io)
  {
  }
}
