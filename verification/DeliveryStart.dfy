/** Workers before their claim: permits, the status check, the claim, and the whole way from a due row to its outcome. */
module DeliveryStart {
  import opened Common
  import opened DeliveryRows
  import opened DeliveryProtocol
  import opened DeliveryProofs
  import opened DeliveryTheorems
  import opened DeliveryLife

  /** Worker `v` is past the gate of `device`. */
  predicate InGate(s: State, v: WorkerId, device: DeviceId) {
    v in s.workers && s.workers[v].gated && s.workers[v].device == device && !s.workers[v].pc.AwaitPermit?
  }

  lemma GateIs(s: State, device: DeviceId)
    requires Inv(s)
    ensures device in s.permits <==> exists v :: InGate(s, v, device)
    ensures forall v :: InGate(s, v, device) ==> device in s.permits && s.permits[device] == v
  {
    hide RowsOk, WorkersOk, LogOk, PhaseOk;
    if device in s.permits { assert InGate(s, s.permits[device], device); }
  }

  /** A waiting worker gets through the gate with its next try exactly when nobody is inside; it then holds the
      permit, and otherwise nothing happens. */
  lemma AcquireExactly(s: State, w: WorkerId)
    requires Inv(s) && At(s, w, AwaitPermit)
    ensures var s' := Step(s, Acquire(w)); var device := s.workers[w].device;
            && s'.rows == s.rows && s'.log == s.log
            && (InGate(s', w, device) <==> forall v :: !InGate(s, v, device))
            && (InGate(s', w, device) ==>
                  s'.workers == s.workers[w := s.workers[w].(pc := ReadStatus)] && s'.permits == s.permits[device := w])
            && (!InGate(s', w, device) ==> s' == s)
  {
    hide RowsOk, LogOk, PhaseOk;
    assert WorkerOk(s.workers[w], s.rows[s.workers[w].row]);
    GateIs(s, s.workers[w].device);
  }

  /** The worker is gone, its permit is back, and nothing else has changed. */
  ghost predicate GaveUp(s: State, s': State, w: WorkerId)
    requires w in s.workers
  {
    && s'.workers == s.workers - {w} && s'.rows == s.rows && s'.log == s.log
    && s'.permits == if s.workers[w].gated then s.permits - {s.workers[w].device} else s.permits
  }

  /** The status check lets the worker go on exactly when its row is queued. */
  lemma CheckExactly(s: State, w: WorkerId)
    requires Inv(s) && At(s, w, ReadStatus)
    ensures var s' := Step(s, CheckStatus(w)); var id := s.workers[w].row;
            && id in s.rows
            && (s.rows[id].status.Queued? ==> s' == s.(workers := s.workers[w := s.workers[w].(pc := SendClaim)]))
            && (!s.rows[id].status.Queued? ==> GaveUp(s, s', w))
  {
    hide RowsOk, PermitsOk, LogOk, PhaseOk;
  }

  /** The claim succeeds exactly when the row is queued and due, whatever the check saw: the row is then in
      preparation with one more attempt and the worker is live; otherwise the worker gives up. */
  lemma ClaimExactly(s: State, w: WorkerId, now: Time)
    requires Inv(s) && At(s, w, SendClaim)
    ensures var s' := Step(s, Claim(w, now)); var id := s.workers[w].row;
            && id in s.rows
            && (if s.rows[id].status.Queued? && (s.rows[id].nextAt.None? || s.rows[id].nextAt.value <= now)
                then && s'.workers == s.workers[w := s.workers[w].(pc := ReadBack)] && s'.permits == s.permits && s'.log == s.log
                     && s'.rows == s.rows[id := s.rows[id].(status := Preparing, attempts := s.rows[id].attempts + 1, startedAt := Some(now))]
                else GaveUp(s, s', w))
  {
    hide RowsOk, PermitsOk, LogOk, PhaseOk;
  }

  lemma SpawnExactly(s: State, w: WorkerId, id: RowId, now: Time)
    ensures var s' := Step(s, SpawnDue(w, id, now));
            if s.phase.Running? && w !in s.workers && id in s.rows && s.rows[id].status.Queued?
               && (s.rows[id].nextAt.None? || s.rows[id].nextAt.value <= now)
            then s' == s.(workers := s.workers[w := Worker(id, s.rows[id].snap.device, true, AwaitPermit, 0, 0, false)])
            else s' == s
    ensures var s' := Step(s, WakeUp(w, id));
            if s.phase.Running? && w !in s.workers && id in s.rows
            then s' == s.(workers := s.workers[w := Worker(id, s.rows[id].snap.device, false, ReadStatus, 0, 0, false)])
            else s' == s
  {
  }

  /** `process_due` works: from every state of a running process with a due row and a free gate, a new worker's
      own steps bring the row into preparation, with the worker live and holding the device's permit. */
  lemma SpawnClaims(s: State, w: WorkerId, id: RowId, now: Time)
    requires Inv(s) && s.phase.Running? && w !in s.workers && id in s.rows && s.rows[id].status.Queued?
    requires s.rows[id].nextAt.None? || s.rows[id].nextAt.value <= now
    requires forall v :: !InGate(s, v, s.rows[id].snap.device)
    ensures var s' := Exec(s, [SpawnDue(w, id, now), Acquire(w), CheckStatus(w), Claim(w, now)]);
            && Inv(s') && w in s'.workers && s'.workers[w].row == id && s'.workers[w].pc.ReadBack?
            && s'.workers == s.workers[w := s'.workers[w]]
            && InGate(s', w, s.rows[id].snap.device) && s'.permits == s.permits[s.rows[id].snap.device := w]
            && s'.rows == s.rows[id := s.rows[id].(status := Preparing, attempts := s.rows[id].attempts + 1, startedAt := Some(now))]
  {
    hide Inv, Step, Exec;
    var l1, l2, l3, l4 := SpawnDue(w, id, now), Acquire(w), CheckStatus(w), Claim(w, now);
    var s1 := Step(s, l1);
    SpawnExactly(s, w, id, now);
    StepKeeps(s, l1);
    var s2 := Step(s1, l2);
    forall v ensures !InGate(s1, v, s.rows[id].snap.device) { assert !InGate(s, v, s.rows[id].snap.device); }
    AcquireExactly(s1, w);
    StepKeeps(s1, l2);
    var s3 := Step(s2, l3);
    CheckExactly(s2, w);
    StepKeeps(s2, l3);
    ClaimExactly(s3, w, now);
    StepKeeps(s3, l4);
    FourSteps(s, l1, l2, l3, l4);
  }

  lemma FourSteps(s: State, a: Label, b: Label, c: Label, d: Label)
    ensures Exec(s, [a, b, c, d]) == Step(Step(Step(Step(s, a), b), c), d)
  {
    hide Step;
    assert [a, b, c, d][1..] == [b, c, d] && [b, c, d][1..] == [c, d] && [c, d][1..] == [d] && [d][1..] == [];
    assert Exec(s, [a, b, c, d]) == Exec(Step(s, a), [b, c, d]);
    assert Exec(Step(s, a), [b, c, d]) == Exec(Step(Step(s, a), b), [c, d]);
    var t := Step(Step(s, a), b);
    assert Exec(t, [c, d]) == Exec(Step(t, c), [d]);
    assert Exec(Step(t, c), [d]) == Exec(Step(Step(t, c), d), []);
  }

  // ---------------------------------------------------------------------------------------------
  // The whole way, among all the others
  // ---------------------------------------------------------------------------------------------

  /** The state right after the worker's claim, if it gets that far in the run. */
  ghost function ClaimMoment(s: State, run: seq<Label>, w: WorkerId): Option<State>
    decreases |run|
  {
    if run == [] || w !in s.workers then None
    else if ClaimsRow(s, run[0], s.workers[w].row) && run[0].w == w then Some(Step(s, run[0]))
    else ClaimMoment(Step(s, run[0]), run[1..], w)
  }

  predicate Waiting(me: Worker) { me.pc.AwaitPermit? || me.pc.ReadStatus? || me.pc.SendClaim? }

  /** A waiting worker is moved by its own steps only; what it may do before its claim touches no row. */
  lemma WaitingStep(s: State, l: Label, w: WorkerId)
    requires w in s.workers && Waiting(s.workers[w]) && !Kills(l, w)
    requires !(ClaimsRow(s, l, s.workers[w].row) && l.w == w)
    ensures w in Step(s, l).workers ==>
              && Waiting(Step(s, l).workers[w])
              && Step(s, l).workers[w].row == s.workers[w].row && Step(s, l).workers[w].device == s.workers[w].device
    ensures w !in Step(s, l).workers ==> Step(s, l).rows == s.rows
  {
    hide Step;
    if !OfWorker(l) {
      ServiceWorkers(s, l);
    } else if Early(l) {
      WaitingEarly(s, l, w);
    } else {
      LateWorkers(s, l);
      if l.w == w { LateIdle(s, l, w); }
    }
  }

  lemma WaitingEarly(s: State, l: Label, w: WorkerId)
    requires w in s.workers && Waiting(s.workers[w]) && Early(l)
    requires !(ClaimsRow(s, l, s.workers[w].row) && l.w == w)
    ensures w in Step(s, l).workers ==>
              && Waiting(Step(s, l).workers[w])
              && Step(s, l).workers[w].row == s.workers[w].row && Step(s, l).workers[w].device == s.workers[w].device
    ensures w !in Step(s, l).workers ==> Step(s, l).rows == s.rows
  {
  }

  lemma LateIdle(s: State, l: Label, w: WorkerId)
    requires w in s.workers && Waiting(s.workers[w]) && OfWorker(l) && !Early(l) && l.w == w && l != Abort(w)
    ensures Step(s, l) == s
  {
  }

  lemma ClaimLives(s: State, l: Label, w: WorkerId)
    requires Inv(s) && w in s.workers && ClaimsRow(s, l, s.workers[w].row) && l.w == w
    ensures var s' := Step(s, l);
            && Inv(s') && w in s'.workers && s'.workers[w].pc.ReadBack? && s'.workers[w].row == s.workers[w].row
            && s'.workers[w].row in s'.rows && s'.rows[s'.workers[w].row].status.Preparing?
  {
    hide Inv, Step;
    StepKeeps(s, l);
    ClaimExactly(s, w, l.now);
  }

  /** From the moment a worker exists, and whatever falls between its steps: until its claim it waits or gives up;
      once it has claimed, it keeps the row until it is done, and leaves it completed when staging and upload succeeded, queued again when what failed may be
      retried and budget is left, and failed otherwise. */
  lemma {:induction false} StartToOutcome(s: State, run: seq<Label>, w: WorkerId, io: Ios)
    requires Inv(s) && w in s.workers && Waiting(s.workers[w]) && Undisturbed(run, w, io)
    ensures var u := Until(s, run, w); var id := s.workers[w].row;
            && Inv(u)
            && (ClaimMoment(s, run, w).None? ==> w in u.workers ==> Waiting(u.workers[w]) && u.workers[w].row == id)
            && (ClaimMoment(s, run, w).Some? ==>
                  var c := ClaimMoment(s, run, w).value;
                  && id in c.rows && c.rows[id].status.Preparing? && id in u.rows
                  && (w in u.workers ==> Live(u.workers[w]) && u.workers[w].row == id)
                  && (w !in u.workers ==> u.rows[id].status == OutcomeOf(c.rows[id], io)))
    decreases |run|
  {
    hide Inv, Step, Kills, Agrees;
    if run != [] {
      var l, s' := run[0], Step(s, run[0]);
      assert !Kills(l, w) && Agrees(l, w, io);
      assert Undisturbed(run[1..], w, io);
      StepKeeps(s, l);
      if ClaimsRow(s, l, s.workers[w].row) && l.w == w {
        ClaimLives(s, l, w);
        WorkerCourse(s', run[1..], w, io);
        OutcomeIs(s'.workers[w], s'.rows[s.workers[w].row], io);
      } else {
        WaitingStep(s, l, w);
        if w in s'.workers {
          StartToOutcome(s', run[1..], w, io);
        }
      }
    }
  }

  /** What must become of a claimed row, told from the outcomes alone. */
  function OutcomeOf(r: Row, io: Ios): Status {
    if io.staging.ok && io.upload.ok then Completed
    else if (if !io.staging.ok then io.staging.retryable else io.upload.retryable) && r.attempts < r.snap.maxAttempts then Queued
    else Failed
  }

  lemma OutcomeIs(w: Worker, r: Row, io: Ios)
    requires w.pc.ReadBack?
    ensures Expected(w, r, io) == OutcomeOf(r, io)
  {
  }

  /** Some run takes a due row of a free device all the way: spawned, claimed under the device's permit, and
      settled as its outcomes demand, with no other row changed. */
  lemma DueToOutcome(s: State, w: WorkerId, id: RowId, io: Ios, now: Time, next: Time) returns (run: seq<Label>)
    requires Inv(s) && s.phase.Running? && w !in s.workers && id in s.rows && s.rows[id].status.Queued?
    requires s.rows[id].nextAt.None? || s.rows[id].nextAt.value <= now
    requires forall v :: !InGate(s, v, s.rows[id].snap.device)
    ensures var s' := Exec(s, run);
            && w !in s'.workers && id in s'.rows && s'.rows == s.rows[id := s'.rows[id]]
            && s'.rows[id].status == OutcomeOf(s.rows[id].(attempts := s.rows[id].attempts + 1), io)
  {
    hide Inv, Step, Exec, InGate;
    var start := [SpawnDue(w, id, now), Acquire(w), CheckStatus(w), Claim(w, now)];
    SpawnClaims(s, w, id, now);
    var s4 := Exec(s, start);
    var rest := WorkerSettles(s4, w, io, now, next);
    OutcomeIs(s4.workers[w], s4.rows[id], io);
    run := start + rest;
    ExecJoin(s, start, rest);
  }

  lemma {:induction false} ExecJoin(s: State, a: seq<Label>, b: seq<Label>)
    ensures Exec(s, a + b) == Exec(Exec(s, a), b)
    decreases |a|
  {
    hide Step;
    if a == [] {
      assert [] + b == b;
    } else {
      assert (a + b)[1..] == a[1..] + b;
      ExecJoin(Step(s, a[0]), a[1..], b);
    }
  }

  // ---------------------------------------------------------------------------------------------
  // The attempt log
  // ---------------------------------------------------------------------------------------------

  /** The log gains an entry only when a live worker opens its attempt, and an entry changes only when its worker
      closes it: completed after a successful upload, failed after a failure. */
  lemma LogStep(s: State, l: Label)
    requires Inv(s)
    ensures var s' := Step(s, l);
            if l.LogAttempt? && At(s, l.w, InsertAttempt)
            then var key := AttemptKey(s.workers[l.w].row, s.workers[l.w].no); key !in s.log && s'.log == s.log[key := Preparing]
            else if l.FinishAttempt? && (At(s, l.w, LogSuccess) || At(s, l.w, LogFailure))
            then var key := AttemptKey(s.workers[l.w].row, s.workers[l.w].no);
                 key in s.log && s'.log == s.log[key := if s.workers[l.w].pc.LogSuccess? then Completed else Failed]
            else s'.log == s.log
  {
    hide Inv, Step, DoLog, DoFinish;
    if l.LogAttempt? {
      LogIs(s, l);
      OpenedLog(s, l.w);
    } else if l.FinishAttempt? {
      LogIs(s, l);
      ClosedLog(s, l.w);
    } else {
      LogQuiet(s, l);
    }
  }

  lemma LogIs(s: State, l: Label)
    ensures l.LogAttempt? ==> Step(s, l) == DoLog(s, l.w)
    ensures l.FinishAttempt? ==> Step(s, l) == DoFinish(s, l.w)
  {
    hide DoLog, DoFinish;
  }

  lemma LogQuiet(s: State, l: Label)
    requires !l.LogAttempt? && !l.FinishAttempt?
    ensures Step(s, l).log == s.log
  {
    hide Outcome, Recovered, CancelledRow, Retried, Inserted, Claimed, WithStatus, InFlightRows;
  }

  lemma OpenedLog(s: State, w: WorkerId)
    requires Inv(s)
    ensures if At(s, w, InsertAttempt)
            then var key := AttemptKey(s.workers[w].row, s.workers[w].no); key !in s.log && DoLog(s, w).log == s.log[key := Preparing]
            else DoLog(s, w).log == s.log
  {
    hide Inv;
    if At(s, w, InsertAttempt) { LogKeyFree(s, w); }
  }

  lemma ClosedLog(s: State, w: WorkerId)
    requires Inv(s)
    ensures if At(s, w, LogSuccess) || At(s, w, LogFailure)
            then var key := AttemptKey(s.workers[w].row, s.workers[w].no);
                 key in s.log && DoFinish(s, w).log == s.log[key := if s.workers[w].pc.LogSuccess? then Completed else Failed]
            else DoFinish(s, w).log == s.log
  {
    hide RowsOk, PermitsOk, PhaseOk, WorkerOk, StatusFits;
    if w in s.workers { assert WorkerLogOk(s.workers[w], s.rows[s.workers[w].row], s.log); }
  }

  lemma LogKeyFree(s: State, w: WorkerId)
    requires Inv(s) && At(s, w, InsertAttempt)
    ensures KeyOf(s.workers[w]) !in s.log
  {
    hide RowsOk, PermitsOk, PhaseOk;
    assert WorkerOk(s.workers[w], s.rows[s.workers[w].row]) && WorkerLogOk(s.workers[w], s.rows[s.workers[w].row], s.log);
  }

  /** When a worker writes its row's outcome, the row's current attempt is logged as completed if the row is being
      completed and as failed otherwise. */
  lemma LoggedOutcome(s: State, l: Label, id: RowId)
    requires Inv(s) && EndsRow(s, l, id)
    ensures id in s.rows && AttemptKey(id, s.rows[id].attempts) in s.log
    ensures s.log[AttemptKey(id, s.rows[id].attempts)] == if s.workers[l.w].pc.WriteCompleted? then Completed else Failed
  {
    hide RowsOk, PermitsOk, PhaseOk;
    assert WorkerOk(s.workers[l.w], s.rows[id]) && WorkerLogOk(s.workers[l.w], s.rows[id], s.log);
  }
}
