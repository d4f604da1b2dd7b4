/** Claims beyond the budget: exactly when they happen, how many there can be, and what is left after a recovery. */
module DeliveryBudget {
  import opened Common
  import opened DeliveryRows
  import opened DeliveryProtocol
  import opened DeliveryProofs
  import opened DeliveryTheorems
  import opened DeliveryLife

  lemma {:induction false} ExecSnoc(s: State, run: seq<Label>, l: Label)
    ensures Exec(s, run + [l]) == Step(Exec(s, run), l)
    decreases |run|
  {
    hide Step;
    if run == [] {
      assert ([] + [l])[1..] == [];
      assert Exec(Step(s, l), []) == Step(s, l);
    } else {
      assert (run + [l])[1..] == run[1..] + [l];
      ExecSnoc(Step(s, run[0]), run[1..], l);
    }
  }

  /** The state after the first `i` labels. */
  function After(run: seq<Label>, i: nat): State
    requires i <= |run|
  {
    Exec(INITIAL, run[..i])
  }

  lemma AfterNext(run: seq<Label>, i: nat)
    requires i < |run|
    ensures After(run, i + 1) == Step(After(run, i), run[i])
  {
    assert run[..i + 1] == run[..i] + [run[i]];
    ExecSnoc(INITIAL, run[..i], run[i]);
  }

  lemma AfterPrefix(run: seq<Label>, n: nat, i: nat)
    requires i <= n <= |run|
    ensures After(run[..n], i) == After(run, i)
  {
    assert run[..n][..i] == run[..i];
  }

  predicate UsedUp(s: State, id: RowId) { id in s.rows && s.rows[id].attempts >= s.rows[id].snap.maxAttempts }

  predicate IsQueued(s: State, id: RowId) { id in s.rows && s.rows[id].status.Queued? }

  /** Step `i` is a manual retry of a row whose budget is used up, and the row has been queued since. */
  ghost predicate OverRetriedAt(run: seq<Label>, id: RowId, i: nat) {
    && i < |run|
    && RetriesRow(After(run, i), run[i], id) && UsedUp(After(run, i), id)
    && forall j: nat :: i < j <= |run| ==> IsQueued(After(run, j), id)
  }

  ghost predicate OverRetried(run: seq<Label>, id: RowId) {
    exists i: nat :: OverRetriedAt(run, id, i)
  }

  lemma OverRetriedShrinks(run: seq<Label>, id: RowId, i: nat)
    requires OverRetriedAt(run, id, i) && i + 1 < |run|
    ensures OverRetriedAt(run[..|run| - 1], id, i)
  {
    hide After, RetriesRow, UsedUp, IsQueued;
    var n := |run| - 1;
    AfterPrefix(run, n, i);
    forall j: nat | i < j <= n ensures IsQueued(After(run[..n], j), id) { AfterPrefix(run, n, j); }
  }

  lemma OverRetriedGrows(run: seq<Label>, id: RowId, i: nat)
    requires run != [] && OverRetriedAt(run[..|run| - 1], id, i) && IsQueued(After(run, |run|), id)
    ensures OverRetriedAt(run, id, i)
  {
    hide After, RetriesRow, UsedUp, IsQueued;
    var n := |run| - 1;
    AfterPrefix(run, n, i);
    forall j: nat | i < j <= |run| ensures IsQueued(After(run, j), id) { if j <= n { AfterPrefix(run, n, j); } }
  }

  /** How a row can come to be queued with its budget used up in one step. */
  lemma UsedUpStep(s: State, l: Label, id: RowId)
    requires Inv(s) && IsQueued(Step(s, l), id)
    ensures UsedUp(Step(s, l), id) <==> (if IsQueued(s, id) then UsedUp(s, id) else RetriesRow(s, l, id) && UsedUp(s, id))
    ensures IsQueued(s, id) ==> !RetriesRow(s, l, id)
  {
    hide Inv, Step, ClaimsRow, EndsRow, MarksRow, RecoversRow;
    if id in s.rows {
      RowStep(s, l, id);
      QueuedEdge(s, l, id);
    } else {
      NewUnused(s, l, id);
    }
  }

  lemma QueuedEdge(s: State, l: Label, id: RowId)
    requires id in s.rows && RowEvolves(s, l, Step(s, l), id) && IsQueued(Step(s, l), id)
    ensures Step(s, l).rows[id].attempts == s.rows[id].attempts
    ensures s.rows[id].status.Queued? || RetriesRow(s, l, id) || !UsedUp(s, id)
  {
    hide Step;
  }

  lemma NewUnused(s: State, l: Label, id: RowId)
    requires Inv(s) && id !in s.rows && id in Step(s, l).rows
    ensures Step(s, l).rows[id].attempts == 0 < Step(s, l).rows[id].snap.maxAttempts && !ClaimsRow(s, l, id)
  {
    hide WorkersOk, PermitsOk, LogOk, PhaseOk, Step;
    NewRowStep(s, l, id);
    StepKeeps(s, l);
  }

  /** A queued row has its budget used up exactly when it was last queued by a manual retry that found it
      used up. */
  lemma {:induction false} QueuedUsedUp(run: seq<Label>, id: RowId)
    requires IsQueued(Exec(INITIAL, run), id)
    ensures UsedUp(Exec(INITIAL, run), id) <==> OverRetried(run, id)
    decreases |run|
  {
    hide Inv, Step, After, RetriesRow, UsedUp, IsQueued, Exec;
    if run == [] {
      assert !IsQueued(Exec(INITIAL, []), id) by { NothingQueued(id); }
    } else {
      var n := |run| - 1;
      var prefix, l, s := run[..n], run[n], After(run, n);
      AfterWhole(run);
      AfterNext(run, n);
      RunKeeps(INITIAL, prefix);
      AfterIs(run, n);
      UsedUpStep(s, l, id);
      if IsQueued(s, id) {
        QueuedUsedUp(prefix, id);
        if OverRetried(prefix, id) {
          var i: nat :| OverRetriedAt(prefix, id, i);
          OverRetriedGrows(run, id, i);
        }
        if OverRetried(run, id) {
          var i: nat :| OverRetriedAt(run, id, i);
          if i + 1 < |run| { OverRetriedShrinks(run, id, i); }
        }
      } else {
        if RetriesRow(s, l, id) && UsedUp(s, id) {
          assert OverRetriedAt(run, id, n);
        }
        assert forall i: nat :: OverRetriedAt(run, id, i) ==> i == n;
      }
    }
  }

  lemma NothingQueued(id: RowId)
    ensures !IsQueued(Exec(INITIAL, []), id)
  {
  }

  lemma AfterWhole(run: seq<Label>)
    ensures After(run, |run|) == Exec(INITIAL, run)
  {
    assert run[..|run|] == run;
  }

  lemma AfterIs(run: seq<Label>, n: nat)
    requires n <= |run|
    ensures After(run, n) == Exec(INITIAL, run[..n])
  {
  }

  /** Step `i` claims a row that a manual retry queued with its budget used up. */
  ghost predicate OverClaimedAt(run: seq<Label>, id: RowId, i: nat) {
    i < |run| && ClaimsRow(After(run, i), run[i], id) && OverRetried(run[..i], id)
  }

  predicate Exceeded(s: State, id: RowId) { id in s.rows && s.rows[id].attempts > s.rows[id].snap.maxAttempts }

  lemma ExceededStep(s: State, l: Label, id: RowId)
    requires Inv(s)
    ensures Exceeded(Step(s, l), id) <==> Exceeded(s, id) || (ClaimsRow(s, l, id) && UsedUp(s, id))
    ensures ClaimsRow(s, l, id) ==> IsQueued(s, id)
  {
    hide Inv, Step, Edge;
    if id in s.rows {
      RowStep(s, l, id);
    } else if id in Step(s, l).rows {
      NewUnused(s, l, id);
    }
  }

  /** A row has more attempts than its budget exactly when some step claimed it after a manual retry that
      found the budget used up: nothing else exceeds it. */
  lemma {:induction false} ExceededExactly(run: seq<Label>, id: RowId)
    ensures Exceeded(Exec(INITIAL, run), id) <==> exists i: nat :: OverClaimedAt(run, id, i)
    decreases |run|
  {
    hide Inv, Step, After, ClaimsRow, OverRetried, Exceeded, UsedUp, IsQueued, Exec;
    if run == [] {
      assert !Exceeded(Exec(INITIAL, []), id) by { NothingExceeded(id); }
    } else {
      var n := |run| - 1;
      var prefix, s := run[..n], After(run, n);
      AfterWhole(run);
      AfterNext(run, n);
      AfterIs(run, n);
      RunKeeps(INITIAL, prefix);
      ExceededStep(s, run[n], id);
      ExceededExactly(prefix, id);
      if ClaimsRow(s, run[n], id) { QueuedUsedUp(prefix, id); }
      forall i: nat | i < n ensures OverClaimedAt(prefix, id, i) <==> OverClaimedAt(run, id, i) {
        AfterPrefix(run, n, i);
        assert prefix[..i] == run[..i];
      }
      if Exceeded(s, id) {
        var i: nat :| OverClaimedAt(prefix, id, i);
        assert OverClaimedAt(run, id, i);
      }
      if ClaimsRow(s, run[n], id) && UsedUp(s, id) { assert OverClaimedAt(run, id, n); }
      if exists i: nat :: OverClaimedAt(run, id, i) {
        var i: nat :| OverClaimedAt(run, id, i);
        if i < n { assert OverClaimedAt(prefix, id, i); }
      }
    }
  }

  lemma NothingExceeded(id: RowId)
    ensures !Exceeded(Exec(INITIAL, []), id)
  {
  }

  /** A recovery that has worked off its list leaves a row whose budget is used up in a terminal state,
      unless a manual retry queued it again. */
  lemma RecoveredTerminal(run: seq<Label>, id: RowId)
    requires var s := Exec(INITIAL, run); s.phase.Recovering? && s.phase.todo == {} && UsedUp(s, id)
    ensures Terminal(Exec(INITIAL, run).rows[id].status) <==> !OverRetried(run, id)
  {
    hide Exec;
    RecoveryComplete(run, id);
    AfterWhole(run);
    if IsQueued(Exec(INITIAL, run), id) {
      QueuedUsedUp(run, id);
    } else {
      assert !IsQueued(After(run, |run|), id);
      assert !OverRetried(run, id);
    }
  }

  /** Without manual retries: a row claimed as often as its budget allows is terminal or in flight, and
      nobody can queue it again. */
  lemma AtTheLimit(run: seq<Label>, id: RowId)
    requires var s := Exec(INITIAL, run); UsedUp(s, id) && ManualRetries(INITIAL, run, id) == 0
    ensures var r := Exec(INITIAL, run).rows[id];
            r.attempts == r.snap.maxAttempts && (Terminal(r.status) || InFlight(r.status))
  {
    hide Exec;
    ClaimBound(run, id);
  }

  // ---------------------------------------------------------------------------------------------
  // The bound is attained
  // ---------------------------------------------------------------------------------------------

  /** One row, nobody at work, the process running. */
  function Alone(r: Row, retries: nat): State {
    State(map[0 := r], map[], map[], map[], Running, if retries == 0 then map[] else map[0 := retries])
  }

  /** A row as it stands between two attempts that were lost to crashes. */
  function Resting(snap: Snapshot, n: nat): Row {
    if n == 0 then Row(snap, Queued, 0, None, None, None)
    else if n < snap.maxAttempts then Row(snap, Queued, n, Some(0), None, None)
    else Row(snap, Failed, n, None, None, Some(0))
  }

  /** Claim, crash and recover. */
  lemma LostAttempt(run: seq<Label>, r: Row, retries: nat) returns (run': seq<Label>)
    requires Exec(INITIAL, run) == Alone(r, retries)
    requires r.status.Queued? && Due(r, 0) && r.completedAt.None?
    ensures Exec(INITIAL, run') == Alone(Resting(r.snap, r.attempts + 1), retries)
  {
    hide Exec, Step, DoRecoverRead, DoRecoverRow, InFlightRows, Resting;
    var claimed := ClaimAlone(run, r, retries);
    var run1, run2 := claimed + [Crash], claimed + [Crash] + [RecoverRead];
    var run3 := run2 + [RecoverRow(0, 0)];
    run' := run3 + [RecoverEnd];
    ExecSnoc(INITIAL, claimed, Crash);
    ExecSnoc(INITIAL, run1, RecoverRead);
    ExecSnoc(INITIAL, run2, RecoverRow(0, 0));
    ExecSnoc(INITIAL, run3, RecoverEnd);
    PhaseStep(Exec(INITIAL, claimed), Crash);
    PhaseStep(Exec(INITIAL, run1), RecoverRead);
    PhaseStep(Exec(INITIAL, run2), RecoverRow(0, 0));
    PhaseStep(Exec(INITIAL, run3), RecoverEnd);
    RecoverAlone(r.(status := Preparing, attempts := r.attempts + 1, startedAt := Some(0)), retries);
  }

  lemma ClaimAlone(run: seq<Label>, r: Row, retries: nat) returns (run': seq<Label>)
    requires Exec(INITIAL, run) == Alone(r, retries) && r.status.Queued? && Due(r, 0)
    ensures var busy := r.(status := Preparing, attempts := r.attempts + 1, startedAt := Some(0));
            Exec(INITIAL, run') == Alone(busy, retries).(workers := map[0 := Worker(0, r.snap.device, false, ReadBack, 0, 0, false)])
  {
    hide Exec;
    var run1 := run + [WakeUp(0, 0)];
    var run2 := run1 + [CheckStatus(0)];
    run' := run2 + [Claim(0, 0)];
    ExecSnoc(INITIAL, run, WakeUp(0, 0));
    ExecSnoc(INITIAL, run1, CheckStatus(0));
    ExecSnoc(INITIAL, run2, Claim(0, 0));
    var s1 := DoWakeUp(Alone(r, retries), 0, 0);
    assert s1.workers == map[0 := Worker(0, r.snap.device, false, ReadStatus, 0, 0, false)];
    var s2 := DoCheck(s1, 0);
    assert s2.workers == map[0 := Worker(0, r.snap.device, false, SendClaim, 0, 0, false)];
  }

  lemma RecoverAlone(busy: Row, retries: nat)
    requires busy.status.Preparing? && busy.completedAt.None? && busy.attempts > 0
    ensures var down := Alone(busy, retries).(phase := Down);
            DoRecoverRow(DoRecoverRead(down), 0, 0).(phase := Running) == Alone(Resting(busy.snap, busy.attempts), retries)
  {
    var down := Alone(busy, retries).(phase := Down);
    var reading := DoRecoverRead(down);
    assert InFlightRows(down.rows) == {0};
    assert reading.phase == Recovering(down.rows, {0});
    assert map[0 := busy][0 := Resting(busy.snap, busy.attempts)] == map[0 := Resting(busy.snap, busy.attempts)];
  }

  lemma {:induction false} Spend(snap: Snapshot, n: nat) returns (run: seq<Label>)
    requires snap.maxAttempts >= 1
    ensures Exec(INITIAL, run) == Alone(Resting(snap, n), if n < snap.maxAttempts then 0 else n - snap.maxAttempts)
    decreases n
  {
    hide Exec;
    if n == 0 {
      run := FirstRow(snap);
    } else {
      var before := Spend(snap, n - 1);
      if n - 1 < snap.maxAttempts {
        run := LostAttempt(before, Resting(snap, n - 1), 0);
      } else {
        var k := n - 1 - snap.maxAttempts;
        ExecSnoc(INITIAL, before, Retry(0));
        RetryAlone(snap, n - 1, k);
        run := LostAttempt(before + [Retry(0)], Row(snap, Queued, n - 1, None, None, None), k + 1);
      }
    }
  }

  lemma FirstRow(snap: Snapshot) returns (run: seq<Label>)
    requires snap.maxAttempts >= 1
    ensures Exec(INITIAL, run) == Alone(Resting(snap, 0), 0)
  {
    run := [] + [Enqueue(0, snap)] + [RecoverEnd];
    ExecSnoc(INITIAL, [], Enqueue(0, snap));
    ExecSnoc(INITIAL, [] + [Enqueue(0, snap)], RecoverEnd);
    assert Exec(INITIAL, []) == INITIAL;
    assert !HasKey(map[], snap.key);
  }

  lemma RetryAlone(snap: Snapshot, n: nat, k: nat)
    requires n >= snap.maxAttempts >= 1
    ensures Step(Alone(Resting(snap, n), k), Retry(0)) == Alone(Row(snap, Queued, n, None, None, None), k + 1)
  {
    var s := Alone(Resting(snap, n), k);
    assert Count(s.retries, 0) == k;
    assert s.retries[0 := k + 1] == map[0 := k + 1];
  }

  /** For every budget and every number of manual retries some run uses exactly that many claims beyond
      the budget, so the bound of `ClaimBound` cannot be improved. */
  lemma BoundAttained(snap: Snapshot, k: nat) returns (run: seq<Label>)
    requires snap.maxAttempts >= 1
    ensures var s := Exec(INITIAL, run);
            && 0 in s.rows && s.rows[0].snap == snap && s.rows[0].attempts == snap.maxAttempts + k
            && ManualRetries(INITIAL, run, 0) == k
  {
    hide Exec;
    run := Spend(snap, snap.maxAttempts + k);
    Accounting(INITIAL, run, 0);
  }

  /** A row can be orphaned: its worker is lost right after the claim. */
  lemma OrphanReached() returns (run: seq<Label>)
    ensures Orphan(Exec(INITIAL, run), 0)
  {
    hide Exec;
    var snap := Snapshot(0, "", 1);
    var first := FirstRow(snap);
    var claimed := ClaimAlone(first, Resting(snap, 0), 0);
    run := claimed + [Abort(0)];
    ExecSnoc(INITIAL, claimed, Abort(0));
    RunKeeps(INITIAL, claimed);
    AbortOrphans(Exec(INITIAL, claimed), 0);
  }
}
