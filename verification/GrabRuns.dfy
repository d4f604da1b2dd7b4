/** Concrete runs: a recovered grab that is lost again, and claims that leak. */
module GrabRuns {

  import opened Common
  import opened Grabs
  import opened GrabProofs
  import opened GrabTheorems
  import opened GrabVisits

  lemma {:induction false} ExecSnoc(s: State, run: seq<Label>, l: Label)
    ensures Exec(s, run + [l]) == Step(Exec(s, run), l)
    decreases |run|
  {
    hide Step;
    if run == [] {
      assert ([] + [l])[1..] == [];
      assert Exec(Step(s, l), []) == Step(s, l);
    } else {
      assert (run + [l])[1..] == run[1..] + [l];
      ExecSnoc(Step(s, run[0]), run[1..], l);
    }
  }

  /** The function behind each step outside visits. */
  lemma StepIsElse(s: State, l: Label)
    ensures l.BeginCreate? ==> Step(s, l) == DoBegin(s, l.c, l.request, l.torrent)
    ensures l.InsertRow? ==> Step(s, l) == DoInsert(s, l.c, l.id)
    ensures l.Post? ==> Step(s, l) == DoPost(s, l.c, l.reply)
    ensures l.CreateLost? ==> Step(s, l) == s.(creates := s.creates - {l.c})
    ensures l.Tick? && s.now <= l.t && YoungCreates(s, l.t) ==> Step(s, l) == s.(now := l.t)
    ensures l.ReadClaims? && s.dispatcher.Idle? ==> Step(s, l) == s.(dispatcher := Reading(s.claims, s.now))
    ensures l.Query? ==> Step(s, l) == DoQuery(s, l.ids)
    ensures l.TakeClaims? ==> Step(s, l) == DoTake(s)
    ensures l.Enqueue? ==> Step(s, l) == DoEnqueue(s, l.j, l.ok)
    ensures l.OpenJob? ==> Step(s, l) == DoOpen(s, l.j, l.ok)
    ensures l.EndJob? ==> Step(s, l) == DoEnd(s, l.j)
  {
    hide DoBegin, DoInsert, DoPost, DoQuery, DoTake, DoEnqueue, DoOpen, DoEnd, YoungCreates;
  }

  /** One more step on a run. */
  lemma Then(run: seq<Label>, s: State, l: Label) returns (run': seq<Label>)
    requires Exec(INITIAL, run) == s
    ensures Exec(INITIAL, run') == Step(s, l)
  {
    hide Exec, Step;
    run' := run + [l];
    ExecSnoc(INITIAL, run, l);
  }

  /** One row of torrent 7, whose grab at the bridge is number 5. */
  function Lone(now: Time, r: Row, claims: set<GrabId>, jobs: map<JobId, Job>, d: Dispatcher): State {
    State(now, map[0 := r], map[5 := 7], map[], jobs, claims, d, map[0 := 1], {})
  }

  function Starter(bridge: Option<BridgeId>, at: Time): Row { Row(0, 7, bridge, Starting, None, 0, at) }

  const LISTING: seq<Listed> := [Listed(5, 7, Queued, 0)]

  /** A create whose save never happens: the bridge has the grab, the row does not know it. */
  lemma LostSave() returns (run: seq<Label>)
    ensures Exec(INITIAL, run) == Lone(0, Starter(None, 0), {}, map[], Idle)
  {
    hide Exec, Step;
    run := [];
    assert Exec(INITIAL, []) == INITIAL by { Nothing(); }
    var s1 := INITIAL.(creates := map[0 := Inserting(0, 7)]);
    StepIsElse(INITIAL, BeginCreate(0, 0, 7));
    run := Then(run, INITIAL, BeginCreate(0, 0, 7));
    var s2 := INITIAL.(rows := map[0 := Starter(None, 0)], creates := map[0 := Posting(0, 7)]);
    StepIsElse(s1, InsertRow(0, 0));
    run := Then(run, s1, InsertRow(0, 0));
    var s3 := s2.(bridge := map[5 := 7], posts := map[0 := 1], creates := map[0 := Saving(0, 7, 5, Queued)]);
    StepIsElse(s2, Post(0, Accepted(5, Queued)));
    run := Then(run, s2, Post(0, Accepted(5, Queued)));
    StepIsElse(s3, CreateLost(0));
    run := Then(run, s3, CreateLost(0));
    assert s3.creates - {0} == map[];
  }

  lemma Nothing()
    ensures Exec(INITIAL, []) == INITIAL
  {
  }

  lemma LoneBatch(r: Row, at: Time)
    requires r.phase.Starting? && r.updatedAt + STARTING_STALE_AFTER <= at
    ensures Batch(map[0 := r], at, {}, [0])
  {
  }

  /** Two minutes later the row is selected and claimed. */
  lemma ClaimedBatch(run: seq<Label>, at: Time, r: Row) returns (run': seq<Label>)
    requires Exec(INITIAL, run) == Lone(at, r, {}, map[], Idle) && r.phase.Starting? && r.updatedAt <= at
    ensures Exec(INITIAL, run') == Lone(at + STARTING_STALE_AFTER, r, {0}, map[], Enqueuing([0]))
  {
    hide Exec, Step, Batch;
    var t := at + STARTING_STALE_AFTER;
    var s0, s1 := Lone(at, r, {}, map[], Idle), Lone(t, r, {}, map[], Idle);
    StepIsElse(s0, Tick(t));
    run' := Then(run, s0, Tick(t));
    StepIsElse(s1, ReadClaims);
    run' := Then(run', s1, ReadClaims);
    var s2 := Lone(t, r, {}, map[], Reading({}, t));
    LoneBatch(r, t);
    StepIsElse(s2, Query([0]));
    run' := Then(run', s2, Query([0]));
    var s3 := Lone(t, r, {}, map[], Claiming([0]));
    StepIsElse(s3, TakeClaims);
    run' := Then(run', s3, TakeClaims);
    assert {} + IdSet([0]) == {0};
  }

  /** A refresh job is enqueued and opened. */
  lemma OpenedJob(run: seq<Label>, at: Time, r: Row, j: JobId) returns (run': seq<Label>)
    requires Exec(INITIAL, run) == Lone(at, r, {0}, map[], Enqueuing([0]))
    ensures Exec(INITIAL, run') == Lone(at, r, {0}, map[j := Job([0], true, 0, AtRow)], Idle)
  {
    hide Exec, Step;
    var s0, s1 := Lone(at, r, {0}, map[], Enqueuing([0])), Lone(at, r, {0}, map[j := Job([0], false, 0, AtRow)], Idle);
    StepIsElse(s0, Enqueue(j, true));
    run' := Then(run, s0, Enqueue(j, true));
    StepIsElse(s1, OpenJob(j, true));
    run' := Then(run', s1, OpenJob(j, true));
  }

  /** The job gets the listing. */
  lemma ListedJob(run: seq<Label>, at: Time, r: Row, j: JobId) returns (run': seq<Label>)
    requires Exec(INITIAL, run) == Lone(at, r, {0}, map[j := Job([0], true, 0, AtRow)], Idle) && r.phase.Starting?
    ensures Exec(INITIAL, run') == Lone(at, r, {0}, map[j := Job([0], true, 0, Choosing(LISTING))], Idle)
  {
    hide Exec, Step;
    var s0, s1 := Lone(at, r, {0}, map[j := Job([0], true, 0, AtRow)], Idle), Lone(at, r, {0}, map[j := Job([0], true, 0, Listing)], Idle);
    StepIs(s0, ReadRow(j));
    run' := Then(run, s0, ReadRow(j));
    assert Honest(s1.bridge, LISTING);
    StepIs(s1, GotListing(j, LISTING));
    run' := Then(run', s1, GotListing(j, LISTING));
  }

  lemma FirstChoice(r: Row, tracked: set<BridgeId>)
    requires r.torrent == 7
    ensures Adopted(LISTING, r.torrent, tracked) == if 5 in tracked then None else Some(LISTING[0])
  {
    assert LISTING[..|LISTING| - 1] == [];
    assert Adopted([], r.torrent, tracked) == None;
  }

  lemma LoneTracked(r: Row)
    ensures Tracked(map[0 := r]) == if r.bridge.Some? then {r.bridge.value} else {}
  {
    var rows: Rows := map[0 := r];
    assert r.bridge.Some? ==> rows[0].bridge.value in Tracked(rows);
  }

  /** Adoption saves the id and then fails to save the phase. */
  lemma HalfAdopted(run: seq<Label>, at: Time, r: Row) returns (run': seq<Label>)
    requires Exec(INITIAL, run) == Lone(at, r, {0}, map[0 := Job([0], true, 0, Choosing(LISTING))], Idle)
    requires r == Starter(None, r.updatedAt)
    ensures Exec(INITIAL, run') == Lone(at, Starter(Some(5), at), {}, map[], Idle)
  {
    hide Exec, Step, Adopted;
    var s0 := Lone(at, r, {0}, map[0 := Job([0], true, 0, Choosing(LISTING))], Idle);
    var s1 := Lone(at, r, {0}, map[0 := Job([0], true, 0, SavingId(LISTING, LISTING[0]))], Idle);
    var s2 := Lone(at, Starter(Some(5), at), {0}, map[0 := Job([0], true, 0, SavingPhase(Queued))], Idle);
    LoneTracked(r);
    FirstChoice(r, Tracked(s0.rows));
    StepIs(s0, Choose(0));
    run' := Then(run, s0, Choose(0));
    StepIs(s1, SaveId(0));
    run' := Then(run', s1, SaveId(0));
    StepIsElse(s2, EndJob(0));
    run' := Then(run', s2, EndJob(0));
    assert s2.jobs - {0} == map[] && {0} - IdSet([0]) == {};
  }

  /** The next visit finds the row's own grab recorded and gives the row up. */
  lemma OwnIdGivenUp(run: seq<Label>, at: Time, r: Row) returns (run': seq<Label>)
    requires Exec(INITIAL, run) == Lone(at, r, {0}, map[1 := Job([0], true, 0, Choosing(LISTING))], Idle)
    requires r == Starter(Some(5), r.updatedAt)
    ensures Exec(INITIAL, run').rows == map[0 := r.(phase := Error, updatedAt := at)]
  {
    hide Exec, Step, Adopted;
    var s0 := Lone(at, r, {0}, map[1 := Job([0], true, 0, Choosing(LISTING))], Idle);
    var s1 := Lone(at, r, {0}, map[1 := Job([0], true, 0, GivingUp(LISTING))], Idle);
    LoneTracked(r);
    FirstChoice(r, Tracked(s0.rows));
    StepIs(s0, Choose(1));
    run' := Then(run, s0, Choose(1));
    StepIs(s1, GiveUp(1));
    run' := Then(run', s1, GiveUp(1));
  }

  /** A reachable row whose id was saved and whose phase was not. */
  lemma HalfAdoptedReached() returns (run: seq<Label>, at: Time)
    ensures at == STARTING_STALE_AFTER && Exec(INITIAL, run) == Lone(at, Starter(Some(5), at), {}, map[], Idle)
  {
    hide Exec;
    at := STARTING_STALE_AFTER;
    run := LostSave();
    run := ClaimedBatch(run, 0, Starter(None, 0));
    run := OpenedJob(run, at, Starter(None, 0), 0);
    run := ListedJob(run, at, Starter(None, 0), 0);
    run := HalfAdopted(run, at, Starter(None, 0));
  }

  /** From the start to a row in error whose grab the bridge still has, queued, and lists: the id was saved,
      the phase was not, and the next visit gave the row up. */
  lemma RecoveredGrabLost() returns (run: seq<Label>)
    ensures var s := Exec(INITIAL, run);
            && 0 in s.rows && s.rows[0].phase.Error? && s.rows[0].bridge == Some(5)
            && LISTING[0].id == 5 && LISTING[0].torrent == s.rows[0].torrent && LISTING[0].phase.Queued?
  {
    hide Exec;
    var at;
    run, at := HalfAdoptedReached();
    var r := Starter(Some(5), at);
    run := ClaimedBatch(run, at, r);
    run := OpenedJob(run, at + STARTING_STALE_AFTER, r, 1);
    run := ListedJob(run, at + STARTING_STALE_AFTER, r, 1);
    run := OwnIdGivenUp(run, at + STARTING_STALE_AFTER, r);
  }

  // ---------------------------------------------------------------------------------------------
  // Leaks
  // ---------------------------------------------------------------------------------------------

  /** From the start to a claim that no job holds: the job's running record could not be written. */
  lemma LeakReached() returns (run: seq<Label>)
    ensures var s := Exec(INITIAL, run); s.leaked == {0} && s.claims == {0} && Held(s.jobs) + InHand(s.dispatcher) == {}
  {
    hide Exec, Step;
    var at, r := STARTING_STALE_AFTER, Starter(None, 0);
    run := LostSave();
    run := ClaimedBatch(run, 0, r);
    var s0, s1 := Lone(at, r, {0}, map[], Enqueuing([0])), Lone(at, r, {0}, map[0 := Job([0], false, 0, AtRow)], Idle);
    StepIsElse(s0, Enqueue(0, true));
    run := Then(run, s0, Enqueue(0, true));
    StepIsElse(s1, OpenJob(0, false));
    run := Then(run, s1, OpenJob(0, false));
    assert s1.jobs - {0} == map[] && {} + IdSet([0]) == {0};
    NothingHeld();
  }

  lemma NothingHeld()
    ensures Held(map[]) == {}
  {
  }

  /** A step that leaves claims behind: a queued job is dropped before it opens, or the dispatcher is
      aborted between its claim and its enqueue. */
  predicate LeaksNow(s: State, l: Label) {
    || (l.OpenJob? && !l.ok && l.j in s.jobs && !s.jobs[l.j].started && s.jobs[l.j].ids != [])
    || (l.DispatcherAborted? && s.dispatcher.Enqueuing? && s.dispatcher.batch != [])
  }

  lemma SomeId(ids: seq<GrabId>)
    ensures IdSet(ids) == {} <==> ids == []
  {
    if ids != [] { assert ids[0] in IdSet(ids); }
  }

  lemma LeakedStep(s: State, l: Label)
    ensures Step(s, l).leaked != {} <==> (!l.Crash? && s.leaked != {}) || LeaksNow(s, l)
  {
    hide IdSet;
    if l.Crash? {
    } else if l.OpenJob? {
      StepIsElse(s, l);
      if l.j in s.jobs { SomeId(s.jobs[l.j].ids); }
    } else if l.DispatcherAborted? {
      if s.dispatcher.Enqueuing? { SomeId(s.dispatcher.batch); }
    } else {
      LeakStep(s, l);
    }
  }

  /** Step `i` leaks, and the process has not restarted since. */
  ghost predicate LeakedAt(run: seq<Label>, i: nat) {
    && i < |run| && LeaksNow(Exec(INITIAL, run[..i]), run[i])
    && forall k :: i < k < |run| ==> !run[k].Crash?
  }

  /** Claims have leaked exactly when, since the last restart, a queued job with ids was dropped before it
      opened or the dispatcher was aborted with a batch in hand. */
  lemma {:induction false} LeakedExactly(run: seq<Label>)
    ensures Exec(INITIAL, run).leaked != {} <==> exists i: nat :: LeakedAt(run, i)
    decreases |run|
  {
    hide Exec, Step, LeaksNow;
    if run == [] {
      Nothing();
    } else {
      var n := |run| - 1;
      var prefix, l := run[..n], run[n];
      assert run == prefix + [l];
      ExecSnoc(INITIAL, prefix, l);
      LeakedStep(Exec(INITIAL, prefix), l);
      LeakedExactly(prefix);
      forall i: nat | i < n ensures LeakedAt(run, i) <==> LeakedAt(prefix, i) && !l.Crash? { assert prefix[..i] == run[..i]; }
      if LeaksNow(Exec(INITIAL, prefix), l) { assert LeakedAt(run, n); }
      if exists i: nat :: LeakedAt(prefix, i) {
        var i: nat :| LeakedAt(prefix, i);
        assert !l.Crash? ==> LeakedAt(run, i);
      }
      if exists i: nat :: LeakedAt(run, i) {
        var i: nat :| LeakedAt(run, i);
        assert i < n ==> LeakedAt(prefix, i);
      }
    }
  }
}
