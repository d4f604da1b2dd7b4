/** What holds of grabs and of their claims over whole runs. */
module GrabTheorems {

  import opened Common
  import opened Grabs
  import opened GrabProofs

  lemma InitialInv()
    ensures Inv(INITIAL)
  {
    assert Held(INITIAL.jobs) == {};
  }

  lemma {:induction false} RunKeeps(s: State, run: seq<Label>)
    requires Inv(s)
    ensures Inv(Exec(s, run))
    decreases |run|
  {
    hide Inv, Step;
    if run != [] {
      StepKeeps(s, run[0]);
      RunKeeps(Step(s, run[0]), run[1..]);
    }
  }

  // ---------------------------------------------------------------------------------------------
  // Rows
  // ---------------------------------------------------------------------------------------------

  /** In every reachable state: at most one active row per torrent, no bridge grab tracked twice, a
      bridge id behind every queued, downloading or completed row, a bounded number of failed handoffs
      that an active row has not used up, and at most one POST per row. */
  lemma ReachableRows(run: seq<Label>, a: GrabId, b: GrabId)
    requires var s := Exec(INITIAL, run); a in s.rows && b in s.rows
    ensures var s := Exec(INITIAL, run);
            && (a != b && s.rows[a].torrent == s.rows[b].torrent ==> !Active(s.rows[a].phase) || !Active(s.rows[b].phase))
            && (a != b && s.rows[a].bridge.Some? ==> s.rows[a].bridge != s.rows[b].bridge)
            && (s.rows[a].phase.Queued? || s.rows[a].phase.Downloading? || s.rows[a].phase.Completed? ==> s.rows[a].bridge.Some?)
            && s.rows[a].handoffs <= HANDOFF_MAX_ATTEMPTS
            && (Active(s.rows[a].phase) ==> s.rows[a].handoffs < HANDOFF_MAX_ATTEMPTS)
            && Posts(s.posts, a) <= 1
  {
    hide CreatesOk, JobsOk, ClaimsOk, DispatcherOk, Exec;
    InitialInv();
    RunKeeps(INITIAL, run);
    var s := Exec(INITIAL, run);
    assert RowOk(s.rows[a], s.bridge, s.now);
    assert a != b ==> !SameBridge(s.rows[a], s.rows[b]) && !BothActive(s.rows[a], s.rows[b]);
  }

  /** A POST goes out for a row that has had none, while no other row of its torrent is active. */
  lemma PostAlone(run: seq<Label>, c: CreateId, reply: Reply, other: GrabId)
    requires var s := Exec(INITIAL, run); c in s.creates && Step(s, Post(c, reply)) != s && other in s.rows
    ensures var s := Exec(INITIAL, run);
            && HasRow(s.creates[c]) && s.creates[c].row in s.rows
            && Posts(s.posts, s.creates[c].row) == 0
            && (other != s.creates[c].row && s.rows[other].torrent == s.creates[c].torrent ==> !Active(s.rows[other].phase))
  {
    hide JobsOk, ClaimsOk, DispatcherOk, Exec, HasActive, Unrecorded;
    InitialInv();
    RunKeeps(INITIAL, run);
    var s := Exec(INITIAL, run);
    assert CreateOk(s.creates[c], s.rows, s.bridge, s.now, s.posts, Taken(s));
    assert other != s.creates[c].row ==> !BothActive(s.rows[other], s.rows[s.creates[c].row]);
  }

  ghost predicate OneActive(rows: Rows) {
    forall a, b :: a in rows && b in rows && BothActive(rows[a], rows[b]) ==> a == b
  }

  /** An insert keeps one active row per torrent exactly when no row of its torrent is active at that
      moment, whatever the check before it saw. */
  lemma InsertExactly(s: State, c: CreateId, id: GrabId)
    requires OneActive(s.rows) && c in s.creates && s.creates[c].Inserting? && id !in s.rows
    ensures OneActive(DoInsert(s, c, id).rows) <==> !HasActive(s.rows, s.creates[c].torrent)
  {
    var rows' := DoInsert(s, c, id).rows;
    if HasActive(s.rows, s.creates[c].torrent) {
      var a :| a in s.rows && s.rows[a].torrent == s.creates[c].torrent && Active(s.rows[a].phase);
      assert BothActive(rows'[a], rows'[id]);
    } else {
      forall a, b | a in rows' && b in rows' && a != b ensures !BothActive(rows'[a], rows'[b]) {
        if a != id && b != id { assert !BothActive(s.rows[a], s.rows[b]); }
      }
    }
  }

  /** A create that has passed its check keeps the invariant exactly when no other create of its torrent
      is under way. */
  lemma BeginExactly(s: State, c: CreateId, request: nat, torrent: Torrent)
    requires Inv(s) && c !in s.creates && !HasActive(s.rows, torrent)
    ensures Inv(Began(s, c, request, torrent)) <==> !CreateRunning(s.creates, torrent)
  {
    hide RowsOk, PostsOk, JobsOk, ClaimsOk, DispatcherOk, HasActive;
    var s' := Began(s, c, request, torrent);
    if CreateRunning(s.creates, torrent) {
      var d :| d in s.creates && s.creates[d].torrent == torrent;
      assert d in s'.creates && d != c && s'.creates[d].torrent == s'.creates[c].torrent;
    } else {
      BeginKeeps(s, c, request, torrent);
    }
  }

  /** Why: two creates that have both passed the check make two active rows, straight from the start. */
  lemma RacingCreates(torrent: Torrent)
    ensures var s := DoInsert(DoInsert(Began(Began(INITIAL, 0, 0, torrent), 1, 1, torrent), 0, 0), 1, 1);
            0 in s.rows && 1 in s.rows && BothActive(s.rows[0], s.rows[1])
  {
    var s2 := Began(Began(INITIAL, 0, 0, torrent), 1, 1, torrent);
    assert s2.creates[0] == Inserting(0, torrent) && s2.creates[1] == Inserting(1, torrent);
  }

  /** The job whose step may save row `id`. */
  predicate JobAt(s: State, j: JobId, id: GrabId) { On(s, j) && Current(s, j) == id }

  predicate CreateAt(s: State, c: CreateId, id: GrabId) { c in s.creates && HasRow(s.creates[c]) && s.creates[c].row == id }

  /** A handoff of row `id` that fails. */
  predicate FailsNow(s: State, l: Label, id: GrabId) {
    l.Handoff? && l.item.None? && JobAt(s, l.j, id) && s.jobs[l.j].stage.Staging?
  }

  /** What one step may do to a row: nothing at all unless its create or the job at it saves it; and
      then request and torrent stay, and the handoff count grows by the handoffs that failed. */
  predicate RowGoes(r: Row, r': Row, failed: bool) {
    && r'.request == r.request && r'.torrent == r.torrent
    && r'.handoffs == r.handoffs + (if failed then 1 else 0)
  }

  predicate Saves(l: Label) { l.BridgeFails? || l.GiveUp? || l.SaveId? || l.SavePhase? }

  predicate Creates(l: Label) { l.InsertRow? || l.SaveCreate? }

  /** What a job's save may do to row `id`. */
  predicate Touched(s: State, q: State, j: JobId, id: GrabId)
    requires id in s.rows
  {
    id in q.rows && RowGoes(s.rows[id], q.rows[id], false) && (!JobAt(s, j, id) ==> q.rows[id] == s.rows[id])
  }

  lemma FailsRow(s: State, j: JobId, id: GrabId)
    requires id in s.rows
    ensures Touched(s, DoFails(s, j), j, id)
  {
  }

  lemma GiveUpRow(s: State, j: JobId, id: GrabId)
    requires id in s.rows
    ensures Touched(s, DoGiveUp(s, j), j, id)
  {
  }

  lemma SaveIdRow(s: State, j: JobId, id: GrabId)
    requires id in s.rows
    ensures Touched(s, DoSaveId(s, j), j, id)
  {
  }

  lemma SavePhaseRow(s: State, j: JobId, id: GrabId)
    requires id in s.rows
    ensures Touched(s, DoSavePhase(s, j), j, id)
  {
  }

  lemma SaveRowStep(s: State, l: Label, id: GrabId)
    requires id in s.rows && Saves(l)
    ensures id in Step(s, l).rows
    ensures RowGoes(s.rows[id], Step(s, l).rows[id], false)
    ensures !JobAt(s, l.j, id) ==> Step(s, l).rows[id] == s.rows[id]
  {
    hide RowGoes, JobAt, DoBegin, DoInsert, DoPost, DoSaveCreate, DoQuery, DoTake, DoEnqueue, DoAbort, DoOpen, DoRead, DoFails, DoListing, DoChoose,
         DoGiveUp, DoSaveId, DoReply, DoSavePhase, DoHandoff, DoEnd, YoungCreates;
    match l
    case BridgeFails(j) => FailsRow(s, j, id);
    case GiveUp(j) => GiveUpRow(s, j, id);
    case SaveId(j) => SaveIdRow(s, j, id);
    case SavePhase(j) => SavePhaseRow(s, j, id);
  }

  lemma HandoffRowStep(s: State, j: JobId, item: Option<nat>, id: GrabId)
    requires Inv(s) && id in s.rows
    ensures id in DoHandoff(s, j, item).rows
    ensures RowGoes(s.rows[id], DoHandoff(s, j, item).rows[id], FailsNow(s, Handoff(j, item), id))
    ensures !JobAt(s, j, id) ==> DoHandoff(s, j, item).rows[id] == s.rows[id]
  {
    hide Inv;
    if On(s, j) { AtHand(s, j); }
  }

  lemma CreateRowStep(s: State, l: Label, id: GrabId)
    requires id in s.rows && Creates(l)
    ensures id in Step(s, l).rows
    ensures RowGoes(s.rows[id], Step(s, l).rows[id], false)
    ensures Step(s, l).rows[id] == s.rows[id] || (l.SaveCreate? && CreateAt(s, l.c, id))
  {
  }

  lemma QuietStep(s: State, l: Label)
    requires !Saves(l) && !Creates(l) && !l.Handoff?
    ensures Step(s, l).rows == s.rows
  {
    hide DoBegin, DoInsert, DoPost, DoSaveCreate, DoQuery, DoTake, DoEnqueue, DoAbort, DoOpen, DoRead, DoFails, DoListing, DoChoose,
         DoGiveUp, DoSaveId, DoReply, DoSavePhase, DoHandoff, DoEnd, YoungCreates;
  }

  lemma RowStep(s: State, l: Label, id: GrabId)
    requires Inv(s) && id in s.rows
    ensures id in Step(s, l).rows
    ensures RowGoes(s.rows[id], Step(s, l).rows[id], FailsNow(s, l, id))
    ensures Step(s, l).rows[id] == s.rows[id] || (l.SaveCreate? && CreateAt(s, l.c, id)) || (exists j :: JobAt(s, j, id))
  {
    hide Inv, DoHandoff, JobAt, CreateAt;
    if Saves(l) {
      SaveRowStep(s, l, id);
    } else if Creates(l) {
      CreateRowStep(s, l, id);
    } else if l.Handoff? {
      HandoffRowStep(s, l.j, l.item, id);
    } else {
      QuietStep(s, l);
    }
  }

  /** Neither a job nor a create is ever at a closed row. */
  lemma ClosedAlone(s: State, id: GrabId)
    requires Inv(s) && id in s.rows && Closed(s.rows[id])
    ensures !(exists j :: JobAt(s, j, id)) && forall c :: !CreateAt(s, c, id)
  {
    hide ClaimsOk, DispatcherOk, HasActive, Unrecorded;
    assert RowOk(s.rows[id], s.bridge, s.now);
    forall j ensures !JobAt(s, j, id) { if On(s, j) { AtHand(s, j); } }
    forall c ensures !CreateAt(s, c, id) {
      assert c in s.creates ==> CreateOk(s.creates[c], s.rows, s.bridge, s.now, s.posts, Taken(s));
    }
  }

  /** A row that has left the active phases, or has been linked to its ingest item, is never written,
      never selected and never handed off again. */
  lemma {:induction false} ClosedForever(s: State, run: seq<Label>, id: GrabId)
    requires Inv(s) && id in s.rows && Closed(s.rows[id])
    ensures var s' := Exec(s, run);
            && id in s'.rows && s'.rows[id] == s.rows[id]
            && (s'.dispatcher.Claiming? || s'.dispatcher.Enqueuing? ==> id !in s'.dispatcher.batch)
    decreases |run|
  {
    hide Step, RowGoes, FailsNow, JobAt, CreateAt, RowsOk, CreatesOk, JobsOk, ClaimsOk;
    if run == [] {
    } else {
      ClosedAlone(s, id);
      RowStep(s, run[0], id);
      StepKeeps(s, run[0]);
      ClosedForever(Step(s, run[0]), run[1..], id);
    }
  }

  /** The handoffs of row `id` that fail along a run. */
  ghost function FailedHandoffs(s: State, run: seq<Label>, id: GrabId): nat
    decreases |run|
  {
    if run == [] then 0
    else (if FailsNow(s, run[0], id) then 1 else 0) + FailedHandoffs(Step(s, run[0]), run[1..], id)
  }

  lemma {:induction false} HandoffsCounted(s: State, run: seq<Label>, id: GrabId)
    requires Inv(s) && id in s.rows
    ensures var s' := Exec(s, run);
            id in s'.rows && s'.rows[id].handoffs == s.rows[id].handoffs + FailedHandoffs(s, run, id)
            && s'.rows[id].torrent == s.rows[id].torrent && s'.rows[id].request == s.rows[id].request
    decreases |run|
  {
    hide Inv, Step, FailsNow, JobAt, CreateAt;
    if run != [] {
      RowStep(s, run[0], id);
      StepKeeps(s, run[0]);
      HandoffsCounted(Step(s, run[0]), run[1..], id);
    }
  }

  /** No row sees more failed handoffs than the budget, however long it lives; the count is never reset,
      and the last failure ends the row. */
  lemma HandoffBudget(s: State, run: seq<Label>, id: GrabId)
    requires Inv(s) && id in s.rows
    ensures s.rows[id].handoffs + FailedHandoffs(s, run, id) <= HANDOFF_MAX_ATTEMPTS
    ensures s.rows[id].handoffs + FailedHandoffs(s, run, id) == HANDOFF_MAX_ATTEMPTS ==>
              id in Exec(s, run).rows && !Active(Exec(s, run).rows[id].phase)
  {
    hide Exec, FailedHandoffs, CreatesOk, JobsOk, ClaimsOk, DispatcherOk;
    HandoffsCounted(s, run, id);
    RunKeeps(s, run);
    assert RowOk(Exec(s, run).rows[id], Exec(s, run).bridge, Exec(s, run).now);
  }

  // ---------------------------------------------------------------------------------------------
  // Claims
  // ---------------------------------------------------------------------------------------------

  /** In every reachable state the ids of any two jobs are disjoint and claimed. */
  lemma JobsDisjoint(run: seq<Label>, a: JobId, b: JobId)
    requires var s := Exec(INITIAL, run); a in s.jobs && b in s.jobs && a != b
    ensures var s := Exec(INITIAL, run); IdSet(s.jobs[a].ids) !! IdSet(s.jobs[b].ids) && IdSet(s.jobs[a].ids) <= s.claims
  {
    hide RowsOk, CreatesOk, PostsOk, DispatcherOk, Exec;
    InitialInv();
    RunKeeps(INITIAL, run);
    var s := Exec(INITIAL, run);
    forall id | id in s.jobs[a].ids ensures id in s.claims { assert id in Held(s.jobs); }
  }

  /** In every reachable state the claims are, without overlap, the ids of the jobs, of the batch in hand,
      and the leaked ones; so they are exactly those of the jobs and the batch when nothing has leaked. */
  lemma ClaimsExact(run: seq<Label>)
    ensures var s := Exec(INITIAL, run);
            && s.claims == Held(s.jobs) + InHand(s.dispatcher) + s.leaked
            && Held(s.jobs) + InHand(s.dispatcher) !! s.leaked
            && (s.claims == Held(s.jobs) + InHand(s.dispatcher) <==> s.leaked == {})
  {
    hide RowsOk, CreatesOk, PostsOk, JobsOk, DispatcherOk, Exec;
    InitialInv();
    RunKeeps(INITIAL, run);
    var s := Exec(INITIAL, run);
    if s.leaked != {} {
      var id :| id in s.leaked;
      assert id in s.claims && id !in Held(s.jobs) + InHand(s.dispatcher);
    }
  }

  /** The only steps that leak: a job dropped before it opened, a dispatcher aborted between claim and
      enqueue. */
  predicate Leaks(l: Label) { l.DispatcherAborted? || (l.OpenJob? && !l.ok) }

  lemma {:induction false} NoLeak(s: State, run: seq<Label>)
    requires s.leaked == {} && forall i :: 0 <= i < |run| ==> !Leaks(run[i])
    ensures Exec(s, run).leaked == {}
    decreases |run|
  {
    hide DoBegin, DoInsert, DoPost, DoSaveCreate, DoQuery, DoTake, DoEnqueue, DoAbort, DoOpen, DoRead, DoFails, DoListing, DoChoose,
         DoGiveUp, DoSaveId, DoReply, DoSavePhase, DoHandoff, DoEnd, YoungCreates;
    if run != [] {
      assert !Leaks(run[0]);
      if run[0].Crash? { assert Step(s, run[0]).leaked == {}; } else { LeakStep(s, run[0]); }
      NoLeak(Step(s, run[0]), run[1..]);
    }
  }

  lemma LeakStep(s: State, l: Label)
    requires !l.Crash?
    ensures s.leaked <= Step(s, l).leaked
    ensures !Leaks(l) ==> Step(s, l).leaked == s.leaked
  {
    hide DoBegin, DoInsert, DoPost, DoSaveCreate, DoQuery, DoTake, DoEnqueue, DoRead, DoFails, DoListing, DoChoose,
         DoGiveUp, DoSaveId, DoReply, DoSavePhase, DoHandoff, DoEnd, YoungCreates;
  }

  lemma LeakedAlone(s: State, id: GrabId)
    requires Inv(s) && id in s.leaked
    ensures id in s.rows && id in s.claims && !(exists j :: JobAt(s, j, id)) && forall c :: !CreateAt(s, c, id)
  {
    hide RowsOk, JobsOk, DispatcherOk, HasActive, Unrecorded;
    forall j ensures !JobAt(s, j, id) {
      if On(s, j) { assert Current(s, j) in s.jobs[j].ids && Current(s, j) in Held(s.jobs); }
    }
    forall c ensures !CreateAt(s, c, id) {
      assert c in s.creates ==> CreateOk(s.creates[c], s.rows, s.bridge, s.now, s.posts, Taken(s));
    }
  }

  /** A row whose claim leaked stays claimed and is not written again, however long it has been due,
      until the process restarts. */
  lemma {:induction false} LeakedUntilRestart(s: State, run: seq<Label>, id: GrabId)
    requires Inv(s) && id in s.leaked && forall i :: 0 <= i < |run| ==> !run[i].Crash?
    ensures var s' := Exec(s, run);
            id in s.rows && id in s'.rows && id in s'.claims && s'.rows[id] == s.rows[id]
    decreases |run|
  {
    hide Inv, Step, RowGoes, FailsNow, JobAt, CreateAt;
    LeakedAlone(s, id);
    if run != [] {
      LeakStep(s, run[0]);
      RowStep(s, run[0], id);
      StepKeeps(s, run[0]);
      LeakedUntilRestart(Step(s, run[0]), run[1..], id);
    }
  }

  /** A restart clears every claim. */
  lemma RestartFrees(s: State, run: seq<Label>)
    requires forall i :: 0 <= i < |run| ==> !Leaks(run[i])
    ensures Exec(Step(s, Crash), run).leaked == {}
  {
    NoLeak(Step(s, Crash), run);
  }
}
