/** Every step of the grab protocol keeps its invariant. */
module GrabProofs {

  import opened Common
  import opened Grabs

  // ---------------------------------------------------------------------------------------------
  // What one saved row does to each part of the invariant
  // ---------------------------------------------------------------------------------------------

  /** The saves a job may make: they keep the torrent, never revive the row, and record a bridge id
      only on an active row, only one of the row's torrent and only one nobody has recorded. */
  ghost predicate Lawful(rows: Rows, bridge: map<BridgeId, Torrent>, now: Time, id: GrabId, r: Row) {
    && id in rows
    && RowOk(r, bridge, now)
    && r.torrent == rows[id].torrent
    && Active(rows[id].phase)
    && (r.bridge != rows[id].bridge ==> r.bridge.Some? && Unrecorded(rows, r.bridge.value))
  }

  lemma RowsWrite(rows: Rows, bridge: map<BridgeId, Torrent>, now: Time, id: GrabId, r: Row)
    requires RowsOk(rows, bridge, now) && Lawful(rows, bridge, now, id, r)
    ensures RowsOk(rows[id := r], bridge, now)
  {
    hide RowOk;
    var rows' := rows[id := r];
    forall a, b | a in rows' && b in rows' && SameBridge(rows'[a], rows'[b]) ensures a == b {
      assert a == b || SameBridge(rows[a], rows[b]);
    }
    forall a, b | a in rows' && b in rows' && BothActive(rows'[a], rows'[b]) ensures a == b {
      assert BothActive(rows[a], rows[b]);
    }
  }

  /** No other active row shares the torrent, so an id recorded here was awaited nowhere else. */
  lemma StillUnrecorded(rows: Rows, bridge: map<BridgeId, Torrent>, now: Time, id: GrabId, r: Row, other: GrabId, bid: BridgeId)
    requires RowsOk(rows, bridge, now) && Lawful(rows, bridge, now, id, r)
    requires other in rows && other != id && Active(rows[other].phase)
    requires bid in bridge && bridge[bid] == rows[other].torrent && Unrecorded(rows, bid)
    ensures Unrecorded(rows[id := r], bid)
  {
    assert !BothActive(rows[id], rows[other]);
  }

  /** The choice depends only on which listed grabs of the torrent are tracked. */
  lemma {:induction false} AdoptedSame(listing: seq<Listed>, torrent: Torrent, tracked: set<BridgeId>, tracked': set<BridgeId>)
    requires forall i :: 0 <= i < |listing| && listing[i].torrent == torrent ==> (listing[i].id in tracked <==> listing[i].id in tracked')
    ensures Adopted(listing, torrent, tracked) == Adopted(listing, torrent, tracked')
  {
    if listing != [] { AdoptedSame(listing[..|listing| - 1], torrent, tracked, tracked'); }
  }

  /** A save of one row does not change the choice made for another. */
  lemma AdoptedKept(rows: Rows, bridge: map<BridgeId, Torrent>, now: Time, id: GrabId, r: Row, other: GrabId, listing: seq<Listed>)
    requires RowsOk(rows, bridge, now) && Lawful(rows, bridge, now, id, r)
    requires other in rows && other != id && Active(rows[other].phase) && Honest(bridge, listing)
    ensures Adopted(listing, rows[other].torrent, Tracked(rows[id := r])) == Adopted(listing, rows[other].torrent, Tracked(rows))
  {
    hide Adopted;
    var t, rows' := rows[other].torrent, rows[id := r];
    assert rows[id].torrent != t by { assert !BothActive(rows[id], rows[other]); }
    assert RowOk(rows[id], bridge, now);
    forall i | 0 <= i < |listing| && listing[i].torrent == t
      ensures listing[i].id in Tracked(rows) <==> listing[i].id in Tracked(rows')
    {
      TrackedElsewhere(rows, id, r, listing[i].id);
    }
    AdoptedSame(listing, t, Tracked(rows'), Tracked(rows));
  }

  lemma TrackedElsewhere(rows: Rows, id: GrabId, r: Row, bid: BridgeId)
    requires id in rows && rows[id].bridge != Some(bid) && r.bridge != Some(bid)
    ensures bid in Tracked(rows) <==> bid in Tracked(rows[id := r])
  {
    var rows' := rows[id := r];
    assert forall x :: x in rows && x != id ==> rows'[x] == rows[x];
    if bid in Tracked(rows) {
      var x :| x in rows && rows[x].bridge == Some(bid);
      assert rows'[x].bridge.value in Tracked(rows');
    }
  }

  lemma CreatesWrite(creates: map<CreateId, Create>, rows: Rows, bridge: map<BridgeId, Torrent>, now: Time,
                     posts: map<GrabId, nat>, taken: set<GrabId>, id: GrabId, r: Row)
    requires RowsOk(rows, bridge, now) && Lawful(rows, bridge, now, id, r) && id in taken
    requires CreatesOk(creates, rows, bridge, now, posts, taken)
    ensures CreatesOk(creates, rows[id := r], bridge, now, posts, taken)
  {
    hide RowsOk, Lawful, RowOk;
    var rows' := rows[id := r];
    forall c | c in creates ensures CreateOk(creates[c], rows', bridge, now, posts, taken) {
      CreateWrite(creates[c], rows, bridge, now, posts, taken, id, r);
    }
  }

  lemma CreateWrite(c: Create, rows: Rows, bridge: map<BridgeId, Torrent>, now: Time,
                    posts: map<GrabId, nat>, taken: set<GrabId>, id: GrabId, r: Row)
    requires RowsOk(rows, bridge, now) && Lawful(rows, bridge, now, id, r) && (HasRow(c) ==> c.row != id)
    requires CreateOk(c, rows, bridge, now, posts, taken)
    ensures CreateOk(c, rows[id := r], bridge, now, posts, taken)
  {
    hide RowsOk, RowOk;
    var rows' := rows[id := r];
    assert forall a :: a in rows && Active(rows'[a].phase) ==> Active(rows[a].phase) && rows'[a].torrent == rows[a].torrent;
    if c.Saving? { StillUnrecorded(rows, bridge, now, id, r, c.row, c.bid); }
  }

  lemma JobsWrite(jobs: map<JobId, Job>, rows: Rows, bridge: map<BridgeId, Torrent>, now: Time, j: JobId, id: GrabId, r: Row)
    requires RowsOk(rows, bridge, now) && Lawful(rows, bridge, now, id, r)
    requires JobsOk(jobs, rows, bridge)
    requires forall k :: k in jobs && k != j ==> id !in jobs[k].ids
    ensures forall k :: k in jobs && k != j ==> JobOk(jobs[k], rows[id := r], bridge)
  {
    hide RowsOk, Lawful, RowOk;
    forall k | k in jobs && k != j ensures JobOk(jobs[k], rows[id := r], bridge) {
      JobWrite(jobs[k], rows, bridge, now, id, r);
    }
  }

  lemma JobWrite(job: Job, rows: Rows, bridge: map<BridgeId, Torrent>, now: Time, id: GrabId, r: Row)
    requires RowsOk(rows, bridge, now) && Lawful(rows, bridge, now, id, r)
    requires JobOk(job, rows, bridge) && id !in job.ids
    ensures JobOk(job, rows[id := r], bridge)
  {
    hide RowsOk, RowOk, Honest;
    var rows' := rows[id := r];
    forall i | 0 <= i < |job.ids| ensures job.ids[i] in rows' && rows'[job.ids[i]] == rows[job.ids[i]] {
      assert job.ids[i] in job.ids;
    }
    if job.pos < |job.ids| && (job.stage.GivingUp? || job.stage.SavingId?) {
      AdoptedKept(rows, bridge, now, id, r, job.ids[job.pos], job.stage.listing);
    }
  }

  lemma DispatcherWrite(d: Dispatcher, rows: Rows, claims: set<GrabId>, now: Time, id: GrabId, r: Row)
    requires DispatcherOk(d, rows, claims, now) && id !in Batched(d)
    ensures DispatcherOk(d, rows[id := r], claims, now)
  {
    if d.Claiming? || d.Enqueuing? {
      forall i | 0 <= i < |d.batch| ensures d.batch[i] != id { assert d.batch[i] in IdSet(d.batch); }
    }
  }

  // ---------------------------------------------------------------------------------------------
  // What one job step does to the claims
  // ---------------------------------------------------------------------------------------------

  lemma HeldSame(jobs: map<JobId, Job>, j: JobId, job: Job)
    requires j in jobs && job.ids == jobs[j].ids
    ensures Held(jobs[j := job]) == Held(jobs)
  {
    var jobs' := jobs[j := job];
    forall id ensures id in Held(jobs') <==> id in Held(jobs) {
      if id in Held(jobs) {
        var k :| k in jobs && id in jobs[k].ids;
        assert k in jobs' && id in jobs'[k].ids;
      }
      if id in Held(jobs') {
        var k :| k in jobs' && id in jobs'[k].ids;
        assert k in jobs && id in jobs[k].ids;
      }
    }
  }

  lemma HeldMore(jobs: map<JobId, Job>, j: JobId, job: Job)
    requires j !in jobs
    ensures Held(jobs[j := job]) == Held(jobs) + IdSet(job.ids)
  {
    var jobs' := jobs[j := job];
    forall id ensures id in Held(jobs') <==> id in Held(jobs) || id in job.ids {
      if id in Held(jobs) {
        var k :| k in jobs && id in jobs[k].ids;
        assert k in jobs' && id in jobs'[k].ids;
      }
      if id in job.ids { assert j in jobs' && id in jobs'[j].ids; }
    }
  }

  /** A job that ends gives back exactly its own ids. */
  lemma HeldLess(jobs: map<JobId, Job>, j: JobId)
    requires j in jobs
    requires forall a, b, id :: a in jobs && b in jobs && id in jobs[a].ids && id in jobs[b].ids ==> a == b
    ensures Held(jobs - {j}) == Held(jobs) - IdSet(jobs[j].ids)
    ensures IdSet(jobs[j].ids) <= Held(jobs)
  {
    var jobs' := jobs - {j};
    forall id ensures id in Held(jobs') <==> id in Held(jobs) && id !in jobs[j].ids {
      if id in Held(jobs) && id !in jobs[j].ids {
        var k :| k in jobs && id in jobs[k].ids;
        assert k in jobs' && id in jobs'[k].ids;
      }
      if id in Held(jobs') {
        var k :| k in jobs' && id in jobs'[k].ids;
        assert k in jobs && id in jobs[k].ids;
      }
    }
    forall id | id in jobs[j].ids ensures id in Held(jobs) { }
  }

  lemma ClaimsSame(claims: set<GrabId>, jobs: map<JobId, Job>, d: Dispatcher, leaked: set<GrabId>, j: JobId, job: Job)
    requires ClaimsOk(claims, jobs, d, leaked) && j in jobs && job.ids == jobs[j].ids
    ensures ClaimsOk(claims, jobs[j := job], d, leaked)
  {
    HeldSame(jobs, j, job);
    var jobs' := jobs[j := job];
    forall a, b, id | a in jobs' && b in jobs' && id in jobs'[a].ids && id in jobs'[b].ids ensures a == b {
      assert id in jobs[a].ids && id in jobs[b].ids;
    }
  }

  /** Where a job stands: its ids are claimed, by it alone. */
  lemma JobHolds(s: State, j: JobId, id: GrabId)
    requires ClaimsOk(s.claims, s.jobs, s.dispatcher, s.leaked) && DispatcherOk(s.dispatcher, s.rows, s.claims, s.now)
    requires j in s.jobs && id in s.jobs[j].ids
    ensures id in s.claims && id !in Batched(s.dispatcher) && id in Taken(s)
    ensures forall k :: k in s.jobs && k != j ==> id !in s.jobs[k].ids
  {
    assert id in Held(s.jobs);
  }

  // ---------------------------------------------------------------------------------------------
  // Job steps
  // ---------------------------------------------------------------------------------------------

  /** A job moves without saving anything. */
  lemma JobMoves(s: State, j: JobId, job: Job)
    requires Inv(s) && j in s.jobs && job.ids == s.jobs[j].ids && JobOk(job, s.rows, s.bridge)
    ensures Inv(s.(jobs := s.jobs[j := job]))
  {
    hide RowsOk, CreatesOk, PostsOk, JobOk, ClaimsOk, DispatcherOk;
    ClaimsSame(s.claims, s.jobs, s.dispatcher, s.leaked, j, job);
    assert Taken(s.(jobs := s.jobs[j := job])) == Taken(s);
  }

  /** A job saves the row it is at. */
  lemma JobSaves(s: State, j: JobId, r: Row, job: Job)
    requires Inv(s) && On(s, j) && job.ids == s.jobs[j].ids
    requires Lawful(s.rows, s.bridge, s.now, Current(s, j), r)
    requires JobOk(job, s.rows[Current(s, j) := r], s.bridge)
    ensures Inv(s.(rows := s.rows[Current(s, j) := r], jobs := s.jobs[j := job]))
  {
    hide RowsOk, CreatesOk, JobOk, ClaimsOk, DispatcherOk, Lawful;
    var id := Current(s, j);
    JobHolds(s, j, id);
    RowsWrite(s.rows, s.bridge, s.now, id, r);
    CreatesWrite(s.creates, s.rows, s.bridge, s.now, s.posts, Taken(s), id, r);
    JobsWrite(s.jobs, s.rows, s.bridge, s.now, j, id, r);
    DispatcherWrite(s.dispatcher, s.rows, s.claims, s.now, id, r);
    ClaimsSame(s.claims, s.jobs, s.dispatcher, s.leaked, j, job);
    assert Taken(s.(rows := s.rows[id := r], jobs := s.jobs[j := job])) == Taken(s);
  }

  /** The job stays at its row, whose new contents suit the new stage. */
  lemma JobStays(s: State, j: JobId, r: Row, stage: Stage)
    requires Inv(s) && On(s, j) && !Closed(r)
    requires StageOk(stage, r, s.rows[Current(s, j) := r], s.bridge)
    ensures JobOk(s.jobs[j].(stage := stage), s.rows[Current(s, j) := r], s.bridge)
  {
    hide StageOk, RowsOk, CreatesOk, PostsOk, ClaimsOk, DispatcherOk, Closed;
    var job, id := s.jobs[j], Current(s, j);
    assert JobOk(job, s.rows, s.bridge);
    forall i | job.pos < i < |job.ids| ensures job.ids[i] != id { }
  }

  /** The job goes on: the row it leaves may be anything. */
  lemma JobGoesOn(s: State, j: JobId, r: Row)
    requires Inv(s) && On(s, j)
    ensures var job := s.jobs[j]; JobOk(job.(pos := job.pos + 1, stage := AtRow), s.rows[Current(s, j) := r], s.bridge)
  {
    hide RowsOk, CreatesOk, PostsOk, ClaimsOk, DispatcherOk, Closed;
    var job, id := s.jobs[j], Current(s, j);
    assert JobOk(job, s.rows, s.bridge);
    forall i | job.pos < i < |job.ids| ensures job.ids[i] != id { }
  }

  /** What a job may rely on about the row it is at. */
  lemma AtHand(s: State, j: JobId)
    requires Inv(s) && On(s, j)
    ensures var r := s.rows[Current(s, j)];
            !Closed(r) && RowOk(r, s.bridge, s.now) && StageOk(s.jobs[j].stage, r, s.rows, s.bridge)
  {
    assert JobOk(s.jobs[j], s.rows, s.bridge);
  }

  lemma ReadKeeps(s: State, j: JobId)
    requires Inv(s)
    ensures Inv(DoRead(s, j))
  {
    hide Inv, RowOk, Closed, JobOk;
    if On(s, j) && s.jobs[j].stage.AtRow? {
      AtHand(s, j);
      var r := s.rows[Current(s, j)];
      assert s.rows[Current(s, j) := r] == s.rows;
      if r.phase.Starting? {
        JobStays(s, j, r, Listing);
        JobMoves(s, j, s.jobs[j].(stage := Listing));
      } else if r.bridge.None? {
        JobGoesOn(s, j, r);
        JobMoves(s, j, s.jobs[j].(pos := s.jobs[j].pos + 1, stage := AtRow));
      } else {
        JobStays(s, j, r, Refreshing);
        JobMoves(s, j, s.jobs[j].(stage := Refreshing));
      }
    }
  }

  lemma FailsKeeps(s: State, j: JobId)
    requires Inv(s)
    ensures Inv(DoFails(s, j))
  {
    hide Inv, JobOk;
    if On(s, j) && (s.jobs[j].stage.Listing? || s.jobs[j].stage.Refreshing?) {
      AtHand(s, j);
      var r := s.rows[Current(s, j)].(updatedAt := s.now);
      JobGoesOn(s, j, r);
      JobSaves(s, j, r, s.jobs[j].(pos := s.jobs[j].pos + 1, stage := AtRow));
    }
  }

  lemma ListingKeeps(s: State, j: JobId, listing: seq<Listed>)
    requires Inv(s)
    ensures Inv(DoListing(s, j, listing))
  {
    hide Inv, RowOk, Closed, JobOk;
    if On(s, j) && s.jobs[j].stage.Listing? && Honest(s.bridge, listing) {
      AtHand(s, j);
      var r := s.rows[Current(s, j)];
      assert s.rows[Current(s, j) := r] == s.rows;
      JobStays(s, j, r, Choosing(listing));
      JobMoves(s, j, s.jobs[j].(stage := Choosing(listing)));
    }
  }

  lemma UntrackedUnrecorded(rows: Rows, bid: BridgeId)
    requires bid !in Tracked(rows)
    ensures Unrecorded(rows, bid)
  {
    forall id | id in rows ensures rows[id].bridge != Some(bid) {
      assert rows[id].bridge.Some? ==> rows[id].bridge.value in Tracked(rows);
    }
  }

  lemma ChooseKeeps(s: State, j: JobId)
    requires Inv(s)
    ensures Inv(DoChoose(s, j))
  {
    hide Inv, RowOk, Closed, JobOk, Adopted;
    if On(s, j) && s.jobs[j].stage.Choosing? {
      AtHand(s, j);
      var r := s.rows[Current(s, j)];
      var listing := s.jobs[j].stage.listing;
      assert s.rows[Current(s, j) := r] == s.rows;
      match Adopted(listing, r.torrent, Tracked(s.rows))
      case None =>
        JobStays(s, j, r, GivingUp(listing));
        JobMoves(s, j, s.jobs[j].(stage := GivingUp(listing)));
      case Some(g) =>
        JobStays(s, j, r, SavingId(listing, g));
        JobMoves(s, j, s.jobs[j].(stage := SavingId(listing, g)));
    }
  }

  lemma GiveUpKeeps(s: State, j: JobId)
    requires Inv(s)
    ensures Inv(DoGiveUp(s, j))
  {
    hide Inv, JobOk;
    if On(s, j) && s.jobs[j].stage.GivingUp? {
      AtHand(s, j);
      var r := s.rows[Current(s, j)].(phase := Error, updatedAt := s.now);
      JobGoesOn(s, j, r);
      JobSaves(s, j, r, s.jobs[j].(pos := s.jobs[j].pos + 1, stage := AtRow));
    }
  }

  lemma SaveIdKeeps(s: State, j: JobId)
    requires Inv(s)
    ensures Inv(DoSaveId(s, j))
  {
    hide Inv, JobOk;
    if On(s, j) && s.jobs[j].stage.SavingId? {
      AtHand(s, j);
      var choice := s.jobs[j].stage.choice;
      ChoiceLawful(s, j);
      var r := s.rows[Current(s, j)].(bridge := Some(choice.id), updatedAt := s.now);
      JobStays(s, j, r, SavingPhase(choice.phase));
      JobSaves(s, j, r, s.jobs[j].(stage := SavingPhase(choice.phase)));
    }
  }

  /** The chosen grab is one of the row's torrent that nobody has recorded. */
  lemma ChoiceLawful(s: State, j: JobId)
    requires Inv(s) && On(s, j) && s.jobs[j].stage.SavingId?
    ensures var bid := s.jobs[j].stage.choice.id;
            bid in s.bridge && s.bridge[bid] == s.rows[Current(s, j)].torrent && Unrecorded(s.rows, bid)
  {
    hide Inv, JobOk, Adopted;
    AtHand(s, j);
    AdoptedBest(s.jobs[j].stage.listing, s.rows[Current(s, j)].torrent, Tracked(s.rows));
    UntrackedUnrecorded(s.rows, s.jobs[j].stage.choice.id);
  }

  lemma ReplyKeeps(s: State, j: JobId, phase: Phase)
    requires Inv(s)
    ensures Inv(DoReply(s, j, phase))
  {
    hide Inv, RowOk, Closed, JobOk;
    if On(s, j) && s.jobs[j].stage.Refreshing? {
      AtHand(s, j);
      var r := s.rows[Current(s, j)];
      assert s.rows[Current(s, j) := r] == s.rows;
      JobStays(s, j, r, SavingPhase(phase));
      JobMoves(s, j, s.jobs[j].(stage := SavingPhase(phase)));
    }
  }

  lemma SavePhaseKeeps(s: State, j: JobId)
    requires Inv(s)
    ensures Inv(DoSavePhase(s, j))
  {
    hide Inv, JobOk;
    if On(s, j) && s.jobs[j].stage.SavingPhase? {
      AtHand(s, j);
      var r := s.rows[Current(s, j)].(phase := s.jobs[j].stage.phase, updatedAt := s.now);
      if r.phase.Completed? && r.item.None? {
        JobStays(s, j, r, Staging(r.handoffs));
        JobSaves(s, j, r, s.jobs[j].(stage := Staging(r.handoffs)));
      } else {
        JobGoesOn(s, j, r);
        JobSaves(s, j, r, s.jobs[j].(pos := s.jobs[j].pos + 1, stage := AtRow));
      }
    }
  }

  lemma HandoffKeeps(s: State, j: JobId, item: Option<nat>)
    requires Inv(s)
    ensures Inv(DoHandoff(s, j, item))
  {
    hide Inv, JobOk;
    if On(s, j) && s.jobs[j].stage.Staging? {
      AtHand(s, j);
      var r := AfterHandoff(s.rows[Current(s, j)], s.jobs[j].stage.seen, item).(updatedAt := s.now);
      JobGoesOn(s, j, r);
      JobSaves(s, j, r, s.jobs[j].(pos := s.jobs[j].pos + 1, stage := AtRow));
    }
  }

  lemma FewerTaken(creates: map<CreateId, Create>, rows: Rows, bridge: map<BridgeId, Torrent>, now: Time,
                   posts: map<GrabId, nat>, taken: set<GrabId>, taken': set<GrabId>)
    requires CreatesOk(creates, rows, bridge, now, posts, taken) && taken' <= taken
    ensures CreatesOk(creates, rows, bridge, now, posts, taken')
  {
    hide HasActive;
    forall c | c in creates ensures CreateOk(creates[c], rows, bridge, now, posts, taken') {
      assert CreateOk(creates[c], rows, bridge, now, posts, taken);
    }
  }

  lemma OpenKeeps(s: State, j: JobId, ok: bool)
    requires Inv(s)
    ensures Inv(DoOpen(s, j, ok))
  {
    hide RowsOk, CreatesOk, PostsOk, ClaimsOk, DispatcherOk;
    if j in s.jobs && !s.jobs[j].started {
      if ok {
        assert JobOk(s.jobs[j], s.rows, s.bridge);
        JobMoves(s, j, s.jobs[j].(started := true));
      } else {
        LeakKeeps(s, j);
      }
    }
  }

  /** A job that never opened leaves its claims behind. */
  lemma LeakKeeps(s: State, j: JobId)
    requires Inv(s) && j in s.jobs
    ensures Inv(s.(jobs := s.jobs - {j}, leaked := s.leaked + IdSet(s.jobs[j].ids)))
  {
    hide RowsOk, CreatesOk, PostsOk, JobOk, DispatcherOk;
    HeldLess(s.jobs, j);
    assert Taken(s.(jobs := s.jobs - {j}, leaked := s.leaked + IdSet(s.jobs[j].ids))) == Taken(s);
  }

  lemma EndKeeps(s: State, j: JobId)
    requires Inv(s)
    ensures Inv(DoEnd(s, j))
  {
    if j in s.jobs && s.jobs[j].started {
      hide RowsOk, CreatesOk, JobOk;
      HeldLess(s.jobs, j);
      FewerTaken(s.creates, s.rows, s.bridge, s.now, s.posts, Taken(s), Taken(DoEnd(s, j)));
    }
  }

  // ---------------------------------------------------------------------------------------------
  // Creating grabs
  // ---------------------------------------------------------------------------------------------

  lemma BeginKeeps(s: State, c: CreateId, request: nat, torrent: Torrent)
    requires Inv(s)
    ensures Inv(DoBegin(s, c, request, torrent))
  {
    hide RowsOk, PostsOk, JobsOk, ClaimsOk, DispatcherOk, HasActive;
    assert Taken(DoBegin(s, c, request, torrent)) == Taken(s);
  }

  lemma InsertRows(rows: Rows, bridge: map<BridgeId, Torrent>, now: Time, id: GrabId, r: Row)
    requires RowsOk(rows, bridge, now) && id !in rows && r.bridge.None? && RowOk(r, bridge, now) && !HasActive(rows, r.torrent)
    ensures RowsOk(rows[id := r], bridge, now)
  {
    hide RowOk;
    var rows' := rows[id := r];
    forall a, b | a in rows' && b in rows' && a != b ensures !SameBridge(rows'[a], rows'[b]) && !BothActive(rows'[a], rows'[b]) {
      if a != id && b != id { assert !SameBridge(rows[a], rows[b]) && !BothActive(rows[a], rows[b]); }
    }
  }

  lemma InsertJob(job: Job, rows: Rows, bridge: map<BridgeId, Torrent>, id: GrabId, r: Row)
    requires JobOk(job, rows, bridge) && id !in rows && r.bridge.None?
    ensures JobOk(job, rows[id := r], bridge)
  {
    hide Honest, Closed, Adopted;
    TrackedInsert(rows, id, r);
  }

  lemma TrackedInsert(rows: Rows, id: GrabId, r: Row)
    requires id !in rows && r.bridge.None?
    ensures Tracked(rows[id := r]) == Tracked(rows)
  {
    var rows' := rows[id := r];
    forall bid ensures bid in Tracked(rows) <==> bid in Tracked(rows') {
      if bid in Tracked(rows) {
        var x :| x in rows && rows[x].bridge == Some(bid);
        assert rows'[x].bridge.value in Tracked(rows');
      }
    }
  }

  lemma InsertCreate(c: Create, rows: Rows, bridge: map<BridgeId, Torrent>, now: Time, posts: map<GrabId, nat>, taken: set<GrabId>,
                     id: GrabId, r: Row)
    requires CreateOk(c, rows, bridge, now, posts, taken) && id !in rows && r.bridge.None? && c.torrent != r.torrent
    ensures CreateOk(c, rows[id := r], bridge, now, posts, taken)
  {
    assert forall a :: a in rows ==> rows[id := r][a] == rows[a];
  }

  lemma InsertKeeps(s: State, c: CreateId, id: GrabId)
    requires Inv(s)
    ensures Inv(DoInsert(s, c, id))
  {
    hide RowsOk, JobOk, ClaimsOk, HasActive, RowOk;
    if c in s.creates && s.creates[c].Inserting? && id !in s.rows {
      var s' := DoInsert(s, c, id);
      var r := s'.rows[id];
      assert CreateOk(s.creates[c], s.rows, s.bridge, s.now, s.posts, Taken(s));
      assert RowOk(r, s.bridge, s.now) by { FreshRowOk(r, s.bridge, s.now); }
      InsertRows(s.rows, s.bridge, s.now, id, r);
      forall k | k in s.jobs ensures JobOk(s.jobs[k], s'.rows, s.bridge) { InsertJob(s.jobs[k], s.rows, s.bridge, id, r); }
      assert Taken(s') == Taken(s);
      InsertCreates(s, c, id);
    }
  }

  lemma FreshRowOk(r: Row, bridge: map<BridgeId, Torrent>, now: Time)
    requires r.bridge.None? && r.phase.Starting? && r.item.None? && r.handoffs == 0 && r.updatedAt == now
    ensures RowOk(r, bridge, now)
  {
  }

  lemma InsertCreates(s: State, c: CreateId, id: GrabId)
    requires CreatesOk(s.creates, s.rows, s.bridge, s.now, s.posts, Taken(s)) && PostsOk(s.posts, s.rows) && Taken(s) <= s.rows.Keys
    requires c in s.creates && s.creates[c].Inserting? && id !in s.rows
    ensures var s' := DoInsert(s, c, id); CreatesOk(s'.creates, s'.rows, s.bridge, s.now, s.posts, Taken(s))
  {
    hide HasActive;
    var s' := DoInsert(s, c, id);
    forall k | k in s'.creates ensures CreateOk(s'.creates[k], s'.rows, s.bridge, s.now, s.posts, Taken(s)) {
      if k != c { InsertCreate(s.creates[k], s.rows, s.bridge, s.now, s.posts, Taken(s), id, s'.rows[id]); }
    }
  }

  /** A grab the bridge has just made is recorded nowhere and changes nothing for anyone. */
  lemma BridgeGrows(s: State, bid: BridgeId, torrent: Torrent)
    requires Inv(s) && bid !in s.bridge
    ensures Inv(s.(bridge := s.bridge[bid := torrent])) && Unrecorded(s.rows, bid)
  {
    hide ClaimsOk, DispatcherOk, PostsOk;
    var bridge' := s.bridge[bid := torrent];
    assert RowsOk(s.rows, bridge', s.now);
    forall c | c in s.creates ensures CreateOk(s.creates[c], s.rows, bridge', s.now, s.posts, Taken(s)) {
      assert CreateOk(s.creates[c], s.rows, s.bridge, s.now, s.posts, Taken(s));
    }
    forall j | j in s.jobs ensures JobOk(s.jobs[j], s.rows, bridge') {
      assert JobOk(s.jobs[j], s.rows, s.bridge);
    }
    assert Taken(s.(bridge := bridge')) == Taken(s);
  }

  lemma PostKeeps(s: State, c: CreateId, reply: Reply)
    requires Inv(s)
    ensures Inv(DoPost(s, c, reply))
  {
    hide Inv;
    if c in s.creates && s.creates[c].Posting? {
      var me := s.creates[c];
      match reply
      case Accepted(bid, phase) =>
        if bid !in s.bridge {
          BridgeGrows(s, bid, me.torrent);
          Posted(s.(bridge := s.bridge[bid := me.torrent]), c, Saving(me.row, me.torrent, bid, phase));
        }
      case Rejected(made) =>
        if made.None? {
          Posted(s, c, Failing(me.row, me.torrent));
        } else if made.value !in s.bridge {
          BridgeGrows(s, made.value, me.torrent);
          Posted(s.(bridge := s.bridge[made.value := me.torrent]), c, Failing(me.row, me.torrent));
        }
    }
  }

  /** The POST is counted, and the create knows its answer. */
  lemma Posted(s: State, c: CreateId, next: Create)
    requires Inv(s) && c in s.creates && s.creates[c].Posting?
    requires next.Saving? || next.Failing?
    requires next.row == s.creates[c].row && next.torrent == s.creates[c].torrent
    requires next.Saving? ==> next.bid in s.bridge && s.bridge[next.bid] == next.torrent && Unrecorded(s.rows, next.bid)
    ensures Inv(s.(posts := s.posts[next.row := Posts(s.posts, next.row) + 1], creates := s.creates[c := next]))
  {
    hide RowsOk, JobsOk, ClaimsOk, DispatcherOk, HasActive, Unrecorded;
    var id := next.row;
    var posts', creates' := s.posts[id := Posts(s.posts, id) + 1], s.creates[c := next];
    assert CreateOk(s.creates[c], s.rows, s.bridge, s.now, s.posts, Taken(s));
    forall k | k in creates' ensures CreateOk(creates'[k], s.rows, s.bridge, s.now, posts', Taken(s)) {
      assert CreateOk(s.creates[k], s.rows, s.bridge, s.now, s.posts, Taken(s));
    }
    assert Taken(s.(posts := posts', creates := creates')) == Taken(s);
  }

  /** A create ends by saving its row. */
  lemma CreateSaves(s: State, c: CreateId, r: Row)
    requires Inv(s) && c in s.creates && HasRow(s.creates[c])
    requires Lawful(s.rows, s.bridge, s.now, s.creates[c].row, r)
    ensures Inv(s.(rows := s.rows[s.creates[c].row := r], creates := s.creates - {c}))
  {
    hide RowsOk, JobOk, ClaimsOk, DispatcherOk, Lawful;
    var id := s.creates[c].row;
    var rows', creates' := s.rows[id := r], s.creates - {c};
    assert CreateOk(s.creates[c], s.rows, s.bridge, s.now, s.posts, Taken(s));
    RowsWrite(s.rows, s.bridge, s.now, id, r);
    forall k | k in creates' ensures CreateOk(creates'[k], rows', s.bridge, s.now, s.posts, Taken(s)) {
      assert CreateOk(s.creates[k], s.rows, s.bridge, s.now, s.posts, Taken(s));
      CreateWrite(s.creates[k], s.rows, s.bridge, s.now, s.posts, Taken(s), id, r);
    }
    forall j | j in s.jobs ensures id !in s.jobs[j].ids { if id in s.jobs[j].ids { JobHolds(s, j, id); } }
    forall j | j in s.jobs ensures JobOk(s.jobs[j], rows', s.bridge) { JobWrite(s.jobs[j], s.rows, s.bridge, s.now, id, r); }
    DispatcherWrite(s.dispatcher, s.rows, s.claims, s.now, id, r);
    assert Taken(s.(rows := rows', creates := creates')) == Taken(s);
  }

  lemma SaveCreateKeeps(s: State, c: CreateId)
    requires Inv(s)
    ensures Inv(DoSaveCreate(s, c))
  {
    hide JobsOk, ClaimsOk, DispatcherOk;
    if c in s.creates && HasRow(s.creates[c]) && s.creates[c].row in s.rows {
      var me := s.creates[c];
      var r := s.rows[me.row];
      assert CreateOk(me, s.rows, s.bridge, s.now, s.posts, Taken(s));
      assert RowOk(r, s.bridge, s.now);
      match me
      case Saving(id, _, bid, phase) => CreateSaves(s, c, r.(bridge := Some(bid), phase := phase, updatedAt := s.now));
      case Failing(id, _) => CreateSaves(s, c, r.(phase := Error, updatedAt := s.now));
      case _ =>
    }
  }

  lemma LostKeeps(s: State, c: CreateId)
    requires Inv(s)
    ensures Inv(s.(creates := s.creates - {c}))
  {
    hide RowsOk, CreateOk, PostsOk, JobsOk, ClaimsOk, DispatcherOk;
    assert Taken(s.(creates := s.creates - {c})) == Taken(s);
  }

  lemma TickKeeps(s: State, t: Time)
    requires Inv(s) && s.now <= t && YoungCreates(s, t)
    ensures Inv(s.(now := t))
  {
    hide PostsOk, JobsOk, ClaimsOk, HasActive, Unrecorded;
    forall c | c in s.creates ensures CreateOk(s.creates[c], s.rows, s.bridge, t, s.posts, Taken(s)) {
      assert CreateOk(s.creates[c], s.rows, s.bridge, s.now, s.posts, Taken(s));
    }
    assert Taken(s.(now := t)) == Taken(s);
  }

  // ---------------------------------------------------------------------------------------------
  // The dispatcher
  // ---------------------------------------------------------------------------------------------

  lemma ReadClaimsKeeps(s: State)
    requires Inv(s) && s.dispatcher.Idle?
    ensures Inv(s.(dispatcher := Reading(s.claims, s.now)))
  {
    hide RowsOk, CreatesOk, PostsOk, JobsOk;
    assert Taken(s.(dispatcher := Reading(s.claims, s.now))) == Taken(s);
  }

  /** A selected row is open, unclaimed, and no unfinished create is working on it. */
  lemma SelectedFree(s: State, id: GrabId)
    requires Inv(s) && s.dispatcher.Reading? && Selectable(s.rows, s.dispatcher.at, s.dispatcher.claimed, id)
    ensures id in s.rows && !Closed(s.rows[id]) && id !in s.claims
    ensures forall c :: c in s.creates && HasRow(s.creates[c]) ==> s.creates[c].row != id
  {
    hide JobsOk, ClaimsOk, PostsOk, HasActive, Unrecorded;
    assert RowOk(s.rows[id], s.bridge, s.now);
    forall c | c in s.creates && HasRow(s.creates[c]) ensures s.creates[c].row != id {
      assert CreateOk(s.creates[c], s.rows, s.bridge, s.now, s.posts, Taken(s));
    }
  }

  lemma QueryKeeps(s: State, ids: seq<GrabId>)
    requires Inv(s)
    ensures Inv(DoQuery(s, ids))
  {
    hide RowsOk, PostsOk, JobsOk, Selectable, HasActive, Unrecorded, Closed;
    if s.dispatcher.Reading? && Batch(s.rows, s.dispatcher.at, s.dispatcher.claimed, ids) {
      var s' := DoQuery(s, ids);
      forall i | 0 <= i < |ids|
        ensures ids[i] in s.rows && !Closed(s.rows[ids[i]]) && ids[i] !in s.claims
        ensures forall c :: c in s.creates && HasRow(s.creates[c]) ==> s.creates[c].row != ids[i]
      {
        SelectedFree(s, ids[i]);
      }
      forall c | c in s.creates ensures CreateOk(s.creates[c], s.rows, s.bridge, s.now, s.posts, Taken(s')) {
        assert CreateOk(s.creates[c], s.rows, s.bridge, s.now, s.posts, Taken(s));
      }
    }
  }

  lemma TakeKeeps(s: State)
    requires Inv(s)
    ensures Inv(DoTake(s))
  {
    hide RowsOk, CreatesOk, PostsOk, JobsOk, Fresh;
    if s.dispatcher.Claiming? {
      assert Taken(DoTake(s)) == Taken(s);
    }
  }

  lemma EnqueueKeeps(s: State, j: JobId, ok: bool)
    requires Inv(s)
    ensures Inv(DoEnqueue(s, j, ok))
  {
    hide Inv;
    if s.dispatcher.Enqueuing? && j !in s.jobs {
      if ok { EnqueueOk(s, j); } else { EnqueueFails(s, j); }
    }
  }

  lemma EnqueueOk(s: State, j: JobId)
    requires Inv(s) && s.dispatcher.Enqueuing? && j !in s.jobs
    ensures Inv(DoEnqueue(s, j, true))
  {
    hide RowsOk, CreatesOk, PostsOk, ClaimsOk;
    var s' := DoEnqueue(s, j, true);
    NewClaims(s, j);
    FewerTaken(s.creates, s.rows, s.bridge, s.now, s.posts, Taken(s), Taken(s'));
    assert JobOk(s'.jobs[j], s.rows, s.bridge);
  }

  lemma EnqueueFails(s: State, j: JobId)
    requires Inv(s) && s.dispatcher.Enqueuing? && j !in s.jobs
    ensures Inv(DoEnqueue(s, j, false))
  {
    hide RowsOk, CreatesOk, PostsOk, JobsOk, Fresh;
    FewerTaken(s.creates, s.rows, s.bridge, s.now, s.posts, Taken(s), Taken(DoEnqueue(s, j, false)));
  }

  lemma NewClaims(s: State, j: JobId)
    requires ClaimsOk(s.claims, s.jobs, s.dispatcher, s.leaked) && s.dispatcher.Enqueuing? && j !in s.jobs
    ensures var s' := DoEnqueue(s, j, true); ClaimsOk(s'.claims, s'.jobs, s'.dispatcher, s'.leaked)
  {
    var s' := DoEnqueue(s, j, true);
    HeldMore(s.jobs, j, s'.jobs[j]);
    forall a, b, id | a in s'.jobs && b in s'.jobs && id in s'.jobs[a].ids && id in s'.jobs[b].ids ensures a == b {
      if a != j { assert id in Held(s.jobs) by { assert id in s.jobs[a].ids; } }
      if b != j { assert id in Held(s.jobs) by { assert id in s.jobs[b].ids; } }
    }
  }

  lemma AbortKeeps(s: State)
    requires Inv(s)
    ensures Inv(DoAbort(s))
  {
    hide RowsOk, CreatesOk, PostsOk, JobsOk, Fresh;
    FewerTaken(s.creates, s.rows, s.bridge, s.now, s.posts, Taken(s), Taken(DoAbort(s)));
  }

  lemma CrashKeeps(s: State)
    requires Inv(s)
    ensures Inv(Step(s, Crash))
  {
    hide RowsOk, PostsOk;
    var s' := Step(s, Crash);
    assert Held(s'.jobs) == {};
  }

  lemma StepKeeps(s: State, l: Label)
    requires Inv(s)
    ensures Inv(Step(s, l))
  {
    hide Inv, DoBegin, DoInsert, DoPost, DoSaveCreate, DoQuery, DoTake, DoEnqueue, DoAbort, DoOpen, DoRead, DoFails, DoListing,
         DoChoose, DoGiveUp, DoSaveId, DoReply, DoSavePhase, DoHandoff, DoEnd, YoungCreates;
    match l
    case BeginCreate(c, request, torrent) => BeginKeeps(s, c, request, torrent);
    case InsertRow(c, id) => InsertKeeps(s, c, id);
    case Post(c, reply) => PostKeeps(s, c, reply);
    case SaveCreate(c) => SaveCreateKeeps(s, c);
    case CreateLost(c) => LostKeeps(s, c);
    case BridgeMakes(bid, torrent) => if bid !in s.bridge { BridgeGrows(s, bid, torrent); }
    case Tick(t) => if s.now <= t && YoungCreates(s, t) { TickKeeps(s, t); }
    case ReadClaims => if s.dispatcher.Idle? { ReadClaimsKeeps(s); }
    case Query(ids) => QueryKeeps(s, ids);
    case TakeClaims => TakeKeeps(s);
    case Enqueue(j, ok) => EnqueueKeeps(s, j, ok);
    case DispatcherAborted => AbortKeeps(s);
    case OpenJob(j, ok) => OpenKeeps(s, j, ok);
    case ReadRow(j) => ReadKeeps(s, j);
    case BridgeFails(j) => FailsKeeps(s, j);
    case GotListing(j, listing) => ListingKeeps(s, j, listing);
    case Choose(j) => ChooseKeeps(s, j);
    case GiveUp(j) => GiveUpKeeps(s, j);
    case SaveId(j) => SaveIdKeeps(s, j);
    case GotReply(j, phase) => ReplyKeeps(s, j, phase);
    case SavePhase(j) => SavePhaseKeeps(s, j);
    case Handoff(j, item) => HandoffKeeps(s, j, item);
    case EndJob(j) => EndKeeps(s, j);
    case Crash => CrashKeeps(s);
  }
}
