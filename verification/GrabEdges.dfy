/** The life of a grab row, edge by edge, and what it survives while the bridge does not answer. */
module GrabEdges {

  import opened Common
  import opened Grabs
  import opened GrabProofs
  import opened GrabTheorems
  import opened GrabVisits

  // ---------------------------------------------------------------------------------------------
  // Edges
  // ---------------------------------------------------------------------------------------------

  /** The job is at row `id`, at the given point of its visit. */
  predicate Ready(s: State, l: Label, id: GrabId) {
    match l
    case BridgeFails(j) => JobAt(s, j, id) && (s.jobs[j].stage.Listing? || s.jobs[j].stage.Refreshing?)
    case GiveUp(j) => JobAt(s, j, id) && s.jobs[j].stage.GivingUp?
    case SaveId(j) => JobAt(s, j, id) && s.jobs[j].stage.SavingId?
    case SavePhase(j) => JobAt(s, j, id) && s.jobs[j].stage.SavingPhase?
    case Handoff(j, _) => JobAt(s, j, id) && s.jobs[j].stage.Staging?
    case SaveCreate(c) => CreateAt(s, c, id) && (s.creates[c].Saving? || s.creates[c].Failing?)
    case _ => false
  }

  /** What each of these steps writes, column by column. */
  ghost predicate Edge(s: State, l: Label, id: GrabId, r: Row, r': Row) {
    match l
    case BridgeFails(_) => r' == r.(updatedAt := s.now)
    case GiveUp(j) =>
      && JobAt(s, j, id) && s.jobs[j].stage.GivingUp? && AllRecorded(s.rows, s.jobs[j].stage.listing, r.torrent)
      && r.phase.Starting? && r' == r.(phase := Error, updatedAt := s.now)
    case SaveId(j) =>
      && JobAt(s, j, id) && s.jobs[j].stage.SavingId? && s.jobs[j].stage.choice in s.jobs[j].stage.listing
      && s.jobs[j].stage.choice.torrent == r.torrent && Unrecorded(s.rows, s.jobs[j].stage.choice.id)
      && r.phase.Starting? && r' == r.(bridge := Some(s.jobs[j].stage.choice.id), updatedAt := s.now)
    case SavePhase(j) =>
      && JobAt(s, j, id) && s.jobs[j].stage.SavingPhase? && r.bridge.Some?
      && r' == r.(phase := s.jobs[j].stage.phase, updatedAt := s.now)
    case Handoff(_, item) =>
      && r.phase.Completed?
      && (if item.Some? then r' == r.(item := item, updatedAt := s.now)
          else if r.handoffs + 1 < 288 then r' == r.(handoffs := r.handoffs + 1, updatedAt := s.now)
          else r.handoffs + 1 == 288 && r' == r.(handoffs := 288, phase := Error, updatedAt := s.now))
    case SaveCreate(c) =>
      && CreateAt(s, c, id) && r.phase.Starting? && r.bridge.None?
      && (s.creates[c].Saving? ==> r' == r.(bridge := Some(s.creates[c].bid), phase := s.creates[c].phase, updatedAt := s.now))
      && (s.creates[c].Failing? ==> r' == r.(phase := Error, updatedAt := s.now))
    case _ => false
  }

  lemma VisitEdge(s: State, l: Label, id: GrabId)
    requires Inv(s) && id in s.rows && (Saves(l) || l.Handoff?) && Ready(s, l, id)
    ensures id in Step(s, l).rows && Edge(s, l, id, s.rows[id], Step(s, l).rows[id])
  {
    hide Inv, Step, Adopted, Tracked, Unrecorded;
    StepIs(s, l);
    AtHand(s, l.j);
    match l
    case GiveUp(j) => AdoptedBest(s.jobs[j].stage.listing, s.rows[id].torrent, Tracked(s.rows));
    case SaveId(j) =>
      AdoptedBest(s.jobs[j].stage.listing, s.rows[id].torrent, Tracked(s.rows));
      ChoiceLawful(s, j);
    case _ =>
  }

  lemma CreateEdge(s: State, c: CreateId, id: GrabId)
    requires Inv(s) && id in s.rows && Ready(s, SaveCreate(c), id)
    ensures id in DoSaveCreate(s, c).rows && Edge(s, SaveCreate(c), id, s.rows[id], DoSaveCreate(s, c).rows[id])
  {
    hide JobsOk, ClaimsOk, DispatcherOk, PostsOk, HasActive, Unrecorded;
    assert CreateOk(s.creates[c], s.rows, s.bridge, s.now, s.posts, Taken(s));
  }

  lemma NoEdge(s: State, l: Label, id: GrabId)
    requires Inv(s) && id in s.rows && !Ready(s, l, id)
    ensures id in Step(s, l).rows && Step(s, l).rows[id] == s.rows[id]
  {
    hide Step, Inv, Lawful;
    var x, r := RowsChange(s, l);
    if SavesRow(s, l, Step(s, l), x, r) && x == id {
      SavesReady(s, l, id);
    }
  }

  lemma SavesReady(s: State, l: Label, id: GrabId)
    requires id in s.rows && !Ready(s, l, id)
    requires (l.SaveCreate? && CreateAt(s, l.c, id)) || ((Saves(l) || l.Handoff?) && JobAt(s, l.j, id))
    ensures Step(s, l).rows == s.rows
  {
    hide Step, Adopted, Tracked;
    StepIs(s, l);
    if l.SaveCreate? { SaveCreateIs(s, l.c); }
  }

  /** One step does to a row exactly what its edge says if it is a step that saves the row, and nothing
      otherwise. */
  lemma RowEdge(s: State, l: Label, id: GrabId)
    requires Inv(s) && id in s.rows
    ensures id in Step(s, l).rows
    ensures if Ready(s, l, id) then Edge(s, l, id, s.rows[id], Step(s, l).rows[id]) else Step(s, l).rows[id] == s.rows[id]
  {
    hide Inv, Step, Edge;
    if !Ready(s, l, id) {
      NoEdge(s, l, id);
    } else if l.SaveCreate? {
      SaveCreateIs(s, l.c);
      CreateEdge(s, l.c, id);
    } else {
      VisitEdge(s, l, id);
    }
  }

  /** A new row is starting, untracked, unlinked and unspent, and belongs to the create that inserted it. */
  lemma NewRowEdge(s: State, l: Label, id: GrabId)
    requires Inv(s) && id !in s.rows && id in Step(s, l).rows
    ensures l.InsertRow? && l.id == id && l.c in s.creates && s.creates[l.c].Inserting?
    ensures Step(s, l).rows[id] == Row(s.creates[l.c].request, s.creates[l.c].torrent, None, Starting, None, 0, s.now)
  {
    hide Step, Inv;
    if Saves(l) || l.Handoff? {
      VisitKeys(s, l);
    } else if l.SaveCreate? {
      SaveCreateIs(s, l.c);
    } else if l.InsertRow? {
      InsertedIs(s, l);
    } else {
      QuietStep(s, l);
    }
  }

  lemma VisitKeys(s: State, l: Label)
    requires Saves(l) || l.Handoff?
    ensures Step(s, l).rows.Keys == s.rows.Keys
  {
    hide Step, Adopted, Tracked, AfterHandoff;
    StepIs(s, l);
  }

  lemma InsertedIs(s: State, l: Label)
    requires l.InsertRow?
    ensures Step(s, l) == DoInsert(s, l.c, l.id)
  {
    hide DoInsert;
  }

  /** The four ways out of the active phases: a POST that was not accepted, giving up because every listed grab of
      the torrent is recorded, a phase the bridge reported (to the create or to a visit), and the last failed
      handoff. */
  ghost predicate WayOut(s: State, l: Label, id: GrabId, r: Row, r': Row) {
    match l
    case SaveCreate(c) => CreateAt(s, c, id) && (s.creates[c].Failing? || (s.creates[c].Saving? && r'.phase == s.creates[c].phase))
    case GiveUp(j) => JobAt(s, j, id) && s.jobs[j].stage.GivingUp? && AllRecorded(s.rows, s.jobs[j].stage.listing, r.torrent)
    case SavePhase(j) => JobAt(s, j, id) && s.jobs[j].stage.SavingPhase? && r'.phase == s.jobs[j].stage.phase
    case Handoff(j, item) => JobAt(s, j, id) && item.None? && r.handoffs == 287
    case _ => false
  }

  lemma LeavesActive(s: State, l: Label, id: GrabId)
    requires Inv(s) && id in s.rows && id in Step(s, l).rows
    requires Active(s.rows[id].phase) && !Active(Step(s, l).rows[id].phase)
    ensures WayOut(s, l, id, s.rows[id], Step(s, l).rows[id])
  {
    hide Inv, Step;
    RowEdge(s, l, id);
  }

  /** What the answer to a POST makes of its create: an accepted one is to save the new grab and its phase, any
      other to end the row; and the POST is counted. */
  lemma PostExactly(s: State, c: CreateId, reply: Reply)
    requires c in s.creates && s.creates[c].Posting?
    ensures var s' := DoPost(s, c, reply); var me := s.creates[c];
            && s'.rows == s.rows
            && (s' != s && reply.Accepted? ==> s'.creates[c] == Saving(me.row, me.torrent, reply.bid, reply.phase) && reply.bid !in s.bridge)
            && (s' != s && reply.Rejected? ==> s'.creates[c] == Failing(me.row, me.torrent))
            && (s' == s <==> (reply.Accepted? && reply.bid in s.bridge) || (reply.Rejected? && reply.made.Some? && reply.made.value in s.bridge))
            && (s' != s ==> Posts(s'.posts, me.row) == Posts(s.posts, me.row) + 1)
  {
  }

  // ---------------------------------------------------------------------------------------------
  // Due rows
  // ---------------------------------------------------------------------------------------------

  /** A row is due a minute after its last save while the bridge works on it, five minutes after when only its
      handoff is missing, and two minutes after when it is starting; a row in any other phase, or completed and
      linked, is never due. */
  lemma DueExactly(r: Row, now: Time)
    ensures Due(r, now) <==>
              if r.phase == Queued || r.phase == Downloading then now - r.updatedAt >= 60
              else if r.phase == Completed && r.item == None then now - r.updatedAt >= 300
              else if r.phase == Starting then now - r.updatedAt >= 120
              else false
  {
  }

  // ---------------------------------------------------------------------------------------------
  // While the bridge does not answer
  // ---------------------------------------------------------------------------------------------

  predicate Calm(stage: Stage) { stage.AtRow? || stage.Listing? || stage.Refreshing? }

  /** Nobody has an answer for row `id` in hand. */
  ghost predicate Unanswered(s: State, id: GrabId) {
    && (forall j :: JobAt(s, j, id) ==> Calm(s.jobs[j].stage))
    && (forall c :: !CreateAt(s, c, id))
  }

  /** The bridge answers a call made for row `id`. */
  predicate Answers(s: State, l: Label, id: GrabId) { (l.GotListing? || l.GotReply?) && JobAt(s, l.j, id) }

  lemma CalmVisit(s: State, l: Label, j: JobId, id: GrabId)
    requires OwnStep(l, j) && j in s.jobs && JobAt(Step(s, l), j, id) && !Calm(Step(s, l).jobs[j].stage)
    ensures JobAt(s, j, id) && (!Calm(s.jobs[j].stage) || Answers(s, l, id))
  {
    hide Step, Adopted, Tracked, Honest, AfterHandoff;
    StepIs(s, l);
  }

  /** A job that has just been opened is before its first row. */
  lemma FreshJob(s: State, l: Label, j: JobId)
    requires Inv(s) && !(Reads(l) || Saves(l) || l.Handoff?)
    requires !(j in s.jobs && s.jobs[j].started) && j in Step(s, l).jobs && Step(s, l).jobs[j].started
    ensures Step(s, l).jobs[j].stage.AtRow?
  {
    hide RowsOk, CreatesOk, PostsOk, ClaimsOk, DispatcherOk, StageOk, Closed, Batch, YoungCreates, HasActive, CreateRunning, IdSet,
         DoRead, DoFails, DoListing, DoChoose, DoGiveUp, DoSaveId, DoReply, DoSavePhase, DoHandoff;
    if j in s.jobs { assert JobOk(s.jobs[j], s.rows, s.bridge); }
  }

  lemma GoneJob(s: State, l: Label, j: JobId)
    requires l.Crash? || (l == EndJob(j) && j in s.jobs && s.jobs[j].started)
    ensures j !in Step(s, l).jobs
  {
  }

  lemma CalmElsewhere(s: State, l: Label, j: JobId, id: GrabId)
    requires Inv(s) && id in s.rows && !(Reads(l) || Saves(l) || l.Handoff?)
    requires JobAt(Step(s, l), j, id) && !Calm(Step(s, l).jobs[j].stage)
    ensures JobAt(s, j, id) && !Calm(s.jobs[j].stage)
  {
    hide Inv, Step;
    if j in s.jobs && s.jobs[j].started {
      if l.Crash? || l == EndJob(j) { GoneJob(s, l, j); } else { ElsewhereJobs(s, l, j); }
    } else {
      FreshJob(s, l, j);
    }
  }

  lemma CalmJobs(s: State, l: Label, j: JobId, id: GrabId)
    requires Inv(s) && id in s.rows && Unanswered(s, id) && !Answers(s, l, id) && JobAt(Step(s, l), j, id)
    ensures Calm(Step(s, l).jobs[j].stage)
  {
    hide Inv, Step, CreateAt, Calm, Answers;
    if Reads(l) || Saves(l) || l.Handoff? {
      VisitAt(s, l, j, id);
      if !Calm(Step(s, l).jobs[j].stage) && l.j == j { CalmVisit(s, l, j, id); }
    } else if !Calm(Step(s, l).jobs[j].stage) {
      CalmElsewhere(s, l, j, id);
    }
  }

  lemma VisitAt(s: State, l: Label, j: JobId, id: GrabId)
    requires (Reads(l) || Saves(l) || l.Handoff?) && JobAt(Step(s, l), j, id) && id in s.rows
    ensures j in s.jobs && j in Step(s, l).jobs
    ensures l.j != j ==> JobAt(s, j, id) && Step(s, l).jobs[j] == s.jobs[j]
  {
    hide Step, Adopted, Tracked, Honest, AfterHandoff;
    StepIs(s, l);
  }

  lemma CreatesElsewhere(s: State, l: Label, c: CreateId, id: GrabId)
    requires id in s.rows && CreateAt(Step(s, l), c, id)
    ensures CreateAt(s, c, id)
  {
    hide Batch, YoungCreates, HasActive, CreateRunning, IdSet, Adopted, Tracked, Honest, AfterHandoff;
  }

  /** While no answer for it comes, a row keeps everything but its time stamp. */
  lemma OutageStep(s: State, l: Label, id: GrabId)
    requires Inv(s) && id in s.rows && Unanswered(s, id) && !Answers(s, l, id)
    ensures Unanswered(Step(s, l), id) && id in Step(s, l).rows
    ensures Plain(Step(s, l).rows[id]) == Plain(s.rows[id])
  {
    hide Inv, Step, CreateAt, Answers;
    forall j | JobAt(Step(s, l), j, id) ensures Calm(Step(s, l).jobs[j].stage) { CalmJobs(s, l, j, id); }
    forall c ensures !CreateAt(Step(s, l), c, id) {
      if CreateAt(Step(s, l), c, id) { CreatesElsewhere(s, l, c, id); }
    }
    RowEdge(s, l, id);
  }

  /** No answer for row `id` comes in the run. */
  ghost predicate Outage(s: State, run: seq<Label>, id: GrabId)
    decreases |run|
  {
    run == [] || (!Answers(s, run[0], id) && Outage(Step(s, run[0]), run[1..], id))
  }

  /** However often its bridge calls fail, and whatever else happens, restarts included, a row keeps its phase, its
      grab, its item and its handoff count; and once nobody holds it and its interval has passed, it can be
      selected again. */
  lemma {:induction false} SurvivesOutage(s: State, run: seq<Label>, id: GrabId)
    requires Inv(s) && id in s.rows && Unanswered(s, id) && Outage(s, run, id)
    ensures var u := Exec(s, run);
            && id in u.rows && Plain(u.rows[id]) == Plain(s.rows[id])
            && (!Closed(s.rows[id]) && id !in u.claims
                && u.now - u.rows[id].updatedAt >= (if s.rows[id].phase.Starting? then 120 else if s.rows[id].phase.Completed? then 300 else 60)
                ==> Selectable(u.rows, u.now, u.claims, id))
    decreases |run|
  {
    hide Inv, Step, Unanswered, Answers;
    if run != [] {
      OutageStep(s, run[0], id);
      StepKeeps(s, run[0]);
      SurvivesOutage(Step(s, run[0]), run[1..], id);
    }
  }
}
