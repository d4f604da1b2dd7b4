/** What a refresh job's visit does to its row, whatever else happens meanwhile. */
module GrabVisits {

  import opened Common
  import opened Grabs
  import opened GrabProofs
  import opened GrabTheorems

  // ---------------------------------------------------------------------------------------------
  // How one step can change the rows
  // ---------------------------------------------------------------------------------------------

  /** A step saves one row lawfully, and only its create or the job at it does. */
  ghost predicate SavesRow(s: State, l: Label, s': State, id: GrabId, r: Row) {
    && Lawful(s.rows, s.bridge, s.now, id, r) && s'.rows == s.rows[id := r]
    && ((l.SaveCreate? && CreateAt(s, l.c, id)) || ((Saves(l) || l.Handoff?) && JobAt(s, l.j, id)))
  }

  ghost predicate InsertsRow(s: State, s': State, id: GrabId, r: Row) {
    id !in s.rows && r.bridge.None? && s'.rows == s.rows[id := r]
  }

  /** The function behind each step of a visit. */
  lemma StepIs(s: State, l: Label)
    ensures l.ReadRow? ==> Step(s, l) == DoRead(s, l.j)
    ensures l.BridgeFails? ==> Step(s, l) == DoFails(s, l.j)
    ensures l.GotListing? ==> Step(s, l) == DoListing(s, l.j, l.listing)
    ensures l.Choose? ==> Step(s, l) == DoChoose(s, l.j)
    ensures l.GiveUp? ==> Step(s, l) == DoGiveUp(s, l.j)
    ensures l.SaveId? ==> Step(s, l) == DoSaveId(s, l.j)
    ensures l.GotReply? ==> Step(s, l) == DoReply(s, l.j, l.phase)
    ensures l.SavePhase? ==> Step(s, l) == DoSavePhase(s, l.j)
    ensures l.Handoff? ==> Step(s, l) == DoHandoff(s, l.j, l.item)
  {
    hide DoRead, DoFails, DoListing, DoChoose, DoGiveUp, DoSaveId, DoReply, DoSavePhase, DoHandoff;
  }

  lemma PlainSaveIs(s: State, l: Label) returns (id: GrabId, r: Row)
    requires Inv(s) && (l.BridgeFails? || l.GiveUp?) && Step(s, l).rows != s.rows
    ensures SavesRow(s, l, Step(s, l), id, r)
  {
    hide Inv, Step, Adopted;
    StepIs(s, l);
    assert On(s, l.j);
    id := Current(s, l.j);
    AtHand(s, l.j);
    r := Step(s, l).rows[id];
  }

  lemma IdSaveIs(s: State, l: Label) returns (id: GrabId, r: Row)
    requires Inv(s) && l.SaveId? && Step(s, l).rows != s.rows
    ensures SavesRow(s, l, Step(s, l), id, r)
  {
    hide Inv, Step, Adopted;
    StepIs(s, l);
    assert On(s, l.j);
    id := Current(s, l.j);
    AtHand(s, l.j);
    ChoiceLawful(s, l.j);
    r := Step(s, l).rows[id];
  }

  lemma PhaseSaveIs(s: State, l: Label) returns (id: GrabId, r: Row)
    requires Inv(s) && (l.SavePhase? || l.Handoff?) && Step(s, l).rows != s.rows
    ensures SavesRow(s, l, Step(s, l), id, r)
  {
    hide Inv, Step, Adopted;
    StepIs(s, l);
    assert On(s, l.j);
    id := Current(s, l.j);
    AtHand(s, l.j);
    r := Step(s, l).rows[id];
  }

  lemma InsertIs(s: State, l: Label) returns (id: GrabId, r: Row)
    requires l.InsertRow? && Step(s, l).rows != s.rows
    ensures InsertsRow(s, Step(s, l), id, r)
  {
    id := l.id;
    r := Step(s, l).rows[id];
  }

  lemma CreateSaveIs(s: State, c: CreateId) returns (id: GrabId, r: Row)
    requires Inv(s) && DoSaveCreate(s, c).rows != s.rows
    ensures SavesRow(s, SaveCreate(c), DoSaveCreate(s, c), id, r)
  {
    hide JobsOk, ClaimsOk, DispatcherOk, PostsOk, HasActive;
    assert CreateOk(s.creates[c], s.rows, s.bridge, s.now, s.posts, Taken(s));
    id := s.creates[c].row;
    assert RowOk(s.rows[id], s.bridge, s.now);
    r := DoSaveCreate(s, c).rows[id];
  }

  lemma SaveCreateIs(s: State, c: CreateId)
    ensures Step(s, SaveCreate(c)) == DoSaveCreate(s, c)
  {
    hide DoSaveCreate;
  }

  lemma RowsChange(s: State, l: Label) returns (id: GrabId, r: Row)
    requires Inv(s)
    ensures var s' := Step(s, l);
            s'.rows == s.rows || SavesRow(s, l, s', id, r) || InsertsRow(s, s', id, r)
  {
    hide Inv, Step, SavesRow, InsertsRow;
    id, r := 0, Row(0, 0, None, Starting, None, 0, 0);
    if Step(s, l).rows != s.rows {
      match l
      case InsertRow(_, _) => id, r := InsertIs(s, l);
      case SaveCreate(c) => SaveCreateIs(s, c); id, r := CreateSaveIs(s, c);
      case SaveId(_) => id, r := IdSaveIs(s, l);
      case SavePhase(_) => id, r := PhaseSaveIs(s, l);
      case Handoff(_, _) => id, r := PhaseSaveIs(s, l);
      case BridgeFails(_) => id, r := PlainSaveIs(s, l);
      case GiveUp(_) => id, r := PlainSaveIs(s, l);
      case _ => QuietStep(s, l); assert false;
    }
  }

  // ---------------------------------------------------------------------------------------------
  // A visit and its fate
  // ---------------------------------------------------------------------------------------------

  /** What the bridge and the staging answer during the visit. */
  datatype Answers = Answers(listing: seq<Listed>, phase: Phase, item: Option<nat>)

  /** Everything but the time stamp. */
  function Plain(r: Row): Row { r.(updatedAt := 0) }

  /** The row once a phase has been reported: a completed download that is not linked yet is handed off. */
  function Reported(r: Row, phase: Phase, item: Option<nat>): Row {
    if phase.Completed? && r.item.None? then AfterHandoff(r.(phase := phase), r.handoffs, item) else r.(phase := phase)
  }

  /** The row once a starting row has been looked up in the listing. */
  function LookedUp(r: Row, rows: Rows, listing: seq<Listed>, item: Option<nat>): Row {
    match Adopted(listing, r.torrent, Tracked(rows))
    case None => r.(phase := Error)
    case Some(g) => Reported(r.(bridge := Some(g.id)), g.phase, item)
  }

  /** The row the visit will leave behind, seen from anywhere along the way. */
  function Fate(stage: Stage, r: Row, rows: Rows, a: Answers): Row {
    match stage
    case AtRow =>
      if r.phase.Starting? then LookedUp(r, rows, a.listing, a.item)
      else if r.bridge.None? then r
      else Reported(r, a.phase, a.item)
    case Listing => LookedUp(r, rows, a.listing, a.item)
    case Choosing(listing) => LookedUp(r, rows, listing, a.item)
    case GivingUp(_) => r.(phase := Error)
    case SavingId(_, choice) => Reported(r.(bridge := Some(choice.id)), choice.phase, a.item)
    case Refreshing => Reported(r, a.phase, a.item)
    case SavingPhase(phase) => Reported(r, phase, a.item)
    case Staging(seen) => AfterHandoff(r, seen, a.item)
  }

  ghost function FateAt(s: State, j: JobId, a: Answers): Row
    requires On(s, j)
  {
    Plain(Fate(s.jobs[j].stage, s.rows[Current(s, j)], s.rows, a))
  }

  /** The steps a visit has left at most. */
  function Left(stage: Stage): nat {
    match stage
    case AtRow => 6
    case Listing => 5
    case Choosing(_) => 4
    case GivingUp(_) => 1
    case SavingId(_, _) => 3
    case Refreshing => 3
    case SavingPhase(_) => 2
    case Staging(_) => 1
  }

  predicate OwnStep(l: Label, j: JobId) { (Reads(l) || Saves(l) || l.Handoff?) && l.j == j }

  predicate Reads(l: Label) { l.ReadRow? || l.GotListing? || l.Choose? || l.GotReply? }

  /** `l` ends the visit from outside: the process or the job stops, or the bridge does not answer. */
  predicate Interrupts(l: Label, j: JobId) { l.Crash? || l == EndJob(j) || l == BridgeFails(j) }

  predicate Answered(l: Label, j: JobId, a: Answers) {
    && (l.GotListing? && l.j == j ==> l.listing == a.listing)
    && (l.GotReply? && l.j == j ==> l.phase == a.phase)
    && (l.Handoff? && l.j == j ==> l.item == a.item)
  }

  ghost predicate InStep(stage: Stage, bridge: map<BridgeId, Torrent>, l: Label) {
    match stage
    case AtRow => l.ReadRow?
    case Listing => l.GotListing? && Honest(bridge, l.listing)
    case Choosing(_) => l.Choose?
    case GivingUp(_) => l.GiveUp?
    case SavingId(_, _) => l.SaveId?
    case Refreshing => l.GotReply?
    case SavingPhase(_) => l.SavePhase?
    case Staging(_) => l.Handoff?
  }

  // ---------------------------------------------------------------------------------------------
  // Steps of others
  // ---------------------------------------------------------------------------------------------

  lemma OtherJobs(s: State, l: Label, j: JobId)
    requires j in s.jobs && s.jobs[j].started && !OwnStep(l, j) && !Interrupts(l, j)
    ensures j in Step(s, l).jobs && Step(s, l).jobs[j] == s.jobs[j]
  {
    hide Step;
    if Reads(l) || Saves(l) || l.Handoff? {
      OthersVisit(s, l, j);
    } else {
      ElsewhereJobs(s, l, j);
    }
  }

  lemma ElsewhereJobs(s: State, l: Label, j: JobId)
    requires j in s.jobs && s.jobs[j].started && !(Reads(l) || Saves(l) || l.Handoff?) && !l.Crash? && l != EndJob(j)
    ensures j in Step(s, l).jobs && Step(s, l).jobs[j] == s.jobs[j]
  {
    hide Batch, YoungCreates, HasActive, CreateRunning, IdSet, DoRead, DoFails, DoListing, DoChoose, DoGiveUp, DoSaveId, DoReply,
         DoSavePhase, DoHandoff;
  }

  lemma OthersVisit(s: State, l: Label, j: JobId)
    requires j in s.jobs && (Reads(l) || Saves(l) || l.Handoff?) && l.j != j
    ensures j in Step(s, l).jobs && Step(s, l).jobs[j] == s.jobs[j]
  {
    hide Step, Adopted, Honest, Tracked, AfterHandoff;
    StepIs(s, l);
  }

  lemma BridgeStep(s: State, l: Label)
    ensures forall b :: b in s.bridge ==> b in Step(s, l).bridge && Step(s, l).bridge[b] == s.bridge[b]
  {
    hide Batch, Adopted, YoungCreates, HasActive, CreateRunning, DoRead, DoFails, DoListing, DoChoose, DoGiveUp, DoSaveId, DoReply,
         DoSavePhase, DoHandoff;
  }

  lemma HonestStep(s: State, l: Label, listing: seq<Listed>)
    requires Honest(s.bridge, listing)
    ensures Honest(Step(s, l).bridge, listing)
  {
    hide Step;
    BridgeStep(s, l);
  }

  /** A listing whose choice cannot be disturbed by a step of others. */
  lemma ChoiceKept(s: State, l: Label, j: JobId, listing: seq<Listed>)
    requires Inv(s) && On(s, j) && !OwnStep(l, j) && !Interrupts(l, j) && Honest(s.bridge, listing)
    ensures var id := Current(s, j); var s' := Step(s, l);
            && id in s'.rows && s'.rows[id] == s.rows[id]
            && Adopted(listing, s.rows[id].torrent, Tracked(s'.rows)) == Adopted(listing, s.rows[id].torrent, Tracked(s.rows))
  {
    hide Step, Adopted, Tracked, RowsOk, CreatesOk, PostsOk, JobsOk, ClaimsOk, DispatcherOk, Lawful;
    var id := Current(s, j);
    var x, r := RowsChange(s, l);
    AtHand(s, j);
    if SavesRow(s, l, Step(s, l), x, r) {
      NotMine(s, l, j, x);
      AdoptedKept(s.rows, s.bridge, s.now, x, r, id, listing);
    } else if InsertsRow(s, Step(s, l), x, r) {
      TrackedInsert(s.rows, x, r);
    }
  }

  /** A row saved by someone else is not the row the job is at. */
  lemma NotMine(s: State, l: Label, j: JobId, x: GrabId)
    requires Inv(s) && On(s, j) && !OwnStep(l, j)
    requires (l.SaveCreate? && CreateAt(s, l.c, x)) || ((Saves(l) || l.Handoff?) && JobAt(s, l.j, x))
    ensures x != Current(s, j)
  {
    hide RowsOk, PostsOk, JobsOk, HasActive, Unrecorded;
    JobHolds(s, j, Current(s, j));
    if l.SaveCreate? {
      assert CreateOk(s.creates[l.c], s.rows, s.bridge, s.now, s.posts, Taken(s));
    }
  }

  /** The listing the fate depends on. */
  ghost predicate Sound(s: State, j: JobId, a: Answers)
    requires On(s, j)
  {
    s.jobs[j].stage.AtRow? || s.jobs[j].stage.Listing? ==> Honest(s.bridge, a.listing)
  }

  lemma OtherStep(s: State, l: Label, j: JobId, a: Answers)
    requires Inv(s) && On(s, j) && Sound(s, j, a) && !OwnStep(l, j) && !Interrupts(l, j)
    ensures var s' := Step(s, l);
            On(s', j) && s'.jobs[j] == s.jobs[j] && Sound(s', j, a) && FateAt(s', j, a) == FateAt(s, j, a)
  {
    hide Step, Inv, Adopted, Tracked, Honest, Reported, AfterHandoff;
    OtherJobs(s, l, j);
    AtHand(s, j);
    if s.jobs[j].stage.AtRow? || s.jobs[j].stage.Listing? {
      ChoiceKept(s, l, j, a.listing);
      HonestStep(s, l, a.listing);
    } else if s.jobs[j].stage.Choosing? {
      ChoiceKept(s, l, j, s.jobs[j].stage.listing);
    } else {
      NoListing(s.bridge);
      ChoiceKept(s, l, j, []);
    }
  }

  lemma NoListing(bridge: map<BridgeId, Torrent>)
    ensures Honest(bridge, [])
  {
  }

  // ---------------------------------------------------------------------------------------------
  // Steps of the visit
  // ---------------------------------------------------------------------------------------------

  lemma OutOfStep(s: State, l: Label, j: JobId)
    requires On(s, j) && OwnStep(l, j) && l != BridgeFails(j) && !InStep(s.jobs[j].stage, s.bridge, l)
    ensures Step(s, l) == s
  {
    hide Step, Adopted, Honest, Tracked, AfterHandoff;
    StepIs(s, l);
  }

  /** One step of the visit: closer to the end and on course to the same fate, or there. */
  ghost predicate OnCourse(s: State, j: JobId, s': State, a: Answers)
    requires On(s, j)
  {
    var id := Current(s, j);
    && j in s'.jobs && s'.jobs[j].ids == s.jobs[j].ids && s'.jobs[j].started && id in s'.rows
    && (if s'.jobs[j].pos == s.jobs[j].pos
        then Left(s'.jobs[j].stage) < Left(s.jobs[j].stage) && Sound(s', j, a) && FateAt(s', j, a) == FateAt(s, j, a)
        else s'.jobs[j].pos == s.jobs[j].pos + 1 && Plain(s'.rows[id]) == FateAt(s, j, a))
  }

  lemma ReadCourse(s: State, j: JobId, a: Answers)
    requires On(s, j) && s.jobs[j].stage.AtRow? && Sound(s, j, a)
    ensures OnCourse(s, j, DoRead(s, j), a)
  {
    hide Adopted, Honest, Tracked, Reported;
  }

  lemma ListingCourse(s: State, j: JobId, a: Answers)
    requires On(s, j) && s.jobs[j].stage.Listing? && Honest(s.bridge, a.listing)
    ensures OnCourse(s, j, DoListing(s, j, a.listing), a)
  {
    hide Adopted, Honest, Tracked, Reported;
  }

  lemma ChooseCourse(s: State, j: JobId, a: Answers)
    requires On(s, j) && s.jobs[j].stage.Choosing?
    ensures OnCourse(s, j, DoChoose(s, j), a)
  {
    hide Adopted, Honest, Tracked, Reported;
  }

  lemma GiveUpCourse(s: State, j: JobId, a: Answers)
    requires On(s, j) && s.jobs[j].stage.GivingUp?
    ensures OnCourse(s, j, DoGiveUp(s, j), a)
  {
    hide Adopted, Honest, Tracked, Reported;
  }

  lemma SaveIdCourse(s: State, j: JobId, a: Answers)
    requires On(s, j) && s.jobs[j].stage.SavingId?
    ensures OnCourse(s, j, DoSaveId(s, j), a)
  {
    hide Adopted, Honest, Tracked;
  }

  lemma ReplyCourse(s: State, j: JobId, a: Answers)
    requires On(s, j) && s.jobs[j].stage.Refreshing?
    ensures OnCourse(s, j, DoReply(s, j, a.phase), a)
  {
    hide Adopted, Honest, Tracked, Reported;
  }

  lemma SavePhaseCourse(s: State, j: JobId, a: Answers)
    requires On(s, j) && s.jobs[j].stage.SavingPhase?
    ensures OnCourse(s, j, DoSavePhase(s, j), a)
  {
    hide Adopted, Honest, Tracked;
  }

  lemma HandoffCourse(s: State, j: JobId, a: Answers)
    requires On(s, j) && s.jobs[j].stage.Staging?
    ensures OnCourse(s, j, DoHandoff(s, j, a.item), a)
  {
    hide Adopted, Honest, Tracked, Reported;
  }

  lemma InCourse(s: State, l: Label, j: JobId, a: Answers)
    requires On(s, j) && Sound(s, j, a) && OwnStep(l, j) && Answered(l, j, a) && InStep(s.jobs[j].stage, s.bridge, l)
    ensures OnCourse(s, j, Step(s, l), a)
  {
    hide Step, OnCourse, Sound, Honest, DoRead, DoFails, DoListing, DoChoose, DoGiveUp, DoSaveId, DoReply, DoSavePhase, DoHandoff;
    StepIs(s, l);
    match s.jobs[j].stage
    case AtRow => ReadCourse(s, j, a);
    case Listing => ListingCourse(s, j, a);
    case Choosing(_) => ChooseCourse(s, j, a);
    case GivingUp(_) => GiveUpCourse(s, j, a);
    case SavingId(_, _) => SaveIdCourse(s, j, a);
    case Refreshing => ReplyCourse(s, j, a);
    case SavingPhase(_) => SavePhaseCourse(s, j, a);
    case Staging(_) => HandoffCourse(s, j, a);
  }

  // ---------------------------------------------------------------------------------------------
  // Whole visits
  // ---------------------------------------------------------------------------------------------

  /** The run up to the moment the job has left the row at position `pos`. */
  ghost function Until(s: State, run: seq<Label>, j: JobId, pos: nat): State
    decreases |run|
  {
    if run == [] || !On(s, j) || s.jobs[j].pos != pos then s else Until(Step(s, run[0]), run[1..], j, pos)
  }

  /** How often the job gets to do its next step before that. */
  ghost function Turns(s: State, run: seq<Label>, j: JobId, pos: nat): nat
    decreases |run|
  {
    if run == [] || !On(s, j) || s.jobs[j].pos != pos then 0
    else (if OwnStep(run[0], j) && InStep(s.jobs[j].stage, s.bridge, run[0]) then 1 else 0) + Turns(Step(s, run[0]), run[1..], j, pos)
  }

  ghost predicate Uninterrupted(run: seq<Label>, j: JobId, a: Answers) {
    forall i :: 0 <= i < |run| ==> !Interrupts(run[i], j) && Answered(run[i], j, a)
  }

  /** What is known where the run has got to: still at the row, with fewer steps left and the same fate, or
      past it, with the fate fulfilled. */
  ghost predicate Visited(s: State, j: JobId, u: State, turns: nat, a: Answers)
    requires On(s, j)
  {
    var id := Current(s, j);
    && Inv(u) && j in u.jobs && u.jobs[j].ids == s.jobs[j].ids && id in u.rows
    && turns <= Left(s.jobs[j].stage)
    && (if u.jobs[j].pos == s.jobs[j].pos
        then On(u, j) && turns + Left(u.jobs[j].stage) <= Left(s.jobs[j].stage) && FateAt(u, j, a) == FateAt(s, j, a)
        else u.jobs[j].pos == s.jobs[j].pos + 1 && Plain(u.rows[id]) == FateAt(s, j, a))
  }

  /** Whatever other jobs, creates, the dispatcher, the bridge and the clock do between its steps, a job is
      done with its row after at most `Left` steps of its own and leaves the row its answers demand. */
  lemma {:induction false} VisitCourse(s: State, run: seq<Label>, j: JobId, a: Answers)
    requires Inv(s) && On(s, j) && Sound(s, j, a) && Uninterrupted(run, j, a)
    ensures Visited(s, j, Until(s, run, j, s.jobs[j].pos), Turns(s, run, j, s.jobs[j].pos), a)
    decreases |run|
  {
    hide Inv, Step, FateAt, Sound, Plain, OwnStep, InStep, Left;
    if run != [] {
      var l, s' := run[0], Step(s, run[0]);
      assert !Interrupts(l, j) && Answered(l, j, a);
      assert Uninterrupted(run[1..], j, a);
      StepKeeps(s, l);
      if !OwnStep(l, j) {
        OtherStep(s, l, j, a);
        VisitCourse(s', run[1..], j, a);
      } else if !InStep(s.jobs[j].stage, s.bridge, l) {
        OutOfStep(s, l, j);
        VisitCourse(s', run[1..], j, a);
      } else {
        InCourse(s, l, j, a);
        AtLeastOne(s.jobs[j].stage);
        if s'.jobs[j].pos == s.jobs[j].pos {
          VisitCourse(s', run[1..], j, a);
        } else {
          LeftBehind(s', run[1..], j, s.jobs[j].pos);
        }
      }
    }
  }

  lemma AtLeastOne(stage: Stage)
    ensures Left(stage) >= 1
  {
  }

  lemma LeftBehind(s: State, run: seq<Label>, j: JobId, pos: nat)
    requires j in s.jobs && s.jobs[j].pos != pos
    ensures Until(s, run, j, pos) == s && Turns(s, run, j, pos) == 0
  {
  }

  /** Every listed grab of the torrent is recorded on some row. */
  ghost predicate AllRecorded(rows: Rows, listing: seq<Listed>, torrent: Torrent) {
    forall i :: 0 <= i < |listing| && listing[i].torrent == torrent ==> listing[i].id in Tracked(rows)
  }

  /** From the moment a starting row's listing has arrived, and whatever happens meanwhile: the job gives the
      row up, leaving it in error without a new grab, exactly when every listed grab of the torrent was
      recorded on some row, the row's own included; otherwise the row takes over an unrecorded one, an
      unfinished one whenever there is one, and its phase. */
  lemma AdoptionOutcome(s: State, run: seq<Label>, j: JobId, a: Answers)
    requires Inv(s) && On(s, j) && s.jobs[j].stage.Choosing? && Uninterrupted(run, j, a)
    requires var u := Until(s, run, j, s.jobs[j].pos); j in u.jobs && u.jobs[j].pos != s.jobs[j].pos
    ensures var id := Current(s, j); var u := Until(s, run, j, s.jobs[j].pos); var listing := s.jobs[j].stage.listing;
            && id in u.rows
            && (u.rows[id].phase.Error? && u.rows[id].bridge == s.rows[id].bridge <==> AllRecorded(s.rows, listing, s.rows[id].torrent))
            && (!AllRecorded(s.rows, listing, s.rows[id].torrent) ==>
                  exists g :: g in listing && TookOver(s.rows[id], u.rows[id], s.rows, listing, g))
  {
    hide Inv, Until, Turns, Uninterrupted, Adopted, Tracked, Stopped;
    var id, listing, u := Current(s, j), s.jobs[j].stage.listing, Until(s, run, j, s.jobs[j].pos);
    VisitCourse(s, run, j, a);
    AdoptedBest(listing, s.rows[id].torrent, Tracked(s.rows));
    var r := s.rows[id];
    match Adopted(listing, r.torrent, Tracked(s.rows))
    case None =>
    case Some(g) =>
      if r.bridge.Some? { OwnTracked(s.rows, id); }
      assert TookOver(r, u.rows[id], s.rows, listing, g);
  }

  /** A row that recorded its grab but not the phase is given up at its next visit, whatever happens
      meanwhile, unless the bridge lists another grab of its torrent. */
  lemma OwnIdStrands(s: State, run: seq<Label>, j: JobId, a: Answers)
    requires Inv(s) && On(s, j) && s.jobs[j].stage.Choosing? && Uninterrupted(run, j, a)
    requires var u := Until(s, run, j, s.jobs[j].pos); j in u.jobs && u.jobs[j].pos != s.jobs[j].pos
    requires var r, listing := s.rows[Current(s, j)], s.jobs[j].stage.listing;
             r.bridge.Some? && forall i :: 0 <= i < |listing| && listing[i].torrent == r.torrent ==> listing[i].id == r.bridge.value
    ensures var u := Until(s, run, j, s.jobs[j].pos); Current(s, j) in u.rows && u.rows[Current(s, j)].phase.Error?
  {
    hide Inv, Until, Uninterrupted;
    AdoptionOutcome(s, run, j, a);
    OwnTracked(s.rows, Current(s, j));
  }

  lemma OwnTracked(rows: Rows, id: GrabId)
    requires id in rows && rows[id].bridge.Some?
    ensures rows[id].bridge.value in Tracked(rows)
  {
  }

  /** The row has taken over grab `g`, which nobody had recorded, and no unfinished grab was passed over for
      a finished one. */
  ghost predicate TookOver(r: Row, r': Row, rows: Rows, listing: seq<Listed>, g: Listed) {
    && g.torrent == r.torrent && g.id !in Tracked(rows) && r'.bridge == Some(g.id)
    && (!g.phase.Completed? ==> r'.phase == g.phase)
    && (Stopped(g.phase) ==>
          forall i :: 0 <= i < |listing| && listing[i].torrent == r.torrent && listing[i].id !in Tracked(rows) ==> Stopped(listing[i].phase))
  }

  /** A visit to a row that has its bridge grab: the row keeps its grab and takes the reported phase; a
      completed download not linked yet is linked, or its failed handoff is counted, and the last failure
      ends the row. */
  lemma RefreshOutcome(s: State, run: seq<Label>, j: JobId, a: Answers)
    requires Inv(s) && On(s, j) && s.jobs[j].stage.Refreshing? && Uninterrupted(run, j, a)
    requires var u := Until(s, run, j, s.jobs[j].pos); j in u.jobs && u.jobs[j].pos != s.jobs[j].pos
    ensures var id := Current(s, j); var u := Until(s, run, j, s.jobs[j].pos);
            && id in u.rows && u.rows[id].bridge == s.rows[id].bridge
            && (var r, handsOff := s.rows[id], a.phase.Completed? && s.rows[id].item.None?;
                && u.rows[id].item == (if handsOff then a.item else r.item)
                && u.rows[id].handoffs == (if handsOff && a.item.None? then r.handoffs + 1 else r.handoffs)
                && u.rows[id].phase == (if handsOff && a.item.None? && r.handoffs + 1 >= HANDOFF_MAX_ATTEMPTS then Error else a.phase))
  {
    hide Inv, Until, Turns, Uninterrupted;
    VisitCourse(s, run, j, a);
  }
}
