/**
  MAM grabs: local rows that shadow grabs of an external bridge, and the in-process claims that keep
  two refresh jobs off one row.

  The bridge is an adversary.  It hands out fresh grab ids and never changes a grab's torrent, but any
  call may fail, any reply may name any phase, and a listing may leave grabs out.  Every awaited
  database statement and bridge call is one step; a label that is not enabled changes nothing.
 */
module Grabs {

  import opened Common

  type GrabId = nat
  type BridgeId = nat
  type Torrent = int
  type Time = int
  type CreateId = nat
  type JobId = nat

  datatype Phase = Starting | Queued | Downloading | Completed | Error | Other(name: string)

  /** The phases in which a row still tracks, or awaits, bridge work. */
  predicate Active(p: Phase) { p.Starting? || p.Queued? || p.Downloading? || p.Completed? }

  /** The row is done: no longer active, or its download has been staged. */
  predicate Closed(r: Row) { !Active(r.phase) || r.item.Some? }

  const REFRESH_INTERVAL: Time := 60
  const HANDOFF_RETRY_INTERVAL: Time := 300
  const STARTING_STALE_AFTER: Time := 120
  const HANDOFF_MAX_ATTEMPTS: nat := 288
  const DUE_BATCH_LIMIT: nat := 100

  datatype Row = Row(
    request: nat, torrent: Torrent, bridge: Option<BridgeId>, phase: Phase, item: Option<nat>, handoffs: nat, updatedAt: Time)

  type Rows = map<GrabId, Row>

  /** A grab as a bridge listing shows it. */
  datatype Listed = Listed(id: BridgeId, torrent: Torrent, phase: Phase, createdAt: nat)

  /** The bridge has stopped touching the grab. */
  predicate Finished(g: Listed) { g.phase.Error? || g.phase == Other("aborted") || g.phase == Other("missing") }

  // ---------------------------------------------------------------------------------------------
  // Selecting due rows
  // ---------------------------------------------------------------------------------------------

  predicate Due(r: Row, now: Time) {
    || ((r.phase.Queued? || r.phase.Downloading?) && r.updatedAt <= now - REFRESH_INTERVAL)
    || (r.phase.Completed? && r.item.None? && r.updatedAt <= now - HANDOFF_RETRY_INTERVAL)
    || (r.phase.Starting? && r.updatedAt <= now - STARTING_STALE_AFTER)
  }

  predicate Selectable(rows: Rows, now: Time, claimed: set<GrabId>, id: GrabId) {
    id in rows && id !in claimed && Due(rows[id], now)
  }

  /** What the due query may answer: due unclaimed rows, oldest first, at most a batch, and nothing
      left behind that is older than something taken. */
  ghost predicate Batch(rows: Rows, now: Time, claimed: set<GrabId>, ids: seq<GrabId>) {
    && Distinct(ids)
    && |ids| <= DUE_BATCH_LIMIT
    && (forall i :: 0 <= i < |ids| ==> Selectable(rows, now, claimed, ids[i]))
    && (forall i, j :: 0 <= i < j < |ids| ==> ids[i] in rows && ids[j] in rows && rows[ids[i]].updatedAt <= rows[ids[j]].updatedAt)
    && (forall id :: Selectable(rows, now, claimed, id) && id !in ids ==>
          |ids| == DUE_BATCH_LIMIT && forall i :: 0 <= i < |ids| ==> ids[i] in rows && rows[ids[i]].updatedAt <= rows[id].updatedAt)
  }

  /** The due query as a selection: the oldest of the rest, until the batch is full. */
  method DueGrabIds(rows: Rows, now: Time, claimed: set<GrabId>) returns (ids: seq<GrabId>)
    ensures Batch(rows, now, claimed, ids)
    ensures |ids| <= 100 && ((exists id :: Selectable(rows, now, claimed, id) && id !in ids) ==> |ids| == 100)
  {
    var rest := set id | id in rows && Selectable(rows, now, claimed, id);
    ids := [];
    while rest != {} && |ids| < DUE_BATCH_LIMIT
      invariant |ids| <= DUE_BATCH_LIMIT && Distinct(ids)
      invariant forall id :: Selectable(rows, now, claimed, id) <==> id in rest || id in ids
      invariant forall i :: 0 <= i < |ids| ==> ids[i] !in rest && Selectable(rows, now, claimed, ids[i])
      invariant forall i, j :: 0 <= i < j < |ids| ==> rows[ids[i]].updatedAt <= rows[ids[j]].updatedAt
      invariant forall i, id :: 0 <= i < |ids| && id in rest ==> rows[ids[i]].updatedAt <= rows[id].updatedAt
    {
      assert forall id :: id in rest ==> Selectable(rows, now, claimed, id);
      var id := Oldest(rows, rest);
      DistinctSnoc(ids, id);
      ids, rest := ids + [id], rest - {id};
    }
  }

  method Oldest(rows: Rows, ids: set<GrabId>) returns (oldest: GrabId)
    requires ids != {} && ids <= rows.Keys
    ensures oldest in ids && forall id :: id in ids ==> rows[oldest].updatedAt <= rows[id].updatedAt
  {
    oldest :| oldest in ids;
    var rest := ids - {oldest};
    while rest != {}
      invariant rest <= ids && oldest in ids
      invariant forall id :: id in ids && id !in rest ==> rows[oldest].updatedAt <= rows[id].updatedAt
    {
      var id :| id in rest;
      if rows[id].updatedAt < rows[oldest].updatedAt { oldest := id; }
      rest := rest - {id};
    }
  }

  /** `RefreshClaims`: the ids handed to a queued or running refresh job. */
  class RefreshClaims {
    var claimed: set<GrabId>

    constructor ()
      ensures claimed == {}
    {
      claimed := {};
    }

    method Claim(ids: seq<GrabId>)
      modifies this
      ensures claimed == old(claimed) + IdSet(ids)
    {
      claimed := claimed + set id | id in ids;
    }

    /** The drop of the guard made for `ids`. */
    method Release(ids: seq<GrabId>)
      modifies this
      ensures claimed == old(claimed) - IdSet(ids)
    {
      for i := 0 to |ids|
        invariant claimed == old(claimed) - IdSet(ids[..i])
      {
        assert IdSet(ids[..i + 1]) == IdSet(ids[..i]) + {ids[i]} by { assert ids[..i + 1] == ids[..i] + [ids[i]]; }
        claimed := claimed - {ids[i]};
      }
      assert ids[..|ids|] == ids;
    }
  }

  // ---------------------------------------------------------------------------------------------
  // Adoption
  // ---------------------------------------------------------------------------------------------

  function Tracked(rows: Rows): set<BridgeId> {
    set id | id in rows && rows[id].bridge.Some? :: rows[id].bridge.value
  }

  predicate Candidate(g: Listed, torrent: Torrent, tracked: set<BridgeId>) { g.torrent == torrent && g.id !in tracked }

  /** An active grab beats a finished one; among equals the newer wins, and the later of two as new. */
  predicate AtLeast(a: Listed, b: Listed) {
    if Finished(a) == Finished(b) then a.createdAt >= b.createdAt else Finished(b)
  }

  function Adopted(listing: seq<Listed>, torrent: Torrent, tracked: set<BridgeId>): Option<Listed> {
    if listing == [] then None
    else
      var last := listing[|listing| - 1];
      var rest := Adopted(listing[..|listing| - 1], torrent, tracked);
      if !Candidate(last, torrent, tracked) then rest
      else if rest.Some? && !AtLeast(last, rest.value) then rest
      else Some(last)
  }

  /** The choice of `adopt_bridge_grab`: a pass over the listing that keeps the best so far. */
  method ChooseGrab(listing: seq<Listed>, torrent: Torrent, tracked: set<BridgeId>) returns (best: Option<Listed>)
    ensures best == Adopted(listing, torrent, tracked)
  {
    best := None;
    for i := 0 to |listing|
      invariant best == Adopted(listing[..i], torrent, tracked)
    {
      assert listing[..i + 1][..i] == listing[..i];
      if Candidate(listing[i], torrent, tracked) && (best.None? || AtLeast(listing[i], best.value)) {
        best := Some(listing[i]);
      }
    }
    assert listing[..|listing|] == listing;
  }

  /** The phases after which the bridge no longer touches a grab. */
  predicate Stopped(p: Phase) { p in {Error, Other("aborted"), Other("missing")} }

  /** Adoption takes an untracked grab of the row's torrent, an unfinished one whenever there is one,
      and none newer of its kind exists; it takes nothing exactly when every listed grab of the torrent
      is recorded on some row. */
  lemma {:induction false} AdoptedBest(listing: seq<Listed>, torrent: Torrent, tracked: set<BridgeId>)
    ensures Adopted(listing, torrent, tracked).None? <==>
              forall i :: 0 <= i < |listing| && listing[i].torrent == torrent ==> listing[i].id in tracked
    ensures Adopted(listing, torrent, tracked).Some? ==>
              var g := Adopted(listing, torrent, tracked).value;
              && g in listing && g.torrent == torrent && g.id !in tracked
              && (forall i :: 0 <= i < |listing| && listing[i].torrent == torrent && listing[i].id !in tracked ==>
                    && (Stopped(g.phase) ==> Stopped(listing[i].phase))
                    && (Stopped(g.phase) == Stopped(listing[i].phase) ==> listing[i].createdAt <= g.createdAt))
  {
    if listing != [] {
      var rest := listing[..|listing| - 1];
      AdoptedBest(rest, torrent, tracked);
      assert forall i :: 0 <= i < |rest| ==> listing[i] == rest[i];
    }
  }

  // ---------------------------------------------------------------------------------------------
  // The protocol
  // ---------------------------------------------------------------------------------------------

  /** One call of `create_grab` after its checks passed. */
  datatype Create =
    | Inserting(request: nat, torrent: Torrent)
    | Posting(row: GrabId, torrent: Torrent)
    | Saving(row: GrabId, torrent: Torrent, bid: BridgeId, phase: Phase)
    | Failing(row: GrabId, torrent: Torrent)

  predicate HasRow(c: Create) { !c.Inserting? }

  /** Where a refresh job stands with its current row. */
  datatype Stage =
    | AtRow
    | Listing
    | Choosing(listing: seq<Listed>)
    | GivingUp(listing: seq<Listed>)
    | SavingId(listing: seq<Listed>, choice: Listed)
    | Refreshing
    | SavingPhase(phase: Phase)
    | Staging(seen: nat)

  datatype Job = Job(ids: seq<GrabId>, started: bool, pos: nat, stage: Stage)

  datatype Dispatcher =
    | Idle
    | Reading(claimed: set<GrabId>, at: Time)
    | Claiming(batch: seq<GrabId>)
    | Enqueuing(batch: seq<GrabId>)

  /** `bridge` records the torrent of every grab the bridge ever made.  `posts` counts the bridge POSTs
      made for each row and `leaked` the claims nobody will release: both are history. */
  datatype State = State(
    now: Time,
    rows: Rows,
    bridge: map<BridgeId, Torrent>,
    creates: map<CreateId, Create>,
    jobs: map<JobId, Job>,
    claims: set<GrabId>,
    dispatcher: Dispatcher,
    posts: map<GrabId, nat>,
    leaked: set<GrabId>)

  const INITIAL := State(0, map[], map[], map[], map[], {}, Idle, map[], {})

  datatype Reply = Accepted(bid: BridgeId, phase: Phase) | Rejected(made: Option<BridgeId>)

  datatype Label =
    | BeginCreate(c: CreateId, request: nat, torrent: Torrent)
    | InsertRow(c: CreateId, id: GrabId)
    | Post(c: CreateId, reply: Reply)
    | SaveCreate(c: CreateId)
    | CreateLost(c: CreateId)
    | BridgeMakes(bid: BridgeId, torrent: Torrent)
    | Tick(t: Time)
    | ReadClaims
    | Query(ids: seq<GrabId>)
    | TakeClaims
    | Enqueue(j: JobId, ok: bool)
    | DispatcherAborted
    | OpenJob(j: JobId, ok: bool)
    | ReadRow(j: JobId)
    | BridgeFails(j: JobId)
    | GotListing(j: JobId, listing: seq<Listed>)
    | Choose(j: JobId)
    | GiveUp(j: JobId)
    | SaveId(j: JobId)
    | GotReply(j: JobId, phase: Phase)
    | SavePhase(j: JobId)
    | Handoff(j: JobId, item: Option<nat>)
    | EndJob(j: JobId)
    | Crash

  function IdSet(ids: seq<GrabId>): set<GrabId> { set id | id in ids }

  function Posts(m: map<GrabId, nat>, id: GrabId): nat { if id in m then m[id] else 0 }

  predicate HasActive(rows: Rows, torrent: Torrent) {
    exists id :: id in rows && rows[id].torrent == torrent && Active(rows[id].phase)
  }

  predicate CreateRunning(creates: map<CreateId, Create>, torrent: Torrent) {
    exists c :: c in creates && creates[c].torrent == torrent
  }

  /** An unfinished create is younger than the age at which its row would be taken for lost. */
  predicate YoungCreates(s: State, t: Time) {
    forall c :: c in s.creates && HasRow(s.creates[c]) && s.creates[c].row in s.rows ==>
      t < s.rows[s.creates[c].row].updatedAt + STARTING_STALE_AFTER
  }

  /** Replies of the bridge agree with its grabs on ids and torrents, and on nothing else. */
  ghost predicate Honest(bridge: map<BridgeId, Torrent>, listing: seq<Listed>) {
    forall i :: 0 <= i < |listing| ==> listing[i].id in bridge && bridge[listing[i].id] == listing[i].torrent
  }

  ghost function Step(s: State, l: Label): State {
    match l
    case BeginCreate(c, request, torrent) => DoBegin(s, c, request, torrent)
    case InsertRow(c, id) => DoInsert(s, c, id)
    case Post(c, reply) => DoPost(s, c, reply)
    case SaveCreate(c) => DoSaveCreate(s, c)
    case CreateLost(c) => s.(creates := s.creates - {c})
    case BridgeMakes(bid, torrent) => if bid in s.bridge then s else s.(bridge := s.bridge[bid := torrent])
    case Tick(t) => if s.now <= t && YoungCreates(s, t) then s.(now := t) else s
    case ReadClaims => if s.dispatcher.Idle? then s.(dispatcher := Reading(s.claims, s.now)) else s
    case Query(ids) => DoQuery(s, ids)
    case TakeClaims => DoTake(s)
    case Enqueue(j, ok) => DoEnqueue(s, j, ok)
    case DispatcherAborted => DoAbort(s)
    case OpenJob(j, ok) => DoOpen(s, j, ok)
    case ReadRow(j) => DoRead(s, j)
    case BridgeFails(j) => DoFails(s, j)
    case GotListing(j, listing) => DoListing(s, j, listing)
    case Choose(j) => DoChoose(s, j)
    case GiveUp(j) => DoGiveUp(s, j)
    case SaveId(j) => DoSaveId(s, j)
    case GotReply(j, phase) => DoReply(s, j, phase)
    case SavePhase(j) => DoSavePhase(s, j)
    case Handoff(j, item) => DoHandoff(s, j, item)
    case EndJob(j) => DoEnd(s, j)
    case Crash => s.(creates := map[], jobs := map[], claims := {}, dispatcher := Idle, leaked := {})
  }

  ghost function Exec(s: State, run: seq<Label>): State
    decreases |run|
  {
    if run == [] then s else Exec(Step(s, run[0]), run[1..])
  }

  /** `create_grab` up to its insert: a second confirmation of a release finds the active row and stops
      here. */
  function Began(s: State, c: CreateId, request: nat, torrent: Torrent): State {
    if c in s.creates || HasActive(s.rows, torrent) then s
    else s.(creates := s.creates[c := Inserting(request, torrent)])
  }

  /** At most one create per torrent is under way at a time. */
  function DoBegin(s: State, c: CreateId, request: nat, torrent: Torrent): (q: State)
    ensures q.rows == s.rows && q.leaked == s.leaked
  {
    if CreateRunning(s.creates, torrent) then s else Began(s, c, request, torrent)
  }

  function DoInsert(s: State, c: CreateId, id: GrabId): (q: State)
    ensures q.leaked == s.leaked
  {
    if c in s.creates && s.creates[c].Inserting? && id !in s.rows
    then s.(rows := s.rows[id := Row(s.creates[c].request, s.creates[c].torrent, None, Starting, None, 0, s.now)],
            creates := s.creates[c := Posting(id, s.creates[c].torrent)])
    else s
  }

  /** The POST: the bridge makes a grab and says so, or answers in a way that ends the row. */
  function DoPost(s: State, c: CreateId, reply: Reply): (q: State)
    ensures q.rows == s.rows && q.leaked == s.leaked
  {
    if !(c in s.creates && s.creates[c].Posting?) then s
    else
      var me := s.creates[c];
      var s1 := s.(posts := s.posts[me.row := Posts(s.posts, me.row) + 1]);
      match reply
      case Accepted(bid, phase) =>
        if bid in s.bridge then s
        else s1.(bridge := s.bridge[bid := me.torrent], creates := s.creates[c := Saving(me.row, me.torrent, bid, phase)])
      case Rejected(made) =>
        if made.Some? && made.value in s.bridge then s
        else s1.(bridge := if made.Some? then s.bridge[made.value := me.torrent] else s.bridge,
                 creates := s.creates[c := Failing(me.row, me.torrent)])
  }

  function DoSaveCreate(s: State, c: CreateId): (q: State)
    ensures q.leaked == s.leaked
  {
    if !(c in s.creates && HasRow(s.creates[c]) && s.creates[c].row in s.rows) then s
    else
      var me := s.creates[c];
      var r := s.rows[me.row];
      match me
      case Saving(id, _, bid, phase) =>
        s.(rows := s.rows[id := r.(bridge := Some(bid), phase := phase, updatedAt := s.now)], creates := s.creates - {c})
      case Failing(id, _) =>
        s.(rows := s.rows[id := r.(phase := Error, updatedAt := s.now)], creates := s.creates - {c})
      case _ => s
  }

  ghost function DoQuery(s: State, ids: seq<GrabId>): (q: State)
    ensures q.rows == s.rows && q.leaked == s.leaked
  {
    if s.dispatcher.Reading? && Batch(s.rows, s.dispatcher.at, s.dispatcher.claimed, ids)
    then s.(dispatcher := if ids == [] then Idle else Claiming(ids))
    else s
  }

  function DoTake(s: State): (q: State)
    ensures q.rows == s.rows && q.leaked == s.leaked
  {
    if s.dispatcher.Claiming?
    then s.(claims := s.claims + IdSet(s.dispatcher.batch), dispatcher := Enqueuing(s.dispatcher.batch))
    else s
  }

  function DoEnqueue(s: State, j: JobId, ok: bool): (q: State)
    ensures q.rows == s.rows && q.leaked == s.leaked
  {
    if !s.dispatcher.Enqueuing? || j in s.jobs then s
    else if ok then s.(jobs := s.jobs[j := Job(s.dispatcher.batch, false, 0, AtRow)], dispatcher := Idle)
    else s.(claims := s.claims - IdSet(s.dispatcher.batch), dispatcher := Idle)
  }

  /** The maintenance loop is aborted; claims already taken for a batch stay behind. */
  function DoAbort(s: State): (q: State)
    ensures q.rows == s.rows && s.leaked <= q.leaked
  {
    s.(dispatcher := Idle, leaked := if s.dispatcher.Enqueuing? then s.leaked + IdSet(s.dispatcher.batch) else s.leaked)
  }

  /** A dequeued job first writes its running record; if that fails the job is dropped before the
      guard that would release its claims exists. */
  function DoOpen(s: State, j: JobId, ok: bool): (q: State)
    ensures q.rows == s.rows && s.leaked <= q.leaked
  {
    if !(j in s.jobs && !s.jobs[j].started) then s
    else if ok then s.(jobs := s.jobs[j := s.jobs[j].(started := true)])
    else s.(jobs := s.jobs - {j}, leaked := s.leaked + IdSet(s.jobs[j].ids))
  }

  predicate On(s: State, j: JobId) {
    j in s.jobs && s.jobs[j].started && s.jobs[j].pos < |s.jobs[j].ids| && s.jobs[j].ids[s.jobs[j].pos] in s.rows
  }

  function Current(s: State, j: JobId): GrabId
    requires On(s, j)
  {
    s.jobs[j].ids[s.jobs[j].pos]
  }

  function AtStage(s: State, j: JobId, stage: Stage): State
    requires j in s.jobs
  {
    s.(jobs := s.jobs[j := s.jobs[j].(stage := stage)])
  }

  function NextRow(s: State, j: JobId): State
    requires j in s.jobs
  {
    s.(jobs := s.jobs[j := s.jobs[j].(pos := s.jobs[j].pos + 1, stage := AtRow)])
  }

  /** A save touches the row's time stamp along with the columns it sets. */
  function Saved(s: State, id: GrabId, r: Row): State { s.(rows := s.rows[id := r.(updatedAt := s.now)]) }

  function DoRead(s: State, j: JobId): (q: State)
    ensures q.rows == s.rows && q.leaked == s.leaked && q.bridge == s.bridge
  {
    if !(On(s, j) && s.jobs[j].stage.AtRow?) then s
    else
      var r := s.rows[Current(s, j)];
      if r.phase.Starting? then AtStage(s, j, Listing)
      else if r.bridge.None? then NextRow(s, j)
      else AtStage(s, j, Refreshing)
  }

  /** No listing, no reply, or a reply about another torrent: only the error text is saved. */
  function DoFails(s: State, j: JobId): (q: State)
    ensures q.leaked == s.leaked && q.bridge == s.bridge
  {
    if On(s, j) && (s.jobs[j].stage.Listing? || s.jobs[j].stage.Refreshing?)
    then NextRow(Saved(s, Current(s, j), s.rows[Current(s, j)]), j)
    else s
  }

  ghost function DoListing(s: State, j: JobId, listing: seq<Listed>): (q: State)
    ensures q.rows == s.rows && q.leaked == s.leaked && q.bridge == s.bridge
  {
    if On(s, j) && s.jobs[j].stage.Listing? && Honest(s.bridge, listing) then AtStage(s, j, Choosing(listing)) else s
  }

  /** Reads the tracked ids and picks a grab. */
  function DoChoose(s: State, j: JobId): (q: State)
    ensures q.rows == s.rows && q.leaked == s.leaked && q.bridge == s.bridge
  {
    if !(On(s, j) && s.jobs[j].stage.Choosing?) then s
    else
      match Adopted(s.jobs[j].stage.listing, s.rows[Current(s, j)].torrent, Tracked(s.rows))
      case None => AtStage(s, j, GivingUp(s.jobs[j].stage.listing))
      case Some(g) => AtStage(s, j, SavingId(s.jobs[j].stage.listing, g))
  }

  function DoGiveUp(s: State, j: JobId): (q: State)
    ensures q.leaked == s.leaked && q.bridge == s.bridge
  {
    if On(s, j) && s.jobs[j].stage.GivingUp?
    then NextRow(Saved(s, Current(s, j), s.rows[Current(s, j)].(phase := Error)), j)
    else s
  }

  /** The first of adoption's two saves. */
  function DoSaveId(s: State, j: JobId): (q: State)
    ensures q.leaked == s.leaked && q.bridge == s.bridge
  {
    if On(s, j) && s.jobs[j].stage.SavingId?
    then AtStage(Saved(s, Current(s, j), s.rows[Current(s, j)].(bridge := Some(s.jobs[j].stage.choice.id))), j,
                 SavingPhase(s.jobs[j].stage.choice.phase))
    else s
  }

  function DoReply(s: State, j: JobId, phase: Phase): (q: State)
    ensures q.rows == s.rows && q.leaked == s.leaked && q.bridge == s.bridge
  {
    if On(s, j) && s.jobs[j].stage.Refreshing? then AtStage(s, j, SavingPhase(phase)) else s
  }

  function DoSavePhase(s: State, j: JobId): (q: State)
    ensures q.leaked == s.leaked && q.bridge == s.bridge
  {
    if !(On(s, j) && s.jobs[j].stage.SavingPhase?) then s
    else
      var r := s.rows[Current(s, j)].(phase := s.jobs[j].stage.phase);
      var s1 := Saved(s, Current(s, j), r);
      if r.phase.Completed? && r.item.None? then AtStage(s1, j, Staging(r.handoffs)) else NextRow(s1, j)
  }

  /** `stage_completed_grab`: link the staged item, or count a failed handoff. */
  function DoHandoff(s: State, j: JobId, item: Option<nat>): (q: State)
    ensures q.leaked == s.leaked && q.bridge == s.bridge
  {
    if On(s, j) && s.jobs[j].stage.Staging?
    then NextRow(Saved(s, Current(s, j), AfterHandoff(s.rows[Current(s, j)], s.jobs[j].stage.seen, item)), j)
    else s
  }

  function AfterHandoff(r: Row, seen: nat, item: Option<nat>): Row {
    if item.Some? then r.(item := item)
    else if seen + 1 >= HANDOFF_MAX_ATTEMPTS then r.(handoffs := seen + 1, phase := Error)
    else r.(handoffs := seen + 1)
  }

  /** The job returns, fails or is dropped: its guard releases its ids. */
  function DoEnd(s: State, j: JobId): (q: State)
    ensures q.rows == s.rows && q.leaked == s.leaked
  {
    if j in s.jobs && s.jobs[j].started
    then s.(jobs := s.jobs - {j}, claims := s.claims - IdSet(s.jobs[j].ids))
    else s
  }

  // ---------------------------------------------------------------------------------------------
  // The invariant
  // ---------------------------------------------------------------------------------------------

  predicate RowOk(r: Row, bridge: map<BridgeId, Torrent>, now: Time) {
    && (r.phase.Queued? || r.phase.Downloading? || r.phase.Completed? ==> r.bridge.Some?)
    && (r.bridge.Some? ==> r.bridge.value in bridge && bridge[r.bridge.value] == r.torrent)
    && r.handoffs <= HANDOFF_MAX_ATTEMPTS
    && (Active(r.phase) ==> r.handoffs < HANDOFF_MAX_ATTEMPTS)
    && (r.item.Some? ==> r.phase.Completed?)
    && r.updatedAt <= now
  }

  predicate SameBridge(a: Row, b: Row) { a.bridge.Some? && a.bridge == b.bridge }

  predicate BothActive(a: Row, b: Row) { Active(a.phase) && Active(b.phase) && a.torrent == b.torrent }

  ghost predicate RowsOk(rows: Rows, bridge: map<BridgeId, Torrent>, now: Time) {
    && (forall id :: id in rows ==> RowOk(rows[id], bridge, now))
    && (forall a, b :: a in rows && b in rows && SameBridge(rows[a], rows[b]) ==> a == b)
    && (forall a, b :: a in rows && b in rows && BothActive(rows[a], rows[b]) ==> a == b)
  }

  ghost predicate Unrecorded(rows: Rows, bid: BridgeId) {
    forall id :: id in rows ==> rows[id].bridge != Some(bid)
  }

  /** An unfinished create owns an untouched starting row that nobody has claimed. */
  ghost predicate CreateOk(c: Create, rows: Rows, bridge: map<BridgeId, Torrent>, now: Time, posts: map<GrabId, nat>, taken: set<GrabId>) {
    if c.Inserting? then !HasActive(rows, c.torrent)
    else
      && c.row in rows && c.row !in taken
      && rows[c.row].torrent == c.torrent && rows[c.row].phase.Starting? && rows[c.row].bridge.None?
      && rows[c.row].handoffs == 0
      && now < rows[c.row].updatedAt + STARTING_STALE_AFTER
      && (c.Posting? ==> Posts(posts, c.row) == 0)
      && (c.Saving? ==> c.bid in bridge && bridge[c.bid] == c.torrent && Unrecorded(rows, c.bid))
  }

  ghost predicate CreatesOk(creates: map<CreateId, Create>, rows: Rows, bridge: map<BridgeId, Torrent>, now: Time,
                            posts: map<GrabId, nat>, taken: set<GrabId>)
  {
    && (forall c :: c in creates ==> CreateOk(creates[c], rows, bridge, now, posts, taken))
    && (forall a, b :: a in creates && b in creates && creates[a].torrent == creates[b].torrent ==> a == b)
  }

  ghost predicate PostsOk(posts: map<GrabId, nat>, rows: Rows) {
    forall id :: id in posts ==> id in rows && posts[id] <= 1
  }

  /** What a job knows about the row it is at. */
  ghost predicate StageOk(stage: Stage, r: Row, rows: Rows, bridge: map<BridgeId, Torrent>) {
    match stage
    case AtRow => true
    case Listing => r.phase.Starting?
    case Choosing(listing) => r.phase.Starting? && Honest(bridge, listing)
    case GivingUp(listing) => r.phase.Starting? && Honest(bridge, listing) && Adopted(listing, r.torrent, Tracked(rows)) == None
    case SavingId(listing, choice) =>
      r.phase.Starting? && Honest(bridge, listing) && Adopted(listing, r.torrent, Tracked(rows)) == Some(choice)
    case Refreshing => r.bridge.Some?
    case SavingPhase(_) => r.bridge.Some?
    case Staging(seen) => r.phase.Completed? && seen == r.handoffs
  }

  ghost predicate JobOk(j: Job, rows: Rows, bridge: map<BridgeId, Torrent>) {
    && (!j.started ==> j.pos == 0 && j.stage.AtRow?)
    && Distinct(j.ids)
    && (forall i :: 0 <= i < |j.ids| ==> j.ids[i] in rows)
    && (forall i :: j.pos <= i < |j.ids| ==> !Closed(rows[j.ids[i]]))
    && (j.pos < |j.ids| ==> StageOk(j.stage, rows[j.ids[j.pos]], rows, bridge))
  }

  ghost predicate JobsOk(jobs: map<JobId, Job>, rows: Rows, bridge: map<BridgeId, Torrent>) {
    forall j :: j in jobs ==> JobOk(jobs[j], rows, bridge)
  }

  /** The ids of all queued and running jobs. */
  function Held(jobs: map<JobId, Job>): set<GrabId> {
    set j, id | j in jobs && id in jobs[j].ids :: id
  }

  function InHand(d: Dispatcher): set<GrabId> { if d.Enqueuing? then IdSet(d.batch) else {} }

  /** The batch the dispatcher is working on. */
  function Batched(d: Dispatcher): set<GrabId> { if d.Claiming? || d.Enqueuing? then IdSet(d.batch) else {} }

  /** Rows that a job has, that the dispatcher has claimed, or is about to. */
  function Taken(s: State): set<GrabId> {
    s.claims + Batched(s.dispatcher)
  }

  /** The claim set is, without overlap, what jobs hold, what the dispatcher has in hand, and what has
      leaked. */
  ghost predicate ClaimsOk(claims: set<GrabId>, jobs: map<JobId, Job>, d: Dispatcher, leaked: set<GrabId>) {
    && claims == Held(jobs) + InHand(d) + leaked
    && Held(jobs) !! leaked && InHand(d) !! leaked && Held(jobs) !! InHand(d)
    && (forall a, b, id :: a in jobs && b in jobs && id in jobs[a].ids && id in jobs[b].ids ==> a == b)
  }

  ghost predicate DispatcherOk(d: Dispatcher, rows: Rows, claims: set<GrabId>, now: Time) {
    match d
    case Idle => true
    case Reading(claimed, at) => claims <= claimed && at <= now
    case Claiming(batch) => Fresh(batch, rows) && IdSet(batch) !! claims
    case Enqueuing(batch) => Fresh(batch, rows)
  }

  ghost predicate Fresh(batch: seq<GrabId>, rows: Rows) {
    Distinct(batch) && forall i :: 0 <= i < |batch| ==> batch[i] in rows && !Closed(rows[batch[i]])
  }

  ghost predicate Inv(s: State) {
    && RowsOk(s.rows, s.bridge, s.now)
    && CreatesOk(s.creates, s.rows, s.bridge, s.now, s.posts, Taken(s))
    && PostsOk(s.posts, s.rows)
    && JobsOk(s.jobs, s.rows, s.bridge)
    && ClaimsOk(s.claims, s.jobs, s.dispatcher, s.leaked)
    && DispatcherOk(s.dispatcher, s.rows, s.claims, s.now)
    && Taken(s) <= s.rows.Keys
  }
}
