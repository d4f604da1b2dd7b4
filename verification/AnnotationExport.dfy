/**
  Annotation export: jobs that send a user's changed works to several sinks and keep one cursor per
  sink.

  A write gives a work the next sequence number; that number is also the work's version.  A job takes
  the cursors of the enabled sinks, builds one batch from the smallest, and then exports to each sink
  and stores its cursor.  Jobs may overlap, an export may fail after writing part of the batch, and a
  job may be dropped anywhere, so a stored cursor can be lost.
 */
module AnnotationExport {

  type Work = nat
  type SinkId = nat
  type JobId = nat

  /** `content` is what the sink holds now; `seen` is history: the versions some successful export
      delivered. */
  datatype Sink = Sink(enabled: bool, cursor: nat, content: map<Work, nat>, seen: set<(Work, nat)>)

  datatype Stage =
    | Counting
    | Reading(hw: nat)
    | Built(high: nat, books: map<Work, nat>)

  /** `tasks` are the cursors taken at the start, `results` the cursors still to be stored, and `base`
      is history: the last sequence number given out before the job began. */
  datatype Job = Job(tasks: map<SinkId, nat>, from: nat, stage: Stage, results: map<SinkId, nat>, base: nat)

  datatype State = State(counter: nat, works: map<Work, nat>, sinks: map<SinkId, Sink>, jobs: map<JobId, Job>)

  const INITIAL := State(0, map[], map[], map[])

  datatype Label =
    | Write(w: Work)
    | AddSink(k: SinkId)
    | SetEnabled(k: SinkId, enabled: bool)
    | Init(j: JobId, tasks: map<SinkId, nat>, from: nat)
    | ReadCounter(j: JobId)
    | ReadWorks(j: JobId)
    | UserMissing(j: JobId)
    | Export(j: JobId, k: SinkId, ok: bool, wrote: set<Work>)
    | Store(j: JobId, k: SinkId)
    | Drop(j: JobId)

  // ---------------------------------------------------------------------------------------------
  // The pieces of a job
  // ---------------------------------------------------------------------------------------------

  /** The rows the job loads: the enabled sinks with their stored cursors. */
  ghost predicate Loaded(sinks: map<SinkId, Sink>, tasks: map<SinkId, nat>) {
    && (forall k :: k in tasks <==> k in sinks && sinks[k].enabled)
    && (forall k :: k in tasks ==> tasks[k] == sinks[k].cursor)
  }

  ghost predicate Smallest(tasks: map<SinkId, nat>, from: nat) {
    (exists k :: k in tasks && tasks[k] == from) && forall k :: k in tasks ==> from <= tasks[k]
  }

  /** The minimum over the loaded cursors, zero when there are none. */
  method MinCursor(cursors: seq<nat>) returns (from: nat)
    ensures cursors == [] ==> from == 0
    ensures cursors != [] ==> from in cursors && forall i :: 0 <= i < |cursors| ==> from <= cursors[i]
  {
    if cursors == [] { return 0; }
    from := cursors[0];
    for i := 1 to |cursors|
      invariant from in cursors && forall n :: 0 <= n < i ==> from <= cursors[n]
    {
      if cursors[i] < from { from := cursors[i]; }
    }
  }

  /** The works changed above `from`, at their versions now. */
  ghost function Changed(works: map<Work, nat>, from: nat): (books: map<Work, nat>)
    ensures forall w :: w in books <==> w in works && works[w] > from
    ensures forall w :: w in books ==> books[w] == works[w]
  {
    ChangedOf(works, from, works.Keys)
  }

  ghost function ChangedOf(works: map<Work, nat>, from: nat, keys: set<Work>): (books: map<Work, nat>)
    requires keys <= works.Keys
    ensures forall w :: w in books <==> w in keys && works[w] > from
    ensures forall w :: w in books ==> books[w] == works[w]
  {
    if keys == {} then map[]
    else
      var w :| w in keys;
      var rest := ChangedOf(works, from, keys - {w});
      if works[w] > from then rest[w := works[w]] else rest
  }

  /** The sink's content after the works `wrote` of the batch have reached it. */
  ghost function Overlay(content: map<Work, nat>, books: map<Work, nat>, wrote: set<Work>): (r: map<Work, nat>)
    requires wrote <= books.Keys
    ensures forall w :: w in r <==> w in content || w in wrote
    ensures forall w :: w in r ==> r[w] == if w in wrote then books[w] else content[w]
  {
    if wrote == {} then content
    else
      var w :| w in wrote;
      Overlay(content, books, wrote - {w})[w := books[w]]
  }

  function Pairs(books: map<Work, nat>): set<(Work, nat)> { set w | w in books :: (w, books[w]) }

  // ---------------------------------------------------------------------------------------------
  // Steps
  // ---------------------------------------------------------------------------------------------

  ghost function Step(s: State, l: Label): State {
    match l
    case Write(w) => s.(counter := s.counter + 1, works := s.works[w := s.counter + 1])
    case AddSink(k) => if k in s.sinks then s else s.(sinks := s.sinks[k := Sink(true, 0, map[], {})])
    case SetEnabled(k, enabled) => if k in s.sinks then s.(sinks := s.sinks[k := s.sinks[k].(enabled := enabled)]) else s
    case Init(j, tasks, from) => DoInit(s, j, tasks, from)
    case ReadCounter(j) => DoCount(s, j)
    case ReadWorks(j) => DoRead(s, j)
    case UserMissing(j) => DoMissing(s, j)
    case Export(j, k, ok, wrote) => DoExport(s, j, k, ok, wrote)
    case Store(j, k) => DoStore(s, j, k)
    case Drop(j) => s.(jobs := s.jobs - {j})
  }

  ghost function Exec(s: State, run: seq<Label>): State
    decreases |run|
  {
    if run == [] then s else Exec(Step(s, run[0]), run[1..])
  }

  ghost function DoInit(s: State, j: JobId, tasks: map<SinkId, nat>, from: nat): State {
    if j !in s.jobs && Loaded(s.sinks, tasks) && Smallest(tasks, from)
    then s.(jobs := s.jobs[j := Job(tasks, from, Counting, map[], s.counter)])
    else s
  }

  function DoCount(s: State, j: JobId): State {
    if j in s.jobs && s.jobs[j].stage.Counting? then s.(jobs := s.jobs[j := s.jobs[j].(stage := Reading(s.counter))]) else s
  }

  ghost function DoRead(s: State, j: JobId): State {
    if j in s.jobs && s.jobs[j].stage.Reading?
    then s.(jobs := s.jobs[j := s.jobs[j].(stage := Built(s.jobs[j].stage.hw, Changed(s.works, s.jobs[j].from)))])
    else s
  }

  /** A user that can no longer be loaded gives an empty batch with high-water mark zero. */
  function DoMissing(s: State, j: JobId): State {
    if j in s.jobs && s.jobs[j].stage.Counting? then s.(jobs := s.jobs[j := s.jobs[j].(stage := Built(0, map[]))]) else s
  }

  predicate CanExport(s: State, j: JobId, k: SinkId, ok: bool, wrote: set<Work>) {
    && j in s.jobs && s.jobs[j].stage.Built? && k in s.jobs[j].tasks && k !in s.jobs[j].results && k in s.sinks
    && wrote <= s.jobs[j].stage.books.Keys
    && (ok ==> wrote == s.jobs[j].stage.books.Keys)
    && (!s.sinks[k].enabled ==> !ok && wrote == {})
  }

  /** A successful export is to store the batch's high-water mark, a failed one the cursor it began with. */
  ghost function DoExport(s: State, j: JobId, k: SinkId, ok: bool, wrote: set<Work>): State {
    if !CanExport(s, j, k, ok, wrote) then s
    else
      var job, sink := s.jobs[j], s.sinks[k];
      s.(sinks := s.sinks[k := sink.(content := Overlay(sink.content, job.stage.books, wrote),
                                     seen := if ok then sink.seen + Pairs(job.stage.books) else sink.seen)],
         jobs := s.jobs[j := job.(results := job.results[k := if ok then job.stage.high else job.tasks[k]])])
  }

  function DoStore(s: State, j: JobId, k: SinkId): State {
    if j in s.jobs && k in s.jobs[j].results && k in s.sinks
    then s.(sinks := s.sinks[k := s.sinks[k].(cursor := s.jobs[j].results[k])],
            jobs := s.jobs[j := s.jobs[j].(tasks := s.jobs[j].tasks - {k}, results := s.jobs[j].results - {k})])
    else s
  }

  // ---------------------------------------------------------------------------------------------
  // Nothing at or below a cursor was missed
  // ---------------------------------------------------------------------------------------------

  /** Some successful export delivered the present version of every work at or below `c`. */
  ghost predicate Delivered(works: map<Work, nat>, seen: set<(Work, nat)>, c: nat) {
    forall w :: w in works && works[w] <= c ==> (w, works[w]) in seen
  }

  /** The batch holds the present version of every work between its two ends. */
  ghost predicate Covers(works: map<Work, nat>, from: nat, stage: Stage) {
    stage.Built? ==> forall w :: w in works && from < works[w] <= stage.high ==> w in stage.books && stage.books[w] == works[w]
  }

  function High(stage: Stage): nat {
    match stage
    case Counting => 0
    case Reading(hw) => hw
    case Built(hw, _) => hw
  }

  ghost predicate JobOk(job: Job, counter: nat, works: map<Work, nat>, sinks: map<SinkId, Sink>) {
    && High(job.stage) <= counter
    && Covers(works, job.from, job.stage)
    && (forall k :: k in job.tasks ==>
          k in sinks && job.from <= job.tasks[k] <= counter && Delivered(works, sinks[k].seen, job.tasks[k]))
    && (forall k :: k in job.results ==>
          k in sinks && job.results[k] <= counter && Delivered(works, sinks[k].seen, job.results[k]))
  }

  ghost predicate Inv(s: State) {
    && (forall w :: w in s.works ==> 0 < s.works[w] <= s.counter)
    && (forall k :: k in s.sinks ==> s.sinks[k].cursor <= s.counter && Delivered(s.works, s.sinks[k].seen, s.sinks[k].cursor))
    && (forall j :: j in s.jobs ==> JobOk(s.jobs[j], s.counter, s.works, s.sinks))
  }

  lemma WriteKeeps(s: State, w: Work)
    requires Inv(s)
    ensures Inv(Step(s, Write(w)))
  {
    hide JobOk;
    var s' := Step(s, Write(w));
    forall j | j in s'.jobs ensures JobOk(s'.jobs[j], s'.counter, s'.works, s'.sinks) {
      JobWrite(s.jobs[j], s.counter, s.works, s.sinks, w);
    }
  }

  lemma JobWrite(job: Job, counter: nat, works: map<Work, nat>, sinks: map<SinkId, Sink>, w: Work)
    requires JobOk(job, counter, works, sinks)
    ensures JobOk(job, counter + 1, works[w := counter + 1], sinks)
  {
  }

  lemma JobSink(job: Job, counter: nat, works: map<Work, nat>, sinks: map<SinkId, Sink>, k: SinkId, sink: Sink)
    requires JobOk(job, counter, works, sinks) && (k in sinks ==> sinks[k].seen <= sink.seen)
    ensures JobOk(job, counter, works, sinks[k := sink])
  {
    hide Covers;
  }

  /** A sink changes in a way that forgets nothing it has seen. */
  lemma SinkKeeps(s: State, k: SinkId, sink: Sink)
    requires Inv(s) && sink.cursor <= s.counter && Delivered(s.works, sink.seen, sink.cursor)
    requires k in s.sinks ==> s.sinks[k].seen <= sink.seen
    ensures Inv(s.(sinks := s.sinks[k := sink]))
  {
    hide JobOk, Delivered;
    forall j | j in s.jobs ensures JobOk(s.jobs[j], s.counter, s.works, s.sinks[k := sink]) {
      JobSink(s.jobs[j], s.counter, s.works, s.sinks, k, sink);
    }
  }

  lemma InvAt(s: State, j: JobId, k: SinkId)
    requires Inv(s)
    ensures j in s.jobs ==> JobOk(s.jobs[j], s.counter, s.works, s.sinks)
    ensures k in s.sinks ==> s.sinks[k].cursor <= s.counter && Delivered(s.works, s.sinks[k].seen, s.sinks[k].cursor)
  {
  }

  lemma JobKeeps(s: State, j: JobId, job: Job)
    requires Inv(s) && JobOk(job, s.counter, s.works, s.sinks)
    ensures Inv(s.(jobs := s.jobs[j := job]))
  {
  }

  /** The whole of a batch, exported to a sink that was complete up to the batch's start, makes the
      sink complete up to the batch's high-water mark. */
  lemma ExportDelivers(works: map<Work, nat>, seen: set<(Work, nat)>, job: Job, c: nat)
    requires job.stage.Built? && Covers(works, job.from, job.stage) && job.from <= c && Delivered(works, seen, c)
    ensures Delivered(works, seen + Pairs(job.stage.books), job.stage.high)
  {
    var books := job.stage.books;
    forall w | w in works && works[w] <= job.stage.high ensures (w, works[w]) in seen + Pairs(books) {
      if works[w] > job.from { assert (w, books[w]) in Pairs(books); }
    }
  }

  lemma SeenMore(works: map<Work, nat>, seen: set<(Work, nat)>, seen': set<(Work, nat)>, c: nat)
    requires Delivered(works, seen, c) && seen <= seen'
    ensures Delivered(works, seen', c)
  {
  }

  /** The job after its export to `k`. */
  lemma JobExported(job: Job, counter: nat, works: map<Work, nat>, sinks: map<SinkId, Sink>, k: SinkId, n: nat)
    requires JobOk(job, counter, works, sinks) && k in sinks && n <= counter && Delivered(works, sinks[k].seen, n)
    ensures JobOk(job.(results := job.results[k := n]), counter, works, sinks)
  {
    hide Delivered, Covers;
  }

  lemma ExportKeeps(s: State, j: JobId, k: SinkId, ok: bool, wrote: set<Work>)
    requires Inv(s)
    ensures Inv(DoExport(s, j, k, ok, wrote))
  {
    hide Inv, Delivered, Covers;
    if CanExport(s, j, k, ok, wrote) {
      var job, sink := s.jobs[j], s.sinks[k];
      var sink' := DoExport(s, j, k, ok, wrote).sinks[k];
      var n := if ok then job.stage.high else job.tasks[k];
      InvAt(s, j, k);
      SeenMore(s.works, sink.seen, sink'.seen, sink.cursor);
      SeenMore(s.works, sink.seen, sink'.seen, job.tasks[k]);
      if ok { ExportDelivers(s.works, sink.seen, job, job.tasks[k]); }
      SinkKeeps(s, k, sink');
      JobSink(job, s.counter, s.works, s.sinks, k, sink');
      JobExported(job, s.counter, s.works, s.sinks[k := sink'], k, n);
      JobKeeps(s.(sinks := s.sinks[k := sink']), j, job.(results := job.results[k := n]));
    }
  }

  /** The job after storing the cursor of `k`. */
  lemma JobStored(job: Job, counter: nat, works: map<Work, nat>, sinks: map<SinkId, Sink>, k: SinkId)
    requires JobOk(job, counter, works, sinks)
    ensures JobOk(job.(tasks := job.tasks - {k}, results := job.results - {k}), counter, works, sinks)
  {
    hide Delivered, Covers;
  }

  lemma StoreKeeps(s: State, j: JobId, k: SinkId)
    requires Inv(s)
    ensures Inv(DoStore(s, j, k))
  {
    hide Inv, Delivered, Covers;
    if j in s.jobs && k in s.jobs[j].results && k in s.sinks {
      var job := s.jobs[j];
      var sink' := s.sinks[k].(cursor := job.results[k]);
      InvAt(s, j, k);
      SinkKeeps(s, k, sink');
      JobSink(job, s.counter, s.works, s.sinks, k, sink');
      JobStored(job, s.counter, s.works, s.sinks[k := sink'], k);
      JobKeeps(s.(sinks := s.sinks[k := sink']), j, job.(tasks := job.tasks - {k}, results := job.results - {k}));
    }
  }

  lemma BuildKeeps(s: State, j: JobId)
    requires Inv(s)
    ensures Inv(DoCount(s, j)) && Inv(DoRead(s, j)) && Inv(DoMissing(s, j))
  {
    hide Delivered;
    if j in s.jobs {
      assert JobOk(s.jobs[j], s.counter, s.works, s.sinks);
      if s.jobs[j].stage.Counting? {
        JobKeeps(s, j, s.jobs[j].(stage := Reading(s.counter)));
        JobKeeps(s, j, s.jobs[j].(stage := Built(0, map[])));
      }
      if s.jobs[j].stage.Reading? {
        JobKeeps(s, j, s.jobs[j].(stage := Built(s.jobs[j].stage.hw, Changed(s.works, s.jobs[j].from))));
      }
    }
  }

  lemma NothingYet(s: State)
    requires Inv(s)
    ensures Delivered(s.works, {}, 0)
  {
  }

  lemma StepKeeps(s: State, l: Label)
    requires Inv(s)
    ensures Inv(Step(s, l))
  {
    hide DoCount, DoRead, DoMissing, DoExport, DoStore, Delivered;
    match l
    case Write(w) => WriteKeeps(s, w);
    case AddSink(k) => if k !in s.sinks { NothingYet(s); SinkKeeps(s, k, Sink(true, 0, map[], {})); }
    case SetEnabled(k, enabled) => if k in s.sinks { SinkKeeps(s, k, s.sinks[k].(enabled := enabled)); }
    case Init(j, tasks, from) =>
    case ReadCounter(j) => BuildKeeps(s, j);
    case ReadWorks(j) => BuildKeeps(s, j);
    case UserMissing(j) => BuildKeeps(s, j);
    case Export(j, k, ok, wrote) => ExportKeeps(s, j, k, ok, wrote);
    case Store(j, k) => StoreKeeps(s, j, k);
    case Drop(j) =>
  }

  lemma {:induction false} RunKeeps(s: State, run: seq<Label>)
    requires Inv(s)
    ensures Inv(Exec(s, run))
    decreases |run|
  {
    hide Inv, Step;
    if run != [] {
      StepKeeps(s, run[0]);
      RunKeeps(Step(s, run[0]), run[1..]);
    }
  }

  /** Whatever jobs overlap, fail or are dropped: a work whose version is at or below a sink's stored
      cursor has been delivered to that sink in that version. */
  lemma NothingMissed(run: seq<Label>, k: SinkId, w: Work)
    requires var s := Exec(INITIAL, run); k in s.sinks && w in s.works && s.works[w] <= s.sinks[k].cursor
    ensures var s := Exec(INITIAL, run); (w, s.works[w]) in s.sinks[k].seen
  {
    RunKeeps(INITIAL, run);
  }

  // ---------------------------------------------------------------------------------------------
  // What the sink holds
  // ---------------------------------------------------------------------------------------------

  /** The sink holds the present version of every work at or below `c`. */
  ghost predicate Current(works: map<Work, nat>, content: map<Work, nat>, c: nat) {
    forall w :: w in works && works[w] <= c ==> w in content && content[w] == works[w]
  }

  /** An export leaves a sink current up to `c` exactly when none of the works it writes there is at or
      below `c` and has a newer version than the batch. */
  lemma OverlayCurrent(works: map<Work, nat>, content: map<Work, nat>, books: map<Work, nat>, wrote: set<Work>, c: nat)
    requires wrote <= books.Keys && Current(works, content, c)
    ensures Current(works, Overlay(content, books, wrote), c)
       <==> forall w :: w in wrote && w in works && works[w] <= c ==> books[w] == works[w]
  {
    var after := Overlay(content, books, wrote);
    assert forall w :: w in wrote ==> w in after && after[w] == books[w];
  }

  /** The batch of a job is no older than the job, as far as versions from before the job go. */
  ghost predicate JobFresh(job: Job, counter: nat, works: map<Work, nat>, sinks: map<SinkId, Sink>) {
    && job.base <= counter
    && (job.stage.Reading? ==> job.base <= job.stage.hw)
    && (job.stage.Built? ==> forall w :: w in job.stage.books ==>
          w in works && job.from < job.stage.books[w] <= works[w] && (works[w] == job.stage.books[w] || job.base < works[w]))
    && (forall k :: k in job.tasks && k in sinks ==> Current(works, sinks[k].content, job.tasks[k]))
    && (forall k :: k in job.tasks && k in sinks ==> sinks[k].cursor == job.tasks[k] <= job.base)
    && (forall k :: k in job.results && k in sinks ==> k in job.tasks && Current(works, sinks[k].content, job.results[k]))
  }

  ghost predicate SerialInv(s: State) {
    && Inv(s)
    && (forall i, j :: i in s.jobs && j in s.jobs ==> i == j)
    && (forall k :: k in s.sinks ==> Current(s.works, s.sinks[k].content, s.sinks[k].cursor))
    && (forall j :: j in s.jobs ==> JobFresh(s.jobs[j], s.counter, s.works, s.sinks))
  }

  /** No job starts while another is under way. */
  ghost predicate SerialRun(s: State, run: seq<Label>)
    decreases |run|
  {
    run == [] || ((run[0].Init? ==> s.jobs == map[]) && SerialRun(Step(s, run[0]), run[1..]))
  }

  lemma SerialExport(s: State, j: JobId, k: SinkId, ok: bool, wrote: set<Work>)
    requires SerialInv(s) && CanExport(s, j, k, ok, wrote)
    ensures SerialInv(DoExport(s, j, k, ok, wrote))
  {
    hide Inv, Delivered, JobOk;
    ExportKeeps(s, j, k, ok, wrote);
    var job, sink, s' := s.jobs[j], s.sinks[k], DoExport(s, j, k, ok, wrote);
    assert JobFresh(job, s.counter, s.works, s.sinks);
    OverlayCurrent(s.works, sink.content, job.stage.books, wrote, job.tasks[k]);
    if ok { ExportCurrent(s, j, k); }
    assert JobFresh(s'.jobs[j], s'.counter, s'.works, s'.sinks);
  }

  /** A whole batch makes a sink current up to the high-water mark. */
  lemma ExportCurrent(s: State, j: JobId, k: SinkId)
    requires SerialInv(s) && j in s.jobs && s.jobs[j].stage.Built? && k in s.jobs[j].tasks && k in s.sinks
    ensures var books := s.jobs[j].stage.books;
            Current(s.works, Overlay(s.sinks[k].content, books, books.Keys), s.jobs[j].stage.high)
  {
    var job := s.jobs[j];
    assert JobOk(job, s.counter, s.works, s.sinks) && JobFresh(job, s.counter, s.works, s.sinks);
  }

  lemma SerialStore(s: State, j: JobId, k: SinkId)
    requires SerialInv(s)
    ensures SerialInv(DoStore(s, j, k))
  {
    hide Inv, Current;
    StoreKeeps(s, j, k);
    if j in s.jobs && k in s.jobs[j].results && k in s.sinks {
      assert JobFresh(s.jobs[j], s.counter, s.works, s.sinks);
      var s' := DoStore(s, j, k);
      assert JobFresh(s'.jobs[j], s'.counter, s'.works, s'.sinks);
    }
  }

  lemma FreshWrite(job: Job, counter: nat, works: map<Work, nat>, sinks: map<SinkId, Sink>, w: Work)
    requires JobFresh(job, counter, works, sinks) && JobOk(job, counter, works, sinks)
    requires w in works ==> works[w] <= counter
    ensures JobFresh(job, counter + 1, works[w := counter + 1], sinks)
  {
    hide Covers, Delivered;
  }

  lemma SerialWrite(s: State, w: Work)
    requires SerialInv(s)
    ensures SerialInv(Step(s, Write(w)))
  {
    hide JobFresh, JobOk, Delivered;
    WriteKeeps(s, w);
    var s' := Step(s, Write(w));
    forall j | j in s'.jobs ensures JobFresh(s'.jobs[j], s'.counter, s'.works, s'.sinks) {
      FreshWrite(s.jobs[j], s.counter, s.works, s.sinks, w);
    }
  }

  lemma SerialBuild(s: State, j: JobId)
    requires SerialInv(s)
    ensures SerialInv(DoCount(s, j)) && SerialInv(DoRead(s, j)) && SerialInv(DoMissing(s, j))
  {
    hide Inv, Current;
    BuildKeeps(s, j);
    if j in s.jobs { assert JobFresh(s.jobs[j], s.counter, s.works, s.sinks); }
  }

  lemma FreshSink(job: Job, counter: nat, works: map<Work, nat>, sinks: map<SinkId, Sink>, k: SinkId, sink: Sink)
    requires JobFresh(job, counter, works, sinks)
    requires if k in sinks then sink.content == sinks[k].content && sink.cursor == sinks[k].cursor else k !in job.tasks && k !in job.results
    ensures JobFresh(job, counter, works, sinks[k := sink])
  {
    hide Current;
  }

  lemma SerialSink(s: State, k: SinkId, sink: Sink)
    requires SerialInv(s) && Inv(s.(sinks := s.sinks[k := sink]))
    requires if k in s.sinks then sink.content == s.sinks[k].content && sink.cursor == s.sinks[k].cursor else sink.cursor == 0
    ensures SerialInv(s.(sinks := s.sinks[k := sink]))
  {
    hide JobFresh, Delivered, Covers;
    forall j | j in s.jobs ensures JobFresh(s.jobs[j], s.counter, s.works, s.sinks[k := sink]) {
      assert JobOk(s.jobs[j], s.counter, s.works, s.sinks);
      FreshSink(s.jobs[j], s.counter, s.works, s.sinks, k, sink);
    }
  }

  lemma SerialSinks(s: State, l: Label)
    requires SerialInv(s) && (l.AddSink? || l.SetEnabled? || l.Drop?)
    ensures SerialInv(Step(s, l))
  {
    StepKeeps(s, l);
    hide Inv, JobFresh, Current;
    match l
    case AddSink(k) => if k !in s.sinks { SerialSink(s, k, Sink(true, 0, map[], {})); }
    case SetEnabled(k, enabled) => if k in s.sinks { SerialSink(s, k, s.sinks[k].(enabled := enabled)); }
    case Drop(j) =>
  }

  lemma SerialInit(s: State, j: JobId, tasks: map<SinkId, nat>, from: nat)
    requires SerialInv(s) && s.jobs == map[]
    ensures SerialInv(DoInit(s, j, tasks, from))
  {
    StepKeeps(s, Init(j, tasks, from));
  }

  lemma SerialStep(s: State, l: Label)
    requires SerialInv(s) && (l.Init? ==> s.jobs == map[])
    ensures SerialInv(Step(s, l))
  {
    hide SerialInv, DoInit, DoCount, DoRead, DoMissing, DoExport, DoStore;
    match l
    case Write(w) => SerialWrite(s, w);
    case Init(j, tasks, from) => SerialInit(s, j, tasks, from);
    case ReadCounter(j) => SerialBuild(s, j);
    case ReadWorks(j) => SerialBuild(s, j);
    case UserMissing(j) => SerialBuild(s, j);
    case Export(j, k, ok, wrote) => SerialExports(s, j, k, ok, wrote);
    case Store(j, k) => SerialStore(s, j, k);
    case _ => SerialSinks(s, l);
  }

  lemma SerialExports(s: State, j: JobId, k: SinkId, ok: bool, wrote: set<Work>)
    requires SerialInv(s)
    ensures SerialInv(DoExport(s, j, k, ok, wrote))
  {
    hide SerialInv;
    if CanExport(s, j, k, ok, wrote) { SerialExport(s, j, k, ok, wrote); }
  }

  lemma {:induction false} SerialKeeps(s: State, run: seq<Label>)
    requires SerialInv(s) && SerialRun(s, run)
    ensures SerialInv(Exec(s, run))
    decreases |run|
  {
    hide SerialInv, Step;
    if run != [] {
      SerialStep(s, run[0]);
      SerialKeeps(Step(s, run[0]), run[1..]);
    }
  }

  /** While the jobs of a user do not overlap, every sink at every moment holds the present version of
      every work at or below its stored cursor, whichever exports failed half-way and whichever
      cursors were never stored. */
  lemma HoldsCurrent(run: seq<Label>, k: SinkId, w: Work)
    requires SerialRun(INITIAL, run)
    requires var s := Exec(INITIAL, run); k in s.sinks && w in s.works && s.works[w] <= s.sinks[k].cursor
    ensures var s := Exec(INITIAL, run); w in s.sinks[k].content && s.sinks[k].content[w] == s.works[w]
  {
    SerialKeeps(INITIAL, run);
  }

  // ---------------------------------------------------------------------------------------------
  // Progress
  // ---------------------------------------------------------------------------------------------

  /** The steps of a job that runs undisturbed, up to the cursor of sink `k`. */
  ghost function Undisturbed(s: State, j: JobId, tasks: map<SinkId, nat>, from: nat, k: SinkId, ok: bool, wrote: set<Work>): State {
    DoStore(DoExport(DoRead(DoCount(DoInit(s, j, tasks, from), j), j), j, k, ok, wrote), j, k)
  }

  lemma BuiltAlone(s: State, j: JobId, tasks: map<SinkId, nat>, from: nat)
    requires SerialInv(s) && s.jobs == map[] && Loaded(s.sinks, tasks) && Smallest(tasks, from)
    ensures var t := DoRead(DoCount(DoInit(s, j, tasks, from), j), j);
            && SerialInv(t) && t.sinks == s.sinks && t.works == s.works && t.counter == s.counter && j in t.jobs
            && t.jobs[j] == Job(tasks, from, Built(s.counter, Changed(s.works, from)), map[], s.counter)
  {
    hide SerialInv, Loaded, Smallest;
    SerialInit(s, j, tasks, from);
    SerialBuild(DoInit(s, j, tasks, from), j);
    SerialBuild(DoCount(DoInit(s, j, tasks, from), j), j);
  }

  /** A job that succeeds undisturbed brings the sink level with the user: its cursor is the last number
      given out and it holds the present version of every work. */
  lemma CatchesUp(s: State, j: JobId, tasks: map<SinkId, nat>, from: nat, k: SinkId)
    requires SerialInv(s) && s.jobs == map[] && Loaded(s.sinks, tasks) && Smallest(tasks, from) && k in tasks
    ensures var t := Undisturbed(s, j, tasks, from, k, true, Changed(s.works, from).Keys);
            && k in t.sinks && t.sinks[k].cursor == s.counter == t.counter && t.works == s.works
            && forall w :: w in s.works ==> w in t.sinks[k].content && t.sinks[k].content[w] == s.works[w]
  {
    hide Loaded, Smallest;
    BuiltAlone(s, j, tasks, from);
    var built := DoRead(DoCount(DoInit(s, j, tasks, from), j), j);
    var wrote := Changed(s.works, from).Keys;
    assert k in s.sinks && s.sinks[k].enabled by { LoadedAt(s.sinks, tasks, k); }
    ExportCurrent(built, j, k);
    Leveled(built, j, k, wrote);
  }

  lemma LoadedAt(sinks: map<SinkId, Sink>, tasks: map<SinkId, nat>, k: SinkId)
    requires Loaded(sinks, tasks) && k in tasks
    ensures k in sinks && sinks[k].enabled && tasks[k] == sinks[k].cursor
  {
  }

  lemma Leveled(s: State, j: JobId, k: SinkId, wrote: set<Work>)
    requires Inv(s) && CanExport(s, j, k, true, wrote) && s.jobs[j].stage.high == s.counter
    requires Current(s.works, Overlay(s.sinks[k].content, s.jobs[j].stage.books, s.jobs[j].stage.books.Keys), s.counter)
    ensures var t := DoStore(DoExport(s, j, k, true, wrote), j, k);
            && k in t.sinks && t.sinks[k].cursor == s.counter == t.counter && t.works == s.works
            && forall w :: w in s.works ==> w in t.sinks[k].content && t.sinks[k].content[w] == s.works[w]
  {
    hide Overlay, JobOk, Delivered;
  }

  // ---------------------------------------------------------------------------------------------
  // Overlap
  // ---------------------------------------------------------------------------------------------

  lemma {:induction false} ExecSnoc(s: State, run: seq<Label>, l: Label)
    ensures Exec(s, run + [l]) == Step(Exec(s, run), l)
    decreases |run|
  {
    hide Step;
    if run == [] {
      assert ([] + [l])[1..] == [];
      assert Exec(Step(s, l), []) == Step(s, l);
    } else {
      assert (run + [l])[1..] == run[1..] + [l];
      ExecSnoc(Step(s, run[0]), run[1..], l);
    }
  }

  /** A job of one sink with cursor zero, its batch built when work 0 was the only one. */
  function Batched(version: nat): Job {
    Job(map[0 := 0], 0, Built(version, map[0 := version]), map[], version)
  }

  lemma BuildOne(s: State, run: seq<Label>, j: JobId) returns (run': seq<Label>)
    requires s == Exec(INITIAL, run) && 0 < s.counter && s.works == map[0 := s.counter]
    requires s.sinks == map[0 := Sink(true, 0, map[], {})] && j !in s.jobs
    ensures Exec(INITIAL, run') == s.(jobs := s.jobs[j := Batched(s.counter)])
  {
    hide Exec;
    var tasks: map<SinkId, nat> := map[0 := 0];
    var l1, l2, l3 := Init(j, tasks, 0), ReadCounter(j), ReadWorks(j);
    ExecSnoc(INITIAL, run, l1);
    ExecSnoc(INITIAL, run + [l1], l2);
    ExecSnoc(INITIAL, run + [l1] + [l2], l3);
    run' := run + [l1] + [l2] + [l3];
    assert tasks[0] == 0 && Loaded(s.sinks, tasks) && Smallest(tasks, 0);
    var s1 := Step(s, l1);
    assert s1.jobs[j] == Job(tasks, 0, Counting, map[], s.counter);
    var s2 := Step(s1, l2);
    assert s2.jobs[j].stage == Reading(s.counter);
    assert Changed(s.works, 0) == map[0 := s.counter];
    assert Step(s2, l3).jobs == s.jobs[j := Batched(s.counter)];
  }

  /** Overlapping jobs can leave an old version behind a newer cursor: two jobs batch a work before and
      after a change, the newer batch is exported first, and the newer cursor is stored last. */
  lemma OverlapKeepsOldVersion() returns (run: seq<Label>)
    ensures var s := Exec(INITIAL, run);
            && 0 in s.sinks && 0 in s.works && 0 in s.sinks[0].content
            && s.works[0] <= s.sinks[0].cursor && s.sinks[0].content[0] < s.works[0]
  {
    hide Exec, Overlay, Pairs;
    var sinks: map<SinkId, Sink> := map[0 := Sink(true, 0, map[], {})];
    assert Exec(INITIAL, []) == INITIAL by { Done(INITIAL); }
    ExecSnoc(INITIAL, [], AddSink(0));
    ExecSnoc(INITIAL, [] + [AddSink(0)], Write(0));
    run := [] + [AddSink(0)] + [Write(0)];
    var s2 := State(1, map[0 := 1], sinks, map[]);
    assert Exec(INITIAL, run) == s2;
    run := BuildOne(s2, run, 1);
    ExecSnoc(INITIAL, run, Write(0));
    run := run + [Write(0)];
    var s3 := State(2, map[0 := 2], sinks, map[1 := Batched(1)]);
    assert Exec(INITIAL, run) == s3;
    run := BuildOne(s3, run, 2);
    run := CrossedExports(run);
  }

  lemma Done(s: State)
    ensures Exec(s, []) == s
  {
  }

  lemma CrossedExports(run: seq<Label>) returns (run': seq<Label>)
    requires Exec(INITIAL, run) == State(2, map[0 := 2], map[0 := Sink(true, 0, map[], {})], map[1 := Batched(1), 2 := Batched(2)])
    ensures var s := Exec(INITIAL, run');
            && 0 in s.sinks && 0 in s.works && 0 in s.sinks[0].content
            && s.works[0] <= s.sinks[0].cursor && s.sinks[0].content[0] < s.works[0]
  {
    hide Exec;
    var l1, l2, l3, l4 := Export(2, 0, true, {0}), Export(1, 0, true, {0}), Store(1, 0), Store(2, 0);
    ExecSnoc(INITIAL, run, l1);
    ExecSnoc(INITIAL, run + [l1], l2);
    ExecSnoc(INITIAL, run + [l1] + [l2], l3);
    ExecSnoc(INITIAL, run + [l1] + [l2] + [l3], l4);
    run' := run + [l1] + [l2] + [l3] + [l4];
    var s := Exec(INITIAL, run);
    var s1 := Step(s, l1);
    assert s1.jobs[1] == s.jobs[1] && s1.jobs[2].results == map[0 := 2];
    var s2 := Step(s1, l2);
    assert s2.sinks[0].content[0] == 1 && s2.jobs[1].results == map[0 := 1];
    var s3 := Step(s2, l3);
    assert s3.sinks[0].content[0] == 1 && s3.jobs[2].results == map[0 := 2];
  }
}
