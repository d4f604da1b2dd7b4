/** What a sink holds, told from the run alone: which export wrote a work last, and when its batch was read. */
module AnnotationHistory {

  import opened AnnotationExport

  /** The state after the first `i` labels. */
  ghost function After(run: seq<Label>, i: nat): State
    requires i <= |run|
  {
    Exec(INITIAL, run[..i])
  }

  lemma AfterNext(run: seq<Label>, i: nat)
    requires i < |run|
    ensures After(run, i + 1) == Step(After(run, i), run[i])
  {
    assert run[..i + 1] == run[..i] + [run[i]];
    ExecSnoc(INITIAL, run[..i], run[i]);
  }

  lemma AfterNothing(run: seq<Label>)
    ensures After(run, 0) == INITIAL
  {
  }

  lemma AfterAll(run: seq<Label>)
    ensures After(run, |run|) == Exec(INITIAL, run)
  {
    assert run[..|run|] == run;
  }

  lemma AfterInv(run: seq<Label>, i: nat)
    requires i <= |run|
    ensures Inv(After(run, i))
  {
    RunKeeps(INITIAL, run[..i]);
  }

  /** Step `i` is an export that writes `w` to sink `k`. */
  ghost predicate WroteAt(run: seq<Label>, k: SinkId, w: Work, i: nat) {
    && i < |run| && run[i].Export? && run[i].k == k && w in run[i].wrote
    && CanExport(After(run, i), run[i].j, k, run[i].ok, run[i].wrote)
  }

  /** Step `i` is the last of the first `n` to write `w` to sink `k`. */
  ghost predicate LastWrote(run: seq<Label>, k: SinkId, w: Work, i: nat, n: nat) {
    i < n && WroteAt(run, k, w, i) && forall m: nat :: i < m < n ==> !WroteAt(run, k, w, m)
  }

  ghost predicate IsBuilt(s: State, j: JobId) { j in s.jobs && s.jobs[j].stage.Built? }

  /** Job `j` read at step `b` the batch it still has after `i` steps. */
  ghost predicate ReadAt(run: seq<Label>, j: JobId, b: nat, i: nat) {
    && b < i <= |run| && run[b] == ReadWorks(j)
    && j in After(run, b).jobs && After(run, b).jobs[j].stage.Reading?
    && forall m: nat :: b < m <= i ==> IsBuilt(After(run, m), j)
  }

  ghost predicate ChangedSince(run: seq<Label>, w: Work, b: nat, n: nat) {
    exists m: nat :: b <= m < n && m < |run| && run[m] == Write(w)
  }

  // ---------------------------------------------------------------------------------------------
  // Where a batch comes from
  // ---------------------------------------------------------------------------------------------

  lemma StageStep(s: State, l: Label, j: JobId)
    requires IsBuilt(Step(s, l), j)
    ensures || (IsBuilt(s, j) && Step(s, l).jobs[j].stage == s.jobs[j].stage)
            || (l == ReadWorks(j) && j in s.jobs && s.jobs[j].stage.Reading?
                && Step(s, l).jobs[j].stage.books == Changed(s.works, s.jobs[j].from))
            || Step(s, l).jobs[j].stage.books == map[]
  {
    hide Changed, Overlay, Loaded, Smallest;
  }

  /** A batch holds the versions of the moment it was read. */
  lemma {:induction false} BatchRead(run: seq<Label>, j: JobId, i: nat, w: Work) returns (b: nat)
    requires i <= |run| && IsBuilt(After(run, i), j) && w in After(run, i).jobs[j].stage.books
    ensures ReadAt(run, j, b, i) && w in After(run, b).works && After(run, i).jobs[j].stage.books[w] == After(run, b).works[w]
    decreases i
  {
    hide After, Step;
    AfterNothing(run);
    AfterNext(run, i - 1);
    var s, l := After(run, i - 1), run[i - 1];
    StageStep(s, l, j);
    if IsBuilt(s, j) && After(run, i).jobs[j].stage == s.jobs[j].stage {
      b := BatchRead(run, j, i - 1, w);
    } else {
      b := i - 1;
    }
  }

  lemma OneRead(run: seq<Label>, j: JobId, i: nat, a: nat, b: nat)
    requires ReadAt(run, j, a, i) && ReadAt(run, j, b, i)
    ensures a == b
  {
    hide After;
    assert !IsBuilt(After(run, a), j) && !IsBuilt(After(run, b), j);
  }

  // ---------------------------------------------------------------------------------------------
  // Where the content comes from
  // ---------------------------------------------------------------------------------------------

  ghost predicate Holds(s: State, k: SinkId, w: Work) { k in s.sinks && w in s.sinks[k].content }

  ghost predicate Writes(s: State, l: Label, k: SinkId, w: Work) {
    l.Export? && l.k == k && w in l.wrote && CanExport(s, l.j, k, l.ok, l.wrote)
  }

  lemma ContentStep(s: State, l: Label, k: SinkId, w: Work)
    ensures Holds(Step(s, l), k, w) <==> Holds(s, k, w) || Writes(s, l, k, w)
    ensures Holds(Step(s, l), k, w) ==>
              Step(s, l).sinks[k].content[w] == if Writes(s, l, k, w) then s.jobs[l.j].stage.books[w] else s.sinks[k].content[w]
  {
    hide Changed, Loaded, Smallest;
  }

  /** A sink holds a work exactly if some export wrote it, in the version of the last one's batch. */
  lemma {:induction false} ContentFrom(run: seq<Label>, k: SinkId, w: Work, n: nat) returns (i: nat)
    requires n <= |run|
    ensures Holds(After(run, n), k, w) ==>
              LastWrote(run, k, w, i, n) && After(run, n).sinks[k].content[w] == After(run, i).jobs[run[i].j].stage.books[w]
    ensures !Holds(After(run, n), k, w) ==> forall m: nat :: m < n ==> !WroteAt(run, k, w, m)
    decreases n
  {
    hide After, Step, CanExport;
    i := 0;
    if n == 0 {
      AfterNothing(run);
    } else {
      i := ContentFrom(run, k, w, n - 1);
      AfterNext(run, n - 1);
      ContentStep(After(run, n - 1), run[n - 1], k, w);
      assert WroteAt(run, k, w, n - 1) <==> Writes(After(run, n - 1), run[n - 1], k, w);
      if WroteAt(run, k, w, n - 1) { i := n - 1; }
    }
  }

  // ---------------------------------------------------------------------------------------------
  // Versions over time
  // ---------------------------------------------------------------------------------------------

  lemma VersionStep(s: State, l: Label, w: Work)
    ensures w in s.works ==> w in Step(s, l).works
    ensures w in s.works && l != Write(w) ==> Step(s, l).works[w] == s.works[w]
    ensures l == Write(w) ==> w in Step(s, l).works && Step(s, l).works[w] == s.counter + 1
    ensures s.counter <= Step(s, l).counter
  {
    hide Changed, Overlay, Loaded, Smallest;
  }

  /** A version stays exactly as long as the work is not written. */
  lemma {:induction false} VersionMoves(run: seq<Label>, w: Work, b: nat, n: nat)
    requires b <= n <= |run| && w in After(run, b).works
    ensures w in After(run, n).works && After(run, b).works[w] <= After(run, n).works[w]
    ensures After(run, n).works[w] == After(run, b).works[w] <==> !ChangedSince(run, w, b, n)
    decreases n
  {
    hide After, Step;
    if n > b {
      VersionMoves(run, w, b, n - 1);
      AfterNext(run, n - 1);
      VersionStep(After(run, n - 1), run[n - 1], w);
      AfterInv(run, n - 1);
      if ChangedSince(run, w, b, n - 1) {
        var m: nat :| b <= m < n - 1 && run[m] == Write(w);
        assert b <= m < n && run[m] == Write(w);
      }
      if run[n - 1] == Write(w) {
        assert ChangedSince(run, w, b, n);
      }
    }
  }

  // ---------------------------------------------------------------------------------------------
  // The exact condition
  // ---------------------------------------------------------------------------------------------

  /** The last export that wrote the work to the sink took it from a batch read after the work's last
      change. */
  ghost predicate FreshlyExported(run: seq<Label>, k: SinkId, w: Work) {
    exists i: nat, b: nat :: FreshlyExportedAt(run, k, w, i, b)
  }

  ghost predicate FreshlyExportedAt(run: seq<Label>, k: SinkId, w: Work, i: nat, b: nat) {
    LastWrote(run, k, w, i, |run|) && ReadAt(run, run[i].j, b, i) && !ChangedSince(run, w, b, |run|)
  }

  /** However jobs overlap and fail, a sink holds the present version of a work exactly when the last export
      that wrote the work there came from a batch read after the work's last change. */
  lemma HeldExactly(run: seq<Label>, k: SinkId, w: Work)
    requires var s := Exec(INITIAL, run); k in s.sinks && w in s.works
    ensures var s := Exec(INITIAL, run);
            (w in s.sinks[k].content && s.sinks[k].content[w] == s.works[w]) <==> FreshlyExported(run, k, w)
  {
    hide After, Exec, CanExport;
    AfterAll(run);
    var i := ContentFrom(run, k, w, |run|);
    if Holds(After(run, |run|), k, w) {
      WroteBatch(run, k, w, i);
      var j := run[i].j;
      var b := BatchRead(run, j, i, w);
      VersionMoves(run, w, b, |run|);
      if !ChangedSince(run, w, b, |run|) { assert FreshlyExportedAt(run, k, w, i, b); }
      forall i': nat, b': nat | FreshlyExportedAt(run, k, w, i', b') ensures i' == i && b' == b {
        assert WroteAt(run, k, w, i) && WroteAt(run, k, w, i');
        OneRead(run, j, i, b, b');
      }
    }
  }

  lemma WroteBatch(run: seq<Label>, k: SinkId, w: Work, i: nat)
    requires WroteAt(run, k, w, i)
    ensures IsBuilt(After(run, i), run[i].j) && w in After(run, i).jobs[run[i].j].stage.books
  {
    hide After;
  }

  // ---------------------------------------------------------------------------------------------
  // Where a stored cursor comes from
  // ---------------------------------------------------------------------------------------------

  ghost predicate Alive(s: State, j: JobId) { j in s.jobs }

  /** Job `j`, alive after `n` steps, began at step `a`. */
  ghost predicate BeganAt(run: seq<Label>, j: JobId, a: nat, n: nat) {
    && a < n <= |run| && run[a].Init? && run[a].j == j && !Alive(After(run, a), j)
    && forall m: nat :: a < m <= n ==> Alive(After(run, m), j)
  }

  lemma JobStep(s: State, l: Label, j: JobId)
    requires Alive(Step(s, l), j)
    ensures if Alive(s, j) then forall k :: k in Step(s, l).jobs[j].tasks ==>
                                  k in s.jobs[j].tasks && Step(s, l).jobs[j].tasks[k] == s.jobs[j].tasks[k]
            else l.Init? && l.j == j && Loaded(s.sinks, Step(s, l).jobs[j].tasks)
  {
    hide Changed, Overlay, Loaded, Smallest;
  }

  /** The cursors a job works with are those stored when it began. */
  lemma {:induction false} TasksFrom(run: seq<Label>, j: JobId, n: nat) returns (a: nat)
    requires n <= |run| && Alive(After(run, n), j)
    ensures BeganAt(run, j, a, n)
    ensures forall k :: k in After(run, n).jobs[j].tasks ==>
              k in After(run, a).sinks && After(run, n).jobs[j].tasks[k] == After(run, a).sinks[k].cursor
    decreases n
  {
    hide After, Step;
    AfterNothing(run);
    AfterNext(run, n - 1);
    JobStep(After(run, n - 1), run[n - 1], j);
    if Alive(After(run, n - 1), j) {
      a := TasksFrom(run, j, n - 1);
    } else {
      a := n - 1;
    }
  }

  ghost predicate Exports(s: State, l: Label, j: JobId, k: SinkId) {
    l.Export? && l.j == j && l.k == k && CanExport(s, j, k, l.ok, l.wrote)
  }

  lemma ResultStep(s: State, l: Label, j: JobId, k: SinkId)
    requires Alive(Step(s, l), j) && k in Step(s, l).jobs[j].results
    ensures Alive(s, j)
    ensures || (k in s.jobs[j].results && Step(s, l).jobs[j].results[k] == s.jobs[j].results[k])
            || (Exports(s, l, j, k)
                && Step(s, l).jobs[j].results[k] == if l.ok then s.jobs[j].stage.high else s.jobs[j].tasks[k])
  {
    hide Changed, Overlay, Loaded, Smallest;
  }

  lemma {:induction false} ResultFrom(run: seq<Label>, j: JobId, k: SinkId, n: nat) returns (i: nat)
    requires n <= |run| && Alive(After(run, n), j) && k in After(run, n).jobs[j].results
    ensures i < n && Exports(After(run, i), run[i], j, k) && forall m: nat :: i <= m <= n ==> Alive(After(run, m), j)
    ensures After(run, n).jobs[j].results[k]
         == if run[i].ok then After(run, i).jobs[j].stage.high else After(run, i).jobs[j].tasks[k]
    decreases n
  {
    hide After, Step, CanExport;
    AfterNothing(run);
    AfterNext(run, n - 1);
    var s := After(run, n - 1);
    ResultStep(s, run[n - 1], j, k);
    if k in s.jobs[j].results && After(run, n).jobs[j].results[k] == s.jobs[j].results[k] {
      i := ResultFrom(run, j, k, n - 1);
    } else {
      i := n - 1;
    }
  }

  /** What a job stores for a sink, however jobs overlap: the high-water mark of its batch if its export
      there succeeded, and otherwise the cursor the sink had when the job began. */
  lemma StoresExactly(run: seq<Label>, j: JobId, k: SinkId) returns (a: nat, i: nat)
    requires var s := Exec(INITIAL, run); j in s.jobs && k in s.jobs[j].results && k in s.sinks
    ensures BeganAt(run, j, a, |run|) && a < i < |run| && Exports(After(run, i), run[i], j, k) && k in After(run, a).sinks
    ensures Step(Exec(INITIAL, run), Store(j, k)).sinks[k].cursor
         == if run[i].ok then After(run, i).jobs[j].stage.high else After(run, a).sinks[k].cursor
  {
    hide After, Exec, Overlay, Changed;
    AfterAll(run);
    i := ResultFrom(run, j, k, |run|);
    a := TasksFrom(run, j, i);
    var a' := TasksFrom(run, j, |run|);
    assert !Alive(After(run, a), j) && !Alive(After(run, a'), j);
    assert a == a';
  }

  // ---------------------------------------------------------------------------------------------
  // Disabled sinks
  // ---------------------------------------------------------------------------------------------

  lemma DisabledStep(s: State, l: Label, k: SinkId)
    requires k in s.sinks && !s.sinks[k].enabled && l != SetEnabled(k, true)
    ensures var s' := Step(s, l);
            k in s'.sinks && !s'.sinks[k].enabled && s'.sinks[k].content == s.sinks[k].content && s'.sinks[k].seen == s.sinks[k].seen
  {
    hide Changed, Loaded, Smallest;
    if l.Export? && CanExport(s, l.j, l.k, l.ok, l.wrote) && l.k == k {
      assert Overlay(s.sinks[k].content, s.jobs[l.j].stage.books, {}) == s.sinks[k].content;
    }
  }

  lemma {:induction false} StaysUntouched(s: State, run: seq<Label>, k: SinkId)
    requires k in s.sinks && !s.sinks[k].enabled && forall i :: 0 <= i < |run| ==> run[i] != SetEnabled(k, true)
    ensures var u := Exec(s, run);
            k in u.sinks && !u.sinks[k].enabled && u.sinks[k].content == s.sinks[k].content && u.sinks[k].seen == s.sinks[k].seen
    decreases |run|
  {
    hide Step;
    if run != [] {
      DisabledStep(s, run[0], k);
      StaysUntouched(Step(s, run[0]), run[1..], k);
    }
  }

  /** From the moment a sink is disabled until it is enabled again nothing is written to it, not even by a job that
      had already taken it on. */
  lemma DisabledUntouched(s: State, run: seq<Label>, k: SinkId)
    requires k in s.sinks && forall i :: 0 <= i < |run| ==> run[i] != SetEnabled(k, true)
    ensures var u := Exec(Step(s, SetEnabled(k, false)), run);
            k in u.sinks && u.sinks[k].content == s.sinks[k].content && u.sinks[k].seen == s.sinks[k].seen
  {
    hide Exec;
    StaysUntouched(Step(s, SetEnabled(k, false)), run, k);
  }

  /** A job starts exactly with the sinks that are enabled then, each with its stored cursor, and reads from the
      smallest of these cursors; without an enabled sink there is no job. */
  lemma InitExactly(s: State, j: JobId, tasks: map<SinkId, nat>, from: nat)
    ensures var s' := Step(s, Init(j, tasks, from));
            && s'.sinks == s.sinks && s'.works == s.works && s'.counter == s.counter
            && (s' != s ==>
                  && j !in s.jobs && j in s'.jobs && s'.jobs[j].tasks == tasks && s'.jobs[j].from == from && s'.jobs[j].results == map[]
                  && (forall k :: k in tasks <==> k in s.sinks && s.sinks[k].enabled)
                  && (forall k :: k in tasks ==> tasks[k] == s.sinks[k].cursor && from <= tasks[k])
                  && exists k :: k in tasks && tasks[k] == from)
  {
  }
}
