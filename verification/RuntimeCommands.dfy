/** What commands and restarts do to one component, over whole runs. */
module RuntimeCommands {
  import opened Common
  import opened Runtime
  import opened RuntimeTheorems

  /** A registry in which every definition has a state. */
  ghost predicate Shaped(s: Registry) {
    s.states.Keys == s.definitions.Keys && s.loaded <= s.definitions.Keys && (s.initialized ==> s.loaded == s.definitions.Keys)
  }

  /** The registry a command meets: it is initialized first if need be. */
  ghost function Met(s: Registry, savedInit: set<Key>): Registry { if s.initialized then s else Initialized(s, savedInit) }

  /** The command goes through: the component is known and, to be enabled, compiled with every dependency
      defined, compiled and effective, or, to be disabled, needed by nobody effective. */
  ghost predicate GoesThrough(t: Registry, k: Key, enabled: bool) {
    && t.initialized && k in t.definitions
    && (if enabled
        then t.definitions[k].compiled
             && forall d :: d in t.definitions[k].dependencies ==>
                  d in t.definitions && t.definitions[d].compiled && d in t.states && t.states[d].effective
        else forall x :: x in t.definitions && k in t.definitions[x].dependencies ==> x !in t.states || !t.states[x].effective)
  }

  lemma AcceptsIs(t: Registry, k: Key, enabled: bool)
    requires t.states.Keys == t.definitions.Keys && t.initialized
    ensures Accepts(t, k, enabled) <==> GoesThrough(t, k, enabled)
  {
    hide Ready;
    if k in t.definitions {
      ReadyIs(t.definitions, k, OnKeys(t.states));
      assert forall x :: x in t.definitions ==> (Requires(t, x, k) <==> k in t.definitions[x].dependencies && t.states[x].effective);
    }
  }

  /** A command that goes through gives its component, and no other, the new wish; a HOT component follows at
      once and a RESTART component keeps its effective flag.  A command that is refused changes nothing. */
  lemma CommandExactly(s: Registry, k: Key, enabled: bool, savedInit: set<Key>, saves: bool)
    requires Shaped(s)
    ensures var t := Met(s, savedInit); var u := AfterSetEnabled(s, k, enabled, savedInit, saves);
            && Shaped(t) && Shaped(u)
            && u.definitions == t.definitions && u.loaded == t.loaded && u.initialized == t.initialized
            && (!GoesThrough(t, k, enabled) ==> u == t)
            && (GoesThrough(t, k, enabled) ==>
                  && u.states[k].desired == enabled
                  && u.states[k].effective == (if t.definitions[k].mode.Hot? then enabled else t.states[k].effective)
                  && (forall x :: x in t.states && x != k ==> u.states[x] == t.states[x])
                  && (saves ==> k in u.rows && u.rows[k] == enabled)
                  && (!saves ==> u.rows == t.rows)
                  && (forall x :: x != k ==> (x in u.rows <==> x in t.rows) && (x in t.rows ==> u.rows[x] == t.rows[x])))
  {
    hide Least, Accepts, GoesThrough;
    MetShaped(s, savedInit);
    var t := Met(s, savedInit);
    if t.initialized {
      AcceptsIs(t, k, enabled);
      AcceptsKnown(t, k, enabled);
    } else {
      NotMet(t, k, enabled);
    }
  }

  lemma NotMet(t: Registry, k: Key, enabled: bool)
    requires !t.initialized
    ensures !GoesThrough(t, k, enabled)
  {
  }

  lemma AcceptsKnown(t: Registry, k: Key, enabled: bool)
    ensures Accepts(t, k, enabled) ==> k in t.definitions && k in t.states
  {
  }

  lemma MetShaped(s: Registry, savedInit: set<Key>)
    requires Shaped(s)
    ensures var t := Met(s, savedInit);
            && Shaped(t) && t.definitions == s.definitions
            && (forall k :: k in s.loaded ==> k in t.loaded && t.states[k] == s.states[k])
  {
    hide Initialized;
    if !s.initialized { LoadAnswers(s, savedInit); }
  }

  // ---------------------------------------------------------------------------------------------
  // One component over a run of one process
  // ---------------------------------------------------------------------------------------------

  /** The step is a command on `k` that goes through. */
  ghost predicate Commands(s: Registry, l: Label, k: Key) {
    l.Set? && l.k == k && GoesThrough(Met(s, l.savedInit), k, l.enabled)
  }

  /** What the last command on `k` that went through asked for. */
  ghost function LastCommand(s: Registry, run: seq<Label>, k: Key): Option<bool>
    decreases |run|
  {
    if run == [] then None
    else
      var later := LastCommand(Step(s, run[0]), run[1..], k);
      if later.Some? then later else if Commands(s, run[0], k) then Some(run[0].enabled) else None
  }

  /** The process does not restart and nobody redefines `k`. */
  predicate Lasting(run: seq<Label>, k: Key) {
    forall i :: 0 <= i < |run| ==> !run[i].Start? && (run[i].Register? ==> k !in run[i].more)
  }

  /** The state `k` must have after commands: the last one rules the wish, and of a HOT component the effect. */
  function Obeyed(d: Definition, before: RuntimeState, last: Option<bool>): RuntimeState {
    match last
    case None => before
    case Some(v) => RuntimeState(v, if d.mode.Hot? then v else before.effective)
  }

  ghost predicate Known(s: Registry, k: Key) { Shaped(s) && k in s.loaded }

  lemma StepObeys(s: Registry, l: Label, k: Key)
    requires Known(s, k) && !l.Start? && (l.Register? ==> k !in l.more)
    ensures var s' := Step(s, l);
            && Known(s', k) && s'.definitions[k] == s.definitions[k]
            && s'.states[k] == Obeyed(s.definitions[k], s.states[k], if Commands(s, l, k) then Some(l.enabled) else None)
  {
    hide Initialized, AfterSetEnabled, GoesThrough, Published;
    match l
    case Register(more, saved) =>
      PublishedAt(s, more);
      LoadAnswers(Published(s, more), saved);
    case Load(saved) => LoadAnswers(s, saved);
    case Set(x, enabled, savedInit, saves) =>
      MetShaped(s, savedInit);
      CommandExactly(s, x, enabled, savedInit, saves);
  }

  /** Publishing: new definitions count, but a key that has a state keeps it; a new key starts from its
      default. */
  lemma PublishedAt(s: Registry, more: Definitions)
    requires Shaped(s)
    ensures var p := Published(s, more);
            && p.states.Keys == p.definitions.Keys && p.loaded == s.loaded && p.loaded <= p.definitions.Keys && p.rows == s.rows
            && (forall k :: k in p.definitions <==> k in s.definitions || k in more)
            && (forall k :: k in p.definitions ==> p.definitions[k] == if k in more then more[k] else s.definitions[k])
            && (forall k :: k in s.states ==> p.states[k] == s.states[k])
            && (forall k :: k in more && k !in s.states ==>
                  p.states[k] == RuntimeState(more[k].defaultEnabled, more[k].compiled && more[k].defaultEnabled))
  {
  }

  /** Over every run of one process: a loaded component wants what the last command that went through asked
      for; a HOT component is effective exactly when it does; a RESTART component's effective flag never
      moves; and without such a command nothing changes.  So a HOT component that was switched off stays off
      until a later command switches it on or the process restarts. */
  lemma {:induction false} CommandsObeyed(s: Registry, run: seq<Label>, k: Key)
    requires Known(s, k) && Lasting(run, k)
    ensures var s' := Exec(s, run);
            && Known(s', k) && s'.definitions[k] == s.definitions[k]
            && (LastCommand(s, run, k).None? ==> s'.states[k] == s.states[k])
            && (LastCommand(s, run, k).Some? ==>
                  && s'.states[k].desired == LastCommand(s, run, k).value
                  && s'.states[k].effective ==
                       if s.definitions[k].mode.Hot? then LastCommand(s, run, k).value else s.states[k].effective)
    decreases |run|
  {
    hide Step, Known, Commands;
    if run != [] {
      assert !run[0].Start? && (run[0].Register? ==> k !in run[0].more);
      StepObeys(s, run[0], k);
      CommandsObeyed(Step(s, run[0]), run[1..], k);
    }
  }

  // ---------------------------------------------------------------------------------------------
  // Rows over restarts
  // ---------------------------------------------------------------------------------------------

  /** The step is a command on `k` that goes through and is saved. */
  ghost predicate SavesWish(s: Registry, l: Label, k: Key) { Commands(s, l, k) && l.saves }

  ghost function LastSaved(s: Registry, run: seq<Label>, k: Key): Option<bool>
    decreases |run|
  {
    if run == [] then None
    else
      var later := LastSaved(Step(s, run[0]), run[1..], k);
      if later.Some? then later else if SavesWish(s, run[0], k) then Some(run[0].enabled) else None
  }

  lemma StepShaped(s: Registry, l: Label)
    requires Shaped(s)
    ensures Shaped(Step(s, l))
  {
    hide Initialized, AfterSetEnabled, Published;
    match l
    case Start(defs) =>
    case Register(more, saved) =>
      PublishedAt(s, more);
      LoadAnswers(Published(s, more), saved);
    case Load(saved) => LoadAnswers(s, saved);
    case Set(x, enabled, savedInit, saves) => CommandExactly(s, x, enabled, savedInit, saves);
  }

  /** A row changes only by a saved command; loads and restarts write only rows that were missing. */
  lemma StepRow(s: Registry, l: Label, k: Key)
    requires Shaped(s)
    ensures var s' := Step(s, l);
            && (SavesWish(s, l, k) ==> k in s'.rows && s'.rows[k] == l.enabled)
            && (!SavesWish(s, l, k) && k in s.rows ==> k in s'.rows && s'.rows[k] == s.rows[k])
  {
    hide Initialized, AfterSetEnabled, GoesThrough, Published;
    match l
    case Start(defs) =>
    case Register(more, saved) =>
      PublishedAt(s, more);
      LoadRows(Published(s, more), saved, k);
    case Load(saved) => LoadRows(s, saved, k);
    case Set(x, enabled, savedInit, saves) =>
      LoadRows(s, savedInit, k);
      CommandExactly(s, x, enabled, savedInit, saves);
  }

  lemma {:induction false} RowFollows(s: Registry, run: seq<Label>, k: Key)
    requires Shaped(s)
    ensures var rows := Exec(s, run).rows;
            && (LastSaved(s, run, k).Some? ==> k in rows && rows[k] == LastSaved(s, run, k).value)
            && (LastSaved(s, run, k).None? && k in s.rows ==> k in rows && rows[k] == s.rows[k])
    decreases |run|
  {
    hide Step, Shaped, SavesWish;
    if run != [] {
      StepShaped(s, run[0]);
      StepRow(s, run[0], k);
      RowFollows(Step(s, run[0]), run[1..], k);
    }
  }

  /** After any run, restarts included, a restarted server wants of a component what the last saved command
      asked for, else what its old row says, whatever its default is now; and a component that has no row
      follows its default. */
  lemma RestartFollows(s: Registry, run: seq<Label>, defs: Definitions, saved: set<Key>, k: Key)
    requires Shaped(s) && k in defs
    ensures var rows := Exec(s, run).rows; var t := Exec(s, run + [Start(defs), Load(saved)]);
            && k in t.states
            && (LastSaved(s, run, k).Some? ==> t.states[k].desired == LastSaved(s, run, k).value)
            && (LastSaved(s, run, k).None? && k in s.rows ==> t.states[k].desired == s.rows[k])
            && (k !in rows ==> t.states[k].desired == defs[k].defaultEnabled)
  {
    hide Step, Initialized, LastSaved;
    RowFollows(s, run, k);
    ExecTwo(s, run, Start(defs), Load(saved));
    RestartIs(Exec(s, run), defs, saved);
    FirstLoad(defs, Exec(s, run).rows, saved);
  }

  lemma RestartIs(s: Registry, defs: Definitions, saved: set<Key>)
    ensures Step(Step(s, Start(defs)), Load(saved)) == Initialized(Started(defs, s.rows), saved)
  {
    hide Initialized;
  }

  lemma {:induction false} ExecTwo(s: Registry, run: seq<Label>, a: Label, b: Label)
    ensures Exec(s, run + [a, b]) == Step(Step(Exec(s, run), a), b)
    decreases |run|
  {
    hide Step;
    if run == [] {
      assert [] + [a, b] == [a, b] && [a, b][1..] == [b] && [b][1..] == [];
      assert Exec(Step(Step(s, a), b), []) == Step(Step(s, a), b);
      assert Exec(Step(s, a), [b]) == Step(Step(s, a), b);
    } else {
      assert (run + [a, b])[1..] == run[1..] + [a, b];
      ExecTwo(Step(s, run[0]), run[1..], a, b);
    }
  }
}
