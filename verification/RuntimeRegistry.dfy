/** The registry as the object the server holds: maps updated in place, and the worklist loop. */
module RuntimeRegistry {
  import opened Common
  import opened Runtime

  class ComponentRuntime {
    var definitions: Definitions
    var states: map<Key, RuntimeState>
    var loaded: set<Key>
    var initialized: bool
    var rows: map<Key, bool>

    ghost function View(): Registry
      reads this
    {
      Registry(definitions, states, loaded, initialized, rows)
    }

    constructor (builtin: Definitions, persisted: map<Key, bool>)
      ensures View() == Started(builtin, persisted)
      ensures loaded == {} && !initialized && states.Keys == builtin.Keys
      ensures forall k :: k in builtin ==>
                states[k] == RuntimeState(builtin[k].defaultEnabled, builtin[k].compiled && builtin[k].defaultEnabled)
    {
      var defaults := Defaults(builtin);
      definitions := builtin;
      states := defaults;
      loaded := {};
      initialized := false;
      rows := persisted;
    }

    /** Every dependency is loaded or has no definition at all. */
    predicate DependenciesKnown(k: Key)
      requires k in definitions
      reads this
    {
      forall i :: 0 <= i < |definitions[k].dependencies| ==>
        definitions[k].dependencies[i] in loaded || definitions[k].dependencies[i] !in definitions
    }

    /** What the loop has established, against the state `s` it started from and the final answer `on`. */
    ghost predicate Progress(s: Registry, on: set<Key>)
      reads this
    {
      && definitions == s.definitions && rows == s.rows && initialized == s.initialized
      && s.loaded <= loaded <= s.loaded + Pending(s)
      && StatesSoFar(s, on)
    }

    ghost predicate StatesSoFar(s: Registry, on: set<Key>)
      reads this
    {
      && s.loaded <= loaded <= s.loaded + Pending(s)
      && Updated(states, s.states, loaded - s.loaded, Wishes(s.definitions, s.rows), on)
    }

    /** A key is loaded with its answer. */
    method Load(ghost s: Registry, ghost on: set<Key>, k: Key, answer: bool)
      requires Progress(s, on) && k in Pending(s) && k !in loaded && (answer <==> k in on)
      modifies `states, `loaded
      ensures Progress(s, on) && loaded == old(loaded) + {k}
    {
      states := states[k := RuntimeState(Desired(rows, k, definitions[k]), answer)];
      loaded := loaded + {k};
    }

    /** `on` is the least closed set over what was effective before. */
    ghost predicate Answers(s: Registry, on: set<Key>) {
      on == Least(s.definitions, s.rows, EffectiveSet(s), Pending(s)) && s.loaded <= s.definitions.Keys
    }

    /** A key whose dependencies are known gets its final answer from the states as they are now. */
    lemma KnownAnswer(s: Registry, on: set<Key>, k: Key)
      requires Progress(s, on) && Answers(s, on) && k in Pending(s) && k !in loaded && DependenciesKnown(k)
      ensures Enabled(definitions, rows, k, OnKeys(states)) <==> k in on
    {
      LeastMember(s.definitions, s.rows, EffectiveSet(s), Pending(s), k);
      LeastFixed(s.definitions, s.rows, EffectiveSet(s), Pending(s));
      assert forall d :: d in s.loaded ==> (d in on <==> d in EffectiveSet(s));
      hide Least;
      forall i | 0 <= i < |definitions[k].dependencies| && definitions[k].dependencies[i] in definitions
        ensures definitions[k].dependencies[i] in OnKeys(states) <==> definitions[k].dependencies[i] in on
      {
        assert definitions[k].dependencies[i] in loaded;
      }
      SameAnswer(definitions, rows, k, OnKeys(states), on);
    }

    /** The keys still to load are exactly those listed, once each. */
    ghost predicate Lists(s: Registry, keys: seq<Key>)
      reads this
    {
      && (forall i :: 0 <= i < |keys| ==> keys[i] in Pending(s) && keys[i] !in loaded)
      && (forall k :: k in Pending(s) && k !in loaded ==> k in keys)
      && Distinct(keys)
    }

    /** One turn of the inner loop: load the key if its dependencies are known. */
    method Visit(ghost s: Registry, ghost on: set<Key>, k: Key) returns (known: bool)
      requires Progress(s, on) && Answers(s, on) && k in Pending(s) && k !in loaded
      modifies `states, `loaded
      ensures Progress(s, on) && known == old(DependenciesKnown(k))
      ensures loaded == if known then old(loaded) + {k} else old(loaded)
    {
      hide Least, StatesSoFar, Enabled;
      known := DependenciesKnown(k);
      if known {
        KnownAnswer(s, on, k);
        Load(s, on, k, Enabled(definitions, rows, k, OnKeys(states)));
      }
    }

    /** One pass over the pending keys: load those whose dependencies are known, defer the others. */
    method Pass(ghost s: Registry, ghost on: set<Key>, pending: seq<Key>) returns (deferred: seq<Key>, progressed: bool)
      requires Progress(s, on) && Answers(s, on) && Lists(s, pending)
      modifies `states, `loaded
      ensures Progress(s, on) && Lists(s, deferred)
      ensures progressed ==> |deferred| < |pending|
      ensures !progressed ==> forall k :: k in deferred ==> k in definitions && !DependenciesKnown(k)
    {
      hide Answers, StatesSoFar;
      deferred, progressed := [], false;
      ghost var todo := Pending(s);
      var i := 0;
      while i < |pending|
        invariant 0 <= i <= |pending| && |deferred| <= i && (progressed ==> |deferred| < i)
        invariant Progress(s, on)
        invariant forall j :: i <= j < |pending| ==> pending[j] !in loaded
        invariant forall k :: k in deferred ==> k in todo && k !in loaded && k in pending[..i]
        invariant forall k :: k in todo && k !in loaded ==> k in deferred || k in pending[i..]
        invariant Distinct(deferred)
        invariant !progressed ==> forall k :: k in deferred ==> k in definitions && !DependenciesKnown(k)
      {
        var known := Visit(s, on, pending[i]);
        if known {
          progressed := true;
        } else {
          deferred := deferred + [pending[i]];
        }
        i := i + 1;
      }
    }

    /** The fallback when a pass loads nothing: every deferred key waits for a deferred key, so none
        of them can ever be on. */
    method GiveUp(ghost s: Registry, ghost on: set<Key>, deferred: seq<Key>)
      requires Progress(s, on) && Answers(s, on) && Lists(s, deferred)
      requires forall k :: k in deferred ==> k in definitions && !DependenciesKnown(k)
      modifies `states, `loaded
      ensures Progress(s, on) && loaded == s.loaded + Pending(s)
    {
      hide Least, StatesSoFar;
      ghost var todo := Pending(s);
      AllStuck(s, on, deferred);
      var i := 0;
      while i < |deferred|
        invariant 0 <= i <= |deferred|
        invariant Progress(s, on)
        invariant forall k :: k in todo && k !in loaded ==> k in deferred[i..]
        invariant forall j :: i <= j < |deferred| ==> deferred[j] !in loaded
      {
        Load(s, on, deferred[i], false);
        i := i + 1;
      }
    }

    lemma AllStuck(s: Registry, on: set<Key>, deferred: seq<Key>)
      requires Progress(s, on) && Answers(s, on) && Lists(s, deferred)
      requires forall k :: k in deferred ==> k in definitions && !DependenciesKnown(k)
      ensures forall k :: k in deferred ==> k !in on
    {
      var stuck := set k | k in deferred;
      forall k | k in stuck ensures exists d :: d in s.definitions[k].dependencies && d in stuck {
        var i :| 0 <= i < |definitions[k].dependencies|
                 && definitions[k].dependencies[i] !in loaded && definitions[k].dependencies[i] in definitions;
        assert definitions[k].dependencies[i] in stuck;
      }
      StuckStayOff(s.definitions, s.rows, EffectiveSet(s), Pending(s), stuck);
    }

    /** The worklist: passes until nothing is pending or a pass makes no progress. */
    method LoadAll(ghost s: Registry, ghost on: set<Key>)
      requires s == View() && Answers(s, on)
      modifies `states, `loaded
      ensures loaded == s.loaded + Pending(s)
      ensures Updated(states, s.states, Pending(s), Wishes(s.definitions, s.rows), on)
    {
      hide Least;
      var pending := Listed(definitions.Keys - loaded);
      while pending != []
        invariant Progress(s, on) && Lists(s, pending)
        decreases |pending|
      {
        var deferred, progressed := Pass(s, on, pending);
        if !progressed {
          GiveUp(s, on, deferred);
          return;
        }
        pending := deferred;
      }
    }

    /** `initialize`.  `writable` row writes succeed before the database fails.  The registry ends in
        the least-fixed-point state whatever order the keys were visited in, also when some of them
        depend on each other in a circle or on keys that do not exist. */
    method Initialize(writable: nat) returns (ok: bool, ghost saved: set<Key>)
      requires loaded <= definitions.Keys
      modifies this
      ensures View() == Initialized(old(View()), saved)
      ensures saved <= old(Pending(View())) && (ok <==> saved == old(Pending(View())))
      ensures writable >= |old(Pending(View()))| ==> ok
    {
      hide Least, LoadedWith, Wishes;
      ghost var s := View();
      ghost var on := Least(s.definitions, s.rows, EffectiveSet(s), Pending(s));
      var todo := definitions.Keys - loaded;
      LoadAll(s, on);
      ok, saved := SaveRows(todo, writable);
      if ok {
        initialized := true;
      }
      Assemble(s, on, saved, states, rows);
    }

    /** One row write per newly loaded key, up to the first that fails. */
    method SaveRows(todo: set<Key>, writable: nat) returns (ok: bool, ghost saved: set<Key>)
      requires todo <= states.Keys
      modifies `rows
      ensures saved <= todo && (ok <==> saved == todo) && (writable >= |todo| ==> ok)
      ensures SavedRows(rows, old(rows), saved, states)
    {
      hide SavedRows;
      NothingSaved(rows, states);
      saved := {};
      var left, written := todo, 0;
      while left != {} && written < writable
        invariant left <= todo && saved == todo - left && written == |todo| - |left|
        invariant SavedRows(rows, old(rows), saved, states)
        decreases left
      {
        var k :| k in left;
        OneSaved(rows, old(rows), saved, states, k);
        rows := rows[k := states[k].desired];
        left := left - {k};
        saved := saved + {k};
        written := written + 1;
      }
      ok := left == {};
    }

    /** `register`: publish the definitions, then load what is not loaded. */
    method Register(more: Definitions, writable: nat) returns (ok: bool, ghost saved: set<Key>)
      requires loaded <= definitions.Keys
      modifies this
      ensures View() == Initialized(Published(old(View()), more), saved)
      ensures ok <==> saved == Pending(Published(old(View()), more))
    {
      hide Initialized;
      definitions := definitions + more;
      var defaults := Defaults(more);
      states := defaults + states;
      ok, saved := Initialize(writable);
    }

    /** `set_enabled`.  On success the component, and no other, has the new wish; its effective flag
        follows only when it is HOT. */
    method SetEnabled(k: Key, enabled: bool, writable: nat, saves: bool) returns (outcome: Outcome, ghost savedInit: set<Key>)
      requires loaded <= definitions.Keys
      modifies this
      ensures View() == AfterSetEnabled(old(View()), k, enabled, savedInit, saves)
      ensures outcome.Done? ==> k in rows && rows[k] == enabled && k in states && states[k].desired == enabled
      ensures outcome.Done? ==> k in definitions && (definitions[k].mode.Hot? ==> states[k].effective == enabled)
      ensures outcome.RequiredBy? ==> !enabled && Requires(View(), outcome.dependent, k)
    {
      hide Least;
      savedInit := {};
      if !initialized {
        var ok;
        ok, savedInit := Initialize(writable);
        if !ok {
          return NotSaved, savedInit;
        }
      }
      outcome := Toggle(k, enabled, saves);
    }

    method Toggle(k: Key, enabled: bool, saves: bool) returns (outcome: Outcome)
      modifies `states, `rows
      ensures View() == if old(Accepts(View(), k, enabled)) then Toggled(old(View()), k, enabled, saves) else old(View())
      ensures outcome.Done? || outcome.NotSaved? <==> old(Accepts(View(), k, enabled))
      ensures outcome.Done? ==> saves
      ensures outcome.Done? || outcome.NotSaved? ==>
                && k in old(states) && states.Keys == old(states).Keys
                && states[k] == RuntimeState(enabled, if definitions[k].mode.Hot? then enabled else old(states)[k].effective)
                && forall x :: x in states && x != k ==> states[x] == old(states)[x]
      ensures outcome.UnknownComponent? ==> k !in definitions || k !in states
      ensures outcome.RequiredBy? ==> !enabled && Requires(View(), outcome.dependent, k)
      ensures outcome.DependenciesUnavailable? ==> enabled && k in definitions && !Ready(definitions, k, OnKeys(states))
      ensures outcome.NotCompiled? ==> enabled && k in definitions && !definitions[k].compiled
    {
      if k !in definitions || k !in states {
        return UnknownComponent;
      }
      if enabled && !definitions[k].compiled {
        return NotCompiled;
      }
      if enabled && !Ready(definitions, k, OnKeys(states)) {
        return DependenciesUnavailable;
      }
      if !enabled {
        var blockers := set c | c in definitions && k in definitions[c].dependencies && c in states && states[c].effective;
        if blockers != {} {
          var c :| c in blockers;
          assert Requires(View(), c, k);
          return RequiredBy(c);
        }
        assert forall c :: c in definitions && Requires(View(), c, k) ==> c in blockers;
      }
      states := states[k := RuntimeState(enabled, if definitions[k].mode.Hot? then enabled else states[k].effective)];
      if saves {
        rows := rows[k := enabled];
        return Done;
      }
      return NotSaved;
    }
  }

  /** `now` is `was` with the states of `keys` as the two sets say. */
  ghost predicate Updated(now: map<Key, RuntimeState>, was: map<Key, RuntimeState>, keys: set<Key>, desired: set<Key>, on: set<Key>) {
    && now.Keys == was.Keys + keys
    && (forall k :: k in now ==> now[k] == if k in keys then RuntimeState(k in desired, k in on) else was[k])
  }

  /** A state for each definition, none of them loaded. */
  method Defaults(defs: Definitions) returns (states: map<Key, RuntimeState>)
    ensures states == FreshStates(defs)
  {
    states := map[];
    var left := defs.Keys;
    while left != {}
      invariant left <= defs.Keys && states.Keys == defs.Keys - left
      invariant forall k :: k in defs && k in states ==> states[k] == Fresh(defs[k])
      decreases left
    {
      var k :| k in left;
      states := states[k := Fresh(defs[k])];
      left := left - {k};
    }
  }

  /** The keys of a set in some order. */
  method Listed(keys: set<Key>) returns (list: seq<Key>)
    ensures forall k :: k in list <==> k in keys
    ensures Distinct(list)
  {
    list := [];
    var left := keys;
    while left != {}
      invariant left <= keys
      invariant forall k :: k in list <==> k in keys - left
      invariant Distinct(list)
      decreases left
    {
      var k :| k in left;
      DistinctSnoc(list, k);
      list := list + [k];
      left := left - {k};
    }
  }

  /** `now` is `was` with the desired flags of `saved` written over it. */
  ghost predicate SavedRows(now: map<Key, bool>, was: map<Key, bool>, saved: set<Key>, states: map<Key, RuntimeState>) {
    && saved <= states.Keys
    && now.Keys == was.Keys + saved
    && (forall k :: k in now ==> now[k] == if k in saved then states[k].desired else was[k])
  }

  lemma NothingSaved(rows: map<Key, bool>, states: map<Key, RuntimeState>)
    ensures SavedRows(rows, rows, {}, states)
  {
  }

  lemma OneSaved(now: map<Key, bool>, was: map<Key, bool>, saved: set<Key>, states: map<Key, RuntimeState>, k: Key)
    requires SavedRows(now, was, saved, states) && k in states
    ensures SavedRows(now[k := states[k].desired], was, saved + {k}, states)
  {
  }

  /** Saving the loaded wishes row by row writes what `LoadedWith` says. */
  lemma Assemble(s: Registry, on: set<Key>, saved: set<Key>, states: map<Key, RuntimeState>, rows: map<Key, bool>)
    requires saved <= Pending(s)
    requires Updated(states, s.states, Pending(s), Wishes(s.definitions, s.rows), on)
    requires SavedRows(rows, s.rows, saved, states)
    ensures LoadedWith(s, on, saved)
         == Registry(s.definitions, states, s.loaded + Pending(s), s.initialized || saved == Pending(s), rows)
  {
    assert Pending(s) * saved == saved;
  }
}
