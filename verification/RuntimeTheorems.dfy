/** What holds over every run of the registry, restarts included. */
module RuntimeTheorems {
  import opened Runtime

  datatype Label =
    | Start(definitions: Definitions)
    | Register(more: Definitions, saved: set<Key>)
    | Load(saved: set<Key>)
    | Set(k: Key, enabled: bool, savedInit: set<Key>, saves: bool)

  ghost function Step(s: Registry, l: Label): Registry {
    match l
    case Start(defs) => Started(defs, s.rows)
    case Register(more, saved) => Initialized(Published(s, more), saved)
    case Load(saved) => Initialized(s, saved)
    case Set(k, enabled, savedInit, saves) => AfterSetEnabled(s, k, enabled, savedInit, saves)
  }

  ghost function Exec(s: Registry, run: seq<Label>): Registry
    decreases |run|
  {
    if run == [] then s else Exec(Step(s, run[0]), run[1..])
  }

  // ---------------------------------------------------------------------------------------------
  // Grounded sets
  // ---------------------------------------------------------------------------------------------

  ghost function AllOn(e: set<Key>): map<Key, bool> { Flags(e, e) }

  /** Every member is compiled and rests on members that were there first: no circular support. */
  ghost predicate Grounded(defs: Definitions, e: set<Key>) {
    e <= Least(defs, AllOn(e), {}, e)
  }

  lemma GroundedReady(defs: Definitions, e: set<Key>, k: Key)
    requires Grounded(defs, e) && k in e
    ensures k in defs && defs[k].compiled && Ready(defs, k, e)
  {
    LeastFixed(defs, AllOn(e), {}, e);
    assert Least(defs, AllOn(e), {}, e) == e;
  }

  lemma GroundedIntro(defs: Definitions, e: set<Key>, t: set<Key>, k: Key)
    requires Closed(defs, AllOn(e), {}, e, t) && k in e && k in defs && defs[k].compiled && Ready(defs, k, t)
    ensures k in t
  {
    assert Enabled(defs, AllOn(e), k, t);
    assert k in Grow(defs, AllOn(e), {}, e, t);
  }

  lemma ClosedShrink(defs: Definitions, e: set<Key>, f: set<Key>, t: set<Key>)
    requires e <= f && Closed(defs, AllOn(f), {}, f, t)
    ensures Closed(defs, AllOn(e), {}, e, t)
  {
    forall k | k in Grow(defs, AllOn(e), {}, e, t) ensures k in t {
      GroundedIntro(defs, f, t, k);
    }
  }

  lemma GroundedAdd(defs: Definitions, e: set<Key>, k: Key)
    requires Grounded(defs, e) && k in defs && defs[k].compiled && Ready(defs, k, e)
    ensures Grounded(defs, e + {k})
  {
    var f := e + {k};
    forall t | Closed(defs, AllOn(f), {}, f, t) ensures f <= t {
      ClosedShrink(defs, e, f, t);
      LeastBelow(defs, AllOn(e), {}, e, t);
      GroundedIntro(defs, f, t, k);
    }
  }

  /** What is left after a part nobody else in the set depends on is gone stays grounded. */
  lemma GroundedSubset(defs: Definitions, e: set<Key>, f: set<Key>)
    requires Grounded(defs, e) && f <= e
    requires forall k :: k in f && k in defs ==> Ready(defs, k, f)
    ensures Grounded(defs, f)
  {
    forall t | Closed(defs, AllOn(f), {}, f, t) ensures f <= t {
      var u := t + (e - f);
      forall k | k in Grow(defs, AllOn(e), {}, e, u) ensures k in u {
        if k in f {
          GroundedReady(defs, e, k);
          assert Ready(defs, k, t);
          GroundedIntro(defs, f, t, k);
        }
      }
      LeastBelow(defs, AllOn(e), {}, e, u);
    }
  }

  lemma GroundedRemove(defs: Definitions, e: set<Key>, k: Key)
    requires Grounded(defs, e)
    requires forall x :: x in e && x in defs ==> k !in defs[x].dependencies
    ensures Grounded(defs, e - {k})
  {
    forall x | x in e - {k} && x in defs ensures Ready(defs, x, e - {k}) {
      GroundedReady(defs, e, x);
    }
    GroundedSubset(defs, e, e - {k});
  }

  /** Loading on top of a grounded set keeps it grounded. */
  lemma GroundedLoad(defs: Definitions, rows: map<Key, bool>, e: set<Key>, pending: set<Key>)
    requires Grounded(defs, e)
    ensures Grounded(defs, Least(defs, rows, e, pending))
  {
    var f := Least(defs, rows, e, pending);
    LeastFixed(defs, rows, e, pending);
    forall t | Closed(defs, AllOn(f), {}, f, t) ensures f <= t {
      ClosedShrink(defs, e, f, t);
      LeastBelow(defs, AllOn(e), {}, e, t);
      var u := t * f;
      GrowMonotone(defs, rows, e, pending, u, f);
      forall k | k in Grow(defs, rows, e, pending, u) ensures k in u {
        if k !in e {
          assert Ready(defs, k, t);
          GroundedIntro(defs, f, t, k);
        }
      }
      LeastBelow(defs, rows, e, pending, u);
    }
  }

  /** Definitions of keys outside the set do not matter. */
  lemma GroundedExtend(defs: Definitions, more: Definitions, e: set<Key>)
    requires Grounded(defs, e) && more.Keys !! e
    ensures Grounded(defs + more, e)
  {
    forall t | Closed(defs + more, AllOn(e), {}, e, t) ensures e <= t {
      ClosedRestrict(defs, more, e, t);
      LeastBelow(defs, AllOn(e), {}, e, t * e);
    }
  }

  lemma ClosedRestrict(defs: Definitions, more: Definitions, e: set<Key>, t: set<Key>)
    requires Closed(defs + more, AllOn(e), {}, e, t) && more.Keys !! e
    ensures Closed(defs, AllOn(e), {}, e, t * e)
  {
    hide Closed;
    forall k | k in Grow(defs, AllOn(e), {}, e, t * e) ensures k in t * e {
      ReadyExtend(defs, more, k, t * e, t, e);
      GroundedIntro(defs + more, e, t, k);
    }
    ClosedIntro(defs, e, t * e);
  }

  lemma ClosedIntro(defs: Definitions, e: set<Key>, t: set<Key>)
    requires forall k :: k in Grow(defs, AllOn(e), {}, e, t) ==> k in t
    ensures Closed(defs, AllOn(e), {}, e, t)
  {
  }

  lemma ReadyExtend(defs: Definitions, more: Definitions, k: Key, small: set<Key>, t: set<Key>, e: set<Key>)
    requires k in defs && k in e && Ready(defs, k, small) && small <= t && small <= e && more.Keys !! e
    ensures Ready(defs + more, k, t) && (defs + more)[k] == defs[k]
  {
  }

  /** Components that depend on each other in a circle, or on one that does, are never on. */
  lemma NoCircle(defs: Definitions, e: set<Key>, circle: set<Key>)
    requires Grounded(defs, e)
    requires forall k :: k in circle && k in defs ==> exists d :: d in defs[k].dependencies && d in circle
    ensures e !! circle
  {
    StuckStayOff(defs, AllOn(e), {}, e, circle);
  }

  // ---------------------------------------------------------------------------------------------
  // The dependency invariant
  // ---------------------------------------------------------------------------------------------

  ghost predicate Inv(s: Registry) {
    && s.states.Keys == s.definitions.Keys
    && s.loaded <= s.definitions.Keys
    && (s.initialized ==> s.loaded == s.definitions.Keys)
    && Grounded(s.definitions, EffectiveSet(s))
  }

  lemma InitializedKeeps(s: Registry, saved: set<Key>)
    requires Inv(s)
    ensures Inv(Initialized(s, saved)) && Initialized(s, saved).loaded == s.definitions.Keys
    ensures EffectiveSet(Initialized(s, saved)) == Least(s.definitions, s.rows, EffectiveSet(s), Pending(s))
  {
    hide Grounded;
    var on := Least(s.definitions, s.rows, EffectiveSet(s), Pending(s));
    GroundedLoad(s.definitions, s.rows, EffectiveSet(s), Pending(s));
    LeastFixed(s.definitions, s.rows, EffectiveSet(s), Pending(s));
    assert EffectiveSet(s) <= on <= EffectiveSet(s) + Pending(s);
    hide Least;
    assert EffectiveSet(LoadedWith(s, on, saved)) == on;
  }

  lemma ToggledKeeps(s: Registry, k: Key, enabled: bool, saves: bool)
    requires Inv(s) && s.initialized && Accepts(s, k, enabled)
    ensures Inv(Toggled(s, k, enabled, saves))
  {
    hide Grounded;
    var e := EffectiveSet(s);
    assert OnKeys(s.states) == e;
    var s' := Toggled(s, k, enabled, saves);
    if s.definitions[k].mode.Restart? {
      assert EffectiveSet(s') == e;
    } else if enabled {
      GroundedAdd(s.definitions, e, k);
      assert EffectiveSet(s') == e + {k};
    } else {
      forall x | x in e && x in s.definitions ensures k !in s.definitions[x].dependencies {
        assert !Requires(s, x, k);
      }
      GroundedRemove(s.definitions, e, k);
      assert EffectiveSet(s') == e - {k};
    }
  }

  /** Registrations name no key that is loaded. */
  ghost predicate FreshRun(s: Registry, run: seq<Label>)
    decreases |run|
  {
    run == [] || ((run[0].Register? ==> run[0].more.Keys !! s.loaded) && FreshRun(Step(s, run[0]), run[1..]))
  }

  lemma StepKeeps(s: Registry, l: Label)
    requires Inv(s) && (l.Register? ==> l.more.Keys !! s.loaded)
    ensures Inv(Step(s, l))
  {
    match l
    case Start(defs) =>
      assert EffectiveSet(Started(defs, s.rows)) == {};
    case Register(more, saved) =>
      PublishedKeeps(s, more);
      InitializedAgain(Published(s, more), saved);
    case Load(saved) => InitializedKeeps(s, saved);
    case Set(k, enabled, savedInit, saves) =>
      InitializedKeeps(s, savedInit);
      var t := if s.initialized then s else Initialized(s, savedInit);
      if t.initialized && Accepts(t, k, enabled) {
        ToggledKeeps(t, k, enabled, saves);
      }
  }

  /** Between publishing and loading, only the flag is ahead of the facts. */
  lemma PublishedKeeps(s: Registry, more: Definitions)
    requires Inv(s) && more.Keys !! s.loaded
    ensures Inv(Published(s, more).(initialized := false))
  {
    hide Grounded;
    GroundedExtend(s.definitions, more, EffectiveSet(s));
    var p := Published(s, more).(initialized := false);
    assert EffectiveSet(p) == EffectiveSet(s);
  }

  lemma InitializedAgain(s: Registry, saved: set<Key>)
    requires Inv(s.(initialized := false))
    ensures Inv(Initialized(s, saved))
  {
    var s0 := s.(initialized := false);
    InitializedKeeps(s0, saved);
    assert EffectiveSet(s0) == EffectiveSet(s) && Pending(s0) == Pending(s);
    assert Initialized(s, saved) == Initialized(s0, saved).(initialized := Initialized(s, saved).initialized);
    assert EffectiveSet(Initialized(s, saved)) == EffectiveSet(Initialized(s0, saved));
  }

  lemma {:induction false} RunKeeps(s: Registry, run: seq<Label>)
    requires Inv(s) && FreshRun(s, run)
    ensures Inv(Exec(s, run))
    decreases |run|
  {
    hide Inv, Step;
    if run != [] {
      StepKeeps(s, run[0]);
      RunKeeps(Step(s, run[0]), run[1..]);
    }
  }

  /** In every run, from any persisted rows, no effective component is on or behind a dependency circle,
      as long as no registration redefines a loaded key. */
  lemma NeverCircular(defs: Definitions, rows: map<Key, bool>, run: seq<Label>, circle: set<Key>)
    requires FreshRun(Started(defs, rows), run)
    requires var s := Exec(Started(defs, rows), run);
             forall k :: k in circle && k in s.definitions ==> exists d :: d in s.definitions[k].dependencies && d in circle
    ensures EffectiveSet(Exec(Started(defs, rows), run)) !! circle
  {
    hide Exec, Grounded;
    StartedInv(defs, rows);
    RunKeeps(Started(defs, rows), run);
    var s := Exec(Started(defs, rows), run);
    NoCircle(s.definitions, EffectiveSet(s), circle);
  }

  lemma StartedInv(defs: Definitions, rows: map<Key, bool>)
    ensures Inv(Started(defs, rows)) && EffectiveSet(Started(defs, rows)) == {}
  {
    assert EffectiveSet(Started(defs, rows)) == {};
  }

  /** `t` holds every loaded effective key, and every new key that its row, or without a row its default,
      asks for, that is compiled, and whose dependencies are all defined, compiled and in `t`. */
  ghost predicate ClosedSet(s: Registry, t: set<Key>) {
    && (forall k :: k in s.loaded && k in s.states && s.states[k].effective ==> k in t)
    && (forall k :: k in s.definitions && k !in s.loaded ==>
          ((if k in s.rows then s.rows[k] else s.definitions[k].defaultEnabled) && s.definitions[k].compiled
           && (forall d :: d in s.definitions[k].dependencies ==> d in s.definitions && s.definitions[d].compiled && d in t)) ==> k in t)
  }

  lemma ReadyIs(defs: Definitions, k: Key, on: set<Key>)
    requires k in defs
    ensures Ready(defs, k, on) <==> forall d :: d in defs[k].dependencies ==> d in defs && defs[d].compiled && d in on
  {
    var deps := defs[k].dependencies;
    if Ready(defs, k, on) {
      forall d | d in deps ensures d in defs && defs[d].compiled && d in on {
        var i :| 0 <= i < |deps| && deps[i] == d;
      }
    }
  }

  lemma ClosedIs(s: Registry, t: set<Key>)
    ensures ClosedSet(s, t) <==> Closed(s.definitions, s.rows, EffectiveSet(s), Pending(s), t)
  {
    hide Ready;
    forall k | k in s.definitions
      ensures Ready(s.definitions, k, t) <==>
                forall d :: d in s.definitions[k].dependencies ==> d in s.definitions && s.definitions[d].compiled && d in t
    {
      ReadyIs(s.definitions, k, t);
    }
    var grown := Grow(s.definitions, s.rows, EffectiveSet(s), Pending(s), t);
    if ClosedSet(s, t) {
      forall k | k in grown ensures k in t { }
    }
    if grown <= t {
      forall k | k in s.definitions && k !in s.loaded
                 && (if k in s.rows then s.rows[k] else s.definitions[k].defaultEnabled) && s.definitions[k].compiled
                 && (forall d :: d in s.definitions[k].dependencies ==> d in s.definitions && s.definitions[d].compiled && d in t)
        ensures k in t
      {
        assert Enabled(s.definitions, s.rows, k, t);
        assert k in grown;
      }
      forall k | k in s.loaded && k in s.states && s.states[k].effective ensures k in t { assert k in grown; }
    }
  }

  /** What a load answers, key by key: a new key wants what its row says, and without a row its default; it
      is effective exactly when it is wanted, compiled, and all its dependencies are defined, compiled and
      effective; a loaded key keeps its state; and nothing is effective that some closed set leaves out. */
  lemma LoadAnswers(s: Registry, saved: set<Key>)
    requires s.states.Keys == s.definitions.Keys && s.loaded <= s.definitions.Keys
    ensures var t := Initialized(s, saved);
            && t.definitions == s.definitions && t.loaded == t.states.Keys == s.definitions.Keys
            && (forall k :: k in s.loaded ==> t.states[k] == s.states[k])
            && (forall k :: k in s.definitions && k !in s.loaded ==>
                  t.states[k].desired == if k in s.rows then s.rows[k] else s.definitions[k].defaultEnabled)
            && (forall k :: k in s.definitions && k !in s.loaded ==>
                  (t.states[k].effective <==>
                     && t.states[k].desired && s.definitions[k].compiled
                     && forall d :: d in s.definitions[k].dependencies ==>
                          d in s.definitions && s.definitions[d].compiled && t.states[d].effective))
            && (forall u :: ClosedSet(s, u) ==> forall k :: k in s.definitions && t.states[k].effective ==> k in u)
  {
    hide Least, Ready;
    LoadShape(s, saved);
    var t, on := Initialized(s, saved), NextOn(s);
    forall k | k in s.definitions ensures t.states[k].effective <==> k in on {
      assert k in EffectiveSet(t) <==> t.states[k].effective;
    }
    forall k | k in s.definitions && k !in s.loaded
      ensures t.states[k].effective <==>
                && t.states[k].desired && s.definitions[k].compiled
                && forall d :: d in s.definitions[k].dependencies ==>
                     d in s.definitions && s.definitions[d].compiled && t.states[d].effective
    {
      LeastMember(s.definitions, s.rows, EffectiveSet(s), Pending(s), k);
      ReadyIs(s.definitions, k, on);
    }
    forall u | ClosedSet(s, u) ensures forall k :: k in s.definitions && t.states[k].effective ==> k in u {
      ClosedIs(s, u);
      LeastBelow(s.definitions, s.rows, EffectiveSet(s), Pending(s), u);
    }
  }

  /** Rows after a load: the saved ones of the new keys hold the wish, all others are as they were. */
  lemma LoadRows(s: Registry, saved: set<Key>, k: Key)
    ensures var t := Initialized(s, saved);
            && (k in t.rows <==> k in s.rows || (k in s.definitions && k !in s.loaded && k in saved))
            && (k in s.rows ==> t.rows[k] == s.rows[k])
            && (k !in s.rows && k in t.rows ==> k in s.definitions && t.rows[k] == s.definitions[k].defaultEnabled)
  {
    hide Least;
  }

  /** A first `initialize` loads every key; each wants what its row says, and without a row its default; and
      the effective keys are exactly the least set closed under "wanted, compiled, and every dependency
      defined, compiled and effective". */
  lemma FirstLoad(defs: Definitions, rows: map<Key, bool>, saved: set<Key>)
    ensures var s := Initialized(Started(defs, rows), saved);
            && s.loaded == s.states.Keys == defs.Keys
            && (forall k :: k in defs ==> s.states[k].desired == if k in rows then rows[k] else defs[k].defaultEnabled)
            && (forall k :: k in defs ==>
                  (s.states[k].effective <==>
                     && (if k in rows then rows[k] else defs[k].defaultEnabled) && defs[k].compiled
                     && forall d :: d in defs[k].dependencies ==> d in defs && defs[d].compiled && s.states[d].effective))
            && (forall t :: RuleClosed(defs, rows, t) ==> forall k :: k in defs && s.states[k].effective ==> k in t)
  {
    hide Initialized;
    LoadAnswers(Started(defs, rows), saved);
    forall t | RuleClosed(defs, rows, t)
      ensures forall k :: k in defs && Initialized(Started(defs, rows), saved).states[k].effective ==> k in t
    {
      assert ClosedSet(Started(defs, rows), t);
    }
  }

  /** The rule for a first load, as a closure: row or default, compiled, dependencies in. */
  ghost predicate RuleClosed(defs: Definitions, rows: map<Key, bool>, t: set<Key>) {
    forall k :: k in defs ==>
      ((if k in rows then rows[k] else defs[k].defaultEnabled) && defs[k].compiled
       && (forall d :: d in defs[k].dependencies ==> d in defs && defs[d].compiled && d in t)) ==> k in t
  }

  /** A load that could not write every row leaves the registry unmarked, and the next one marks it: it
      has nothing to load and writes no row, so the rows that failed stay unwritten. */
  lemma MarkedWithoutRows(s: Registry, saved: set<Key>, savedNext: set<Key>)
    requires Inv(s)
    ensures var t := Initialized(s, saved); var u := Initialized(t, savedNext);
            && (t.initialized <==> s.initialized || Pending(s) <= saved)
            && u == t.(initialized := true)
            && forall k :: k in Pending(s) && k !in saved && k !in s.rows ==> k !in u.rows
  {
    hide Least, Grounded;
    InitializedKeeps(s, saved);
    NothingToLoad(Initialized(s, saved), savedNext);
  }

  lemma NothingToLoad(s: Registry, saved: set<Key>)
    requires s.states.Keys == s.definitions.Keys == s.loaded
    ensures Initialized(s, saved) == s.(initialized := true)
  {
    assert Pending(s) == {};
  }

  // ---------------------------------------------------------------------------------------------
  // Support alone
  // ---------------------------------------------------------------------------------------------

  /** Every effective component is compiled, with every dependency defined, compiled and effective. */
  ghost predicate DependenciesOk(s: Registry) {
    forall k :: k in EffectiveSet(s) ==>
      k in s.definitions && s.definitions[k].compiled && Ready(s.definitions, k, EffectiveSet(s))
  }

  ghost predicate Supported(s: Registry) {
    && s.states.Keys == s.definitions.Keys
    && s.loaded <= s.definitions.Keys
    && (s.initialized ==> s.loaded == s.definitions.Keys)
    && DependenciesOk(s)
  }

  lemma GroundedSupported(s: Registry)
    requires Inv(s)
    ensures Supported(s)
  {
    hide Grounded;
    forall k | k in EffectiveSet(s)
      ensures k in s.definitions && s.definitions[k].compiled && Ready(s.definitions, k, EffectiveSet(s))
    {
      GroundedReady(s.definitions, EffectiveSet(s), k);
    }
  }

  /** The keys the next load leaves effective. */
  ghost function NextOn(s: Registry): set<Key> { Least(s.definitions, s.rows, EffectiveSet(s), Pending(s)) }

  lemma LoadShape(s: Registry, saved: set<Key>)
    requires s.states.Keys == s.definitions.Keys && s.loaded <= s.definitions.Keys
    ensures var t := Initialized(s, saved);
            && t.definitions == s.definitions && t.states.Keys == t.definitions.Keys && t.loaded == t.definitions.Keys
            && EffectiveSet(t) == NextOn(s) && EffectiveSet(s) <= NextOn(s)
  {
    LeastFixed(s.definitions, s.rows, EffectiveSet(s), Pending(s));
    var on := NextOn(s);
    assert EffectiveSet(s) <= on <= EffectiveSet(s) + Pending(s);
    hide Least;
    assert EffectiveSet(LoadedWith(s, on, saved)) == on;
  }

  /** A load leaves everything supported exactly when it leaves supported what was effective before it:
      the keys it adds always are. */
  lemma LoadExactly(s: Registry, saved: set<Key>)
    requires s.states.Keys == s.definitions.Keys && s.loaded <= s.definitions.Keys
    ensures DependenciesOk(Initialized(s, saved)) <==>
              forall k :: k in EffectiveSet(s) ==> s.definitions[k].compiled && Ready(s.definitions, k, NextOn(s))
  {
    LoadShape(s, saved);
    hide Initialized;
    var on := NextOn(s);
    forall k | k in on && k !in EffectiveSet(s) ensures k in s.definitions && s.definitions[k].compiled && Ready(s.definitions, k, on) {
      assert k in Pending(s);
      LeastMember(s.definitions, s.rows, EffectiveSet(s), Pending(s), k);
    }
  }

  /** What `register` would have to look at: every effective component, under the definitions it is about
      to have, against the keys the load will leave effective. */
  ghost predicate SafeRegistration(s: Registry, more: Definitions) {
    var p := Published(s, more);
    forall k :: k in EffectiveSet(s) ==> k in p.definitions && p.definitions[k].compiled && Ready(p.definitions, k, NextOn(p))
  }

  lemma PublishedShape(s: Registry, more: Definitions)
    requires s.states.Keys == s.definitions.Keys && s.loaded <= s.definitions.Keys
    ensures var p := Published(s, more);
            p.states.Keys == p.definitions.Keys && p.loaded <= p.definitions.Keys && EffectiveSet(p) == EffectiveSet(s)
  {
    var p := Published(s, more);
    assert forall k :: k in s.loaded ==> p.states[k] == s.states[k];
  }

  /** `register` replaces the definition of a loaded key but not its state.  For any list of definitions,
      of new keys, loaded keys or both, the dependency property survives exactly under
      `SafeRegistration`. */
  lemma Redefined(s: Registry, more: Definitions, saved: set<Key>)
    requires Supported(s)
    ensures DependenciesOk(Initialized(Published(s, more), saved)) <==> SafeRegistration(s, more)
  {
    hide Initialized, NextOn, DependenciesOk;
    PublishedShape(s, more);
    LoadExactly(Published(s, more), saved);
  }

  /** Definitions of new keys are always safe. */
  lemma FreshIsSafe(s: Registry, more: Definitions)
    requires Supported(s) && more.Keys !! s.loaded
    ensures SafeRegistration(s, more)
  {
    hide Initialized, NextOn, Ready;
    PublishedShape(s, more);
    var e, p := EffectiveSet(s), Published(s, more);
    LoadShape(p, {});
    forall k | k in e ensures k in p.definitions && p.definitions[k].compiled && Ready(p.definitions, k, NextOn(p)) {
      ReadyExtend(s.definitions, more, k, e, NextOn(p), e);
    }
  }

  /** Every registration of the run is safe when it comes. */
  ghost predicate SafeRun(s: Registry, run: seq<Label>)
    decreases |run|
  {
    run == [] || ((run[0].Register? ==> SafeRegistration(s, run[0].more)) && SafeRun(Step(s, run[0]), run[1..]))
  }

  lemma LoadSupported(s: Registry, saved: set<Key>)
    requires Supported(s)
    ensures Supported(Initialized(s, saved)) && Initialized(s, saved).loaded == s.definitions.Keys
  {
    hide Least;
    LoadShape(s, saved);
    LoadExactly(s, saved);
    forall k | k in EffectiveSet(s) ensures s.definitions[k].compiled && Ready(s.definitions, k, NextOn(s)) {
      assert Ready(s.definitions, k, EffectiveSet(s));
    }
  }

  lemma ToggledSupported(s: Registry, k: Key, enabled: bool, saves: bool)
    requires Supported(s) && s.initialized && Accepts(s, k, enabled)
    ensures Supported(Toggled(s, k, enabled, saves))
  {
    var e, s' := EffectiveSet(s), Toggled(s, k, enabled, saves);
    assert OnKeys(s.states) == e;
    forall x | x in EffectiveSet(s')
      ensures s'.definitions[x].compiled && Ready(s'.definitions, x, EffectiveSet(s'))
    {
      if x in e && x != k {
        assert Ready(s.definitions, x, e);
        assert !enabled ==> !Requires(s, x, k);
      }
    }
  }

  lemma StepSupported(s: Registry, l: Label)
    requires Supported(s) && (l.Register? ==> SafeRegistration(s, l.more))
    ensures Supported(Step(s, l))
  {
    hide Initialized, SafeRegistration, DependenciesOk;
    match l
    case Start(defs) => StartedInv(defs, s.rows); GroundedSupported(Started(defs, s.rows));
    case Register(more, saved) =>
      PublishedShape(s, more);
      LoadShape(Published(s, more), saved);
      Redefined(s, more, saved);
    case Load(saved) => LoadSupported(s, saved);
    case Set(k, enabled, savedInit, saves) =>
      LoadSupported(s, savedInit);
      var t := if s.initialized then s else Initialized(s, savedInit);
      if t.initialized && Accepts(t, k, enabled) {
        ToggledSupported(t, k, enabled, saves);
      }
  }

  lemma {:induction false} SupportedRun(s: Registry, run: seq<Label>)
    requires Supported(s) && SafeRun(s, run)
    ensures Supported(Exec(s, run))
    decreases |run|
  {
    hide Supported, Step, SafeRegistration;
    if run != [] {
      StepSupported(s, run[0]);
      SupportedRun(Step(s, run[0]), run[1..]);
    }
  }

  /** In every run of loads, commands, restarts and registrations that are safe when they come, from any
      persisted rows, every effective component is compiled and all its dependencies are defined,
      compiled and effective. */
  lemma DependenciesHold(defs: Definitions, rows: map<Key, bool>, run: seq<Label>)
    requires SafeRun(Started(defs, rows), run)
    ensures DependenciesOk(Exec(Started(defs, rows), run))
  {
    hide Exec, SafeRun;
    StartedInv(defs, rows);
    GroundedSupported(Started(defs, rows));
    SupportedRun(Started(defs, rows), run);
  }

  lemma {:induction false} FreshRunSafe(s: Registry, run: seq<Label>)
    requires Supported(s) && FreshRun(s, run)
    ensures SafeRun(s, run)
    decreases |run|
  {
    hide Supported, Step, SafeRegistration;
    if run != [] {
      if run[0].Register? { FreshIsSafe(s, run[0].more); }
      StepSupported(s, run[0]);
      FreshRunSafe(Step(s, run[0]), run[1..]);
    }
  }

  // ---------------------------------------------------------------------------------------------
  // Where support can be lost
  // ---------------------------------------------------------------------------------------------

  /** Component 0 runs, then is registered again as not compiled: it stays effective. */
  lemma RedefinitionBreaks(saved: set<Key>) returns (s: Registry, more: Definitions)
    ensures Inv(s) && s.initialized && !DependenciesOk(Initialized(Published(s, more), saved))
  {
    var good := map[0 := Definition(true, true, Hot, [])];
    var bad := map[0 := Definition(false, true, Hot, [])];
    s, more := Registry(good, map[0 := RuntimeState(true, true)], {0}, true, map[]), bad;
    assert EffectiveSet(s) == {0};
    GroundedEmpty(good);
    GroundedAdd(good, {}, 0);
    assert {} + {0} == {0};
    GroundedSupported(s);
    Redefined(s, bad, saved);
    assert 0 in bad && 0 in EffectiveSet(s);
  }

  lemma GroundedEmpty(defs: Definitions)
    ensures Grounded(defs, {})
  {
  }

  /** The command waits for something that only the load decides: it switches a loaded HOT component on
      over a dependency that is published and not loaded. */
  ghost predicate Hasty(s: Registry, more: Definitions, k: Key, enabled: bool) {
    var p := Published(s, more);
    enabled && k in s.loaded && k in p.definitions && p.definitions[k].mode.Hot?
  }

  /** `register` publishes definitions before it loads them.  A command that falls in between is harmless
      unless it switches a loaded HOT component on; such a one is harmless exactly when the load leaves
      every published dependency of that component effective. */
  lemma WindowExactly(s: Registry, more: Definitions, k: Key, enabled: bool, saves: bool, saved: set<Key>)
    requires Supported(s) && s.initialized && more.Keys !! s.loaded && Accepts(Published(s, more), k, enabled)
    ensures var q := Toggled(Published(s, more), k, enabled, saves);
            DependenciesOk(Initialized(q, saved)) <==>
              (Hasty(s, more, k, enabled) ==>
                 forall d :: d in q.definitions[k].dependencies && d in more ==> d in NextOn(q))
  {
    hide Least, Initialized, DependenciesOk;
    var p := Published(s, more);
    var q := Toggled(p, k, enabled, saves);
    PublishedShape(s, more);
    LoadShape(q, saved);
    LoadExactly(q, saved);
    WindowOthers(s, more, k, enabled, saves);
    if Hasty(s, more, k, enabled) {
      assert k in EffectiveSet(q) && EffectiveSet(s) <= EffectiveSet(q);
      WindowReady(s, more, k, NextOn(q));
    } else if k in EffectiveSet(q) {
      WindowKept(s, more, k, enabled, saves);
    }
  }

  /** Whatever the command, the other effective components keep their support. */
  lemma WindowOthers(s: Registry, more: Definitions, k: Key, enabled: bool, saves: bool)
    requires Supported(s) && s.initialized && more.Keys !! s.loaded && Accepts(Published(s, more), k, enabled)
    ensures var q := Toggled(Published(s, more), k, enabled, saves);
            forall x :: x in EffectiveSet(q) && x != k ==> q.definitions[x].compiled && Ready(q.definitions, x, EffectiveSet(q))
  {
    var p := Published(s, more);
    var q := Toggled(p, k, enabled, saves);
    PublishedShape(s, more);
    forall x | x in EffectiveSet(q) && x != k ensures q.definitions[x].compiled && Ready(q.definitions, x, EffectiveSet(q)) {
      assert x in EffectiveSet(s) && Ready(s.definitions, x, EffectiveSet(s)) && q.definitions[x] == s.definitions[x];
      assert IsEffective(p, x);
      assert !enabled ==> !Requires(p, x, k);
    }
  }

  /** The component a hasty command switches on: its loaded dependencies are there already. */
  lemma WindowReady(s: Registry, more: Definitions, k: Key, on: set<Key>)
    requires Supported(s) && s.initialized && more.Keys !! s.loaded && Accepts(Published(s, more), k, true)
    requires k in s.loaded && EffectiveSet(s) <= on
    ensures var defs := Published(s, more).definitions;
            Ready(defs, k, on) <==> forall d :: d in defs[k].dependencies && d in more ==> d in on
  {
    var p := Published(s, more);
    var deps := p.definitions[k].dependencies;
    forall i | 0 <= i < |deps| && deps[i] !in more ensures deps[i] in EffectiveSet(s) {
      assert deps[i] in OnKeys(p.states);
      assert p.states[deps[i]] == s.states[deps[i]];
    }
  }

  /** A component that was effective before the command and still is. */
  lemma WindowKept(s: Registry, more: Definitions, k: Key, enabled: bool, saves: bool)
    requires Supported(s) && s.initialized && more.Keys !! s.loaded && Accepts(Published(s, more), k, enabled)
    requires var q := Toggled(Published(s, more), k, enabled, saves); k in EffectiveSet(q)
    requires !Hasty(s, more, k, enabled)
    ensures var q := Toggled(Published(s, more), k, enabled, saves);
            q.definitions[k].compiled && Ready(q.definitions, k, EffectiveSet(q))
  {
    var p := Published(s, more);
    PublishedShape(s, more);
    assert p.definitions[k].mode.Restart?;
    assert k in EffectiveSet(s) && Ready(s.definitions, k, EffectiveSet(s)) && p.definitions[k] == s.definitions[k];
    assert EffectiveSet(Toggled(p, k, enabled, saves)) == EffectiveSet(s);
  }

  /** Component 1 is switched on because of component 0's default, which the load then corrects. */
  lemma RegistrationWindow(saved: set<Key>) returns (s: Registry, more: Definitions, k: Key)
    ensures Inv(s) && s.initialized && more.Keys !! s.loaded && Accepts(Published(s, more), k, true)
    ensures !DependenciesOk(Initialized(Toggled(Published(s, more), k, true, true), saved))
  {
    hide States, Flags, Least, Initialized, DependenciesOk;
    var defs := map[1 := Definition(true, false, Hot, [0])];
    more, k := map[0 := Definition(true, true, Hot, [])], 1;
    s := Registry(defs, map[1 := RuntimeState(false, false)], {1}, true, map[0 := false]);
    assert EffectiveSet(s) == {};
    GroundedEmpty(defs);
    var p := Published(s, more);
    assert 0 in OnKeys(p.states) && Accepts(p, 1, true);
    GroundedSupported(s);
    WindowExactly(s, more, k, true, true, saved);
    var q := Toggled(p, 1, true, true);
    assert EffectiveSet(q) == {1} && Pending(q) == {0};
    LeastMember(q.definitions, q.rows, {1}, {0}, 0);
    assert q.definitions[1].dependencies[0] == 0;
  }
}
