/**
  The runtime component registry as a value: definitions, states, the set of loaded keys and the
  persisted rows.  `Least` is the reference meaning of "enabled as far as dependencies allow".
 */
module Runtime {

  type Key = nat

  datatype Mode = Hot | Restart

  datatype Definition = Definition(compiled: bool, defaultEnabled: bool, mode: Mode, dependencies: seq<Key>)

  type Definitions = map<Key, Definition>

  datatype RuntimeState = RuntimeState(desired: bool, effective: bool)

  /** `rows` holds the persisted desired flag of each component; it survives the process. */
  datatype Registry = Registry(
    definitions: Definitions,
    states: map<Key, RuntimeState>,
    loaded: set<Key>,
    initialized: bool,
    rows: map<Key, bool>)

  /** The states of `keys`: desired and effective as the two sets say. */
  ghost function States(keys: set<Key>, desired: set<Key>, effective: set<Key>): (m: map<Key, RuntimeState>)
    ensures m.Keys == keys
    ensures forall k :: k in m ==> m[k] == RuntimeState(k in desired, k in effective)
  {
    if keys == {} then map[]
    else var k :| k in keys; States(keys - {k}, desired, effective)[k := RuntimeState(k in desired, k in effective)]
  }

  /** The rows of `keys`, true for those in `desired`. */
  ghost function Flags(keys: set<Key>, desired: set<Key>): (m: map<Key, bool>)
    ensures m.Keys == keys
    ensures forall k :: k in m ==> m[k] == (k in desired)
  {
    if keys == {} then map[] else var k :| k in keys; Flags(keys - {k}, desired)[k := k in desired]
  }

  /** The persisted wish, or the definition's default for a key never seen. */
  predicate Desired(rows: map<Key, bool>, k: Key, d: Definition) {
    if k in rows then rows[k] else d.defaultEnabled
  }

  /** `dependencies_compiled_and_effective`, over the set of effective keys. */
  predicate Ready(defs: Definitions, k: Key, effective: set<Key>)
    requires k in defs
  {
    forall i :: 0 <= i < |defs[k].dependencies| ==>
      var d := defs[k].dependencies[i];
      d in defs && defs[d].compiled && d in effective
  }

  predicate Enabled(defs: Definitions, rows: map<Key, bool>, k: Key, effective: set<Key>)
    requires k in defs
  {
    Desired(rows, k, defs[k]) && defs[k].compiled && Ready(defs, k, effective)
  }

  /** The keys that must be effective once `effective` are: the settled ones, and every new key that
      is desired, compiled and ready. */
  function Grow(defs: Definitions, rows: map<Key, bool>, base: set<Key>, pending: set<Key>, effective: set<Key>): set<Key> {
    base + set k | k in pending && k in defs && Enabled(defs, rows, k, effective)
  }

  ghost predicate Closed(defs: Definitions, rows: map<Key, bool>, base: set<Key>, pending: set<Key>, t: set<Key>) {
    Grow(defs, rows, base, pending, t) <= t
  }

  /** The least closed set, as the intersection of all of them. */
  ghost function Least(defs: Definitions, rows: map<Key, bool>, base: set<Key>, pending: set<Key>): set<Key> {
    set k | k in base + pending && forall t :: Closed(defs, rows, base, pending, t) ==> k in t
  }

  // ---------------------------------------------------------------------------------------------
  // Operations
  // ---------------------------------------------------------------------------------------------

  /** The state of a key that has been defined but not loaded. */
  function Fresh(d: Definition): RuntimeState { RuntimeState(d.defaultEnabled, d.compiled && d.defaultEnabled) }

  ghost function FreshStates(defs: Definitions): (m: map<Key, RuntimeState>)
    ensures m.Keys == defs.Keys
    ensures forall k :: k in m ==> m[k] == Fresh(defs[k])
  {
    States(defs.Keys, set k | k in defs && defs[k].defaultEnabled, set k | k in defs && Fresh(defs[k]).effective)
  }

  /** The defined keys that are desired. */
  function Wishes(defs: Definitions, rows: map<Key, bool>): set<Key> {
    set k | k in defs && Desired(rows, k, defs[k])
  }

  /** `new`: nothing is loaded yet. */
  ghost function Started(defs: Definitions, rows: map<Key, bool>): Registry {
    Registry(defs, FreshStates(defs), {}, false, rows)
  }

  function Pending(s: Registry): set<Key> { s.definitions.Keys - s.loaded }

  predicate IsEffective(s: Registry, k: Key) { k in s.states && s.states[k].effective }

  /** The components that are loaded and effective. */
  function EffectiveSet(s: Registry): set<Key> { set k | k in s.loaded && IsEffective(s, k) }

  /** The keys whose state says effective, loaded or not. */
  function OnKeys(states: map<Key, RuntimeState>): set<Key> { set k | k in states && states[k].effective }

  /** `initialize`: every pending key is loaded with the least-fixed-point answer.  `saved` are the
      keys whose row was written before the first write that failed, if any did. */
  ghost function Initialized(s: Registry, saved: set<Key>): Registry {
    LoadedWith(s, Least(s.definitions, s.rows, EffectiveSet(s), Pending(s)), saved)
  }

  /** Every pending key is loaded, and `on` says which of them are effective. */
  ghost function LoadedWith(s: Registry, on: set<Key>, saved: set<Key>): Registry {
    s.(states := s.states + States(Pending(s), Wishes(s.definitions, s.rows), on),
       loaded := s.loaded + Pending(s),
       initialized := s.initialized || Pending(s) <= saved,
       rows := s.rows + Flags(Pending(s) * saved, Wishes(s.definitions, s.rows)))
  }

  /** `register` up to its call of `initialize`: new definitions replace old ones of the same key,
      but a key that has a state keeps it. */
  ghost function Published(s: Registry, more: Definitions): Registry {
    s.(definitions := s.definitions + more,
       states := FreshStates(more) + s.states)
  }

  datatype Outcome = Done | UnknownComponent | NotCompiled | DependenciesUnavailable | RequiredBy(dependent: Key) | NotSaved

  /** An effective component that depends on `k`. */
  predicate Requires(s: Registry, dependent: Key, k: Key) {
    && dependent in s.definitions
    && k in s.definitions[dependent].dependencies
    && IsEffective(s, dependent)
  }

  predicate Accepts(s: Registry, k: Key, enabled: bool) {
    && k in s.definitions
    && k in s.states
    && (enabled ==> s.definitions[k].compiled && Ready(s.definitions, k, OnKeys(s.states)))
    && (!enabled ==> !exists dependent :: dependent in s.definitions && Requires(s, dependent, k))
  }

  /** An accepted `set_enabled`: HOT components follow at once, RESTART components at the next load. */
  function Toggled(s: Registry, k: Key, enabled: bool, saved: bool): Registry
    requires k in s.definitions && k in s.states
  {
    var effective := if s.definitions[k].mode.Hot? then enabled else s.states[k].effective;
    s.(states := s.states[k := RuntimeState(enabled, effective)],
       rows := if saved then s.rows[k := enabled] else s.rows)
  }

  /** `set_enabled` as a whole; a registry not yet initialized is initialized first. */
  ghost function AfterSetEnabled(s: Registry, k: Key, enabled: bool, savedInit: set<Key>, saved: bool): Registry {
    var t := if s.initialized then s else Initialized(s, savedInit);
    if t.initialized && Accepts(t, k, enabled) then Toggled(t, k, enabled, saved) else t
  }

  // ---------------------------------------------------------------------------------------------
  // Least closed sets
  // ---------------------------------------------------------------------------------------------

  lemma GrowMonotone(defs: Definitions, rows: map<Key, bool>, base: set<Key>, pending: set<Key>, a: set<Key>, b: set<Key>)
    requires a <= b
    ensures Grow(defs, rows, base, pending, a) <= Grow(defs, rows, base, pending, b)
  {
    forall k | k in pending && k in defs && Enabled(defs, rows, k, a) ensures Enabled(defs, rows, k, b) {
    }
  }

  lemma LeastBelow(defs: Definitions, rows: map<Key, bool>, base: set<Key>, pending: set<Key>, t: set<Key>)
    requires Closed(defs, rows, base, pending, t)
    ensures Least(defs, rows, base, pending) <= t
  {
  }

  /** `Least` is a fixed point of `Grow`, and it is below every closed set: the least fixed point. */
  lemma LeastFixed(defs: Definitions, rows: map<Key, bool>, base: set<Key>, pending: set<Key>)
    ensures Grow(defs, rows, base, pending, Least(defs, rows, base, pending)) == Least(defs, rows, base, pending)
    ensures forall t :: Grow(defs, rows, base, pending, t) == t ==> Least(defs, rows, base, pending) <= t
  {
    var least := Least(defs, rows, base, pending);
    var grown := Grow(defs, rows, base, pending, least);
    forall k, t | k in grown && Closed(defs, rows, base, pending, t) ensures k in t {
      LeastBelow(defs, rows, base, pending, t);
      GrowMonotone(defs, rows, base, pending, least, t);
    }
    assert grown <= least;
    GrowMonotone(defs, rows, base, pending, grown, least);
    LeastBelow(defs, rows, base, pending, grown);
    forall t | Grow(defs, rows, base, pending, t) == t ensures least <= t {
      LeastBelow(defs, rows, base, pending, t);
    }
  }

  /** A new key is on exactly when it is desired, compiled and its dependencies are on. */
  lemma LeastMember(defs: Definitions, rows: map<Key, bool>, base: set<Key>, pending: set<Key>, k: Key)
    requires k in pending && k in defs && k !in base
    ensures k in Least(defs, rows, base, pending)
       <==> Enabled(defs, rows, k, Least(defs, rows, base, pending))
  {
    LeastFixed(defs, rows, base, pending);
  }

  /** Keys that each wait for another one of them are never on. */
  lemma StuckStayOff(defs: Definitions, rows: map<Key, bool>, base: set<Key>, pending: set<Key>, stuck: set<Key>)
    requires base !! stuck
    requires forall k :: k in stuck && k in defs ==> exists d :: d in defs[k].dependencies && d in stuck
    ensures Least(defs, rows, base, pending) !! stuck
  {
    var least := Least(defs, rows, base, pending);
    var t := least - stuck;
    LeastFixed(defs, rows, base, pending);
    GrowMonotone(defs, rows, base, pending, t, least);
    forall k | k in Grow(defs, rows, base, pending, t) ensures k in t {
    }
    LeastBelow(defs, rows, base, pending, t);
  }

  lemma SameAnswer(defs: Definitions, rows: map<Key, bool>, k: Key, a: set<Key>, b: set<Key>)
    requires k in defs
    requires forall i :: 0 <= i < |defs[k].dependencies| && defs[k].dependencies[i] in defs ==>
               (defs[k].dependencies[i] in a <==> defs[k].dependencies[i] in b)
    ensures Enabled(defs, rows, k, a) <==> Enabled(defs, rows, k, b)
  {
  }
}
