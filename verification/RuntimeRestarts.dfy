/** What one restart can and cannot switch off. */
module RuntimeRestarts {
  import opened Runtime
  import opened RuntimeTheorems

  /** A process start with the definitions of the last one, loading all of them. */
  ghost function Rebooted(s: Registry, saved: set<Key>): Registry {
    Initialized(Started(s.definitions, s.rows), saved)
  }

  /** Commands of one process, and restarts. */
  datatype Act = Command(k: Key, enabled: bool, savedInit: set<Key>, saves: bool) | Reboot(saved: set<Key>)

  ghost function Do(s: Registry, a: Act): Registry {
    match a
    case Command(k, enabled, savedInit, saves) => AfterSetEnabled(s, k, enabled, savedInit, saves)
    case Reboot(saved) => Rebooted(s, saved)
  }

  ghost function DoAll(s: Registry, acts: seq<Act>): Registry
    decreases |acts|
  {
    if acts == [] then s else DoAll(Do(s, acts[0]), acts[1..])
  }

  function Reboots(acts: seq<Act>): nat {
    if acts == [] then 0 else (if acts[0].Reboot? then 1 else 0) + Reboots(acts[1..])
  }

  ghost predicate Wanted(s: Registry, k: Key) { k in s.definitions && Desired(s.rows, k, s.definitions[k]) }

  /** Everything `r` rests on is in `under`, and all of `under` is effective and still wanted. */
  ghost predicate RestsOn(s: Registry, r: Key, under: set<Key>) {
    && r in s.definitions
    && (forall d :: d in s.definitions[r].dependencies ==> d in under)
    && under <= EffectiveSet(s)
    && (forall k :: k in under ==> Wanted(s, k))
    && (forall k, d :: k in under && k in s.definitions && d in s.definitions[k].dependencies ==> d in under)
  }

  ghost predicate Firm(s: Registry, r: Key) { exists under :: RestsOn(s, r, under) }

  /** Fully loaded, and every effective RESTART component rests on wanted ground. */
  ghost predicate Settled(s: Registry) {
    && Inv(s)
    && s.loaded == s.definitions.Keys
    && (forall r :: r in EffectiveSet(s) && s.definitions[r].mode.Restart? ==> Firm(s, r))
  }

  lemma RebootOn(s: Registry, saved: set<Key>)
    ensures var s' := Rebooted(s, saved);
            && Inv(s') && s'.definitions == s.definitions && s'.loaded == s.definitions.Keys
            && EffectiveSet(s') == Least(s.definitions, s.rows, {}, s.definitions.Keys)
  {
    var s0 := Started(s.definitions, s.rows);
    assert EffectiveSet(s0) == {} && Pending(s0) == s.definitions.Keys;
    InitializedKeeps(s0, saved);
  }

  /** A restart writes down what it read. */
  lemma RebootRows(s: Registry, saved: set<Key>)
    ensures forall k :: k in s.definitions ==>
              Desired(Rebooted(s, saved).rows, k, s.definitions[k]) == Desired(s.rows, k, s.definitions[k])
  {
    hide Least;
  }

  lemma RebootSettled(s: Registry, saved: set<Key>)
    ensures Settled(Rebooted(s, saved)) && Rebooted(s, saved).definitions == s.definitions
    ensures EffectiveSet(Rebooted(s, saved)) == Least(s.definitions, s.rows, {}, s.definitions.Keys)
  {
    hide Grounded, Rebooted;
    RebootOn(s, saved);
    RebootRows(s, saved);
    var s' := Rebooted(s, saved);
    var on := EffectiveSet(s');
    LeastFixed(s.definitions, s.rows, {}, s.definitions.Keys);
    hide Least;
    forall k | k in on ensures Wanted(s', k) && Ready(s.definitions, k, on) {
      assert Enabled(s.definitions, s.rows, k, on);
    }
    forall r | r in on ensures Firm(s', r) {
      assert RestsOn(s', r, on);
    }
  }

  lemma CommandSettled(s: Registry, k: Key, enabled: bool, savedInit: set<Key>, saves: bool)
    requires Settled(s)
    ensures Settled(AfterSetEnabled(s, k, enabled, savedInit, saves))
    ensures AfterSetEnabled(s, k, enabled, savedInit, saves).definitions == s.definitions
    ensures forall r :: r in s.definitions && s.definitions[r].mode.Restart? ==>
              (r in EffectiveSet(AfterSetEnabled(s, k, enabled, savedInit, saves)) <==> r in EffectiveSet(s))
  {
    hide Least, Grounded, Initialized;
    var t := s.(initialized := true);
    if !s.initialized {
      NothingToLoad(s, savedInit);
    }
    assert EffectiveSet(t) == EffectiveSet(s);
    forall r | Firm(s, r) ensures Firm(t, r) {
      var under :| RestsOn(s, r, under);
      assert RestsOn(t, r, under);
    }
    if Accepts(t, k, enabled) {
      ToggledKeeps(t, k, enabled, saves);
      ToggledFirm(t, k, enabled, saves);
    }
  }

  lemma ToggledFirm(s: Registry, k: Key, enabled: bool, saves: bool)
    requires Settled(s) && s.initialized && Accepts(s, k, enabled)
    ensures var s' := Toggled(s, k, enabled, saves);
            forall r :: r in s.definitions && s.definitions[r].mode.Restart? ==>
              && (r in EffectiveSet(s') <==> r in EffectiveSet(s))
              && (r in EffectiveSet(s') ==> Firm(s', r))
  {
    hide Least, Grounded;
    var s' := Toggled(s, k, enabled, saves);
    forall r | r in s.definitions && s.definitions[r].mode.Restart?
      ensures r in EffectiveSet(s') <==> r in EffectiveSet(s)
      ensures r in EffectiveSet(s') ==> Firm(s', r)
    {
      if r in EffectiveSet(s) {
        var under :| RestsOn(s, r, under);
        if enabled {
          assert RestsOn(s', r, under);
        } else {
          DisableLeavesGround(s, k, saves, r, under);
        }
      }
    }
  }

  /** An accepted disable is of a component that nothing effective rests on. */
  lemma DisableLeavesGround(s: Registry, k: Key, saves: bool, r: Key, under: set<Key>)
    requires Accepts(s, k, false) && s.loaded == s.definitions.Keys && r in EffectiveSet(s) && RestsOn(s, r, under)
    ensures RestsOn(Toggled(s, k, false, saves), r, under - {k})
  {
    assert forall x :: x in EffectiveSet(s) && x in s.definitions ==> !Requires(s, x, k);
    var s' := Toggled(s, k, false, saves);
    forall x | x in under - {k} ensures Wanted(s', x) && x in EffectiveSet(s') {
      assert Wanted(s, x) && x in EffectiveSet(s);
    }
  }

  /** Ground survives a restart: it is grounded, compiled and wanted. */
  lemma GroundSurvives(defs: Definitions, rows: map<Key, bool>, e: set<Key>, under: set<Key>)
    requires Grounded(defs, e) && under <= e
    requires forall k :: k in under ==> k in defs && Desired(rows, k, defs[k])
    requires forall k, d :: k in under && d in defs[k].dependencies ==> d in under
    ensures under <= Least(defs, rows, {}, defs.Keys)
  {
    forall k | k in under ensures Ready(defs, k, under) {
      GroundedReady(defs, e, k);
    }
    GroundedSubset(defs, e, under);
    var on := Least(defs, rows, {}, defs.Keys);
    LeastFixed(defs, rows, {}, defs.Keys);
    forall k | k in Grow(defs, AllOn(under), {}, under, on) ensures k in on {
      assert Enabled(defs, rows, k, on);
    }
    LeastBelow(defs, AllOn(under), {}, under, on);
  }

  /** One restart, one layer: whatever an effective RESTART component depends on is effective again
      after the restart, whichever commands came before. */
  lemma OneLayer(s: Registry, saved: set<Key>, r: Key, d: Key)
    requires Settled(s) && r in EffectiveSet(s) && s.definitions[r].mode.Restart?
    requires d in s.definitions[r].dependencies
    ensures d in EffectiveSet(Rebooted(s, saved))
  {
    var under :| RestsOn(s, r, under);
    GroundSurvives(s.definitions, s.rows, EffectiveSet(s), under);
    RebootSettled(s, saved);
  }

  /** Each element is a RESTART component that depends on the one before it. */
  ghost predicate Chain(defs: Definitions, chain: seq<Key>) {
    && (forall i :: 0 <= i < |chain| ==> chain[i] in defs && defs[chain[i]].mode.Restart?)
    && (forall i :: 0 < i < |chain| ==> chain[i - 1] in defs[chain[i]].dependencies)
  }

  /** The first `n` of the chain are effective. */
  ghost predicate Up(s: Registry, chain: seq<Key>, n: int) {
    forall i :: 0 <= i < n && i < |chain| ==> chain[i] in EffectiveSet(s)
  }

  lemma ActKeeps(s: Registry, a: Act, chain: seq<Key>, n: int)
    requires Settled(s) && Chain(s.definitions, chain) && Up(s, chain, n) && n <= |chain|
    ensures Settled(Do(s, a)) && Do(s, a).definitions == s.definitions
    ensures Up(Do(s, a), chain, n - if a.Reboot? then 1 else 0)
  {
    hide Settled, Initialized, AfterSetEnabled;
    match a
    case Command(k, enabled, savedInit, saves) => CommandSettled(s, k, enabled, savedInit, saves);
    case Reboot(saved) =>
      RebootSettled(s, saved);
      forall i | 0 <= i < n - 1 ensures chain[i] in EffectiveSet(Rebooted(s, saved)) {
        OneLayer(s, saved, chain[i + 1], chain[i]);
      }
  }

  /** After a boot, the effective flag of every RESTART component stays as it is until the next
      restart, and a chain of effective RESTART components loses at most its last element per restart.
      So a chain of n needs at least n restarts to go off completely, and its first element needs n. */
  lemma {:induction false} ChainOutlasts(s: Registry, acts: seq<Act>, chain: seq<Key>, n: int)
    requires Settled(s) && Chain(s.definitions, chain) && Up(s, chain, n) && n <= |chain|
    ensures Up(DoAll(s, acts), chain, n - Reboots(acts))
    ensures 0 < n && chain[0] !in EffectiveSet(DoAll(s, acts)) ==> Reboots(acts) >= n
    decreases |acts|
  {
    if acts != [] {
      ActKeeps(s, acts[0], chain, n);
      ChainOutlasts(Do(s, acts[0]), acts[1..], chain, n - if acts[0].Reboot? then 1 else 0);
    }
  }

  // ---------------------------------------------------------------------------------------------
  // The bound is reached
  // ---------------------------------------------------------------------------------------------

  function Low(n: nat): (low: set<Key>)
    ensures forall k :: k in low <==> 0 <= k < n
  {
    if n == 0 then {} else Low(n - 1) + {n - 1}
  }

  /** Component k of a tower depends on component k - 1. */
  function Storey(k: Key): Definition { Definition(true, true, Restart, if k == 0 then [] else [k - 1]) }

  /** Components 0, 1, .., n-1. */
  function Tower(n: nat): (tower: Definitions)
    ensures tower.Keys == Low(n)
    ensures forall k :: k in tower ==> tower[k] == Storey(k)
  {
    if n == 0 then map[] else Tower(n - 1)[n - 1 := Storey(n - 1)]
  }

  lemma {:induction false} TowerClimb(n: nat, rows: map<Key, bool>, m: nat, t: set<Key>, k: nat)
    requires m <= n && (forall i :: 0 <= i < m ==> i !in rows || rows[i])
    requires Closed(Tower(n), rows, {}, Tower(n).Keys, t) && k < m
    ensures k in t
  {
    hide Tower, Low;
    if k > 0 {
      TowerClimb(n, rows, m, t, k - 1);
    }
    assert Enabled(Tower(n), rows, k, t);
    assert k in Grow(Tower(n), rows, {}, Tower(n).Keys, t);
  }

  /** A tower with its components below `m` wanted and number `m` not is effective exactly below `m`. */
  lemma TowerUp(n: nat, rows: map<Key, bool>, m: nat)
    requires m <= n && (forall i :: 0 <= i < m ==> i !in rows || rows[i]) && (m < n ==> m in rows && !rows[m])
    ensures Least(Tower(n), rows, {}, Tower(n).Keys) == Low(m)
  {
    forall k | k in Low(m) ensures k in Least(Tower(n), rows, {}, Tower(n).Keys) {
      forall t | Closed(Tower(n), rows, {}, Tower(n).Keys, t) ensures k in t {
        TowerClimb(n, rows, m, t, k);
      }
    }
    TowerTop(n, rows, m);
    LeastBelow(Tower(n), rows, {}, Tower(n).Keys, Low(m));
  }

  lemma TowerTop(n: nat, rows: map<Key, bool>, m: nat)
    requires m <= n && (m < n ==> m in rows && !rows[m])
    ensures Closed(Tower(n), rows, {}, Tower(n).Keys, Low(m))
  {
    forall k: Key | k in Tower(n) && Enabled(Tower(n), rows, k, Low(m)) ensures k < m {
      if k > 0 {
        assert Tower(n)[k].dependencies[0] == k - 1;
      }
    }
  }

  /** A tower of which the lowest `m` components are effective and wanted. */
  ghost predicate Standing(s: Registry, n: nat, m: nat) {
    && Settled(s) && s.definitions == Tower(n) && m <= n
    && EffectiveSet(s) == Low(m)
    && (forall i :: 0 <= i < m ==> i !in s.rows || s.rows[i])
  }

  /** The top component can be disabled, and the restart takes it and nothing else. */
  lemma ShedTop(s: Registry, n: nat, m: nat)
    requires Standing(s, n, m) && 0 < m
    ensures Standing(Do(Do(s, Command(m - 1, false, {}, true)), Reboot(Tower(n).Keys)), n, m - 1)
  {
    hide Standing, AfterSetEnabled, Rebooted, Settled, EffectiveSet, Least, Tower, Low, Desired;
    DisableTop(s, n, m);
    var u := Do(s, Command(m - 1, false, {}, true));
    RebootSettled(u, Tower(n).Keys);
    RebootRows(u, Tower(n).Keys);
    StandingRows(u, Rebooted(u, Tower(n).Keys), n, m - 1);
  }

  lemma DisableTop(s: Registry, n: nat, m: nat)
    requires Standing(s, n, m) && 0 < m
    ensures var u := Do(s, Command(m - 1, false, {}, true));
            && u.definitions == Tower(n) && m <= n
            && m - 1 in u.rows && !u.rows[m - 1]
            && (forall i :: 0 <= i < m - 1 ==> i !in u.rows || u.rows[i])
  {
    hide Firm, Grounded, Least, Low, Tower, Initialized, Accepts, EffectiveSet;
    if !s.initialized {
      NothingToLoad(s, {});
    }
    TopAccepts(s, n, m);
    assert Do(s, Command(m - 1, false, {}, true)) == Toggled(s.(initialized := true), m - 1, false, true);
  }

  lemma TopAccepts(s: Registry, n: nat, m: nat)
    requires Standing(s, n, m) && 0 < m
    ensures var t := s.(initialized := true); m - 1 in t.definitions && m - 1 in t.states && Accepts(t, m - 1, false)
  {
    hide Firm, Grounded, Least, Low, Initialized;
    var t := s.(initialized := true);
    assert EffectiveSet(t) == EffectiveSet(s);
    TopFree(t, n, m);
  }

  lemma StandingRows(u: Registry, s': Registry, n: nat, m: nat)
    requires u.definitions == s'.definitions == Tower(n) && m < n && Settled(s')
    requires m in u.rows && !u.rows[m] && (forall i :: 0 <= i < m ==> i !in u.rows || u.rows[i])
    requires forall k :: k in Tower(n) ==> Desired(s'.rows, k, Tower(n)[k]) == Desired(u.rows, k, Tower(n)[k])
    requires EffectiveSet(s') == Least(Tower(n), u.rows, {}, Tower(n).Keys)
    ensures Standing(s', n, m)
  {
    hide Settled, Least;
    TowerUp(n, u.rows, m);
    forall i | 0 <= i < m ensures i !in s'.rows || s'.rows[i] {
      assert i in Tower(n) && Desired(u.rows, i, Tower(n)[i]);
    }
  }

  lemma TopFree(s: Registry, n: nat, m: nat)
    requires Inv(s) && s.loaded == s.definitions.Keys == Tower(n).Keys && s.definitions == Tower(n)
    requires 0 < m <= n && EffectiveSet(s) == Low(m)
    ensures Accepts(s, m - 1, false)
  {
    hide Grounded;
    forall x | x in s.definitions ensures !Requires(s, x, m - 1) {
      if m - 1 in s.definitions[x].dependencies {
        assert x == m;
        assert m !in EffectiveSet(s);
      }
    }
  }

  lemma Fallen(s: Registry, n: nat)
    requires Standing(s, n, 0)
    ensures EffectiveSet(s) == {}
  {
  }

  /** For every n there is a tower that n restarts do switch off, so the bound is exact. */
  lemma {:induction false} TowerFalls(s: Registry, n: nat, m: nat) returns (acts: seq<Act>)
    requires Standing(s, n, m)
    ensures Reboots(acts) == m && EffectiveSet(DoAll(s, acts)) == {}
    decreases m
  {
    hide Standing, Do, Tower, Settled, EffectiveSet;
    if m == 0 {
      acts := [];
      Fallen(s, n);
    } else {
      var c, r := Command(m - 1, false, {}, true), Reboot(Tower(n).Keys);
      ShedTop(s, n, m);
      var rest := TowerFalls(Do(Do(s, c), r), n, m - 1);
      acts := [c, r] + rest;
      TwoThenRest(s, c, r, rest);
    }
  }

  lemma TwoThenRest(s: Registry, a: Act, b: Act, rest: seq<Act>)
    ensures DoAll(s, [a, b] + rest) == DoAll(Do(Do(s, a), b), rest)
    ensures Reboots([a, b] + rest) == (if a.Reboot? then 1 else 0) + (if b.Reboot? then 1 else 0) + Reboots(rest)
  {
    hide Do;
    assert ([a, b] + rest)[1..] == [b] + rest;
    assert ([b] + rest)[1..] == rest;
  }

  /** Booting a tower of n brings all of it up; any acts that bring all of it down restart at least n
      times, and some acts do it with exactly n. */
  lemma ExactRestarts(n: nat, saved: set<Key>, acts: seq<Act>) returns (best: seq<Act>)
    ensures var s := Rebooted(Started(Tower(n), map[]), saved);
            && EffectiveSet(s) == Low(n)
            && (EffectiveSet(DoAll(s, acts)) == {} ==> Reboots(acts) >= n)
            && Reboots(best) == n && EffectiveSet(DoAll(s, best)) == {}
  {
    hide Rebooted, Settled, Tower, Low, Standing, EffectiveSet;
    var s := BootStands(n, saved);
    best := TowerFalls(s, n, n);
    TowerOutlasts(s, n, acts);
  }

  lemma BootStands(n: nat, saved: set<Key>) returns (s: Registry)
    ensures s == Rebooted(Started(Tower(n), map[]), saved) && Standing(s, n, n)
    ensures Settled(s) && s.definitions == Tower(n) && EffectiveSet(s) == Low(n)
  {
    hide Rebooted, Settled, Least, Tower, Low, FreshStates;
    var s0 := Started(Tower(n), map[]);
    s := Rebooted(s0, saved);
    RebootSettled(s0, saved);
    RebootRows(s0, saved);
    TowerUp(n, map[], n);
    forall i | 0 <= i < n ensures i !in s.rows || s.rows[i] {
      assert i in Tower(n) && Desired(map[], i, Tower(n)[i]);
    }
  }

  lemma TowerOutlasts(s: Registry, n: nat, acts: seq<Act>)
    requires Settled(s) && s.definitions == Tower(n) && EffectiveSet(s) == Low(n)
    ensures EffectiveSet(DoAll(s, acts)) == {} ==> Reboots(acts) >= n
  {
    hide Settled, EffectiveSet;
    var chain := seq(n, (i: nat) => i);
    forall i | 0 < i < n ensures chain[i - 1] in Tower(n)[chain[i]].dependencies {
      assert Tower(n)[i].dependencies == [i - 1];
    }
    ChainOutlasts(s, acts, chain, n);
  }

  /** A restart keeps every effective component exactly when every one of them is still wanted. */
  lemma RestartKeepsExactly(s: Registry, saved: set<Key>)
    requires Inv(s)
    ensures EffectiveSet(s) <= EffectiveSet(Rebooted(s, saved)) <==> forall k :: k in EffectiveSet(s) ==> Wanted(s, k)
  {
    var e := EffectiveSet(s);
    RebootSettled(s, saved);
    LeastFixed(s.definitions, s.rows, {}, s.definitions.Keys);
    if forall k :: k in e ==> Wanted(s, k) {
      forall k, d | k in e && d in s.definitions[k].dependencies ensures d in e {
        GroundedReady(s.definitions, e, k);
      }
      GroundSurvives(s.definitions, s.rows, e, e);
    }
  }
}
