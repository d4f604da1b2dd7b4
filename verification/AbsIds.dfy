/**
  Stable Audiobookshelf ids for things that have none of their own: a table from (kind, key) to an id,
  allocated on first use.  The random ids are an input: `draws` holds the one drawn for each request.
 */
module AbsIds {

  import opened Common

  type Id = string
  type Key = string

  datatype IdKind = Author | Book | Folder

  function AsStr(kind: IdKind): string {
    match kind
    case Author => "author"
    case Book => "book"
    case Folder => "folder"
  }

  function Parse(text: string): Option<IdKind> {
    if text == "author" then Some(Author)
    else if text == "book" then Some(Book)
    else if text == "folder" then Some(Folder)
    else None
  }

  /** A stored name reads back as its kind, and nothing else reads as a kind. */
  lemma ParseAsStr(text: string, kind: IdKind)
    ensures Parse(text) == Some(kind) <==> text == AsStr(kind)
  {
    assert "author" != "book" by { assert |"author"| != |"book"|; }
    assert "author" != "folder" by { assert "author"[0] != "folder"[0]; }
    assert "book" != "folder" by { assert |"book"| != |"folder"|; }
  }

  datatype Entry = Entry(kind: string, key: Key)

  /** The unique index on (kind, key) makes the table a map; the primary key makes it injective. */
  type Table = map<Entry, Id>

  ghost predicate Injective(t: Table) {
    forall a, b :: a in t && b in t && t[a] == t[b] ==> a == b
  }

  ghost predicate Taken(t: Table, id: Id) { exists e :: e in t && t[e] == id }

  /** `t'` keeps every row of `t`. */
  ghost predicate Extends(t: Table, t': Table) {
    forall e :: e in t ==> e in t' && t'[e] == t[e]
  }

  function At(kind: IdKind, key: Key): Entry { Entry(AsStr(kind), key) }

  // ---------------------------------------------------------------------------------------------
  // One key at a time, as a function
  // ---------------------------------------------------------------------------------------------

  /** The table after resolving one key with `draw` as the fresh id. */
  function One(t: Table, kind: IdKind, key: Key, draw: Id): Table {
    if At(kind, key) in t then t else t[At(kind, key) := draw]
  }

  /** The table after resolving the keys in turn. */
  function Each(t: Table, kind: IdKind, keys: seq<Key>, draws: seq<Id>): Table
    requires |draws| == |keys|
  {
    if keys == [] then t
    else One(Each(t, kind, keys[..|keys| - 1], draws[..|draws| - 1]), kind, keys[|keys| - 1], draws[|draws| - 1])
  }

  /** The draws are new ids, all different. */
  ghost predicate Fresh(t: Table, draws: seq<Id>) {
    && (forall i :: 0 <= i < |draws| ==> !Taken(t, draws[i]))
    && (forall i, j :: 0 <= i < j < |draws| ==> draws[i] != draws[j])
  }

  /** Resolving keys adds exactly the requested ones and changes no id that was there; ids outside the
      table and the draws do not appear. */
  lemma {:induction false} EachAdds(t: Table, kind: IdKind, keys: seq<Key>, draws: seq<Id>)
    requires |draws| == |keys|
    ensures Extends(t, Each(t, kind, keys, draws))
    ensures forall e :: e in Each(t, kind, keys, draws) <==> e in t || (e.kind == AsStr(kind) && e.key in keys)
    ensures forall id :: Taken(Each(t, kind, keys, draws), id) ==> Taken(t, id) || id in draws
  {
    if keys != [] {
      var n := |keys| - 1;
      EachAdds(t, kind, keys[..n], draws[..n]);
      assert keys == keys[..n] + [keys[n]] && draws == draws[..n] + [draws[n]];
      var before, after := Each(t, kind, keys[..n], draws[..n]), Each(t, kind, keys, draws);
      forall id | Taken(after, id) ensures Taken(t, id) || id in draws {
        var e :| e in after && after[e] == id;
        assert Taken(before, id) || id == draws[n] by { if e in before { assert before[e] == id; } }
      }
    }
  }

  lemma {:induction false} EachInjective(t: Table, kind: IdKind, keys: seq<Key>, draws: seq<Id>)
    requires |draws| == |keys| && Injective(t) && Fresh(t, draws)
    ensures Injective(Each(t, kind, keys, draws))
  {
    if keys != [] {
      var n := |keys| - 1;
      EachInjective(t, kind, keys[..n], draws[..n]);
      EachAdds(t, kind, keys[..n], draws[..n]);
      var before := Each(t, kind, keys[..n], draws[..n]);
      assert draws[n] !in draws[..n];
      assert !Taken(before, draws[n]);
    }
  }

  // ---------------------------------------------------------------------------------------------
  // Looking ids up
  // ---------------------------------------------------------------------------------------------

  /** The key `id` was allocated for, if it names something of `kind`. */
  ghost function Looked(t: Table, kind: IdKind, id: Id): Option<Key> {
    if exists key :: At(kind, key) in t && t[At(kind, key)] == id
    then var key :| At(kind, key) in t && t[At(kind, key)] == id; Some(key)
    else None
  }

  /** Lookup inverts resolve: it answers a key exactly when that key's id is the one asked for. */
  lemma LookupInverts(t: Table, kind: IdKind, key: Key, id: Id)
    requires Injective(t)
    ensures Looked(t, kind, id) == Some(key) <==> At(kind, key) in t && t[At(kind, key)] == id
  {
    if At(kind, key) in t && t[At(kind, key)] == id {
      var k := Looked(t, kind, id).value;
      assert At(kind, k) in t && t[At(kind, k)] == id;
    }
  }

  /** An id of one kind names nothing of another. */
  lemma LookupPerKind(t: Table, a: IdKind, b: IdKind, id: Id)
    requires Injective(t) && Looked(t, a, id).Some? && Looked(t, b, id).Some?
    ensures a == b
  {
    var k, l := Looked(t, a, id).value, Looked(t, b, id).value;
    assert At(a, k) == At(b, l);
    ParseAsStr(AsStr(a), a);
    ParseAsStr(AsStr(b), b);
  }

  // ---------------------------------------------------------------------------------------------
  // The accessors
  // ---------------------------------------------------------------------------------------------

  const LOOKUP_CHUNK: nat := 500

  /** `resolved` holds exactly the keys among `keys` that the table knows, under their ids. */
  ghost predicate Found(t: Table, kind: IdKind, keys: seq<Key>, resolved: map<Key, Id>) {
    && (forall k :: k in resolved <==> k in keys && At(kind, k) in t)
    && (forall k :: k in resolved ==> resolved[k] == t[At(kind, k)])
  }

  class AbsIds {
    var table: Table

    constructor ()
      ensures table == map[]
    {
      table := map[];
    }

    /** The query by kind and key: a search of the rows, answering the one row that matches. */
    method Find(kind: IdKind, key: Key) returns (id: Option<Id>)
      ensures id.None? <==> forall e :: e in table ==> !(e.kind == AsStr(kind) && e.key == key)
      ensures forall x :: id == Some(x) <==> exists e :: e in table && e.kind == AsStr(kind) && e.key == key && table[e] == x
    {
      id := None;
      var left := table.Keys;
      while left != {}
        invariant left <= table.Keys
        invariant forall e :: e in table && e !in left ==> e != At(kind, key)
      {
        var e :| e in left;
        if e.kind == AsStr(kind) && e.key == key {
          assert e == At(kind, key);
          return Some(table[e]);
        }
        left := left - {e};
      }
      assert forall e :: e in table && e.kind == AsStr(kind) && e.key == key ==> e == At(kind, key);
    }

    /** Insert, doing nothing for a key that is there; an id that is there already is an error. */
    method Insert(kind: IdKind, key: Key, draw: Id) returns (ok: bool)
      modifies this
      ensures ok <==> At(kind, key) in old(table) || !Taken(old(table), draw)
      ensures table == if ok then One(old(table), kind, key, draw) else old(table)
    {
      ok := true;
      if At(kind, key) !in table {
        if draw in table.Values {
          ok := false;
        } else {
          assert forall e :: e in table ==> table[e] in table.Values;
          table := table[At(kind, key) := draw];
        }
      }
    }

    method Resolve(kind: IdKind, key: Key, draw: Id) returns (id: Result<Id>)
      modifies this
      ensures id.Ok? <==> At(kind, key) in old(table) || !Taken(old(table), draw)
      ensures table == if id.Ok? then One(old(table), kind, key, draw) else old(table)
      ensures id.Ok? ==> At(kind, key) in table && id.value == table[At(kind, key)]
    {
      var found := Find(kind, key);
      if found.Some? { return Ok(found.value); }
      var ok := Insert(kind, key, draw);
      if !ok { return Err; }
      found := Find(kind, key);
      id := if found.Some? then Ok(found.value) else Err;
    }

    method Lookup(kind: IdKind, id: Id) returns (key: Option<Key>)
      requires Injective(table)
      ensures key == Looked(table, kind, id)
    {
      key := None;
      var left := table.Keys;
      while left != {}
        invariant left <= table.Keys
        invariant forall e :: e in table && e !in left ==> !(e.kind == AsStr(kind) && table[e] == id)
      {
        var e :| e in left;
        if e.kind == AsStr(kind) && table[e] == id {
          assert e == At(kind, e.key);
          LookupInverts(table, kind, e.key, id);
          return Some(e.key);
        }
        left := left - {e};
      }
    }

    method CollectExisting(kind: IdKind, chunk: seq<Key>, resolved: map<Key, Id>) returns (r: map<Key, Id>)
      ensures forall k :: k in r <==> k in resolved || (k in chunk && At(kind, k) in table)
      ensures forall k :: k in r ==> r[k] == if k in chunk && At(kind, k) in table then table[At(kind, k)] else resolved[k]
    {
      r := resolved;
      for i := 0 to |chunk|
        invariant forall k :: k in r <==> k in resolved || (k in chunk[..i] && At(kind, k) in table)
        invariant forall k :: k in r ==> r[k] == if k in chunk[..i] && At(kind, k) in table then table[At(kind, k)] else resolved[k]
      {
        assert chunk[..i + 1] == chunk[..i] + [chunk[i]];
        if At(kind, chunk[i]) in table { r := r[chunk[i] := table[At(kind, chunk[i])]]; }
      }
      assert chunk[..|chunk|] == chunk;
    }

    /** The chunked query: as one query over all keys. */
    method CollectChunked(kind: IdKind, keys: seq<Key>, resolved: map<Key, Id>) returns (r: map<Key, Id>)
      ensures forall k :: k in r <==> k in resolved || (k in keys && At(kind, k) in table)
      ensures forall k :: k in r ==> r[k] == if k in keys && At(kind, k) in table then table[At(kind, k)] else resolved[k]
    {
      r := resolved;
      var i := 0;
      while i < |keys|
        invariant i <= |keys|
        invariant forall k :: k in r <==> k in resolved || (k in keys[..i] && At(kind, k) in table)
        invariant forall k :: k in r ==> r[k] == if k in keys[..i] && At(kind, k) in table then table[At(kind, k)] else resolved[k]
      {
        var j := Min(i + LOOKUP_CHUNK, |keys|);
        assert keys[..j] == keys[..i] + keys[i..j];
        r := CollectExisting(kind, keys[i..j], r);
        i := j;
      }
      assert keys[..i] == keys;
    }

    /** The bulk resolve answers exactly the requested keys, each with the id that resolving the keys
        one at a time with the same draws would give, and leaves the table that would leave. */
    method ResolveMany(kind: IdKind, keys: seq<Key>, draws: seq<Id>) returns (r: Result<map<Key, Id>>)
      requires |draws| == |keys|
      modifies this
      ensures Extends(old(table), table)
      ensures Injective(old(table)) ==> Injective(table)
      ensures Fresh(old(table), draws) ==> r.Ok?
      ensures r.Ok? ==> table == Each(old(table), kind, keys, draws) && Found(table, kind, keys, r.value) && forall k :: k in keys ==> k in r.value
    {
      var resolved: map<Key, Id> := map[];
      if keys == [] { return Ok(resolved); }
      resolved := CollectChunked(kind, keys, resolved);
      var missing, chosen := Missing(table, kind, keys, draws, resolved);
      UnansweredExactly(table, kind, keys);
      BulkIsEach(table, kind, keys, draws);
      if missing == [] { return Ok(resolved); }
      var ok := InsertAll(kind, missing, chosen);
      if !ok {
        FreshChosen(old(table), kind, keys, draws);
        return Err;
      }
      resolved := CollectChunked(kind, missing, resolved);
      return Ok(resolved);
    }

    /** The inserts of a bulk resolve; a collision stops them half-way. */
    method InsertAll(kind: IdKind, missing: seq<Key>, chosen: seq<Id>) returns (ok: bool)
      requires |chosen| == |missing|
      modifies this
      ensures Extends(old(table), table)
      ensures Injective(old(table)) ==> Injective(table)
      ensures Fresh(old(table), chosen) ==> ok
      ensures ok ==> table == Each(old(table), kind, missing, chosen)
      ensures ok ==> forall e :: e in table <==> e in old(table) || (e.kind == AsStr(kind) && e.key in missing)
    {
      for i := 0 to |missing|
        invariant table == Each(old(table), kind, missing[..i], chosen[..i])
        invariant Injective(old(table)) ==> Injective(table)
      {
        assert missing[..i + 1][..i] == missing[..i] && chosen[..i + 1][..i] == chosen[..i];
        EachAdds(old(table), kind, missing[..i], chosen[..i]);
        ok := Insert(kind, missing[i], chosen[i]);
        if !ok { return; }
      }
      assert missing[..|missing|] == missing && chosen[..|missing|] == chosen;
      EachAdds(old(table), kind, missing, chosen);
      ok := true;
    }
  }

  /** The keys without an answer, in order and with repetitions, and the ids drawn for them. */
  function Unanswered(t: Table, kind: IdKind, keys: seq<Key>): seq<Key> {
    if keys == [] then []
    else Unanswered(t, kind, keys[..|keys| - 1]) + if At(kind, keys[|keys| - 1]) in t then [] else [keys[|keys| - 1]]
  }

  function Chosen(t: Table, kind: IdKind, keys: seq<Key>, draws: seq<Id>): (r: seq<Id>)
    requires |draws| == |keys|
    ensures |r| == |Unanswered(t, kind, keys)|
  {
    if keys == [] then []
    else
      Chosen(t, kind, keys[..|keys| - 1], draws[..|keys| - 1]) + if At(kind, keys[|keys| - 1]) in t then [] else [draws[|keys| - 1]]
  }

  lemma {:induction false} BulkIsEach(t: Table, kind: IdKind, keys: seq<Key>, draws: seq<Id>)
    requires |draws| == |keys|
    ensures Each(t, kind, Unanswered(t, kind, keys), Chosen(t, kind, keys, draws)) == Each(t, kind, keys, draws)
  {
    if keys != [] {
      var n := |keys| - 1;
      BulkIsEach(t, kind, keys[..n], draws[..n]);
      EachAdds(t, kind, keys[..n], draws[..n]);
      var un, ch := Unanswered(t, kind, keys), Chosen(t, kind, keys, draws);
      if At(kind, keys[n]) in t {
        assert un == Unanswered(t, kind, keys[..n]) && ch == Chosen(t, kind, keys[..n], draws[..n]);
      } else {
        assert un[..|un| - 1] == Unanswered(t, kind, keys[..n]) && ch[..|ch| - 1] == Chosen(t, kind, keys[..n], draws[..n]);
      }
    }
  }

  method Missing(ghost t: Table, kind: IdKind, keys: seq<Key>, draws: seq<Id>, resolved: map<Key, Id>)
    returns (missing: seq<Key>, chosen: seq<Id>)
    requires |draws| == |keys| && Found(t, kind, keys, resolved)
    ensures missing == Unanswered(t, kind, keys) && chosen == Chosen(t, kind, keys, draws)
  {
    missing, chosen := [], [];
    for i := 0 to |keys|
      invariant missing == Unanswered(t, kind, keys[..i]) && chosen == Chosen(t, kind, keys[..i], draws[..i])
    {
      assert keys[..i + 1][..i] == keys[..i] && draws[..i + 1][..i] == draws[..i];
      if keys[i] !in resolved { missing, chosen := missing + [keys[i]], chosen + [draws[i]]; }
    }
    assert keys[..|keys|] == keys && draws[..|keys|] == draws;
  }

  lemma {:induction false} UnansweredExactly(t: Table, kind: IdKind, keys: seq<Key>)
    ensures forall k :: k in Unanswered(t, kind, keys) <==> k in keys && At(kind, k) !in t
  {
    if keys != [] {
      var n := |keys| - 1;
      UnansweredExactly(t, kind, keys[..n]);
      assert keys == keys[..n] + [keys[n]];
    }
  }

  lemma {:induction false} ChosenFrom(t: Table, kind: IdKind, keys: seq<Key>, draws: seq<Id>)
    requires |draws| == |keys|
    ensures forall id :: id in Chosen(t, kind, keys, draws) ==> id in draws
  {
    if keys != [] {
      var n := |keys| - 1;
      ChosenFrom(t, kind, keys[..n], draws[..n]);
      assert draws == draws[..n] + [draws[n]];
    }
  }

  /** Fresh draws are fresh for the missing keys. */
  lemma {:induction false} FreshChosen(t: Table, kind: IdKind, keys: seq<Key>, draws: seq<Id>)
    requires |draws| == |keys|
    ensures Fresh(t, draws) ==> Fresh(t, Chosen(t, kind, keys, draws))
  {
    if keys != [] && Fresh(t, draws) {
      var n := |keys| - 1;
      var past := Chosen(t, kind, keys[..n], draws[..n]);
      FreshChosen(t, kind, keys[..n], draws[..n]);
      ChosenFrom(t, kind, keys[..n], draws[..n]);
      assert draws[n] !in draws[..n];
      forall i | 0 <= i < |past| ensures past[i] != draws[n] { assert past[i] in past; }
    }
  }
}
