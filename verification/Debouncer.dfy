/**
  The per-user debounce deadlines behind annotation exports: activity arms a deadline, further activity
  pushes it out, and a periodic drain takes the users whose deadline has passed.
 */
module Debouncer {

  import opened Common

  /** User ids in their sort order. */
  type User = nat
  type Time = int

  type Deadlines = map<User, Time>

  function DueUsers(deadlines: Deadlines, now: Time): set<User> { set u | u in deadlines && deadlines[u] <= now }

  ghost predicate Ascending(users: seq<User>) {
    forall i, j :: 0 <= i < j < |users| ==> users[i] < users[j]
  }

  function Elements(users: seq<User>): set<User> { set u | u in users }

  class AnnotationSyncDebouncer {
    var deadlines: Deadlines
    const delay: nat

    constructor (secs: nat)
      ensures deadlines == map[] && delay == secs
    {
      deadlines := map[];
      delay := secs;
    }

    method NoteAt(user: User, now: Time)
      modifies this
      ensures deadlines == old(deadlines)[user := now + delay]
    {
      deadlines := deadlines[user := now + delay];
    }

    /** Removes and returns the users whose deadline has passed: each once, in order, and no others. */
    method TakeDue(now: Time) returns (due: seq<User>)
      modifies this
      ensures Ascending(due)
      ensures Elements(due) == DueUsers(old(deadlines), now)
      ensures deadlines == old(deadlines) - Elements(due)
    {
      due := [];
      var left := deadlines.Keys;
      while left != {}
        invariant left <= deadlines.Keys && deadlines == old(deadlines)
        invariant Elements(due) == DueUsers(deadlines, now) - left && Distinct(due)
      {
        var u :| u in left;
        left := left - {u};
        if deadlines[u] <= now {
          assert u !in Elements(due) && Elements(due + [u]) == Elements(due) + {u};
          DistinctSnoc(due, u);
          due := due + [u];
        }
      }
      for i := 0 to |due|
        invariant deadlines == old(deadlines) - Elements(due[..i])
      {
        assert due[..i + 1] == due[..i] + [due[i]];
        deadlines := deadlines - {due[i]};
      }
      assert due[..|due|] == due;
      due := Sort(due);
    }

    predicate IsPending(user: User)
      reads this
    {
      user in deadlines
    }
  }

  method Sort(users: seq<User>) returns (sorted: seq<User>)
    requires Distinct(users)
    ensures Ascending(sorted) && Elements(sorted) == Elements(users)
  {
    sorted := [];
    for i := 0 to |users|
      invariant Ascending(sorted) && Elements(sorted) == Elements(users[..i])
    {
      assert users[..i + 1] == users[..i] + [users[i]];
      assert users[i] !in Elements(users[..i]);
      sorted := Insert(sorted, users[i]);
    }
    assert users[..|users|] == users;
  }

  method Insert(sorted: seq<User>, user: User) returns (r: seq<User>)
    requires Ascending(sorted) && user !in Elements(sorted)
    ensures Ascending(r) && Elements(r) == Elements(sorted) + {user}
  {
    var k := 0;
    while k < |sorted| && sorted[k] < user
      invariant k <= |sorted| && forall n :: 0 <= n < k ==> sorted[n] < user
    {
      k := k + 1;
    }
    r := sorted[..k] + [user] + sorted[k..];
    assert k < |sorted| ==> sorted[k] in Elements(sorted);
    forall u ensures u in r <==> u in sorted || u == user {
      assert sorted == sorted[..k] + sorted[k..];
    }
  }

  // ---------------------------------------------------------------------------------------------
  // Traces
  // ---------------------------------------------------------------------------------------------

  datatype Event = Note(user: User, at: Time) | Take(at: Time)

  /** The deadlines after a trace of notes and drains. */
  function After(delay: nat, trace: seq<Event>): Deadlines {
    if trace == [] then map[]
    else
      var before := After(delay, trace[..|trace| - 1]);
      match trace[|trace| - 1]
      case Note(user, at) => before[user := at + delay]
      case Take(at) => before - DueUsers(before, at)
  }

  /** The users drained by the event at index `n`. */
  function Drained(delay: nat, trace: seq<Event>, n: nat): set<User>
    requires n < |trace|
  {
    match trace[n]
    case Note(_, _) => {}
    case Take(at) => DueUsers(After(delay, trace[..n]), at)
  }

  /** Event `i` is the latest note of `user`, and no drain since came late enough to take it. */
  predicate Armed(delay: nat, trace: seq<Event>, user: User, i: int) {
    && 0 <= i < |trace| && trace[i].Note? && trace[i].user == user
    && forall j :: i < j < |trace| ==> if trace[j].Note? then trace[j].user != user else trace[j].at < trace[i].at + delay
  }

  /** The deadlines hold exactly the armed notes. */
  lemma {:induction false} PendingExactly(delay: nat, trace: seq<Event>, user: User)
    ensures user in After(delay, trace) <==> exists i :: Armed(delay, trace, user, i)
    ensures forall i :: Armed(delay, trace, user, i) ==> user in After(delay, trace) && After(delay, trace)[user] == trace[i].at + delay
  {
    if trace != [] {
      var n := |trace| - 1;
      var past := trace[..n];
      PendingExactly(delay, past, user);
      assert forall i :: 0 <= i < n ==> past[i] == trace[i];
      if trace[n].Note? && trace[n].user == user {
        assert Armed(delay, trace, user, n);
      } else {
        assert forall i :: Armed(delay, trace, user, i) ==> Armed(delay, past, user, i);
        if user in After(delay, trace) {
          var i :| Armed(delay, past, user, i);
          assert Armed(delay, trace, user, i);
        }
      }
    }
  }

  /** A user is drained at `n` exactly when their latest note is at least the delay old and no earlier
      drain has taken it; no reference is made to the deadlines. */
  lemma DrainedExactly(delay: nat, trace: seq<Event>, n: nat, user: User)
    requires n < |trace| && trace[n].Take?
    ensures user in Drained(delay, trace, n)
       <==> exists i :: Armed(delay, trace[..n], user, i) && trace[i].at + delay <= trace[n].at
  {
    var past := trace[..n];
    PendingExactly(delay, past, user);
    assert forall i :: 0 <= i < n ==> past[i] == trace[i];
    if user in After(delay, past) {
      var i :| Armed(delay, past, user, i);
      if user in Drained(delay, trace, n) {
        assert Armed(delay, trace[..n], user, i) && trace[i].at + delay <= trace[n].at;
      }
    }
  }

  ghost predicate Ordered(trace: seq<Event>) {
    forall i, j :: 0 <= i < j < |trace| ==> trace[i].at <= trace[j].at
  }

  /** Time being ordered, a drained user has been quiet for the whole delay. */
  lemma DrainedQuiet(delay: nat, trace: seq<Event>, n: nat, user: User, j: nat)
    requires Ordered(trace) && n < |trace| && user in Drained(delay, trace, n)
    requires j < n && trace[j].Note? && trace[j].user == user
    ensures trace[j].at + delay <= trace[n].at
  {
    DrainedExactly(delay, trace, n, user);
    var i :| Armed(delay, trace[..n], user, i) && trace[i].at + delay <= trace[n].at;
    assert trace[..n][j] == trace[j] && trace[..n][i] == trace[i];
    assert j <= i;
  }

  function Notes(trace: seq<Event>, user: User): nat {
    if trace == [] then 0
    else
      var last := trace[|trace| - 1];
      Notes(trace[..|trace| - 1], user) + if last.Note? && last.user == user then 1 else 0
  }

  function Drains(delay: nat, trace: seq<Event>, user: User): nat {
    if trace == [] then 0
    else
      Drains(delay, trace[..|trace| - 1], user) + if user in Drained(delay, trace, |trace| - 1) then 1 else 0
  }

  /** Every drain of a user answers a note of its own; one more note is unanswered while a deadline is
      pending, and a user with notes has been drained or is pending. */
  lemma {:induction false} DrainsAnswerNotes(delay: nat, trace: seq<Event>, user: User)
    ensures Drains(delay, trace, user) + (if user in After(delay, trace) then 1 else 0) <= Notes(trace, user)
    ensures Notes(trace, user) > 0 ==> user in After(delay, trace) || Drains(delay, trace, user) > 0
  {
    if trace != [] {
      DrainsAnswerNotes(delay, trace[..|trace| - 1], user);
    }
  }
}
