/** Sequences cut at a separator, and the two ways the delivery service glues fields together. */
module Separated {

  /** The pieces between separators, empty ones included; there is always at least one. */
  function Split<T(==)>(s: seq<T>, sep: T): (pieces: seq<seq<T>>)
    ensures |pieces| >= 1
  {
    if s == [] then [[]]
    else
      var rest := Split(s[1..], sep);
      if s[0] == sep then [[]] + rest else [[s[0]] + rest[0]] + rest[1..]
  }

  /** Pieces with separators in between. */
  function Join<T>(pieces: seq<seq<T>>, sep: T): seq<T> {
    if pieces == [] then []
    else if |pieces| == 1 then pieces[0]
    else pieces[0] + [sep] + Join(pieces[1..], sep)
  }

  /** Pieces each followed by a separator. */
  function Terminated<T>(pieces: seq<seq<T>>, sep: T): seq<T> {
    if pieces == [] then [] else pieces[0] + [sep] + Terminated(pieces[1..], sep)
  }

  ghost predicate Free<T>(pieces: seq<seq<T>>, sep: T) {
    forall i :: 0 <= i < |pieces| ==> sep !in pieces[i]
  }

  lemma {:induction false} SplitFirst<T>(first: seq<T>, rest: seq<T>, sep: T)
    requires sep !in first
    ensures Split(first + [sep] + rest, sep) == [first] + Split(rest, sep)
  {
    var whole := first + [sep] + rest;
    if first == [] {
      assert whole[1..] == rest;
    } else {
      assert whole[1..] == first[1..] + [sep] + rest;
      SplitFirst(first[1..], rest, sep);
      assert [first[0]] + first[1..] == first;
    }
  }

  lemma {:induction false} SplitWhole<T>(s: seq<T>, sep: T)
    requires sep !in s
    ensures Split(s, sep) == [s]
  {
    if s != [] {
      SplitWhole(s[1..], sep);
      assert [s[0]] + s[1..] == s;
    }
  }

  /** Splitting undoes joining. */
  lemma {:induction false} SplitJoin<T>(pieces: seq<seq<T>>, sep: T)
    requires pieces != [] && Free(pieces, sep)
    ensures Split(Join(pieces, sep), sep) == pieces
  {
    if |pieces| == 1 {
      SplitWhole(pieces[0], sep);
    } else {
      SplitJoin(pieces[1..], sep);
      SplitFirst(pieces[0], Join(pieces[1..], sep), sep);
    }
  }

  lemma {:induction false} SplitTerminated<T>(pieces: seq<seq<T>>, sep: T)
    requires Free(pieces, sep)
    ensures Split(Terminated(pieces, sep), sep) == pieces + [[]]
  {
    if pieces != [] {
      SplitTerminated(pieces[1..], sep);
      SplitFirst(pieces[0], Terminated(pieces[1..], sep), sep);
    }
  }

  /** No piece holds the separator, and a piece holds nothing the whole does not. */
  lemma {:induction false} SplitParts<T>(s: seq<T>, sep: T)
    ensures Free(Split(s, sep), sep)
    ensures forall i, x :: 0 <= i < |Split(s, sep)| && x in Split(s, sep)[i] ==> x in s
  {
    if s != [] {
      SplitParts(s[1..], sep);
      var rest := Split(s[1..], sep);
      assert forall x :: x in s[1..] ==> x in s;
      if s[0] == sep {
        assert Split(s, sep) == [[]] + rest;
      } else {
        assert Split(s, sep) == [[s[0]] + rest[0]] + rest[1..];
      }
    }
  }

  /** `s[a..b]` is a stretch between two separators, or between a separator and an end. */
  predicate IsPiece<T(==)>(s: seq<T>, sep: T, a: int, b: int) {
    0 <= a <= b <= |s| && sep !in s[a..b] && (a == 0 || s[a - 1] == sep) && (b == |s| || s[b] == sep)
  }

  lemma Shifted<T>(s: seq<T>, a: int, b: int)
    requires 1 <= a <= b <= |s|
    ensures s[a..b] == s[1..][a - 1..b - 1]
  {
    assert forall i :: 0 <= i < b - a ==> s[a..b][i] == s[a + i] == s[1..][a - 1..b - 1][i];
  }

  lemma FrontIn<T>(s: seq<T>, b: int)
    requires 0 < b <= |s|
    ensures s[0] in s[0..b]
  {
    assert s[0..b][0] == s[0];
  }

  /** Splitting misses no stretch. */
  lemma {:induction false} PieceListed<T>(s: seq<T>, sep: T, a: int, b: int)
    requires IsPiece(s, sep, a, b)
    ensures if a == 0 then s[a..b] == Split(s, sep)[0] else s[a..b] in Split(s, sep)[1..]
  {
    if b > 0 { FrontIn(s, b); }
    if s != [] {
      var rest := Split(s[1..], sep);
      if a > 0 {
        Shifted(s, a, b);
        PieceListed(s[1..], sep, a - 1, b - 1);
        if s[0] == sep { assert Split(s, sep)[1..] == rest; } else { assert Split(s, sep)[1..] == rest[1..]; }
      } else if s[0] != sep {
        assert s[..b] == [s[0]] + s[1..][0..b - 1];
        PieceListed(s[1..], sep, 0, b - 1);
      }
    }
  }

  /** Splitting yields nothing but such stretches. */
  lemma {:induction false} PieceFound<T>(s: seq<T>, sep: T, i: nat) returns (a: int, b: int)
    requires i < |Split(s, sep)|
    ensures IsPiece(s, sep, a, b) && s[a..b] == Split(s, sep)[i] && (i == 0 <==> a == 0)
  {
    a, b := 0, 0;
    if s != [] {
      var rest := Split(s[1..], sep);
      if s[0] == sep {
        if i > 0 {
          a, b := PieceFound(s[1..], sep, i - 1);
          Shifted(s, a + 1, b + 1);
          a, b := a + 1, b + 1;
        }
      } else {
        a, b := PieceFound(s[1..], sep, i);
        Shifted(s, a + 1, b + 1);
        if i == 0 {
          b := b + 1;
          assert s[a..b] == [s[0]] + s[1..][..b - 1];
        } else {
          a, b := a + 1, b + 1;
        }
      }
    }
  }
}
