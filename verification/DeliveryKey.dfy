/** What the idempotency key of a delivery is a digest of. */
module DeliveryKey {
  import opened Separated

  type Byte = b: int | 0 <= b < 256

  type Bytes = seq<Byte>

  const HEADER: Bytes :=
    [115, 116, 117, 109, 112, 45, 99, 114, 111, 115, 115, 112, 111, 105, 110, 116, 45,
     100, 101, 108, 105, 118, 101, 114, 121, 45, 118, 49, 0]

  /** User, device, media, source hash, profile digest, destination path: a version header, then each
      field followed by a zero byte. */
  function Preimage(fields: seq<Bytes>): Bytes { HEADER + Terminated(fields, 0) }

  function Fields(preimage: Bytes): seq<Bytes>
    requires |HEADER| <= |preimage|
  {
    var pieces := Split(preimage[|HEADER|..], 0);
    pieces[..|pieces| - 1]
  }

  ghost predicate ZeroFree(fields: seq<Bytes>) { Free(fields, 0) }

  /** The fields can be read back from the digested bytes, so two zero-free tuples (of any length)
      with one preimage are one tuple. */
  lemma PreimageReadable(fields: seq<Bytes>)
    requires ZeroFree(fields)
    ensures Fields(Preimage(fields)) == fields
  {
    SplitTerminated(fields, 0);
    assert Preimage(fields)[|HEADER|..] == Terminated(fields, 0);
  }

  /** What is digested starts with the version text and a zero byte. */
  lemma PreimagePrefix(fields: seq<Bytes>)
    ensures var text := "stump-crosspoint-delivery-v1"; var bytes := Preimage(fields);
            && |text| < |bytes| && bytes[|text|] == 0
            && forall i :: 0 <= i < |text| ==> bytes[i] == text[i] as int
  {
    var text := "stump-crosspoint-delivery-v1";
    assert |text| == 28 && |HEADER| == 29;
    assert forall i :: 0 <= i < 28 ==> HEADER[i] == text[i] as int;
    assert forall i :: 0 <= i < 29 ==> Preimage(fields)[i] == HEADER[i];
  }

  ghost predicate Ambiguous(fields: seq<Bytes>) {
    exists other: seq<Bytes> :: |other| == |fields| && other != fields && Preimage(other) == Preimage(fields)
  }

  lemma {:induction false} TerminatedSplice(before: seq<Bytes>, middle: seq<Bytes>, after: seq<Bytes>)
    ensures Terminated(before + middle + after, 0)
         == Terminated(before, 0) + Terminated(middle, 0) + Terminated(after, 0)
  {
    if before != [] {
      assert (before + middle + after)[1..] == before[1..] + middle + after;
      TerminatedSplice(before[1..], middle, after);
    } else if middle != [] {
      assert before + middle + after == middle + after;
      assert (middle + after)[1..] == [] + middle[1..] + after;
      TerminatedSplice([], middle[1..], after);
    } else {
      assert before + middle + after == after;
    }
  }

  /** A zero byte inside one of two neighbouring fields can be taken for the end of the first. */
  lemma Reslice(u: Bytes, v: Bytes) returns (a: Bytes, b: Bytes)
    requires 0 in u || 0 in v
    ensures (a != u || b != v) && Terminated([a, b], 0) == Terminated([u, v], 0)
  {
    if 0 in u {
      var k :| 0 <= k < |u| && u[k] == 0;
      a, b := u[..k], u[k + 1..] + [0] + v;
      assert u == a + [0] + u[k + 1..];
      TwoFields(a, b);
      TwoFields(u, v);
      assert |a| < |u|;
    } else {
      var k :| 0 <= k < |v| && v[k] == 0;
      a, b := u + [0] + v[..k], v[k + 1..];
      assert v == v[..k] + [0] + b;
      TwoFields(a, b);
      TwoFields(u, v);
      assert |b| < |v|;
    }
  }

  lemma TwoFields(a: Bytes, b: Bytes)
    ensures Terminated([a, b], 0) == a + [0] + b + [0]
  {
    assert [a, b][1..] == [b];
    assert Terminated([b], 0) == b + [0] + Terminated([b][1..], 0);
  }

  /** For tuples of at least two fields: the key preimage is shared with another tuple of the same
      length exactly when some field contains a zero byte. */
  lemma AmbiguousExactly(fields: seq<Bytes>)
    requires |fields| >= 2
    ensures Ambiguous(fields) <==> !ZeroFree(fields)
  {
    if ZeroFree(fields) {
      forall other: seq<Bytes> | |other| == |fields| && Preimage(other) == Preimage(fields)
        ensures other == fields
      {
        SameLengthSame(fields, other);
      }
    } else {
      var j :| 0 <= j < |fields| && 0 in fields[j];
      var i := if j == |fields| - 1 then j - 1 else j;
      var other := Resliced(fields, i);
    }
  }

  lemma Resliced(fields: seq<Bytes>, i: nat) returns (other: seq<Bytes>)
    requires i + 1 < |fields| && (0 in fields[i] || 0 in fields[i + 1])
    ensures |other| == |fields| && other != fields && Preimage(other) == Preimage(fields)
  {
    var u, v := fields[i], fields[i + 1];
    var a, b := Reslice(u, v);
    var before, after := fields[..i], fields[i + 2..];
    other := before + [a, b] + after;
    assert fields == before + [u, v] + after;
    TerminatedSplice(before, [a, b], after);
    TerminatedSplice(before, [u, v], after);
    assert other[i] == a && other[i + 1] == b;
  }

  function Zeros(s: Bytes): nat {
    if s == [] then 0 else (if s[0] == 0 then 1 else 0) + Zeros(s[1..])
  }

  lemma {:induction false} ZerosConcat(s: Bytes, t: Bytes)
    ensures Zeros(s + t) == Zeros(s) + Zeros(t)
  {
    if s == [] {
      assert s + t == t;
    } else {
      assert (s + t)[1..] == s[1..] + t;
      ZerosConcat(s[1..], t);
    }
  }

  lemma {:induction false} ZeroFreeZeros(s: Bytes)
    ensures 0 in s <==> Zeros(s) > 0
  {
    if s != [] {
      ZeroFreeZeros(s[1..]);
    }
  }

  /** A tuple has one zero byte per field, plus those inside fields. */
  lemma {:induction false} TerminatedZeros(fields: seq<Bytes>)
    ensures Zeros(Terminated(fields, 0)) >= |fields|
    ensures Zeros(Terminated(fields, 0)) == |fields| <==> ZeroFree(fields)
  {
    if fields != [] {
      TerminatedZeros(fields[1..]);
      var rest := Terminated(fields[1..], 0);
      ZerosConcat(fields[0] + [0], rest);
      ZerosConcat(fields[0], [0]);
      ZeroFreeZeros(fields[0]);
      assert ZeroFree(fields) <==> 0 !in fields[0] && ZeroFree(fields[1..]) by {
        assert fields == [fields[0]] + fields[1..];
      }
    }
  }

  lemma SameLengthSame(fields: seq<Bytes>, other: seq<Bytes>)
    requires ZeroFree(fields) && |other| == |fields| && Preimage(other) == Preimage(fields)
    ensures other == fields
  {
    assert Preimage(other)[|HEADER|..] == Terminated(other, 0);
    assert Preimage(fields)[|HEADER|..] == Terminated(fields, 0);
    TerminatedZeros(fields);
    TerminatedZeros(other);
    PreimageReadable(fields);
    PreimageReadable(other);
  }
}
