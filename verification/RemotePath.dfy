/** Remote paths on a CrossPoint device: parsing, printing, and composing with the target's root. */
module RemotePath {
  import opened Separated

  datatype PathError = ForbiddenCharacter | UnsafeComponent

  datatype Parsed = Ok(components: seq<string>) | Err(error: PathError)

  datatype Composed = Path(path: string) | Bad(error: PathError)

  /** `char::is_control`: the Unicode category Cc. */
  predicate IsControl(c: char) { c as int < 0x20 || 0x7f <= c as int < 0xa0 }

  predicate Forbidden(path: string) {
    exists i :: 0 <= i < |path| && (path[i] == '\\' || IsControl(path[i]))
  }

  /** The first check of `validate_single_component`. */
  predicate Unsafe(component: string) {
    component == "" || component == "." || component == ".." || ':' in component
  }

  /** What every parsed component satisfies. */
  predicate Component(c: string) { !Unsafe(c) && !Forbidden(c) && '/' !in c }

  ghost predicate Components(cs: seq<string>) {
    forall i :: 0 <= i < |cs| ==> Component(cs[i])
  }

  function NonEmpty(pieces: seq<string>): seq<string> {
    if pieces == [] then []
    else (if pieces[0] == "" then [] else [pieces[0]]) + NonEmpty(pieces[1..])
  }

  predicate HasUnsafe(pieces: seq<string>) {
    exists i :: 0 <= i < |pieces| && pieces[i] != "" && Unsafe(pieces[i])
  }

  function Parse(path: string): Parsed {
    if Forbidden(path) then Err(ForbiddenCharacter)
    else if HasUnsafe(Split(path, '/')) then Err(UnsafeComponent)
    else Ok(NonEmpty(Split(path, '/')))
  }

  function Print(cs: seq<string>): string {
    if cs == [] then "/" else "/" + Join(cs, '/')
  }

  function Compose(root: string, destination: string): Composed {
    match Parse(root)
    case Err(e) => Bad(e)
    case Ok(rootParts) =>
      match Parse(destination)
      case Err(e) => Bad(e)
      case Ok(parts) => Path(Print(Under(rootParts, parts)))
  }

  /** A destination already below the root is kept; any other is put below it. */
  function Under(root: seq<string>, parts: seq<string>): seq<string> {
    if root <= parts then parts else root + parts
  }

  /** `remote_components`: one pass over the pieces, pushing the non-empty ones. */
  method RemoteComponents(path: string) returns (r: Parsed)
    ensures r == Parse(path)
  {
    hide Split, Forbidden, Unsafe, NonEmpty;
    if Forbidden(path) {
      return Err(ForbiddenCharacter);
    }
    var pieces := Split(path, '/');
    var components := [];
    var i := 0;
    assert pieces[0..] == pieces;
    while i < |pieces|
      invariant 0 <= i <= |pieces|
      invariant components + NonEmpty(pieces[i..]) == NonEmpty(pieces)
      invariant !HasUnsafe(pieces[..i])
    {
      NonEmptyStep(pieces, i);
      if pieces[i] != "" {
        if Unsafe(pieces[i]) {
          return Err(UnsafeComponent);
        }
        components := components + [pieces[i]];
      }
      i := i + 1;
    }
    assert pieces[..i] == pieces;
    NonEmptyEnd(pieces[i..]);
    return Ok(components);
  }

  lemma NonEmptyStep(pieces: seq<string>, i: nat)
    requires i < |pieces|
    ensures NonEmpty(pieces[i..]) == (if pieces[i] == "" then [] else [pieces[i]]) + NonEmpty(pieces[i + 1..])
  {
    assert pieces[i..][1..] == pieces[i + 1..];
  }

  lemma NonEmptyEnd(pieces: seq<string>)
    requires pieces == []
    ensures NonEmpty(pieces) == []
  {
  }

  // ---------------------------------------------------------------------------------------------
  // Parsing and printing
  // ---------------------------------------------------------------------------------------------

  lemma {:induction false} NonEmptyParts(pieces: seq<string>)
    ensures forall c :: c in NonEmpty(pieces) <==> c in pieces && c != ""
  {
    if pieces != [] {
      NonEmptyParts(pieces[1..]);
    }
  }

  lemma {:induction false} NonEmptyIdentity(pieces: seq<string>)
    requires forall i :: 0 <= i < |pieces| ==> pieces[i] != ""
    ensures NonEmpty(pieces) == pieces
  {
    if pieces != [] {
      NonEmptyIdentity(pieces[1..]);
    }
  }

  lemma ParsedSafe(path: string)
    requires Parse(path).Ok?
    ensures Components(Parse(path).components)
  {
    var pieces := Split(path, '/');
    SplitParts(path, '/');
    NonEmptyParts(pieces);
    forall c | c in NonEmpty(pieces) ensures Component(c) {
      var i :| 0 <= i < |pieces| && pieces[i] == c;
      assert forall k :: 0 <= k < |c| ==> c[k] in path;
    }
  }

  /** A character no component may hold: a separator of either kind, a colon, a control character. */
  predicate Plain(c: char) {
    c != '/' && c != '\\' && c != ':' && 0x20 <= c as int && !(0x7f <= c as int <= 0x9f)
  }

  /** Every component of an accepted path is non-empty, no dot entry and made of plain characters; and the
      components are the non-empty stretches between slashes. */
  lemma ParsedComponents(path: string, c: string)
    requires Parse(path).Ok?
    ensures c in Parse(path).components ==> c != "" && c != "." && c != ".." && forall i :: 0 <= i < |c| ==> Plain(c[i])
    ensures c in Parse(path).components <==> c != "" && exists a, b :: IsPiece(path, '/', a, b) && path[a..b] == c
  {
    var pieces := Split(path, '/');
    ParsedSafe(path);
    NonEmptyParts(pieces);
    if c in pieces {
      var i :| 0 <= i < |pieces| && pieces[i] == c;
      var a, b := PieceFound(path, '/', i);
    }
    if c in Parse(path).components {
      assert Component(c);
      assert ':' in c <==> exists i :: 0 <= i < |c| && c[i] == ':';
    }
    forall a, b | IsPiece(path, '/', a, b) ensures path[a..b] in pieces { PieceListed(path, '/', a, b); }
  }

  /** The characters a path may hold. */
  predicate Clean(path: string) {
    forall i :: 0 <= i < |path| ==> path[i] != '\\' && 0x20 <= path[i] as int && !(0x7f <= path[i] as int <= 0x9f)
  }

  /** A path is accepted exactly when it holds no backslash, control character or colon and no stretch between
      slashes is a dot entry; a backslash or control character is reported first. */
  lemma AcceptedExactly(path: string)
    ensures Parse(path).Ok? <==>
              && Clean(path) && (forall i :: 0 <= i < |path| ==> path[i] != ':')
              && forall a, b :: IsPiece(path, '/', a, b) ==> path[a..b] != "." && path[a..b] != ".."
    ensures Parse(path).Err? ==> (Parse(path).error.ForbiddenCharacter? <==> !Clean(path))
  {
    hide Split;
    var pieces := Split(path, '/');
    if HasUnsafe(pieces) {
      var i :| 0 <= i < |pieces| && pieces[i] != "" && Unsafe(pieces[i]);
      var a, b := PieceFound(path, '/', i);
      if ':' in pieces[i] {
        var k :| 0 <= k < |pieces[i]| && pieces[i][k] == ':';
        assert path[a + k] == ':';
      }
    } else {
      forall a, b | IsPiece(path, '/', a, b) ensures path[a..b] != "." && path[a..b] != ".." {
        PieceListed(path, '/', a, b);
        assert path[a..b] in pieces;
      }
      forall k | 0 <= k < |path| ensures path[k] != ':' { if path[k] == ':' { ColonFound(path, k); } }
    }
  }

  /** A colon lies in some piece. */
  lemma ColonFound(path: string, k: int)
    requires 0 <= k < |path| && path[k] == ':'
    ensures HasUnsafe(Split(path, '/'))
  {
    var a, b := Around(path, k);
    PieceListed(path, '/', a, b);
    var piece := path[a..b];
    assert piece in Split(path, '/');
    assert piece[k - a] == ':' && Unsafe(piece);
  }

  /** The stretch around a character that is no slash. */
  lemma Around(path: string, k: int) returns (a: int, b: int)
    requires 0 <= k < |path| && path[k] != '/'
    ensures IsPiece(path, '/', a, b) && a <= k < b
  {
    a, b := k, k + 1;
    while a > 0 && path[a - 1] != '/'
      invariant 0 <= a <= k && '/' !in path[a..k + 1]
    {
      a := a - 1;
    }
    while b < |path| && path[b] != '/'
      invariant k < b <= |path| && '/' !in path[a..b]
    {
      b := b + 1;
    }
  }

  lemma {:induction false} JoinAllowed(cs: seq<string>)
    requires Components(cs)
    ensures !Forbidden(Join(cs, '/'))
  {
    if |cs| > 1 {
      JoinAllowed(cs[1..]);
      var rest := Join(cs[1..], '/');
      var whole := cs[0] + ['/'] + rest;
      forall i | 0 <= i < |whole| ensures whole[i] != '\\' && !IsControl(whole[i]) {
        if i < |cs[0]| {
          assert whole[i] == cs[0][i];
        } else if i > |cs[0]| {
          assert whole[i] == rest[i - |cs[0]| - 1];
        }
      }
    }
  }

  /** Printing components and parsing the text again gives the components back. */
  lemma PrintParse(cs: seq<string>)
    requires Components(cs)
    ensures Parse(Print(cs)) == Ok(cs)
  {
    if cs == [] {
      SplitFirst<char>([], [], '/');
      assert Split("/", '/') == ["", ""];
      NonEmptyParts(["", ""]);
    } else {
      var body := Join(cs, '/');
      JoinAllowed(cs);
      assert Print(cs)[1..] == body;
      SplitJoin(cs, '/');
      assert Split(Print(cs), '/') == [""] + cs;
      NonEmptyIdentity(cs);
      assert ([""] + cs)[1..] == cs;
    }
  }

  // ---------------------------------------------------------------------------------------------
  // Composition
  // ---------------------------------------------------------------------------------------------

  lemma UnderComponents(root: seq<string>, parts: seq<string>)
    requires Components(root) && Components(parts)
    ensures Components(Under(root, parts))
    ensures root <= Under(root, parts)
    ensures Under(root, Under(root, parts)) == Under(root, parts)
  {
  }

  /** Composition fails exactly when one of its inputs does not parse; otherwise the result parses to
      components that start with the root's and end with the destination's. */
  lemma ComposeParses(root: string, destination: string)
    ensures Compose(root, destination).Path? <==> Parse(root).Ok? && Parse(destination).Ok?
    ensures Compose(root, destination).Path? ==>
              var all := Parse(Compose(root, destination).path);
              && all.Ok?
              && Parse(root).components <= all.components
              && |Parse(destination).components| <= |all.components|
              && all.components[|all.components| - |Parse(destination).components|..] == Parse(destination).components
              && (|all.components| == |Parse(destination).components|
                  || |all.components| == |Parse(root).components| + |Parse(destination).components|)
  {
    if Parse(root).Ok? && Parse(destination).Ok? {
      var rs, ds := Parse(root).components, Parse(destination).components;
      ParsedSafe(root);
      ParsedSafe(destination);
      UnderComponents(rs, ds);
      PrintParse(Under(rs, ds));
      assert (rs + ds)[|rs|..] == ds;
    }
  }

  /** The path recomposed at transfer time is the path stored at enqueue time, for every target root
      with the components the root had then. */
  lemma ComposeIdempotent(root: string, later: string, destination: string)
    requires Compose(root, destination).Path? && Parse(later) == Parse(root)
    ensures Compose(later, Compose(root, destination).path) == Compose(root, destination)
  {
    var rs, ds := Parse(root).components, Parse(destination).components;
    ParsedSafe(root);
    ParsedSafe(destination);
    UnderComponents(rs, ds);
    PrintParse(Under(rs, ds));
  }

  /** Two destinations meet on the device exactly when they have the same components, or one spells
      out the root in front of the other's. */
  lemma ComposeCollides(root: string, a: string, b: string)
    requires Compose(root, a).Path? && Compose(root, b).Path?
    ensures var rs, x, y := Parse(root).components, Parse(a).components, Parse(b).components;
            Compose(root, a) == Compose(root, b) <==>
              x == y || (x == rs + y && !(rs <= y)) || (y == rs + x && !(rs <= x))
  {
    var rs, x, y := Parse(root).components, Parse(a).components, Parse(b).components;
    ParsedSafe(root);
    ParsedSafe(a);
    ParsedSafe(b);
    UnderComponents(rs, x);
    UnderComponents(rs, y);
    PrintParse(Under(rs, x));
    PrintParse(Under(rs, y));
    assert (rs + x)[|rs|..] == x && (rs + y)[|rs|..] == y;
  }

  /** Below the root /a, the destinations /b and /a/b are one file on the device. */
  lemma CollidingPair()
    ensures Compose("/a", "/b") == Compose("/a", "/a/b") && Parse("/b") != Parse("/a/b") && Compose("/a", "/b").Path?
  {
    hide Parse, Compose;
    var a, b := "a", "b";
    assert Component(a) && Component(b);
    PrintParse([a]);
    PrintParse([b]);
    PrintParse([a, b]);
    assert Print([a]) == "/a" && Print([b]) == "/b";
    assert Print([a, b]) == "/a/b" by { assert [a, b][1..] == [b]; }
    ComposeParses("/a", "/b");
    ComposeParses("/a", "/a/b");
    ComposeCollides("/a", "/b", "/a/b");
    assert [a, b] == [a] + [b];
  }

  lemma {:induction false} JoinShape(cs: seq<string>)
    requires Components(cs) && cs != []
    ensures var t := Join(cs, '/');
            && t != "" && t[0] != '/' && t[|t| - 1] != '/'
            && forall i :: 0 <= i && i + 1 < |t| ==> !(t[i] == '/' && t[i + 1] == '/')
  {
    assert Component(cs[0]);
    if |cs| > 1 {
      JoinShape(cs[1..]);
      var rest := Join(cs[1..], '/');
      var t := cs[0] + ['/'] + rest;
      assert t[|cs[0]| + 1..] == rest && t[..|cs[0]|] == cs[0];
      forall i | 0 <= i && i + 1 < |t| ensures !(t[i] == '/' && t[i + 1] == '/') {
        if i < |cs[0]| { assert t[i] == cs[0][i]; } else if i > |cs[0]| { assert t[i] == rest[i - |cs[0]| - 1]; }
      }
    }
  }

  /** A composed path is absolute, has no empty stretch and no trailing slash, stays below the root component
      by component, and no component of it is a dot entry. */
  lemma ComposedContained(root: string, destination: string)
    requires Compose(root, destination).Path?
    ensures var path := Compose(root, destination).path;
            && path != "" && path[0] == '/' && (path != "/" ==> path[|path| - 1] != '/')
            && (forall i :: 0 <= i && i + 1 < |path| ==> !(path[i] == '/' && path[i + 1] == '/'))
            && Parse(path).Ok? && Parse(root).Ok? && Parse(root).components <= Parse(path).components
            && forall c :: c in Parse(path).components ==> c != "" && c != "." && c != ".."
  {
    hide Parse, Compose;
    ComposeParses(root, destination);
    var path := Compose(root, destination).path;
    ComposedPrint(root, destination);
    forall c | c in Parse(path).components ensures c != "" && c != "." && c != ".." { ParsedComponents(path, c); }
  }

  lemma ComposedPrint(root: string, destination: string)
    requires Compose(root, destination).Path?
    ensures var path := Compose(root, destination).path;
            && path != "" && path[0] == '/' && (path != "/" ==> path[|path| - 1] != '/')
            && (forall i :: 0 <= i && i + 1 < |path| ==> !(path[i] == '/' && path[i + 1] == '/'))
  {
    hide Parse;
    var cs := Under(Parse(root).components, Parse(destination).components);
    ParsedSafe(root);
    ParsedSafe(destination);
    if cs != [] {
      JoinShape(cs);
      var t := Join(cs, '/');
      assert ("/" + t)[1..] == t;
      forall i | 0 <= i && i + 1 < |"/" + t| ensures !(("/" + t)[i] == '/' && ("/" + t)[i + 1] == '/') {
        assert ("/" + t)[i + 1] == t[i];
      }
    }
  }
}
