/** Group patterns: `*` stands for any run of bytes, `?` for any one byte, and every
    other byte, `[` included, for itself. */
module Glob {
  import opened Bytes

  const STAR: Byte := 42
  const QUESTION: Byte := 63
  const BRACKET: Byte := 91

  /** strings.ContainsAny(s, "*?["). */
  predicate IsPattern(s: Bytes) {
    exists b <- s :: b == STAR || b == QUESTION || b == BRACKET
  }

  // ---------------------------------------------------------------------------
  // The meaning: cut the name into one piece per pattern byte
  // ---------------------------------------------------------------------------

  predicate Suits(b: Byte, piece: Bytes) {
    if b == STAR then true
    else if b == QUESTION then |piece| == 1
    else piece == [b]
  }

  function Joined(pieces: seq<Bytes>): Bytes {
    if pieces == [] then [] else pieces[0] + Joined(pieces[1..])
  }

  predicate Fits(pattern: Bytes, pieces: seq<Bytes>) {
    |pieces| == |pattern| && forall i :: 0 <= i < |pattern| ==> Suits(pattern[i], pieces[i])
  }

  ghost predicate Means(pattern: Bytes, name: Bytes) {
    exists pieces: seq<Bytes> :: Fits(pattern, pieces) && Joined(pieces) == name
  }

  // ---------------------------------------------------------------------------
  // The same, from the front
  // ---------------------------------------------------------------------------

  predicate Accepts(pattern: Bytes, name: Bytes)
    decreases |pattern|, 0, 0
  {
    if pattern == [] then name == []
    else if pattern[0] == STAR then Somewhere(pattern[1..], name, 0)
    else name != [] && (pattern[0] == QUESTION || pattern[0] == name[0]) && Accepts(pattern[1..], name[1..])
  }

  /** The pattern accepts the name from i on, or from some later place. */
  predicate Somewhere(pattern: Bytes, name: Bytes, i: nat)
    decreases |pattern|, 1, |name| - i
  {
    i <= |name| && (Accepts(pattern, name[i..]) || Somewhere(pattern, name, i + 1))
  }

  lemma {:induction false} SomewhereIff(pattern: Bytes, name: Bytes, i: nat)
    ensures Somewhere(pattern, name, i) <==> exists j :: i <= j <= |name| && Accepts(pattern, name[j..])
    decreases |name| - i
  {
    hide Accepts;
    if i <= |name| {
      SomewhereIff(pattern, name, i + 1);
    }
  }

  lemma {:induction false} AcceptedHasMeaning(pattern: Bytes, name: Bytes) returns (pieces: seq<Bytes>)
    requires Accepts(pattern, name)
    ensures Fits(pattern, pieces) && Joined(pieces) == name
    decreases |pattern|
  {
    if pattern == [] {
      pieces := [];
    } else {
      var n := 1;
      if pattern[0] == STAR {
        SomewhereIff(pattern[1..], name, 0);
        n :| 0 <= n <= |name| && Accepts(pattern[1..], name[n..]);
      }
      var rest := AcceptedHasMeaning(pattern[1..], name[n..]);
      pieces := [name[..n]] + rest;
      assert pieces[1..] == rest;
      assert name == name[..n] + name[n..];
      assert forall i :: 0 < i < |pattern| ==> pattern[i] == pattern[1..][i - 1];
    }
  }

  lemma {:induction false} MeaningIsAccepted(pattern: Bytes, pieces: seq<Bytes>)
    requires Fits(pattern, pieces)
    ensures Accepts(pattern, Joined(pieces))
    decreases |pattern|
  {
    if pattern != [] {
      var rest, name := Joined(pieces[1..]), Joined(pieces);
      MeaningIsAccepted(pattern[1..], pieces[1..]);
      assert name[|pieces[0]|..] == rest;
      if pattern[0] == STAR {
        SomewhereIff(pattern[1..], name, 0);
      }
    }
  }

  /** Reading from the front decides the meaning. */
  lemma AcceptsIffMeans(pattern: Bytes, name: Bytes)
    ensures Accepts(pattern, name) <==> Means(pattern, name)
  {
    if Accepts(pattern, name) {
      var pieces := AcceptedHasMeaning(pattern, name);
    }
    if Means(pattern, name) {
      var pieces: seq<Bytes> :| Fits(pattern, pieces) && Joined(pieces) == name;
      MeaningIsAccepted(pattern, pieces);
    }
  }

  /** A pattern without metacharacters means itself alone. */
  lemma {:induction false} LiteralMeansItself(pattern: Bytes, name: Bytes)
    requires STAR !in pattern && QUESTION !in pattern
    ensures Accepts(pattern, name) <==> name == pattern
  {
    if pattern != [] && name != [] {
      LiteralMeansItself(pattern[1..], name[1..]);
      assert name == [name[0]] + name[1..] && pattern == [pattern[0]] + pattern[1..];
    }
  }

  // ---------------------------------------------------------------------------
  // matchGlobRec
  // ---------------------------------------------------------------------------

  lemma StarsCollapse(pattern: Bytes, name: Bytes)
    requires |pattern| >= 2 && pattern[0] == STAR && pattern[1] == STAR
    ensures Accepts(pattern, name) == Accepts(pattern[1..], name)
  {
    var once, rest := pattern[1..], pattern[2..];
    assert once[1..] == rest;
    SomewhereIff(once, name, 0);
    SomewhereIff(rest, name, 0);
    if Accepts(pattern, name) {
      var i :| 0 <= i <= |name| && Accepts(once, name[i..]);
      SomewhereIff(rest, name[i..], 0);
      var j :| 0 <= j <= |name[i..]| && Accepts(rest, name[i..][j..]);
      assert name[i..][j..] == name[i + j..];
    }
    if Accepts(once, name) {
      assert name[0..] == name;
    }
  }

  /** The matcher decides the meaning of every pattern. */
  method Match(pattern: Bytes, name: Bytes) returns (ok: bool)
    ensures ok <==> Means(pattern, name)
    decreases |pattern|, 1
  {
    hide Means;
    AcceptsIffMeans(pattern, name);
    ok := MatchRec(pattern, name);
  }

  method MatchRec(pattern: Bytes, name: Bytes) returns (ok: bool)
    ensures ok == Accepts(pattern, name)
    decreases |pattern|, 0
  {
    var p, n := pattern, name;
    while |p| > 0
      invariant |p| <= |pattern| && Accepts(pattern, name) == Accepts(p, n)
      decreases |p|
    {
      if p[0] == STAR {
        while |p| > 1 && p[1] == STAR
          invariant 0 < |p| <= |pattern| && p[0] == STAR && Accepts(pattern, name) == Accepts(p, n)
          decreases |p|
        {
          StarsCollapse(p, n);
          p := p[1..];
        }
        ok := MatchAfterStar(p, n);
        return;
      } else if p[0] == QUESTION {
        if |n| == 0 {
          return false;
        }
        p, n := p[1..], n[1..];
      } else {
        if |n| == 0 || p[0] != n[0] {
          return false;
        }
        p, n := p[1..], n[1..];
      }
    }
    return |n| == 0;
  }

  /** One star left in front: try the rest of the pattern at every suffix. */
  method MatchAfterStar(starred: Bytes, name: Bytes) returns (ok: bool)
    requires starred != [] && starred[0] == STAR
    ensures ok == Accepts(starred, name)
    decreases |starred| - 1, 1
  {
    var p := starred[1..];
    SomewhereIff(p, name, 0);
    if |p| == 0 {
      assert name[|name|..] == [] && Accepts(p, name[|name|..]);
      return true;
    }
    var i := 0;
    while i <= |name|
      invariant 0 <= i <= |name| + 1
      invariant forall j :: 0 <= j < i ==> !Accepts(p, name[j..])
    {
      var found := MatchRec(p, name[i..]);
      if found {
        return true;
      }
      i := i + 1;
    }
    return false;
  }
}
