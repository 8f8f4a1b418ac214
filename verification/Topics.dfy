/** Topic names: splitting at the separators (common.cpp, SplitTopic) and the
    meaning of a wildcard pattern. */
module Topics {
  import opened Base

  /** The non-empty sequence of levels of a topic. */
  type Path = path: seq<string> | path != [] witness [""]

  /** No exception escapes SplitTopic: every ':' it finds is followed by at least
      one more character, which it skips whatever it is. */
  predicate Splits(s: string)
    decreases |s|
  {
    var i := FindFirst(s, ':');
    i == |s| || (i + 2 <= |s| && Splits(s[i + 2..]))
  }

  function Segments(s: string): (segments: Path)
    ensures forall k | 0 <= k < |segments| :: ':' !in segments[k]
    decreases |s|
  {
    var i := FindFirst(s, ':');
    if i == |s| || i + 2 > |s| then [s[..i]] else [s[..i]] + Segments(s[i + 2..])
  }

  /** A name fails exactly when it ends in a ':' that is not the second half of a separator. */
  lemma {:induction false} FailsAtTheEnd(s: string)
    ensures !Splits(s) <==> s != "" && s[|s| - 1] == ':' && Splits(s[..|s| - 1])
    decreases |s|
  {
    var i := FindFirst(s, ':');
    if s != "" {
      var t := s[..|s| - 1];
      if i < |t| {
        FirstIs(t, ':', i);
        if i + 2 <= |s| {
          var rest := s[i + 2..];
          FailsAtTheEnd(rest);
          if rest != "" {
            assert t[i + 2..] == rest[..|rest| - 1];
          }
        }
      } else {
        FirstIs(t, ':', |t|);
      }
    }
  }

  method SplitTopic(name: string) returns (ok: bool, vec: seq<string>)
    ensures ok == Splits(name)
    ensures ok ==> vec == Segments(name)
  {
    vec := [];
    var s, index, more := name, -2, true;
    while more
      invariant -2 <= index <= |s|
      invariant more && index + 2 <= |s| ==>
                  Splits(name) == Splits(s[index + 2..]) && Segments(name) == vec + Segments(s[index + 2..])
      invariant more && index + 2 > |s| ==> !Splits(name)
      invariant more ==> index < |s|
      invariant !more ==> Splits(name) && vec == Segments(name)
      decreases if more then |s| - index + 1 else 0
    {
      if index + 2 > |s| {
        return false, vec;  // substr throws out_of_range
      }
      s := s[index + 2..];
      index := FindFirst(s, ':');
      vec := vec + [s[..index]];
      more := index < |s|;
    }
    ok := true;
  }

  function Join(path: Path): string
  {
    if |path| == 1 then path[0] else path[0] + "::" + Join(path[1..])
  }

  ghost predicate ColonFree(path: Path) {
    forall k | 0 <= k < |path| :: ':' !in path[k]
  }

  /** Reading left to right, colons come in adjacent pairs. */
  predicate ColonsPaired(s: string)
    decreases |s|
  {
    var i := FindFirst(s, ':');
    i == |s| || (i + 1 < |s| && s[i + 1] == ':' && ColonsPaired(s[i + 2..]))
  }

  lemma {:induction false} SplitInvertsJoin(path: Path)
    requires ColonFree(path)
    ensures Splits(Join(path)) && Segments(Join(path)) == path
    ensures ColonsPaired(Join(path))
  {
    var s, n := Join(path), |path[0]|;
    if |path| == 1 {
      FirstIs(s, ':', n);
      assert s[..n] == s && path == [s];
    } else {
      SplitInvertsJoin(path[1..]);
      assert s[..n] == path[0] && s[n] == ':' && s[n + 2..] == Join(path[1..]);
      FirstIs(s, ':', n);
    }
  }

  /** Joining the segments gives the name back exactly for names whose colons are paired. */
  lemma {:induction false} JoinInvertsSplit(s: string)
    ensures (Splits(s) && Join(Segments(s)) == s) <==> ColonsPaired(s)
    decreases |s|
  {
    var i := FindFirst(s, ':');
    if i == |s| {
      assert s[..i] == s;
    } else if i + 2 <= |s| {
      JoinInvertsSplit(s[i + 2..]);
      JoinedAgain(s, i);
    }
  }

  lemma JoinedAgain(s: string, i: nat)
    requires i == FindFirst(s, ':') && i + 2 <= |s|
    ensures Join(Segments(s)) == s <==> s[i + 1] == ':' && Join(Segments(s[i + 2..])) == s[i + 2..]
  {
    var rest := Segments(s[i + 2..]);
    assert Segments(s)[0] == s[..i] && Segments(s)[1..] == rest;
    hide Join, Segments, FindFirst;
    SameAround(s, i, Join(rest));
    JoinFirst(Segments(s));
  }

  lemma JoinFirst(path: Path)
    requires |path| > 1
    ensures Join(path) == path[0] + "::" + Join(path[1..])
  {}

  lemma SameAround(s: string, i: nat, rest: string)
    requires i + 2 <= |s| && s[i] == ':'
    ensures s[..i] + "::" + rest == s <==> s[i + 1] == ':' && rest == s[i + 2..]
  {
    var joined := s[..i] + "::" + rest;
    assert joined[i + 1] == ':' && joined[i + 2..] == rest;
    if s[i + 1] == ':' && rest == s[i + 2..] {
      assert s == s[..i] + s[i..i + 2] + s[i + 2..] && s[i..i + 2] == "::";
    }
  }

  /** A name is written with proper separators exactly when its colons are paired, and
      two such names are the same topic only if they are the same text. */
  lemma ProperNames(s: string, t: string)
    ensures ColonsPaired(s) <==> exists path: Path :: ColonFree(path) && s == Join(path)
    ensures ColonsPaired(s) && ColonsPaired(t) ==> (s == t <==> Segments(s) == Segments(t))
  {
    JoinInvertsSplit(s);
    JoinInvertsSplit(t);
    if ColonsPaired(s) {
      var path := Segments(s);
      assert ColonFree(path) && s == Join(path);
    }
    if path: Path :| ColonFree(path) && s == Join(path) {
      SplitInvertsJoin(path);
    }
  }

  /** Outside the proper names the segments do not determine the text. */
  lemma SkippedCharacterIsLost()
    ensures "a:xb" != "a::b" && Splits("a:xb") && Segments("a:xb") == Segments("a::b") == ["a", "b"]
    ensures !Splits("a:")
  {
    FirstIs("a:xb", ':', 1);
    FirstIs("a::b", ':', 1);
    FirstIs("b", ':', 1);
    FirstIs("a:", ':', 1);
    assert "a:xb"[..1] == "a" == "a::b"[..1];
    assert "a:xb"[3..] == "b" == "a::b"[3..];
    assert "b"[..1] == "b";
  }

  /** What a pattern accepts: "*" any rest, "+" one level that is not the last,
      anything else itself; a last "+" is an ordinary name. */
  predicate Matches(pattern: Path, path: Path)
    decreases |pattern|
  {
    if pattern[0] == "*" then true
    else if |pattern| == 1 then path == pattern
    else |path| > 1 && (pattern[0] == path[0] || pattern[0] == "+") && Matches(pattern[1..], path[1..])
  }

  /** Level by level: up to the first "*", which is at k unless there is none, a level stands for
      itself and a "+" for any, but a "+" that ends the pattern for itself. What is left for the
      "*" is at least one level; without one nothing is left. */
  lemma {:induction false} MatchesByLevels(pattern: Path, path: Path, k: nat)
    requires k <= |pattern| && (forall i | 0 <= i < k :: pattern[i] != "*") && (k < |pattern| ==> pattern[k] == "*")
    ensures Matches(pattern, path) <==>
            && (if k < |pattern| then |path| > k else |path| == k)
            && forall i | 0 <= i < k :: pattern[i] == path[i] || (pattern[i] == "+" && i < |pattern| - 1)
    decreases |pattern|
  {
    if k > 0 && |pattern| > 1 && |path| > 1 {
      var deeper, rest := pattern[1..], path[1..];
      MatchesByLevels(deeper, rest, k - 1);
      assert forall i | 0 <= i < k - 1 :: deeper[i] == pattern[i + 1];
      assert forall i | 0 <= i < |rest| :: rest[i] == path[i + 1];
      if Matches(pattern, path) {
        forall i | 0 <= i < k
          ensures pattern[i] == path[i] || (pattern[i] == "+" && i < |pattern| - 1)
        {
          assert i > 0 ==> deeper[i - 1] == pattern[i] && rest[i - 1] == path[i];
        }
      }
    }
  }

  ghost predicate WildcardFree(pattern: Path) {
    forall k | 0 <= k < |pattern| :: pattern[k] != "*" && (pattern[k] != "+" || k == |pattern| - 1)
  }

  /** A pattern names a single topic exactly when it has no wildcard in a wildcard's position. */
  lemma {:induction false} ExactPatterns(pattern: Path)
    ensures WildcardFree(pattern) ==> forall path: Path :: Matches(pattern, path) <==> path == pattern
    ensures !WildcardFree(pattern) ==> exists path: Path :: Matches(pattern, path) && path != pattern
  {
    if WildcardFree(pattern) {
      forall path: Path
        ensures Matches(pattern, path) <==> path == pattern
      {
        ExactPattern(pattern, path);
      }
    } else {
      var k :| 0 <= k < |pattern| && (pattern[k] == "*" || (pattern[k] == "+" && k < |pattern| - 1));
      var other: Path := pattern[k := "-"];
      MatchesOther(pattern, k);
      assert Matches(pattern, other) && other[k] != pattern[k];
    }
  }

  lemma {:induction false} ExactPattern(pattern: Path, path: Path)
    requires WildcardFree(pattern)
    ensures Matches(pattern, path) <==> path == pattern
    decreases |pattern|
  {
    if |pattern| > 1 && |path| > 1 {
      ExactPattern(pattern[1..], path[1..]);
      assert path == [path[0]] + path[1..] && pattern == [pattern[0]] + pattern[1..];
    }
  }

  lemma {:induction false} MatchesItself(pattern: Path)
    ensures Matches(pattern, pattern)
    decreases |pattern|
  {
    if |pattern| > 1 {
      MatchesItself(pattern[1..]);
    }
  }

  lemma {:induction false} MatchesOther(pattern: Path, k: nat)
    requires k < |pattern| && (pattern[k] == "*" || (pattern[k] == "+" && k < |pattern| - 1))
    ensures Matches(pattern, pattern[k := "-"])
    decreases |pattern|
  {
    var other := pattern[k := "-"];
    if k == 0 {
      if |pattern| > 1 {
        assert other[1..] == pattern[1..];
        MatchesItself(pattern[1..]);
      }
    } else {
      MatchesOther(pattern[1..], k - 1);
      assert other[1..] == pattern[1..][k - 1 := "-"];
    }
  }
}
