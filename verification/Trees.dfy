/** The tree of topics as a value: what insert, erase and the two look-ups of
    common.cpp do to its shape, and the flat set of parameters it stands for. */
module Trees {
  import opened Topics
  import opened Parameters

  /** p's name continues below the node that prefix spells. */
  ghost predicate Under(prefix: seq<string>, p: Parameter) {
    |prefix| < |p.splitName| && prefix == p.splitName[..|prefix|]
  }

  ghost function Rest(prefix: seq<string>, p: Parameter): Path
    requires Under(prefix, p)
  {
    p.splitName[|prefix|..]
  }

  lemma UnderChild(prefix: seq<string>, name: string, p: Parameter)
    ensures Under(prefix + [name], p) <==>
            Under(prefix, p) && |p.splitName| > |prefix| + 1 && p.splitName[|prefix|] == name
    ensures Under(prefix + [name], p) ==>
              Rest(prefix, p)[0] == name && Rest(prefix, p)[1..] == Rest(prefix + [name], p)
  {
    if Under(prefix, p) && |p.splitName| > |prefix| + 1 && p.splitName[|prefix|] == name {
      assert p.splitName[..|prefix| + 1] == p.splitName[..|prefix|] + [p.splitName[|prefix|]];
    }
    if Under(prefix + [name], p) {
      assert p.splitName[..|prefix|] == (prefix + [name])[..|prefix|];
    }
  }

  datatype Tree = Tree(parameters: set<Parameter>, subtopics: map<string, Tree>)

  const BARE := Tree({}, map[])

  ghost function Elements(t: Tree): set<Parameter> {
    t.parameters + set n, p | n in t.subtopics && p in Elements(t.subtopics[n]) :: p
  }

  /** Every parameter sits at the node its name spells, and no node below the top is bare. */
  ghost predicate Canonical(t: Tree, prefix: seq<string>) {
    && (forall p | p in t.parameters :: Under(prefix, p) && |p.splitName| == |prefix| + 1)
    && (forall n | n in t.subtopics :: Canonical(t.subtopics[n], prefix + [n]) && t.subtopics[n] != BARE)
  }

  ghost function Plant(t: Tree, p: Parameter, depth: nat): Tree
    requires depth < |p.splitName|
    decreases |p.splitName| - depth
  {
    if |p.splitName| == depth + 1 then t.(parameters := t.parameters + {p})
    else
      var name := p.splitName[depth];
      var child := if name in t.subtopics then t.subtopics[name] else BARE;
      t.(subtopics := t.subtopics[name := Plant(child, p, depth + 1)])
  }

  ghost function Uproot(t: Tree, p: Parameter, depth: nat): Tree
    requires depth < |p.splitName|
    decreases |p.splitName| - depth
  {
    if |p.splitName| == depth + 1 then t.(parameters := t.parameters - {p})
    else
      var name := p.splitName[depth];
      if name !in t.subtopics then t
      else
        var child := Uproot(t.subtopics[name], p, depth + 1);
        t.(subtopics := if child == BARE then t.subtopics - {name} else t.subtopics[name := child])
  }

  lemma {:induction false} ElementsUnder(t: Tree, prefix: seq<string>, p: Parameter)
    requires Canonical(t, prefix) && p in Elements(t)
    ensures Under(prefix, p)
    ensures |p.splitName| == |prefix| + 1 <==> p in t.parameters
    ensures p !in t.parameters ==>
              p.splitName[|prefix|] in t.subtopics && p in Elements(t.subtopics[p.splitName[|prefix|]])
    decreases t
  {
    if p !in t.parameters {
      var n :| n in t.subtopics && p in Elements(t.subtopics[n]);
      ElementsUnder(t.subtopics[n], prefix + [n], p);
      UnderChild(prefix, n, p);
    }
  }

  /** The elements are below the node their name spells, and only there. */
  lemma ElementsBelow(t: Tree, prefix: seq<string>, p: Parameter)
    requires Canonical(t, prefix) && Under(prefix, p) && |p.splitName| > |prefix| + 1
    ensures var name := p.splitName[|prefix|];
            p in Elements(t) <==> name in t.subtopics && p in Elements(t.subtopics[name])
  {
    if p in Elements(t) {
      ElementsUnder(t, prefix, p);
    }
  }

  lemma {:induction false} NotBare(t: Tree, prefix: seq<string>)
    requires Canonical(t, prefix)
    ensures Elements(t) == {} <==> t == BARE
    decreases t
  {
    if t.subtopics != map[] {
      var n :| n in t.subtopics;
      NotBare(t.subtopics[n], prefix + [n]);
      var p :| p in Elements(t.subtopics[n]);
      assert p in Elements(t);
    }
  }

  function Without(t: Tree, name: string): Tree { t.(subtopics := t.subtopics - {name}) }

  lemma ElementsSplit(t: Tree, name: string)
    requires name in t.subtopics
    ensures Elements(t) == Elements(Without(t, name)) + Elements(t.subtopics[name])
  {
    var s := Without(t, name);
    var all, rest, child := Elements(t), Elements(s), Elements(t.subtopics[name]);
    forall p | p in all
      ensures p in rest + child
    {
      if p !in t.parameters {
        var n :| n in t.subtopics && p in Elements(t.subtopics[n]);
        assert n != name ==> n in s.subtopics && s.subtopics[n] == t.subtopics[n];
      }
    }
    forall p | p in rest
      ensures p in all
    {
      if p !in s.parameters {
        var n :| n in s.subtopics && p in Elements(s.subtopics[n]);
        assert n in t.subtopics && s.subtopics[n] == t.subtopics[n];
      }
    }
  }

  lemma {:induction false} PlantCanonical(t: Tree, prefix: seq<string>, p: Parameter)
    requires Canonical(t, prefix) && Under(prefix, p)
    ensures Canonical(Plant(t, p, |prefix|), prefix) && Plant(t, p, |prefix|) != BARE
    decreases |p.splitName| - |prefix|
  {
    if |p.splitName| > |prefix| + 1 {
      var name := p.splitName[|prefix|];
      UnderChild(prefix, name, p);
      PlantCanonical(if name in t.subtopics then t.subtopics[name] else BARE, prefix + [name], p);
      assert name in Plant(t, p, |prefix|).subtopics;
    }
  }

  lemma {:induction false} PlantAdds(t: Tree, p: Parameter, depth: nat)
    requires depth < |p.splitName|
    ensures Elements(Plant(t, p, depth)) == Elements(t) + {p}
    decreases |p.splitName| - depth
  {
    if |p.splitName| > depth + 1 {
      var name, u := p.splitName[depth], Plant(t, p, depth);
      PlantAdds(if name in t.subtopics then t.subtopics[name] else BARE, p, depth + 1);
      ElementsSplit(u, name);
      if name in t.subtopics {
        ElementsSplit(t, name);
        assert Without(u, name) == Without(t, name);
      } else {
        assert Without(u, name) == t;
      }
    }
  }

  lemma {:induction false} UprootCanonical(t: Tree, prefix: seq<string>, p: Parameter)
    requires Canonical(t, prefix) && Under(prefix, p)
    ensures Canonical(Uproot(t, p, |prefix|), prefix)
    decreases |p.splitName| - |prefix|
  {
    if |p.splitName| > |prefix| + 1 {
      var name := p.splitName[|prefix|];
      UnderChild(prefix, name, p);
      if name in t.subtopics {
        UprootCanonical(t.subtopics[name], prefix + [name], p);
      }
    }
  }

  lemma {:induction false} UprootRemoves(t: Tree, prefix: seq<string>, p: Parameter)
    requires Canonical(t, prefix) && Under(prefix, p)
    ensures Elements(Uproot(t, p, |prefix|)) == Elements(t) - {p}
    decreases |p.splitName| - |prefix|
  {
    if |p.splitName| == |prefix| + 1 {
      UprootHere(t, prefix, p);
    } else {
      var name, u := p.splitName[|prefix|], Uproot(t, p, |prefix|);
      UnderChild(prefix, name, p);
      ElementsBelow(t, prefix, p);
      if name in t.subtopics {
        UprootRemoves(t.subtopics[name], prefix + [name], p);
        NotThere(t, prefix, p);
        UprootBelow(t, p, |prefix|);
      }
    }
  }

  lemma UprootBelow(t: Tree, p: Parameter, depth: nat)
    requires depth + 1 < |p.splitName| && p.splitName[depth] in t.subtopics
    requires var child := t.subtopics[p.splitName[depth]];
             Elements(Uproot(child, p, depth + 1)) == Elements(child) - {p}
    requires p !in Elements(Without(t, p.splitName[depth]))
    ensures Elements(Uproot(t, p, depth)) == Elements(t) - {p}
  {
    var name, u := p.splitName[depth], Uproot(t, p, depth);
    ElementsSplit(t, name);
    if name in u.subtopics {
      ElementsSplit(u, name);
      assert Without(u, name) == Without(t, name);
    } else {
      assert u == Without(t, name);
    }
  }

  lemma NotThere(t: Tree, prefix: seq<string>, p: Parameter)
    requires Canonical(t, prefix) && Under(prefix, p) && |p.splitName| > |prefix| + 1
    ensures p !in Elements(Without(t, p.splitName[|prefix|]))
  {
    ElementsBelow(Without(t, p.splitName[|prefix|]), prefix, p);
  }

  lemma UprootHere(t: Tree, prefix: seq<string>, p: Parameter)
    requires Canonical(t, prefix) && Under(prefix, p) && |p.splitName| == |prefix| + 1
    ensures Elements(t.(parameters := t.parameters - {p})) == Elements(t) - {p}
  {
    forall n | n in t.subtopics
      ensures p !in Elements(t.subtopics[n])
    {
      if p in Elements(t.subtopics[n]) {
        ElementsUnder(t.subtopics[n], prefix + [n], p);
      }
    }
  }

  /** The shape of a tree is a function of the flat set: however it was built. */
  lemma {:induction false} SameElementsSameTree(t: Tree, u: Tree, prefix: seq<string>)
    requires Canonical(t, prefix) && Canonical(u, prefix) && Elements(t) == Elements(u)
    ensures t == u
    decreases t
  {
    hide Elements, Canonical;
    SameHere(t, u, prefix);
    forall n | n in t.subtopics + u.subtopics
      ensures n in t.subtopics && n in u.subtopics && t.subtopics[n] == u.subtopics[n]
    {
      SameBelow(t, u, prefix, n);
      SameElementsSameTree(t.subtopics[n], u.subtopics[n], prefix + [n]);
    }
    assert forall n | n in u.subtopics :: n in t.subtopics + u.subtopics;
    assert forall n | n in t.subtopics :: n in t.subtopics + u.subtopics;
    assert t.subtopics == u.subtopics;
  }

  lemma SameHere(t: Tree, u: Tree, prefix: seq<string>)
    requires Canonical(t, prefix) && Canonical(u, prefix) && Elements(t) == Elements(u)
    ensures t.parameters == u.parameters
  {
    assert t.parameters <= Elements(t) && u.parameters <= Elements(u);
    hide Elements, Canonical;
    forall p | p in Elements(t)
      ensures p in t.parameters <==> p in u.parameters
    {
      ElementsUnder(t, prefix, p);
      ElementsUnder(u, prefix, p);
    }
  }

  lemma SameBelow(t: Tree, u: Tree, prefix: seq<string>, n: string)
    requires Canonical(t, prefix) && Canonical(u, prefix) && Elements(t) == Elements(u)
    requires n in t.subtopics || n in u.subtopics
    ensures n in t.subtopics && n in u.subtopics && Elements(t.subtopics[n]) == Elements(u.subtopics[n])
    ensures Canonical(t.subtopics[n], prefix + [n]) && Canonical(u.subtopics[n], prefix + [n])
  {
    hide Elements;
    if n in t.subtopics {
      ChildInherits(t, u, prefix, n);
      ChildInherits(u, t, prefix, n);
    } else {
      ChildInherits(u, t, prefix, n);
      assert false;
    }
  }

  lemma ChildInherits(t: Tree, u: Tree, prefix: seq<string>, n: string)
    requires Canonical(t, prefix) && Canonical(u, prefix) && Elements(t) == Elements(u) && n in t.subtopics
    ensures n in u.subtopics && Elements(t.subtopics[n]) <= Elements(u.subtopics[n])
  {
    NotBare(t.subtopics[n], prefix + [n]);
    var q :| q in Elements(t.subtopics[n]);
    forall p | p in Elements(t.subtopics[n])
      ensures n in u.subtopics && p in Elements(u.subtopics[n])
    {
      ElementsUnder(t.subtopics[n], prefix + [n], p);
      UnderChild(prefix, n, p);
      assert p in Elements(t);
      ElementsBelow(u, prefix, p);
    }
  }

  /** Inserting a new parameter and erasing it gives the same tree back. */
  lemma PlantThenUproot(t: Tree, p: Parameter)
    requires Canonical(t, []) && p !in Elements(t)
    ensures Uproot(Plant(t, p, 0), p, 0) == t
  {
    PlantAdds(t, p, 0);
    PlantCanonical(t, [], p);
    UprootRemoves(Plant(t, p, 0), [], p);
    UprootCanonical(Plant(t, p, 0), [], p);
    assert Elements(t) + {p} - {p} == Elements(t);
    SameElementsSameTree(Uproot(Plant(t, p, 0), p, 0), t, []);
  }

  /** What GetAllMatches takes from a node, which subtopics it descends to, and with
      what pattern: a "*" goes down unchanged. */
  ghost function Here(t: Tree, pattern: Path): set<Parameter> {
    if pattern[0] == "*" then t.parameters
    else if |pattern| == 1 then set p | p in t.parameters && p.splitName[|p.splitName| - 1] == pattern[0]
    else {}
  }

  predicate Enters(pattern: Path, name: string) {
    pattern[0] == "*" || (|pattern| > 1 && (pattern[0] == name || pattern[0] == "+"))
  }

  function Deeper(pattern: Path): Path {
    if pattern[0] == "*" || |pattern| == 1 then pattern else pattern[1..]
  }

  ghost function Gather(t: Tree, pattern: Path): set<Parameter>
    decreases t
  {
    Here(t, pattern)
    + set n, p | n in t.subtopics && Enters(pattern, n) && p in Gather(t.subtopics[n], Deeper(pattern)) :: p
  }

  /** What GetMatch chooses from. */
  ghost function Candidates(t: Tree, pattern: Path): set<Parameter>
    decreases t
  {
    if |pattern| == 1 then set p | p in t.parameters && p.splitName[|p.splitName| - 1] == pattern[0]
    else if pattern[0] in t.subtopics then Candidates(t.subtopics[pattern[0]], pattern[1..])
    else {}
  }

  /** Wildcard look-up is filtering the flat set by the pattern's meaning. */
  lemma {:induction false} GatherIsFilter(t: Tree, prefix: seq<string>, pattern: Path, p: Parameter)
    requires Canonical(t, prefix)
    ensures p in Gather(t, pattern) <==> p in Elements(t) && Under(prefix, p) && Matches(pattern, Rest(prefix, p))
    decreases t
  {
    if p in Elements(t) {
      ElementsUnder(t, prefix, p);
      if p !in t.parameters {
        var n := p.splitName[|prefix|];
        GatherIsFilter(t.subtopics[n], prefix + [n], Deeper(pattern), p);
        MatchesBelow(prefix, n, pattern, p);
      }
    }
    if p in Gather(t, pattern) && p !in Here(t, pattern) {
      var n :| n in t.subtopics && Enters(pattern, n) && p in Gather(t.subtopics[n], Deeper(pattern));
      GatherIsFilter(t.subtopics[n], prefix + [n], Deeper(pattern), p);
      UnderChild(prefix, n, p);
      MatchesBelow(prefix, n, pattern, p);
    }
  }

  lemma MatchesBelow(prefix: seq<string>, n: string, pattern: Path, p: Parameter)
    requires Under(prefix, p) && |p.splitName| > |prefix| + 1 && p.splitName[|prefix|] == n
    ensures Under(prefix + [n], p)
    ensures Matches(pattern, Rest(prefix, p)) <==> Enters(pattern, n) && Matches(Deeper(pattern), Rest(prefix + [n], p))
  {
    UnderChild(prefix, n, p);
  }

  /** Exact look-up finds the parameters of that very name. */
  lemma {:induction false} CandidatesAreExact(t: Tree, prefix: seq<string>, pattern: Path, p: Parameter)
    requires Canonical(t, prefix)
    ensures p in Candidates(t, pattern) <==> p in Elements(t) && Under(prefix, p) && Rest(prefix, p) == pattern
    decreases t
  {
    if p in Elements(t) {
      ElementsUnder(t, prefix, p);
    }
    if |pattern| > 1 {
      var n := pattern[0];
      if n in t.subtopics {
        CandidatesAreExact(t.subtopics[n], prefix + [n], pattern[1..], p);
      }
      UnderChild(prefix, n, p);
      if Under(prefix, p) && |p.splitName| > |prefix| + 1 {
        ElementsBelow(t, prefix, p);
        assert Rest(prefix, p) == pattern <==> Rest(prefix, p)[0] == n && Rest(prefix, p)[1..] == pattern[1..] by {
          assert pattern == [n] + pattern[1..] && Rest(prefix, p) == [Rest(prefix, p)[0]] + Rest(prefix, p)[1..];
        }
      }
    }
  }

  /** Without wildcards the two look-ups agree. */
  lemma LookUpsAgree(t: Tree, pattern: Path)
    requires Canonical(t, []) && WildcardFree(pattern)
    ensures Gather(t, pattern) == Candidates(t, pattern)
  {
    forall p | p in Gather(t, pattern) + Candidates(t, pattern)
      ensures p in Gather(t, pattern) && p in Candidates(t, pattern)
    {
      GatherIsFilter(t, [], pattern, p);
      CandidatesAreExact(t, [], pattern, p);
      ExactPattern(pattern, Rest([], p));
    }
  }
}
