/** The tree of topics (common.cpp, Topic), updated in place. */
module Trie {
  import opened Topics
  import opened Parameters
  import opened Trees

  function Names(topics: set<Topic>): set<string> { set t | t in topics :: t.topicName }

  predicate Has(t: Tree, name: string) { name in t.subtopics }

  class Topic {
    const topicName: string
    var parameters: set<Parameter>
    var subtopics: set<Topic>
    ghost var Shape: Tree
    ghost var Repr: set<Topic>

    /** Siblings have distinct names and share nothing, and this object with its
        subtopics is the top of Shape, but for what hangs below the changed ones. */
    ghost predicate LinkedBut(changed: set<Topic>)
      reads this, subtopics
    {
      && this in Repr && Shape.parameters == parameters
      && (forall n {:trigger Has(Shape, n)} | Has(Shape, n) :: n in Names(subtopics) || n in Names(changed))
      && (forall u | u in subtopics && u !in changed ::
            && u in Repr && u.Repr <= Repr - {this}
            && u.topicName in Shape.subtopics && Shape.subtopics[u.topicName] == u.Shape)
      && (forall u, v | u in subtopics && v in subtopics && u != v :: u.Repr !! v.Repr && u.topicName != v.topicName)
    }

    /** The tree below this object is Shape. */
    ghost predicate Valid()
      reads this, Repr
      decreases Repr
    {
      && this in Repr && subtopics <= Repr
      && LinkedBut({})
      && (forall t | t in subtopics :: t.Repr <= Repr - {this} && t.Valid())
    }

    /** After a change below t that reaches nothing else, the rest still hangs together. */
    twostate lemma Beneath(t: Topic)
      requires old(Valid()) && unchanged(this) && t in subtopics && t.Valid()
      requires fresh(t.Repr - old(t.Repr))
      requires forall u | u in old(subtopics) && u != t :: unchanged(u)
      requires forall u, o | u in old(subtopics) && u != t && o in old(u.Repr) :: unchanged(o)
      ensures LinkedBut({t}) && forall u | u in subtopics :: u.Valid() && this !in u.Repr
    {
      assert forall u | u in subtopics && u != t :: u.Valid() && u.Repr == old(u.Repr) && u.Shape == old(u.Shape);
    }

    /** Brings the ghost state up to date with a change below t. */
    ghost method Relink(t: Topic)
      requires t in subtopics && LinkedBut({t}) && this !in t.Repr
      requires forall u | u in subtopics :: u.Valid() && this !in u.Repr
      modifies this`Shape, this`Repr
      ensures Valid()
      ensures Shape == old(Shape).(subtopics := old(Shape).subtopics[t.topicName := t.Shape])
      ensures Repr == old(Repr) + t.Repr
    {
      Shape, Repr := Shape.(subtopics := Shape.subtopics[t.topicName := t.Shape]), Repr + t.Repr;
      assert forall u | u in subtopics :: u.Valid();
      assert forall n | Has(Shape, n) :: Has(old(Shape), n) || n == t.topicName;
    }

    method Abandon(t: Topic)
      requires t in subtopics && LinkedBut({t}) && subtopics <= Repr
      requires forall u | u in subtopics :: u.Valid() && this !in u.Repr
      modifies this
      ensures Valid() && Repr == old(Repr)
      ensures Shape == old(Shape).(subtopics := old(Shape).subtopics - {t.topicName})
    {
      subtopics := subtopics - {t};
      Shape := Shape.(subtopics := Shape.subtopics - {t.topicName});
      assert forall u | u in subtopics :: u.Valid();
      assert forall n | Has(Shape, n) :: Has(old(Shape), n);
    }

    constructor (name: string)
      ensures Valid() && fresh(Repr) && Repr == {this} && Shape == BARE && topicName == name
      ensures Holds({})
    {
      topicName, parameters, subtopics := name, {}, {};
      Shape, Repr := BARE, {this};
    }

    lemma IsBare()
      requires Valid()
      ensures Shape == BARE <==> parameters == {} && subtopics == {}
    {
      assert forall t | t in subtopics :: t.topicName in Shape.subtopics;
      assert forall n | n in Shape.subtopics :: Has(Shape, n);
    }

    /** The loop by which insert, erase and GetMatch look for the next level. */
    method FindSubtopic(name: string) returns (found: Topic?)
      requires Valid()
      ensures found != null ==> found in subtopics && found.topicName == name
      ensures found == null ==> !Has(Shape, name)
    {
      var todo := subtopics;
      while todo != {}
        invariant todo <= subtopics
        invariant forall t | t in subtopics - todo :: t.topicName != name
      {
        var t :| t in todo;
        todo := todo - {t};
        if t.topicName == name {
          return t;
        }
      }
      found := null;
    }

    method Adopt(t: Topic)
      requires Valid() && t.Valid() && t.Repr !! Repr && t.topicName !in Shape.subtopics
      modifies this
      ensures Valid() && Repr == old(Repr) + t.Repr
      ensures Shape == old(Shape).(subtopics := old(Shape).subtopics[t.topicName := t.Shape])
    {
      subtopics := subtopics + {t};
      assert forall u | u in subtopics :: u.Valid();
      Relink(t);
    }

    method Insert(p: Parameter, depth: nat)
      requires Valid() && depth < |p.splitName|
      modifies Repr
      ensures Valid() && fresh(Repr - old(Repr))
      ensures Shape == Plant(old(Shape), p, depth)
      decreases |p.splitName| - depth
    {
      if |p.splitName| == depth + 1 {
        parameters := parameters + {p};
        Shape := Shape.(parameters := parameters);
        assert forall n | Has(Shape, n) :: Has(old(Shape), n);
        return;
      }
      var t := FindSubtopic(p.splitName[depth]);
      if t == null {
        t := new Topic(p.splitName[depth]);
        t.Insert(p, depth + 1);
        Adopt(t);
      } else {
        assert forall u | u in subtopics && u != t :: u.Repr !! t.Repr && u in u.Repr;
        t.Insert(p, depth + 1);
        Beneath(t);
        Relink(t);
      }
    }

    method Erase(p: Parameter, depth: nat)
      requires Valid() && depth < |p.splitName|
      modifies Repr
      ensures Valid() && Repr <= old(Repr)
      ensures Shape == Uproot(old(Shape), p, depth)
      decreases |p.splitName| - depth
    {
      if |p.splitName| == depth + 1 {
        parameters := parameters - {p};
        Shape := Shape.(parameters := parameters);
        assert forall n | Has(Shape, n) :: Has(old(Shape), n);
        return;
      }
      var t := FindSubtopic(p.splitName[depth]);
      if t != null {
        assert forall u | u in subtopics && u != t :: u.Repr !! t.Repr && u in u.Repr;
        t.Erase(p, depth + 1);
        Beneath(t);
        t.IsBare();
        if t.parameters == {} && t.subtopics == {} {
          Abandon(t);
        } else {
          Relink(t);
        }
      }
    }

    lemma GatherAbove(t: Topic, pattern: Path)
      requires Valid() && t in subtopics && Enters(pattern, t.topicName)
      ensures Gather(t.Shape, Deeper(pattern)) <= Gather(Shape, pattern)
    {
      assert t.topicName in Shape.subtopics && Shape.subtopics[t.topicName] == t.Shape;
    }

    lemma GatherWithin(pattern: Path, params: set<Parameter>)
      requires Valid() && Here(Shape, pattern) <= params
      requires forall t | t in subtopics && Enters(pattern, t.topicName) :: Gather(t.Shape, Deeper(pattern)) <= params
      ensures Gather(Shape, pattern) <= params
    {
      forall p | p in Gather(Shape, pattern) && p !in Here(Shape, pattern)
        ensures p in params
      {
        var n :| n in Shape.subtopics && Enters(pattern, n) && p in Gather(Shape.subtopics[n], Deeper(pattern));
        assert Has(Shape, n);
        var t :| t in subtopics && t.topicName == n;
      }
    }

    method GetAllMatches(pattern: Path) returns (params: set<Parameter>)
      requires Valid()
      ensures params == Gather(Shape, pattern)
      decreases Repr
    {
      if pattern[0] != "*" && |pattern| == 1 {
        params := LastLevel(pattern[0]);
      } else {
        params := if pattern[0] == "*" then parameters else {};
        var todo := subtopics;
        while todo != {}
          invariant todo <= subtopics
          invariant Here(Shape, pattern) <= params <= Gather(Shape, pattern)
          invariant forall t | t in subtopics - todo && Enters(pattern, t.topicName) ::
                      Gather(t.Shape, Deeper(pattern)) <= params
        {
          var t :| t in todo;
          todo := todo - {t};
          if Enters(pattern, t.topicName) {
            var more := t.GetAllMatches(Deeper(pattern));
            params := params + more;
            GatherAbove(t, pattern);
          }
        }
        GatherWithin(pattern, params);
      }
    }

    method LastLevel(name: string) returns (params: set<Parameter>)
      ensures params == set p | p in parameters && p.splitName[|p.splitName| - 1] == name
    {
      params := {};
      var todo := parameters;
      while todo != {}
        invariant todo <= parameters
        invariant params == set p | p in parameters - todo && p.splitName[|p.splitName| - 1] == name
      {
        var p :| p in todo;
        todo := todo - {p};
        if p.splitName[|p.splitName| - 1] == name {
          params := params + {p};
        }
      }
    }

    method GetMatch(pattern: Path) returns (found: Parameter?)
      requires Valid()
      ensures found != null ==> found in Candidates(Shape, pattern)
      ensures found == null ==> Candidates(Shape, pattern) == {}
      decreases |pattern|
    {
      if |pattern| == 1 {
        var todo := parameters;
        while todo != {}
          invariant todo <= parameters
          invariant forall p | p in parameters - todo :: p.splitName[|p.splitName| - 1] != pattern[0]
        {
          var p :| p in todo;
          todo := todo - {p};
          if p.splitName[|p.splitName| - 1] == pattern[|pattern| - 1] {
            return p;
          }
        }
      } else {
        var t := FindSubtopic(pattern[0]);
        if t != null {
          found := t.GetMatch(pattern[1..]);
          return;
        }
      }
      found := null;
    }

    // ---- the root: the calls with the default depth ----

    /** This is the root of a tree that stands for the set s. */
    ghost predicate Holds(s: set<Parameter>)
      reads this, Repr
      ensures Holds(s) ==> this in Repr
    {
      Valid() && Canonical(Shape, []) && Elements(Shape) == s
    }

    method InsertAtRoot(p: Parameter, ghost s: set<Parameter>)
      requires Holds(s)
      modifies Repr
      ensures Holds(s + {p}) && fresh(Repr - old(Repr))
    {
      assert Under([], p);
      PlantAdds(Shape, p, 0);
      PlantCanonical(Shape, [], p);
      Insert(p, 0);
    }

    method EraseAtRoot(p: Parameter, ghost s: set<Parameter>)
      requires Holds(s)
      modifies Repr
      ensures Holds(s - {p}) && Repr <= old(Repr)
    {
      assert Under([], p);
      UprootRemoves(Shape, [], p);
      UprootCanonical(Shape, [], p);
      Erase(p, 0);
    }

    method GetAllMatchesAtRoot(pattern: Path, ghost s: set<Parameter>) returns (params: set<Parameter>)
      requires Holds(s)
      ensures params == set p | p in s && Matches(pattern, p.splitName)
    {
      params := GetAllMatches(pattern);
      forall p: Parameter
        ensures p in params <==> p in s && Matches(pattern, p.splitName)
      {
        GatherIsFilter(Shape, [], pattern, p);
        assert Under([], p) && Rest([], p) == p.splitName;
      }
    }

    method GetMatchAtRoot(pattern: Path, ghost s: set<Parameter>) returns (found: Parameter?)
      requires Holds(s)
      ensures found != null ==> found in s && found.splitName == pattern
      ensures found == null ==> forall p | p in s :: p.splitName != pattern
    {
      found := GetMatch(pattern);
      forall p | p in s
        ensures p in Candidates(Shape, pattern) <==> p.splitName == pattern
      {
        CandidatesAreExact(Shape, [], pattern, p);
        assert Under([], p) && Rest([], p) == p.splitName;
      }
      if found != null {
        CandidatesAreExact(Shape, [], pattern, found);
      }
    }
  }
}
