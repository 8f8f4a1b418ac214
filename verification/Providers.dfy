/** From a provider through the server to a subscriber: when the provider sends at all, and how
    near the subscriber's value then is. */
module Providers {
  import opened Base
  import opened Topics
  import opened Filters
  import opened FilterLaws
  import opened Hops
  import opened Model
  import opened Runs

  // ---- does a topic stand at a client? ----

  /** Lines that make a client register the server with its parameter of that path. */
  predicate Announces(line: Line, path: Path) { line.Announce? && Matches(Segments(line.topic), path) }

  /** Lines that make it unregister the server: the name of a parameter is a topic, too. */
  predicate Retracts(line: Line, path: Path) {
    || (line.RetractPetition? && Matches(Segments(line.topic), path))
    || (line.RetractParameter? && Matches(Segments(line.name), path))
  }

  ghost predicate Tells(out: set<Entry>, p: Client, path: Path) {
    exists line :: (p, line) in out && Announces(line, path)
  }

  ghost predicate Withdraws(out: set<Entry>, p: Client, path: Path) {
    exists line :: (p, line) in out && Retracts(line, path)
  }

  /** Of the lines written to p since it was accepted, the latest that covers path announces it. */
  ghost predicate Stands(es: seq<Event>, p: Client, path: Path)
    requires IsRun(es)
  {
    es != [] &&
    var before, e := es[..|es| - 1], es[|es| - 1];
    var out := Out(After(before), e);
    || Tells(out, p, path)
    || (!Withdraws(out, p, path) && !(e.Accept? && e.c == p) && Stands(before, p, path))
  }

  /** Petitions that the step leaves without subscribers. */
  ghost function Losing(v: View, e: Event): set<string> {
    set n | n in v.petitions && v.petitions[n].clients == {e.c}
            && (e.Leave? || (e.Receive? && e.command == Unregister(n)))
  }

  /** Nobody but d subscribes to the parameter. */
  predicate Only(v: View, d: Client, path: Path) { path in v.params && v.params[path].clients <= {d} }

  /** Dropping petition n, which d alone holds, retracts what covers path: n itself, if nothing
      it covers has another subscriber, or a parameter that has none and that as a topic covers path. */
  ghost predicate Ends(v: View, d: Client, n: string, path: Path) {
    || (Matches(Segments(n), path) && forall q | q in v.Covered(n) :: Only(v, d, q))
    || (exists q :: q in v.Covered(n) && Only(v, d, q) && Matches(q, path))
  }

  ghost predicate Withdrawn(v: View, e: Event, path: Path) {
    exists n :: n in Losing(v, e) && Ends(v, e.c, n, path)
  }

  /** With a parameter that is called "*" everything is retracted. */
  lemma StarRetractsAll(v: View, e: Event, n: string, path: Path)
    requires n in Losing(v, e) && ["*"] in v.Covered(n) && Only(v, e.c, ["*"])
    ensures Withdrawn(v, e, path)
  {
    assert Matches(["*"], path);
    assert Ends(v, e.c, n, path);
  }

  /** What a clean-up retracts. */
  lemma DropWithdraws(w: View, dropped: set<string>, p: Client, path: Path)
    requires w.Named() && p in w.clients && dropped <= w.petitions.Keys
    ensures Withdraws(w.DropOut(dropped), p, path) <==>
            || (exists n :: n in dropped && w.AllVacant(w.Covered(n)) && Matches(Segments(n), path))
            || (exists q :: q in w.Doomed(dropped) && Matches(q, path))
  {
    var out := w.DropOut(dropped);
    if n :| n in dropped && w.AllVacant(w.Covered(n)) && Matches(Segments(n), path) {
      assert (p, RetractPetition(n)) in out && Retracts(RetractPetition(n), path);
    }
    if q :| q in w.Doomed(dropped) && Matches(q, path) {
      var line := RetractParameter(w.params[q].name);
      assert (p, line) in out && Retracts(line, path);
    }
    if Withdraws(out, p, path) {
      var line :| (p, line) in out && Retracts(line, path);
      if line.RetractParameter? {
        var q :| q in w.Doomed(dropped) && w.params[q].name == line.name;
        assert q == Segments(line.name);
      }
    }
  }

  /** The state before the clean-up: d has left what the petitions of Losing cover. */
  ghost predicate Left(v: View, w: View, d: Client, losing: set<string>) {
    && w.Named() && w.params.Keys == v.params.Keys && w.petitions.Keys == v.petitions.Keys && w.Empty() == losing
    && (forall n, q | n in losing && q in v.Covered(n) :: w.params[q].clients == v.params[q].clients - {d})
  }

  lemma LeftWithdraws(v: View, w: View, d: Client, losing: set<string>, p: Client, path: Path)
    requires Left(v, w, d, losing) && p in w.clients && losing <= v.petitions.Keys
    ensures Withdraws(w.DropOut(losing), p, path) <==> exists n :: n in losing && Ends(v, d, n, path)
  {
    DropWithdraws(w, losing, p, path);
    forall n | n in losing
      ensures w.Covered(n) == v.Covered(n)
      ensures w.AllVacant(w.Covered(n)) <==> forall q | q in v.Covered(n) :: Only(v, d, q)
    {
      LeftVacant(v, w, d, losing, n);
    }
    LeftDoomed(v, w, d, losing);
    if n :| n in losing && Ends(v, d, n, path) {
      if q :| q in v.Covered(n) && Only(v, d, q) && Matches(q, path) {
        assert q in w.Doomed(losing);
      }
    }
    if q :| q in w.Doomed(losing) && Matches(q, path) {
      var n :| n in losing && q in v.Covered(n) && Only(v, d, q);
      assert Ends(v, d, n, path);
    }
    if n :| n in losing && w.AllVacant(w.Covered(n)) && Matches(Segments(n), path) {
      assert Ends(v, d, n, path);
    }
  }

  lemma LeftVacant(v: View, w: View, d: Client, losing: set<string>, n: string)
    requires Left(v, w, d, losing) && n in losing
    ensures w.Covered(n) == v.Covered(n)
    ensures w.AllVacant(w.Covered(n)) <==> forall q | q in v.Covered(n) :: Only(v, d, q)
  {
    forall q | q in v.Covered(n)
      ensures w.params[q].clients == {} <==> Only(v, d, q)
    {}
  }

  lemma LeftDoomed(v: View, w: View, d: Client, losing: set<string>)
    requires Left(v, w, d, losing) && losing <= v.petitions.Keys
    ensures forall q :: q in w.Doomed(losing) <==> exists n :: n in losing && q in v.Covered(n) && Only(v, d, q)
  {
    forall q
      ensures q in w.Doomed(losing) <==> exists n :: n in losing && q in v.Covered(n) && Only(v, d, q)
    {
      if q in w.Doomed(losing) {
        var n :| n in w.Covering(q) * losing;
        assert q in v.Covered(n) && Only(v, d, q);
      }
      if n :| n in losing && q in v.Covered(n) && Only(v, d, q) {
        assert n in w.Covering(q) * losing;
      }
    }
  }

  lemma UnregisterLeaves(v: View, d: Client, n: string)
    requires v.Inv()
    ensures Left(v, v.Withdraw(d, n), d, Losing(v, Receive(d, Unregister(n))))
  {
    hide MarginOf, Param.Valid, View.Asks;
    var w, losing := v.Withdraw(d, n), Losing(v, Receive(d, Unregister(n)));
    if n in v.petitions {
      assert forall m | m in w.petitions :: w.petitions[m].clients == {} <==> m in losing;
    }
    assert w.Empty() == losing;
  }

  lemma LeaveLeaves(v: View, d: Client)
    requires v.Inv()
    ensures Left(v, v.Forget(d), d, Losing(v, Leave(d)))
  {
    var w := v.Forget(d);
    assert forall m | m in w.petitions :: w.petitions[m].clients == v.petitions[m].clients - {d};
    assert w.Empty() == Losing(v, Leave(d));
    forall n, q | n in Losing(v, Leave(d)) && q in v.Covered(n)
      ensures w.params[q].clients == v.params[q].clients - {d}
    {
      assert n in v.Covering(q) * v.petitions.Keys;
    }
  }

  /** The step makes the topic stand at p: a new petition covers path, or p is new and some do. */
  ghost predicate Told(v: View, e: Event, p: Client, path: Path) {
    match e
    case Accept(c, _) => c == p && v.Covering(path) != {}
    case Receive(_, command) =>
      command.Register? && command.topic !in v.petitions && Matches(Segments(command.topic), path)
    case Leave(_) => false
  }

  lemma StepWithdraws(v: View, e: Event, p: Client, path: Path)
    requires v.Inv() && v.Sendable() && Legal(v, e) && p in Step(v, e).clients
    ensures Withdraws(Out(v, e), p, path) <==> Withdrawn(v, e, path)
  {
    if e.Leave? {
      LeaveLeaves(v, e.c);
      LeftWithdraws(v, v.Forget(e.c), e.c, Losing(v, e), p, path);
    } else if e.Receive? && e.command.Unregister? {
      UnregisterLeaves(v, e.c, e.command.topic);
      LeftWithdraws(v, v.Withdraw(e.c, e.command.topic), e.c, Losing(v, e), p, path);
    } else {
      NothingRetracted(v, e);
      assert Losing(v, e) == {};
    }
  }

  lemma NothingRetracted(v: View, e: Event)
    requires v.Sendable() && Legal(v, e) && !e.Leave? && !(e.Receive? && e.command.Unregister?)
    ensures forall c, line | (c, line) in Out(v, e) :: !line.RetractPetition? && !line.RetractParameter?
  {}

  lemma StepTells(v: View, e: Event, p: Client, path: Path)
    requires v.Inv() && v.Sendable() && Legal(v, e) && p in Step(v, e).clients
    ensures Tells(Out(v, e), p, path) <==> Told(v, e, p, path)
  {
    hide View.Inv, View.Sendable, Legal, Step, Out;
    if Told(v, e, p, path) {
      if e.Accept? {
        var n :| n in v.Covering(path);
        IsTold(v, e, p, n, path);
      } else {
        IsTold(v, e, p, e.command.topic, path);
      }
    }
    if Tells(Out(v, e), p, path) {
      var line :| (p, line) in Out(v, e) && Announces(line, path);
      assert line == Announce(line.topic);
      AnnouncedIsTold(v, e, p, line.topic, path);
    }
  }

  lemma IsTold(v: View, e: Event, p: Client, n: string, path: Path)
    requires v.Inv() && v.Sendable() && Legal(v, e) && p in Step(v, e).clients && Matches(Segments(n), path)
    requires if e.Accept? then e.c == p && n in v.petitions
             else e.Receive? && e.command == Register(n) && n !in v.petitions
    ensures Tells(Out(v, e), p, path)
  {
    StepAnnounces(v, e, p, n);
    assert (p, Announce(n)) in Out(v, e) && Announces(Announce(n), path);
  }

  lemma AnnouncedIsTold(v: View, e: Event, p: Client, n: string, path: Path)
    requires v.Inv() && v.Sendable() && Legal(v, e) && p in Step(v, e).clients && (p, Announce(n)) in Out(v, e)
    requires Matches(Segments(n), path)
    ensures Told(v, e, p, path)
  {
    hide View.Inv, Matches;
    AnnouncedIsHeld(v, e, p, n);
    StepAnnounces(v, e, p, n);
    assert n in v.petitions ==> n in v.Covering(path);
  }

  lemma AnnouncedIsHeld(v: View, e: Event, p: Client, n: string)
    requires v.Inv() && v.Sendable() && Legal(v, e) && p in Step(v, e).clients && (p, Announce(n)) in Out(v, e)
    ensures if e.Accept? then e.c == p && n in v.petitions else p in v.clients && e.Receive? && e.command == Register(n)
    ensures n in Step(v, e).petitions
  {
    hide MarginOf, Param.Valid, Shadow.Reads, Matches, Param.Sent, Param.Audience, View.Target, View.Sendable;
  }

  /** No step does both, so the order of its lines does not matter. */
  lemma NeverBoth(v: View, e: Event, p: Client, path: Path)
    requires v.Inv() && v.Sendable() && Legal(v, e) && p in Step(v, e).clients
    ensures !(Tells(Out(v, e), p, path) && Withdraws(Out(v, e), p, path))
  {
    StepTells(v, e, p, path);
    StepWithdraws(v, e, p, path);
  }

  /** What each step does to the standing of a topic at a client, from the state before it. */
  lemma StandsOn(es: seq<Event>, e: Event, p: Client, path: Path)
    requires IsRun(es) && Legal(After(es), e) && p in Step(After(es), e).clients
    ensures IsRun(es + [e]) && After(es + [e]) == Step(After(es), e)
    ensures var v := After(es);
            Stands(es + [e], p, path) <==>
            Told(v, e, p, path) || (!Withdrawn(v, e, path) && !(e.Accept? && e.c == p) && Stands(es, p, path))
  {
    hide Legal, Step, Out, View.Inv, View.Sendable, After, IsRun, Told, Withdrawn, Tells, Withdraws;
    OneStep(es, e);
    assert (es + [e])[..|es|] == es;
    StepTells(After(es), e, p, path);
    StepWithdraws(After(es), e, p, path);
  }

  /** No step of the run withdraws what covers path. */
  ghost predicate Undisturbed(es: seq<Event>, path: Path)
    requires IsRun(es)
  {
    es == [] || (Undisturbed(es[..|es| - 1], path) && !Withdrawn(After(es[..|es| - 1]), es[|es| - 1], path))
  }

  /** Then what some petition asks for stands at every connected client. */
  lemma {:induction false} AskedStands(es: seq<Event>, p: Client, path: Path)
    requires IsRun(es) && p in After(es).clients && After(es).Covering(path) != {} && Undisturbed(es, path)
    ensures Stands(es, p, path)
    decreases |es|
  {
    hide Stands, Withdrawn, Told, Step, Legal, View.Inv, View.Sendable, View.Covering;
    if es == [] {
      NothingAsked(path);
    } else {
      var before, e := es[..|es| - 1], es[|es| - 1];
      assert es == before + [e];
      StandsOn(before, e, p, path);
      if !Told(After(before), e, p, path) {
        StillAsked(After(before), e, p, path);
        AskedStands(before, p, path);
      }
    }
  }

  lemma NothingAsked(path: Path)
    ensures EMPTY.Covering(path) == {}
  {}

  lemma StillAsked(v: View, e: Event, p: Client, path: Path)
    requires v.Inv() && v.Sendable() && Legal(v, e) && p in Step(v, e).clients && !Told(v, e, p, path)
    requires Step(v, e).Covering(path) != {}
    ensures !(e.Accept? && e.c == p) && p in v.clients && v.Covering(path) != {}
  {
    hide MarginOf, Param.Valid, Shadow.Reads, Matches, Param.Sent, View.Target, View.Sendable;
    var n :| n in Step(v, e).Covering(path);
    assert n in v.petitions ==> n in v.Covering(path);
  }

  // ---- delivery ----

  /** What p has for path reaches c: p has been told to send it, and the server, if it has such a
      parameter, to pass it on. */
  ghost predicate Delivers(es: seq<Event>, p: Client, c: Client, path: Path)
    requires IsRun(es)
  {
    Stands(es, p, path) && (path in After(es).params ==> c in After(es).params[path].clients)
  }

  /** c itself takes back a petition that covers the parameter. */
  ghost predicate TakesBack(v: View, e: Event, c: Client, path: Path) {
    && e.Receive? && e.command.Unregister? && e.c == c
    && e.command.topic in v.petitions && path in v.Covered(e.command.topic)
  }

  /** When somebody unregisters or leaves, delivery to c, whatever else it asks for, ends exactly
      when the step retracts something that covers path or c takes back a petition that covers
      the parameter, even one that only others hold. */
  lemma DeliveryEnds(es: seq<Event>, e: Event, p: Client, c: Client, path: Path)
    requires IsRun(es) && Legal(After(es), e) && (e.Leave? || (e.Receive? && e.command.Unregister?))
    requires p in Step(After(es), e).clients && c in Step(After(es), e).clients && Delivers(es, p, c, path)
    ensures IsRun(es + [e]) && After(es + [e]) == Step(After(es), e)
    ensures Delivers(es + [e], p, c, path) <==>
            !Withdrawn(After(es), e, path) && !TakesBack(After(es), e, c, path)
  {
    hide Legal, Step, View.Inv, View.Sendable, After, IsRun, Told, Withdrawn, TakesBack, Stands;
    StandsOn(es, e, p, path);
    NotTold(After(es), e, p, path);
    if !Withdrawn(After(es), e, path) {
      PassedOn(After(es), e, c, path);
    }
  }

  lemma NotTold(v: View, e: Event, p: Client, path: Path)
    requires e.Leave? || (e.Receive? && e.command.Unregister?)
    ensures !Told(v, e, p, path)
  {}

  lemma PassedOn(v: View, e: Event, c: Client, path: Path)
    requires v.Inv() && v.Sendable() && Legal(v, e) && (e.Leave? || (e.Receive? && e.command.Unregister?))
    requires c in Step(v, e).clients && (path in v.params ==> c in v.params[path].clients) && !Withdrawn(v, e, path)
    ensures (path in Step(v, e).params ==> c in Step(v, e).params[path].clients) <==> !TakesBack(v, e, c, path)
  {
    hide MarginOf, Param.Valid, View.Inv, View.Sendable;
    if TakesBack(v, e, c, path) {
      MatchesItself(path);
      TakenBackSurvives(v, c, e.command.topic, path);
    }
  }

  /** Were it deleted, its retraction would cover path. */
  lemma TakenBackSurvives(v: View, c: Client, n: string, path: Path)
    requires v.Inv() && n in v.petitions && path in v.Covered(n) && c in v.params[path].clients && Matches(path, path)
    requires !Withdrawn(v, Receive(c, Unregister(n)), path)
    ensures path in v.Unregister(c, n).params && c !in v.Unregister(c, n).params[path].clients
  {
    var e := Receive(c, Unregister(n));
    UnregisterLeaves(v, c, n);
    LeftDoomed(v, v.Withdraw(c, n), c, Losing(v, e));
    assert n in Losing(v, e) && Only(v, c, path) ==> Ends(v, c, n, path);
    assert forall m | m in Losing(v, e) :: m == n;
  }

  // ---- from a provider through the server ----

  /** What c's entry with a numeric parameter stands for: the number last pushed to it since it
      was last registered, or 0. */
  ghost function HeldIn(es: seq<Event>, c: Client, path: Path): real
    requires IsRun(es)
  {
    var text := LastPushed(es, c, path);
    if text.Some? && Stof(text.value).Some? then Stof(text.value).value else 0.0
  }

  lemma EntryIsHeld(es: seq<Event>, c: Client, path: Path)
    requires IsRun(es) && path in After(es).params && c in After(es).params[path].clients
    requires After(es).params[path].shadow.Numeric?
    ensures var last := After(es).params[path].shadow.last; c in last && last[c] == HeldIn(es, c, path)
  {
    hide LastPushed, After;
    ShadowReflects(es, c, path);
  }

  /** Lines of one client that assign one text after the other. */
  function Assigns(d: Client, name: string, texts: seq<string>): (es: seq<Event>)
    ensures |es| == |texts|
  {
    if texts == [] then [] else Assigns(d, name, texts[..|texts| - 1]) + [Receive(d, Assign(name, texts[|texts| - 1]))]
  }

  /** The texts are those of the numbers. */
  predicate Reading(texts: seq<string>, vs: seq<real>) {
    |texts| == |vs| && forall k | 0 <= k < |texts| :: Stof(texts[k]) == Some(vs[k])
  }

  /** c subscribes to the numeric parameter name, which d assigns. */
  ghost predicate Serves(v: View, d: Client, name: string, c: Client) {
    var path := Segments(name);
    && d in v.clients && Splits(name) && path in v.params && c in v.params[path].clients
    && MarginOf(v.params[path].name).Some?
  }

  function MarginAt(v: View, name: string): real {
    var path := Segments(name);
    if path in v.params && MarginOf(v.params[path].name).Some? then MarginOf(v.params[path].name).value else 0.0
  }

  lemma MarginIsPositive(v: View, d: Client, name: string, c: Client)
    requires Serves(v, d, name, c)
    ensures MarginAt(v, name) > 0.0
  {}

  lemma OneAssigned(v: View, d: Client, name: string, c: Client, text: string)
    requires v.Inv() && Serves(v, d, name, c) && Stof(text).Some?
    ensures var path, e := Segments(name), Receive(d, Assign(name, text));
            && Legal(v, e) && Serves(Step(v, e), d, name, c) && MarginAt(Step(v, e), name) == MarginAt(v, name)
            && v.params[path].shadow.Numeric? && c in v.params[path].shadow.last
            && Step(v, e).params[path].shadow.Numeric? && c in Step(v, e).params[path].shadow.last
            && Step(v, e).params[path].shadow.last[c]
               == Next(MarginAt(v, name), v.params[path].shadow.last[c], Stof(text).value)
  {
    hide MarginOf, Next, Stale;
    assert v.params[Segments(name)].Valid();
  }

  /** The server's filter is fed what is assigned. */
  lemma {:induction false} AssignsFeed(es: seq<Event>, d: Client, name: string, c: Client, texts: seq<string>,
                                       vs: seq<real>)
    requires IsRun(es) && Serves(After(es), d, name, c) && Reading(texts, vs)
    ensures var path, all := Segments(name), es + Assigns(d, name, texts);
            && IsRun(all) && Serves(After(all), d, name, c) && MarginAt(After(all), name) == MarginAt(After(es), name)
            && HeldIn(all, c, path) == Kept(MarginAt(After(es), name), HeldIn(es, c, path), vs)
    decreases |texts|
  {
    hide Serves, HeldIn, MarginAt, Step, Legal, View.Inv, View.Sendable, After, IsRun;
    if texts == [] {
      assert es + Assigns(d, name, texts) == es;
    } else {
      var before, text := texts[..|texts| - 1], texts[|texts| - 1];
      var so, e := es + Assigns(d, name, before), Receive(d, Assign(name, text));
      AssignsFeed(es, d, name, c, before, vs[..|vs| - 1]);
      OneAssigned(After(so), d, name, c, text);
      OneStep(so, e);
      assert es + Assigns(d, name, texts) == so + [e];
      OneHeld(so, e, d, name, c);
    }
  }

  lemma OneHeld(es: seq<Event>, e: Event, d: Client, name: string, c: Client)
    requires IsRun(es) && Serves(After(es), d, name, c) && IsRun(es + [e]) && Serves(After(es + [e]), d, name, c)
    ensures var path := Segments(name);
            && After(es).params[path].shadow.Numeric? && c in After(es).params[path].shadow.last
            && After(es + [e]).params[path].shadow.Numeric? && c in After(es + [e]).params[path].shadow.last
            && HeldIn(es, c, path) == After(es).params[path].shadow.last[c]
            && HeldIn(es + [e], c, path) == After(es + [e]).params[path].shadow.last[c]
  {
    hide After, IsRun, HeldIn;
    assert After(es).params[Segments(name)].Valid() && After(es + [e]).params[Segments(name)].Valid();
    EntryIsHeld(es, c, Segments(name));
    EntryIsHeld(es + [e], c, Segments(name));
  }

  /** d has read what was written to it: it has an entry exactly when the topic stands at it. */
  ghost predicate HasRead(es: seq<Event>, d: Client, path: Path, fs: seq<Change>)
    requires IsRun(es)
  {
    Listening(fs) <==> Stands(es, d, path)
  }

  /** A provider whose filter has been through fs goes on to more, and the server gets the lines
      this makes it write: the subscriber is within twice the margin of the provider's value,
      and exact at 0, whatever follows, exactly when the topic stands at the provider and the
      subscriber is settled. */
  lemma ProvidersReachSubscribers(es: seq<Event>, d: Client, name: string, c: Client,
                                  fs: seq<Change>, more: seq<real>, texts: seq<string>)
    requires IsRun(es) && Serves(After(es), d, name, c) && HasRead(es, d, Segments(name), fs)
    requires Reading(texts, SentBy(MarginAt(After(es), name), Provided(MarginAt(After(es), name), fs), more))
    ensures var path, all, margin := Segments(name), es + Assigns(d, name, texts), MarginAt(After(es), name);
            var entry, held := Provided(margin, fs), HeldIn(es, c, path);
            && IsRun(all) && Serves(After(all), d, name, c)
            && HeldIn(all, c, path) == Through(margin, entry, held, more)
            && (Settled(margin, entry, held) && more != [] ==>
                  Close(2.0 * margin, HeldIn(all, c, path), Current(more)))
            && (StaysCloseTwice(margin, entry, held) <==> Stands(es, d, path) && Settled(margin, entry, held))
  {
    hide Serves, HeldIn, After, IsRun, StaysCloseTwice, MarginAt, Step, View.Inv, View.Sendable, Stands;
    MarginIsPositive(After(es), d, name, c);
    var margin := MarginAt(After(es), name);
    var entry, held := Provided(margin, fs), HeldIn(es, c, Segments(name));
    AssignsFeed(es, d, name, c, texts, SentBy(margin, entry, more));
    SettledForEver(margin, entry, held);
    ListeningIsProvided(margin, fs);
    if Settled(margin, entry, held) {
      SettledStays(margin, entry, held, more);
    }
  }

  /** When the provider has an entry, and its value has arrived, every subscriber is settled,
      whenever and for whatever topic it registered. */
  lemma ArrivedIsSettled(es: seq<Event>, d: Client, name: string, c: Client, fs: seq<Change>)
    requires IsRun(es) && Serves(After(es), d, name, c) && Arrived(es, name, fs)
    ensures var margin, held := MarginAt(After(es), name), HeldIn(es, c, Segments(name));
            Close(margin, held, Provided(margin, fs).value) && Settled(margin, Provided(margin, fs), held)
  {
    hide After, IsRun, LatestAssigned, LastPushed;
    ValuesAreLatest(es, Segments(name));
    SubscribersAreUpToDate(es, c, Segments(name));
  }

  /** The provider has an entry, and that is the number assigned last. */
  ghost predicate Arrived(es: seq<Event>, name: string, fs: seq<Change>)
    requires IsRun(es)
  {
    var entry, text := Provided(MarginAt(After(es), name), fs), LatestAssigned(es, Segments(name));
    entry.Some? && text.Some? && Stof(text.value) == entry
  }

  /** In any run, whatever comes between: when the line for the provider's value, or the one that
      made it unnecessary, is the latest assigned, every subscriber is within twice the margin of
      that value, and exact at 0. */
  lemma ArrivedIsClose(es: seq<Event>, d: Client, name: string, c: Client, gs: seq<Change>, val: real)
    requires IsRun(es) && Serves(After(es), d, name, c) && Arrived(es, name, gs + [Value(val)])
    ensures Close(2.0 * MarginAt(After(es), name), HeldIn(es, c, Segments(name)), val)
  {
    hide After, IsRun, LatestAssigned, HeldIn, Serves, MarginAt;
    var margin, fs := MarginAt(After(es), name), gs + [Value(val)];
    MarginIsPositive(After(es), d, name, c);
    ArrivedIsSettled(es, d, name, c, fs);
    assert fs[..|gs|] == gs && [val][..0] == [];
  }
}
