/** The state read off the events alone: who is connected, who holds which petition, which
    parameters there are, and who subscribes to and provides them. */
module Histories {
  import opened Base
  import opened Topics
  import opened Model
  import opened Runs
  import opened Providers
  import opened Lives

  ghost function Connected(es: seq<Event>): set<Client> {
    if es == [] then {}
    else
      var before := Connected(es[..|es| - 1]);
      match es[|es| - 1]
      case Accept(c, _) => before + {c}
      case Leave(c) => before - {c}
      case Receive(_, _) => before
  }

  /** Those for whom registering the petition is the latest of what they did about it since they
      were accepted. */
  ghost function Holders(es: seq<Event>, n: string): set<Client> {
    if es == [] then {}
    else
      var before := Holders(es[..|es| - 1], n);
      match es[|es| - 1]
      case Accept(c, _) => before - {c}
      case Leave(c) => before - {c}
      case Receive(c, command) =>
        if command == Register(n) then before + {c}
        else if command == Unregister(n) then before - {c}
        else before
  }

  ghost predicate Asks(es: seq<Event>, c: Client, path: Path) {
    exists n :: c in Holders(es, n) && Matches(Segments(n), path)
  }

  /** e takes the last holder from a petition that covers the parameter, and nobody else
      subscribes to it. */
  ghost predicate Gone(es: seq<Event>, e: Event, path: Path)
    decreases |es|, 2
  {
    && Subscribers(es, path) <= {e.c}
    && exists n ::
         && (e.Leave? || (e.Receive? && e.command == Unregister(n)))
         && Holders(es, n) == {e.c} && Matches(Segments(n), path)
  }

  /** There is such a parameter: it was assigned, and since then it was not deleted and did not
      lose its last provider. */
  ghost predicate Present(es: seq<Event>, path: Path)
    decreases |es|, 0
  {
    es != [] &&
    var before, e := es[..|es| - 1], es[|es| - 1];
    || Sets(e, path)
    || (Present(before, path) && !(e.Leave? && Suppliers(before, path) == {e.c}) && !Gone(before, e, path))
  }

  /** Those who asked for it when it was made or afterwards, and took nothing back since that
      covers it and that somebody held. */
  ghost function Subscribers(es: seq<Event>, path: Path): set<Client>
    decreases |es|, 1
  {
    if es == [] || !Present(es, path) then {}
    else
      var before, e := es[..|es| - 1], es[|es| - 1];
      if !Present(before, path) then set c | c in Connected(before) && Asks(before, c, path)
      else
        var so := Subscribers(before, path);
        if e.Leave? then so - {e.c}
        else if e.Receive? && e.command.Register? && Matches(Segments(e.command.topic), path) then so + {e.c}
        else if e.Receive? && e.command.Unregister? && Matches(Segments(e.command.topic), path)
                && Holders(before, e.command.topic) != {} then so - {e.c}
        else so
  }

  /** Those who assigned it and are still connected. */
  ghost function Suppliers(es: seq<Event>, path: Path): set<Client>
    decreases |es|, 1
  {
    if es == [] || !Present(es, path) then {}
    else
      var before, e := Suppliers(es[..|es| - 1], path), es[|es| - 1];
      if Sets(e, path) then before + {e.c} else if e.Leave? then before - {e.c} else before
  }

  /** The name the parameter was made with: names that split alike are one parameter. */
  ghost function NameOf(es: seq<Event>, path: Path): string {
    if es == [] then ""
    else
      var before, e := es[..|es| - 1], es[|es| - 1];
      if Sets(e, path) && !Present(before, path) then e.command.name else NameOf(before, path)
  }

  lemma ConnectedStep(v: View, e: Event)
    requires v.Sendable() && Legal(v, e)
    ensures Step(v, e).clients ==
            match e case Accept(c, _) => v.clients
                + {c} case Leave(c) => v.clients - {c} case Receive(_, _) => v.clients
  {}

  /** Who is connected after a run. */
  lemma {:induction false} ConnectedIsState(es: seq<Event>)
    requires IsRun(es)
    ensures After(es).clients == Connected(es)
    decreases |es|
  {
    hide Step, Legal, View.Inv, View.Sendable;
    if es != [] {
      ConnectedIsState(es[..|es| - 1]);
      ConnectedStep(After(es[..|es| - 1]), es[|es| - 1]);
    }
  }

  /** Who holds a petition after a run; there is one while somebody does. */
  lemma {:induction false} HoldersAreState(es: seq<Event>, n: string)
    requires IsRun(es)
    ensures After(es).PetitionOf(n).clients == Holders(es, n)
    ensures n in After(es).petitions <==> Holders(es, n) != {}
    decreases |es|
  {
    hide Step, Legal, View.Sendable;
    if es != [] {
      var before, e := es[..|es| - 1], es[|es| - 1];
      HoldersAreState(before, n);
      forall c
        ensures c in After(es).PetitionOf(n).clients <==> c in Holders(es, n)
      {
        StepHolds(After(before), e, c, n);
        StrangersHoldNothing(After(before), e, n);
      }
    }
  }

  lemma StrangersHoldNothing(v: View, e: Event, n: string)
    requires v.Inv() && Legal(v, e)
    ensures e.Accept? && n in v.petitions ==> e.c !in v.petitions[n].clients
  {}

  // ---- parameters ----

  /** The events say the same of the parameter as the state. */
  ghost predicate AgreesAt(es: seq<Event>, v: View, path: Path) {
    && (path in v.params <==> Present(es, path))
    && (path in v.params ==>
          var p := v.params[path];
          p.clients == Subscribers(es, path) && p.providers == Suppliers(es, path) && p.name == NameOf(es, path))
  }

  ghost predicate HeldAlike(es: seq<Event>, v: View) {
    forall n :: v.PetitionOf(n).clients == Holders(es, n) && (n in v.petitions <==> Holders(es, n) != {})
  }

  /** Which parameters there are after a run, what they are called, and who subscribes to and
      provides them. */
  lemma {:induction false} PresentIsState(es: seq<Event>, path: Path)
    requires IsRun(es)
    ensures AgreesAt(es, After(es), path)
    decreases |es|
  {
    if es != [] {
      hide Step, Legal, View.Inv, View.Sendable, AgreesAt, HeldAlike;
      var before, e := es[..|es| - 1], es[|es| - 1];
      var v := After(before);
      PresentIsState(before, path);
      HeldAlikeInRuns(before);
      ConnectedIsState(before);
      HoldersAreConnected(v);
      StepLives(v, e, path);
      if path in Step(v, e).params {
        StepKeeps(v, e, path);
      }
      PresentNext(es, v, Step(v, e), path);
    }
  }

  lemma HeldAlikeInRuns(es: seq<Event>)
    requires IsRun(es)
    ensures HeldAlike(es, After(es))
  {
    hide After, Holders;
    forall n
      ensures After(es).PetitionOf(n).clients == Holders(es, n) && (n in After(es).petitions <==> Holders(es, n) != {})
    {
      HoldersAreState(es, n);
    }
  }

  ghost predicate OnlyConnectedHold(v: View) { forall n | n in v.petitions :: v.petitions[n].clients <= v.clients }

  lemma HoldersAreConnected(v: View)
    requires v.Inv()
    ensures OnlyConnectedHold(v)
  {}

  /** One event more: what the state makes of it is what the events make of it. */
  lemma PresentNext(es: seq<Event>, v: View, w: View, path: Path)
    requires es != [] && var before := es[..|es| - 1];
             AgreesAt(before, v, path) && HeldAlike(before, v) && Connected(before) == v.clients
    requires OnlyConnectedHold(v)
    requires path in w.params <==> LivesOn(v, es[|es| - 1], path)
    requires path in w.params ==> Follows(v, es[|es| - 1], path, w.params[path])
    ensures AgreesAt(es, w, path)
  {
    var before, e := es[..|es| - 1], es[|es| - 1];
    if path in v.params {
      GoneIsDeleted(before, e, v, path);
    }
    if path in w.params {
      assert w.params[path].clients == Subscribers(es, path) by {
        forall c
          ensures c in w.params[path].clients <==> c in Subscribers(es, path)
        {
          SubscribersNext(es, v, c, path);
        }
      }
      assert w.params[path].providers == Suppliers(es, path);
    }
  }

  lemma SubscribersNext(es: seq<Event>, v: View, c: Client, path: Path)
    requires es != [] && var before := es[..|es| - 1];
             AgreesAt(before, v, path) && HeldAlike(before, v) && Connected(before) == v.clients
    requires OnlyConnectedHold(v) && Present(es, path)
    ensures SubscribesNext(v, es[|es| - 1], c, path) <==> c in Subscribers(es, path)
  {
    var before, e := es[..|es| - 1], es[|es| - 1];
    if path !in v.params {
      AsksAlike(before, v, c, path);
    } else if e.Receive? && e.command.Unregister? {
      assert v.PetitionOf(e.command.topic).clients == Holders(before, e.command.topic);
    }
  }

  lemma AsksAlike(es: seq<Event>, v: View, c: Client, path: Path)
    requires HeldAlike(es, v) && OnlyConnectedHold(v)
    ensures Asks(es, c, path) <==>
              exists n :: n in v.petitions && c in v.petitions[n].clients && Matches(Segments(n), path)
    ensures Asks(es, c, path) ==> c in v.clients
  {
    hide Holders;
    if Asks(es, c, path) {
      var n :| c in Holders(es, n) && Matches(Segments(n), path);
      assert n in v.petitions && c in v.petitions[n].clients;
    }
    if n :| n in v.petitions && c in v.petitions[n].clients && Matches(Segments(n), path) {
      assert v.PetitionOf(n).clients == Holders(es, n);
    }
  }

  lemma GoneIsDeleted(es: seq<Event>, e: Event, v: View, path: Path)
    requires AgreesAt(es, v, path) && HeldAlike(es, v) && path in v.params
    ensures Gone(es, e, path) <==> Deleted(v, e, path)
  {
    hide Holders, Subscribers;
    if Gone(es, e, path) {
      var n :| (e.Leave? || (e.Receive? && e.command == Unregister(n))) && Holders(es, n) == {e.c}
        && Matches(Segments(n), path);
      assert v.PetitionOf(n).clients == Holders(es, n);
      assert n in Losing(v, e) && path in v.Covered(n) && Only(v, e.c, path);
    }
    if Deleted(v, e, path) {
      var n :| n in Losing(v, e) && path in v.Covered(n) && Only(v, e.c, path);
      assert v.PetitionOf(n).clients == Holders(es, n);
    }
  }

  // ---- petitions are honoured ----

  /** A client that never unregisters subscribes to exactly the parameters that are covered by
      what it registered since it was accepted, whichever came first. */
  lemma FaithfulGetAll(es: seq<Event>, c: Client, path: Path)
    requires IsRun(es) && Faithful(es, c) && c in Connected(es) && Present(es, path)
    ensures c in Subscribers(es, path) <==> Asks(es, c, path)
  {
    hide After, Faithful, Holders, Subscribers, Present, Connected;
    ConnectedIsState(es);
    PresentIsState(es, path);
    FaithfulAreHonoured(es, c, path);
    HeldAlikeInRuns(es);
    HoldersAreConnected(After(es));
    AsksAlike(es, After(es), c, path);
    AsksIs(After(es), c, path);
  }

  lemma AsksIs(v: View, c: Client, path: Path)
    ensures v.Asks(c, path) <==>
              exists n :: n in v.petitions && c in v.petitions[n].clients && Matches(Segments(n), path)
  {
    if n :| n in v.petitions && c in v.petitions[n].clients && Matches(Segments(n), path) {
      assert n in v.Covering(path);
    }
  }
}
