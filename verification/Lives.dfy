/** What every step makes of each petition and each parameter, said of the state before it:
    who holds, who subscribes, who provides, what is kept and what is gone. */
module Lives {
  import opened Base
  import opened Topics
  import opened Filters
  import opened Model
  import opened Steps
  import opened Providers

  // ---- petitions ----

  /** d holds petition n after the step. */
  ghost predicate HoldsNext(v: View, e: Event, d: Client, n: string) {
    var held := n in v.petitions && d in v.petitions[n].clients;
    match e
    case Accept(_, _) => held
    case Leave(c) => held && d != c
    case Receive(c, command) =>
      if d == c && command == Register(n) then true
      else if d == c && command == Unregister(n) then false
      else held
  }

  lemma StepHolds(v: View, e: Event, d: Client, n: string)
    requires v.Inv() && v.Sendable() && Legal(v, e)
    ensures n in Step(v, e).petitions && d in Step(v, e).petitions[n].clients <==> HoldsNext(v, e, d, n)
  {
    hide MarginOf, Param.Valid, Shadow.Reads, Matches, Param.Sent, View.Target, View.Sendable;
    match e {
      case Accept(_, _) =>
      case Leave(c) => TidyHolds(v.Forget(c), d, n);
      case Receive(c, command) =>
        match command {
          case Register(_) =>
          case Unregister(m) => TidyHolds(v.Withdraw(c, m), d, n);
          case Assign(_, _) =>
          case Get(_) =>
          case NoRetain(_, _) =>
          case Ignored =>
        }
    }
  }

  /** The clean-up only drops petitions nobody holds. */
  lemma TidyHolds(w: View, d: Client, n: string)
    ensures n in w.Tidy().petitions && d in w.Tidy().petitions[n].clients
            <==> n in w.petitions && d in w.petitions[n].clients
  {
    assert n in w.Empty() ==> w.petitions[n].clients == {};
  }

  // ---- parameters ----

  /** A petition that the step leaves without holders takes the parameter with it, which nobody
      else subscribes to. */
  ghost predicate Deleted(v: View, e: Event, path: Path) {
    exists n :: n in Losing(v, e) && path in v.Covered(n) && Only(v, e.c, path)
  }

  /** The parameter is there after the step. */
  ghost predicate LivesOn(v: View, e: Event, path: Path) {
    match e
    case Accept(_, _) => path in v.params
    case Leave(c) => path in v.params && v.params[path].providers != {c} && !Deleted(v, e, path)
    case Receive(_, command) =>
      match command
      case Unregister(_) => path in v.params && !Deleted(v, e, path)
      case Assign(name, _) => path in v.params || path == Segments(name)
      case _ => path in v.params
  }

  /** The step assigns the parameter. */
  predicate Sets(e: Event, path: Path) { e.Receive? && e.command.Assign? && Segments(e.command.name) == path }

  /** d subscribes to the parameter, which is there, after the step. */
  ghost predicate SubscribesNext(v: View, e: Event, d: Client, path: Path) {
    if path !in v.params then exists n :: n in v.petitions && d in v.petitions[n].clients && Matches(Segments(n), path)
    else if e.Leave? && d == e.c then false
    else if e.Receive? && d == e.c && e.command.Register? && Matches(Segments(e.command.topic), path) then true
    else if e.Receive? && d == e.c && e.command.Unregister? && e.command.topic in v.petitions
            && Matches(Segments(e.command.topic), path) then false
    else d in v.params[path].clients
  }

  /** d provides it after the step. */
  ghost predicate ProvidesNext(v: View, e: Event, d: Client, path: Path) {
    if Sets(e, path) && d == e.c then true
    else if e.Leave? && d == e.c then false
    else path in v.params && d in v.params[path].providers
  }

  /** Which parameters there are after a step, exactly. */
  lemma StepLives(v: View, e: Event, path: Path)
    requires v.Inv() && v.Sendable() && Legal(v, e)
    ensures path in Step(v, e).params <==> LivesOn(v, e, path)
  {
    hide MarginOf, Param.Valid, Shadow.Reads, Matches, Param.Sent, View.Inv, View.Sendable;
    if e.Receive? && e.command.Unregister? {
      UnregisterLeaves(v, e.c, e.command.topic);
      LeftDoomed(v, v.Withdraw(e.c, e.command.topic), e.c, Losing(v, e));
    } else if e.Leave? {
      LeaveLives(v, e.c, path);
    }
  }

  lemma LeaveLives(v: View, c: Client, path: Path)
    requires v.Inv()
    ensures path in v.Disconnect(c).params <==> LivesOn(v, Leave(c), path)
  {
    hide MarginOf, Param.Valid, Shadow.Reads, Matches;
    LeaveLeaves(v, c);
    LeftDoomed(v, v.Forget(c), c, Losing(v, Leave(c)));
    var u := v.Forget(c).Tidy();
    assert path in u.params ==> u.params[path].providers == v.params[path].providers;
  }

  /** The parameter after the step: its name, its value unless it is assigned, and its subscribers
      and providers but for the client of the step. */
  ghost predicate Follows(v: View, e: Event, path: Path, p: Param) {
    && p.isSet
    && (if path in v.params then p.name == v.params[path].name else Sets(e, path) && p.name == e.command.name)
    && (if Sets(e, path) then p.value == e.command.value else path in v.params && p.value == v.params[path].value)
    && (forall d :: d in p.clients <==> SubscribesNext(v, e, d, path))
    && (forall d :: d in p.providers <==> ProvidesNext(v, e, d, path))
  }

  /** What is kept of a parameter that lives on, exactly. */
  lemma StepKeeps(v: View, e: Event, path: Path)
    requires v.Inv() && v.Sendable() && Legal(v, e) && path in Step(v, e).params
    ensures Follows(v, e, path, Step(v, e).params[path])
  {
    hide Follows, View.Inv, View.Sendable, View.Connect, View.Disconnect, View.Register, View.Unregister, View.Assign;
    match e {
      case Accept(c, _) => SameParam(v, e, path, v.Connect(c));
      case Leave(c) => LeaveFollows(v, c, path);
      case Receive(c, command) =>
        match command {
          case Register(n) => RegisterFollows(v, c, n, path);
          case Unregister(n) => UnregisterFollows(v, c, n, path);
          case Assign(name, value) => AssignFollows(v, c, name, value, path);
          case Get(_) => SameParam(v, e, path, v);
          case NoRetain(_, _) => SameParam(v, e, path, v);
          case Ignored => SameParam(v, e, path, v);
        }
    }
  }

  lemma SameParam(v: View, e: Event, path: Path, w: View)
    requires v.Inv() && path in w.params
    requires if e.Accept? then w == v.Connect(e.c)
             else w == v && e.Receive? && (e.command.Get? || e.command.NoRetain? || e.command.Ignored?)
    ensures Follows(v, e, path, w.params[path])
  {
    hide Matches, MarginOf, View.Inv;
    assert w.params == v.params;
    IsSet(v, path);
  }

  lemma RegisterFollows(v: View, c: Client, n: string, path: Path)
    requires v.Inv() && v.Sendable() && path in v.Register(c, n).params
    ensures Follows(v, Receive(c, Register(n)), path, v.Register(c, n).params[path])
  {
    hide Matches, MarginOf;
    assert v.params[path].Valid();
    var p := v.params[path];
    assert v.Register(c, n).params[path] == if path in v.Covered(n) then p.Subscribe(c).Sent() else p;
  }

  lemma IsSet(v: View, path: Path)
    requires v.Inv() && path in v.params
    ensures v.params[path].isSet
  {
    assert v.params[path].Valid();
  }

  lemma UnregisterFollows(v: View, c: Client, n: string, path: Path)
    requires v.Inv() && path in v.Unregister(c, n).params
    ensures Follows(v, Receive(c, Unregister(n)), path, v.Unregister(c, n).params[path])
  {
    hide Matches, View.Inv, View.Unregister;
    Unregistered(v, c, n, path);
    IsSet(v, path);
  }

  lemma Unregistered(v: View, c: Client, n: string, path: Path)
    requires path in v.Unregister(c, n).params
    ensures path in v.params && v.Unregister(c, n).params[path] ==
              if n in v.petitions && path in v.Covered(n) then v.params[path].Unsubscribe(c) else v.params[path]
  {
    hide Matches, Param.Unsubscribe;
  }

  lemma LeaveFollows(v: View, c: Client, path: Path)
    requires v.Inv() && path in v.Disconnect(c).params
    ensures Follows(v, Leave(c), path, v.Disconnect(c).params[path])
  {
    hide Matches, View.Inv, View.Disconnect, View.Forget;
    Disconnected(v, c, path);
    ForgottenParam(v, c, path);
    IsSet(v, path);
  }

  lemma Disconnected(v: View, c: Client, path: Path)
    requires path in v.Disconnect(c).params
    ensures path in v.params && path in v.Forget(c).params
    ensures var p, q := v.params[path], v.Forget(c).params[path];
            && v.Disconnect(c).params[path] == q.(providers := q.providers - {c})
            && q.value == p.value && q.isSet == p.isSet
  {
    hide Matches, View.Asks;
  }

  lemma AssignFollows(v: View, c: Client, name: string, value: string, path: Path)
    requires v.Inv() && v.Target(name).shadow.Reads(value) && path in v.Assign(c, name, value).params
    ensures Follows(v, Receive(c, Assign(name, value)), path, v.Assign(c, name, value).params[path])
  {
    hide Matches, MarginOf, Shadow.Reads;
    var e := Receive(c, Assign(name, value));
    if path != Segments(name) {
      assert v.params[path].Valid();
    } else if path !in v.params {
      AskersAsk(v, path);
    }
  }

  lemma AskersAsk(v: View, path: Path)
    ensures forall d :: d in v.Askers(path) <==>
              exists n :: n in v.petitions && d in v.petitions[n].clients && Matches(Segments(n), path)
  {
    forall d | exists n :: n in v.petitions && d in v.petitions[n].clients && Matches(Segments(n), path)
      ensures d in v.Askers(path)
    {
      var n :| n in v.petitions && d in v.petitions[n].clients && Matches(Segments(n), path);
      assert n in v.Covering(path);
    }
  }

  // ---- exceptions ----

  /** The parameter the line is for, if there is one, has a numeric name, or else the line's name is one. */
  ghost predicate IsNumeric(v: View, name: string) {
    var path := Segments(name);
    MarginOf(if path in v.params then v.params[path].name else name).Some?
  }

  /** No exception escapes exactly when the topic splits and what is assigned to a numeric
      parameter is a number. */
  lemma SurvivesExactly(v: View, command: Command)
    requires v.Inv()
    ensures Survives(v, command) <==>
            match command
            case Register(n) => Splits(n)
            case Unregister(n) => Splits(n)
            case Get(n) => Splits(n)
            case NoRetain(name, _) => Splits(name)
            case Assign(name, value) => Splits(name) && (IsNumeric(v, name) ==> Stof(value).Some?)
            case Ignored => true
  {
    if command.Assign? {
      TargetReads(v, command.name, command.value);
    }
  }

  lemma TargetReads(v: View, name: string, value: string)
    requires v.Inv()
    ensures v.Target(name).shadow.Reads(value) <==> (IsNumeric(v, name) ==> Stof(value).Some?)
  {
    hide MarginOf;
    var path := Segments(name);
    if path in v.params {
      assert v.params[path].Valid();
    }
  }
}
