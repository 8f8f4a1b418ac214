/** Whole runs of the server, from an empty one: any number of clients, lines and
    disconnections in any order the main loop allows. */
module Runs {
  import opened Base
  import opened Topics
  import opened Filters
  import opened Model
  import opened Steps
  import opened Delivery

  const EMPTY := View({}, map[], map[])

  ghost predicate IsRun(es: seq<Event>)
    decreases |es|, 0
  {
    es == [] || (IsRun(es[..|es| - 1]) && Legal(After(es[..|es| - 1]), es[|es| - 1]))
  }

  /** The state a run ends in; the invariant holds in all of them. */
  ghost function After(es: seq<Event>): (v: View)
    requires IsRun(es)
    ensures v.Inv() && v.Sendable()
    decreases |es|, 1
  {
    if es == [] then EMPTY
    else
      var v := After(es[..|es| - 1]);
      StepKeepsInv(v, es[|es| - 1]);
      Step(v, es[|es| - 1])
  }

  // ---- what a subscriber holds ----

  /** A value line on path is written to c. */
  ghost predicate PushIn(out: set<Entry>, c: Client, path: Path, value: string) {
    exists name :: (c, Push(name, value)) in out && Segments(name) == path
  }

  /** c is registered with the parameter, again or for the first time: it asks for it,
      or the parameter comes into being. */
  ghost predicate Starts(v: View, e: Event, c: Client, path: Path) {
    path !in v.params || (e.Receive? && e.command.Register? && e.c == c && Matches(Segments(e.command.topic), path))
  }

  /** The value last pushed to c on path since it was last registered there. */
  ghost function LastPushed(es: seq<Event>, c: Client, path: Path): Option<string>
    requires IsRun(es)
    decreases |es|
  {
    if es == [] then None
    else
      var before, e := es[..|es| - 1], es[|es| - 1];
      var out := Out(After(before), e);
      if exists value :: PushIn(out, c, path, value) then
        var value :| PushIn(out, c, path, value);
        Some(value)
      else if Starts(After(before), e, c, path) then None
      else LastPushed(before, c, path)
  }

  /** What a shadow says about c when text was the last line pushed to it. */
  ghost predicate Reflects(s: Shadow, c: Client, text: Option<string>) {
    match s
    case Numeric(_, last) =>
      c in last && (if text.None? then last[c] == 0.0 else Stof(text.value) == Some(last[c]))
    case Discrete(held) => c in held && held[c] == if text.Some? then text.value else ""
  }

  /** The text c holds is the parameter's value, exactly or to within the margin. */
  ghost predicate UpToDate(p: Param, text: Option<string>) {
    match MarginOf(p.name)
    case None => p.value == if text.Some? then text.value else ""
    case Some(margin) =>
      && Stof(p.value).Some? && (text.Some? ==> Stof(text.value).Some?)
      && Close(margin, if text.Some? then Stof(text.value).value else 0.0, Stof(p.value).value)
  }

  /** A refresh leaves in the shadow what was pushed, or what was there. */
  lemma RefreshReflects(p: Param, c: Client, before: Option<string>)
    requires p.isSet && p.shadow.Reads(p.value) && Reflects(p.shadow, c, before)
    ensures Reflects(p.Sent().shadow, c, if c in p.Audience() then Some(p.value) else before)
  {}

  lemma RegisteringReflects(s: Shadow, c: Client)
    ensures Reflects(s.Add(c), c, None)
  {}

  lemma NewParamReflects(name: string, cs: set<Client>, c: Client)
    requires c in cs
    ensures Reflects(NewParam(name, cs).shadow, c, None)
  {}

  lemma OthersReflect(s: Shadow, c: Client, d: Client, text: Option<string>)
    requires c != d && Reflects(s, c, text)
    ensures Reflects(s.Add(d), c, text) && Reflects(s.Remove(d), c, text)
  {}

  ghost predicate Pushed(out: set<Entry>, c: Client, path: Path) { exists value :: PushIn(out, c, path, value) }

  lemma RegisterReflects(v: View, d: Client, n: string, c: Client, path: Path, before: Option<string>)
    requires v.Inv() && v.Sendable() && path in v.params && c in v.Register(d, n).params[path].clients
    requires c in v.params[path].clients ==> Reflects(v.params[path].shadow, c, before)
    ensures var again := c == d && Matches(Segments(n), path);
            Reflects(v.Register(d, n).params[path].shadow, c,
                     if Pushed(v.RegisterOut(d, n), c, path) then Some(v.params[path].value)
                     else if again then None else before)
  {
    hide Reflects, Param.Valid, Pushed, View.Inv, View.RegisterOut, Param.Subscribe, Param.Sent, Param.Audience,
         Matches;
    OfferedIsValid(v, path, d);
    PushedByRegister(v, d, n, c, path);
    if path in v.Covered(n) {
      OfferReflects(v.params[path], d, c, before);
    }
  }

  lemma OfferReflects(p: Param, d: Client, c: Client, before: Option<string>)
    requires p.Valid() && c in p.Subscribe(d).Sent().clients
    requires c in p.clients ==> Reflects(p.shadow, c, before)
    ensures Reflects(p.Subscribe(d).Sent().shadow, c,
                     if c in p.Subscribe(d).Audience() then Some(p.value) else if c == d then None else before)
  {
    hide Reflects, MarginOf, Shadow.Outdated, Shadow.Refresh, Shadow.InSync;
    if c == d {
      RegisteringReflects(p.shadow, c);
      RefreshReflects(p.Subscribe(d), c, None);
    } else {
      OthersReflect(p.shadow, c, d, before);
      RefreshReflects(p.Subscribe(d), c, before);
    }
  }

  lemma PushedByRegister(v: View, d: Client, n: string, c: Client, path: Path)
    requires v.Inv() && v.Sendable() && path in v.params
    ensures Pushed(v.RegisterOut(d, n), c, path) <==>
            path in v.Covered(n) && c in v.params[path].Subscribe(d).Audience()
  {
    var p, out := v.params[path].Subscribe(d), v.RegisterOut(d, n);
    if path in v.Covered(n) && c in p.Audience() {
      assert (c, Push(p.name, p.value)) in out;
      assert PushIn(out, c, path, p.value);
    }
    if value :| PushIn(out, c, path, value) {
      var name :| (c, Push(name, value)) in out && Segments(name) == path;
    }
  }

  /** A parameter that is left alone but for another client or its providers. */
  lemma LeftAlone(p: Param, q: Param, d: Client, c: Client, before: Option<string>)
    requires c in p.clients ==> Reflects(p.shadow, c, before)
    requires p.shadow.Keys() == p.clients && c in q.clients
    requires || (q.clients == p.clients && q.shadow == p.shadow)
             || (q.clients == p.clients - {d} && q.shadow == p.shadow.Remove(d))
    ensures Reflects(q.shadow, c, before)
  {
    if q.shadow != p.shadow {
      OthersReflect(p.shadow, c, d, before);
    }
  }

  lemma AssignReflects(v: View, d: Client, name: string, value: string, c: Client, path: Path, before: Option<string>)
    requires v.Inv() && v.Target(name).shadow.Reads(value)
    requires path in v.Assign(d, name, value).params && c in v.Assign(d, name, value).params[path].clients
    requires path in v.params && c in v.params[path].clients ==> Reflects(v.params[path].shadow, c, before)
    ensures Reflects(v.Assign(d, name, value).params[path].shadow, c,
                     if Pushed(v.AssignOut(name, value), c, path) then Some(v.Assign(d, name, value).params[path].value)
                     else if path !in v.params then None else before)
  {
    hide Reflects, MarginOf, Param.Valid, NewParam;
    var p, out := v.Assigned(name, value), v.AssignOut(name, value);
    AssignedIsValid(v, name, value);
    if path == Segments(name) {
      if c in p.Audience() {
        assert (c, Push(p.name, value)) in out;
        assert PushIn(out, c, path, value);
      } else {
        assert forall x :: !PushIn(out, c, path, x);
      }
      assert Pushed(out, c, path) <==> c in p.Audience();
      if path in v.params {
        RefreshReflects(p, c, before);
      } else {
        NewParamReflects(name, v.Askers(path), c);
        RefreshReflects(p, c, None);
      }
    } else {
      assert forall x :: !PushIn(out, c, path, x);
    }
  }

  lemma UnregisterReflects(v: View, d: Client, n: string, c: Client, path: Path, before: Option<string>)
    requires v.Inv() && path in v.Unregister(d, n).params && c in v.Unregister(d, n).params[path].clients
    requires c in v.params[path].clients ==> Reflects(v.params[path].shadow, c, before)
    ensures Reflects(v.Unregister(d, n).params[path].shadow, c, before)
  {
    hide Reflects;
    assert v.params[path].Valid();
    LeftAlone(v.params[path], v.Unregister(d, n).params[path], d, c, before);
  }

  lemma LeaveReflects(v: View, d: Client, c: Client, path: Path, before: Option<string>)
    requires v.Inv() && path in v.Disconnect(d).params && c in v.Disconnect(d).params[path].clients
    requires c in v.params[path].clients ==> Reflects(v.params[path].shadow, c, before)
    ensures Reflects(v.Disconnect(d).params[path].shadow, c, before)
  {
    hide Reflects;
    assert v.params[path].Valid();
    LeftAlone(v.params[path], v.Disconnect(d).params[path], d, c, before);
  }

  lemma NothingPushed(v: View, e: Event, c: Client, path: Path)
    requires v.Sendable() && Legal(v, e)
    requires e.Receive? ==> !e.command.Register? && !e.command.Assign?
    ensures !Pushed(Out(v, e), c, path)
  {
    if value :| PushIn(Out(v, e), c, path, value) {
      var name :| (c, Push(name, value)) in Out(v, e) && Segments(name) == path;
      assert false;
    }
  }

  /** One step: the shadow of c follows the lines pushed to it. */
  lemma StepReflects(v: View, e: Event, c: Client, path: Path, before: Option<string>)
    requires v.Inv() && v.Sendable() && Legal(v, e)
    requires path in Step(v, e).params && c in Step(v, e).params[path].clients
    requires path in v.params && c in v.params[path].clients ==> Reflects(v.params[path].shadow, c, before)
    ensures Reflects(Step(v, e).params[path].shadow, c,
                     if Pushed(Out(v, e), c, path) then Some(Step(v, e).params[path].value)
                     else if Starts(v, e, c, path) then None else before)
  {
    hide Reflects, Pushed;
    if e.Receive? && e.command.Register? {
      RegisterReflects(v, e.c, e.command.topic, c, path, before);
    } else if e.Receive? && e.command.Assign? {
      AssignReflects(v, e.c, e.command.name, e.command.value, c, path, before);
    } else {
      NothingPushed(v, e, c, path);
      if e.Leave? {
        LeaveReflects(v, e.c, c, path, before);
      } else if e.Receive? && e.command.Unregister? {
        UnregisterReflects(v, e.c, e.command.topic, c, path, before);
      }
    }
  }

  lemma PushIsCurrent(v: View, e: Event, c: Client, path: Path, value: string)
    requires v.Inv() && v.Sendable() && Legal(v, e) && PushIn(Out(v, e), c, path, value)
    ensures path in Step(v, e).params && value == Step(v, e).params[path].value
  {
    var name :| (c, Push(name, value)) in Out(v, e) && Segments(name) == path;
    PushesAreCurrent(v, e, c, name, value);
  }

  lemma {:induction false} ShadowReflects(es: seq<Event>, c: Client, path: Path)
    requires IsRun(es) && path in After(es).params && c in After(es).params[path].clients
    ensures Reflects(After(es).params[path].shadow, c, LastPushed(es, c, path))
    decreases |es|
  {
    hide Reflects, Starts, Step, Out, Legal, View.Inv, View.Sendable;
    var before, e := es[..|es| - 1], es[|es| - 1];
    var v := After(before);
    if path in v.params && c in v.params[path].clients {
      ShadowReflects(before, c, path);
    }
    StepReflects(v, e, c, path, LastPushed(before, c, path));
    if Pushed(Out(v, e), c, path) {
      PushIsCurrent(v, e, c, path, LastPushed(es, c, path).value);
    }
  }

  /** In every reachable state, what a subscriber was last sent since it registered is the
      value of the parameter: exactly, or within the margin and exact at 0. */
  lemma SubscribersAreUpToDate(es: seq<Event>, c: Client, path: Path)
    requires IsRun(es) && path in After(es).params && c in After(es).params[path].clients
    ensures UpToDate(After(es).params[path], LastPushed(es, c, path))
  {
    ShadowReflects(es, c, path);
    assert After(es).params[path].Valid();
  }

  // ---- retained values ----

  /** The value of the latest name=value line for the topic path. */
  ghost function LatestAssigned(es: seq<Event>, path: Path): Option<string> {
    if es == [] then None
    else
      var e := es[|es| - 1];
      if e.Receive? && e.command.Assign? && Segments(e.command.name) == path then Some(e.command.value)
      else LatestAssigned(es[..|es| - 1], path)
  }

  lemma StepKeepsValue(v: View, e: Event, path: Path)
    requires v.Inv() && v.Sendable() && Legal(v, e) && path in Step(v, e).params
    ensures if e.Receive? && e.command.Assign? && Segments(e.command.name) == path
            then Step(v, e).params[path].value == e.command.value
            else path in v.params && Step(v, e).params[path].value == v.params[path].value
  {
    hide MarginOf, Param.Valid, Shadow.Reads, Matches, View.Inv, View.Sendable;
    match e {
      case Accept(_, _) =>
      case Leave(c) => LeaveKeepsValue(v, c, path);
      case Receive(_, command) =>
        match command {
          case Register(_) =>
          case Unregister(_) =>
          case Assign(_, _) =>
          case Get(_) =>
          case NoRetain(_, _) =>
          case Ignored =>
        }
    }
  }

  lemma LeaveKeepsValue(v: View, c: Client, path: Path)
    requires path in v.Disconnect(c).params
    ensures path in v.params && v.Disconnect(c).params[path].value == v.params[path].value
  {}

  /** A retained value is the one last assigned, and somebody connected assigned it. */
  lemma {:induction false} ValuesAreLatest(es: seq<Event>, path: Path)
    requires IsRun(es) && path in After(es).params
    ensures LatestAssigned(es, path) == Some(After(es).params[path].value)
    ensures After(es).params[path].isSet && After(es).params[path].providers != {}
    ensures After(es).params[path].providers <= After(es).clients
    decreases |es|
  {
    hide Step, Legal, Out, View.Sendable;
    var before, e := es[..|es| - 1], es[|es| - 1];
    StepKeepsValue(After(before), e, path);
    if !(e.Receive? && e.command.Assign? && Segments(e.command.name) == path) {
      ValuesAreLatest(before, path);
    }
    assert After(es).params[path].Valid();
  }

  // ---- announcements ----

  /** How often c was told about petition n since the petition was made and c connected. */
  ghost function Announcements(es: seq<Event>, c: Client, n: string): nat
    requires IsRun(es)
  {
    if es == [] then 0
    else
      var before, e := es[..|es| - 1], es[|es| - 1];
      var v := After(before);
      (if n !in v.petitions || c !in v.clients then 0 else Announcements(before, c, n))
      + if (c, Announce(n)) in Out(v, e) then 1 else 0
  }

  lemma StepAnnounces(v: View, e: Event, c: Client, n: string)
    requires v.Inv() && v.Sendable() && Legal(v, e) && n in Step(v, e).petitions && c in Step(v, e).clients
    ensures (c, Announce(n)) in Out(v, e) <==> n !in v.petitions || c !in v.clients
  {
    hide MarginOf, Param.Valid, Shadow.Reads, Matches, Param.Sent, Param.Audience, View.Target, View.Sendable;
    match e {
      case Accept(_, _) =>
      case Leave(_) =>
      case Receive(_, command) =>
        match command {
          case Register(_) =>
          case Unregister(_) =>
          case Assign(_, _) =>
          case Get(_) =>
          case NoRetain(_, _) =>
          case Ignored =>
        }
    }
  }

  /** Every connected client has been told about every live petition, once. */
  lemma {:induction false} AnnouncedOnce(es: seq<Event>, c: Client, n: string)
    requires IsRun(es) && n in After(es).petitions && c in After(es).clients
    ensures Announcements(es, c, n) == 1
    ensures After(es).petitions[n].clients != {} && After(es).petitions[n].told == After(es).clients
    decreases |es|
  {
    hide Step, Legal, Out, View.Sendable;
    var before, e := es[..|es| - 1], es[|es| - 1];
    StepAnnounces(After(before), e, c, n);
    if n in After(before).petitions && c in After(before).clients {
      AnnouncedOnce(before, c, n);
    }
  }

  // ---- silence ----

  lemma StaysAway(v: View, e: Event, c: Client)
    requires v.Inv() && v.Sendable() && Legal(v, e) && c !in v.clients && !(e.Accept? && e.c == c)
    ensures c !in Step(v, e).clients
    ensures forall line :: (c, line) !in Out(v, e)
  {
    forall line | (c, line) in Out(v, e)
      ensures false
    {
      OnlyConnected(v, e, c, line);
    }
  }

  /** After it has left, until it is accepted again, a client is nowhere in the state and
      nothing is written to it. */
  lemma {:induction false} Silence(es: seq<Event>, more: seq<Event>, c: Client)
    requires IsRun(es + more) && more != [] && IsRun(es) && c !in After(es).clients
    requires forall e | e in more :: !(e.Accept? && e.c == c)
    ensures Absent(After(es + more), c)
    ensures var all := es + more; forall line :: (c, line) !in Out(After(all[..|all| - 1]), all[|all| - 1])
    decreases |more|
  {
    hide Step, Legal, Out, View.Inv, View.Sendable;
    var all := es + more;
    var before, e := all[..|all| - 1], all[|all| - 1];
    assert before == es + more[..|more| - 1] && e == more[|more| - 1];
    if |more| == 1 {
      assert before == es;
    } else {
      Silence(es, more[..|more| - 1], c);
    }
    StaysAway(After(before), e, c);
    DisconnectedIsAbsent(After(all), c);
  }

  // ---- petitions are honoured ----

  /** c has not sent unregister since it was accepted. */
  ghost predicate Faithful(es: seq<Event>, c: Client) {
    es == [] ||
    var e := es[|es| - 1];
    (e.Accept? && e.c == c) || (!(e.Receive? && e.c == c && e.command.Unregister?) && Faithful(es[..|es| - 1], c))
  }

  lemma StepHonours(v: View, e: Event, c: Client)
    requires v.Inv() && v.Sendable() && Legal(v, e)
    requires v.Honours(c) && !(e.Receive? && e.c == c && e.command.Unregister?)
    ensures c in Step(v, e).clients ==> Step(v, e).Honours(c)
  {
    match e {
      case Accept(d, _) => AcceptHonours(v, d, c);
      case Leave(d) =>
        if d != c {
          DisconnectHonoursOthers(v, d, c);
        }
      case Receive(d, command) =>
        match command {
          case Register(n) => RegisterHonours(v, d, n, c);
          case Unregister(n) => WithdrawHonoursOthers(v, d, n, c);
          case Assign(name, value) => AssignHonours(v, d, name, value, c);
          case Get(_) =>
          case NoRetain(_, _) =>
          case Ignored =>
        }
    }
  }

  lemma StrangersAreHonoured(v: View, c: Client)
    requires v.Inv() && c !in v.clients
    ensures v.Honours(c)
  {}

  /** A client that never unregisters is subscribed to exactly the parameters its
      petitions cover, whichever came first. */
  lemma {:induction false} FaithfulAreHonoured(es: seq<Event>, c: Client, path: Path)
    requires IsRun(es) && Faithful(es, c) && c in After(es).clients && path in After(es).params
    ensures c in After(es).params[path].clients <==> After(es).Asks(c, path)
  {
    FaithfulRuns(es, c);
  }

  lemma {:induction false} FaithfulRuns(es: seq<Event>, c: Client)
    requires IsRun(es) && Faithful(es, c)
    ensures After(es).Honours(c)
    decreases |es|
  {
    if es != [] {
      hide Step, Legal, Out, View.Inv, View.Sendable, View.Honours;
      var before, e := es[..|es| - 1], es[|es| - 1];
      var v := After(before);
      if c in After(es).clients {
        if Faithful(before, c) {
          FaithfulRuns(before, c);
        } else {
          AcceptedIsNew(v, e, c);
          StrangersAreHonoured(v, c);
        }
        StepHonours(v, e, c);
      } else {
        StrangersAreHonoured(After(es), c);
      }
    } else {
      StrangersAreHonoured(EMPTY, c);
    }
  }

  lemma AcceptedIsNew(v: View, e: Event, c: Client)
    requires Legal(v, e) && e.Accept? && e.c == c
    ensures c !in v.clients
  {}

  // ---- going on ----

  lemma OneStep(es: seq<Event>, e: Event)
    requires IsRun(es) && Legal(After(es), e)
    ensures IsRun(es + [e]) && After(es + [e]) == Step(After(es), e)
  {
    hide Legal, Step, View.Inv, View.Sendable;
    assert (es + [e])[..|es|] == es;
  }

  lemma NoSteps()
    ensures IsRun([]) && After([]) == EMPTY
  {}

  // ---- what a client saw ----

  /** The line on path that c saw last since it was accepted, however often it was registered. */
  ghost function Seen(es: seq<Event>, c: Client, path: Path): Option<string>
    requires IsRun(es)
  {
    if es == [] then None
    else
      var before, e := es[..|es| - 1], es[|es| - 1];
      var out := Out(After(before), e);
      if exists value :: PushIn(out, c, path, value) then
        var value :| PushIn(out, c, path, value);
        Some(value)
      else if e.Accept? && e.c == c then None
      else Seen(before, c, path)
  }

  lemma Unseen(es: seq<Event>, e: Event, c: Client, path: Path)
    requires IsRun(es) && Legal(After(es), e) && !e.Accept? && !Pushed(Out(After(es), e), c, path)
    ensures IsRun(es + [e]) && After(es + [e]) == Step(After(es), e)
    ensures Seen(es + [e], c, path) == Seen(es, c, path)
  {
    hide Legal, Step, Out, View.Inv, View.Sendable, After, IsRun, PushIn;
    OneStep(es, e);
    assert (es + [e])[..|es|] == es;
  }

  lemma JustSeen(es: seq<Event>, e: Event, c: Client, path: Path)
    requires IsRun(es) && Legal(After(es), e) && Pushed(Out(After(es), e), c, path)
    ensures IsRun(es + [e]) && After(es + [e]) == Step(After(es), e) && path in Step(After(es), e).params
    ensures Seen(es + [e], c, path) == Some(Step(After(es), e).params[path].value)
  {
    hide Legal, Step, Out, View.Inv, View.Sendable, After, IsRun, PushIn;
    OneStep(es, e);
    assert (es + [e])[..|es|] == es;
    PushIsCurrent(After(es), e, c, path, Seen(es + [e], c, path).value);
  }
}
