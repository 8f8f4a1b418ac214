/** What every step writes, line by line, said of the state before it. */
module Outputs {
  import opened Base
  import opened Topics
  import opened Filters
  import opened Model
  import opened Delivery
  import opened Increments
  import opened Providers

  /** The values are apart by the margin, or the second is 0 and the first is not. */
  predicate Apart(margin: real, last: real, val: real) {
    last - val >= margin || val - last >= margin || (val == 0.0 && last != 0.0)
  }

  /** d is to be sent the value: it holds another text, or a number that is apart. */
  ghost predicate DueNow(p: Param, d: Client, value: string) {
    match MarginOf(p.name)
    case None => p.shadow.Discrete? && d in p.shadow.text && p.shadow.text[d] != value
    case Some(margin) =>
      p.shadow.Numeric? && d in p.shadow.last && Stof(value).Some? && Apart(margin, p.shadow.last[d], Stof(value).value)
  }

  /** A client that has just been registered holds the empty text, or 0. */
  ghost predicate DueAtFirst(name: string, value: string) {
    match MarginOf(name)
    case None => value != ""
    case Some(margin) => Stof(value).Some? && Apart(margin, 0.0, Stof(value).value)
  }

  /** The step takes the last holder from a petition, and this line tells so. */
  ghost predicate Retracted(v: View, e: Event, line: Line) {
    || (line.RetractPetition? && line.topic in Losing(v, e)
        && forall q | q in v.Covered(line.topic) :: Only(v, e.c, q))
    || (line.RetractParameter? && exists n, q ::
          n in Losing(v, e) && q in v.Covered(n) && Only(v, e.c, q) && line.name == v.params[q].name)
  }

  /** c is sent the value of a parameter that n covers. */
  ghost predicate Offered(v: View, n: string, line: Line) {
    exists path :: path in v.params && Matches(Segments(n), path)
      && line == Push(v.params[path].name, v.params[path].value) && DueAtFirst(line.name, line.value)
  }

  ghost predicate Replied(v: View, n: string, line: Line) {
    exists path :: path in v.params && Matches(Segments(n), path)
      && line == Reply(v.params[path].name, v.params[path].value)
  }

  /** d is sent the value that is assigned, of the parameter there is or of a new one. */
  ghost predicate Sends(v: View, d: Client, name: string, value: string, line: Line) {
    var path := Segments(name);
    if path in v.params then
      line == Push(v.params[path].name, value) && d in v.params[path].clients && DueNow(v.params[path], d, value)
    else line == Push(name, value) && v.Asks(d, path) && DueAtFirst(name, value)
  }

  /** The step writes the line to d. */
  ghost predicate Writes(v: View, e: Event, d: Client, line: Line) {
    match e
    case Accept(c, greeted) =>
      d == c && ((line == Hello && !greeted) || (line.Announce? && line.topic in v.petitions))
    case Leave(c) => d in v.clients && d != c && Retracted(v, e, line)
    case Receive(c, command) =>
      match command
      case Register(n) =>
        (d in v.clients && n !in v.petitions && line == Announce(n)) || (d == c && Offered(v, n, line))
      case Unregister(_) => d in v.clients && Retracted(v, e, line)
      case Get(n) => d == c && Replied(v, n, line)
      case NoRetain(name, value) =>
        && line.Relay? && line.name == name && line.value == value
        && line.petition in v.petitions && Matches(Segments(line.petition), Segments(name))
        && d in v.petitions[line.petition].clients
      case Assign(name, value) => Sends(v, d, name, value, line)
      case Ignored => false
  }

  /** A step writes exactly those lines, each once. */
  lemma WritesExactly(v: View, e: Event, d: Client, line: Line)
    requires v.Inv() && v.Sendable() && Legal(v, e)
    ensures (d, line) in Out(v, e) <==> Writes(v, e, d, line)
  {
    hide Writes, View.ConnectOut, View.RegisterOut, View.AssignOut, View.GetOut, View.RelayOut, View.DropOut,
         View.Inv, View.Sendable;
    match e {
      case Accept(c, greeted) => AcceptWrites(v, c, greeted, d, line);
      case Leave(c) => LeaveWrites(v, c, d, line);
      case Receive(c, command) =>
        match command {
          case Register(n) => RegisterWrites(v, c, n, d, line);
          case Unregister(n) => UnregisterWrites(v, c, n, d, line);
          case Assign(name, value) => AssignWrites(v, c, name, value, d, line);
          case Get(n) => GetWrites(v, c, n, d, line);
          case NoRetain(name, value) => RelayWrites(v, c, name, value, d, line);
          case Ignored => NothingWritten(v, c, d, line);
        }
    }
  }

  lemma NothingWritten(v: View, c: Client, d: Client, line: Line)
    ensures !Writes(v, Receive(c, Ignored), d, line)
  {}

  lemma AcceptWrites(v: View, c: Client, greeted: bool, d: Client, line: Line)
    ensures (d, line) in v.ConnectOut(c, greeted) <==> Writes(v, Accept(c, greeted), d, line)
  {}

  lemma GetWrites(v: View, c: Client, n: string, d: Client, line: Line)
    ensures (d, line) in v.GetOut(c, n) <==> Writes(v, Receive(c, Get(n)), d, line)
  {}

  lemma RelayWrites(v: View, c: Client, name: string, value: string, d: Client, line: Line)
    ensures (d, line) in v.RelayOut(name, value) <==> Writes(v, Receive(c, NoRetain(name, value)), d, line)
  {}

  ghost predicate SameNames(v: View, w: View) {
    w.params.Keys == v.params.Keys && forall q | q in v.params :: w.params[q].name == v.params[q].name
  }

  /** What the clean-up writes when the client has left what the petitions of Losing cover. */
  lemma LeftWrites(v: View, w: View, e: Event, d: Client, line: Line)
    requires Left(v, w, e.c, Losing(v, e)) && SameNames(v, w)
    ensures (d, line) in w.DropOut(Losing(v, e)) <==> d in w.clients && Retracted(v, e, line)
  {
    var losing := Losing(v, e);
    LeftDoomed(v, w, e.c, losing);
    forall n | n in losing
      ensures w.Covered(n) == v.Covered(n)
      ensures w.AllVacant(w.Covered(n)) <==> forall q | q in v.Covered(n) :: Only(v, e.c, q)
    {
      LeftVacant(v, w, e.c, losing, n);
    }
    if line.RetractParameter? {
      DoomedWrites(v, w, e, d, line);
    }
  }

  lemma DoomedWrites(v: View, w: View, e: Event, d: Client, line: Line)
    requires line.RetractParameter? && SameNames(v, w)
    requires forall q :: q in w.Doomed(Losing(v, e))
               <==> exists n :: n in Losing(v, e) && q in v.Covered(n) && Only(v, e.c, q)
    ensures (d, line) in w.DropOut(Losing(v, e)) <==> d in w.clients && Retracted(v, e, line)
  {
    hide View.Doomed;
    if d in w.clients && Retracted(v, e, line) {
      var n, q :| n in Losing(v, e) && q in v.Covered(n) && Only(v, e.c, q) && line.name == v.params[q].name;
      assert q in w.Doomed(Losing(v, e));
    }
    if (d, line) in w.DropOut(Losing(v, e)) {
      var q :| q in w.Doomed(Losing(v, e)) && q in w.params && line.name == w.params[q].name;
      var n :| n in Losing(v, e) && q in v.Covered(n) && Only(v, e.c, q);
    }
  }

  lemma LeaveWrites(v: View, c: Client, d: Client, line: Line)
    requires v.Inv()
    ensures (d, line) in DisconnectOut(v, c) <==> Writes(v, Leave(c), d, line)
  {
    hide View.DropOut, Retracted, MarginOf, Matches;
    LeaveLeaves(v, c);
    LeftWrites(v, v.Forget(c), Leave(c), d, line);
  }

  lemma UnregisterWrites(v: View, c: Client, n: string, d: Client, line: Line)
    requires v.Inv()
    ensures var w := v.Withdraw(c, n);
            (d, line) in w.DropOut(w.Empty()) <==> Writes(v, Receive(c, Unregister(n)), d, line)
  {
    hide View.DropOut, Retracted, MarginOf, Matches;
    UnregisterLeaves(v, c, n);
    LeftWrites(v, v.Withdraw(c, n), Receive(c, Unregister(n)), d, line);
  }

  lemma RegisterWrites(v: View, c: Client, n: string, d: Client, line: Line)
    requires v.Inv() && v.Sendable() && c in v.clients
    ensures (d, line) in v.RegisterOut(c, n) <==> Writes(v, Receive(c, Register(n)), d, line)
  {
    hide MarginOf, Matches, DueAtFirst, Param.Valid, Param.Subscribe, Param.Audience, View.OfferOut;
    AnnounceWrites(v, n, d, line);
    OfferWrites(v, c, n, d, line);
  }

  lemma AnnounceWrites(v: View, n: string, d: Client, line: Line)
    requires v.Inv()
    ensures (d, line) in v.AnnounceOut(n) <==> d in v.clients && n !in v.petitions && line == Announce(n)
  {
    hide Param.Valid;
  }

  lemma OfferWrites(v: View, c: Client, n: string, d: Client, line: Line)
    requires v.Inv() && v.Sendable()
    ensures (d, line) in v.OfferOut(v.Covered(n), c) <==> d == c && Offered(v, n, line)
  {
    hide MarginOf, Matches, DueAtFirst, Param.Valid, Param.Audience;
    forall path | path in v.params
      ensures d in v.params[path].Subscribe(c).Audience() <==>
              d == c && DueAtFirst(v.params[path].name, v.params[path].value)
    {
      KnownParam(v, path);
      DueWhenNew(v.params[path], c, d);
    }
    if d == c && Offered(v, n, line) {
      var path :| path in v.params && Matches(Segments(n), path)
                  && line == Push(v.params[path].name, v.params[path].value) && DueAtFirst(line.name, line.value);
      assert path in v.Covered(n);
    }
  }

  lemma KnownParam(v: View, path: Path)
    requires v.Inv() && path in v.params
    ensures v.params[path].Valid()
  {}

  lemma DueWhenNew(p: Param, c: Client, d: Client)
    requires p.Valid()
    ensures d in p.Subscribe(c).Audience() <==> d == c && DueAtFirst(p.name, p.value)
  {
    OthersAreUpToDate(p, c);
  }

  lemma AssignWrites(v: View, c: Client, name: string, value: string, d: Client, line: Line)
    requires v.Inv() && v.Target(name).shadow.Reads(value)
    ensures (d, line) in v.AssignOut(name, value) <==> Writes(v, Receive(c, Assign(name, value)), d, line)
  {
    hide MarginOf, DueNow, DueAtFirst, Param.Audience, NewParam, Shadow.Reads, View.Askers;
    var path := Segments(name);
    if path in v.params {
      KnownParam(v, path);
      DueOfOld(v.params[path], d, value);
    } else {
      DueOfNew(name, v.Askers(path), d, value);
      AskersAre(v, path, d);
    }
  }

  lemma DueOfOld(p: Param, d: Client, value: string)
    requires p.Valid() && p.shadow.Reads(value)
    ensures d in p.(value := value, isSet := true).Audience() <==> d in p.clients && DueNow(p, d, value)
  {}

  lemma DueOfNew(name: string, cs: set<Client>, d: Client, value: string)
    requires NewParam(name, cs).shadow.Reads(value)
    ensures d in NewParam(name, cs).(value := value, isSet := true).Audience() <==> d in cs && DueAtFirst(name, value)
    ensures NewParam(name, cs).name == name
  {}

  lemma AskersAre(v: View, path: Path, d: Client)
    ensures d in v.Askers(path) <==> v.Asks(d, path)
  {}

  // ---- the answer to get ----

  /** get is answered to the client that asks, with a line for each parameter that the topic covers,
      and with no other, and changes nothing. */
  lemma GetAnswers(v: View, c: Client, n: string)
    requires v.Inv() && v.Sendable() && Legal(v, Receive(c, Get(n)))
    ensures Step(v, Receive(c, Get(n))) == v
    ensures forall d, line :: (d, line) in Out(v, Receive(c, Get(n))) <==> d == c && Replied(v, n, line)
    ensures |Out(v, Receive(c, Get(n)))| == |set path | path in v.params && Matches(Segments(n), path)|
  {
    hide View.Inv, View.Sendable, Writes, Matches, Replied, View.GetOut;
    var e := Receive(c, Get(n));
    forall d, line
      ensures (d, line) in Out(v, e) <==> d == c && Replied(v, n, line)
    {
      WritesExactly(v, e, d, line);
      GetWritten(v, c, n, d, line);
    }
    InvIsNamed(v);
    CountReplies(v, v.Covered(n), c);
    AnswersAre(v, c, n);
  }

  lemma GetWritten(v: View, c: Client, n: string, d: Client, line: Line)
    ensures Writes(v, Receive(c, Get(n)), d, line) <==> d == c && Replied(v, n, line)
  {}

  lemma AnswersAre(v: View, c: Client, n: string)
    ensures v.GetOut(c, n) == v.ReplyOut(v.Covered(n), c)
    ensures v.Covered(n) == set path | path in v.params && Matches(Segments(n), path)
  {}

  lemma InvIsNamed(v: View)
    requires v.Inv()
    ensures v.Named()
  {}

  lemma {:induction false} CountReplies(v: View, paths: set<Path>, c: Client)
    requires v.Named() && paths <= v.params.Keys
    ensures |v.ReplyOut(paths, c)| == |paths|
  {
    if paths == {} {
      assert v.ReplyOut(paths, c) == {};
    } else {
      var path :| path in paths;
      CountReplies(v, paths - {path}, c);
      ReplyOneMore(v, paths - {path}, path, c);
      assert paths - {path} + {path} == paths;
    }
  }

  // ---- greetings ----

  /** A client is greeted exactly when it is accepted and was not yet connected. */
  lemma Greetings(v: View, e: Event, d: Client)
    requires v.Inv() && v.Sendable() && Legal(v, e)
    ensures (d, Hello) in Out(v, e) <==> e == Accept(d, false)
  {
    hide View.Inv, View.Sendable, Out;
    WritesExactly(v, e, d, Hello);
  }
}
