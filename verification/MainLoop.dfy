/** The loop of run_server (server.cpp): it accepts clients, takes what has arrived from
    each, obeys the complete lines, and removes the clients that are gone. */
module MainLoop {
  import opened Base
  import opened Model
  import opened Runs
  import opened Framing
  import opened ServerState
  import Wire

  /** A log that a run can leave: the lines of each step, in some order, after those of the
      steps before. */
  ghost predicate Logged(es: seq<Event>, log: seq<Entry>)
    requires IsRun(es)
  {
    if es == [] then log == []
    else
      var before, e := es[..|es| - 1], es[|es| - 1];
      exists prior :: Logged(before, prior) && Wrote(prior, log, Out(After(before), e))
  }

  /** The commands received from c since it was accepted. */
  ghost function Heard(es: seq<Event>, c: Client): seq<Command> {
    if es == [] then []
    else
      var before, e := es[..|es| - 1], es[|es| - 1];
      if e.c != c then Heard(before, c)
      else match e
        case Accept(_, _) => []
        case Receive(_, command) => Heard(before, c) + [command]
        case Leave(_) => []
  }

  function Read(lines: seq<string>): (commands: seq<Command>)
    ensures |commands| == |lines| && forall k | 0 <= k < |lines| :: commands[k] == Wire.Parse(lines[k])
  {
    seq(|lines|, k requires 0 <= k < |lines| => Wire.Parse(lines[k]))
  }

  /** What commands of one client add to a run. */
  function Receives(c: Client, commands: seq<Command>): (es: seq<Event>)
    ensures |es| == |commands| && forall k | 0 <= k < |es| :: es[k] == Receive(c, commands[k])
  {
    seq(|commands|, k requires 0 <= k < |commands| => Receive(c, commands[k]))
  }

  /** What a client's turn adds: its lines, and that it leaves when it is gone. */
  function Turn(c: Client, lines: seq<string>, gone: bool): seq<Event> {
    Receives(c, Read(lines)) + if gone then [Leave(c)] else []
  }

  /** Different clients, all of which are served. */
  predicate Ordered(order: seq<Client>, streams: map<Client, string>, arrivals: map<Client, Arrival>) {
    && (forall c | c in order :: c in streams && c in arrivals)
    && (forall i, j | 0 <= i < j < |order| :: order[i] != order[j])
  }

  /** What the turns of clients in this order add, when streams is what came from each before. */
  function Turns(order: seq<Client>, streams: map<Client, string>, arrivals: map<Client, Arrival>,
                 failed: set<Client>): seq<Event>
    requires Ordered(order, streams, arrivals)
  {
    if order == [] then []
    else
      var before, c := order[..|order| - 1], order[|order| - 1];
      Turns(before, streams, arrivals, failed)
      + Turn(c, Lines(Tail(streams[c]) + Text(arrivals[c])), c in failed || Breaks(arrivals[c]))
  }

  lemma {:induction false} RunStarts(es: seq<Event>, more: seq<Event>)
    requires IsRun(es + more)
    ensures IsRun(es)
    decreases |more|
  {
    if more == [] {
      assert es + more == es;
    } else {
      assert (es + more)[..|es + more| - 1] == es + more[..|more| - 1];
      RunStarts(es, more[..|more| - 1]);
    }
  }

  /** After the first k of the commands the next one makes an exception escape. */
  ghost predicate FailsAt(es: seq<Event>, c: Client, commands: seq<Command>, k: nat) {
    k < |commands| && var so := es + Receives(c, commands[..k]); IsRun(so) && !Survives(After(so), commands[k])
  }

  /** Commands of a connected client go on with a run unless one of them fails. */
  lemma {:induction false} RunUnlessOneFails(es: seq<Event>, c: Client, commands: seq<Command>)
    requires IsRun(es) && c in After(es).clients
    ensures var all := es + Receives(c, commands);
            && (IsRun(all) ==> After(all).clients == After(es).clients)
            && (IsRun(all) <==> !exists k :: FailsAt(es, c, commands, k))
    decreases |commands|
  {
    hide Survives, Step, View.Inv, View.Sendable, After;
    var all := es + Receives(c, commands);
    if commands == [] {
      assert all == es;
    } else {
      var last := |commands| - 1;
      var before := commands[..last];
      var so := es + Receives(c, before);
      assert all[..|all| - 1] == so && all[|all| - 1] == Receive(c, commands[last]);
      assert forall k | 0 <= k < last :: before[..k] == commands[..k];
      assert forall k: nat | k < last :: FailsAt(es, c, before, k) <==> FailsAt(es, c, commands, k);
      RunUnlessOneFails(es, c, before);
      if IsRun(all) {
        SameClients(After(so), c, commands[last]);
        OneStep(so, Receive(c, commands[last]));
        assert all == so + [Receive(c, commands[last])];
      } else if IsRun(so) {
        assert FailsAt(es, c, commands, last);
      } else {
        var k :| FailsAt(es, c, before, k);
        assert FailsAt(es, c, commands, k);
      }
    }
  }

  lemma SameClients(v: View, c: Client, command: Command)
    requires v.Sendable() && Legal(v, Receive(c, command))
    ensures Step(v, Receive(c, command)).clients == v.clients
  {}

  /** A run that cannot go on with all of the lines: line, after the lines done, does not survive. */
  lemma GivesUp(es: seq<Event>, c: Client, start: string, done: seq<string>, line: string, buff: string)
    requires line != "" && Rests(start, done, line, buff) && IsRun(es + Receives(c, Read(done)))
    requires !Survives(After(es + Receives(c, Read(done))), Wire.Parse(line))
    ensures !IsRun(es + Receives(c, Read(Lines(start))))
  {
    hide Lines, Tail, Wire.Parse, Survives, After, IsRun, Receives, Read;
    if IsRun(es + Receives(c, Read(Lines(start)))) {
      var so, e := es + Receives(c, Read(done)), Receive(c, Wire.Parse(line));
      var rest := Receives(c, Read(Lines(buff)));
      ReceivesApart(es, c, done, line, Lines(buff));
      RunStarts(so + [e], rest);
      LastIsLegal(so, e);
    }
  }

  lemma ReceivesApart(es: seq<Event>, c: Client, done: seq<string>, line: string, more: seq<string>)
    ensures es + Receives(c, Read(done + ([line] + more))) ==
            es + Receives(c, Read(done)) + [Receive(c, Wire.Parse(line))] + Receives(c, Read(more))
  {
    hide Receives, Read, Wire.Parse;
    ReceivesJoin(c, done, [line] + more);
    ReceivesJoin(c, [line], more);
    ReceivesOne(c, line);
    Regroup(es, Receives(c, Read(done)), Receives(c, Read([line])), Receives(c, Read(more)));
  }

  lemma ReceivesJoin(c: Client, a: seq<string>, b: seq<string>)
    ensures Receives(c, Read(a + b)) == Receives(c, Read(a)) + Receives(c, Read(b))
  {
    assert Read(a + b) == Read(a) + Read(b);
  }

  lemma ReceivesOne(c: Client, line: string)
    ensures Receives(c, Read([line])) == [Receive(c, Wire.Parse(line))]
  {}

  lemma Regroup(a: seq<Event>, b: seq<Event>, c: seq<Event>, d: seq<Event>)
    ensures a + (b + (c + d)) == a + b + c + d
  {}

  lemma LastIsLegal(es: seq<Event>, e: Event)
    requires IsRun(es + [e])
    ensures IsRun(es) && Legal(After(es), e)
  {
    assert (es + [e])[..|es|] == es;
  }

  lemma ReceivesMore(es: seq<Event>, c: Client, done: seq<string>, line: string)
    ensures es + Receives(c, Read(done)) + [Receive(c, Wire.Parse(line))] == es + Receives(c, Read(done + [line]))
  {}

  lemma ReceivesNothing(es: seq<Event>, c: Client)
    ensures es + Receives(c, Read([])) == es
  {}

  lemma {:induction false} HeardReceives(es: seq<Event>, c: Client, commands: seq<Command>, d: Client)
    ensures Heard(es + Receives(c, commands), d) == if d == c then Heard(es, d) + commands else Heard(es, d)
    decreases |commands|
  {
    var all := es + Receives(c, commands);
    if commands == [] {
      assert all == es;
    } else {
      var before := commands[..|commands| - 1];
      assert all[..|all| - 1] == es + Receives(c, before);
      HeardReceives(es, c, before, d);
    }
  }

  lemma HeardOne(es: seq<Event>, e: Event, d: Client)
    requires e.c != d
    ensures Heard(es + [e], d) == Heard(es, d)
  {
    assert (es + [e])[..|es|] == es;
  }

  /** A turn of c is nothing to the others. */
  lemma HeardTurn(es: seq<Event>, c: Client, lines: seq<string>, gone: bool)
    ensures forall d | d != c :: Heard(es + Turn(c, lines, gone), d) == Heard(es, d)
    ensures var received := es + Receives(c, Read(lines));
            es + Turn(c, lines, gone) == if gone then received + [Leave(c)] else received
  {
    hide Heard;
    var received := es + Receives(c, Read(lines));
    assert es + Turn(c, lines, gone) == if gone then received + [Leave(c)] else received;
    forall d | d != c
      ensures Heard(es + Turn(c, lines, gone), d) == Heard(es, d)
    {
      HeardReceives(es, c, Read(lines), d);
      HeardOne(received, Leave(c), d);
    }
  }

  /** The clients have either had their turn or are still to have it. */
  ghost predicate Shared(order: seq<Client>, todo: set<Client>, arrivals: map<Client, Arrival>) {
    forall c :: (c in arrivals <==> c in order || c in todo) && !(c in order && c in todo)
  }

  lemma NoTurns(es: seq<Event>, streams: map<Client, string>, arrivals: map<Client, Arrival>, failed: set<Client>)
    ensures Ordered([], streams, arrivals) && es + Turns([], streams, arrivals, failed) == es
    ensures Shared([], arrivals.Keys, arrivals)
  {}

  lemma AllHadTurns(order: seq<Client>, arrivals: map<Client, Arrival>)
    requires Shared(order, {}, arrivals)
    ensures forall c | c in arrivals :: c in order
  {}

  lemma NextInOrder(order: seq<Client>, c: Client, todo: set<Client>, streams: map<Client, string>,
                    arrivals: map<Client, Arrival>)
    requires Ordered(order, streams, arrivals) && Shared(order, todo, arrivals) && c in todo
             && streams.Keys == arrivals.Keys
    ensures Ordered(order + [c], streams, arrivals) && Shared(order + [c], todo - {c}, arrivals)
    ensures (order + [c])[..|order + [c]| - 1] == order && c in streams && c in arrivals
  {}

  /** What another turn adds; a round is no run when the lines of its last turn go on with none. */
  lemma OneTurnMore(es: seq<Event>, order: seq<Client>, c: Client, streams: map<Client, string>,
                    arrivals: map<Client, Arrival>, failed: set<Client>)
    requires Ordered(order, streams, arrivals) && Ordered(order + [c], streams, arrivals) && c in streams
             && c in arrivals
    ensures var so, lines := es + Turns(order, streams, arrivals, failed), Lines(Tail(streams[c]) + Text(arrivals[c]));
            && es + Turns(order + [c], streams, arrivals, failed)
               == so + Turn(c, lines, c in failed || Breaks(arrivals[c]))
            && (!IsRun(so + Receives(c, Read(lines))) ==> !IsRun(es + Turns(order + [c], streams, arrivals, failed)))
  {
    hide Lines, Tail, Text, Breaks, IsRun, Receives, Read;
    var so, lines := es + Turns(order, streams, arrivals, failed), Lines(Tail(streams[c]) + Text(arrivals[c]));
    var gone := c in failed || Breaks(arrivals[c]);
    assert (order + [c])[..|order|] == order;
    assert es + (Turns(order, streams, arrivals, failed) + Turn(c, lines, gone)) == so + Turn(c, lines, gone);
    if IsRun(so + Turn(c, lines, gone)) {
      assert so + Turn(c, lines, gone) == so + Receives(c, Read(lines)) + if gone then [Leave(c)] else [];
      RunStarts(so + Receives(c, Read(lines)), if gone then [Leave(c)] else []);
    }
  }

  lemma ReadMore(a: seq<string>, b: seq<string>)
    ensures Read(a + b) == Read(a) + Read(b)
  {}

  lemma Extend(es: seq<Event>, e: Event, before: seq<Entry>, log: seq<Entry>)
    requires IsRun(es) && Logged(es, before) && Legal(After(es), e)
    requires Wrote(before, log, Out(After(es), e))
    ensures IsRun(es + [e]) && After(es + [e]) == Step(After(es), e) && Logged(es + [e], log)
    ensures before <= log
  {
    assert before <= log;
    hide Wrote, Legal, Step, Out, View.Inv, View.Sendable;
    OneStep(es, e);
    assert (es + [e])[..|es|] == es;
  }

  lemma HeardAccept(es: seq<Event>, c: Client, greeted: bool)
    ensures Heard(es + [Accept(c, greeted)], c) == []
    ensures forall d | d != c :: Heard(es + [Accept(c, greeted)], d) == Heard(es, d)
  {
    assert (es + [Accept(c, greeted)])[..|es|] == es;
  }

  class Loop {
    const srv: Server
    var connections: map<Client, Connection>
    ghost var Attached: set<Connection>
    ghost var events: seq<Event>
    ghost var streams: map<Client, string>

    /** What the server may change. */
    ghost function Heap(): (heap: set<object>)
      reads srv, srv.parentTopic
      ensures forall o | o in heap :: !(o is Connection) && !(o is Loop)
    {
      {srv, srv.net} + srv.parentTopic.Repr + srv.parameters + srv.Numerics + srv.Discretes
    }

    lemma Aloof()
      ensures this !in Heap() && forall conn: Connection :: conn !in Heap()
    {}

    /** The server is where the events lead it, and has written what they make it write. */
    ghost predicate Running()
      reads this`events, srv, srv.parentTopic, Heap()
    {
      srv.Valid() && IsRun(events) && srv.State == After(events) && Logged(events, srv.net.log)
    }

    /** All complete lines that came from c have been obeyed, in order, and the rest is kept. */
    ghost predicate Served(c: Client)
      reads this`connections, this`Attached, this`streams, this`events, Attached
    {
      && HasConnection(c)
      && connections[c].buff == Tail(streams[c]) && Heard(events, c) == Read(Lines(streams[c]))
    }

    ghost predicate HasConnection(c: Client)
      reads this`connections, this`Attached, this`streams, Attached
    {
      c in connections && c in streams && connections[c] in Attached && connections[c].owner == c
    }

    /** Every client has a connection of its own, and is served. */
    ghost predicate Attended()
      reads this`connections, this`Attached, this`streams, this`events, Attached
    {
      && streams.Keys == connections.Keys
      && (forall c | c in connections :: Served(c) && connections[c].connected)
    }

    ghost predicate Valid()
      reads this`connections, this`Attached, this`streams, this`events, srv, srv.parentTopic, Heap(), Attached
    {
      Running() && connections.Keys == srv.State.clients && Attended()
    }

    constructor ()
      ensures Valid() && fresh(srv) && events == [] && connections == map[]
    {
      srv := new Server();
      connections, Attached, events, streams := map[], {}, [], map[];
    }

    // ---- accepting ----

    /** A new client, and what the server does about it; its connection comes next. */
    method Greet(c: Client, greeted: bool)
      requires Running() && c !in srv.State.clients
      modifies this`events, srv, srv.net
      ensures Running() && events == old(events) + [Accept(c, greeted)] && old(srv.net.log) <= srv.net.log
      ensures srv.State.clients == old(srv.State.clients) + {c}
    {
      hide Server.Valid, Wrote, View.Inv, View.Sendable, Logged;
      ghost var before, e := srv.net.log, Accept(c, greeted);
      srv.AddClient(c, greeted);
      Extend(events, e, before, srv.net.log);
      events := events + [e];
    }

    method AcceptClient(c: Client, greeted: bool)
      requires Valid() && c !in connections
      modifies this, srv, srv.net
      ensures Valid() && events == old(events) + [Accept(c, greeted)] && old(srv.net.log) <= srv.net.log
      ensures streams == old(streams)[c := ""] && connections.Keys == old(connections.Keys) + {c}
    {
      hide Running, Heard, Lines, Tail, Read, Attended;
      Greet(c, greeted);
      HeardAccept(old(events), c, greeted);
      StillAttended();
      Aloof();
      Attach(c);
    }

    twostate lemma StillServed(c: Client)
      requires old(Served(c)) && c in connections && c in streams && Attached >= old(Attached)
      requires connections[c] == old(connections[c]) && streams[c] == old(streams[c]) && unchanged(connections[c])
      requires Heard(events, c) == Heard(old(events), c)
      ensures Served(c)
    {
      hide Heard, Lines, Tail, Read;
    }

    /** Attendance depends only on what was heard from the clients that are connected. */
    twostate lemma StillAttended()
      requires old(Attended())
      requires connections == old(connections) && Attached == old(Attached) && streams == old(streams)
      requires forall c | c in connections :: unchanged(connections[c]) && Heard(events, c) == Heard(old(events), c)
      ensures Attended()
    {
      hide Heard, Served;
      forall c | c in connections
        ensures Served(c)
      {
        assert old(Served(c));
        StillServed(c);
      }
    }

    lemma ServedAtFirst(c: Client)
      requires c in connections && c in streams && connections[c] in Attached && connections[c].owner == c
      requires connections[c].buff == "" && streams[c] == "" && Heard(events, c) == []
      ensures Served(c)
    {
      hide Heard, Lines, Tail, Read;
      NothingToRead();
    }

    method Attach(c: Client)
      requires Attended() && c !in connections && Heard(events, c) == []
      modifies this`connections, this`Attached, this`streams
      ensures Attended() && fresh(Attached - old(Attached)) && streams == old(streams)[c := ""]
      ensures connections.Keys == old(connections.Keys) + {c}
    {
      hide Heard, Served;
      var conn := new Connection(c);
      connections, Attached, streams := connections[c := conn], Attached + {conn}, streams[c := ""];
      ServedAtFirst(c);
      forall d | d in connections && d != c
        ensures Served(d)
      {
        assert old(Served(d));
        StillServed(d);
      }
    }

    // ---- lines ----

    /** One line; false if an exception escapes. */
    method Obey(c: Client, line: string) returns (alive: bool)
      requires Running() && c in srv.State.clients
      modifies this`events, Heap()
      ensures alive <==> Survives(After(old(events)), Wire.Parse(line))
      ensures alive ==> Running() && events == old(events) + [Receive(c, Wire.Parse(line))]
      ensures alive ==> (forall o | o in Heap() :: o in old(Heap()) || fresh(o)) && old(srv.net.log) <= srv.net.log
      ensures alive ==> srv.State.clients == old(srv.State.clients)
    {
      hide Server.Valid, Wrote, View.Inv, View.Sendable, Logged, Survives;
      ghost var before, e := srv.net.log, Receive(c, Wire.Parse(line));
      alive := srv.ParseLine(c, line);
      if alive {
        Extend(events, e, before, srv.net.log);
        events := events + [e];
      }
    }

    /** The complete lines of c are obeyed until an exception escapes: all of them together go on
        with the run, or it is false that they do. */
    method Drain(c: Client, conn: Connection) returns (alive: bool)
      requires Running() && c in srv.State.clients
      modifies conn`buff, this`events, Heap()
      ensures alive <==> IsRun(old(events) + Receives(c, Read(Lines(old(conn.buff)))))
      ensures alive ==> Running() && events == old(events) + Receives(c, Read(Lines(old(conn.buff))))
      ensures alive ==> (forall o | o in Heap() :: o in old(Heap()) || fresh(o)) && old(srv.net.log) <= srv.net.log
      ensures alive ==> srv.State.clients == old(srv.State.clients) && conn.buff == Tail(old(conn.buff))
    {
      hide Running, Heap, Lines, Tail, Read, Receives, Rests, Survives, Wire.Parse, IsRun, After, View.Inv,
           View.Sendable;
      ghost var start, es, done := conn.buff, events, [];
      ReceivesNothing(es, c);
      IsAt();
      var s := NextLine(conn);
      RestsAtFirst(start, s, conn.buff);
      while s != ""
        invariant Running() && IsRun(events) && events == es + Receives(c, Read(done))
        invariant srv.State.clients == old(srv.State.clients)
        invariant (forall o | o in Heap() :: o in old(Heap()) || fresh(o)) && old(srv.net.log) <= srv.net.log
        invariant Rests(start, done, s, conn.buff)
        decreases |conn.buff|, s != ""
      {
        ghost var line, rest := s, conn.buff;
        alive := Obey(c, s);
        if !alive {
          GivesUp(es, c, start, done, line, rest);
          return;
        }
        IsAt();
        ReceivesMore(es, c, done, line);
        s := NextLine(conn);
        RestsOneOn(start, done, line, rest, s, conn.buff);
        done := done + [line];
      }
      AllIsRead(start, done, conn.buff);
      alive := true;
    }

    /** Reading leaves the server alone. */
    method NextLine(conn: Connection) returns (s: string)
      requires Running()
      modifies conn`buff
      ensures Running() && Heap() == old(Heap())
      ensures Took(old(conn.buff), s, conn.buff) && (s != "" ==> |conn.buff| < |old(conn.buff)|)
    {
      hide Running, Lines, Tail;
      Aloof();
      s := conn.ReadLine();
    }

    lemma IsAt()
      requires Running()
      ensures IsRun(events) && srv.State == After(events)
    {}

    // ---- turns ----

    method Close(c: Client)
      requires Running() && c in srv.State.clients
      modifies this`events, Heap()
      ensures Running() && events == old(events) + [Leave(c)] && old(srv.net.log) <= srv.net.log
      ensures forall o | o in Heap() :: o in old(Heap())
      ensures srv.State.clients == old(srv.State.clients) - {c}
    {
      hide Server.Valid, Wrote, View.Inv, View.Sendable, Logged;
      ghost var before, e := srv.net.log, Leave(c);
      srv.RemoveClient(c);
      Extend(events, e, before, srv.net.log);
      events := events + [e];
    }

    /** What arrived has been obeyed: it is now part of the stream. */
    ghost method Note(c: Client, more: string, es: seq<Event>)
      requires Running() && HasConnection(c) && connections[c].buff == Tail(Tail(streams[c]) + more)
      requires Heard(es, c) == Read(Lines(streams[c]))
      requires events == es + Receives(c, Read(Lines(Tail(streams[c]) + more)))
      modifies this`streams
      ensures Running() && Heap() == old(Heap()) && Served(c) && streams == old(streams)[c := old(streams[c]) + more]
    {
      hide Running, Lines, Tail, Heard, Read, Receives;
      Aloof();
      MoreArrived(streams[c], more);
      HeardReceives(es, c, Read(Lines(Tail(streams[c]) + more)), c);
      streams := streams[c := streams[c] + more];
    }

    /** One client's turn, up to what becomes of it: a failed write since its last turn shows now. */
    method TakeTurn(c: Client, conn: Connection, a: Arrival, failed: bool) returns (alive: bool)
      requires Running() && c in srv.State.clients
      modifies conn, this`events, Heap()
      ensures alive <==> IsRun(old(events) + Receives(c, Read(Lines(old(conn.buff) + Text(a)))))
      ensures alive ==> Running() && events == old(events) + Receives(c, Read(Lines(old(conn.buff) + Text(a))))
      ensures alive ==> (forall o | o in Heap() :: o in old(Heap()) || fresh(o)) && old(srv.net.log) <= srv.net.log
      ensures alive ==> srv.State.clients == old(srv.State.clients) && conn.buff == Tail(old(conn.buff) + Text(a))
      ensures alive ==> conn.connected == (old(conn.connected) && !failed && !Breaks(a))
    {
      hide Running, Lines, Tail, Read, Receives, Text, IsRun;
      Aloof();
      Arrives(conn.buff, a);
      if failed {
        conn.connected := false;
      }
      conn.Handle(a);
      alive := Drain(c, conn);
    }

    /** What c sent is obeyed and accounted for. */
    method Hear(c: Client, a: Arrival, failed: bool) returns (alive: bool)
      requires Running() && c in srv.State.clients && Served(c)
      modifies connections[c], this`events, this`streams, Heap()
      ensures alive <==> IsRun(old(events) + Receives(c, Read(Lines(Tail(old(streams[c])) + Text(a)))))
      ensures alive ==> Running() && events == old(events) + Receives(c, Read(Lines(Tail(old(streams[c])) + Text(a))))
      ensures alive ==> (forall o | o in Heap() :: o in old(Heap()) || fresh(o)) && old(srv.net.log) <= srv.net.log
      ensures alive ==> srv.State.clients == old(srv.State.clients)
      ensures alive ==> Served(c) && streams == old(streams)[c := old(streams[c]) + Text(a)]
      ensures alive ==> connections[c].connected == (old(connections[c].connected) && !failed && !Breaks(a))
    {
      hide Running, Heard, Lines, Tail, Read, Receives, Text, IsRun;
      ghost var es := events;
      alive := TakeTurn(c, connections[c], a, failed);
      if alive {
        Note(c, Text(a), es);
      }
    }

    /** A client whose connection is gone is removed. */
    method Settle(c: Client)
      requires Running() && connections.Keys == srv.State.clients && c in connections
      modifies this`connections, this`streams, this`events, Heap()
      ensures Running() && connections.Keys == srv.State.clients && old(srv.net.log) <= srv.net.log
      ensures forall o | o in Heap() :: o in old(Heap())
      ensures if old(connections[c].connected)
              then connections == old(connections) && streams == old(streams) && events == old(events)
              else connections == old(connections) - {c} && streams == old(streams) - {c}
                   && events == old(events) + [Leave(c)]
    {
      hide Running, Heap;
      if !connections[c].connected {
        Close(c);
        connections, streams := connections - {c}, streams - {c};
      }
    }

    /** One client's turn. It is removed when its connection is gone, after its last lines. */
    method ServeClient(c: Client, a: Arrival, failed: bool) returns (alive: bool)
      requires Valid() && c in connections
      modifies this`connections, this`streams, this`events, connections[c], Heap()
      ensures alive <==> IsRun(old(events) + Receives(c, Read(Lines(Tail(old(streams[c])) + Text(a)))))
      ensures alive ==> events == old(events) + Turn(c, Lines(Tail(old(streams[c])) + Text(a)), failed || Breaks(a))
      ensures alive ==> Valid() && streams == Turned(old(streams), c, Text(a), failed || Breaks(a))
      ensures alive ==> connections.Keys == srv.State.clients && streams.Keys == connections.Keys
      ensures alive ==> connections.Keys ==
                        if failed || a.PollError?
                          || a.Closed? then old(connections.Keys) - {c} else old(connections.Keys)
      ensures alive ==> (forall o | o in Heap() :: o in old(Heap()) || fresh(o)) && old(srv.net.log) <= srv.net.log
    {
      hide Running, Heap, Heard, Served, Lines, Tail, Read, Receives, Text, Attended, Breaks, Turned, Turn, IsRun;
      IsServed(c);
      StreamTurns(streams, c, Text(a));
      ghost var es, lines := events, Lines(Tail(streams[c]) + Text(a));
      alive := Hear(c, a, failed);
      if alive {
        Settle(c);
        HeardTurn(es, c, lines, failed || Breaks(a));
        TurnIsOver(c);
        AllAttended();
        TurnedKeys(old(streams), c, Text(a), a, failed);
      }
    }

    lemma AllAttended()
      requires Attended()
      ensures streams.Keys == connections.Keys
    {}

    // ---- rounds ----

    /** One round: every client has its turn, in some order. Those whose connections are gone are
        removed, and all lines that are complete are obeyed, unless one makes an exception
        escape; the turns before that one's went well. */
    method ServeAll(arrivals: map<Client, Arrival>, failed: set<Client>) returns (alive: bool, ghost order: seq<Client>)
      requires Valid() && arrivals.Keys == connections.Keys
      modifies this, Attached, Heap()
      ensures Ordered(order, old(streams), arrivals)
      ensures alive <==> IsRun(old(events) + Turns(order, old(streams), arrivals, failed))
      ensures !alive ==> order != [] && Ordered(order[..|order| - 1], old(streams), arrivals)
      ensures !alive ==> IsRun(old(events) + Turns(order[..|order| - 1], old(streams), arrivals, failed))
      ensures alive ==> forall c | c in arrivals :: c in order
      ensures alive ==> Valid() && events == old(events) + Turns(order, old(streams), arrivals, failed)
      ensures alive ==> old(srv.net.log) <= srv.net.log
      ensures alive ==> connections.Keys == srv.State.clients
      ensures alive ==> connections.Keys ==
                        set c | c in arrivals && c !in failed && !arrivals[c].PollError? && !arrivals[c].Closed?
      ensures alive ==> forall c | c in connections :: c in streams && c in old(streams) && c in arrivals
                          && streams[c] == old(streams[c]) + Text(arrivals[c])
    {
      hide Valid, Heap, Text, Breaks, Round, IsRun, Turns, After, Ordered;
      KeysAgree();
      ghost var before := streams;
      RoundStarts(before, arrivals, failed);
      alive, order := ServeEach(arrivals, failed);
      if alive {
        KeysAgree();
        RoundEnds(before, streams, arrivals, failed);
        ConnectedAre();
      }
    }

    lemma ConnectedAre()
      requires Valid()
      ensures connections.Keys == srv.State.clients
    {}

    /** The loop over the clients. */
    method ServeEach(arrivals: map<Client, Arrival>, failed: set<Client>)
        returns (alive: bool, ghost order: seq<Client>)
      requires Valid() && arrivals.Keys == connections.Keys
               && Round(streams, streams, arrivals, failed, connections.Keys)
      modifies this, Attached, Heap()
      ensures Ordered(order, old(streams), arrivals)
      ensures alive <==> IsRun(old(events) + Turns(order, old(streams), arrivals, failed))
      ensures !alive ==> order != [] && Ordered(order[..|order| - 1], old(streams), arrivals)
      ensures !alive ==> IsRun(old(events) + Turns(order[..|order| - 1], old(streams), arrivals, failed))
      ensures alive ==> forall c | c in arrivals :: c in order
      ensures alive ==> Valid() && events == old(events) + Turns(order, old(streams), arrivals, failed)
      ensures alive ==> old(srv.net.log) <= srv.net.log && Round(old(streams), streams, arrivals, failed, {})
    {
      hide Valid, Heap, Round, IsRun, Turns, After, Turn, Receives, Read, Lines, Tail, Text, Breaks, Ordered, Shared;
      ghost var es, before := events, streams;
      order := [];
      NoTurns(es, before, arrivals, failed);
      KeysAgree();
      ValidIsRun();
      var todo := connections.Keys;
      while todo != {}
        invariant Valid() && Attached == old(Attached) && todo <= connections.Keys
                  && Round(before, streams, arrivals, failed, todo)
        invariant Ordered(order, before, arrivals) && Shared(order, todo, arrivals)
        invariant IsRun(events) && events == es + Turns(order, before, arrivals, failed)
        invariant (forall o | o in Heap() :: o in old(Heap()) || fresh(o)) && old(srv.net.log) <= srv.net.log
      {
        var c :| c in todo;
        NextInOrder(order, c, todo, before, arrivals);
        OneTurnMore(es, order, c, before, arrivals, failed);
        order := order + [c];
        alive := ServeNext(c, arrivals, failed, before, todo);
        if !alive {
          return;
        }
        ValidIsRun();
        todo := todo - {c};
      }
      AllHadTurns(order, arrivals);
      alive := true;
    }

    /** The body of that loop. */
    method ServeNext(c: Client, arrivals: map<Client, Arrival>, failed: set<Client>,
                     ghost before: map<Client, string>, ghost todo: set<Client>)
        returns (alive: bool)
      requires Valid() && c in todo && todo <= connections.Keys && Round(before, streams, arrivals, failed, todo)
      requires c in before && c in arrivals
      modifies this, Attached, Heap()
      ensures alive <==> IsRun(old(events) + Receives(c, Read(Lines(Tail(before[c]) + Text(arrivals[c])))))
      ensures alive ==> Valid() && Attached == old(Attached) && todo - {c} <= connections.Keys
      ensures alive ==> events == old(events)
                          + Turn(c, Lines(Tail(before[c]) + Text(arrivals[c])), c in failed || Breaks(arrivals[c]))
      ensures alive ==> (forall o | o in Heap() :: o in old(Heap()) || fresh(o)) && old(srv.net.log) <= srv.net.log
      ensures alive ==> Round(before, streams, arrivals, failed, todo - {c})
    {
      hide Valid, Heap, Text, Breaks, Round, Turned, IsRun, Turn, Receives, Read, Lines, Tail;
      IsAttached(c);
      RoundGoesOn(before, streams, arrivals, failed, todo, c);
      alive := ServeClient(c, arrivals[c], c in failed);
      if alive {
        KeysAgree();
        RoundSpares(before, streams, arrivals, failed, todo - {c});
      }
    }

    lemma KeysAgree()
      requires Valid()
      ensures streams.Keys == connections.Keys
    {}

    lemma ValidIsRun()
      requires Valid()
      ensures IsRun(events)
    {}

    lemma IsAttached(c: Client)
      requires Valid() && c in connections
      ensures connections[c] in Attached && c in streams
    {
      hide Running;
      assert Served(c);
    }

    lemma IsServed(c: Client)
      requires Attended() && c in connections
      ensures Served(c) && HasConnection(c) && connections[c].connected && streams.Keys == connections.Keys
      ensures forall d | d in connections && d != c :: connections[d] != connections[c]
    {
      hide Lines, Tail, Heard, Read;
      assert Served(c) && forall d | d in connections :: Served(d);
    }

    twostate lemma TurnIsOver(c: Client)
      requires old(Attended()) && Attached == old(Attached) && streams.Keys == connections.Keys
      requires c in connections ==> Served(c) && connections[c].connected
      requires forall d | d in connections && d != c ::
                 && d in old(connections) && d in old(streams) && d in streams
                 && connections[d] == old(connections[d]) && streams[d] == old(streams[d]) && unchanged(connections[d])
                 && Heard(events, d) == Heard(old(events), d)
      ensures Attended()
    {
      hide Heard, Served;
      forall d | d in connections && d != c
        ensures Served(d) && connections[d].connected
      {
        assert old(Served(d) && connections[d].connected);
        StillServed(d);
      }
    }
  }

  lemma MoreArrived(stream: string, more: string)
    ensures var held := Tail(stream) + more;
            Tail(stream + more) == Tail(held) && Read(Lines(stream + more)) == Read(Lines(stream)) + Read(Lines(held))
  {
    hide Lines, Tail;
    Resume(stream, more);
    ReadMore(Lines(stream), Lines(Tail(stream) + more));
  }

  /** What a turn of c does to the streams. */
  ghost function Turned(streams: map<Client, string>, c: Client, text: string, gone: bool): map<Client, string>
    requires c in streams
  {
    if gone then streams - {c} else streams[c := streams[c] + text]
  }

  lemma StreamTurns(streams: map<Client, string>, c: Client, text: string)
    requires c in streams
    ensures streams[c := streams[c] + text] == Turned(streams, c, text, false)
    ensures streams[c := streams[c] + text] - {c} == Turned(streams, c, text, true)
  {}

  /** Who is left after a turn of c. */
  lemma TurnedKeys(streams: map<Client, string>, c: Client, text: string, a: Arrival, failed: bool)
    requires c in streams
    ensures Turned(streams, c, text, failed || Breaks(a)).Keys ==
            if failed || a.PollError? || a.Closed? then streams.Keys - {c} else streams.Keys
  {}

  /** The streams during a round, when the clients of todo have not had their turn. */
  ghost predicate Round(before: map<Client, string>, now: map<Client, string>, arrivals: map<Client, Arrival>,
                        failed: set<Client>, todo: set<Client>) {
    && before.Keys == arrivals.Keys && todo <= arrivals.Keys
    && (forall c :: c in now <==> c in arrivals && (c in todo || (c !in failed && !Breaks(arrivals[c]))))
    && (forall c | c in now :: now[c] == if c in todo then before[c] else before[c] + Text(arrivals[c]))
  }

  lemma RoundStarts(before: map<Client, string>, arrivals: map<Client, Arrival>, failed: set<Client>)
    requires before.Keys == arrivals.Keys
    ensures Round(before, before, arrivals, failed, before.Keys)
  {}

  lemma RoundGoesOn(before: map<Client, string>, now: map<Client, string>, arrivals: map<Client, Arrival>,
                    failed: set<Client>, todo: set<Client>, c: Client)
    requires c in todo && c in now && Round(before, now, arrivals, failed, todo)
    ensures c in arrivals && c in before && now[c] == before[c]
    ensures var after := Turned(now, c, Text(arrivals[c]), c in failed || Breaks(arrivals[c]));
            Round(before, after, arrivals, failed, todo - {c})
  {}

  lemma RoundSpares(before: map<Client, string>, now: map<Client, string>, arrivals: map<Client, Arrival>,
                    failed: set<Client>, todo: set<Client>)
    requires Round(before, now, arrivals, failed, todo)
    ensures todo <= now.Keys
  {}

  lemma RoundEnds(before: map<Client, string>, now: map<Client, string>, arrivals: map<Client, Arrival>,
                  failed: set<Client>)
    requires Round(before, now, arrivals, failed, {})
    ensures now.Keys == set c | c in arrivals && c !in failed && !arrivals[c].PollError? && !arrivals[c].Closed?
    ensures forall c | c in now :: c in before && c in arrivals && now[c] == before[c] + Text(arrivals[c])
  {}

  /** Of the lines of start, done are past, s is in hand unless it is empty, and the rest is in buff. */
  ghost predicate Rests(start: string, done: seq<string>, s: string, buff: string) {
    && Lines(start) == done + (if s == "" then [] else [s] + Lines(buff))
    && Tail(start) == if s == "" then buff else Tail(buff)
  }

  /** What ReadLine promises when it takes s from buff and leaves rest. */
  ghost predicate Took(buff: string, s: string, rest: string) {
    if s == "" then Lines(buff) == [] && rest == Tail(buff)
    else Lines(buff) == [s] + Lines(rest) && Tail(rest) == Tail(buff)
  }

  lemma RestsAtFirst(start: string, s: string, rest: string)
    requires Took(start, s, rest)
    ensures Rests(start, [], s, rest)
  {}

  lemma RestsOneOn(start: string, done: seq<string>, line: string, buff: string, s: string, rest: string)
    requires line != "" && Rests(start, done, line, buff) && Took(buff, s, rest)
    ensures Rests(start, done + [line], s, rest)
  {
    hide Lines, Tail;
    Associative(done, [line], Lines(buff));
  }

  lemma AllIsRead(start: string, done: seq<string>, buff: string)
    requires Rests(start, done, "", buff)
    ensures Lines(start) == done && Tail(start) == buff
  {}

  lemma NothingToRead()
    ensures Tail("") == "" && Read(Lines("")) == []
  {
    NothingSent();
  }
}
