/** What one step of the server writes and to whom. */
module Delivery {
  import opened Base
  import opened Topics
  import opened Filters
  import opened Hops
  import opened Increments
  import opened Model
  import opened Steps

  // ---- who is written to ----

  /** c is neither connected nor remembered anywhere. */
  ghost predicate Absent(v: View, c: Client) {
    && c !in v.clients
    && (forall n | n in v.petitions :: c !in v.petitions[n].clients && c !in v.petitions[n].told)
    && (forall path | path in v.params ::
          var p := v.params[path]; c !in p.clients && c !in p.providers && c !in p.shadow.Keys())
  }

  lemma DisconnectedIsAbsent(v: View, c: Client)
    requires v.Inv() && c !in v.clients
    ensures Absent(v, c)
  {
    forall path | path in v.params
      ensures c !in v.params[path].clients && c !in v.params[path].providers && c !in v.params[path].shadow.Keys()
    {
      assert v.params[path].Valid();
    }
  }

  /** RemoveClient leaves no trace of the client, although it sweeps only the parameters
      that a live petition covers. */
  lemma LeaveErases(v: View, c: Client)
    requires v.Inv()
    ensures Absent(v.Disconnect(c), c)
  {
    DisconnectKeepsInv(v, c);
    DisconnectedIsAbsent(v.Disconnect(c), c);
  }

  lemma AudienceIsSubscribed(p: Param)
    requires p.shadow.Keys() == p.clients && (p.isSet ==> p.shadow.Reads(p.value))
    ensures p.Audience() <= p.clients
  {}

  /** Only connected clients, and the one being accepted, are written to. */
  lemma OnlyConnected(v: View, e: Event, c: Client, line: Line)
    requires v.Inv() && v.Sendable() && Legal(v, e) && (c, line) in Out(v, e)
    ensures c in v.clients || (e.Accept? && e.c == c)
    ensures e.Leave? ==> e.c != c
  {
    match e {
      case Accept(_, _) =>
      case Leave(d) =>
      case Receive(d, command) =>
        match command {
          case Register(n) =>
            forall path | path in v.params
              ensures v.params[path].Subscribe(d).Audience() <= v.clients
            {
              assert v.params[path].Valid();
              AudienceIsSubscribed(v.params[path].Subscribe(d));
            }
          case Assign(name, value) =>
            AssignedIsValid(v, name, value);
            TargetKeys(v, name);
            AudienceIsSubscribed(v.Assigned(name, value));
          case Unregister(n) =>
          case Get(_) =>
          case NoRetain(_, _) =>
          case Ignored =>
        }
    }
  }

  lemma TargetKeys(v: View, name: string)
    requires v.Inv()
    ensures v.Target(name).shadow.Keys() == v.Target(name).clients
  {
    var path := Segments(name);
    assert path in v.params ==> v.params[path].Valid();
  }

  // ---- values ----

  /** The clients a parameter would be sent to are only those who just registered: the
      others already hold the value. */
  lemma OthersAreUpToDate(p: Param, c: Client)
    requires p.Valid()
    ensures p.Subscribe(c).Audience() <= {c}
    ensures p.Audience() == {}
  {
    p.shadow.RefreshSyncs(p.value);
  }

  /** A petition causes value lines to the petitioner only. */
  lemma RegisterServesOnlyThePetitioner(v: View, c: Client, n: string, d: Client, name: string, value: string)
    requires v.Inv() && v.Sendable() && (d, Push(name, value)) in v.RegisterOut(c, n)
    ensures d == c
  {
    var path :| path in v.params && d in v.params[path].Subscribe(c).Audience();
    assert v.params[path].Valid();
    OthersAreUpToDate(v.params[path], c);
  }

  /** Assigning the value a parameter already has tells nobody. */
  lemma RepetitionIsSilent(v: View, name: string)
    requires v.Inv() && Segments(name) in v.params
    ensures v.Target(name).shadow.Reads(v.Target(name).value) && v.AssignOut(name, v.Target(name).value) == {}
  {
    assert v.params[Segments(name)].Valid();
    OthersAreUpToDate(v.params[Segments(name)], 0);
  }

  /** Every value line on a parameter carries the value the step leaves it with. */
  lemma PushesAreCurrent(v: View, e: Event, c: Client, name: string, value: string)
    requires v.Inv() && v.Sendable() && Legal(v, e) && (c, Push(name, value)) in Out(v, e)
    ensures var w := Step(v, e);
            Segments(name) in w.params && w.params[Segments(name)].name == name
              && w.params[Segments(name)].value == value
  {
    var w := Step(v, e);
    match e {
      case Accept(_, _) =>
      case Leave(_) =>
      case Receive(d, command) =>
        match command {
          case Register(n) =>
            var path :| path in v.Covered(n) && c in v.params[path].Subscribe(d).Audience()
                        && name == v.params[path].name && value == v.params[path].value;
            assert path == Segments(name) && path in w.params;
          case Assign(_, _) => AssignedIsValid(v, command.name, command.value);
          case Unregister(_) =>
          case Get(_) =>
          case NoRetain(_, _) =>
          case Ignored =>
        }
    }
  }

  /** When a client registers again with a numeric parameter, it stays up to date whatever values
      follow exactly when it held 0 or the present value is far enough from 0 to be sent. */
  lemma ReregisterIsSafe(v: View, c: Client, n: string, path: Path, held: real)
    requires v.Inv() && v.Sendable() && path in v.Covered(n)
    requires c in v.params[path].clients && MarginOf(v.params[path].name).Some?
    ensures var p, q, margin := v.params[path], v.Register(c, n).params[path], MarginOf(v.params[path].name).value;
            && Stof(p.value).Some? && q.shadow.Numeric? && c in q.shadow.last && q.value == p.value
            && var val := Stof(p.value).value;
               var shown := if (c, Push(p.name, p.value)) in v.RegisterOut(c, n) then val else held;
               StaysClose(margin, q.shadow.last[c], shown) <==> held == 0.0 || Abs(val) >= margin
  {
    hide StaysClose;
    var p := v.params[path];
    assert p.Valid();
    var margin, val := MarginOf(p.name).value, Stof(p.value).value;
    ReregistrationIsSafe(margin, held, val);
    SentAgain(v, c, n, path);
  }

  lemma SentAgain(v: View, c: Client, n: string, path: Path)
    requires v.Inv() && v.Sendable() && path in v.Covered(n) && MarginOf(v.params[path].name).Some?
    ensures var p, q := v.params[path], v.Register(c, n).params[path];
            && Stof(p.value).Some? && q.shadow.Numeric? && c in q.shadow.last && q.value == p.value
            && var margin, val := MarginOf(p.name).value, Stof(p.value).value;
               && q.shadow.last[c] == Next(margin, 0.0, val)
               && ((c, Push(p.name, p.value)) in v.RegisterOut(c, n) <==> Stale(margin, 0.0, val))
  {
    hide MarginOf, Stale, Next;
    var p := v.params[path];
    assert p.Valid();
    var again := p.Subscribe(c);
    if c in again.Audience() {
      assert (c, Push(p.name, p.value)) in v.OfferOut(v.Covered(n), c);
    }
    if (c, Push(p.name, p.value)) in v.RegisterOut(c, n) {
      var other :| other in v.Covered(n) && c in v.params[other].Subscribe(c).Audience()
        && v.params[other].name == p.name;
      assert other == path;
    }
  }

  // ---- noretain ----

  /** Petitions of c that cover a topic. */
  function Wanting(v: View, c: Client, path: Path): set<string> {
    set n | n in v.Covering(path) && c in v.petitions[n].clients
  }

  function Copies(v: View, c: Client, name: string, value: string): set<Entry> {
    set n | n in Wanting(v, c, Segments(name)) :: (c, Relay(n, name, value))
  }

  /** noretain writes a client one copy for each of its petitions that covers the name,
      and changes nothing. */
  lemma {:induction false} RelayCopies(v: View, c: Client, name: string, value: string)
    ensures (set e | e in v.RelayOut(name, value) && e.0 == c) == Copies(v, c, name, value)
    ensures |Copies(v, c, name, value)| == |Wanting(v, c, Segments(name))|
    ensures v.Sendable() && Splits(name) ==> Obey(v, c, NoRetain(name, value)) == v
  {
    CountCopies(Wanting(v, c, Segments(name)), c, name, value);
  }

  lemma {:induction false} CountCopies(names: set<string>, c: Client, name: string, value: string)
    ensures |set n | n in names :: (c, Relay(n, name, value))| == |names|
  {
    var copies := set n | n in names :: (c, Relay(n, name, value));
    if names != {} {
      var n :| n in names;
      CountCopies(names - {n}, c, name, value);
      assert copies == (set m | m in names - {n} :: (c, Relay(m, name, value))) + {(c, Relay(n, name, value))};
    }
  }

  // ---- petitions ----

  /** The order in which empty petitions are dropped does not matter. */
  lemma DropsCommute(v: View, some: set<string>, others: set<string>)
    requires some !! others && some + others <= v.petitions.Keys
    ensures v.Drop(some).Drop(others) == v.Drop(others).Drop(some) == v.Drop(some + others)
  {
    DropTwice(v, some, others);
    DropTwice(v, others, some);
    assert some + others == others + some;
  }

  // ---- are petitions honoured? ----

  lemma AcceptHonours(v: View, c: Client, d: Client)
    requires v.Inv() && v.Honours(d)
    ensures v.Connect(c).Honours(d)
  {
    forall path | path in v.params && v.Connect(c).Asks(d, path)
      ensures v.Asks(d, path)
    {
      var n :| n in v.Connect(c).Covering(path) && d in v.Connect(c).petitions[n].clients;
      assert n in v.Covering(path) && d in v.petitions[n].clients;
    }
  }

  lemma RegisterHonours(v: View, c: Client, n: string, d: Client)
    requires v.Inv() && v.Sendable() && v.Honours(d)
    ensures v.Register(c, n).Honours(d)
  {
    var w := v.Register(c, n);
    forall path | path in w.params && w.Asks(d, path)
      ensures d in w.params[path].clients
    {
      assert v.params[path].Valid();
      var m :| m in w.Covering(path) && d in w.petitions[m].clients;
      if m != n || d != c {
        assert m in v.Covering(path) && d in v.petitions[m].clients;
      }
    }
  }

  lemma AssignHonours(v: View, c: Client, name: string, value: string, d: Client)
    requires v.Inv() && v.Target(name).shadow.Reads(value) && v.Honours(d)
    ensures v.Assign(c, name, value).Honours(d)
  {
    hide MarginOf;
    var w := v.Assign(c, name, value);
    forall path | path in w.params && w.Asks(d, path)
      ensures d in w.params[path].clients
    {
      var m :| m in w.Covering(path) && d in w.petitions[m].clients;
      assert m in v.Covering(path) && d in v.petitions[m].clients;
      assert v.Asks(d, path);
    }
  }

  lemma WithdrawHonoursOthers(v: View, c: Client, n: string, d: Client)
    requires v.Honours(d) && d != c
    ensures v.Unregister(c, n).Honours(d)
  {
    var w := v.Unregister(c, n);
    forall path | path in w.params && w.Asks(d, path)
      ensures d in w.params[path].clients
    {
      var m :| m in w.Covering(path) && d in w.petitions[m].clients;
      assert m in v.Covering(path) && d in v.petitions[m].clients;
      assert v.Asks(d, path);
    }
  }

  lemma DisconnectHonoursOthers(v: View, c: Client, d: Client)
    requires v.Honours(d) && d != c
    ensures v.Disconnect(c).Honours(d)
  {
    var w := v.Disconnect(c);
    forall path | path in w.params && w.Asks(d, path)
      ensures d in w.params[path].clients
    {
      var m :| m in w.Covering(path) && d in w.petitions[m].clients;
      assert m in v.Covering(path) && d in v.petitions[m].clients;
      assert v.Asks(d, path);
    }
  }

  /** Some parameter is covered by n and by another petition of c, and survives n being
      withdrawn: somebody else subscribes to it, or holds n. */
  ghost predicate Overlaps(v: View, c: Client, n: string)
    requires n in v.petitions
  {
    exists path, m ::
      && path in v.params && n in v.Covering(path) && m in v.Covering(path) && m != n && c in v.petitions[m].clients
      && (v.params[path].clients != {c} || v.petitions[n].clients != {c})
  }

  /** When a covered parameter outlives the withdrawal. */
  lemma OutlivesWithdrawal(v: View, c: Client, n: string, path: Path)
    requires v.Inv() && n in v.petitions && path in v.params && n in v.Covering(path) && c in v.params[path].clients
    ensures path in v.Unregister(c, n).params <==> v.params[path].clients != {c} || v.petitions[n].clients != {c}
    ensures path in v.Unregister(c, n).params ==> c !in v.Unregister(c, n).params[path].clients
  {
    var u := v.Withdraw(c, n);
    assert u.params[path].clients == v.params[path].clients - {c};
    assert u.petitions[n].clients == v.petitions[n].clients - {c};
    assert n in u.Empty() ==> n in u.Covering(path) * u.Empty();
    assert forall m | m in u.Empty() :: m == n;
    assert v.petitions[n].clients == {c} <==> n in u.Empty();
  }

  lemma StillAsks(v: View, c: Client, n: string, path: Path, m: string)
    requires v.Inv() && n in v.petitions && m in v.Covering(path) && m != n && c in v.petitions[m].clients
    ensures v.Asks(c, path) && v.Unregister(c, n).Asks(c, path)
  {
    var w := v.Unregister(c, n);
    assert m in w.Covering(path) && c in w.petitions[m].clients;
  }

  /** A client that unregisters a topic, which it need not hold, stops having its petitions
      honoured exactly when one of its others overlaps with it. Topics nobody holds do no harm. */
  lemma UnregisterHonoursItself(v: View, c: Client, n: string)
    requires v.Inv() && v.Honours(c)
    ensures v.Unregister(c, n).Honours(c) <==> n !in v.petitions || !Overlaps(v, c, n)
  {
    var w := v.Unregister(c, n);
    if n !in v.petitions {
      NothingWithdrawn(v, c, n);
    } else if Overlaps(v, c, n) {
      var path, m :| path in v.params && n in v.Covering(path) && m in v.Covering(path) && m != n
        && c in v.petitions[m].clients
                     && (v.params[path].clients != {c} || v.petitions[n].clients != {c});
      hide View.Unregister;
      StillAsks(v, c, n, path, m);
      OutlivesWithdrawal(v, c, n, path);
      assert path in w.params && w.Asks(c, path) && c !in w.params[path].clients;
    } else {
      forall path | path in w.params && w.Asks(c, path)
        ensures c in w.params[path].clients
      {
        var m :| m in w.Covering(path) && c in w.petitions[m].clients;
        KeptByUnregister(v, c, n, path, m);
      }
    }
  }

  lemma NothingWithdrawn(v: View, c: Client, n: string)
    requires v.Inv() && n !in v.petitions
    ensures v.Unregister(c, n) == v
  {
    assert v.Empty() == {};
    DropNothing(v);
  }

  lemma KeptByUnregister(v: View, c: Client, n: string, path: Path, m: string)
    requires v.Inv() && v.Honours(c) && n in v.petitions && !Overlaps(v, c, n)
    requires path in v.Unregister(c, n).params && m in v.Unregister(c, n).Covering(path)
    requires c in v.Unregister(c, n).petitions[m].clients
    ensures c in v.Unregister(c, n).params[path].clients
  {
    assert m in v.Covering(path) && c in v.petitions[m].clients && m != n;
    assert v.Asks(c, path);
    if n in v.Covering(path) {
      OutlivesWithdrawal(v, c, n, path);
    }
  }
}
