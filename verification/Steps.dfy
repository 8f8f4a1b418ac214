/** What every step of the server keeps, and what it writes to whom. */
module Steps {
  import opened Base
  import opened Topics
  import opened Model

  lemma InvIsSendable(v: View)
    requires v.Inv()
    ensures v.Sendable()
  {
    forall path | path in v.params
      ensures v.params[path].isSet ==> v.params[path].shadow.Reads(v.params[path].value)
    {
      assert v.params[path].Valid();
    }
  }

  lemma SentIsValid(p: Param)
    requires p.shadow.Keys() == p.clients && p.isSet && p.shadow.Reads(p.value)
    requires match MarginOf(p.name)
             case Some(margin) => p.shadow.Numeric? && p.shadow.margin == margin
             case None => p.shadow.Discrete?
    ensures p.Sent().Valid() && p.Sent().clients == p.clients
  {
    p.shadow.RefreshSyncs(p.value);
  }

  lemma OfferedIsValid(v: View, path: Path, c: Client)
    requires v.Inv() && path in v.params
    ensures v.params[path].Valid() && v.params[path].isSet && v.params[path].shadow.Reads(v.params[path].value)
    ensures v.params[path].Subscribe(c).Sent().Valid()
    ensures var p, q := v.params[path], v.params[path].Subscribe(c).Sent();
            q.clients == p.clients + {c} && q.name == p.name && q.providers == p.providers
  {
    assert v.params[path].Valid();
    SentIsValid(v.params[path].Subscribe(c));
  }

  lemma UnsubscribedIsValid(p: Param, c: Client)
    requires p.Valid()
    ensures p.Unsubscribe(c).Valid()
  {}

  lemma ConnectKeepsInv(v: View, c: Client)
    requires v.Inv()
    ensures v.Connect(c).Inv()
  {
    var w := v.Connect(c);
    forall path, d | path in w.params && d in w.params[path].clients
      ensures w.Asks(d, path)
    {
      AsksGrow(v, w, d, path);
    }
  }

  lemma RegisterKeepsInv(v: View, c: Client, n: string)
    requires v.Inv() && v.Sendable() && c in v.clients
    ensures v.Register(c, n).Inv()
  {
    hide MarginOf, Param.Valid, View.Asks, View.Register;
    RegisteredPetitions(v, c, n);
    var w := v.Register(c, n);
    forall path | path in w.params
      ensures w.params[path].Valid() && w.params[path].clients <= w.clients
      ensures w.params[path].providers == v.params[path].providers && w.params[path].name == v.params[path].name
      ensures forall d | d in w.params[path].clients :: w.Asks(d, path)
    {
      RegisteredParam(v, c, n, path);
    }
  }

  lemma RegisteredPetitions(v: View, c: Client, n: string)
    requires v.Inv() && v.Sendable() && c in v.clients
    ensures var w := v.Register(c, n);
            && w.clients == v.clients && w.params.Keys == v.params.Keys && w.TellsAll()
            && (forall m | m in w.petitions :: w.petitions[m].clients != {} && w.petitions[m].clients <= w.clients)
  {}

  lemma RegisteredParam(v: View, c: Client, n: string, path: Path)
    requires v.Inv() && v.Sendable() && c in v.clients && path in v.params
    ensures var w := v.Register(c, n);
            && path in w.params && w.params[path].Valid() && w.params[path].clients <= v.clients
            && w.params[path].providers == v.params[path].providers && w.params[path].name == v.params[path].name
            && forall d | d in w.params[path].clients :: w.Asks(d, path)
  {
    var w := v.Register(c, n);
    hide MarginOf, Param.Valid, Param.Sent, Param.Subscribe, View.Asks;
    OfferedIsValid(v, path, c);
    forall d | d in w.params[path].clients
      ensures w.Asks(d, path)
    {
      if d in v.params[path].clients {
        AsksGrow(v, w, d, path);
      } else {
        AsksBy(w, d, path, n);
      }
    }
  }

  lemma AsksBy(v: View, c: Client, path: Path, n: string)
    requires n in v.petitions && Matches(Segments(n), path) && c in v.petitions[n].clients
    ensures v.Asks(c, path)
  {
    assert n in v.Covering(path);
  }

  lemma AsksGrow(v: View, w: View, c: Client, path: Path)
    requires v.Asks(c, path)
    requires forall n | n in v.petitions :: n in w.petitions && v.petitions[n].clients <= w.petitions[n].clients
    ensures w.Asks(c, path)
  {
    var n :| n in v.Covering(path) && c in v.petitions[n].clients;
    AsksBy(w, c, path, n);
  }

  /** The invariant but for petitions that lost their last subscriber, and for providers. */
  ghost predicate Slack(v: View) {
    && (forall n | n in v.petitions :: v.petitions[n].clients <= v.clients)
    && v.TellsAll() && v.Named()
    && (forall path | path in v.params ::
          var p := v.params[path];
          && p.Valid() && p.providers != {} && p.clients <= v.clients
          && (forall c | c in p.clients :: v.Asks(c, path)))
  }

  lemma TidyRestores(v: View)
    requires Slack(v)
    ensures Slack(v.Tidy()) && forall n | n in v.Tidy().petitions :: v.Tidy().petitions[n].clients != {}
  {
    var w := v.Tidy();
    forall path, d | path in w.params && d in w.params[path].clients
      ensures w.Asks(d, path)
    {
      assert v.Asks(d, path);
      var n :| n in v.Covering(path) && d in v.petitions[n].clients;
      assert n in w.Covering(path) && d in w.petitions[n].clients;
    }
  }

  lemma WithdrawKeepsSlack(v: View, c: Client, n: string)
    requires v.Inv()
    ensures Slack(v.Withdraw(c, n))
    ensures forall path | path in v.Withdraw(c, n).params :: v.Withdraw(c, n).params[path].providers <= v.clients
  {
    hide MarginOf, Param.Valid, Param.Unsubscribe, View.Asks, View.Withdraw;
    var w := v.Withdraw(c, n);
    WithdrawnPetitions(v, c, n);
    forall path | path in w.params
      ensures w.params[path].Valid() && w.params[path].clients <= w.clients
      ensures w.params[path].providers == v.params[path].providers && w.params[path].name == v.params[path].name
      ensures forall d | d in w.params[path].clients :: w.Asks(d, path)
    {
      WithdrawnParam(v, c, n, path);
    }
  }

  lemma WithdrawnPetitions(v: View, c: Client, n: string)
    requires v.Inv()
    ensures var w := v.Withdraw(c, n);
            && w.clients == v.clients && w.params.Keys == v.params.Keys && w.petitions.Keys == v.petitions.Keys
              && w.TellsAll()
            && (forall m | m in w.petitions :: w.petitions[m].clients <= v.clients)
  {
    hide Param.Valid, View.Asks, Param.Unsubscribe;
  }

  lemma WithdrawnParam(v: View, c: Client, n: string, path: Path)
    requires v.Inv() && path in v.params
    ensures var w := v.Withdraw(c, n);
            && path in w.params && w.params[path].Valid() && w.params[path].clients <= v.clients
            && w.params[path].providers == v.params[path].providers && w.params[path].name == v.params[path].name
            && forall d | d in w.params[path].clients :: w.Asks(d, path)
  {
    hide MarginOf;
    var w := v.Withdraw(c, n);
    UnsubscribedIsValid(v.params[path], c);
    forall d | d in w.params[path].clients
      ensures w.Asks(d, path)
    {
      assert v.Asks(d, path);
      var m :| m in v.Covering(path) && d in v.petitions[m].clients;
      AsksBy(w, d, path, m);
    }
  }

  lemma UnregisterKeepsInv(v: View, c: Client, n: string)
    requires v.Inv()
    ensures v.Unregister(c, n).Inv()
  {
    WithdrawKeepsSlack(v, c, n);
    TidyRestores(v.Withdraw(c, n));
  }

  /** Sweeping only the covered parameters is enough to remove c from all of them. */
  lemma ForgetKeepsSlack(v: View, c: Client)
    requires v.Inv()
    ensures Slack(v.Forget(c)) && forall path | path in v.Forget(c).params :: c !in v.Forget(c).params[path].clients
  {
    hide MarginOf, Param.Valid, Param.Unsubscribe, View.Asks, View.Forget;
    var w := v.Forget(c);
    ForgottenPetitions(v, c);
    forall path | path in w.params
      ensures w.params[path].Valid() && w.params[path].clients <= v.clients && c !in w.params[path].clients
      ensures w.params[path].providers == v.params[path].providers && w.params[path].name == v.params[path].name
      ensures forall d | d in w.params[path].clients :: w.Asks(d, path)
    {
      ForgottenParam(v, c, path);
    }
  }

  lemma ForgottenPetitions(v: View, c: Client)
    requires v.Inv()
    ensures var w := v.Forget(c);
            && w.clients == v.clients - {c} && w.params.Keys == v.params.Keys && w.TellsAll()
            && (forall m | m in w.petitions :: w.petitions[m].clients <= w.clients)
  {
    hide Param.Valid, View.Asks, Param.Unsubscribe;
  }

  lemma ForgottenParam(v: View, c: Client, path: Path)
    requires v.Inv() && path in v.params
    ensures var w := v.Forget(c);
            && path in w.params && w.params[path].Valid() && w.params[path].clients == v.params[path].clients - {c}
            && w.params[path].providers == v.params[path].providers && w.params[path].name == v.params[path].name
            && forall d | d in w.params[path].clients :: w.Asks(d, path)
  {
    hide MarginOf;
    var w, p := v.Forget(c), v.params[path];
    UnsubscribedIsValid(p, c);
    forall d | d in p.clients
      ensures path in v.CoveredBy(v.petitions.Keys) && (d != c ==> w.Asks(d, path))
    {
      assert v.Asks(d, path);
      var m :| m in v.Covering(path) && d in v.petitions[m].clients;
      assert m in v.Covering(path) * v.petitions.Keys;
      if d != c {
        AsksBy(w, d, path, m);
      }
    }
    assert w.params[path] == p.Unsubscribe(c) || (w.params[path] == p && p.clients == {});
  }

  lemma DisconnectKeepsInv(v: View, c: Client)
    requires v.Inv()
    ensures v.Disconnect(c).Inv()
  {
    ForgetKeepsSlack(v, c);
    var u := v.Forget(c).Tidy();
    TidyRestores(v.Forget(c));
    var w := u.Disown(c);
    forall path | path in w.params
      ensures w.params[path].Valid() && w.params[path].providers <= w.clients
      ensures forall d | d in w.params[path].clients :: w.Asks(d, path)
    {
      assert u.params[path].Valid();
      forall d | d in w.params[path].clients
        ensures w.Asks(d, path)
      {
        assert u.Asks(d, path);
        var m :| m in u.Covering(path) && d in u.petitions[m].clients;
        assert m in w.Covering(path) && d in w.petitions[m].clients;
      }
    }
  }

  lemma AssignedIsValid(v: View, name: string, value: string)
    requires v.Inv() && v.Target(name).shadow.Reads(value)
    ensures v.Assigned(name, value).Sent().Valid() && Segments(v.Target(name).name) == Segments(name)
    ensures v.Assigned(name, value).Sent().name == v.Target(name).name
    ensures v.Assigned(name, value).Sent().clients == v.Target(name).clients
    ensures v.Assigned(name, value).Sent().providers == v.Target(name).providers
    ensures v.Target(name).providers <= v.clients && v.Target(name).clients <= v.clients
    ensures forall c | c in v.Target(name).clients :: v.Asks(c, Segments(name))
  {
    var path := Segments(name);
    if path in v.params {
      assert v.params[path].Valid();
    } else {
      forall c | c in v.Askers(path)
        ensures v.Asks(c, path)
      {
        var n :| n in v.Covering(path) && c in v.petitions[n].clients;
      }
    }
    SentIsValid(v.Assigned(name, value));
  }

  lemma AssignKeepsInv(v: View, c: Client, name: string, value: string)
    requires v.Inv() && c in v.clients && v.Target(name).shadow.Reads(value)
    ensures v.Assign(c, name, value).Inv()
  {
    hide MarginOf, View.Target, Param.Sent, Param.Valid;
    var path, w := Segments(name), v.Assign(c, name, value);
    AssignedIsValid(v, name, value);
    ValidForgetsProviders(v.Assigned(name, value).Sent(), v.Target(name).providers + {c});
    forall q, d | q in w.params && d in w.params[q].clients
      ensures w.Asks(d, q)
    {
      assert v.Asks(d, q);
      var m :| m in v.Covering(q) && d in v.petitions[m].clients;
      assert m in w.Covering(q) && d in w.petitions[m].clients;
    }
  }

  lemma ValidForgetsProviders(p: Param, providers: set<Client>)
    requires p.Valid()
    ensures p.(providers := providers).Valid()
  {}

  lemma StepKeepsInv(v: View, e: Event)
    requires v.Inv() && v.Sendable() && Legal(v, e)
    ensures Step(v, e).Inv() && Step(v, e).Sendable()
  {
    match e {
      case Accept(c, _) => ConnectKeepsInv(v, c);
      case Leave(c) => DisconnectKeepsInv(v, c);
      case Receive(c, command) =>
        match command {
          case Register(n) => RegisterKeepsInv(v, c, n);
          case Unregister(n) => UnregisterKeepsInv(v, c, n);
          case Assign(name, value) => AssignKeepsInv(v, c, name, value);
          case Get(_) =>
          case NoRetain(_, _) =>
          case Ignored =>
        }
    }
    InvIsSendable(Step(v, e));
  }
}
