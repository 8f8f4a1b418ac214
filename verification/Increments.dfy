/** The effects of Model.dfy one parameter or one petition at a time: what the loops
    of the server add up, in whatever order they run. */
module Increments {
  import opened Base
  import opened Topics
  import opened Filters
  import opened Model

  lemma OfferKeepsSendable(v: View, paths: set<Path>, c: Client)
    requires v.Sendable()
    ensures v.Offer(paths, c).Sendable()
  {
    forall path | path in v.params
      ensures v.Offer(paths, c).params[path].isSet ==>
                v.Offer(paths, c).params[path].shadow.Reads(v.Offer(paths, c).params[path].value)
    {
      assert v.params[path].isSet ==> v.params[path].shadow.Reads(v.params[path].value);
    }
  }

  lemma OfferIsSubscribeThenSend(v: View, path: Path, c: Client)
    requires v.Sendable() && path in v.params
    ensures var p := v.params[path].Subscribe(c);
            && (p.isSet ==> p.shadow.Reads(p.value))
            && v.Offer({path}, c) == v.(params := v.params[path := p][path := p.Sent()])
            && v.OfferOut({path}, c) == ToAll(p.Audience(), Push(p.name, p.value))
  {
    var p := v.params[path].Subscribe(c);
    assert v.Offer({path}, c).params == v.params[path := p][path := p.Sent()];
  }

  lemma OfferOneMore(v: View, done: set<Path>, path: Path, c: Client)
    requires v.Sendable() && path in v.params && path !in done
    ensures v.Offer(done, c).Sendable()
    ensures v.Offer(done, c).Offer({path}, c) == v.Offer(done + {path}, c)
    ensures v.Offer(done, c).OfferOut({path}, c) == v.OfferOut({path}, c)
    ensures v.OfferOut(done + {path}, c) == v.OfferOut(done, c) + v.OfferOut({path}, c)
    ensures v.Named() ==> v.OfferOut(done, c) !! v.OfferOut({path}, c)
  {
    OfferKeepsSendable(v, done, c);
    assert v.Offer(done, c).params[path] == v.params[path];
    assert v.Offer(done, c).Offer({path}, c).params == v.Offer(done + {path}, c).params;
  }

  lemma RegisterInSteps(v: View, c: Client, n: string)
    requires v.Sendable()
    ensures var w, told := v.Subscribed(c, n), v.AnnounceOut(n);
            && w.Sendable() && (v.Named() ==> w.Named())
            && w.Offer(w.Covered(n), c) == v.Register(c, n)
            && v.RegisterOut(c, n) == told + w.OfferOut(w.Covered(n), c)
            && told !! w.OfferOut(w.Covered(n), c)
  {
    var w := v.Subscribed(c, n);
    assert w.Covered(n) == v.Covered(n);
    assert w.OfferOut(w.Covered(n), c) == v.OfferOut(v.Covered(n), c);
    forall path | path in w.params
      ensures w.params[path].isSet ==> w.params[path].shadow.Reads(w.params[path].value)
    {
      assert v.params[path].isSet ==> v.params[path].shadow.Reads(v.params[path].value);
    }
  }

  lemma OfferNothing(v: View, c: Client)
    requires v.Sendable()
    ensures v.Offer({}, c) == v && v.OfferOut({}, c) == {}
  {
    assert v.Offer({}, c).params == v.params;
  }

  lemma UnsubscribeNothing(v: View, c: Client)
    ensures v.Unsubscribe({}, c) == v
  {
    assert v.Unsubscribe({}, c).params == v.params;
  }

  lemma UnsubscribeOneMore(v: View, done: set<Path>, paths: set<Path>, c: Client)
    ensures v.Unsubscribe(done, c).Unsubscribe(paths, c) == v.Unsubscribe(done + paths, c)
  {
    forall path | path in v.params
      ensures v.params[path].Unsubscribe(c).Unsubscribe(c) == v.params[path].Unsubscribe(c)
    {
      RemoveTwice(v.params[path].shadow, c);
    }
    assert v.Unsubscribe(done, c).Unsubscribe(paths, c).params == v.Unsubscribe(done + paths, c).params;
  }

  lemma RemoveTwice(s: Shadow, c: Client)
    ensures s.Remove(c).Remove(c) == s.Remove(c)
  {
    match s
    case Numeric(_, last) => assert last - {c} - {c} == last - {c};
    case Discrete(text) => assert text - {c} - {c} == text - {c};
  }

  /** Dropping petitions in two rounds is dropping them at once. */
  lemma DropTwice(v: View, some: set<string>, others: set<string>)
    requires some !! others && some + others <= v.petitions.Keys
    ensures v.Drop(some).Drop(others) == v.Drop(some + others)
    ensures v.Doomed(some + others) == v.Doomed(some) + v.Drop(some).Doomed(others)
  {
    var w := v.Drop(some);
    forall path | path in w.params
      ensures path in w.CoveredBy(others) <==> path in v.CoveredBy(others)
    {
      assert w.Covering(path) == v.Covering(path) - some;
      assert w.Covering(path) * others == v.Covering(path) * others;
    }
    forall path | path in v.params
      ensures path in v.CoveredBy(some + others) <==> path in v.CoveredBy(some) || path in v.CoveredBy(others)
    {
      assert v.Covering(path) * (some + others) == v.Covering(path) * some + v.Covering(path) * others;
    }
    assert v.Doomed(some + others) == v.Doomed(some) + w.Doomed(others);
    assert v.params - v.Doomed(some) - w.Doomed(others) == v.params - v.Doomed(some + others);
    assert v.petitions - some - others == v.petitions - (some + others);
  }

  lemma DropOneMore(v: View, done: set<string>, n: string)
    requires done <= v.petitions.Keys && n in v.petitions && n !in done
    ensures v.Drop(done).Drop({n}) == v.Drop(done + {n})
    ensures v.DropOut(done + {n}) == v.DropOut(done) + v.Drop(done).DropOut({n})
    ensures v.Named() ==> v.DropOut(done) !! v.Drop(done).DropOut({n})
  {
    hide Matches, Segments;
    var w := v.Drop(done);
    DropTwice(v, done, {n});
    VacancyIsKept(v, done, n);
    assert w.RetractOut(w.Doomed({n})) == v.RetractOut(w.Doomed({n}));
    assert v.RetractOut(v.Doomed(done + {n})) == v.RetractOut(v.Doomed(done)) + v.RetractOut(w.Doomed({n}));
  }

  /** Parameters dropped before do not change whether a petition is in use. */
  lemma VacancyIsKept(v: View, done: set<string>, n: string)
    requires n in v.petitions
    ensures v.Drop(done).AllVacant(v.Drop(done).Covered(n)) == v.AllVacant(v.Covered(n))
  {
    var w := v.Drop(done);
    assert forall path | path in v.Covered(n) && path !in w.params :: v.params[path].clients == {};
    assert forall path | path in w.Covered(n) :: path in v.Covered(n) && w.params[path] == v.params[path];
  }

  lemma VacantOneMore(v: View, did: set<Path>, path: Path)
    requires path in v.params && path !in did
    ensures v.Vacant(did + {path}) == if v.params[path].clients == {} then v.Vacant(did) + {path} else v.Vacant(did)
    ensures v.AllVacant(did + {path}) <==> v.AllVacant(did) && v.params[path].clients == {}
    ensures v.RetractOut(v.Vacant(did) + {path}) == v.RetractOut(v.Vacant(did)) + v.RetractOut({path})
    ensures v.Named() ==> v.RetractOut(v.Vacant(did)) !! v.RetractOut({path})
    ensures v.Remove(v.Vacant(did)).Remove({path}) == v.Remove(v.Vacant(did) + {path})
    ensures path in v.Remove(v.Vacant(did)).params && v.Remove(v.Vacant(did)).params[path] == v.params[path]
    ensures v.RetractOut({path}) == ToAll(v.clients, RetractParameter(v.params[path].name))
  {
    assert v.params - v.Vacant(did) - {path} == v.params - (v.Vacant(did) + {path});
  }

  lemma NothingVacant(v: View)
    ensures v.Vacant({}) == {} && v.AllVacant({}) && v.Remove({}) == v && v.RetractOut({}) == {}
  {
    assert v.params - {} == v.params;
  }

  lemma DropInSteps(v: View, n: string)
    requires n in v.petitions
    ensures var w, out := v.Remove(v.Vacant(v.Covered(n))), v.RetractOut(v.Vacant(v.Covered(n)));
            && v.Drop({n}) == w.(petitions := w.petitions - {n})
            && v.DropOut({n}) == (if v.AllVacant(v.Covered(n)) then out + ToAll(v.clients, RetractPetition(n)) else out)
            && out !! ToAll(v.clients, RetractPetition(n))
  {
    forall path | path in v.params
      ensures path in v.CoveredBy({n}) <==> path in v.Covered(n)
    {
      assert n in v.Covering(path) ==> n in v.Covering(path) * {n};
    }
    assert v.CoveredBy({n}) == v.Covered(n);
  }

  lemma DropNothing(v: View)
    ensures v.Drop({}) == v && v.DropOut({}) == {}
  {
    assert v.Doomed({}) == {};
    assert v.params - {} == v.params && v.petitions - {} == v.petitions;
  }

  lemma ForgetInSteps(v: View, done: set<string>, n: string, c: Client)
    requires n in v.petitions && n !in done
    ensures var w := v.ForgetIn(done, c);
            && n in w.petitions && w.petitions[n] == v.petitions[n]
            && w.Covered(n) == v.Covered(n)
            && w.(petitions := w.petitions[n := Petition(v.petitions[n].clients - {c}, v.petitions[n].told - {c})])
                 .Unsubscribe(w.Covered(n), c) == v.ForgetIn(done + {n}, c)
  {
    var w := v.ForgetIn(done, c);
    forall path | path in v.params
      ensures path in v.CoveredBy(done + {n}) <==> path in v.CoveredBy(done) || path in v.Covered(n)
    {
      assert n in v.Covering(path) ==> n in v.Covering(path) * (done + {n});
    }
    assert v.CoveredBy(done + {n}) == v.CoveredBy(done) + v.Covered(n);
    UnsubscribeOneMore(v, v.CoveredBy(done), v.Covered(n), c);
    assert w.petitions[n := Petition(v.petitions[n].clients - {c}, v.petitions[n].told - {c})]
        == v.ForgetIn(done + {n}, c).petitions;
  }

  lemma ForgetInNothing(v: View, c: Client)
    ensures v.ForgetIn({}, c) == v
  {
    assert v.CoveredBy({}) == {};
    UnsubscribeNothing(v, c);
    assert v.ForgetIn({}, c).petitions == v.petitions;
  }

  lemma UnprovideOneMore(v: View, done: set<Path>, path: Path, c: Client)
    requires path in v.params && path !in done
    ensures v.Unprovide(done, c).Unprovide({path}, c) == v.Unprovide(done + {path}, c)
    ensures v.Unprovide(done, c).params[path] == v.params[path]
    ensures v.Orphans(done + {path}, c) ==
            if v.params[path].providers - {c} == {} then v.Orphans(done, c) + {path} else v.Orphans(done, c)
  {
    assert v.Unprovide(done, c).Unprovide({path}, c).params == v.Unprovide(done + {path}, c).params;
  }

  lemma UnprovideNothing(v: View, c: Client)
    ensures v.Unprovide({}, c) == v && v.Orphans({}, c) == {}
  {
    assert v.Unprovide({}, c).params == v.params;
  }

  lemma RemoveOneMore(v: View, done: set<Path>, path: Path)
    ensures v.Remove(done).Remove({path}) == v.Remove(done + {path})
  {
    assert v.params - done - {path} == v.params - (done + {path});
  }

  lemma NewParamOneMore(name: string, cs: set<Client>, c: Client)
    ensures NewParam(name, cs).Subscribe(c) == NewParam(name, cs + {c})
  {
    var more := cs + {c};
    assert (map d | d in cs :: 0.0)[c := 0.0] == map d | d in more :: 0.0;
    assert (map d | d in cs :: "")[c := ""] == map d | d in more :: "";
    match MarginOf(name)
    case Some(margin) =>
      assert NewParam(name, cs).Subscribe(c).shadow.last == NewParam(name, more).shadow.last;
    case None =>
      assert NewParam(name, cs).Subscribe(c).shadow.text == NewParam(name, more).shadow.text;
  }

  lemma TellNothing(v: View, c: Client)
    ensures v.Tell({}, c) == v && v.TellOut({}, c) == {}
    ensures forall names :: v.Tell(names, c).clients == v.clients && (c, Hello) !in v.TellOut(names, c)
  {
    assert v.Tell({}, c).petitions == v.petitions;
  }

  lemma TellOneMore(v: View, done: set<string>, n: string, c: Client)
    requires n in v.petitions && n !in done
    ensures var w := v.Tell(done, c);
            && n in w.petitions && w.petitions[n] == v.petitions[n]
            && w.(petitions := w.petitions[n := v.petitions[n].(told := v.petitions[n].told + {c})])
               == v.Tell(done + {n}, c)
    ensures v.TellOut(done + {n}, c) == v.TellOut(done, c) + {(c, Announce(n))}
    ensures (c, Announce(n)) !in v.TellOut(done, c)
  {
    var w := v.Tell(done, c);
    assert w.petitions[n := v.petitions[n].(told := v.petitions[n].told + {c})] == v.Tell(done + {n}, c).petitions;
  }

  lemma AskersNothing(v: View, path: Path)
    ensures v.AskersIn({}, path) == {}
  {}

  lemma AskersDependOnPetitions(v: View, w: View, path: Path)
    requires v.petitions == w.petitions
    ensures v.Askers(path) == w.Askers(path)
  {}

  lemma AskersOneMore(v: View, done: set<string>, n: string, path: Path)
    requires n in v.petitions
    ensures v.AskersIn(done + {n}, path) ==
            if Matches(Segments(n), path)
            then v.AskersIn(done, path) + v.petitions[n].clients else v.AskersIn(done, path)
  {}

  lemma ReplyNothing(v: View, c: Client)
    ensures v.ReplyOut({}, c) == {}
  {}

  lemma ReplyOneMore(v: View, done: set<Path>, path: Path, c: Client)
    requires path in v.params && path !in done
    ensures v.ReplyOut(done + {path}, c) == v.ReplyOut(done, c)
              + {(c, Reply(v.params[path].name, v.params[path].value))}
    ensures v.Named() ==> (c, Reply(v.params[path].name, v.params[path].value)) !in v.ReplyOut(done, c)
  {}

  lemma RelayNothing(v: View, name: string, value: string)
    ensures v.RelayOutIn({}, name, value) == {}
  {}

  lemma RelayOneMore(v: View, done: set<string>, n: string, name: string, value: string)
    requires n in v.petitions && n !in done
    ensures var out := v.RelayOutIn(done, name, value);
            v.RelayOutIn(done + {n}, name, value) ==
            if Matches(Segments(n), Segments(name))
            then out + ToAll(v.petitions[n].clients, Relay(n, name, value)) else out
    ensures v.RelayOutIn(done, name, value) !! ToAll(v.petitions[n].clients, Relay(n, name, value))
  {}

  /** Assigning is finding or making the parameter, and then setting it. */
  lemma AssignInSteps(v: View, c: Client, name: string, value: string)
    requires v.Target(name).shadow.Reads(value)
    ensures var path, p := Segments(name), v.Target(name).(value := value, isSet := true);
            var found := v.(params := v.params[path := v.Target(name)]);
            && found.(params := found.params[path := p.Sent().(providers := p.Sent().providers + {c})])
               == v.Assign(c, name, value)
            && {} + ToAll(p.Audience(), Push(p.name, value)) == v.AssignOut(name, value)
  {
    hide View.Target, Param.Sent, Param.Audience, Shadow.Reads, Segments;
    var path, p := Segments(name), v.Target(name).(value := value, isSet := true);
    var found := v.(params := v.params[path := v.Target(name)]);
    assert found.params[path := p.Sent().(providers := p.Sent().providers + {c})] == v.Assign(c, name, value).params;
  }
}
