/** The server (serverlib.cpp, Server, on common.cpp, ParameterManager), updated in place.
    Every method is proved to do what Model.dfy says of the state as a value. */
module ServerState {
  import opened Base
  import opened Topics
  import opened Filters
  import opened Model
  import opened Parameters
  import opened Trie
  import opened Increments
  import opened Steps
  import Wire

  class Server {
    var clients: set<Client>
    var registers: map<string, Petition>
    var parameters: set<Parameter>
    const parentTopic: Topic
    const net: Network
    ghost var ByPath: map<Path, Parameter>
    ghost var State: View
    ghost var Numerics: set<NumericData>
    ghost var Discretes: set<DiscreteData>

    /** There is one parameter per split name. */
    ghost predicate Filed()
      reads this
    {
      && (forall p {:trigger p.splitName} | p in parameters :: p.splitName in ByPath && ByPath[p.splitName] == p)
      && (forall path | path in ByPath :: ByPath[path] in parameters && ByPath[path].splitName == path)
    }

    /** The filters of all parameters are known. */
    ghost predicate Owned()
      reads this
    {
      forall p | p in parameters ::
        && p.Valid()
        && (p.numeric != null ==> p.numeric in Numerics) && (p.discrete != null ==> p.discrete in Discretes)
    }

    /** The parameters are as State says, but for the one filed under changed. */
    ghost predicate Pictured(changed: Option<Path>)
      reads this, parameters, Numerics, Discretes
      requires Filed() && Owned() && State.params.Keys == ByPath.Keys
    {
      forall path {:trigger ByPath[path].View()} | path in ByPath && Some(path) != changed ::
        ByPath[path].View() == State.params[path]
    }

    ghost predicate IndexedBut(changed: Option<Path>)
      reads this, parameters, Numerics, Discretes
    {
      && Filed() && Owned()
      && State.clients == clients && State.petitions == registers && State.params.Keys == ByPath.Keys
      && Pictured(changed)
    }

    ghost predicate Indexed()
      reads this, parameters, Numerics, Discretes
    {
      IndexedBut(None)
    }

    /** The tree and the flat set hold the same parameters. */
    ghost predicate Valid()
      reads this, parentTopic, parentTopic.Repr, parameters, Numerics, Discretes
    {
      parentTopic.Holds(parameters) && Indexed()
    }

    constructor ()
      ensures Valid() && fresh(parentTopic.Repr) && fresh(net) && net.log == []
      ensures State == View({}, map[], map[])
    {
      clients, registers, parameters := {}, map[], {};
      ByPath, State, Numerics, Discretes := map[], View({}, map[], map[]), {}, {};
      var root := new Topic("");
      var far := new Network();
      parentTopic, net := root, far;
    }

    // ---- ParameterManager ----

    ghost predicate GrownBy(p: Parameter, ns: set<NumericData>, ds: set<DiscreteData>)
      reads this
    {
      && (forall f | f in Numerics :: f in ns || f == p.numeric)
      && (forall f | f in Discretes :: f in ds || f == p.discrete)
    }

    ghost function WithNumeric(fs: set<NumericData>, f: NumericData?): (all: set<NumericData>)
      ensures fs <= all && (f != null ==> f in all) && forall x | x in all :: x in fs || x == f
    {
      if f == null then fs else fs + {f}
    }

    ghost function WithDiscrete(fs: set<DiscreteData>, f: DiscreteData?): (all: set<DiscreteData>)
      ensures fs <= all && (f != null ==> f in all) && forall x | x in all :: x in fs || x == f
    {
      if f == null then fs else fs + {f}
    }

    method Enlist(p: Parameter)
      requires Indexed() && p.Valid() && p.splitName !in ByPath
      modifies this`parameters, this`ByPath, this`State, this`Numerics, this`Discretes
      ensures Indexed()
      ensures parameters == old(parameters) + {p} && ByPath == old(ByPath)[p.splitName := p]
      ensures State == old(State).(params := old(State).params[p.splitName := p.View()])
      ensures GrownBy(p, old(Numerics), old(Discretes))
    {
      hide Filed, Owned, Pictured, Parameter.View, Parameter.Valid, WithNumeric, WithDiscrete;
      Numerics, Discretes := WithNumeric(Numerics, p.numeric), WithDiscrete(Discretes, p.discrete);
      parameters, ByPath, State := parameters + {p}, ByPath[p.splitName := p],
          State.(params := State.params[p.splitName := p.View()]);
      Enlisted(p);
      EnlistedAsSeen(p);
    }

    twostate lemma Enlisted(p: Parameter)
      requires old(Filed()) && old(Owned()) && p.Valid() && p.splitName !in old(ByPath)
      requires parameters == old(parameters) + {p} && ByPath == old(ByPath)[p.splitName := p]
      requires old(Numerics) <= Numerics && (p.numeric != null ==> p.numeric in Numerics)
      requires old(Discretes) <= Discretes && (p.discrete != null ==> p.discrete in Discretes)
      ensures Filed() && Owned()
    {}

    twostate lemma EnlistedAsSeen(p: Parameter)
      requires old(Indexed()) && Filed() && Owned() && p.splitName !in old(ByPath)
      requires ByPath == old(ByPath)[p.splitName := p]
      requires State == old(State).(params := old(State).params[p.splitName := p.View()])
      requires forall q | q in old(parameters) :: q.View() == old(q.View())
      ensures State.params.Keys == ByPath.Keys && Pictured(None)
    {}

    method Strike(p: Parameter)
      requires Indexed() && p in parameters
      modifies this`parameters, this`ByPath, this`State
      ensures Indexed()
      ensures parameters == old(parameters) - {p} && ByPath == old(ByPath) - {p.splitName}
      ensures State == old(State).(params := old(State).params - {p.splitName})
    {
      hide Filed, Owned, Pictured, Parameter.View, Parameter.Valid;
      parameters, ByPath, State := parameters - {p}, ByPath - {p.splitName},
          State.(params := State.params - {p.splitName});
      Struck(p);
      StruckAsSeen(p);
    }

    twostate lemma Struck(p: Parameter)
      requires old(Filed()) && old(Owned()) && p in old(parameters)
      requires parameters == old(parameters) - {p} && ByPath == old(ByPath) - {p.splitName}
      requires Numerics == old(Numerics) && Discretes == old(Discretes)
      ensures Filed() && Owned()
    {}

    twostate lemma StruckAsSeen(p: Parameter)
      requires old(Indexed()) && Filed() && Owned()
      requires ByPath == old(ByPath) - {p.splitName}
      requires State == old(State).(params := old(State).params - {p.splitName})
      requires forall q | q in old(parameters) :: q.View() == old(q.View())
      ensures State.params.Keys == ByPath.Keys && Pictured(None)
    {}

    method AddParameter(p: Parameter)
      requires Valid() && p.Valid() && p.splitName !in ByPath
      modifies this`parameters, this`ByPath, this`State, this`Numerics, this`Discretes, parentTopic.Repr
      ensures Valid() && fresh(parentTopic.Repr - old(parentTopic.Repr))
      ensures parameters == old(parameters) + {p} && ByPath == old(ByPath)[p.splitName := p]
      ensures State == old(State).(params := old(State).params[p.splitName := old(p.View())])
      ensures p.View() == old(p.View()) && GrownBy(p, old(Numerics), old(Discretes))
    {
      hide Topic.Holds, IndexedBut;
      parentTopic.InsertAtRoot(p, parameters);
      Enlist(p);
    }

    method RemoveParameter(p: Parameter)
      requires Valid() && p in parameters
      modifies this`parameters, this`ByPath, this`State, parentTopic.Repr
      ensures Valid() && parentTopic.Repr <= old(parentTopic.Repr)
      ensures parameters == old(parameters) - {p} && ByPath == old(ByPath) - {p.splitName}
      ensures State == old(State).(params := old(State).params - {p.splitName})
    {
      hide Topic.Holds, IndexedBut;
      parentTopic.EraseAtRoot(p, parameters);
      Strike(p);
    }

    // ---- one parameter at a time ----

    /** Parameters do not share filters. */
    lemma Apart(p: Parameter)
      requires Indexed() && p in parameters
      ensures forall q | q in parameters && q != p ::
                (q.numeric == null || q.numeric != p.numeric) && (q.discrete == null || q.discrete != p.discrete)
    {}

    /** When only p is touched the others are still as State says. */
    twostate lemma Others(p: Parameter)
      requires old(Indexed()) && unchanged(this) && p in parameters
      requires forall q | q in parameters && q != p ::
                 && unchanged(q) && (q.numeric != null ==> unchanged(q.numeric))
                 && (q.discrete != null ==> unchanged(q.discrete))
      ensures IndexedBut(Some(p.splitName))
    {
      forall path | path in ByPath && path != p.splitName
        ensures ByPath[path].View() == old(ByPath[path].View())
      {
        assert ByPath[path] in parameters && ByPath[path] != p;
      }
    }

    ghost method Refile(p: Parameter)
      requires p in parameters && IndexedBut(Some(p.splitName))
      modifies this`State
      ensures Indexed()
      ensures State == old(State).(params := old(State).params[p.splitName := p.View()])
    {
      State := State.(params := State.params[p.splitName := p.View()]);
    }

    method Unsubscribe(p: Parameter, c: Client)
      requires Indexed() && p in parameters
      modifies this`State, p, p.numeric, p.discrete
      ensures Indexed() && State == old(State).Unsubscribe({p.splitName}, c)
    {
      Apart(p);
      p.Unregister(c);
      Others(p);
      Refile(p);
      assert State.params == old(State).Unsubscribe({p.splitName}, c).params;
    }

    method Subscribe(p: Parameter, c: Client)
      requires Indexed() && p in parameters
      modifies this`State, p, p.numeric, p.discrete
      ensures Indexed()
      ensures var joined := old(State).params[p.splitName].Subscribe(c);
              State == old(State).(params := old(State).params[p.splitName := joined])
    {
      Apart(p);
      p.AddRegister(c);
      Others(p);
      Refile(p);
    }

    method Offer(p: Parameter, c: Client)
      requires Indexed() && p in parameters && State.Sendable()
      modifies this`State, p, p.numeric, p.discrete, net
      ensures Indexed() && State == old(State).Offer({p.splitName}, c)
      ensures Wrote(old(net.log), net.log, old(State).OfferOut({p.splitName}, c))
    {
      Subscribe(p, c);
      Send(p);
      OfferIsSubscribeThenSend(old(State), p.splitName, c);
    }

    method Send(p: Parameter)
      requires Indexed() && p in parameters
      requires var view := State.params[p.splitName]; view.isSet ==> view.shadow.Reads(view.value)
      modifies this`State, p, p.numeric, p.discrete, net
      ensures Indexed()
      ensures State == old(State).(params := old(State).params[p.splitName := old(State).params[p.splitName].Sent()])
      ensures var view := old(State).params[p.splitName];
              Wrote(old(net.log), net.log, ToAll(view.Audience(), Push(view.name, view.value)))
    {
      Apart(p);
      var ok := p.Send(net);
      Others(p);
      Refile(p);
    }

    // ---- petitions ----

    twostate lemma TreeUntouched()
      requires old(Valid()) && parameters == old(parameters) && forall t | t in old(parentTopic.Repr) :: unchanged(t)
      ensures parentTopic.Holds(parameters)
    {
      hide Topic.Holds, IndexedBut;
    }

    lemma Reads(p: Parameter)
      requires Indexed() && p in parameters
      ensures p.splitName in State.params && State.params[p.splitName] == p.View()
      ensures (p.numeric != null ==> p.numeric in Numerics) && (p.discrete != null ==> p.discrete in Discretes)
    {
      assert ByPath[p.splitName].View() == State.params[p.splitName];
    }

    lemma IsState()
      requires Indexed()
      ensures State.clients == clients && State.petitions == registers
    {}

    method SetPetition(n: string, petition: Petition)
      requires Indexed()
      modifies this`registers, this`State
      ensures Indexed() && State == old(State).(petitions := old(State).petitions[n := petition])
    {
      registers := registers[n := petition];
      State := State.(petitions := registers);
    }

    ghost function Paths(ps: set<Parameter>): set<Path> { set p | p in ps :: p.splitName }

    lemma NoPaths()
      ensures Paths({}) == {}
    {}

    /** No two parameters of the set are filed under the same path. */
    ghost predicate Distinct(ps: set<Parameter>) {
      forall p, q | p in ps && q in ps && p.splitName == q.splitName :: p == q
    }

    lemma AreDistinct(ps: set<Parameter>)
      requires Indexed() && ps <= parameters
      ensures Distinct(ps) && Paths(ps) <= State.params.Keys
    {}

    lemma PathsOneMore(ps: set<Parameter>, p: Parameter)
      requires Distinct(ps + {p})
      ensures Paths(ps + {p}) == Paths(ps) + {p.splitName}
      ensures p !in ps ==> p.splitName !in Paths(ps)
    {}

    lemma PathsOfMatching(n: string, params: set<Parameter>)
      requires Indexed() && params == set p | p in parameters && Matches(Segments(n), p.splitName)
      ensures Paths(params) == State.Covered(n)
    {
      forall path | path in State.Covered(n)
        ensures path in Paths(params)
      {
        assert ByPath[path] in params;
      }
    }

    /** The parameters a petition covers. */
    method Matching(n: string, topic: Path) returns (params: set<Parameter>)
      requires Valid() && topic == Segments(n)
      ensures params <= parameters && Paths(params) == State.Covered(n)
      ensures Distinct(params) && forall p | p in params :: Matches(topic, p.splitName)
    {
      hide Topic.Holds, IndexedBut;
      params := parentTopic.GetAllMatchesAtRoot(topic, parameters);
      AreDistinct(params);
      PathsOfMatching(n, params);
    }

    /** The first half of AddRegisterPetition: the petition and its announcement. */
    method Subscribed(petition: string, cl: Client)
      requires Indexed()
      modifies this`registers, this`State, net
      ensures Indexed() && State == old(State).Subscribed(cl, petition)
      ensures Wrote(old(net.log), net.log, old(State).AnnounceOut(petition))
    {
      var it := if petition in registers then registers[petition] else Petition({}, {});
      net.WriteToAll(clients - it.told, Announce(petition));
      SetPetition(petition, Petition(it.clients + {cl}, it.told + clients));
    }

    method AddRegisterPetition(petition: string, cl: Client)
      requires Valid() && State.Inv() && State.Sendable() && Splits(petition)
      modifies this`registers, this`State, parameters, Numerics, Discretes, net
      ensures Valid() && State == old(State).Register(cl, petition)
      ensures Wrote(old(net.log), net.log, old(State).RegisterOut(cl, petition))
    {
      hide IndexedBut, Topic.Holds, Wrote, View.Inv, View.Offer, View.OfferOut, View.Register, View.RegisterOut,
           View.Subscribed, View.AnnounceOut, View.Covered, View.Sendable, View.Named, Paths, Distinct, Splits;
      IsState();
      InvIsNamed();
      RegisterInSteps(State, cl, petition);
      var _, topic := SplitTopic(petition);
      Subscribed(petition, cl);
      ghost var announced, v := net.log, State;
      TreeUntouched();
      var matched := Matching(petition, topic);
      OfferAll(matched, cl);
      TreeUntouched();
      WroteMore(old(net.log), announced, net.log,
                old(State).AnnounceOut(petition), v.OfferOut(v.Covered(petition), cl));
    }

    method OfferAll(matched: set<Parameter>, cl: Client)
      requires Indexed() && State.Sendable() && State.Named() && matched <= parameters
      modifies this`State, parameters, Numerics, Discretes, net
      ensures Indexed() && State == old(State).Offer(Paths(matched), cl)
      ensures Wrote(old(net.log), net.log, old(State).OfferOut(Paths(matched), cl))
    {
      hide IndexedBut, Wrote, Paths, View.Offer, View.OfferOut, View.Named, View.Sendable;
      ghost var v, did, start := State, {}, net.log;
      var todo := matched;
      OfferNothing(v, cl);
      WroteNothing(net.log);
      NoPaths();
      while todo != {}
        invariant did + todo == matched && did !! todo
        invariant Indexed() && State == v.Offer(Paths(did), cl)
        invariant Wrote(start, net.log, v.OfferOut(Paths(did), cl))
      {
        var p :| p in todo;
        Reads(p);
        OfferNext(p, cl, v, did, start);
        todo, did := todo - {p}, did + {p};
      }
      assert did == matched;
    }

    method OfferNext(p: Parameter, cl: Client, ghost v: View, ghost did: set<Parameter>, ghost start: seq<Entry>)
      requires Indexed() && v.Sendable() && v.Named() && did <= parameters && p in parameters && p !in did
      requires State == v.Offer(Paths(did), cl) && Wrote(start, net.log, v.OfferOut(Paths(did), cl))
      modifies this`State, p, p.numeric, p.discrete, net
      ensures Indexed() && State == v.Offer(Paths(did + {p}), cl)
      ensures Wrote(start, net.log, v.OfferOut(Paths(did + {p}), cl))
    {
      ghost var before := net.log;
      AreDistinct(did + {p});
      PathsOneMore(did, p);
      OfferOneMore(v, Paths(did), p.splitName, cl);
      Offer(p, cl);
      WroteMore(start, before, net.log, v.OfferOut(Paths(did), cl), v.OfferOut({p.splitName}, cl));
    }

    // ---- petitions nobody holds ----

    method ErasePetition(n: string)
      requires Indexed()
      modifies this`registers, this`State
      ensures Indexed() && State == old(State).(petitions := old(State).petitions - {n})
    {
      registers := registers - {n};
      State := State.(petitions := registers);
    }

    /** The body of the inner loop of UpdateEmptyRegisters. */
    method DropNextParameter(p: Parameter, told: set<Client>, none: bool, ghost v: View, ghost did: set<Parameter>,
                             ghost start: seq<Entry>)
        returns (none': bool)
      requires Valid() && v.Named() && v.clients == told && p in parameters && p !in did
      requires Distinct(did + {p}) && p.splitName in v.params && none == v.AllVacant(Paths(did))
      requires State == v.Remove(v.Vacant(Paths(did))) && Wrote(start, net.log, v.RetractOut(v.Vacant(Paths(did))))
      modifies this`parameters, this`ByPath, this`State, parentTopic.Repr, net
      ensures Valid() && parentTopic.Repr <= old(parentTopic.Repr)
      ensures parameters == old(parameters) || parameters == old(parameters) - {p}
      ensures State == v.Remove(v.Vacant(Paths(did + {p})))
      ensures Wrote(start, net.log, v.RetractOut(v.Vacant(Paths(did + {p}))))
      ensures none' == v.AllVacant(Paths(did + {p}))
    {
      hide Topic.Holds, IndexedBut, Wrote, View.RetractOut, View.Remove, View.Vacant, View.AllVacant, View.Named;
      PathsOneMore(did, p);
      VacantOneMore(v, Paths(did), p.splitName);
      Reads(p);
      none' := none;
      if p.clients != {} {
        none' := false;
      } else {
        ghost var before := net.log;
        Retract(p, told);
        WroteMore(start, before, net.log, v.RetractOut(v.Vacant(Paths(did))), v.RetractOut({p.splitName}));
      }
    }

    method Retract(p: Parameter, told: set<Client>)
      requires Valid() && p in parameters
      modifies this`parameters, this`ByPath, this`State, parentTopic.Repr, net
      ensures Valid() && parentTopic.Repr <= old(parentTopic.Repr)
      ensures parameters == old(parameters) - {p} && State == old(State).Remove({p.splitName})
      ensures Wrote(old(net.log), net.log, ToAll(told, RetractParameter(p.name)))
    {
      hide Topic.Holds, IndexedBut, Wrote;
      RemoveParameter(p);
      label removed:
      net.WriteToAll(told, RetractParameter(p.name));
      TreeUntouched@removed();
    }

    /** The parameters a dropped petition covers. */
    method DropCovered(matched: set<Parameter>, told: set<Client>) returns (none: bool)
      requires Valid() && State.Named() && told == State.clients && matched <= parameters
      modifies this`parameters, this`ByPath, this`State, parentTopic.Repr, net
      ensures Valid() && parentTopic.Repr <= old(parentTopic.Repr) && parameters <= old(parameters)
      ensures State == old(State).Remove(old(State).Vacant(Paths(matched)))
      ensures Wrote(old(net.log), net.log, old(State).RetractOut(old(State).Vacant(Paths(matched))))
      ensures none == old(State).AllVacant(Paths(matched))
    {
      hide IndexedBut, Topic.Holds, Wrote, Distinct, Paths, View.Remove, View.Vacant, View.RetractOut, View.AllVacant,
           View.Named;
      AreDistinct(matched);
      NothingVacant(State);
      NoPaths();
      WroteNothing(net.log);
      ghost var v, did, start := State, {}, net.log;
      var todo := matched;
      none := true;
      while todo != {}
        invariant did + todo == matched && did !! todo
        invariant Valid() && todo <= parameters <= old(parameters) && parentTopic.Repr <= old(parentTopic.Repr)
        invariant State == v.Remove(v.Vacant(Paths(did))) && Wrote(start, net.log, v.RetractOut(v.Vacant(Paths(did))))
        invariant none == v.AllVacant(Paths(did))
      {
        var p :| p in todo;
        IsAmong(matched, did + {p}, p);
        none := DropNextParameter(p, told, none, v, did, start);
        todo, did := todo - {p}, did + {p};
      }
      assert did == matched;
    }

    lemma IsAmong(all: set<Parameter>, some: set<Parameter>, p: Parameter)
      requires Distinct(all) && p in some && some <= all
      ensures Distinct(some) && p.splitName in Paths(all)
    {}

    method DropPetition(n: string)
      requires Valid() && State.Named() && n in registers && registers[n].told == clients
      modifies this`registers, this`parameters, this`ByPath, this`State, parentTopic.Repr, net
      ensures Valid() && parentTopic.Repr <= old(parentTopic.Repr) && parameters <= old(parameters)
      ensures State == old(State).Drop({n})
      ensures Wrote(old(net.log), net.log, old(State).DropOut({n}))
    {
      hide IndexedBut, Topic.Holds, Wrote, Paths, View.Remove, View.Vacant, View.RetractOut, View.AllVacant,
           View.Named, View.Covered, View.Drop, View.DropOut;
      IsState();
      DropInSteps(State, n);
      ghost var v := State;
      var told := registers[n].told;
      var matched := Matching(n, Segments(n));
      var none := DropCovered(matched, told);
      label dropped:
      ghost var before := net.log;
      if none {
        net.WriteToAll(told, RetractPetition(n));
        WroteMore(old(net.log), before, net.log, v.RetractOut(v.Vacant(v.Covered(n))), ToAll(told, RetractPetition(n)));
      }
      ErasePetition(n);
      TreeUntouched@dropped();
    }

    method UpdateEmptyRegisters()
      requires Valid() && State.Named() && State.TellsAll()
      modifies this`registers, this`parameters, this`ByPath, this`State, parentTopic.Repr, net
      ensures Valid() && parentTopic.Repr <= old(parentTopic.Repr) && parameters <= old(parameters)
      ensures State == old(State).Tidy()
      ensures Wrote(old(net.log), net.log, old(State).DropOut(old(State).Empty()))
    {
      hide IndexedBut, Topic.Holds, Wrote, View.Named, View.Drop, View.DropOut;
      IsState();
      var bad := EmptyRegisters();
      DropNothing(State);
      WroteNothing(net.log);
      ghost var v, done, start := State, {}, net.log;
      var todo := bad;
      while todo != {}
        invariant done + todo == bad && done !! todo
        invariant Valid() && parentTopic.Repr <= old(parentTopic.Repr) && parameters <= old(parameters)
        invariant State == v.Drop(done) && Wrote(start, net.log, v.DropOut(done))
      {
        var r :| r in todo;
        DropNextPetition(r, v, done, start);
        todo, done := todo - {r}, done + {r};
      }
      assert done == bad;
    }

    method EmptyRegisters() returns (bad: set<string>)
      requires Indexed()
      ensures bad == State.Empty()
    {
      IsState();
      bad := {};
      var todo := registers.Keys;
      while todo != {}
        invariant todo <= registers.Keys
        invariant bad == set n | n in registers && n !in todo && registers[n].clients == {}
      {
        var n :| n in todo;
        todo := todo - {n};
        if registers[n].clients == {} {
          bad := bad + {n};
        }
      }
    }

    /** The body of the outer loop of UpdateEmptyRegisters. */
    method DropNextPetition(r: string, ghost v: View, ghost done: set<string>, ghost start: seq<Entry>)
      requires Valid() && v.Named() && v.TellsAll() && done <= v.petitions.Keys && r in v.petitions && r !in done
      requires State == v.Drop(done) && Wrote(start, net.log, v.DropOut(done))
      modifies this`registers, this`parameters, this`ByPath, this`State, parentTopic.Repr, net
      ensures Valid() && parentTopic.Repr <= old(parentTopic.Repr) && parameters <= old(parameters)
      ensures State == v.Drop(done + {r}) && Wrote(start, net.log, v.DropOut(done + {r}))
    {
      hide IndexedBut, Topic.Holds, Wrote, View.DropOut;
      IsState();
      DropOneMore(v, done, r);
      ghost var before := net.log;
      if r in registers {
        DropPetition(r);
      }
      WroteMore(start, before, net.log, v.DropOut(done), v.Drop(done).DropOut({r}));
    }

    method UnsubscribeAll(matched: set<Parameter>, c: Client)
      requires Indexed() && matched <= parameters
      modifies this`State, parameters, Numerics, Discretes
      ensures Indexed() && State == old(State).Unsubscribe(Paths(matched), c)
    {
      hide IndexedBut, Paths, View.Unsubscribe;
      UnsubscribeNothing(State, c);
      NoPaths();
      AreDistinct(matched);
      ghost var v, did := State, {};
      var todo := matched;
      while todo != {}
        invariant did + todo == matched && did !! todo
        invariant Indexed() && State == v.Unsubscribe(Paths(did), c)
      {
        var p :| p in todo;
        Reads(p);
        IsAmong(matched, did + {p}, p);
        PathsOneMore(did, p);
        UnsubscribeOneMore(v, Paths(did), {p.splitName}, c);
        Unsubscribe(p, c);
        todo, did := todo - {p}, did + {p};
      }
      assert did == matched;
    }

    method RemoveRegisterPetition(petition: string, cl: Client)
      requires Valid() && State.Inv() && Splits(petition)
      modifies this`registers, this`parameters, this`ByPath, this`State, parentTopic.Repr, parameters, Numerics,
               Discretes, net
      ensures Valid() && parentTopic.Repr <= old(parentTopic.Repr) && parameters <= old(parameters)
      ensures State == old(State).Unregister(cl, petition)
      ensures var w := old(State).Withdraw(cl, petition); Wrote(old(net.log), net.log, w.DropOut(w.Empty()))
    {
      hide IndexedBut, Topic.Holds, Wrote, View.DropOut, View.Tidy, View.Empty;
      WithdrawKeepsSlack(State, cl, petition);
      IsState();
      if petition in registers {
        var _, topic := SplitTopic(petition);
        SetPetition(petition, registers[petition].(clients := registers[petition].clients - {cl}));
        TreeUntouched();
        var matched := Matching(petition, topic);
        UnsubscribeAll(matched, cl);
        TreeUntouched();
      }
      assert State == old(State).Withdraw(cl, petition);
      UpdateEmptyRegisters();
    }

    // ---- clients come and go ----

    method SetClients(cs: set<Client>)
      requires Indexed()
      modifies this`clients, this`State
      ensures Indexed() && State == old(State).(clients := cs)
    {
      clients := cs;
      State := State.(clients := cs);
    }

    /** The loop of AddClient. */
    method TellAll(c: Client)
      requires Indexed()
      modifies this`registers, this`State, net
      ensures Indexed() && State == old(State).Tell(old(State).petitions.Keys, c)
      ensures Wrote(old(net.log), net.log, old(State).TellOut(old(State).petitions.Keys, c))
    {
      hide IndexedBut, Wrote, View.Tell, View.TellOut;
      IsState();
      TellNothing(State, c);
      WroteNothing(net.log);
      ghost var v, done, start := State, {}, net.log;
      var todo := registers.Keys;
      while todo != {}
        invariant done + todo == v.petitions.Keys && done !! todo
        invariant Indexed() && State == v.Tell(done, c)
        invariant Wrote(start, net.log, v.TellOut(done, c))
      {
        var n :| n in todo;
        TellNext(n, c, v, done, start);
        todo, done := todo - {n}, done + {n};
      }
      assert done == v.petitions.Keys;
    }

    method TellNext(n: string, c: Client, ghost v: View, ghost done: set<string>, ghost start: seq<Entry>)
      requires Indexed() && n in v.petitions && n !in done && State == v.Tell(done, c)
      requires Wrote(start, net.log, v.TellOut(done, c))
      modifies this`registers, this`State, net
      ensures Indexed() && State == v.Tell(done + {n}, c) && Wrote(start, net.log, v.TellOut(done + {n}, c))
    {
      hide IndexedBut, Wrote, View.Tell, View.TellOut;
      ghost var before := net.log;
      IsState();
      TellOneMore(v, done, n, c);
      net.WriteLine(c, Announce(n));
      SetPetition(n, registers[n].(told := registers[n].told + {c}));
      WroteMore(start, before, net.log, v.TellOut(done, c), {(c, Announce(n))});
    }

    method AddClient(c: Client, connected: bool)
      requires Valid()
      modifies this`clients, this`registers, this`State, net
      ensures Valid() && State == old(State).Connect(c)
      ensures Wrote(old(net.log), net.log, old(State).ConnectOut(c, connected))
    {
      hide IndexedBut, Topic.Holds, Wrote, View.Tell, View.TellOut;
      TellNothing(State, c);
      IsState();
      WroteNothing(net.log);
      if !connected {
        net.WriteLine(c, Hello);  // start()
      }
      ghost var before := net.log;
      TellAll(c);
      SetClients(clients + {c});
      WroteMore(old(net.log), before, net.log,
                if connected then {} else {(c, Hello)}, old(State).TellOut(old(State).petitions.Keys, c));
      TreeUntouched();
    }

    /** The body of the loop of RemoveClient. */
    method ForgetNext(n: string, c: Client, ghost v: View, ghost done: set<string>)
      requires Valid() && n in v.petitions && n !in done && State == v.ForgetIn(done, c)
      modifies this`registers, this`State, parameters, Numerics, Discretes
      ensures Valid() && State == v.ForgetIn(done + {n}, c)
    {
      hide IndexedBut, Topic.Holds, View.ForgetIn, View.Unsubscribe;
      IsState();
      ForgetInSteps(v, done, n, c);
      SetPetition(n, Petition(registers[n].clients - {c}, registers[n].told - {c}));
      TreeUntouched();
      var matched := Matching(n, Segments(n));
      assert State.Covered(n) == old(State).Covered(n);
      UnsubscribeAll(matched, c);
      TreeUntouched();
    }

    /** The loop of RemoveClient. */
    method ForgetEverywhere(c: Client)
      requires Valid()
      modifies this`registers, this`State, parameters, Numerics, Discretes
      ensures Valid() && State == old(State).ForgetIn(old(State).petitions.Keys, c)
    {
      hide IndexedBut, Topic.Holds, View.ForgetIn;
      IsState();
      ForgetInNothing(State, c);
      ghost var v, done := State, {};
      var todo := registers.Keys;
      while todo != {}
        invariant done + todo == v.petitions.Keys && done !! todo
        invariant Valid() && State == v.ForgetIn(done, c)
      {
        var n :| n in todo;
        ForgetNext(n, c, v, done);
        todo, done := todo - {n}, done + {n};
      }
      assert done == v.petitions.Keys;
    }

    method Unprovide(p: Parameter, c: Client)
      requires Indexed() && p in parameters
      modifies this`State, p
      ensures Indexed() && State == old(State).Unprovide({p.splitName}, c) && p.providers == old(p.providers) - {c}
    {
      Apart(p);
      Reads(p);
      p.providers := p.providers - {c};
      Others(p);
      Refile(p);
      assert State.params == old(State).Unprovide({p.splitName}, c).params;
    }

    /** The loop of RemoveClient that finds the parameters left without a provider. */
    method FindOrphans(c: Client) returns (orphans: set<Parameter>)
      requires Indexed()
      modifies this`State, parameters
      ensures Indexed() && orphans <= parameters
      ensures State == old(State).Unprovide(old(State).params.Keys, c)
      ensures Paths(orphans) == old(State).Orphans(old(State).params.Keys, c)
    {
      hide IndexedBut, Paths, View.Unprovide, View.Orphans;
      UnprovideNothing(State, c);
      NoPaths();
      AreDistinct(parameters);
      PathsOfAll();
      ghost var v, did := State, {};
      var todo := parameters;
      orphans := {};
      while todo != {}
        invariant did + todo == parameters && did !! todo && orphans <= did
        invariant Indexed() && State == v.Unprovide(Paths(did), c) && Paths(orphans) == v.Orphans(Paths(did), c)
      {
        var p :| p in todo;
        orphans := FindNext(p, c, orphans, v, did);
        todo, did := todo - {p}, did + {p};
      }
      assert did == parameters;
    }

    method FindNext(p: Parameter, c: Client, orphans: set<Parameter>, ghost v: View, ghost did: set<Parameter>)
        returns (orphans': set<Parameter>)
      requires Indexed() && p in parameters && p !in did && did <= parameters && orphans <= did
      requires State == v.Unprovide(Paths(did), c) && Paths(orphans) == v.Orphans(Paths(did), c)
      modifies this`State, p
      ensures Indexed() && orphans <= orphans' <= orphans + {p}
      ensures State == v.Unprovide(Paths(did + {p}), c) && Paths(orphans') == v.Orphans(Paths(did + {p}), c)
    {
      hide IndexedBut, Paths;
      AreDistinct(did + {p});
      Reads(p);
      PathsOneMore(did, p);
      PathsOneMore(orphans, p);
      UnprovideOneMore(v, Paths(did), p.splitName, c);
      Unprovide(p, c);
      orphans' := if p.providers == {} then orphans + {p} else orphans;
    }

    lemma PathsOfAll()
      requires Indexed()
      ensures Paths(parameters) == State.params.Keys
    {
      forall path | path in State.params
        ensures path in Paths(parameters)
      {
        assert ByPath[path] in parameters;
      }
    }

    method RemoveAll(orphans: set<Parameter>)
      requires Valid() && orphans <= parameters
      modifies this`parameters, this`ByPath, this`State, parentTopic.Repr
      ensures Valid() && parentTopic.Repr <= old(parentTopic.Repr) && parameters <= old(parameters)
      ensures State == old(State).Remove(Paths(orphans))
    {
      hide IndexedBut, Topic.Holds, Paths, View.Remove;
      NothingVacant(State);
      NoPaths();
      AreDistinct(orphans);
      ghost var v, did := State, {};
      var todo := orphans;
      while todo != {}
        invariant did + todo == orphans && did !! todo
        invariant Valid() && parentTopic.Repr <= old(parentTopic.Repr) && todo <= parameters <= old(parameters)
        invariant State == v.Remove(Paths(did))
      {
        var p :| p in todo;
        IsAmong(orphans, did + {p}, p);
        PathsOneMore(did, p);
        RemoveOneMore(v, Paths(did), p.splitName);
        RemoveIs(p.splitName);
        RemoveParameter(p);
        todo, did := todo - {p}, did + {p};
      }
      assert did == orphans;
    }

    lemma RemoveIs(path: Path)
      ensures State.Remove({path}) == State.(params := State.params - {path})
    {}

    method RemoveClient(c: Client)
      requires Valid() && State.Inv()
      modifies this`clients, this`registers, this`parameters, this`ByPath, this`State, parentTopic.Repr,
               parameters, Numerics, Discretes, net
      ensures Valid() && parentTopic.Repr <= old(parentTopic.Repr) && parameters <= old(parameters)
      ensures State == old(State).Disconnect(c)
      ensures Wrote(old(net.log), net.log, DisconnectOut(old(State), c))
    {
      hide IndexedBut, Topic.Holds, Wrote, View.ForgetIn, View.Tidy, View.DropOut, View.Empty, View.Unprovide,
           View.Orphans, View.Remove;
      ForgetKeepsSlack(State, c);
      IsState();
      SetClients(clients - {c});
      TreeUntouched();
      ForgetEverywhere(c);
      assert State == old(State).Forget(c);
      UpdateEmptyRegisters();
      label tidy:
      var orphans := FindOrphans(c);
      TreeUntouched@tidy();
      RemoveAll(orphans);
    }

    // ---- values ----

    /** The inner loop of UpdatePetitions. */
    method SubscribeAll(p: Parameter, cs: set<Client>, ghost had: set<Client>)
      requires Indexed() && p in parameters && State.params[p.splitName] == NewParam(p.name, had)
      modifies this`State, p, p.numeric, p.discrete
      ensures Indexed()
      ensures State == old(State).(params := old(State).params[p.splitName := NewParam(p.name, had + cs)])
    {
      hide IndexedBut, NewParam;
      Reads(p);
      ghost var v, done := State, {};
      var todo := cs;
      assert had + {} == had;
      while todo != {}
        invariant done + todo == cs && done !! todo
        invariant Indexed() && State == v.(params := v.params[p.splitName := NewParam(p.name, had + done)])
      {
        var c :| c in todo;
        NewParamOneMore(p.name, had + done, c);
        assert had + done + {c} == had + (done + {c});
        Subscribe(p, c);
        todo, done := todo - {c}, done + {c};
      }
      assert done == cs;
    }

    method UpdatePetitions(p: Parameter)
      requires Valid() && p in parameters && State.params[p.splitName] == NewParam(p.name, {})
      modifies this`State, p, p.numeric, p.discrete, net
      ensures Valid()
      ensures var known := NewParam(p.name, old(State).Askers(p.splitName));
              State == old(State).(params := old(State).params[p.splitName := known])
      ensures Wrote(old(net.log), net.log, {})
    {
      hide IndexedBut, Topic.Holds, NewParam, View.Askers, Wrote;
      AskAll(p);
      label asked:
      NewParamIsUnset(p.name, old(State).Askers(p.splitName));
      Send(p);
      TreeUntouched@asked();
    }

    /** The outer loop of UpdatePetitions. */
    method AskAll(p: Parameter)
      requires Valid() && p in parameters && State.params[p.splitName] == NewParam(p.name, {})
      modifies this`State, p, p.numeric, p.discrete
      ensures Valid()
      ensures var known := NewParam(p.name, old(State).Askers(p.splitName));
              State == old(State).(params := old(State).params[p.splitName := known])
    {
      hide IndexedBut, Topic.Holds, NewParam, View.AskersIn;
      IsState();
      Reads(p);
      ghost var v, done, path := State, {}, p.splitName;
      AskersNothing(v, path);
      assert v.params == v.params[path := v.params[path]];
      var todo := registers.Keys;
      while todo != {}
        invariant done + todo == v.petitions.Keys && done !! todo
        invariant Valid() && State == v.(params := v.params[path := NewParam(p.name, v.AskersIn(done, path))])
      {
        var n :| n in todo;
        UpdateNext(n, p, v, done);
        todo, done := todo - {n}, done + {n};
      }
      assert done == v.petitions.Keys;
    }

    /** The body of the outer loop of UpdatePetitions. */
    method UpdateNext(n: string, p: Parameter, ghost v: View, ghost done: set<string>)
      requires Valid() && p in parameters && n in v.petitions && p.splitName in v.params
      requires State == v.(params := v.params[p.splitName := NewParam(p.name, v.AskersIn(done, p.splitName))])
      modifies this`State, p, p.numeric, p.discrete
      ensures Valid()
      ensures State == v.(params := v.params[p.splitName := NewParam(p.name, v.AskersIn(done + {n}, p.splitName))])
    {
      hide IndexedBut, Topic.Holds, NewParam, View.AskersIn;
      IsState();
      AskersOneMore(v, done, n, p.splitName);
      var params := Matching(n, Segments(n));
      IsMatched(params, n, p);
      if p in params {
        SubscribeAll(p, registers[n].clients, v.AskersIn(done, p.splitName));
        TreeUntouched();
      }
    }

    lemma IsMatched(params: set<Parameter>, n: string, p: Parameter)
      requires Indexed() && p in parameters && params <= parameters && Paths(params) == State.Covered(n)
      ensures p in params <==> Matches(Segments(n), p.splitName)
    {
      Reads(p);
      assert p.splitName in State.Covered(n) <==> Matches(Segments(n), p.splitName);
    }

    lemma NewParamIsUnset(name: string, cs: set<Client>)
      ensures !NewParam(name, cs).isSet && ToAll({}, Push(name, "")) == {}
      ensures NewParam(name, cs).name == name && NewParam(name, cs).value == ""
    {}

    method GetParameter(name: string) returns (p: Parameter)
      requires Valid() && Splits(name)
      modifies this`parameters, this`ByPath, this`State, this`Numerics, this`Discretes, parentTopic.Repr,
               parameters, Numerics, Discretes, net
      ensures Valid() && fresh(parentTopic.Repr - old(parentTopic.Repr)) && p in parameters
      ensures p.splitName == Segments(name)
      ensures State == old(State).(params := old(State).params[Segments(name) := old(State).Target(name)])
      ensures p in old(parameters) || fresh(p)
      ensures p.numeric != null ==> p.numeric in old(Numerics) || fresh(p.numeric)
      ensures p.discrete != null ==> p.discrete in old(Discretes) || fresh(p.discrete)
      ensures fresh(parameters - old(parameters))
      ensures fresh(Numerics - old(Numerics)) && fresh(Discretes - old(Discretes))
      ensures Wrote(old(net.log), net.log, {})
    {
      hide IndexedBut, Topic.Holds, NewParam, View.AskersIn;
      var _, topic := SplitTopic(name);
      var found := parentTopic.GetMatchAtRoot(topic, parameters);
      if found != null {
        p := found;
        Reads(p);
        WroteNothing(net.log);
        assert State.params == State.params[topic := State.params[topic]];
      } else {
        IsAbsent(topic);
        p := NewParameter(name);
      }
    }

    /** The branch of GetParameter that makes one. */
    method NewParameter(name: string) returns (p: Parameter)
      requires Valid() && Splits(name) && Segments(name) !in State.params
      modifies this`parameters, this`ByPath, this`State, this`Numerics, this`Discretes, parentTopic.Repr, net
      ensures Valid() && fresh(parentTopic.Repr - old(parentTopic.Repr)) && p in parameters
      ensures fresh(p) && p.splitName == Segments(name)
      ensures State == old(State).(params := old(State).params[Segments(name) := old(State).Target(name)])
      ensures (p.numeric != null ==> fresh(p.numeric)) && (p.discrete != null ==> fresh(p.discrete))
      ensures fresh(parameters - old(parameters))
      ensures fresh(Numerics - old(Numerics)) && fresh(Discretes - old(Discretes))
      ensures Wrote(old(net.log), net.log, {})
    {
      hide IndexedBut, Topic.Holds, NewParam, View.AskersIn;
      p := Create(name);
      AskersDependOnPetitions(State, old(State), p.splitName);
      UpdatePetitions(p);
    }

    method Create(name: string) returns (p: Parameter)
      requires Valid() && Splits(name) && Segments(name) !in State.params
      modifies this`parameters, this`ByPath, this`State, this`Numerics, this`Discretes, parentTopic.Repr
      ensures Valid() && fresh(parentTopic.Repr - old(parentTopic.Repr)) && p in parameters
      ensures fresh(p) && p.splitName == Segments(name) && p.name == name
      ensures State == old(State).(params := old(State).params[Segments(name) := NewParam(name, {})])
      ensures (p.numeric != null ==> fresh(p.numeric)) && (p.discrete != null ==> fresh(p.discrete))
      ensures fresh(parameters - old(parameters))
      ensures fresh(Numerics - old(Numerics)) && fresh(Discretes - old(Discretes))
    {
      hide IndexedBut, Topic.Holds, NewParam;
      p := new Parameter(name);
      AreFiled();
      AddParameter(p);
    }

    lemma AreFiled()
      requires Indexed()
      ensures State.params.Keys == ByPath.Keys
    {}

    lemma IsAbsent(path: Path)
      requires Indexed() && forall p | p in parameters :: p.splitName != path
      ensures path !in ByPath && path !in State.params
    {}

    method SetValue(p: Parameter, value: string) returns (ok: bool)
      requires Indexed() && p in parameters
      modifies this`State, p, p.numeric, p.discrete, net
      ensures ok == old(State.params[p.splitName].shadow.Reads(value))
      ensures ok ==> Indexed()
      ensures var view := old(State).params[p.splitName].(value := value, isSet := true);
              ok ==> && State == old(State).(params := old(State).params[p.splitName := view.Sent()])
                     && Wrote(old(net.log), net.log, ToAll(view.Audience(), Push(view.name, value)))
    {
      Apart(p);
      Reads(p);
      ok := p.SetValue(value, net);
      if ok {
        Others(p);
        Refile(p);
      }
    }

    method Provide(p: Parameter, c: Client)
      requires Indexed() && p in parameters
      modifies this`State, p
      ensures Indexed()
      ensures var view := old(State).params[p.splitName];
              State == old(State).(params := old(State).params[p.splitName := view.(providers := view.providers + {c})])
    {
      Apart(p);
      Reads(p);
      p.providers := p.providers + {c};
      Others(p);
      Refile(p);
    }

    method SetAndProvide(p: Parameter, c: Client, value: string) returns (alive: bool)
      requires Indexed() && p in parameters
      modifies this`State, p, p.numeric, p.discrete, net
      ensures alive == old(State.params[p.splitName].shadow.Reads(value))
      ensures alive ==> Indexed()
      ensures var view := old(State).params[p.splitName].(value := value, isSet := true);
              alive ==> && State == old(State).(params := old(State).params[p.splitName :=
                                      view.Sent().(providers := view.Sent().providers + {c})])
                        && Wrote(old(net.log), net.log, ToAll(view.Audience(), Push(view.name, value)))
    {
      hide IndexedBut, Wrote, Shadow.Reads, Param.Sent, Param.Audience;
      Reads(p);
      alive := SetValue(p, value);
      if alive {
        Provide(p, c);
      }
    }

    /** The value branch of ParseLine; false if an exception escapes. */
    method AssignValue(c: Client, name: string, value: string) returns (alive: bool)
      requires Valid()
      modifies this`parameters, this`ByPath, this`State, this`Numerics, this`Discretes, parentTopic.Repr,
               parameters, Numerics, Discretes, net
      ensures alive <==> Splits(name) && old(State).Target(name).shadow.Reads(value)
      ensures alive ==> Valid() && fresh(parentTopic.Repr - old(parentTopic.Repr))
      ensures alive ==> fresh(parameters - old(parameters))
      ensures alive ==> fresh(Numerics - old(Numerics)) && fresh(Discretes - old(Discretes))
      ensures alive ==> State == old(State).Assign(c, name, value)
      ensures alive ==> Wrote(old(net.log), net.log, old(State).AssignOut(name, value))
    {
      hide IndexedBut, Topic.Holds, View.Target, View.Assign, View.AssignOut, Param.Sent, Param.Audience, Wrote, Splits,
           Segments, Shadow.Reads;
      var topic;
      alive, topic := SplitTopic(name);
      if !alive {
        return;
      }
      var p := GetParameter(name);
      ghost var got, v := net.log, old(State);
      Reads(p);
      alive := SetFound(p, c, name, value, v);
      if alive {
        WroteMore(old(net.log), got, net.log, {}, v.AssignOut(name, value));
        NothingMore(v.AssignOut(name, value));
      }
    }

    lemma NothingMore(out: set<Entry>)
      ensures {} + out == out
    {}

    method SetFound(p: Parameter, c: Client, name: string, value: string, ghost v: View) returns (alive: bool)
      requires Valid() && p in parameters && p.splitName == Segments(name)
      requires State == v.(params := v.params[Segments(name) := v.Target(name)])
      modifies this`State, p, p.numeric, p.discrete, net
      ensures alive <==> v.Target(name).shadow.Reads(value)
      ensures alive ==> Valid() && State == v.Assign(c, name, value)
      ensures alive ==> Wrote(old(net.log), net.log, v.AssignOut(name, value))
    {
      hide IndexedBut, Topic.Holds, View.Target, View.Assign, View.AssignOut, Param.Sent, Param.Audience, Wrote,
           Segments, Shadow.Reads;
      alive := SetAndProvide(p, c, value);
      if alive {
        TreeUntouched();
        AssignInSteps(v, c, name, value);
        NothingMore(v.AssignOut(name, value));
        ghost var now := v.Target(name).(value := value, isSet := true);
        NothingMore(ToAll(now.Audience(), Push(now.name, value)));
      }
    }

    /** The loop of "get". */
    method ReplyAll(matched: set<Parameter>, c: Client)
      requires Indexed() && State.Named() && matched <= parameters
      modifies net
      ensures Wrote(old(net.log), net.log, State.ReplyOut(Paths(matched), c))
    {
      hide IndexedBut, Wrote, Paths, View.ReplyOut, View.Named;
      ReplyNothing(State, c);
      NoPaths();
      WroteNothing(net.log);
      AreDistinct(matched);
      ghost var did, start := {}, net.log;
      var todo := matched;
      while todo != {}
        invariant did + todo == matched && did !! todo
        invariant Wrote(start, net.log, State.ReplyOut(Paths(did), c))
      {
        var p :| p in todo;
        ghost var before := net.log;
        Reads(p);
        IsAmong(matched, did + {p}, p);
        PathsOneMore(did, p);
        ReplyOneMore(State, Paths(did), p.splitName, c);
        net.WriteLine(c, Reply(p.name, p.value));
        WroteMore(start, before, net.log, State.ReplyOut(Paths(did), c), {(c, Reply(p.name, p.value))});
        todo, did := todo - {p}, did + {p};
      }
      assert did == matched;
    }

    method GetValues(c: Client, n: string)
      requires Valid() && State.Named() && Splits(n)
      modifies net
      ensures Valid()
      ensures Wrote(old(net.log), net.log, State.GetOut(c, n))
    {
      hide IndexedBut, Topic.Holds, Wrote;
      var _, topic := SplitTopic(n);
      var matched := Matching(n, topic);
      ReplyAll(matched, c);
      TreeUntouched();
    }

    /** The body of the loop of "noretain". */
    method RelayNext(n: string, name: string, value: string, p: Parameter, temp: Topic, ghost done: set<string>,
                     ghost start: seq<Entry>)
      requires Indexed() && temp.Holds({} + {p}) && p.splitName == Segments(name)
      requires n in State.petitions && n !in done && Wrote(start, net.log, State.RelayOutIn(done, name, value))
      modifies net
      ensures Wrote(start, net.log, State.RelayOutIn(done + {n}, name, value))
    {
      hide IndexedBut, Topic.Holds, Wrote, View.RelayOutIn;
      IsState();
      ghost var before := net.log;
      RelayOneMore(State, done, n, name, value);
      var params := temp.GetAllMatchesAtRoot(Segments(n), {} + {p});
      if p in params {
        net.WriteToAll(registers[n].clients, Relay(n, name, value));
        WroteMore(start, before, net.log,
                  State.RelayOutIn(done, name, value), ToAll(registers[n].clients, Relay(n, name, value)));
      }
    }

    /** "noretain": the petitions are matched against a tree of one parameter. */
    method RelayAll(name: string, value: string)
      requires Valid() && Splits(name)
      modifies net
      ensures Valid()
      ensures Wrote(old(net.log), net.log, State.RelayOut(name, value))
    {
      hide IndexedBut, Topic.Holds, Wrote, View.RelayOutIn;
      var p := new Parameter(name);
      var temp := new Topic("");
      temp.InsertAtRoot(p, {});
      IsState();
      RelayNothing(State, name, value);
      WroteNothing(net.log);
      ghost var done, start := {}, net.log;
      var todo := registers.Keys;
      while todo != {}
        invariant done + todo == registers.Keys && done !! todo
        invariant Indexed() && temp.Holds({} + {p}) && fresh(temp) && fresh(temp.Repr)
        invariant Wrote(start, net.log, State.RelayOutIn(done, name, value))
      {
        var n :| n in todo;
        RelayNext(n, name, value, p, temp, done, start);
        todo, done := todo - {n}, done + {n};
      }
      assert done == registers.Keys;
      temp.EraseAtRoot(p, {} + {p});
      TreeUntouched();
    }

    // ---- lines ----

    /** function_call; false if an exception escapes. */
    method FunctionCall(c: Client, fun: string, param: string) returns (alive: bool)
      requires Valid() && State.Inv() && State.Sendable()
      modifies this`registers, this`parameters, this`ByPath, this`State, this`Numerics, this`Discretes,
               parentTopic.Repr, parameters, Numerics, Discretes, net
      ensures alive <==> Survives(old(State), Wire.Call(fun, param))
      ensures alive ==> Valid() && fresh(parentTopic.Repr - old(parentTopic.Repr))
      ensures alive ==> fresh(parameters - old(parameters))
      ensures alive ==> fresh(Numerics - old(Numerics)) && fresh(Discretes - old(Discretes))
      ensures alive ==> State == Obey(old(State), c, Wire.Call(fun, param))
      ensures alive ==> Wrote(old(net.log), net.log, ObeyOut(old(State), c, Wire.Call(fun, param)))
    {
      hide IndexedBut, Topic.Holds, Wrote, View.Inv, View.Register, View.RegisterOut, View.Unregister, View.Withdraw,
           View.DropOut, View.GetOut, View.RelayOut, View.Sendable, Splits;
      alive := true;
      var topic: seq<string>;
      if fun == "register" {
        alive, topic := SplitTopic(param);
        if alive {
          AddRegisterPetition(param, c);
        }
      } else if fun == "unregister" {
        alive, topic := SplitTopic(param);
        if alive {
          RemoveRegisterPetition(param, c);
        }
      } else if fun == "noretain" {
        var eq := FindFirst(param, '=');
        if eq == |param| {
          WroteNothing(net.log);
          return;
        }
        var parameter, value := param[..eq], param[eq + 1..];
        alive, topic := SplitTopic(parameter);
        if alive {
          RelayAll(parameter, value);
        }
      } else if fun == "get" {
        alive, topic := SplitTopic(param);
        if alive {
          InvIsNamed();
          GetValues(c, param);
        }
      } else {
        WroteNothing(net.log);
      }
    }

    lemma InvIsNamed()
      requires State.Inv()
      ensures State.Named()
    {}

    /** ParseLine; false if an exception escapes. */
    method ParseLine(c: Client, line: string) returns (alive: bool)
      requires Valid() && State.Inv() && State.Sendable()
      modifies this`registers, this`parameters, this`ByPath, this`State, this`Numerics, this`Discretes,
               parentTopic.Repr, parameters, Numerics, Discretes, net
      ensures alive <==> Survives(old(State), Wire.Parse(line))
      ensures alive ==> Valid() && fresh(parentTopic.Repr - old(parentTopic.Repr))
      ensures alive ==> fresh(parameters - old(parameters))
      ensures alive ==> fresh(Numerics - old(Numerics)) && fresh(Discretes - old(Discretes))
      ensures alive ==> State == Obey(old(State), c, Wire.Parse(line))
      ensures alive ==> Wrote(old(net.log), net.log, ObeyOut(old(State), c, Wire.Parse(line)))
    {
      hide IndexedBut, Topic.Holds, Wrote, View.Inv, View.Sendable, Splits, View.Assign, View.AssignOut, View.Target,
           Wire.Call, Wire.Parenthesis, Survives, Obey, ObeyOut;
      IgnoredIs(State, c);
      var eq := FindFirst(line, '=');
      if FindFirst(line, '(') < eq {
        var ok, fun, param := Wire.ParseParenthesis(line);
        if ok {
          Wire.PartsAre(line, fun, param);
          alive := FunctionCall(c, fun, param);
          return;
        }
      }
      if eq == |line| || line[..eq] == "connected" {
        WroteNothing(net.log);
        return true;
      }
      AssignIs(State, c, line[..eq], line[eq + 1..]);
      alive := AssignValue(c, line[..eq], line[eq + 1..]);
    }

    lemma IgnoredIs(v: View, c: Client)
      requires v.Sendable()
      ensures Survives(v, Ignored) && Obey(v, c, Ignored) == v && ObeyOut(v, c, Ignored) == {}
    {}

    lemma AssignIs(v: View, c: Client, name: string, value: string)
      requires v.Sendable()
      ensures Survives(v, Assign(name, value)) <==> Splits(name) && v.Target(name).shadow.Reads(value)
      ensures Survives(v, Assign(name, value)) ==>
                Obey(v, c, Assign(name, value)) == v.Assign(c, name, value)
                && ObeyOut(v, c, Assign(name, value)) == v.AssignOut(name, value)
    {}
  }
}
