/** Runs that show what the results about runs assume and what they leave open. */
module Examples {
  import opened Base
  import opened Topics
  import opened Filters
  import opened Model
  import opened Delivery
  import opened Runs
  import opened Providers

  /** One client asks for everything, another then provides a value: the first one holds it. */
  lemma SomebodyIsServed(bell: string) returns (es: seq<Event>)
    requires Splits(bell) && MarginOf(bell).None?
    ensures IsRun(es)
    ensures After(es) == View({1, 2}, map["*" := Petition({1}, {1, 2})],
              map[Segments(bell) := Param(bell, "on", true, {1}, {2}, Discrete(map[1 := "on"]))])
  {
    es := Asked();
    var v := After(es);
    assert v.petitions == map["*" := Petition({1}, {1, 2})];
    var e := Receive(2, Assign(bell, "on"));
    ValueArrives(v, bell);
    OneStep(es, e);
    es := es + [e];
  }

  lemma Asked() returns (es: seq<Event>)
    ensures IsRun(es) && After(es) == View({1, 2}, map["*" := Petition({1}, {1, 2})], map[])
  {
    hide After, IsRun;
    NoSteps();
    OneStep([], Accept(1, true));
    es := [] + [Accept(1, true)];
    OneStep(es, Accept(2, true));
    es := es + [Accept(2, true)];
    assert After(es) == View({1, 2}, map[], map[]);
    FirstIs("*", ':', 1);
    var v, e := After(es), Receive(1, Register("*"));
    assert v.PetitionOf("*").clients + {1} == {1} && v.PetitionOf("*").told + v.clients == {1, 2};
    assert v.Register(1, "*").petitions == map["*" := Petition({1}, {1, 2})];
    OneStep(es, e);
    es := es + [e];
  }

  lemma ValueArrives(v: View, bell: string)
    requires v == View({1, 2}, map["*" := Petition({1}, {1, 2})], map[]) && Splits(bell) && MarginOf(bell).None?
    ensures v.Target(bell).shadow.Reads("on")
    ensures v.Assign(2, bell, "on") ==
              v.(params := map[Segments(bell) := Param(bell, "on", true, {1}, {2}, Discrete(map[1 := "on"]))])
  {
    FirstIs("*", ':', 1);
    assert "*"[..1] == "*";
    assert Segments("*") == ["*"];
    assert "*" in v.Covering(Segments(bell));
    hide NewParam, Param.Sent, MarginOf, Segments;
    assert v.Askers(Segments(bell)) == {1};
    AsNew(bell);
    var p := v.Assigned(bell, "on").Sent();
    assert p == Param(bell, "on", true, {1}, {}, Discrete(map[1 := "on"]));
    assert p.(providers := p.providers + {2}) == Param(bell, "on", true, {1}, {2}, Discrete(map[1 := "on"]));
  }

  lemma AsNew(bell: string)
    requires MarginOf(bell).None?
    ensures var p := NewParam(bell, {1});
            p.shadow == Discrete(map[1 := ""]) && p.(value := "on", isSet := true).Sent() ==
              Param(bell, "on", true, {1}, {}, Discrete(map[1 := "on"]))
  {
    var p := NewParam(bell, {1});
    assert p.shadow.text == map[1 := ""];
    assert p.shadow.Refresh("on").text == map[1 := "on"];
  }

  // ---- registering twice ----

  /** Client 1 asks for everything and client 2 provides one parameter. */
  function Single(name: string, value: string, shadow: Shadow): View {
    View({1, 2}, map["*" := Petition({1}, {1, 2})], map[Segments(name) := Param(name, value, true, {1}, {2}, shadow)])
  }

  lemma FirstAssigned(m: real, name: string, text: string, y: real)
    requires Splits(name) && MarginOf(name) == Some(m) && m > 0.0 && Stof(text) == Some(y) && Abs(y) >= m
    ensures var v, e := View({1, 2}, map["*" := Petition({1}, {1, 2})], map[]), Receive(2, Assign(name, text));
            && Legal(v, e) && v.Sendable() && Step(v, e) == Single(name, text, Numeric(m, map[1 := y]))
            && (1, Push(name, text)) in Out(v, e)
  {
    hide MarginOf, Segments, Param.Sent, Param.Audience, NewParam, View.Askers;
    var v := View({1, 2}, map["*" := Petition({1}, {1, 2})], map[]);
    Everything(v, name);
    NewNumber(m, name);
    var p := v.Assigned(name, text);
    SendsNumber(m, p, text, 0.0, y);
    assert p.Sent().providers + {2} == {2};
  }

  lemma NewNumber(m: real, name: string)
    requires MarginOf(name) == Some(m)
    ensures NewParam(name, {1}) == Param(name, "", false, {1}, {}, Numeric(m, map[1 := 0.0]))
  {
    hide MarginOf;
    assert NewParam(name, {1}).shadow.last == map[1 := 0.0];
  }

  lemma Everything(v: View, name: string)
    requires v.petitions == map["*" := Petition({1}, {1, 2})]
    ensures Segments("*") == ["*"] && Splits("*") && v.Askers(Segments(name)) == {1}
    ensures forall path | path in v.params :: path in v.Covered("*")
  {
    FirstIs("*", ':', 1);
    assert "*"[..1] == "*";
    assert Segments("*") == ["*"];
    assert "*" in v.Covering(Segments(name));
  }

  lemma SendsNumber(m: real, p: Param, text: string, x: real, y: real)
    requires p.value == text && p.isSet && p.shadow == Numeric(m, map[1 := x]) && Stof(text) == Some(y)
    ensures p.Audience() == if Stale(m, x, y) then {1} else {}
    ensures p.Sent() == p.(shadow := Numeric(m, map[1 := Next(m, x, y)]))
  {
    assert p.shadow.Refresh(text).last == map[1 := Next(m, x, y)];
  }

  lemma NextAssigned(m: real, name: string, value: string, x: real, text: string, y: real)
    requires Splits(name) && MarginOf(name) == Some(m) && Stof(text) == Some(y) && !Stale(m, x, y)
    ensures var v, e := Single(name, value, Numeric(m, map[1 := x])), Receive(2, Assign(name, text));
            && Legal(v, e)
            && (v.Sendable() ==> Out(v, e) == {} && Step(v, e) == Single(name, text, Numeric(m, map[1 := x])))
  {
    hide MarginOf, Segments, Param.Sent, Param.Audience, Stale;
    var v := Single(name, value, Numeric(m, map[1 := x]));
    var p := v.Assigned(name, text);
    SendsNumber(m, p, text, x, y);
    assert p.Sent().(providers := p.providers + {2}) == Param(name, text, true, {1}, {2}, Numeric(m, map[1 := x]));
  }

  lemma RegisteredAgain(m: real, name: string, value: string, x: real, y: real)
    requires Splits(name) && MarginOf(name) == Some(m) && Stof(value) == Some(y) && !Stale(m, 0.0, y)
    ensures var v, e := Single(name, value, Numeric(m, map[1 := x])), Receive(1, Register("*"));
            && Legal(v, e)
            && (v.Sendable() ==> Out(v, e) == {} && Step(v, e) == Single(name, value, Numeric(m, map[1 := 0.0])))
  {
    var v, path := Single(name, value, Numeric(m, map[1 := x])), Segments(name);
    Everything(v, name);
    if v.Sendable() {
      hide MarginOf, Segments, Param.Sent, Param.Audience, Param.Subscribe, Stale, View.Subscribed, View.AnnounceOut,
           View.Offer, View.OfferOut, View.Sendable, View.Covered;
      JoinsAgain(m, name, value, x, y);
      AskedAgain(v);
      OfferOne(v, path, Param(name, value, true, {1}, {2}, Numeric(m, map[1 := 0.0])));
    }
  }

  lemma JoinsAgain(m: real, name: string, value: string, x: real, y: real)
    requires Stof(value) == Some(y) && !Stale(m, 0.0, y)
    ensures var again := Param(name, value, true, {1}, {2}, Numeric(m, map[1 := x])).Subscribe(1);
            && again == Param(name, value, true, {1}, {2}, Numeric(m, map[1 := 0.0]))
            && again.Sent() == again && again.Audience() == {}
  {
    hide Param.Sent, Param.Audience, Stale;
    var again := Param(name, value, true, {1}, {2}, Numeric(m, map[1 := x])).Subscribe(1);
    assert map[1 := x][1 := 0.0] == map[1 := 0.0] && {1} + {1} == {1};
    SendsNumber(m, again, value, 0.0, y);
  }

  /** Offering the only parameter to client 1 when that needs nothing to be sent. */
  lemma OfferOne(v: View, path: Path, again: Param)
    requires v.Sendable() && v.params.Keys == {path} && path in v.Covered("*")
    requires v.params[path].Subscribe(1) == again
    requires (again.isSet ==> again.shadow.Reads(again.value)) && again.Sent() == again && again.Audience() == {}
    ensures v.Offer(v.Covered("*"), 1) == v.(params := map[path := again]) && v.OfferOut(v.Covered("*"), 1) == {}
  {
    hide Param.Sent, Param.Audience, Param.Subscribe, View.Covered;
    assert v.Offer(v.Covered("*"), 1).params == map[path := again];
  }

  lemma AskedAgain(v: View)
    requires v.clients == {1, 2} && v.petitions == map["*" := Petition({1}, {1, 2})]
    ensures v.Subscribed(1, "*") == v && v.AnnounceOut("*") == {}
  {
    assert v.PetitionOf("*").clients + {1} == {1} && v.PetitionOf("*").told + v.clients == {1, 2};
    assert v.Subscribed(1, "*").petitions == v.petitions;
  }

  /** A client that registers twice can be left with an outdated value: it still holds x when
      the value is 0. The texts are any that the conversion reads as those numbers. */
  lemma LeftBehind(m: real, name: string, far: string, x: real, near: string, y: real, zero: string)
      returns (es: seq<Event>)
    requires Splits(name) && MarginOf(name) == Some(m) && m > 0.0
    requires Stof(far) == Some(x) && Stof(near) == Some(y) && Stof(zero) == Some(0.0)
    requires Abs(x) >= m && !Stale(m, x, y) && !Stale(m, 0.0, y)
    ensures IsRun(es) && After(es) == Single(name, zero, Numeric(m, map[1 := 0.0]))
    ensures Seen(es, 1, Segments(name)) == Some(far)
  {
    hide IsRun, After, Seen, Step, Out, Legal, View.Inv, View.Sendable, Pushed, Segments, MarginOf;
    var path := Segments(name);
    es := Asked();
    var e := Receive(2, Assign(name, far));
    FirstAssigned(m, name, far, x);
    IsPushed(After(es), e, name, far);
    JustSeen(es, e, 1, path);
    es := es + [e];
    NextAssigned(m, name, far, x, near, y);
    es := Quietly(es, Receive(2, Assign(name, near)), path);
    RegisteredAgain(m, name, near, x, y);
    es := Quietly(es, Receive(1, Register("*")), path);
    NextAssigned(m, name, near, 0.0, zero, 0.0);
    es := Quietly(es, Receive(2, Assign(name, zero)), path);
  }

  /** For the speed 0.15 is left behind, */
  lemma SomebodyIsLeftBehind(far: string, near: string, zero: string) returns (es: seq<Event>)
    requires Stof(far) == Some(0.15) && Stof(near) == Some(0.08) && Stof(zero) == Some(0.0)
    ensures IsRun(es) && Splits("speed") && After(es) == Single("speed", zero, Numeric(0.1, map[1 := 0.0]))
    ensures Seen(es, 1, Segments("speed")) == Some(far)
  {
    FirstIs("speed", ':', 5);
    es := LeftBehind(0.1, "speed", far, 0.15, near, 0.08, zero);
  }

  /** and for the throttle, whose margin is a tenth of that, 0.015 is. */
  lemma ThrottleIsLeftBehind(far: string, near: string, zero: string) returns (es: seq<Event>)
    requires Stof(far) == Some(0.015) && Stof(near) == Some(0.008) && Stof(zero) == Some(0.0)
    ensures var name := "controller::throttle";
            && IsRun(es) && Splits(name) && Segments(name) == ["controller", "throttle"]
            && After(es) == Single(name, zero, Numeric(0.01, map[1 := 0.0]))
            && Seen(es, 1, Segments(name)) == Some(far)
  {
    ThrottleSplits();
    es := LeftBehind(0.01, "controller::throttle", far, 0.015, near, 0.008, zero);
  }

  /** The margins of all numeric parameters; the others have none. */
  lemma Margins(name: string)
    ensures MarginOf(name) == Some(0.1) <==> name in {"speed", "cruise_speed", "distance", "simulator_time"}
    ensures MarginOf(name) == Some(0.01) <==>
            name in {"controller::throttle", "controller::brakes::dynamic", "controller::brakes::train"}
    ensures MarginOf(name).Some? ==> MarginOf(name).value == 0.1 || MarginOf(name).value == 0.01
  {}

  lemma ThrottleSplits()
    ensures Splits("controller::throttle") && Segments("controller::throttle") == ["controller", "throttle"]
  {
    var path: Path := ["controller", "throttle"];
    assert Join(path[1..]) == "throttle";
    assert Join(path) == "controller::throttle";
    SplitInvertsJoin(path);
  }

  lemma IsPushed(v: View, e: Event, name: string, value: string)
    requires v.Sendable() && Legal(v, e) && (1, Push(name, value)) in Out(v, e)
    ensures Pushed(Out(v, e), 1, Segments(name))
  {
    assert PushIn(Out(v, e), 1, Segments(name), value);
  }

  lemma Quietly(before: seq<Event>, e: Event, path: Path) returns (es: seq<Event>)
    requires IsRun(before) && Legal(After(before), e) && !e.Accept? && Out(After(before), e) == {}
    ensures IsRun(es) && After(es) == Step(After(before), e) && Seen(es, 1, path) == Seen(before, 1, path)
  {
    assert !Pushed(Out(After(before), e), 1, path);
    Unseen(before, e, 1, path);
    es := before + [e];
  }

  // ---- overlapping petitions ----

  /** A client that unregisters a topic, here one it does not even hold, can lose a parameter that
      another of its petitions asks for. */
  lemma SomebodyIsForgotten(bell: string) returns (es: seq<Event>)
    requires Splits(bell) && MarginOf(bell).None? && bell != "*"
    ensures IsRun(es) && es != [] && es[|es| - 1] == Receive(1, Unregister(bell))
    ensures var v, w := After(es[..|es| - 1]), After(es);
            && v.Honours(1) && bell in v.petitions && 1 !in v.petitions[bell].clients && Overlaps(v, 1, bell)
            && Segments(bell) in w.params && w.Asks(1, Segments(bell)) && 1 !in w.params[Segments(bell)].clients
  {
    hide IsRun, After, Legal, View.Inv, View.Sendable, Segments, Matches;
    var path := Segments(bell);
    es := SomebodyIsServed(bell);
    AlsoAsked(After(es), bell);
    OneStep(es, Receive(2, Register(bell)));
    es := es + [Receive(2, Register(bell))];
    Forgotten(After(es), bell);
    OneStep(es, Receive(1, Unregister(bell)));
    assert (es + [Receive(1, Unregister(bell))])[..|es|] == es;
    es := es + [Receive(1, Unregister(bell))];
  }

  lemma AlsoAsked(v: View, bell: string)
    requires v.Inv() && v.Sendable() && Splits(bell) && bell != "*" && v.clients == {1, 2}
    requires v.petitions == map["*" := Petition({1}, {1, 2})]
    requires Segments(bell) in v.params && v.params.Keys == {Segments(bell)} && v.params[Segments(bell)].clients == {1}
    ensures var e := Receive(2, Register(bell)); Legal(v, e) && Shared(Step(v, e), bell)
  {
    Everything(v, bell);
    MatchesItself(Segments(bell));
  }

  /** Client 1 has its parameter through "*", and client 2 through its name. */
  ghost predicate Shared(v: View, bell: string) {
    var path := Segments(bell);
    && 1 in v.clients && "*" in v.Covering(path) && bell in v.Covering(path) && bell != "*"
    && v.petitions["*"].clients == {1} && v.petitions[bell].clients == {2}
    && path in v.params && v.params.Keys == {path} && v.params[path].clients == {1, 2}
  }

  lemma Forgotten(v: View, bell: string)
    requires v.Inv() && Shared(v, bell) && Splits(bell)
    ensures Legal(v, Receive(1, Unregister(bell))) && v.Honours(1) && bell in v.petitions && Overlaps(v, 1, bell)
    ensures var w := v.Unregister(1, bell);
            Segments(bell) in w.params && w.Asks(1, Segments(bell)) && 1 !in w.params[Segments(bell)].clients
  {
    OutlivesWithdrawal(v, 1, bell, Segments(bell));
    StillAsks(v, 1, bell, Segments(bell), "*");
  }

  // ---- retractions ----

  /** Clients 1 and 2 ask for everything and for one name; client 3 has been told of both, and
      has not sent anything. */
  ghost predicate BothAsk(v: View, name: string) {
    && v.clients == {1, 2, 3} && v.params == map[]
    && v.petitions.Keys == {"*", name} && v.petitions["*"].clients == {1} && v.petitions[name].clients == {2}
  }

  /** A client that never unregisters can stop being heard: client 1 takes back "*", client 3 is
      told so, and unregisters the server from everything, also from what client 2 asks for. */
  lemma SomebodyIsUnheard(name: string) returns (es: seq<Event>)
    requires Splits(name) && name != "*"
    ensures IsRun(es) && es != [] && IsRun(es[..|es| - 1]) && es[|es| - 1] == Receive(1, Unregister("*"))
    ensures var v, path := After(es[..|es| - 1]), Segments(name);
            && Delivers(es[..|es| - 1], 3, 2, path) && Legal(v, es[|es| - 1])
            && (3, RetractPetition("*")) in Out(v, es[|es| - 1])
    ensures After(es).Asks(2, Segments(name)) && Faithful(es, 2) && !Stands(es, 3, Segments(name))
  {
    hide IsRun, After, Step, Legal, View.Inv, View.Sendable, Stands, Withdrawn, Told, Segments, Matches, Faithful;
    var path := Segments(name);
    var before := NameAsked(name);
    var e := Receive(1, Register("*"));
    EverythingAsked(After(before), name, path);
    StandsOn(before, e, 3, path);
    var so, last := before + [e], Receive(1, Unregister("*"));
    EverythingTakenBack(After(so), name, path);
    DeliveryEnds(so, last, 3, 2, path);
    NotTold(After(so), last, 3, path);
    StandsOn(so, last, 3, path);
    es := so + [last];
    assert es[..|es| - 1] == so;
    NeverUnregisters(before, e, last);
  }

  lemma NameAsked(name: string) returns (es: seq<Event>)
    requires Splits(name)
    ensures IsRun(es) && Faithful(es, 2)
    ensures var v := After(es); v.clients == {1, 2, 3} && v.params == map[] && v.petitions.Keys == {name}
    ensures After(es).petitions[name].clients == {2}
  {
    hide IsRun, After, Segments, Faithful;
    es := [];
    NoSteps();
    GoesOn(es, Accept(1, true));
    es := es + [Accept(1, true)];
    GoesOn(es, Accept(2, true));
    es := es + [Accept(2, true)];
    GoesOn(es, Accept(3, true));
    es := es + [Accept(3, true)];
    assert After(es) == View({1, 2, 3}, map[], map[]);
    var v, e := After(es), Receive(2, Register(name));
    assert v.PetitionOf(name).clients + {2} == {2} && v.PetitionOf(name).told + v.clients == {1, 2, 3};
    assert v.Register(2, name).petitions == map[name := Petition({2}, {1, 2, 3})];
    GoesOn(es, e);
    es := es + [e];
  }

  lemma EverythingAsked(v: View, name: string, path: Path)
    requires v.Inv() && v.Sendable() && v.clients == {1, 2, 3} && v.params == map[] && v.petitions.Keys == {name}
    requires v.petitions[name].clients == {2} && name != "*"
    ensures var e := Receive(1, Register("*"));
            Legal(v, e) && BothAsk(Step(v, e), name) && Told(v, e, 3, path) && 3 in Step(v, e).clients
  {
    Everywhere(path);
    assert v.PetitionOf("*").clients + {1} == {1};
  }

  lemma Everywhere(path: Path)
    ensures Splits("*") && Segments("*") == ["*"] && Matches(Segments("*"), path)
  {
    FirstIs("*", ':', 1);
    assert "*"[..1] == "*";
  }

  lemma EverythingTakenBack(v: View, name: string, path: Path)
    requires v.Inv() && v.Sendable() && BothAsk(v, name) && name != "*" && path == Segments(name)
    ensures var e := Receive(1, Unregister("*"));
            && Legal(v, e) && Withdrawn(v, e, path) && 2 in Step(v, e).clients && 3 in Step(v, e).clients
            && Step(v, e).Asks(2, path) && (3, RetractPetition("*")) in Out(v, e) && path !in v.params
  {
    Everywhere(path);
    MatchesItself(path);
    var e := Receive(1, Unregister("*"));
    assert "*" in Losing(v, e) && Ends(v, 1, "*", path);
    var w := v.Withdraw(1, "*");
    assert "*" in w.Empty() && w.Covered("*") == {};
    assert name in Step(v, e).Covering(path) && 2 in Step(v, e).petitions[name].clients;
  }

  lemma GoesOn(es: seq<Event>, e: Event)
    requires IsRun(es) && Legal(After(es), e) && !(e.Receive? && e.command.Unregister?)
    ensures IsRun(es + [e]) && After(es + [e]) == Step(After(es), e)
    ensures Faithful(es, 2) || es == [] ==> Faithful(es + [e], 2)
  {
    OneStep(es, e);
    assert (es + [e])[..|es|] == es;
  }

  lemma NeverUnregisters(es: seq<Event>, e: Event, last: Event)
    requires Faithful(es, 2) && e.c == 1 && last.c == 1
    ensures Faithful(es + [e] + [last], 2)
  {
    var so := es + [e];
    assert so[..|es|] == es && (so + [last])[..|so|] == so;
  }
}
