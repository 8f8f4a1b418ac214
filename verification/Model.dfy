/** The server's state as a value, and what each step of the main loop does to it:
    the specification the classes of Server.dfy are proved against. */
module Model {
  import opened Base
  import opened Topics
  import opened Filters

  /** Lines written to clients. Each carries what caused it, so that no line is
      written twice for the same reason; Wire.dfy says how they read. */
  datatype Line =
    | Hello
    | Announce(topic: string)
    | RetractPetition(topic: string)
    | RetractParameter(name: string)
    | Push(name: string, value: string)
    | Reply(name: string, value: string)
    | Relay(petition: string, name: string, value: string)

  type Entry = (Client, Line)

  /** Lines appended to a log are those of out, once each, in some order. */
  ghost predicate Wrote(before: seq<Entry>, after: seq<Entry>, out: set<Entry>) {
    before <= after && multiset(after) == multiset(before) + multiset(out)
  }

  /** One line to every client of a set. */
  function ToAll(cs: set<Client>, line: Line): set<Entry> { set c | c in cs :: (c, line) }

  /** The margin of a numeric parameter; every other parameter is discrete. */
  function MarginOf(name: string): Option<real> {
    if name == "speed" || name == "cruise_speed" || name == "distance" || name == "simulator_time" then Some(0.1)
    else if name == "controller::throttle" || name == "controller::brakes::dynamic"
            || name == "controller::brakes::train" then Some(0.01)
    else None
  }

  datatype Param = Param(name: string, value: string, isSet: bool,
                         clients: set<Client>, providers: set<Client>, shadow: Shadow) {
    function Subscribe(c: Client): Param { this.(clients := clients + {c}, shadow := shadow.Add(c)) }

    function Unsubscribe(c: Client): Param { this.(clients := clients - {c}, shadow := shadow.Remove(c)) }

    /** Whom Send writes to, and what it leaves behind. */
    function Audience(): set<Client>
      requires isSet ==> shadow.Reads(value)
    {
      if isSet then shadow.Outdated(value) else {}
    }

    function Sent(): Param
      requires isSet ==> shadow.Reads(value)
    {
      if isSet then this.(shadow := shadow.Refresh(value)) else this
    }

    ghost predicate Valid() {
      && shadow.Keys() == clients
      && isSet
      && shadow.Reads(value)
      && shadow.InSync(value)
      && match MarginOf(name)
         case Some(margin) => shadow.Numeric? && shadow.margin == margin
         case None => shadow.Discrete?
    }
  }

  /** A parameter that has no value yet, registered by cs. */
  function NewParam(name: string, cs: set<Client>): Param {
    var shadow := match MarginOf(name)
      case Some(margin) => Numeric(margin, map c | c in cs :: 0.0)
      case None => Discrete(map c | c in cs :: "");
    Param(name, "", false, cs, {}, shadow)
  }

  /** The subscribers of a petition, and the clients it has been announced to. */
  datatype Petition = Petition(clients: set<Client>, told: set<Client>)

  datatype View = View(clients: set<Client>, petitions: map<string, Petition>, params: map<Path, Param>) {
    /** Petitions that cover a parameter. */
    function Covering(path: Path): set<string>
    {
      set n | n in petitions && Matches(Segments(n), path)
    }

    /** c has a petition that covers the parameter. */
    ghost predicate Asks(c: Client, path: Path)
    {
      exists n :: n in Covering(path) && c in petitions[n].clients
    }

    /** The invariant of every reachable state. */
    ghost predicate Inv() {
      && (forall n | n in petitions :: petitions[n].clients != {} && petitions[n].clients <= clients)
      && TellsAll() && Named()
      && (forall path | path in params ::
            var p := params[path];
            && p.Valid() && p.providers != {} && p.providers <= clients && p.clients <= clients
            && (forall c | c in p.clients :: Asks(c, path)))
    }

    /** Parameters are filed under what their names split into. */
    ghost predicate Named() {
      forall path | path in params :: path == Segments(params[path].name)
    }

    ghost predicate TellsAll() {
      forall n | n in petitions :: petitions[n].told == clients
    }

    /** Every parameter covered by a petition of c has c among its subscribers. */
    ghost predicate Honours(c: Client) {
      forall path | path in params && Asks(c, path) :: c in params[path].clients
    }

    // ---- changes to the parameters of a set of paths ----

    /** No value the server would re-send makes the conversion throw. */
    ghost predicate Sendable() {
      forall path | path in params :: params[path].isSet ==> params[path].shadow.Reads(params[path].value)
    }

    /** Registering c with parameters and sending it their values. */
    function Offer(paths: set<Path>, c: Client): View
      requires Sendable()
    {
      this.(params := map path | path in params ::
              if path in paths then params[path].Subscribe(c).Sent() else params[path])
    }

    function OfferOut(paths: set<Path>, c: Client): set<Entry>
      requires Sendable()
    {
      set path, d | path in paths && path in params && d in params[path].Subscribe(c).Audience() ::
        (d, Push(params[path].name, params[path].value))
    }

    function Unsubscribe(paths: set<Path>, c: Client): View {
      this.(params := map path | path in params :: if path in paths then params[path].Unsubscribe(c) else params[path])
    }

    /** Forgetting that c provides parameters, and who is left without a provider. */
    function Unprovide(paths: set<Path>, c: Client): View {
      this.(params := map path | path in params ::
              if path in paths then params[path].(providers := params[path].providers - {c}) else params[path])
    }

    function Orphans(paths: set<Path>, c: Client): set<Path> {
      set path | path in paths && path in params && params[path].providers - {c} == {}
    }

    /** The parameters a petition covers. */
    function Covered(n: string): set<Path> { set path | path in params && Matches(Segments(n), path) }

    function CoveredBy(names: set<string>): set<Path> { set path | path in params && Covering(path) * names != {} }

    // ---- accept and disconnect ----

    /** Telling c about the petitions of names. */
    function Tell(names: set<string>, c: Client): View {
      this.(petitions := map n | n in petitions ::
              if n in names then petitions[n].(told := petitions[n].told + {c}) else petitions[n])
    }

    function TellOut(names: set<string>, c: Client): set<Entry> { set n | n in names :: (c, Announce(n)) }

    function Connect(c: Client): View { Tell(petitions.Keys, c).(clients := clients + {c}) }

    function ConnectOut(c: Client, greeted: bool): set<Entry> {
      (if greeted then {} else {(c, Hello)}) + TellOut(petitions.Keys, c)
    }

    /** The loop of RemoveClient, for the petitions of names. */
    function ForgetIn(names: set<string>, c: Client): View {
      this.(petitions := map n | n in petitions ::
              if n in names then Petition(petitions[n].clients - {c}, petitions[n].told - {c}) else petitions[n])
          .Unsubscribe(CoveredBy(names), c)
    }

    /** RemoveClient up to the clean-up of petitions. */
    function Forget(c: Client): View { this.(clients := clients - {c}).ForgetIn(petitions.Keys, c) }

    /** The rest of it: parameters without a provider are dropped silently. */
    function Disown(c: Client): View { Unprovide(params.Keys, c).Remove(Orphans(params.Keys, c)) }

    function Disconnect(c: Client): View { Forget(c).Tidy().Disown(c) }

    // ---- petitions nobody holds ----

    function Empty(): set<string> { set n | n in petitions && petitions[n].clients == {} }

    /** Parameters without subscribers that a petition of dropped covers. */
    function Doomed(dropped: set<string>): set<Path> { Vacant(CoveredBy(dropped)) }

    function Remove(paths: set<Path>): View { this.(params := params - paths) }

    function Vacant(paths: set<Path>): set<Path> {
      set path | path in paths && path in params && params[path].clients == {}
    }

    predicate AllVacant(paths: set<Path>) {
      forall path | path in paths && path in params :: params[path].clients == {}
    }

    function RetractOut(paths: set<Path>): set<Entry> {
      set path, c | path in paths && path in params && c in clients :: (c, RetractParameter(params[path].name))
    }

    function Drop(dropped: set<string>): View {
      this.(petitions := petitions - dropped, params := params - Doomed(dropped))
    }

    function Tidy(): View { Drop(Empty()) }

    function DropOut(dropped: set<string>): set<Entry> {
      RetractOut(Doomed(dropped))
      + (set n, c | n in dropped && AllVacant(Covered(n)) && c in clients :: (c, RetractPetition(n)))
    }

    // ---- register and unregister ----

    function PetitionOf(n: string): Petition {
      if n in petitions then petitions[n] else Petition({}, {})
    }

    function Subscribed(c: Client, n: string): View {
      this.(petitions := petitions[n := Petition(PetitionOf(n).clients + {c}, PetitionOf(n).told + clients)])
    }

    function Register(c: Client, n: string): View
      requires Sendable()
    {
      Subscribed(c, n).Offer(Covered(n), c)
    }

    function AnnounceOut(n: string): set<Entry> { ToAll(clients - PetitionOf(n).told, Announce(n)) }

    function RegisterOut(c: Client, n: string): set<Entry>
      requires Sendable()
    {
      AnnounceOut(n) + OfferOut(Covered(n), c)
    }

    /** RemoveRegisterPetition up to the clean-up of petitions. */
    function Withdraw(c: Client, n: string): View {
      if n !in petitions then this
      else
        var left := petitions[n].(clients := petitions[n].clients - {c});
        this.(petitions := petitions[n := left]).Unsubscribe(Covered(n), c)
    }

    function Unregister(c: Client, n: string): View { Withdraw(c, n).Tidy() }

    // ---- values ----

    /** The clients a new parameter starts with: those of the petitions of names that cover it. */
    function AskersIn(names: set<string>, path: Path): set<Client> {
      set n, c | n in Covering(path) && n in names && c in petitions[n].clients :: c
    }

    function Askers(path: Path): set<Client> { AskersIn(petitions.Keys, path) }

    /** The parameter an assignment to name goes to, created if there is none. */
    function Target(name: string): Param {
      var path := Segments(name);
      if path in params then params[path] else NewParam(name, Askers(path))
    }

    function Assigned(name: string, value: string): Param { Target(name).(value := value, isSet := true) }

    function Assign(c: Client, name: string, value: string): View
      requires Target(name).shadow.Reads(value)
    {
      var p := Assigned(name, value).Sent();
      this.(params := params[Segments(name) := p.(providers := p.providers + {c})])
    }

    function AssignOut(name: string, value: string): set<Entry>
      requires Target(name).shadow.Reads(value)
    {
      ToAll(Assigned(name, value).Audience(), Push(Target(name).name, value))
    }

    function ReplyOut(paths: set<Path>, c: Client): set<Entry> {
      set path | path in paths && path in params :: (c, Reply(params[path].name, params[path].value))
    }

    function GetOut(c: Client, n: string): set<Entry> { ReplyOut(Covered(n), c) }

    function RelayOutIn(names: set<string>, name: string, value: string): set<Entry> {
      set n, d | n in Covering(Segments(name)) && n in names && d in petitions[n].clients :: (d, Relay(n, name, value))
    }

    function RelayOut(name: string, value: string): set<Entry> { RelayOutIn(petitions.Keys, name, value) }
  }

  /** What a received line asks for. */
  datatype Command =
    | Register(topic: string)
    | Unregister(topic: string)
    | Get(topic: string)
    | NoRetain(name: string, value: string)
    | Assign(name: string, value: string)
    | Ignored

  datatype Event =
    | Accept(c: Client, greeted: bool)
    | Receive(c: Client, command: Command)
    | Leave(c: Client)

  /** No exception escapes the step. */
  ghost predicate Survives(v: View, command: Command) {
    match command
    case Register(n) => Splits(n)
    case Unregister(n) => Splits(n)
    case Get(n) => Splits(n)
    case NoRetain(name, _) => Splits(name)
    case Assign(name, value) => Splits(name) && v.Target(name).shadow.Reads(value)
    case Ignored => true
  }

  function Obey(v: View, c: Client, command: Command): View
    requires v.Sendable() && Survives(v, command)
  {
    match command
    case Register(n) => v.Register(c, n)
    case Unregister(n) => v.Unregister(c, n)
    case Assign(name, value) => v.Assign(c, name, value)
    case Get(_) => v
    case NoRetain(_, _) => v
    case Ignored => v
  }

  function ObeyOut(v: View, c: Client, command: Command): set<Entry>
    requires v.Sendable() && Survives(v, command)
  {
    match command
    case Register(n) => v.RegisterOut(c, n)
    case Unregister(n) => var w := v.Withdraw(c, n); w.DropOut(w.Empty())
    case Assign(name, value) => v.AssignOut(name, value)
    case Get(n) => v.GetOut(c, n)
    case NoRetain(name, value) => v.RelayOut(name, value)
    case Ignored => {}
  }

  function DisconnectOut(v: View, c: Client): set<Entry> {
    var w := v.Forget(c);
    w.DropOut(w.Empty())
  }

  /** The main loop's discipline: it accepts new clients and serves connected ones. */
  ghost predicate Legal(v: View, e: Event) {
    match e
    case Accept(c, _) => c !in v.clients
    case Leave(c) => c in v.clients
    case Receive(c, command) => c in v.clients && Survives(v, command)
  }

  ghost function Step(v: View, e: Event): View
    requires v.Sendable() && Legal(v, e)
  {
    match e
    case Accept(c, _) => v.Connect(c)
    case Leave(c) => v.Disconnect(c)
    case Receive(c, command) => Obey(v, c, command)
  }

  ghost function Out(v: View, e: Event): set<Entry>
    requires v.Sendable() && Legal(v, e)
  {
    match e
    case Accept(c, greeted) => v.ConnectOut(c, greeted)
    case Leave(c) => DisconnectOut(v, c)
    case Receive(c, command) => ObeyOut(v, c, command)
  }
}
