/** A retained parameter of the server (include/orts/common.h and common.cpp,
    Parameter and ExternalParameter) and the log that stands for the sockets. */
module Parameters {
  import opened Base
  import opened Topics
  import opened Filters
  import opened Model

  lemma WroteNothing(log: seq<Entry>)
    ensures Wrote(log, log, {})
  {}

  lemma WroteMore(a: seq<Entry>, b: seq<Entry>, c: seq<Entry>, out: set<Entry>, more: set<Entry>)
    requires Wrote(a, b, out) && Wrote(b, c, more) && out !! more
    ensures Wrote(a, c, out + more)
  {
    assert multiset(out + more) == multiset(out) + multiset(more);
  }

  /** What every client is written, in order: the far ends of the sockets. */
  class Network {
    var log: seq<Entry>

    constructor ()
      ensures log == []
    {
      log := [];
    }

    method WriteLine(c: Client, line: Line)
      modifies this
      ensures log == old(log) + [(c, line)]
      ensures Wrote(old(log), log, {(c, line)})
    {
      log := log + [(c, line)];
    }

    /** The loops that write one line to every client of a set. */
    method WriteToAll(cs: set<Client>, line: Line)
      modifies this
      ensures Wrote(old(log), log, ToAll(cs, line))
    {
      var todo := cs;
      ghost var out: set<Entry> := {};
      WroteNothing(log);
      while todo != {}
        invariant todo <= cs && out == set c | c in cs - todo :: (c, line)
        invariant Wrote(old(log), log, out)
      {
        var c :| c in todo;
        todo := todo - {c};
        ghost var before := log;
        WriteLine(c, line);
        WroteMore(old(log), before, log, out, {(c, line)});
        out := out + {(c, line)};
      }
    }
  }

  class Parameter {
    const name: string
    const splitName: Path
    const numeric: NumericData?
    const discrete: DiscreteData?
    var clients: set<Client>
    var providers: set<Client>
    var value: string
    var isSet: bool

    /** Exactly one filter, which is its own. */
    ghost predicate Valid() {
      && (numeric == null) != (discrete == null)
      && (numeric != null ==> numeric.owner == splitName) && (discrete != null ==> discrete.owner == splitName)
    }

    ghost function Shadow(): Shadow
      reads numeric, discrete
    {
      if numeric != null then numeric.View() else if discrete != null then discrete.View() else Discrete(map[])
    }

    ghost function View(): Param
      reads this, numeric, discrete
    {
      Param(name, value, isSet, clients, providers, Shadow())
    }

    constructor (name: string)
      requires Splits(name)
      ensures Valid() && this.name == name && splitName == Segments(name)
      ensures (numeric != null ==> fresh(numeric)) && (discrete != null ==> fresh(discrete))
      ensures View() == NewParam(name, {})
    {
      this.name := name;
      var _, split := SplitTopic(name);
      splitName := split;
      clients, providers, value, isSet := {}, {}, "", false;
      match MarginOf(name)
      case Some(margin) =>
        var data := new NumericData(margin, split);
        numeric, discrete := data, null;
      case None =>
        var data := new DiscreteData(split);
        numeric, discrete := null, data;
    }

    method AddRegister(c: Client)
      requires Valid()
      modifies this, numeric, discrete
      ensures View() == old(View()).Subscribe(c)
    {
      clients := clients + {c};
      if numeric != null {
        numeric.AddRegister(c);
      } else {
        discrete.AddRegister(c);
      }
    }

    method Unregister(c: Client)
      requires Valid()
      modifies this, numeric, discrete
      ensures View() == old(View()).Unsubscribe(c)
    {
      if numeric != null {
        numeric.Unregister(c);
      } else {
        discrete.Unregister(c);
      }
      clients := clients - {c};
    }

    /** Writes the value to the clients that are out of date; false if the conversion throws. */
    method Send(net: Network) returns (ok: bool)
      requires Valid()
      modifies this, numeric, discrete, net
      ensures ok == old(isSet ==> View().shadow.Reads(value))
      ensures ok ==> View() == old(View()).Sent()
      ensures ok ==> Wrote(old(net.log), net.log, ToAll(old(View()).Audience(), Push(name, value)))
    {
      if !isSet {
        WroteNothing(net.log);
        return true;
      }
      var cl: set<Client>;
      if numeric != null {
        ok, cl := numeric.GetClientsToSend(value);
        if !ok {
          return;
        }
      } else {
        cl := discrete.GetClientsToSend(value);
        ok := true;
      }
      net.WriteToAll(cl, Push(name, value));
    }

    method SetValue(val: string, net: Network) returns (ok: bool)
      requires Valid()
      modifies this, numeric, discrete, net
      ensures ok == old(View()).shadow.Reads(val)
      ensures ok ==> View() == old(View()).(value := val, isSet := true).Sent()
      ensures ok ==> Wrote(old(net.log), net.log,
                           ToAll(old(View()).(value := val, isSet := true).Audience(), Push(name, val)))
    {
      isSet := true;
      value := val;
      ok := Send(net);
    }
  }
}
