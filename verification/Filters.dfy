/** The delta filters: what each client was last sent, and who is out of date
    (include/orts/common.h, NumericData and DiscreteData). */
module Filters {
  import opened Base

  /** The source's test for sending val to a client that last got last. */
  predicate Stale(margin: real, last: real, val: real) {
    Abs(last - val) >= margin || (val == 0.0 && last != val)
  }

  function Next(margin: real, last: real, val: real): real {
    if Stale(margin, last, val) then val else last
  }

  /** What a filter guarantees about the value a client holds. */
  ghost predicate Close(margin: real, last: real, val: real) {
    Abs(last - val) < margin && (val == 0.0 ==> last == 0.0)
  }

  /** The contents of a filter, as a value. */
  datatype Shadow = Numeric(margin: real, last: map<Client, real>) | Discrete(text: map<Client, string>) {
    function Keys(): set<Client> {
      match this
      case Numeric(_, last) => last.Keys
      case Discrete(text) => text.Keys
    }

    /** The conversion of value does not throw. */
    predicate Reads(value: string) {
      Numeric? ==> Stof(value).Some?
    }

    function Add(c: Client): Shadow {
      match this
      case Numeric(margin, last) => Numeric(margin, last[c := 0.0])
      case Discrete(text) => Discrete(text[c := ""])
    }

    function Remove(c: Client): Shadow {
      match this
      case Numeric(margin, last) => Numeric(margin, last - {c})
      case Discrete(text) => Discrete(text - {c})
    }

    function Outdated(value: string): set<Client>
      requires Reads(value)
    {
      match this
      case Numeric(margin, last) => set c | c in last && Stale(margin, last[c], Stof(value).value)
      case Discrete(text) => set c | c in text && text[c] != value
    }

    function Refresh(value: string): Shadow
      requires Reads(value)
    {
      match this
      case Numeric(margin, last) => Numeric(margin, map c | c in last :: Next(margin, last[c], Stof(value).value))
      case Discrete(text) => Discrete(map c | c in text :: value)
    }

    /** Every client of the filter holds value, exactly or to within the margin. */
    ghost predicate InSync(value: string) {
      match this
      case Numeric(margin, last) =>
        Stof(value).Some? && forall c | c in last :: Close(margin, last[c], Stof(value).value)
      case Discrete(text) => forall c | c in text :: text[c] == value
    }

    /** One refresh brings everybody in sync, tells exactly those who were not, and a
        second one with the same value tells nobody. */
    lemma RefreshSyncs(value: string)
      requires Reads(value)
      requires Numeric? ==> margin > 0.0
      ensures Refresh(value).InSync(value) && Refresh(value).Keys() == Keys()
      ensures InSync(value) <==> Outdated(value) == {}
      ensures InSync(value) ==> Refresh(value) == this
      ensures Refresh(value).Refresh(value) == Refresh(value) && Refresh(value).Outdated(value) == {}
    {
      match this
      case Numeric(margin, last) =>
        var val := Stof(value).value;
        assert forall c | c in last :: c in Outdated(value) <==> !Close(margin, last[c], val);
        if InSync(value) {
          assert Refresh(value).last == last;
        }
        assert Refresh(value).Refresh(value).last == Refresh(value).last;
      case Discrete(text) =>
        assert forall c | c in text :: c in Outdated(value) <==> text[c] != value;
        if InSync(value) {
          assert Refresh(value).text == text;
        }
    }
  }

  class NumericData {
    ghost const owner: seq<string>  // the split name of the parameter it belongs to
    const margin: real
    var registers: map<Client, real>

    ghost function View(): Shadow
      reads this
    {
      Numeric(margin, registers)
    }

    constructor (defaultMargin: real, ghost owner: seq<string>)
      ensures View() == Numeric(defaultMargin, map[]) && this.owner == owner
    {
      this.owner, margin, registers := owner, defaultMargin, map[];
    }

    method AddRegister(c: Client)
      modifies this
      ensures View() == old(View()).Add(c)
    {
      registers := registers[c := 0.0];
    }

    method Unregister(c: Client)
      modifies this
      ensures View() == old(View()).Remove(c)
    {
      registers := registers - {c};
    }

    method GetClientsToSend(value: string) returns (ok: bool, outdated: set<Client>)
      modifies this
      ensures ok == old(View()).Reads(value)
      ensures !ok ==> View() == old(View())
      ensures ok ==> outdated == old(View()).Outdated(value) && View() == old(View()).Refresh(value)
      ensures forall c | ok && c in old(registers) ::
                var last, val := old(registers)[c], Stof(value).value;
                c in outdated <==> last - val >= margin || val - last >= margin || (val == 0.0 && last != 0.0)
    {
      outdated := {};
      var parsed := Stof(value);
      if parsed.None? {
        return false, {};  // stof throws
      }
      var val, todo := parsed.value, registers.Keys;
      while todo != {}
        invariant todo <= registers.Keys == old(registers).Keys
        invariant forall c | c in todo :: registers[c] == old(registers)[c]
        invariant forall c | c in registers && c !in todo :: registers[c] == Next(margin, old(registers)[c], val)
        invariant outdated == set c | c in old(registers) && c !in todo && Stale(margin, old(registers)[c], val)
      {
        var c :| c in todo;
        todo := todo - {c};
        if Abs(registers[c] - val) >= margin || (val == 0.0 && registers[c] != val) {
          outdated := outdated + {c};
          registers := registers[c := val];
        }
      }
      ok := true;
    }
  }

  class DiscreteData {
    ghost const owner: seq<string>  // the split name of the parameter it belongs to
    var registers: map<Client, string>

    ghost function View(): Shadow
      reads this
    {
      Discrete(registers)
    }

    constructor (ghost owner: seq<string>)
      ensures View() == Discrete(map[]) && this.owner == owner
    {
      this.owner, registers := owner, map[];
    }

    method AddRegister(c: Client)
      modifies this
      ensures View() == old(View()).Add(c)
    {
      registers := registers[c := ""];
    }

    method Unregister(c: Client)
      modifies this
      ensures View() == old(View()).Remove(c)
    {
      registers := registers - {c};
    }

    method GetClientsToSend(value: string) returns (outdated: set<Client>)
      modifies this
      ensures outdated == old(View()).Outdated(value) && View() == old(View()).Refresh(value)
    {
      outdated := {};
      var todo := registers.Keys;
      while todo != {}
        invariant todo <= registers.Keys == old(registers).Keys
        invariant forall c | c in todo :: registers[c] == old(registers)[c]
        invariant forall c | c in registers && c !in todo :: registers[c] == value
        invariant outdated == set c | c in old(registers) && c !in todo && old(registers)[c] != value
      {
        var c :| c in todo;
        todo := todo - {c};
        if registers[c] != value {
          outdated := outdated + {c};
          registers := registers[c := value];
        }
      }
    }
  }
}

/** What a numeric filter guarantees over whole sequences of values. */
module FilterLaws {
  import opened Base
  import opened Filters

  /** The entry of a client that was held, after the values vs. */
  function Kept(margin: real, held: real, vs: seq<real>): real {
    if vs == [] then held else Next(margin, Kept(margin, held, vs[..|vs| - 1]), vs[|vs| - 1])
  }

  /** The values pushed meanwhile, in order. */
  function Sent(margin: real, held: real, vs: seq<real>): seq<real> {
    if vs == [] then []
    else
      var before, val := vs[..|vs| - 1], vs[|vs| - 1];
      Sent(margin, held, before) + if Stale(margin, Kept(margin, held, before), val) then [val] else []
  }

  /** The same from the client's registration on, when its entry is 0. */
  function Held(margin: real, vs: seq<real>): real { Kept(margin, 0.0, vs) }

  function Pushes(margin: real, vs: seq<real>): seq<real> { Sent(margin, 0.0, vs) }

  /** How many of those pushes moved the client's value by at least the margin. */
  function Jumps(margin: real, vs: seq<real>): nat {
    if vs == [] then 0
    else
      var before, val := vs[..|vs| - 1], vs[|vs| - 1];
      Jumps(margin, before) + if Abs(Held(margin, before) - val) >= margin then 1 else 0
  }

  function Current(vs: seq<real>): real {
    if vs == [] then 0.0 else vs[|vs| - 1]
  }

  /** Total variation of vs, starting from 0. */
  function Variation(vs: seq<real>): real {
    if vs == [] then 0.0
    else Variation(vs[..|vs| - 1]) + Abs(Current(vs) - Current(vs[..|vs| - 1]))
  }

  /** However long the sequence, a client is never further than the margin from the
      current value, holds 0 when it is 0, and holds what was pushed last. */
  lemma {:induction false} NoDrift(margin: real, vs: seq<real>)
    requires margin > 0.0
    ensures Close(margin, Held(margin, vs), Current(vs))
    ensures -margin < Held(margin, vs) - Current(vs) < margin && (Current(vs) == 0.0 ==> Held(margin, vs) == 0.0)
    ensures Held(margin, vs) == Current(Pushes(margin, vs))
    decreases |vs|
  {
    if vs != [] {
      NoDrift(margin, vs[..|vs| - 1]);
    }
  }

  /** A margin's worth for every jump. */
  function Cost(margin: real, vs: seq<real>): real {
    if vs == [] then 0.0
    else
      var before := vs[..|vs| - 1];
      Cost(margin, before) + if Abs(Held(margin, before) - vs[|vs| - 1]) >= margin then margin else 0.0
  }

  function Times(n: nat, margin: real): real {
    if n == 0 then 0.0 else Times(n - 1, margin) + margin
  }

  lemma {:induction false} TimesIsProduct(n: nat, margin: real)
    ensures Times(n, margin) == n as real * margin
  {
    if n > 0 {
      TimesIsProduct(n - 1, margin);
      assert (n as real - 1.0) * margin == n as real * margin - margin;
    }
  }

  function Price(n: nat, margin: real): real { n as real * margin }

  lemma Priced(n: nat, margin: real, cost: real, slack: real, spent: real)
    requires cost == Times(n, margin) && cost + slack <= spent
    ensures Price(n, margin) <= spent - slack
  {
    TimesIsProduct(n, margin);
  }

  lemma {:induction false} CostIsJumps(margin: real, vs: seq<real>)
    ensures Cost(margin, vs) == Times(Jumps(margin, vs), margin)
    decreases |vs|
  {
    if vs != [] {
      CostIsJumps(margin, vs[..|vs| - 1]);
    }
  }

  lemma {:induction false} CostIsCovered(margin: real, vs: seq<real>)
    requires margin > 0.0
    ensures Cost(margin, vs) + Abs(Held(margin, vs) - Current(vs)) <= Variation(vs)
    decreases |vs|
  {
    if vs != [] {
      CostIsCovered(margin, vs[..|vs| - 1]);
    }
  }

  /** The pushes that move a client by the margin or more cost at most the variation
      of the value: the slack is the distance still unreported. */
  lemma Economy(margin: real, vs: seq<real>)
    requires margin > 0.0
    ensures Price(Jumps(margin, vs), margin) <= Variation(vs) - Abs(Held(margin, vs) - Current(vs))
  {
    CostIsJumps(margin, vs);
    CostIsCovered(margin, vs);
    Priced(Jumps(margin, vs), margin, Cost(margin, vs), Abs(Held(margin, vs) - Current(vs)), Variation(vs));
  }

  /** The pushes that moved the client's value by less than the margin. */
  function SmallPushes(margin: real, vs: seq<real>): seq<real> {
    if vs == [] then []
    else
      var before, val := vs[..|vs| - 1], vs[|vs| - 1];
      var held := Held(margin, before);
      SmallPushes(margin, before) + if Stale(margin, held, val) && Abs(held - val) < margin then [val] else []
  }

  function Zeros(vs: seq<real>): nat {
    if vs == [] then 0 else Zeros(vs[..|vs| - 1]) + if vs[|vs| - 1] == 0.0 then 1 else 0
  }

  /** Every push is a jump or reports 0, so there are at most as many pushes as jumps and zeros. */
  lemma {:induction false} SmallPushesReportZero(margin: real, vs: seq<real>)
    requires margin > 0.0
    ensures forall k | 0 <= k < |SmallPushes(margin, vs)| :: SmallPushes(margin, vs)[k] == 0.0
    ensures |Pushes(margin, vs)| == Jumps(margin, vs) + |SmallPushes(margin, vs)|
    ensures |SmallPushes(margin, vs)| <= Zeros(vs)
    decreases |vs|
  {
    if vs != [] {
      SmallPushesReportZero(margin, vs[..|vs| - 1]);
    }
  }

  /** Repeating the value pushes nothing. */
  lemma RepeatIsSilent(margin: real, vs: seq<real>)
    requires margin > 0.0 && vs != []
    ensures Pushes(margin, vs + [Current(vs)]) == Pushes(margin, vs)
    ensures Held(margin, vs + [Current(vs)]) == Held(margin, vs)
  {
    NoDrift(margin, vs);
    assert (vs + [Current(vs)])[..|vs|] == vs;
  }
}
