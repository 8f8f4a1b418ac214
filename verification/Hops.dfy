/** Numeric filters whose entries part from what the receiver holds: when a client registers
    again, and when a provider's lines pass through the server's filter. */
module Hops {
  import opened Base
  import opened Filters
  import opened FilterLaws

  /** What a receiver that held shown has after the values vs, when the sender's entry for it
      was entry. */
  function Shown(margin: real, entry: real, shown: real, vs: seq<real>): real {
    if vs == [] then shown
    else
      var before, val := vs[..|vs| - 1], vs[|vs| - 1];
      if Stale(margin, Kept(margin, entry, before), val) then val else Shown(margin, entry, shown, before)
  }

  /** Whatever values come next, the receiver has them to within bound, and 0 exactly. */
  ghost predicate StaysClose(margin: real, entry: real, shown: real) {
    forall more: seq<real> | more != [] :: Close(margin, Shown(margin, entry, shown, more), Current(more))
  }

  lemma {:induction false} InStep(margin: real, held: real, vs: seq<real>)
    ensures Shown(margin, held, held, vs) == Kept(margin, held, vs)
    ensures margin > 0.0 && vs != [] ==> Close(margin, Kept(margin, held, vs), Current(vs))
    decreases |vs|
  {
    if vs != [] {
      InStep(margin, held, vs[..|vs| - 1]);
    }
  }

  lemma OneValue(margin: real, entry: real, shown: real, val: real)
    ensures Current([val]) == val && Kept(margin, entry, [val]) == Next(margin, entry, val)
    ensures Shown(margin, entry, shown, [val]) == if Stale(margin, entry, val) then val else shown
    ensures Sent(margin, entry, [val]) == if Stale(margin, entry, val) then [val] else []
  {
    assert [val][..0] == [];
  }

  /** A value near the entry, on the side away from shown. */
  function Beyond(entry: real, shown: real, distance: real): real {
    if shown < entry then entry + distance else entry - distance
  }

  /** A filter serves a receiver for ever exactly when its entry is what the receiver holds. */
  lemma SoundForEver(margin: real, entry: real, shown: real)
    requires margin > 0.0
    ensures StaysClose(margin, entry, shown) <==> entry == shown
  {
    if entry == shown {
      forall more: seq<real> | more != []
        ensures Close(margin, Shown(margin, entry, shown, more), Current(more))
      {
        InStep(margin, entry, more);
      }
    } else {
      var val := FailsAt(margin, entry, shown);
      OneValue(margin, entry, shown, val);
      assert !Close(margin, Shown(margin, entry, shown, [val]), Current([val]));
    }
  }

  /** Entries apart from what is held fail on some value that is not sent. */
  lemma FailsAt(margin: real, entry: real, shown: real) returns (val: real)
    requires margin > 0.0 && entry != shown
    ensures !Stale(margin, entry, val) && !Close(margin, shown, val)
  {
    var apart := Abs(entry - shown);
    if entry == 0.0 {
      val := 0.0;
    } else if apart >= margin {
      val := entry;
    } else {
      val := Beyond(entry, shown, margin - apart / 2.0);
      if val == 0.0 {
        val := Beyond(entry, shown, margin - apart / 4.0);
      }
    }
  }

  /** A registration that sends nothing (ParameterManager::function_call) is harmless to a client
      that held the entry, whatever follows, exactly when that was 0. */
  lemma ResetIsSafe(margin: real, held: real)
    requires margin > 0.0
    ensures StaysClose(margin, 0.0, held) <==> held == 0.0
  {
    SoundForEver(margin, 0.0, held);
  }

  /** A registration that is followed by sending the value (the server's) is harmless exactly
      when the client held 0 or the value is sent. */
  lemma ReregistrationIsSafe(margin: real, held: real, val: real)
    requires margin > 0.0
    ensures StaysClose(margin, Next(margin, 0.0, val), if Stale(margin, 0.0, val) then val else held)
            <==> held == 0.0 || Abs(val) >= margin
  {
    SoundForEver(margin, Next(margin, 0.0, val), if Stale(margin, 0.0, val) then val else held);
  }

  // ---- a provider's filter and the server's ----

  /** What happens to the provider's entry for the server: a value to send, the announcement of a
      topic that covers the parameter, on which the provider registers the server, again or for
      the first time, or a retraction that covers it, on which it unregisters the server. */
  datatype Change = Value(val: real) | Announced | Retracted

  function Provided(margin: real, fs: seq<Change>): Option<real> {
    if fs == [] then None
    else
      match fs[|fs| - 1]
      case Value(val) =>
        var entry := Provided(margin, fs[..|fs| - 1]);
        if entry.Some? then Some(Next(margin, entry.value, val)) else None
      case Announced => Some(0.0)
      case Retracted => None
  }

  /** Without an entry nothing is kept, and nothing is sent. */
  function KeptBy(margin: real, entry: Option<real>, vs: seq<real>): Option<real> {
    if entry.Some? then Some(Kept(margin, entry.value, vs)) else None
  }

  function SentBy(margin: real, entry: Option<real>, vs: seq<real>): seq<real> {
    if entry.Some? then Sent(margin, entry.value, vs) else []
  }

  /** The provider has an entry exactly when the latest it was told is an announcement. */
  function Listening(fs: seq<Change>): bool {
    fs != [] && if fs[|fs| - 1].Value? then Listening(fs[..|fs| - 1]) else fs[|fs| - 1].Announced?
  }

  lemma {:induction false} ListeningIsProvided(margin: real, fs: seq<Change>)
    ensures Provided(margin, fs).Some? <==> Listening(fs)
    decreases |fs|
  {
    if fs != [] {
      ListeningIsProvided(margin, fs[..|fs| - 1]);
    }
  }

  /** What may happen to a filter: a value to send, or a client that comes or goes. */
  datatype Use = Feed(text: string) | Join(c: Client) | Quit(c: Client)

  /** The values fed are numbers. */
  predicate Readable(uses: seq<Use>) {
    forall k | 0 <= k < |uses| :: uses[k].Feed? ==> Stof(uses[k].text).Some?
  }

  function Used(s: Shadow, uses: seq<Use>): (used: Shadow)
    requires Readable(uses)
    ensures used.Numeric? == s.Numeric? && (s.Numeric? ==> used.margin == s.margin)
  {
    if uses == [] then s
    else
      var before := Used(s, uses[..|uses| - 1]);
      match uses[|uses| - 1]
      case Feed(text) => before.Refresh(text)
      case Join(d) => before.Add(d)
      case Quit(d) => before.Remove(d)
  }

  /** What of it concerns one client. */
  function Concerns(uses: seq<Use>, c: Client): seq<Change>
    requires Readable(uses)
  {
    if uses == [] then []
    else
      var before := Concerns(uses[..|uses| - 1], c);
      match uses[|uses| - 1]
      case Feed(text) => before + [Value(Stof(text).value)]
      case Join(d) => if d == c then before + [Announced] else before
      case Quit(d) => if d == c then before + [Retracted] else before
  }

  function EntryOf(s: Shadow, c: Client): Option<real>
    requires s.Numeric?
  {
    if c in s.last then Some(s.last[c]) else None
  }

  /** What a filter remembers of a client follows from the values since the client's latest
      registration alone, whoever else comes and goes between them. */
  lemma {:induction false} FilterHolds(s: Shadow, c: Client, uses: seq<Use>)
    requires s.Numeric? && c !in s.last && Readable(uses)
    ensures EntryOf(Used(s, uses), c) == Provided(s.margin, Concerns(uses, c))
    decreases |uses|
  {
    if uses != [] {
      var before := uses[..|uses| - 1];
      FilterHolds(s, c, before);
      var changes := Concerns(before, c);
      assert forall change :: (changes + [change])[..|changes|] == changes;
    }
  }

  /** The lines the provider writes. */
  function Lines(margin: real, fs: seq<Change>): seq<real> {
    if fs == [] then []
    else
      var before := fs[..|fs| - 1];
      match fs[|fs| - 1]
      case Value(val) =>
        var entry := Provided(margin, before);
        Lines(margin, before) + if entry.Some? && Stale(margin, entry.value, val) then [val] else []
      case Announced => Lines(margin, before)
      case Retracted => Lines(margin, before)
  }

  function Feeds(vs: seq<real>): (fs: seq<Change>)
    ensures |fs| == |vs| && forall k | 0 <= k < |fs| :: fs[k] == Value(vs[k])
  {
    seq(|vs|, k requires 0 <= k < |vs| => Value(vs[k]))
  }

  /** The value held by a subscriber that registered after the first k lines: the server offers
      the current value on registration, and every later line afterwards. */
  function Relayed(margin: real, lines: seq<real>, k: nat): real
    requires k <= |lines|
  {
    Held(margin, lines[if k == 0 then 0 else k - 1..])
  }

  /** The provider has an entry for the server, which is this near to what the subscriber holds. */
  predicate Settled(margin: real, entry: Option<real>, relayed: real) {
    entry.Some? && if entry.value == 0.0 then relayed == 0.0 else Abs(relayed - entry.value) <= margin
  }

  /** The value the subscriber has after more values. */
  function Through(margin: real, entry: Option<real>, relayed: real, more: seq<real>): real {
    Kept(margin, relayed, SentBy(margin, entry, more))
  }

  ghost predicate StaysCloseTwice(margin: real, entry: Option<real>, relayed: real) {
    forall more: seq<real> | more != [] ::
      Close(2.0 * margin, Through(margin, entry, relayed, more), Current(more))
  }

  lemma {:induction false} SettledStays(margin: real, entry: Option<real>, relayed: real, more: seq<real>)
    requires margin > 0.0 && Settled(margin, entry, relayed)
    ensures Settled(margin, KeptBy(margin, entry, more), Through(margin, entry, relayed, more))
    ensures more != [] ==> Close(2.0 * margin, Through(margin, entry, relayed, more), Current(more))
    decreases |more|
  {
    if more != [] {
      var before, val := more[..|more| - 1], more[|more| - 1];
      SettledStays(margin, entry, relayed, before);
      var lines := SentBy(margin, entry, before);
      assert (lines + [val])[..|lines|] == lines;
      assert lines + [] == lines;
    }
  }

  /** From any moment on, the subscriber keeps the provider's values to within twice the margin,
      and 0 exactly, for every continuation, exactly when it is settled at that moment. */
  lemma SettledForEver(margin: real, entry: Option<real>, relayed: real)
    requires margin > 0.0
    ensures StaysCloseTwice(margin, entry, relayed) <==> Settled(margin, entry, relayed)
  {
    if Settled(margin, entry, relayed) {
      forall more: seq<real> | more != []
        ensures Close(2.0 * margin, Through(margin, entry, relayed, more), Current(more))
      {
        SettledStays(margin, entry, relayed, more);
      }
    } else {
      var val := UnsettledAt(margin, entry, relayed);
      OneValue(margin, if entry.Some? then entry.value else 0.0, relayed, val);
      assert !Close(2.0 * margin, Through(margin, entry, relayed, [val]), Current([val]));
    }
  }

  lemma UnsettledAt(margin: real, entry: Option<real>, relayed: real) returns (val: real)
    requires margin > 0.0 && !Settled(margin, entry, relayed)
    ensures (entry.Some? ==> !Stale(margin, entry.value, val)) && !Close(2.0 * margin, relayed, val)
  {
    if entry.None? {
      val := relayed + 2.0 * margin;
    } else if entry.value == 0.0 {
      val := 0.0;
    } else {
      var apart := Abs(relayed - entry.value);
      var near := if apart >= 2.0 * margin then 0.0 else 2.0 * margin - apart;
      val := Beyond(entry.value, relayed, near);
      if val == 0.0 {
        val := Beyond(entry.value, relayed, (near + margin) / 2.0);
      }
    }
  }

  lemma {:induction false} Onwards(margin: real, held: real, vs: seq<real>, more: seq<real>)
    ensures Kept(margin, held, vs + more) == Kept(margin, Kept(margin, held, vs), more)
    ensures Sent(margin, held, vs + more) == Sent(margin, held, vs) + Sent(margin, Kept(margin, held, vs), more)
    decreases |more|
  {
    if more == [] {
      assert vs + more == vs;
    } else {
      assert (vs + more)[..|vs + more| - 1] == vs + more[..|more| - 1];
      Onwards(margin, held, vs, more[..|more| - 1]);
    }
  }

  lemma {:induction false} ProvidedOnwards(margin: real, fs: seq<Change>, more: seq<real>)
    ensures Provided(margin, fs + Feeds(more)) == KeptBy(margin, Provided(margin, fs), more)
    ensures Lines(margin, fs + Feeds(more)) == Lines(margin, fs) + SentBy(margin, Provided(margin, fs), more)
    decreases |more|
  {
    if more == [] {
      assert fs + Feeds(more) == fs;
    } else {
      var before := more[..|more| - 1];
      assert (fs + Feeds(more))[..|fs + Feeds(more)| - 1] == fs + Feeds(before);
      ProvidedOnwards(margin, fs, before);
    }
  }

  lemma RelayedOnwards(margin: real, lines: seq<real>, k: nat, more: seq<real>)
    requires k <= |lines|
    ensures Relayed(margin, lines + more, k) == Kept(margin, Relayed(margin, lines, k), more)
  {
    var from := if k == 0 then 0 else k - 1;
    assert (lines + more)[from..] == lines[from..] + more;
    Onwards(margin, 0.0, lines[from..], more);
  }

  /** The subscriber of the first k lines stays within twice the margin, and exact at 0, whatever
      values follow. */
  ghost predicate ReachesAlways(margin: real, fs: seq<Change>, k: nat) {
    forall more: seq<real> | more != [] ::
      var lines := Lines(margin, fs + Feeds(more));
      k <= |lines| && Close(2.0 * margin, Relayed(margin, lines, k), Current(more))
  }

  /** The bound for two hops holds from any moment on exactly when the provider has an entry and
      the subscriber is settled then, whatever was announced and retracted before. */
  lemma TwoHops(margin: real, fs: seq<Change>, k: nat)
    requires margin > 0.0 && k <= |Lines(margin, fs)|
    ensures ReachesAlways(margin, fs, k)
            <==> Settled(margin, Provided(margin, fs), Relayed(margin, Lines(margin, fs), k))
  {
    var entry, relayed := Provided(margin, fs), Relayed(margin, Lines(margin, fs), k);
    SettledForEver(margin, entry, relayed);
    forall more: seq<real>
      ensures var lines := Lines(margin, fs + Feeds(more));
              k <= |lines| && Relayed(margin, lines, k) == Through(margin, entry, relayed, more)
    {
      ProvidedOnwards(margin, fs, more);
      RelayedOnwards(margin, Lines(margin, fs), k, SentBy(margin, entry, more));
    }
  }

  /** When the provider has written nothing before an announcement, and nothing is announced or
      retracted after it, the bound holds, whenever the subscriber joins. */
  lemma TwoHopsUndisturbed(margin: real, fs: seq<Change>, vs: seq<real>, k: nat)
    requires margin > 0.0 && Lines(margin, fs) == [] && k <= |Lines(margin, fs + [Announced] + Feeds(vs))|
    ensures Close(2.0 * margin, Relayed(margin, Lines(margin, fs + [Announced] + Feeds(vs)), k), Current(vs))
  {
    hide Provided, Lines, Sent;
    AfterAnnouncement(margin, fs);
    ProvidedOnwards(margin, fs + [Announced], vs);
    var lines := Sent(margin, 0.0, vs);
    assert [] + lines == lines;
    var rest := lines[if k == 0 then 0 else k - 1..];
    NoDrift(margin, vs);
    NoDrift(margin, rest);
    assert lines != [] ==> Current(rest) == Current(lines);
  }

  lemma AfterAnnouncement(margin: real, fs: seq<Change>)
    ensures Provided(margin, fs + [Announced]) == Some(0.0) && Lines(margin, fs + [Announced]) == Lines(margin, fs)
  {
    assert (fs + [Announced])[..|fs|] == fs;
  }

  /** An announcement is harmless to a subscriber exactly when the subscriber holds 0. */
  lemma AnnouncementIsSafe(margin: real, fs: seq<Change>, k: nat)
    requires margin > 0.0 && k <= |Lines(margin, fs)|
    ensures Lines(margin, fs + [Announced]) == Lines(margin, fs)
    ensures ReachesAlways(margin, fs + [Announced], k) <==> Relayed(margin, Lines(margin, fs), k) == 0.0
  {
    AfterAnnouncement(margin, fs);
    TwoHops(margin, fs + [Announced], k);
  }

  /** A retraction is harmful to every subscriber, until the next announcement. */
  lemma RetractionIsHarmful(margin: real, fs: seq<Change>, vs: seq<real>, k: nat)
    requires margin > 0.0 && k <= |Lines(margin, fs)|
    ensures Lines(margin, fs + [Retracted] + Feeds(vs)) == Lines(margin, fs)
    ensures !ReachesAlways(margin, fs + [Retracted] + Feeds(vs), k)
  {
    assert (fs + [Retracted])[..|fs|] == fs;
    ProvidedOnwards(margin, fs + [Retracted], vs);
    TwoHops(margin, fs + [Retracted] + Feeds(vs), k);
  }

  /** A subscriber whose new topic was announced between the values 0.08 and 0 keeps 0.15. */
  lemma AnnouncementBreaksTheBound()
    ensures var lines := Lines(0.1, [Announced, Value(0.15), Value(0.08), Announced] + Feeds([0.0]));
            lines == [0.15] && Relayed(0.1, lines, 1) == 0.15 && !Close(2.0 * 0.1, Relayed(0.1, lines, 1), 0.0)
  {
    var first := [Announced];
    var both := first + Feeds([0.15, 0.08]);
    var fs := both + [Announced];
    assert fs == [Announced, Value(0.15), Value(0.08), Announced];
    assert first[..0] == [] && fs[..3] == both && [0.15] + [0.08] == [0.15, 0.08];
    ProvidedOnwards(0.1, first, [0.15, 0.08]);
    Onwards(0.1, 0.0, [0.15], [0.08]);
    OneValue(0.1, 0.0, 0.0, 0.15);
    OneValue(0.1, 0.15, 0.15, 0.08);
    assert Lines(0.1, both) == [0.15];
    ProvidedOnwards(0.1, fs, [0.0]);
    OneValue(0.1, 0.0, 0.0, 0.0);
    assert [0.15] + [] == [0.15] && [0.15][0..] == [0.15];
  }
}
