/** Cutting lines out of a byte stream (client.cpp: handle, ReadLine and WriteLine;
    server.cpp: the loop that drains a client). */
module Framing {
  import opened Base
  import opened Model
  import Wire

  predicate IsBreak(c: char) { c == '\r' || c == '\n' }

  predicate Unbroken(s: string) { forall k | 0 <= k < |s| :: !IsBreak(s[k]) }

  /** find_first_of("\r\n"), with |s| for npos. */
  function FindBreak(s: string): (i: nat)
    ensures i <= |s| && Unbroken(s[..i]) && (i < |s| ==> IsBreak(s[i]))
  {
    if s == [] || IsBreak(s[0]) then 0 else 1 + FindBreak(s[1..])
  }

  /** The non-empty segments of s that a CR or an LF ends, and what follows the last of those. */
  function Lines(s: string): (lines: seq<string>)
    decreases |s|
  {
    var i := FindBreak(s);
    if i == |s| then [] else First(s, i) + Lines(s[i + 1..])
  }

  function Tail(s: string): (tail: string)
    ensures Unbroken(tail) && |tail| <= |s| && tail == s[|s| - |tail|..]
    decreases |s|
  {
    var i := FindBreak(s);
    if i == |s| then s else Tail(s[i + 1..])
  }

  lemma BreakIs(s: string, i: nat)
    requires i <= |s| && Unbroken(s[..i]) && (i < |s| ==> IsBreak(s[i]))
    ensures FindBreak(s) == i
  {
    var j := FindBreak(s);
    assert forall k | 0 <= k < i :: !IsBreak(s[k]) by {
      assert forall k | 0 <= k < i :: s[..i][k] == s[k];
    }
    assert forall k | 0 <= k < j :: !IsBreak(s[k]) by {
      assert forall k | 0 <= k < j :: s[..j][k] == s[k];
    }
    assert !(i < j) && !(j < i);
  }

  function First(s: string, i: nat): seq<string>
    requires i <= |s|
  {
    if i == 0 then [] else [s[..i]]
  }

  lemma OneLineOff(s: string, i: nat)
    requires i < |s| && FindBreak(s) == i
    ensures Lines(s) == First(s, i) + Lines(s[i + 1..]) && Tail(s) == Tail(s[i + 1..])
  {
    hide FindBreak, First, Unbroken;
  }

  lemma NoLineYet(s: string)
    requires FindBreak(s) == |s|
    ensures Lines(s) == [] && Tail(s) == s
  {}

  lemma Associative<T>(a: seq<T>, b: seq<T>, c: seq<T>)
    ensures a + (b + c) == a + b + c && [] + a == a
  {}

  /** Lines come out the same when the rest of the stream arrives later. */
  lemma {:induction false} Resume(s: string, more: string)
    ensures Lines(s + more) == Lines(s) + Lines(Tail(s) + more)
    ensures Tail(s + more) == Tail(Tail(s) + more)
    decreases |s|
  {
    hide Lines, Tail, FindBreak, First, Unbroken;
    var i := FindBreak(s);
    if i == |s| {
      NoLineYet(s);
      Associative(Lines(s + more), [], []);
    } else {
      var rest := s[i + 1..];
      SplitsThere(s, more, i);
      Resume(rest, more);
      OneLineOff(s, i);
      OneLineOff(s + more, i);
      Associative(First(s, i), Lines(rest), Lines(Tail(rest) + more));
    }
  }

  lemma SplitsThere(s: string, more: string, i: nat)
    requires i < |s| && FindBreak(s) == i
    ensures FindBreak(s + more) == i && (s + more)[i + 1..] == s[i + 1..] + more
    ensures First(s + more, i) == First(s, i)
  {
    assert (s + more)[..i] == s[..i];
    BreakIs(s + more, i);
  }

  lemma UnbrokenHasNoLines(s: string)
    requires Unbroken(s)
    ensures Lines(s) == [] && Tail(s) == s
  {
    assert s[..|s|] == s;
    BreakIs(s, |s|);
  }

  /** From i to j there is no break; one comes right after, and i is as early as it can be. */
  ghost predicate Delimited(s: string, i: nat, j: nat) {
    i < j < |s| && IsBreak(s[j]) && (forall k | i <= k < j :: !IsBreak(s[k])) && (i == 0 || IsBreak(s[i - 1]))
  }

  /** From start up to, but not including, stop. */
  datatype Span = Span(start: nat, stop: nat)

  ghost predicate Place(s: string, span: Span, line: string) {
    span.start < span.stop < |s| && Delimited(s, span.start, span.stop) && line == s[span.start..span.stop]
  }

  /** The lines are at these spans of s, which come one after the other. */
  ghost predicate Places(s: string, lines: seq<string>, spans: seq<Span>) {
    && |spans| == |lines| && (forall k | 0 <= k < |spans| :: Place(s, spans[k], lines[k]))
    && (forall j, k | 0 <= j < k < |spans| :: spans[j].stop < spans[k].start)
  }

  ghost predicate Complete(s: string, spans: seq<Span>) {
    forall i: nat, j: nat | Delimited(s, i, j) :: Span(i, j) in spans
  }

  /** The k-th line is the k-th delimited stretch, and there are no more of them. */
  lemma {:induction false} LinesAreDelimited(s: string) returns (spans: seq<Span>)
    ensures Places(s, Lines(s), spans) && Complete(s, spans)
    decreases |s|
  {
    hide Lines, Places, Complete, First, FindBreak;
    var i := FindBreak(s);
    if i < |s| {
      var rest := LinesAreDelimited(s[i + 1..]);
      OneLineOff(s, i);
      PlacesLater(s, i, Lines(s[i + 1..]), rest);
      CompleteLater(s, i, rest);
      spans := FirstSpan(i) + Moved(rest, i + 1);
    } else {
      NoLineYet(s);
      spans := [];
      NothingDelimited(s);
    }
  }

  function FirstSpan(i: nat): seq<Span> { if i == 0 then [] else [Span(0, i)] }

  function Moved(spans: seq<Span>, d: nat): (moved: seq<Span>)
    ensures |moved| == |spans| && forall k | 0 <= k < |spans| :: moved[k] == Span(spans[k].start + d, spans[k].stop + d)
  {
    seq(|spans|, k requires 0 <= k < |spans| => Span(spans[k].start + d, spans[k].stop + d))
  }

  lemma NothingDelimited(s: string)
    requires FindBreak(s) == |s|
    ensures Places(s, [], []) && Complete(s, [])
  {
    assert s[..|s|] == s;
  }

  lemma PlacesLater(s: string, i: nat, lines: seq<string>, rest: seq<Span>)
    requires i < |s| && FindBreak(s) == i && Places(s[i + 1..], lines, rest)
    ensures Places(s, First(s, i) + lines, FirstSpan(i) + Moved(rest, i + 1))
  {
    hide FindBreak, Place, Places, Moved;
    PlacesMove(s, i, lines, rest);
    if i == 0 {
      assert First(s, i) + lines == lines && FirstSpan(i) + Moved(rest, i + 1) == Moved(rest, i + 1);
    } else {
      FirstIsPlaced(s, i);
      PlacesFirst(s, Span(0, i), s[..i], lines, Moved(rest, i + 1));
    }
  }

  lemma PlacesMove(s: string, i: nat, lines: seq<string>, rest: seq<Span>)
    requires i < |s| && FindBreak(s) == i && Places(s[i + 1..], lines, rest)
    ensures Places(s, lines, Moved(rest, i + 1)) && forall span | span in Moved(rest, i + 1) :: span.start > i
  {
    hide FindBreak, Place;
    forall k | 0 <= k < |rest|
      ensures Place(s, Moved(rest, i + 1)[k], lines[k])
    {
      PlaceMoves(s, i, rest[k], lines[k]);
    }
  }

  lemma PlacesFirst(s: string, span: Span, line: string, lines: seq<string>, spans: seq<Span>)
    requires Place(s, span, line) && Places(s, lines, spans) && forall later | later in spans :: span.stop < later.start
    ensures Places(s, [line] + lines, [span] + spans)
  {
    hide Place;
  }

  lemma PlaceMoves(s: string, i: nat, span: Span, line: string)
    requires i < |s| && FindBreak(s) == i && Place(s[i + 1..], span, line)
    ensures Place(s, Span(span.start + i + 1, span.stop + i + 1), line)
  {
    hide FindBreak, Delimited;
    Shift(s, i + 1, span.start, span.stop);
  }

  lemma FirstIsPlaced(s: string, i: nat)
    requires i < |s| && FindBreak(s) == i
    ensures i > 0 ==> Place(s, Span(0, i), s[..i])
  {
    assert forall m | 0 <= m < i :: s[..i][m] == s[m];
  }

  lemma CompleteLater(s: string, i: nat, rest: seq<Span>)
    requires i < |s| && FindBreak(s) == i && Complete(s[i + 1..], rest)
    ensures Complete(s, FirstSpan(i) + Moved(rest, i + 1))
  {
    hide FindBreak, Delimited, Moved, FirstSpan;
    forall j: nat, k: nat | Delimited(s, j, k)
      ensures Span(j, k) in FirstSpan(i) + Moved(rest, i + 1)
    {
      DelimitedThere(s, i, j, k);
      SpanThere(rest, i, Span(j, k));
    }
  }

  lemma DelimitedThere(s: string, i: nat, j: nat, k: nat)
    requires i < |s| && FindBreak(s) == i && Delimited(s, j, k)
    ensures if j == 0 then k == i && i > 0 else i < j < k && Delimited(s[i + 1..], j - i - 1, k - i - 1)
  {
    Earliest(s, i, j, k);
    if j > 0 {
      Shift(s, i + 1, j - i - 1, k - i - 1);
    }
  }

  lemma SpanThere(rest: seq<Span>, i: nat, span: Span)
    requires if span.start == 0 then span.stop == i && i > 0
             else i < span.start < span.stop && Span(span.start - i - 1, span.stop - i - 1) in rest
    ensures span in FirstSpan(i) + Moved(rest, i + 1)
  {
    if span.start == 0 {
      assert FirstSpan(i)[0] == span;
    } else {
      var k :| 0 <= k < |rest| && rest[k] == Span(span.start - i - 1, span.stop - i - 1);
      assert Moved(rest, i + 1)[k] == span;
    }
  }

  lemma Earliest(s: string, i: nat, j: nat, k: nat)
    requires i < |s| && FindBreak(s) == i && Delimited(s, j, k)
    ensures j < k < |s| && if j == 0 then k == i else j > i
  {
    assert forall m | 0 <= m < i :: !IsBreak(s[m]) by {
      assert forall m | 0 <= m < i :: s[..i][m] == s[m];
    }
  }

  lemma Shift(s: string, d: nat, j: nat, k: nat)
    requires 0 < d <= |s| && IsBreak(s[d - 1]) && k < |s| - d && j < k
    ensures Delimited(s[d..], j, k) <==> Delimited(s, j + d, k + d)
    ensures s[d..][j..k] == s[j + d..k + d]
  {
    var rest := s[d..];
    assert forall m | 0 <= m < |rest| :: rest[m] == s[m + d];
    if Delimited(rest, j, k) {
      assert forall m | j + d <= m < k + d :: s[m] == rest[m - d];
    }
  }

  function WithoutBreaks(s: string): string {
    if s == [] then [] else if IsBreak(s[0]) then WithoutBreaks(s[1..]) else [s[0]] + WithoutBreaks(s[1..])
  }

  /** Nothing but breaks is lost, and nothing is reordered. */
  lemma {:induction false} NothingIsLost(s: string)
    ensures WithoutBreaks(s) == Flatten(Lines(s)) + Tail(s)
    decreases |s|
  {
    hide Lines, Tail, First, Flatten, Unbroken, WithoutBreaks;
    var i := FindBreak(s);
    UpToBreak(s, i);
    if i < |s| {
      BreakIsDropped(s, i);
      NothingIsLost(s[i + 1..]);
      OneLineOff(s, i);
      FlattenFirst(s, i, Lines(s[i + 1..]));
      Associative(s[..i], Flatten(Lines(s[i + 1..])), Tail(s[i + 1..]));
    } else {
      NoLineYet(s);
      FlattenNothing(s);
    }
  }

  lemma FlattenFirst(s: string, i: nat, more: seq<string>)
    requires i <= |s|
    ensures Flatten(First(s, i) + more) == s[..i] + Flatten(more)
  {
    if i > 0 {
      assert ([s[..i]] + more)[1..] == more;
    } else {
      assert First(s, i) + more == more;
    }
  }

  lemma BreakIsDropped(s: string, i: nat)
    requires i < |s| && IsBreak(s[i])
    ensures WithoutBreaks(s[i..]) == WithoutBreaks(s[i + 1..])
  {
    assert s[i..][1..] == s[i + 1..];
  }

  lemma FlattenNothing(s: string)
    ensures s[..|s|] + WithoutBreaks(s[|s|..]) == Flatten([]) + s
  {}

  lemma {:induction false} UpToBreak(s: string, i: nat)
    requires i <= |s| && Unbroken(s[..i])
    ensures WithoutBreaks(s) == s[..i] + WithoutBreaks(s[i..])
  {
    if i == 0 {
      assert s[..i] == [] && s[i..] == s;
    } else {
      assert s[..i][0] == s[0] && s[..i][1..] == s[1..][..i - 1];
      UpToBreak(s[1..], i - 1);
      assert s[..i] == [s[0]] + s[1..][..i - 1] && s[1..][i - 1..] == s[i..];
    }
  }

  // ---- what arrives ----

  /** Appending a char array to a string stops at the first NUL. */
  function BeforeNul(data: string): string {
    if data == [] || data[0] == '\0' then [] else [data[0]] + BeforeNul(data[1..])
  }

  function Flatten(chunks: seq<string>): string {
    if chunks == [] then [] else chunks[0] + Flatten(chunks[1..])
  }

  function Received(chunks: seq<string>): string {
    if chunks == [] then [] else BeforeNul(chunks[0]) + Received(chunks[1..])
  }

  lemma {:induction false} BeforeNulIsWhole(data: string)
    ensures BeforeNul(data) <= data && '\0' !in BeforeNul(data)
    ensures if '\0' in data then |BeforeNul(data)| < |data|
            && data[|BeforeNul(data)|] == '\0' else BeforeNul(data) == data
  {
    if data != [] {
      BeforeNulIsWhole(data[1..]);
      assert data == [data[0]] + data[1..];
    }
  }

  /** The stream arrives whole exactly when it has no NUL. */
  lemma {:induction false} ReceivedIsWhole(chunks: seq<string>)
    ensures |Received(chunks)| <= |Flatten(chunks)|
    ensures Received(chunks) == Flatten(chunks) <==> '\0' !in Flatten(chunks)
  {
    if chunks != [] {
      var head, rest := chunks[0], chunks[1..];
      BeforeNulIsWhole(head);
      ReceivedIsWhole(rest);
      if '\0' !in head {
        assert Received(chunks)[|head|..] == Received(rest) && Flatten(chunks)[|head|..] == Flatten(rest);
      }
    }
  }

  // ---- a connection ----

  /** The outcome of asking the poller and the socket: nothing, a poll error, end of file
      or a read error, a read to be tried again, or bytes. */
  datatype Arrival = Nothing | PollError | Closed | TryAgain | Bytes(data: string)

  function Text(a: Arrival): string { if a.Bytes? then BeforeNul(a.data) else [] }

  lemma Arrives(s: string, a: Arrival)
    ensures s + Text(a) == if a.Bytes? then s + BeforeNul(a.data) else s
  {}

  predicate Breaks(a: Arrival) { a.PollError? || a.Closed? }

  class Connection {
    var buff: string
    var connected: bool
    ghost const owner: Client

    constructor (ghost owner: Client)
      ensures buff == [] && connected && this.owner == owner
    {
      this.owner := owner;
      buff, connected := [], true;
    }

    method Handle(a: Arrival)
      modifies this
      ensures a.PollError? || a.Closed? ==> !connected && buff == old(buff)
      ensures a.Nothing? || a.TryAgain? ==> connected == old(connected) && buff == old(buff)
      ensures a.Bytes? ==> connected == old(connected) && buff == old(buff) + BeforeNul(a.data)
    {
      match a
      case Nothing =>
      case PollError => connected := false;
      case TryAgain =>
      case Closed => connected := false;
      case Bytes(data) => buff := buff + BeforeNul(data);
    }

    method ReadLine() returns (line: string)
      modifies this`buff
      ensures line == "" <==> Lines(old(buff)) == []
      ensures line == "" ==> buff == Tail(old(buff))
      ensures line != "" ==> Lines(old(buff)) == [line] + Lines(buff) && Tail(buff) == Tail(old(buff))
      ensures line != "" ==> |buff| < |old(buff)|
      decreases |buff|
    {
      var ind := FindBreak(buff);
      if ind < |buff| {
        line := buff[..ind];
        buff := buff[ind + 1..];
        if |line| == 0 && |buff| != 0 {
          line := ReadLine();
        }
        return;
      }
      line := "";
    }

    /** The loop of the server that takes the lines of one client. */
    method Drain() returns (lines: seq<string>)
      modifies this`buff
      ensures lines == Lines(old(buff)) && buff == Tail(old(buff))
    {
      hide Lines, Tail;
      lines := [];
      ghost var start := buff;
      var s := ReadLine();
      Associative(Lines(start), [], []);
      while s != ""
        invariant Lines(start) == lines + if s == "" then [] else [s] + Lines(buff)
        invariant if s == "" then buff == Tail(start) else Tail(buff) == Tail(start)
        decreases |buff|, s != ""
      {
        ghost var so, before, line := lines, buff, s;
        lines := lines + [s];
        Associative(so, [line], Lines(before));
        s := ReadLine();
        Associative(lines, [], []);
      }
    }

    /** Any number of arrivals, drained after each: the lines are those of the whole stream,
        however it was cut, and the buffer keeps the unterminated rest. */
    method Session(chunks: seq<string>) returns (lines: seq<string>)
      requires Unbroken(buff)
      modifies this
      ensures lines == Lines(Whole(old(buff), chunks)) && buff == Tail(Whole(old(buff), chunks))
    {
      hide Lines, Tail, Received, BeforeNul, Unbroken, Whole;
      Untouched(buff);
      ghost var start := buff;
      lines := [];
      for k := 0 to |chunks|
        invariant lines == Lines(Whole(start, chunks[..k])) && buff == Tail(Whole(start, chunks[..k]))
      {
        Handle(Bytes(chunks[k]));
        var more := Drain();
        OneMore(start, chunks, k);
        lines := lines + more;
      }
      assert chunks[..|chunks|] == chunks;
    }
  }

  /** The whole stream: what was held, and then what arrived. */
  function Whole(start: string, chunks: seq<string>): string { start + Received(chunks) }

  lemma Untouched(s: string)
    requires Unbroken(s)
    ensures Lines(Whole(s, [])) == [] && Tail(Whole(s, [])) == s
  {
    UnbrokenHasNoLines(s);
    assert s + Received([]) == s;
  }

  lemma OneMore(start: string, chunks: seq<string>, k: nat)
    requires k < |chunks|
    ensures var so := Whole(start, chunks[..k]);
            var held, all := Tail(so) + BeforeNul(chunks[k]), Whole(start, chunks[..k + 1]);
            Lines(all) == Lines(so) + Lines(held) && Tail(all) == Tail(held)
  {
    hide Lines, Tail, BeforeNul, Received;
    ReceivedAppend(chunks[..k], chunks[k]);
    assert chunks[..k + 1] == chunks[..k] + [chunks[k]];
    assert start + (Received(chunks[..k]) + BeforeNul(chunks[k]))
           == start + Received(chunks[..k]) + BeforeNul(chunks[k]);
    Resume(start + Received(chunks[..k]), BeforeNul(chunks[k]));
  }

  lemma {:induction false} ReceivedAppend(chunks: seq<string>, chunk: string)
    ensures Received(chunks + [chunk]) == Received(chunks) + BeforeNul(chunk)
  {
    if chunks != [] {
      assert (chunks + [chunk])[1..] == chunks[1..] + [chunk];
      ReceivedAppend(chunks[1..], chunk);
    }
  }

  // ---- the wire ----

  /** WriteLine puts a CR and an LF after each line. */
  function Stream(lines: seq<string>): string {
    if lines == [] then [] else lines[0] + "\r\n" + Stream(lines[1..])
  }

  lemma NothingSent()
    ensures Lines(Stream([])) == [] && Tail(Stream([])) == ""
  {}

  lemma {:induction false} StreamReadsBack(lines: seq<string>)
    requires forall k | 0 <= k < |lines| :: lines[k] != "" && Unbroken(lines[k])
    ensures Lines(Stream(lines)) == lines && Tail(Stream(lines)) == ""
  {
    hide Lines, Tail, Unbroken;
    if lines == [] {
      NothingSent();
    } else {
      StreamReadsBack(lines[1..]);
      CrLf(lines[0], Stream(lines[1..]));
      assert [lines[0]] + lines[1..] == lines;
    }
  }

  lemma CrLf(line: string, rest: string)
    requires line != "" && Unbroken(line)
    ensures var s := line + "\r\n" + rest; Lines(s) == [line] + Lines(rest) && Tail(s) == Tail(rest)
  {
    hide Lines, Tail, FindBreak;
    var s := line + "\r\n" + rest;
    CutLine(line, rest);
    BreakIs(s, |line|);
    OneLineOff(s, |line|);
    OnlyLf(rest);
  }

  lemma CutLine(line: string, rest: string)
    ensures var s := line + "\r\n" + rest;
            |line| < |s| && s[..|line|] == line && s[|line|] == '\r' && s[|line| + 1..] == "\n" + rest
  {}

  lemma OnlyLf(rest: string)
    ensures Lines("\n" + rest) == Lines(rest) && Tail("\n" + rest) == Tail(rest)
  {
    hide Lines, Tail, FindBreak;
    var lf := "\n" + rest;
    assert lf[..0] == "" && lf[1..] == rest;
    BreakIs(lf, 0);
    OneLineOff(lf, 0);
    Associative(Lines(rest), [], []);
  }

  /** The arguments of a command have no line break of their own. */
  predicate OneLine(command: Command) {
    match command
    case Register(n) => Unbroken(n)
    case Unregister(n) => Unbroken(n)
    case Get(n) => Unbroken(n)
    case NoRetain(name, value) => Unbroken(name) && Unbroken(value)
    case Assign(name, value) => Unbroken(name) && Unbroken(value)
    case Ignored => true
  }

  lemma RenderIsOneLine(command: Command)
    requires Wire.Sayable(command) && OneLine(command)
    ensures Wire.Render(command) != "" && Unbroken(Wire.Render(command))
  {
    match command
    case Register(n) => CallingIsOneLine("register", n);
    case Unregister(n) => CallingIsOneLine("unregister", n);
    case Get(n) => CallingIsOneLine("get", n);
    case NoRetain(name, value) =>
      PairIsOneLine(name, value);
      CallingIsOneLine("noretain", name + "=" + value);
    case Assign(name, value) => PairIsOneLine(name, value);
  }

  lemma CallingIsOneLine(fun: string, param: string)
    requires Unbroken(fun) && Unbroken(param)
    ensures Wire.Calling(fun, param) != "" && Unbroken(Wire.Calling(fun, param))
  {}

  lemma PairIsOneLine(name: string, value: string)
    requires Unbroken(name) && Unbroken(value)
    ensures Unbroken(name + "=" + value)
  {}

  function Rendered(commands: seq<Command>): (lines: seq<string>)
    requires forall k | 0 <= k < |commands| :: commands[k] != Ignored
    ensures |lines| == |commands| && forall k | 0 <= k < |lines| :: lines[k] == Wire.Render(commands[k])
  {
    if commands == [] then [] else [Wire.Render(commands[0])] + Rendered(commands[1..])
  }

  /** Commands written one per line are read as the same commands in the same order,
      however the bytes are cut on the way. */
  lemma WireRoundTrip(commands: seq<Command>, chunks: seq<string>)
    requires forall k {:trigger commands[k]} | 0 <= k < |commands| ::
               commands[k] != Ignored && Wire.Sayable(commands[k]) && OneLine(commands[k])
    requires Flatten(chunks) == Stream(Rendered(commands)) && '\0' !in Flatten(chunks)
    ensures Tail(Received(chunks)) == "" && |Lines(Received(chunks))| == |commands|
    ensures forall k | 0 <= k < |commands| :: Wire.Parse(Lines(Received(chunks))[k]) == commands[k]
  {
    ReceivedIsWhole(chunks);
    forall k | 0 <= k < |commands|
      ensures Rendered(commands)[k] != "" && Unbroken(Rendered(commands)[k])
      ensures Wire.Parse(Rendered(commands)[k]) == commands[k]
    {
      RenderIsOneLine(commands[k]);
      Wire.ParseInvertsRender(commands[k]);
    }
    StreamReadsBack(Rendered(commands));
  }
}
