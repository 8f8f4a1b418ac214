/** How lines read: taking a received line apart (common.cpp, ParseLine and
    ParseParenthesis) and the text of the lines a client may send. */
module Wire {
  import opened Base
  import opened Model

  function Parenthesis(line: string): (parts: Option<(string, string)>)
    ensures parts.Some? <==> '(' in line && ')' in line
  {
    var par1, par2 := FindFirst(line, '('), FindLast(line, ')');
    if par1 == |line| || par2 == |line| then None
    else Some((line[..par1], if par2 < par1 then line[par1 + 1..] else line[par1 + 1..par2]))
  }

  lemma LastIs(s: string, c: char, i: nat)
    requires i < |s| && s[i] == c && forall k | i < k < |s| :: s[k] != c
    ensures FindLast(s, c) == i
  {
    var j := FindLast(s, c);
    assert !(j < i) && !(i < j);
  }

  /** before comes before the first '(', and inside is what follows up to the last ')', or all
      that follows when every ')' comes before: then the length wraps around. */
  ghost predicate Parted(line: string, before: string, inside: string) {
    && '(' !in before
    && ((exists rest :: ')' !in rest && line == before + "(" + inside + ")" + rest)
        || (')' !in inside && line == before + "(" + inside))
  }

  /** Those are the parts that are found, and no others. */
  lemma PartsAre(line: string, before: string, inside: string)
    requires ')' in line
    ensures Parenthesis(line) == Some((before, inside)) <==> Parted(line, before, inside)
  {
    if Parted(line, before, inside) {
      if rest :| ')' !in rest && line == before + "(" + inside + ")" + rest {
        PartsInside(line, before, inside, rest);
      } else {
        PartsAfter(line, before, inside);
      }
    }
    if Parenthesis(line) == Some((before, inside)) {
      PartsFound(line);
    }
  }

  lemma PartsInside(line: string, before: string, inside: string, rest: string)
    requires '(' !in before && ')' !in rest && line == before + "(" + inside + ")" + rest
    ensures Parenthesis(line) == Some((before, inside))
  {
    var par1, par2 := |before|, |before| + 1 + |inside|;
    assert line[..par1] == before && line[par1] == '(' && line[par1 + 1..par2] == inside;
    assert line[par2] == ')' && line[par2 + 1..] == rest;
    assert forall k | 0 <= k < par1 :: line[k] == before[k];
    assert forall k | par2 < k < |line| :: line[k] == rest[k - par2 - 1];
    FirstIs(line, '(', par1);
    LastIs(line, ')', par2);
  }

  lemma PartsAfter(line: string, before: string, inside: string)
    requires '(' !in before && ')' in line && ')' !in inside && line == before + "(" + inside
    ensures Parenthesis(line) == Some((before, inside))
  {
    var par1 := |before|;
    assert line[..par1] == before && line[par1] == '(' && line[par1 + 1..] == inside;
    assert forall k | 0 <= k < par1 :: line[k] == before[k];
    assert forall k | par1 < k < |line| :: line[k] == inside[k - par1 - 1];
    FirstIs(line, '(', par1);
    assert FindLast(line, ')') < par1;
  }

  lemma PartsFound(line: string)
    requires Parenthesis(line).Some?
    ensures Parted(line, Parenthesis(line).value.0, Parenthesis(line).value.1)
  {
    hide Parted;
    var par1, par2 := FindFirst(line, '('), FindLast(line, ')');
    Spares(line, 0, par1, '(');
    if par2 < par1 {
      Spares(line, par1 + 1, |line|, ')');
      CutAt(line, par1);
      AreParts(line, line[..par1], line[par1 + 1..]);
    } else {
      Spares(line, par2 + 1, |line|, ')');
      CutTwice(line, par1, par2);
      AreParts(line, line[..par1], line[par1 + 1..par2], Some(line[par2 + 1..]));
    }
  }

  lemma AreParts(line: string, before: string, inside: string, rest: Option<string> := None)
    requires '(' !in before && ')' !in if rest.Some? then rest.value else inside
    requires line == before + "(" + inside + if rest.Some? then ")" + rest.value else ""
    ensures Parted(line, before, inside)
  {
    if rest.Some? {
      Regroup(before + "(" + inside, ")", rest.value);
    } else {
      assert line == before + "(" + inside;
    }
  }

  lemma Spares(s: string, i: nat, j: nat, c: char)
    requires i <= j <= |s| && forall k | i <= k < j :: s[k] != c
    ensures c !in s[i..j]
  {}

  lemma CutTwice(s: string, i: nat, j: nat)
    requires i < j < |s|
    ensures s == s[..i] + [s[i]] + s[i + 1..j] + ([s[j]] + s[j + 1..])
  {}

  lemma Regroup(a: string, b: string, c: string)
    ensures a + (b + c) == a + b + c
  {}

  lemma CutAt(s: string, i: nat)
    requires i < |s|
    ensures s == s[..i] + [s[i]] + s[i + 1..]
  {}

  method ParseParenthesis(line: string) returns (ok: bool, before: string, inside: string)
    ensures ok <==> '(' in line && ')' in line
    ensures ok ==> Parted(line, before, inside)
  {
    var par1, par2 := FindFirst(line, '('), FindLast(line, ')');
    if par1 == |line| || par2 == |line| {
      return false, "", "";
    }
    before := line[..par1];
    inside := if par2 < par1 then line[par1 + 1..] else line[par1 + 1..par2];
    PartsFound(line);
    ok := true;
  }

  function Call(fun: string, param: string): Command {
    if fun == "register" then Register(param)
    else if fun == "unregister" then Unregister(param)
    else if fun == "get" then Get(param)
    else if fun == "noretain" then
      var eq := FindFirst(param, '=');
      if eq == |param| then Ignored else NoRetain(param[..eq], param[eq + 1..])
    else Ignored
  }

  function Parse(line: string): Command {
    var eq := FindFirst(line, '=');
    if FindFirst(line, '(') < eq && Parenthesis(line).Some? then
      var (fun, param) := Parenthesis(line).value;
      Call(fun, param)
    else if eq == |line| || line[..eq] == "connected" then Ignored
    else Assign(line[..eq], line[eq + 1..])
  }

  function Calling(fun: string, param: string): string { fun + "(" + param + ")" }

  /** The line that asks for a command. */
  function Render(command: Command): string
    requires command != Ignored
  {
    match command
    case Register(n) => Calling("register", n)
    case Unregister(n) => Calling("unregister", n)
    case Get(n) => Calling("get", n)
    case NoRetain(name, value) => Calling("noretain", name + "=" + value)
    case Assign(name, value) => name + "=" + value
  }

  /** Commands a line can carry: a name ends at the first '=', and only a line with
      no complete pair of parentheses before it is an assignment. */
  predicate Sayable(command: Command) {
    match command
    case NoRetain(name, _) => '=' !in name
    case Assign(name, value) =>
      '=' !in name && name != "connected" && ('(' !in name || (')' !in name && ')' !in value))
    case Ignored => false
    case _ => true
  }

  lemma CallReadsBack(fun: string, param: string)
    requires '(' !in fun && '=' !in fun
    ensures Parse(Calling(fun, param)) == Call(fun, param)
  {
    var line := Calling(fun, param);
    assert line[|fun|] == '(' && forall k | 0 <= k < |fun| :: line[k] == fun[k] && fun[k] != '(' && fun[k] != '=';
    FirstIs(line, '(', |fun|);
    LastIs(line, ')', |line| - 1);
    assert line[..|fun|] == fun && line[|fun| + 1..|line| - 1] == param;
    assert FindFirst(line, '=') > |fun|;
  }

  /** The '=' that was written separates name and value exactly when the name has none. */
  lemma SplitAtEquals(name: string, value: string)
    ensures var line := name + "=" + value; var eq := FindFirst(line, '=');
            eq <= |name| && (eq == |name| <==> '=' !in name)
    ensures var line := name + "=" + value; line[..|name|] == name && line[|name| + 1..] == value
  {
    var line := name + "=" + value;
    assert line[|name|] == '=' && line[..|name|] == name && line[|name| + 1..] == value;
    assert forall k | 0 <= k < |name| :: line[k] == name[k];
    if '=' !in name {
      FirstIs(line, '=', |name|);
    }
  }

  /** The line has parentheses, the first of them before the '='. */
  lemma HasParentheses(name: string, value: string)
    requires '=' !in name
    ensures var line := name + "=" + value;
            FindFirst(line, '(') < |name| && Parenthesis(line).Some?
            <==> '(' in name && (')' in name || ')' in value)
  {
    var line := name + "=" + value;
    assert forall k | 0 <= k < |name| :: line[k] == name[k];
    assert forall c :: c in line <==> c in name || c == '=' || c in value;
    if '(' in name {
      var k :| 0 <= k < |name| && name[k] == '(';
      assert line[k] == '(';
    }
    assert FindFirst(line, '(') < |name| ==> name[FindFirst(line, '(')] == '(';
    assert FindLast(line, ')') < |line| <==> ')' in line;
  }

  lemma {:induction false} AssignReadsBack(name: string, value: string)
    ensures Parse(name + "=" + value) == Assign(name, value) <==> Sayable(Assign(name, value))
  {
    hide Parenthesis, FindFirst;
    SplitAtEquals(name, value);
    if '=' !in name {
      HasParentheses(name, value);
    }
  }

  lemma RelayReadsBack(name: string, value: string)
    ensures Call("noretain", name + "=" + value) == NoRetain(name, value) <==> '=' !in name
  {
    hide FindFirst;
    SplitAtEquals(name, value);
  }

  /** A command survives being written as a line and read again exactly when it is sayable. */
  lemma ParseInvertsRender(command: Command)
    requires command != Ignored
    ensures Parse(Render(command)) == command <==> Sayable(command)
  {
    hide Parse, Call;
    Calls(command);
    match command
    case Register(n) => CallReadsBack("register", n);
    case Unregister(n) => CallReadsBack("unregister", n);
    case Get(n) => CallReadsBack("get", n);
    case NoRetain(name, value) =>
      CallReadsBack("noretain", name + "=" + value);
      RelayReadsBack(name, value);
    case Assign(name, value) => AssignReadsBack(name, value);
  }

  lemma Calls(command: Command)
    ensures match command
      case Register(n) => Call("register", n) == command
      case Unregister(n) => Call("unregister", n) == command
      case Get(n) => Call("get", n) == command
      case _ => true
  {}

  /** A line that is obeyed says so: what it asks for stands in its parentheses, or on both
      sides of its first '='. */
  lemma ParseReads(line: string)
    ensures match Parse(line)
      case Register(n) => Parted(line, "register", n)
      case Unregister(n) => Parted(line, "unregister", n)
      case Get(n) => Parted(line, "get", n)
      case NoRetain(name, value) => Parted(line, "noretain", name + "=" + value) && '=' !in name
      case Assign(name, value) => line == name + "=" + value && '=' !in name && name != "connected"
      case Ignored => true
  {
    hide Parted, Parenthesis, FindFirst;
    var eq := FindFirst(line, '=');
    if FindFirst(line, '(') < eq && Parenthesis(line).Some? {
      PartsFound(line);
      CutAtEquals(Parenthesis(line).value.1);
    } else {
      CutAtEquals(line);
    }
  }

  lemma CutAtEquals(s: string)
    ensures var eq := FindFirst(s, '=');
            eq < |s| ==> s == s[..eq] + "=" + s[eq + 1..] && '=' !in s[..eq]
  {
    var eq := FindFirst(s, '=');
    Spares(s, 0, eq, '=');
    if eq < |s| {
      CutAt(s, eq);
    }
  }

  // ---- what the server writes ----

  /** The text of a line. */
  function Text(line: Line): string {
    match line
    case Hello => "connected" + "=" + "true"
    case Announce(topic) => Calling("register", topic)
    case RetractPetition(topic) => Calling("unregister", topic)
    case RetractParameter(name) => Calling("unregister", name)
    case Push(name, value) => name + "=" + value
    case Reply(name, value) => name + "=" + value
    case Relay(_, name, value) => name + "=" + value
  }

  /** What a client should make of it. */
  function Meaning(line: Line): Command {
    match line
    case Hello => Ignored
    case Announce(topic) => Register(topic)
    case RetractPetition(topic) => Unregister(topic)
    case RetractParameter(name) => Unregister(name)
    case Push(name, value) => Assign(name, value)
    case Reply(name, value) => Assign(name, value)
    case Relay(_, name, value) => Assign(name, value)
  }

  /** Clients read what the server writes as it is meant, unless a value line carries a
      name that is not sayable. */
  lemma ClientsUnderstand(line: Line)
    ensures Parse(Text(line)) == Meaning(line) <==> line == Hello || Sayable(Meaning(line))
  {
    hide Parse;
    match line
    case Hello => HelloIsIgnored();
    case Announce(topic) => ParseInvertsRender(Register(topic));
    case RetractPetition(topic) => ParseInvertsRender(Unregister(topic));
    case RetractParameter(name) => ParseInvertsRender(Unregister(name));
    case Push(name, value) => AssignReadsBack(name, value);
    case Reply(name, value) => AssignReadsBack(name, value);
    case Relay(_, name, value) => AssignReadsBack(name, value);
  }

  lemma HelloIsIgnored()
    ensures Parse("connected" + "=" + "true") == Ignored
  {
    ConnectedIsIgnored("connected", "true");
  }

  lemma ConnectedIsIgnored(name: string, value: string)
    requires '=' !in name && '(' !in name && name == "connected"
    ensures Parse(name + "=" + value) == Ignored
  {
    hide Parenthesis, FindFirst;
    SplitAtEquals(name, value);
    HasParentheses(name, value);
  }
}
