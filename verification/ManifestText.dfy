/**
 What is written down as a manifest is what the parser reads: rules and build statements come back as they were, in
 order, and no line is rejected.
 */
module ManifestText {
  import opened Prelude
  import opened Graphs
  import opened LineFormat
  import opened Text
  import opened Parser
  import BuildGraph

  /** One line of a manifest. */
  datatype Item =
    | Remark(text: string)
    | Opens(name: string)
    | HasCommand(text: string)
    | HasDepfile(text: string)
    | Builds(edge: Edge)

  function BuildText(e: Edge): string
  {
    Joined(e.outputs) + " : " + e.rule + " " + Joined(e.inputs)
  }

  function LineOf(item: Item): string
  {
    match item
    case Remark(text) => "#" + text
    case Opens(name) => "rule " + name
    case HasCommand(text) => "command = " + text
    case HasDepfile(text) => "depfile = " + text
    case Builds(e) => "build " + BuildText(e)
  }

  function LinesOf(items: seq<Item>): (lines: seq<string>)
    ensures |lines| == |items| && forall k :: 0 <= k < |items| ==> lines[k] == LineOf(items[k])
  {
    if items == [] then [] else [LineOf(items[0])] + LinesOf(items[1..])
  }

  /** What has been said so far. */
  datatype Meaning = Meaning(rules: map<string, Rule>, edges: seq<Edge>, current: Option<string>)

  function Next(m: Meaning, item: Item): Meaning
  {
    match item
    case Remark(_) => m
    case Opens(name) => m.(rules := m.rules[name := Rule("", "")], current := Some(name))
    case HasCommand(text) =>
      if m.current.None? || m.current.value !in m.rules then m
      else m.(rules := m.rules[m.current.value := m.rules[m.current.value].(command := text)])
    case HasDepfile(text) =>
      if m.current.None? || m.current.value !in m.rules then m
      else m.(rules := m.rules[m.current.value := m.rules[m.current.value].(depfile := text)])
    case Builds(e) => m.(edges := m.edges + [e], current := None)
  }

  function Meant(m: Meaning, items: seq<Item>): Meaning
    decreases |items|
  {
    if items == [] then m else Meant(Next(m, items[0]), items[1..])
  }

  /** Not empty, without white space around it, and on one line. */
  ghost predicate Proper(text: string)
  {
    text != "" && !IsSpace(text[0]) && !IsSpace(text[|text| - 1]) && OneLine(text)
  }

  ghost predicate AllWords(paths: seq<string>)
  {
    paths != [] && forall k :: 0 <= k < |paths| ==> IsWord(paths[k])
  }

  ghost predicate NoColons(paths: seq<string>)
  {
    forall k :: 0 <= k < |paths| ==> ':' !in paths[k]
  }

  /** The statement can be written down, and its rule is complete. */
  ghost predicate Stated(rules: map<string, Rule>, e: Edge)
  {
    && AllWords(e.outputs) && NoColons(e.outputs) && AllWords(e.inputs) && IsWord(e.rule) && NoDup(e.outputs)
    && e.rule in rules && rules[e.rule].command != ""
  }

  /** ... and nobody makes its outputs yet. */
  ghost predicate Buildable(m: Meaning, e: Edge)
  {
    Stated(m.rules, e) && forall k :: 0 <= k < |m.edges| ==> Elems(m.edges[k].outputs) !! Elems(e.outputs)
  }

  /** What may be said next. */
  ghost predicate MayFollow(m: Meaning, item: Item)
  {
    match item
    case Remark(text) => OneLine(text)
    case Opens(name) => Proper(name) && name !in m.rules
    case HasCommand(text) => Proper(text) && m.current.Some? && m.current.value in m.rules
    case HasDepfile(text) => Proper(text) && m.current.Some? && m.current.value in m.rules
    case Builds(e) => Buildable(m, e)
  }

  ghost predicate Sensible(m: Meaning, items: seq<Item>)
    decreases |items|
  {
    items == [] || (MayFollow(m, items[0]) && Sensible(Next(m, items[0]), items[1..]))
  }

  ghost predicate Matches(r: Reading, m: Meaning)
  {
    r.rules == m.rules && r.g.edges == m.edges && r.current == m.current
  }

  // ------------------------------------------------------------------------------------------
  // One line
  // ------------------------------------------------------------------------------------------

  lemma ProperIsTrimmed(text: string)
    requires Proper(text)
    ensures IsTrimOf(text, text)
  {
    assert TrimBounds(text, 0, |text|) && text[0..|text|] == text;
  }

  /** A space in front is trimmed away. */
  lemma SpaceIsTrimmed(text: string)
    requires Proper(text)
    ensures IsTrimOf(" " + text, text)
  {
    var s := " " + text;
    assert TrimBounds(s, 1, |s|) && s[1..|s|] == text;
  }

  lemma PrefixIsProper(prefix: string, text: string)
    requires prefix != "" && !IsSpace(prefix[0]) && OneLine(prefix) && Proper(text)
    ensures Proper(prefix + text)
  {
    var s := prefix + text;
    assert s[0] == prefix[0] && s[|s| - 1] == text[|text| - 1];
  }

  /** A line without white space around it is read as it is. */
  lemma ReadAsItIs(raw: string, s: Reading, s': Reading, ok: bool)
    requires Proper(raw) && RawLineDoes(raw, s, s', ok)
    ensures LineDoes(raw, s, s', ok)
  {
    hide LineDoes;
    var line :| IsTrimOf(raw, line) && LineDoes(line, s, s', ok);
    ProperIsTrimmed(raw);
    TrimIsUnique(raw, raw, line);
  }

  lemma RemarkStep(text: string, s: Reading, s': Reading, ok: bool)
    requires RawLineDoes("#" + text, s, s', ok)
    ensures ok && s' == s
  {
    var raw := "#" + text;
    var line :| IsTrimOf(raw, line) && LineDoes(line, s, s', ok);
    var i: nat, j: nat :| TrimBounds(raw, i, j) && line == raw[i..j];
    assert !IsSpace(raw[0]);
    assert line[0] == '#';
  }

  lemma OpensStep(name: string, s: Reading, s': Reading, ok: bool)
    requires Proper(name) && name !in s.rules && RawLineDoes("rule " + name, s, s', ok)
    ensures ok && s' == Reading(s.rules[name := Rule("", "")], s.g, Some(name))
  {
    var raw := "rule " + name;
    PrefixIsProper("rule ", name);
    ReadAsItIs(raw, s, s', ok);
    assert raw[5..] == name && raw[..5] == "rule ";
    ProperIsTrimmed(name);
    hide Proper, IsTrimOf;
    var other :| IsTrimOf(raw[5..], other) && (ok <==> other != "" && other !in s.rules) && s'.g == s.g &&
      s'.rules == (if ok then s.rules[other := Rule("", "")] else s.rules) && (ok ==> s'.current == Some(other));
    TrimIsUnique(raw[5..], name, other);
    ProperIsThere(name);
  }

  lemma ProperIsThere(text: string)
    requires Proper(text)
    ensures text != ""
  {
  }

  lemma ReadsCommand(text: string, s: Reading, s': Reading, ok: bool)
    requires Proper(text) && RawLineDoes("command = " + text, s, s', ok)
    ensures ("command = " + text)[9..] == " " + text && PropertyDoes("command = " + text, true, s, s', ok)
  {
    var raw := "command = " + text;
    hide Proper, RawLineDoes, RuleDoes, PropertyDoes, BuildDoes;
    PrefixIsProper("command = ", text);
    ReadAsItIs(raw, s, s', ok);
    assert raw[9..] == " " + text && raw[..9] == "command =" && raw[0] == 'c';
  }

  lemma ReadsDepfile(text: string, s: Reading, s': Reading, ok: bool)
    requires Proper(text) && RawLineDoes("depfile = " + text, s, s', ok)
    ensures ("depfile = " + text)[9..] == " " + text && PropertyDoes("depfile = " + text, false, s, s', ok)
  {
    var raw := "depfile = " + text;
    hide Proper, RawLineDoes, RuleDoes, PropertyDoes, BuildDoes;
    PrefixIsProper("depfile = ", text);
    ReadAsItIs(raw, s, s', ok);
    assert raw[9..] == " " + text && raw[..9] == "depfile =" && raw[0] == 'd';
  }

  lemma PropertyStep(text: string, isCommand: bool, s: Reading, s': Reading, ok: bool)
    requires Proper(text) && s.current.Some? && s.current.value in s.rules
    requires RawLineDoes((if isCommand then "command = " else "depfile = ") + text, s, s', ok)
    ensures ok && s'.g == s.g && s'.current == s.current
    ensures s'.rules == s.rules[s.current.value := if isCommand then s.rules[s.current.value].(command := text)
                                                   else s.rules[s.current.value].(depfile := text)]
  {
    hide Proper, PropertyDoes, RawLineDoes;
    if isCommand {
      ReadsCommand(text, s, s', ok);
      PropertyDone("command = " + text, text, true, s, s', ok);
    } else {
      ReadsDepfile(text, s, s', ok);
      PropertyDone("depfile = " + text, text, false, s, s', ok);
    }
  }

  lemma PropertyDone(raw: string, text: string, isCommand: bool, s: Reading, s': Reading, ok: bool)
    requires |raw| >= 9 && raw[9..] == " " + text && Proper(text) && s.current.Some? && s.current.value in s.rules
    requires PropertyDoes(raw, isCommand, s, s', ok)
    ensures ok && s'.g == s.g && s'.current == s.current
    ensures s'.rules == s.rules[s.current.value := if isCommand then s.rules[s.current.value].(command := text)
                                                   else s.rules[s.current.value].(depfile := text)]
  {
    SpaceIsTrimmed(text);
    ProperIsThere(text);
    hide Proper, IsTrimOf;
    var other :| IsTrimOf(raw[9..], other) &&
      (ok <==> s.current.Some? && s.current.value in s.rules && other != "") && s'.g == s.g &&
      s'.rules == (if !ok then s.rules
                   else if isCommand then s.rules[s.current.value := s.rules[s.current.value].(command := other)]
                   else s.rules[s.current.value := s.rules[s.current.value].(depfile := other)]) &&
      (ok ==> s'.current == s.current);
    TrimIsUnique(raw[9..], text, other);
  }

  // ------------------------------------------------------------------------------------------
  // A build statement
  // ------------------------------------------------------------------------------------------

  lemma {:induction false} JoinedHasNo(c: char, paths: seq<string>)
    requires c != ' ' && forall k :: 0 <= k < |paths| ==> c !in paths[k]
    ensures c !in Joined(paths)
  {
    if |paths| > 1 {
      JoinedHasNo(c, paths[1..]);
    }
  }

  lemma WordsAreTheirs(paths: seq<string>)
    requires AllWords(paths)
    ensures Words(Joined(paths)) == paths
  {
    assert forall p :: p in paths ==> IsWord(p);
    hide IsWord, Words, Joined;
    SplitUndoesJoin(paths);
  }

  lemma OutputsInFront(outputs: seq<Path>)
    requires AllWords(outputs) && NoColons(outputs)
    ensures Words(Joined(outputs) + " ") == outputs && ':' !in Joined(outputs) + " "
  {
    WordsAreTheirs(outputs);
    JoinedHasNo(':', outputs);
    hide Words, Joined, AllWords;
    TrailingSpace(Joined(outputs), " ");
  }

  lemma RuleAndInputsBehind(e: Edge)
    requires AllWords(e.inputs) && IsWord(e.rule)
    ensures Words(" " + (e.rule + " " + Joined(e.inputs))) == [e.rule] + e.inputs
  {
    var parts := [e.rule] + e.inputs;
    assert parts[1..] == e.inputs;
    assert Joined(parts) == e.rule + " " + Joined(e.inputs);
    RuleThenInputs(e);
    WordsAreTheirs(parts);
    hide IsWord, Words, Joined, AllWords;
    SpaceThenRest(" ", Joined(parts));
  }

  lemma StatementOfText(e: Edge)
    requires AllWords(e.outputs) && NoColons(e.outputs) && AllWords(e.inputs) && IsWord(e.rule)
    ensures Statement(BuildText(e)) == Some((e.outputs, [e.rule] + e.inputs))
  {
    OutputsInFront(e.outputs);
    RuleAndInputsBehind(e);
    ColonInText(e);
    hide *;
    SplitAtColon(Joined(e.outputs) + " ", " " + (e.rule + " " + Joined(e.inputs)));
  }

  lemma ColonInText(e: Edge)
    ensures BuildText(e) == (Joined(e.outputs) + " ") + ":" + (" " + (e.rule + " " + Joined(e.inputs)))
  {
    hide Joined;
  }

  lemma RuleThenInputs(e: Edge)
    requires AllWords(e.inputs) && IsWord(e.rule)
    ensures AllWords([e.rule] + e.inputs)
  {
    hide IsWord;
  }

  lemma SplitAtColon(left: string, right: string)
    requires ':' !in left
    ensures Statement(left + ":" + right) == Some((Words(left), Words(right)))
  {
    var text := left + ":" + right;
    assert ":" == [':'];
    FindAppend(left, ':', right);
    assert text[..|left|] == left && text[|left| + 1..] == right;
    hide Words, Find;
  }

  lemma BothEndsProper(a: string, between: string, b: string)
    requires Proper(a) && OneLine(between) && Proper(b)
    ensures Proper(a + between + b)
  {
    var s := a + between + b;
    assert s[0] == a[0] && s[|s| - 1] == b[|b| - 1];
  }

  lemma WordIsProper(s: string)
    requires IsWord(s)
    ensures Proper(s)
  {
    SixSpaces('\n');
  }

  lemma {:induction false} JoinedIsProper(paths: seq<string>)
    requires AllWords(paths)
    ensures Proper(Joined(paths))
  {
    WordIsProper(paths[0]);
    if |paths| > 1 {
      hide Proper, IsWord;
      JoinedIsProper(paths[1..]);
      BothEndsProper(paths[0], " ", Joined(paths[1..]));
    }
  }

  lemma BuildTextIsProper(e: Edge)
    requires AllWords(e.outputs) && AllWords(e.inputs) && IsWord(e.rule)
    ensures Proper(BuildText(e))
  {
    JoinedIsProper(e.outputs);
    JoinedIsProper(e.inputs);
    WordIsProper(e.rule);
    hide Proper, IsWord, AllWords, Joined;
    BothEndsProper(Joined(e.outputs), " : ", e.rule);
    BothEndsProper(Joined(e.outputs) + " : " + e.rule, " ", Joined(e.inputs));
  }

  lemma ProducerHasIt(g: Graph, o: Path)
    requires Graphs.Valid(g) && ProducerOf(g, o).Some?
    ensures IsEdge(g, ProducerOf(g, o).value) && o in Elems(g.edges[ProducerOf(g, o).value].outputs)
  {
    assert NodeLinked(g, o);
  }

  lemma FreshIsUnproduced(g: Graph, outputs: seq<Path>)
    requires Graphs.Valid(g) && NoDup(outputs)
    requires forall k :: 0 <= k < |g.edges| ==> Elems(g.edges[k].outputs) !! Elems(outputs)
    ensures Unproduced(g, outputs)
  {
    forall o | o in outputs
      ensures ProducerOf(g, o).None?
    {
      assert o in Elems(outputs);
      hide Graphs.Valid, ProducerOf;
      if ProducerOf(g, o).Some? {
        ProducerHasIt(g, o);
      }
    }
  }

  lemma ReadsBuild(text: string, s: Reading, s': Reading, ok: bool)
    requires Proper(text) && RawLineDoes("build " + text, s, s', ok)
    ensures ("build " + text)[6..] == text && BuildDoes("build " + text, s, s', ok)
  {
    var raw := "build " + text;
    hide Proper, RawLineDoes, RuleDoes, PropertyDoes, BuildDoes;
    PrefixIsProper("build ", text);
    ReadAsItIs(raw, s, s', ok);
    assert raw[6..] == text && raw[..6] == "build ";
  }

  lemma BuildStep(m: Meaning, e: Edge, s: Reading, s': Reading, ok: bool)
    requires Matches(s, m) && Graphs.Valid(s.g) && Buildable(m, e) && RawLineDoes("build " + BuildText(e), s, s', ok)
    ensures ok && s'.rules == s.rules && s'.g.edges == s.g.edges + [e] && s'.current == None
  {
    hide Graphs.Valid, RawLineDoes, BuildText, AllWords, NoColons, NoDup, Unproduced, Proper, IsWord;
    BuildTextIsProper(e);
    StatementOfText(e);
    FreshIsUnproduced(s.g, e.outputs);
    ReadsBuild(BuildText(e), s, s', ok);
    SomeWords(e.outputs);
    SomeWords(e.inputs);
    hide Statement, BuildDoes;
    BuildDone("build " + BuildText(e), e, s, s', ok);
  }

  lemma SomeWords(paths: seq<Path>)
    requires AllWords(paths)
    ensures paths != []
  {
  }

  lemma BuildDone(raw: string, e: Edge, s: Reading, s': Reading, ok: bool)
    requires |raw| >= 6 && Statement(raw[6..]) == Some((e.outputs, [e.rule] + e.inputs)) && BuildDoes(raw, s, s', ok)
    requires e.outputs != [] && e.inputs != [] && e.rule in s.rules && s.rules[e.rule].command != ""
    requires Unproduced(s.g, e.outputs)
    ensures ok && s'.rules == s.rules && s'.g.edges == s.g.edges + [e] && s'.current == None
  {
    hide Statement, Unproduced;
    var parts := [e.rule] + e.inputs;
    assert parts[0] == e.rule && parts[1..] == e.inputs;
  }

  // ------------------------------------------------------------------------------------------
  // All lines
  // ------------------------------------------------------------------------------------------

  lemma OneStep(m: Meaning, item: Item, s: Reading, s': Reading, ok: bool)
    requires Matches(s, m) && Graphs.Valid(s.g) && MayFollow(m, item) && RawLineDoes(LineOf(item), s, s', ok)
    ensures ok && Matches(s', Next(m, item))
  {
    hide Graphs.Valid, RawLineDoes, Buildable, Proper, BuildText;
    match item
    case Remark(text) => RemarkStep(text, s, s', ok);
    case Opens(name) => OpensStep(name, s, s', ok);
    case HasCommand(text) => PropertyStep(text, true, s, s', ok);
    case HasDepfile(text) => PropertyStep(text, false, s, s', ok);
    case Builds(e) => BuildStep(m, e, s, s', ok);
  }

  /** No line of a sensible manifest is rejected, and the parser ends where the manifest says. */
  lemma {:induction false} SensibleIsRead(m: Meaning, items: seq<Item>, trace: seq<Reading>, ok: bool)
    requires Sensible(m, items) && ReadAlong(LinesOf(items), trace, ok) && Matches(trace[0], m)
    requires forall k :: 0 <= k < |trace| ==> Graphs.Valid(trace[k].g)
    requires if ok then |trace| == |items| + 1 else |trace| > 1
    ensures ok && Matches(trace[|trace| - 1], Meant(m, items))
    decreases |items|
  {
    hide Graphs.Valid, RawLineDoes, MayFollow, Matches, LineOf, Next;
    if items != [] {
      var lines := LinesOf(items);
      assert RawLineDoes(lines[0], trace[0], trace[1], 0 < |trace| - 2 || ok);
      OneStep(m, items[0], trace[0], trace[1], 0 < |trace| - 2 || ok);
      ReadFromSecond(items, trace, ok);
      SensibleIsRead(Next(m, items[0]), items[1..], trace[1..], ok);
    }
  }

  lemma ReadFromSecond(items: seq<Item>, trace: seq<Reading>, ok: bool)
    requires items != [] && |trace| > 1 && ReadAlong(LinesOf(items), trace, ok)
    ensures ReadAlong(LinesOf(items[1..]), trace[1..], ok)
  {
    hide RawLineDoes, LineOf;
    var lines := LinesOf(items);
    assert lines[1..] == LinesOf(items[1..]);
    forall k | 0 <= k < |trace[1..]| - 1
      ensures RawLineDoes(lines[1..][k], trace[1..][k], trace[1..][k + 1], k < |trace[1..]| - 2 || ok)
    {
      assert RawLineDoes(lines[k + 1], trace[k + 1], trace[k + 2], k + 1 < |trace| - 2 || ok);
    }
  }

  // ------------------------------------------------------------------------------------------
  // Which lines are accepted
  // ------------------------------------------------------------------------------------------

  /** A colon with outputs that nobody makes in front of it, each once, and behind it a complete rule and inputs. */
  ghost predicate GoodStatement(s: Reading, text: string, left: string, right: string)
  {
    && text == left + ":" + right && ':' !in left
    && Words(left) != [] && NoDup(Words(left)) && (forall o :: o in Words(left) ==> ProducerOf(s.g, o).None?)
    && |Words(right)| > 1 && Words(right)[0] in s.rules && s.rules[Words(right)[0]].command != ""
  }

  /**
   Blank lines and remarks, a rule of a new name, a command or depfile that is not empty for the rule that is open, and
   good build statements are accepted; everything else is rejected.
   */
  lemma AcceptedIff(raw: string, line: string, s: Reading, s': Reading, ok: bool)
    requires IsTrimOf(raw, line) && RawLineDoes(raw, s, s', ok)
    ensures ok <==>
      || line == "" || line[0] == '#'
      || ("rule " <= line && !exists name :: name in s.rules && IsTrimOf(line[5..], name))
      || (("command =" <= line || "depfile =" <= line) &&
          s.current.Some? && s.current.value in s.rules && !Blank(line[9..]))
      || ("build " <= line && exists left, right :: GoodStatement(s, line[6..], left, right))
  {
    TrimsItself(raw, line);
    var other :| IsTrimOf(raw, other) && LineDoes(other, s, s', ok);
    TrimIsUnique(raw, line, other);
    hide RawLineDoes, IsTrimOf, GoodStatement, RuleDoes, PropertyDoes, BuildDoes, Blank;
    if line != "" && line[0] != '#' {
      if "rule " <= line {
        RuleAccepted(line, s, s', ok);
      } else if "command =" <= line {
        PropertyAccepted(line, true, s, s', ok);
      } else if "depfile =" <= line {
        PropertyAccepted(line, false, s, s', ok);
      } else if "build " <= line {
        BuildAccepted(line, s, s', ok);
      }
    }
  }

  lemma TrimsItself(raw: string, line: string)
    requires IsTrimOf(raw, line)
    ensures IsTrimOf(line, line)
  {
    TrimIsUnique(raw, line, line);
  }

  lemma RuleAccepted(line: string, s: Reading, s': Reading, ok: bool)
    requires "rule " <= line && IsTrimOf(line, line) && RuleDoes(line, s, s', ok)
    ensures ok <==> !exists name :: name in s.rules && IsTrimOf(line[5..], name)
  {
    hide IsTrimOf;
    var name :| IsTrimOf(line[5..], name) && (ok <==> name != "" && name !in s.rules) && s'.g == s.g &&
      s'.rules == (if ok then s.rules[name := Rule("", "")] else s.rules) && (ok ==> s'.current == Some(name));
    RuleLineHasName(line, name);
    if other :| other in s.rules && IsTrimOf(line[5..], other) {
      TrimIsUnique(line[5..], name, other);
    }
  }

  lemma PropertyAccepted(line: string, isCommand: bool, s: Reading, s': Reading, ok: bool)
    requires |line| >= 9 && PropertyDoes(line, isCommand, s, s', ok)
    ensures ok <==> s.current.Some? && s.current.value in s.rules && !Blank(line[9..])
  {
    hide IsTrimOf;
    var text :| IsTrimOf(line[9..], text) &&
      (ok <==> s.current.Some? && s.current.value in s.rules && text != "") && s'.g == s.g &&
      s'.rules == (if !ok then s.rules
                   else if isCommand then s.rules[s.current.value := s.rules[s.current.value].(command := text)]
                   else s.rules[s.current.value := s.rules[s.current.value].(depfile := text)]) &&
      (ok ==> s'.current == s.current);
    NothingLeftIffBlank(line[9..], text);
  }

  lemma NothingLeftIffBlank(text: string, r: string)
    requires IsTrimOf(text, r)
    ensures r == "" <==> Blank(text)
  {
    if r == "" {
      TrimmedAway(text);
    }
  }

  lemma BuildAccepted(line: string, s: Reading, s': Reading, ok: bool)
    requires "build " <= line && BuildDoes(line, s, s', ok)
    ensures ok <==> exists left, right :: GoodStatement(s, line[6..], left, right)
  {
    var text := line[6..];
    hide Words, NoDup, ProducerOf;
    if Statement(text).Some? {
      var k := Find(text, ':');
      assert text == text[..k] + ":" + text[k + 1..];
      hide Find;
      assert ok ==> GoodStatement(s, text, text[..k], text[k + 1..]);
    }
    if left, right :| GoodStatement(s, text, left, right) {
      SplitAtColon(left, right);
    }
  }

  // ------------------------------------------------------------------------------------------
  // Rules and build statements
  // ------------------------------------------------------------------------------------------

  /** A rule that can be written down; an empty depfile is left out. */
  ghost predicate Writable(name: string, rule: Rule)
  {
    Proper(name) && Proper(rule.command) && (rule.depfile == "" || Proper(rule.depfile))
  }

  function RuleItems(name: string, rule: Rule): seq<Item>
  {
    [Opens(name), HasCommand(rule.command)] + if rule.depfile == "" then [] else [HasDepfile(rule.depfile)]
  }

  function AllRuleItems(rules: seq<(string, Rule)>): seq<Item>
  {
    if rules == [] then [] else RuleItems(rules[0].0, rules[0].1) + AllRuleItems(rules[1..])
  }

  function EdgeItems(edges: seq<Edge>): seq<Item>
  {
    if edges == [] then [] else [Builds(edges[0])] + EdgeItems(edges[1..])
  }

  /** The manifest with these rules, followed by these build statements. */
  function ManifestOf(rules: seq<(string, Rule)>, edges: seq<Edge>): string
  {
    Terminated(LinesOf(AllRuleItems(rules) + EdgeItems(edges)))
  }

  lemma {:induction false} OneAfterTheOther(m: Meaning, a: seq<Item>, b: seq<Item>)
    ensures Meant(m, a + b) == Meant(Meant(m, a), b)
    ensures Sensible(m, a + b) <==> Sensible(m, a) && Sensible(Meant(m, a), b)
    decreases |a|
  {
    if a == [] {
      assert a + b == b;
    } else {
      assert (a + b)[0] == a[0] && (a + b)[1..] == a[1..] + b;
      OneAfterTheOther(Next(m, a[0]), a[1..], b);
      hide Next, MayFollow;
    }
  }

  lemma RuleIsMeant(m: Meaning, name: string, rule: Rule)
    requires Writable(name, rule) && name !in m.rules
    ensures Sensible(m, RuleItems(name, rule))
    ensures Meant(m, RuleItems(name, rule)) == Meaning(m.rules[name := rule], m.edges, Some(name))
  {
    hide Proper;
    var begun := Next(m, Opens(name));
    var full := Next(begun, HasCommand(rule.command));
    assert full == Meaning(m.rules[name := Rule(rule.command, "")], m.edges, Some(name));
    OneItem(m, Opens(name));
    OneItem(begun, HasCommand(rule.command));
    OneAfterTheOther(m, [Opens(name)], [HasCommand(rule.command)]);
    assert [Opens(name)] + [HasCommand(rule.command)] == [Opens(name), HasCommand(rule.command)];
    if rule.depfile == "" {
      assert RuleItems(name, rule) == [Opens(name), HasCommand(rule.command)];
    } else {
      OneItem(full, HasDepfile(rule.depfile));
      OneAfterTheOther(m, [Opens(name), HasCommand(rule.command)], [HasDepfile(rule.depfile)]);
      assert Next(full, HasDepfile(rule.depfile)).rules == m.rules[name := rule];
    }
  }

  lemma OneItem(m: Meaning, item: Item)
    ensures Meant(m, [item]) == Next(m, item) && (Sensible(m, [item]) <==> MayFollow(m, item))
  {
    hide Next, MayFollow;
    assert [item][1..] == [];
  }

  /** Writable rules, no two of the same name, and none of a name that is taken. */
  ghost predicate NewRules(taken: set<string>, rules: seq<(string, Rule)>)
  {
    && (forall k :: 0 <= k < |rules| ==> Writable(rules[k].0, rules[k].1) && rules[k].0 !in taken)
    && (forall i, j :: 0 <= i < j < |rules| ==> rules[i].0 != rules[j].0)
  }

  lemma {:induction false} RulesAreMeant(m: Meaning, rules: seq<(string, Rule)>)
    requires NewRules(m.rules.Keys, rules)
    ensures Sensible(m, AllRuleItems(rules))
    ensures Adds(m.rules, rules, Meant(m, AllRuleItems(rules)).rules) && Meant(m, AllRuleItems(rules)).edges == m.edges
    decreases |rules|
  {
    if rules != [] {
      var (name, rule) := rules[0];
      RuleIsMeant(m, name, rule);
      var next := Meaning(m.rules[name := rule], m.edges, Some(name));
      assert next.rules.Keys == m.rules.Keys + {name};
      hide Writable, Sensible, Meant, RuleItems;
      assert NewRules(next.rules.Keys, rules[1..]);
      RulesAreMeant(next, rules[1..]);
      OneAfterTheOther(m, RuleItems(name, rule), AllRuleItems(rules[1..]));
    }
  }

  /** No output is made twice. */
  ghost predicate Apart(edges: seq<Edge>)
  {
    forall i, j :: 0 <= i < j < |edges| ==> Elems(edges[i].outputs) !! Elems(edges[j].outputs)
  }

  lemma {:induction false} EdgesAreMeant(m: Meaning, edges: seq<Edge>)
    requires (forall k :: 0 <= k < |edges| ==> Stated(m.rules, edges[k])) && Apart(m.edges + edges)
    ensures Sensible(m, EdgeItems(edges))
    ensures Meant(m, EdgeItems(edges)).rules == m.rules && Meant(m, EdgeItems(edges)).edges == m.edges + edges
    decreases |edges|
  {
    hide Stated;
    if edges == [] {
      assert m.edges + edges == m.edges;
    } else {
      var next := Next(m, Builds(edges[0]));
      var all := m.edges + edges;
      assert all[|m.edges|] == edges[0];
      assert forall k :: 0 <= k < |m.edges| ==> all[k] == m.edges[k];
      assert Buildable(m, edges[0]);
      assert next.edges + edges[1..] == all;
      EdgesAreMeant(next, edges[1..]);
      assert EdgeItems(edges)[1..] == EdgeItems(edges[1..]);
    }
  }

  lemma {:induction false} SensibleIsLines(m: Meaning, items: seq<Item>, k: nat)
    requires Sensible(m, items) && k < |items|
    ensures OneLine(LineOf(items[k]))
    decreases |items|
  {
    hide Next;
    if k == 0 {
      LineIsOne(m, items[0]);
    } else {
      SensibleIsLines(Next(m, items[0]), items[1..], k - 1);
    }
  }

  lemma LineIsOne(m: Meaning, item: Item)
    requires MayFollow(m, item)
    ensures OneLine(LineOf(item))
  {
    hide BuildText, AllWords, IsWord, NoColons, NoDup;
    match item
    case Builds(e) => BuildTextIsProper(e);
    case _ =>
  }

  /** Everything that a manifest needs to be written down. */
  ghost predicate Printable(rules: seq<(string, Rule)>, edges: seq<Edge>)
  {
    && NewRules({}, rules) && Apart(edges)
    && forall k, declared :: 0 <= k < |edges| && Holds(rules, declared) ==> Stated(declared, edges[k])
  }

  const NOTHING := Meaning(map[], [], None)

  lemma PrintableIsSensible(rules: seq<(string, Rule)>, edges: seq<Edge>)
    requires Printable(rules, edges)
    ensures var items := AllRuleItems(rules) + EdgeItems(edges);
      && Sensible(NOTHING, items)
      && Holds(rules, Meant(NOTHING, items).rules) && Meant(NOTHING, items).edges == edges
  {
    hide Stated, Sensible, Meant, Apart;
    var declared := Meant(NOTHING, AllRuleItems(rules));
    assert NOTHING.rules.Keys == {};
    RulesAreMeant(NOTHING, rules);
    AddsIffHolds(rules, declared.rules);
    hide Adds, Holds, NewRules;
    assert declared.edges + edges == edges;
    EdgesAreMeant(declared, edges);
    OneAfterTheOther(NOTHING, AllRuleItems(rules), EdgeItems(edges));
  }

  /**
   Round trip: a manifest that was written down from rules and build statements is read without an error, and what has
   been read are these rules, and these edges in this order.
   */
  lemma ManifestRoundTrip(rules: seq<(string, Rule)>, edges: seq<Edge>, trace: seq<Reading>, ok: bool)
    requires Printable(rules, edges) && ReadAlong(FileLines(ManifestOf(rules, edges)), trace, ok)
    requires trace[0] == Reading(map[], BuildGraph.Empty(), None)
    requires forall k :: 0 <= k < |trace| ==> Graphs.Valid(trace[k].g)
    requires if ok then |trace| == |FileLines(ManifestOf(rules, edges))| + 1 else |trace| > 1
    ensures ok && Holds(rules, trace[|trace| - 1].rules) && trace[|trace| - 1].g.edges == edges
  {
    var items := AllRuleItems(rules) + EdgeItems(edges);
    PrintableIsSensible(rules, edges);
    assert Matches(trace[0], NOTHING);
    hide Graphs.Valid, ReadAlong, Sensible, Meant, LineOf, Holds, Printable;
    forall k: nat | k < |items|
      ensures OneLine(LineOf(items[k]))
    {
      SensibleIsLines(NOTHING, items, k);
    }
    hide FileLines, Terminated, AllRuleItems, EdgeItems;
    LinesComeBack(LinesOf(items), "");
    assert Terminated(LinesOf(items)) + "" == Terminated(LinesOf(items));
    assert LinesOf(items) + [] == LinesOf(items);
    SensibleIsRead(NOTHING, items, trace, ok);
  }
}
