/**
 `Parser` and `Manifest`: a manifest is read line by line into rules and a build graph. The graph invariants that
 everything else relies on are established here, and hold after a rejected line too.
 */
module Parser {
  import opened Prelude
  import opened Graphs
  import opened LineFormat
  import opened Text
  import BuildGraph

  datatype Rule = Rule(command: string, depfile: string)

  datatype ParseError =
    | CannotOpen
    | EmptyRuleName
    | RuleExists(name: string)
    | CommandOutsideRule
    | EmptyCommand
    | DepfileOutsideRule
    | EmptyDepfile
    | MissingColon
    | NoOutputs
    | NoRule
    | NoInputs
    | UnknownRule(name: string)
    | RuleWithoutCommand(name: string)
    | SecondProducer(path: Path)
    | UnknownStatement(line: string)
    | ReadError

  datatype Section = Nowhere | InRule | InBuild

  // ------------------------------------------------------------------------------------------
  // What a build statement says
  // ------------------------------------------------------------------------------------------

  /** Outputs in front of the first colon, then the rule and the inputs: words, however they are spaced. */
  function Statement(text: string): Option<(seq<string>, seq<string>)>
  {
    var k := Find(text, ':');
    if k == |text| then None else Some((Words(text[..k]), Words(text[k + 1..])))
  }

  lemma {:induction false} TrailingSpace(s: string, space: string)
    requires Blank(space)
    ensures Words(s + space) == Words(s)
    decreases |s|
  {
    if s == "" {
      assert s + space == space && space + "" == space;
      SpaceThenRest(space, "");
    } else if IsSpace(s[0]) {
      assert (s + space)[0] == s[0] && (s + space)[1..] == s[1..] + space;
      SkipTwice(s[1..]);
      SkipTwice(s[1..] + space);
      TrailingSpace(s[1..], space);
      OneSpace(s);
      OneSpace(s + space);
    } else {
      var k := WordRun(s);
      var w, rest := s[..k], s[k..];
      assert s == w + rest && s + space == w + (rest + space);
      WordThenRest(w, rest);
      WordThenRest(w, rest + space);
      TrailingSpace(rest, space);
    }
  }

  lemma OneSpace(s: string)
    requires s != "" && IsSpace(s[0])
    ensures Words(s) == Words(s[1..])
  {
    assert s == s[..1] + s[1..];
    SpaceThenRest(s[..1], s[1..]);
  }

  /** Trimming does not change the words. */
  lemma TrimKeepsWords(text: string, r: string)
    requires IsTrimOf(text, r)
    ensures Words(r) == Words(text)
  {
    var i: nat, j: nat :| TrimBounds(text, i, j) && r == text[i..j];
    var space, tail := text[..i], text[j..];
    assert Blank(space) && Blank(tail);
    hide *;
    ThreeParts(text, i, j);
    SpaceThenRest(space, r + tail);
    TrailingSpace(r, tail);
  }

  lemma ThreeParts(text: string, i: nat, j: nat)
    requires i <= j <= |text|
    ensures text == text[..i] + (text[i..j] + text[j..])
  {
  }

  /** Nor does it change what a build statement says. */
  lemma TrimKeepsStatement(text: string, r: string)
    requires IsTrimOf(text, r)
    ensures Statement(r) == Statement(text)
  {
    var i: nat, j: nat :| TrimBounds(text, i, j) && r == text[i..j];
    hide *;
    StatementWithin(text, i, j);
  }

  lemma StatementWithin(text: string, i: nat, j: nat)
    requires TrimBounds(text, i, j)
    ensures Statement(text[i..j]) == Statement(text)
  {
    assert i <= j <= |text|;
    hide *;
    var k := Find(text[i..j], ':');
    if k == j - i {
      NoColonInSpace(text, i, j);
      NoStatement(text[i..j]);
      NoStatement(text);
    } else {
      StatementInside(text, i, j, k);
    }
  }

  lemma StatementInside(text: string, i: nat, j: nat, k: nat)
    requires TrimBounds(text, i, j) && k == Find(text[i..j], ':') && k < j - i
    ensures Statement(text[i..j]) == Statement(text)
  {
    hide Find, Words, Statement;
    ColonInside(text, i, j, k);
    WordsInside(text, i, j, k);
    SameStatement(text[i..j], k, text, i + k);
  }

  lemma NoStatement(text: string)
    requires Find(text, ':') == |text|
    ensures Statement(text) == None
  {
  }

  lemma SameStatement(r: string, k: nat, text: string, f: nat)
    requires k == Find(r, ':') && f == Find(text, ':') && k < |r| && f < |text|
    requires Words(r[..k]) == Words(text[..f]) && Words(r[k + 1..]) == Words(text[f + 1..])
    ensures Statement(r) == Statement(text)
  {
  }

  lemma WordsInside(text: string, i: nat, j: nat, k: nat)
    requires TrimBounds(text, i, j) && k < j - i
    ensures Words(text[..i + k]) == Words(text[i..j][..k]) && Words(text[i + k + 1..]) == Words(text[i..j][k + 1..])
  {
    var r, space, tail := text[i..j], text[..i], text[j..];
    assert Blank(space) && Blank(tail);
    hide *;
    SpaceThenRest(space, r[..k]);
    TrailingSpace(r[k + 1..], tail);
    SlicesInside(text, i, j, k);
  }

  lemma SlicesInside(text: string, i: nat, j: nat, k: nat)
    requires i <= j <= |text| && k < j - i
    ensures text[..i + k] == text[..i] + text[i..j][..k]
    ensures text[i + k + 1..] == text[i..j][k + 1..] + text[j..]
  {
  }

  lemma NoColonInSpace(text: string, i: nat, j: nat)
    requires TrimBounds(text, i, j) && Find(text[i..j], ':') == j - i
    ensures Find(text, ':') == |text|
  {
    assert forall k :: i <= k < j ==> text[k] == text[i..j][k - i] && text[i..j][k - i] in text[i..j];
    assert text[i..j][..j - i] == text[i..j];
    assert !IsSpace(':');
  }

  lemma ColonInside(text: string, i: nat, j: nat, k: nat)
    requires TrimBounds(text, i, j) && k == Find(text[i..j], ':') && k < j - i
    ensures Find(text, ':') == i + k
  {
    var r := text[i..j];
    assert text[i + k] == ':' && !IsSpace(':');
    assert forall l :: i <= l < i + k ==> text[l] == r[l - i] && r[l - i] == r[..k][l - i];
    assert forall l :: 0 <= l < i + k ==> text[l] != ':';
    var f := Find(text, ':');
    assert f <= i + k;
  }

  // ------------------------------------------------------------------------------------------
  // The manifest
  // ------------------------------------------------------------------------------------------

  ghost predicate Unproduced(g: Graph, outputs: seq<Path>)
  {
    NoDup(outputs) && forall o :: o in outputs ==> ProducerOf(g, o).None?
  }

  /** The first output that cannot be had. */
  ghost predicate RefusedOutput(g: Graph, outputs: seq<Path>, e: ParseError)
  {
    exists k :: 0 <= k < |outputs| && e == SecondProducer(outputs[k]) &&
      Unproduced(g, outputs[..k]) && !Unproduced(g, outputs[..k + 1])
  }

  class Manifest {
    var rules: map<string, Rule>
    const graph: BuildGraph.BuildGraph
    /** For every edge, its rule as it was when the build statement was read. */
    ghost var seen: seq<Rule>
    /** How many edges there were before the file that was parsed last. */
    ghost var base: nat

    ghost function G(): Graph
      reads graph
    {
      graph.Value()
    }

    /** Links agree, and the rule of every edge still says what it said at the build statement. */
    ghost predicate Valid()
      reads this, graph
    {
      && Graphs.Valid(G()) && |seen| == |graph.edges|
      && forall e :: 0 <= e < |seen| ==>
           graph.edges[e].rule in rules && rules[graph.edges[e].rule] == seen[e] && seen[e].command != ""
    }

    constructor ()
      ensures Valid() && fresh(graph) && rules == map[] && G() == BuildGraph.Empty() && seen == []
    {
      graph := new BuildGraph.BuildGraph();
      rules, seen, base := map[], [], 0;
    }

    method AddRule(name: string) returns (r: Result<(), ParseError>)
      requires Valid()
      modifies this`rules
      ensures Valid()
      ensures r.Ok? <==> name !in old(rules)
      ensures r.Ok? ==> rules == old(rules)[name := Rule("", "")]
      ensures r.Err? ==> r.error == RuleExists(name) && rules == old(rules)
    {
      if name in rules {
        return Err(RuleExists(name));
      }
      rules := rules[name := Rule("", "")];
      return Ok(());
    }

    /** `set_command` and `set_depfile` on a rule that no edge uses. */
    method ChangeRule(name: string, rule: Rule)
      requires Valid() && name in rules && forall e :: 0 <= e < |graph.edges| ==> graph.edges[e].rule != name
      modifies this`rules
      ensures Valid() && rules == old(rules)[name := rule]
    {
      rules := rules[name := rule];
    }

    /** The edge of a build statement before it has links. */
    method AddEdge(name: string) returns (e: EdgeId)
      requires Valid() && name in rules && rules[name].command != ""
      modifies this`seen, graph
      ensures Valid() && seen == old(seen) + [rules[name]]
      ensures G() == BuildGraph.WithEdge(old(G()), name) && e == |old(graph.edges)|
    {
      e := graph.CreateEdge(name);
      seen := seen + [rules[name]];
    }

    /** Only edge `e` changed, and not its rule. */
    ghost predicate OnlyEdge(before: seq<Edge>, e: EdgeId)
      reads graph
    {
      && |graph.edges| == |before| && e < |before| && graph.edges[e].rule == before[e].rule
      && forall f :: 0 <= f < |before| && f != e ==> graph.edges[f] == before[f]
    }

    /** One output: its node, then the link; the node stays when the link is refused. */
    method LinkOutput(e: EdgeId, output: Path) returns (r: Result<(), BuildGraph.GraphError>)
      requires Valid() && IsEdge(G(), e)
      modifies graph
      ensures Valid() && OnlyEdge(old(graph.edges), e) && graph.edges[e].inputs == old(graph.edges)[e].inputs
      ensures r.Ok? <==> ProducerOf(old(G()), output).None?
      ensures r.Err? ==> r.error == BuildGraph.AlreadyProduced(output)
      ensures graph.edges[e].outputs == old(graph.edges)[e].outputs + if r.Ok? then [output] else []
      ensures forall p :: ProducerOf(G(), p) == if r.Ok? && p == output then Some(e) else ProducerOf(old(G()), p)
    {
      hide Graphs.Valid;
      graph.GetOrCreateNode(output);
      r := graph.AddOutput(e, output);
    }

    method LinkInput(e: EdgeId, input: Path)
      requires Valid() && IsEdge(G(), e)
      modifies graph
      ensures Valid() && OnlyEdge(old(graph.edges), e) && graph.edges[e].outputs == old(graph.edges)[e].outputs
      ensures graph.edges[e].inputs == old(graph.edges)[e].inputs + [input]
    {
      hide Graphs.Valid;
      graph.GetOrCreateNode(input);
      graph.AddInput(e, input);
    }

    /** All outputs, up to the first that has a producer already. */
    method LinkOutputs(e: EdgeId, outputs: seq<Path>) returns (r: Result<(), ParseError>)
      requires Valid() && IsEdge(G(), e) && graph.edges[e].outputs == []
      modifies graph
      ensures Valid() && OnlyEdge(old(graph.edges), e) && graph.edges[e].inputs == old(graph.edges)[e].inputs
      ensures r.Ok? <==> Unproduced(old(G()), outputs)
      ensures r.Ok? ==> graph.edges[e].outputs == outputs
      ensures r.Err? ==> RefusedOutput(old(G()), outputs, r.error)
    {
      hide Graphs.Valid;
      ghost var g0 := G();
      for k := 0 to |outputs|
        invariant Valid() && OnlyEdge(old(graph.edges), e) && graph.edges[e].inputs == old(graph.edges)[e].inputs
        invariant graph.edges[e].outputs == outputs[..k]
        invariant Unproduced(g0, outputs[..k])
        invariant forall p :: ProducerOf(G(), p) == if p in outputs[..k] then Some(e) else ProducerOf(g0, p)
      {
        var linked := LinkOutput(e, outputs[k]);
        assert outputs[..k + 1] == outputs[..k] + [outputs[k]];
        if linked.Err? {
          NotUnproduced(g0, outputs, k);
          NotUnproduced(g0, outputs[..k + 1], k);
          return Err(SecondProducer(outputs[k]));
        }
      }
      assert outputs[..|outputs|] == outputs;
      return Ok(());
    }

    method LinkInputs(e: EdgeId, inputs: seq<Path>)
      requires Valid() && IsEdge(G(), e) && graph.edges[e].inputs == []
      modifies graph
      ensures Valid() && OnlyEdge(old(graph.edges), e) && graph.edges[e].outputs == old(graph.edges)[e].outputs
      ensures graph.edges[e].inputs == inputs
    {
      hide Graphs.Valid;
      for k := 0 to |inputs|
        invariant Valid() && OnlyEdge(old(graph.edges), e) && graph.edges[e].outputs == old(graph.edges)[e].outputs
        invariant graph.edges[e].inputs == inputs[..k]
      {
        LinkInput(e, inputs[k]);
        assert inputs[..k + 1] == inputs[..k] + [inputs[k]];
      }
      assert inputs[..|inputs|] == inputs;
    }
  }

  lemma NotUnproduced(g: Graph, outputs: seq<Path>, k: nat)
    requires k < |outputs| && (outputs[k] in outputs[..k] || ProducerOf(g, outputs[k]).Some?)
    ensures !Unproduced(g, outputs)
  {
    if outputs[k] in outputs[..k] {
      var j :| 0 <= j < k && outputs[j] == outputs[k];
    } else {
      assert outputs[k] in outputs;
    }
  }

  // ------------------------------------------------------------------------------------------
  // The parser
  // ------------------------------------------------------------------------------------------

  predicate StartsWith(text: string, prefix: string)
  {
    prefix <= text
  }

  /** What every edge has after a successful parse. */
  predicate Complete(e: Edge)
  {
    e.inputs != [] && e.outputs != []
  }

  /** The edges from number `base` on. */
  ghost predicate AllComplete(base: nat, edges: seq<Edge>)
  {
    base <= |edges| && forall k :: base <= k < |edges| ==> Complete(edges[k])
  }

  /** A rejected build statement can leave one unfinished edge at the end. */
  ghost predicate CompleteButLast(base: nat, edges: seq<Edge>)
  {
    base <= |edges| && forall k :: base <= k < |edges| - 1 ==> Complete(edges[k])
  }

  /** A trimmed line that starts like a rule statement has a name: that error cannot occur. */
  lemma RuleLineHasName(line: string, name: string)
    requires IsTrimOf(line, line) && StartsWith(line, "rule ") && IsTrimOf(line[5..], name)
    ensures name != ""
  {
    var i: nat, j: nat :| TrimBounds(line, i, j) && line == line[i..j];
    assert |line| == j - i && !IsSpace(line[|line| - 1]) && IsSpace(line[4]);
    assert |line| > 5 && line[5..][|line| - 6] == line[|line| - 1];
    hide StartsWith;
    if name == "" {
      TrimmedAway(line[5..]);
    }
  }

  lemma TrimmedAway(text: string)
    requires IsTrimOf(text, "")
    ensures Blank(text)
  {
    var i: nat, j: nat :| TrimBounds(text, i, j) && "" == text[i..j];
    assert i == j;
  }

  /** What a build statement must be to be accepted. */
  ghost predicate Accepts(rules: map<string, Rule>, g: Graph, text: string)
  {
    && Statement(text).Some?
    && var outputs, parts := Statement(text).value.0, Statement(text).value.1;
    && outputs != [] && |parts| >= 2
    && parts[0] in rules && rules[parts[0]].command != "" && Unproduced(g, outputs)
  }

  /** How far a manifest has been read: its rules, its graph, and the rule that is open. */
  datatype Reading = Reading(rules: map<string, Rule>, g: Graph, current: Option<string>)

  ghost predicate RuleDoes(line: string, s: Reading, s': Reading, ok: bool)
    requires |line| >= 5
  {
    exists name :: IsTrimOf(line[5..], name) && (ok <==> name != "" && name !in s.rules) && s'.g == s.g &&
      s'.rules == (if ok then s.rules[name := Rule("", "")] else s.rules) && (ok ==> s'.current == Some(name))
  }

  ghost predicate PropertyDoes(line: string, isCommand: bool, s: Reading, s': Reading, ok: bool)
    requires |line| >= 9
  {
    exists text :: IsTrimOf(line[9..], text) &&
      (ok <==> s.current.Some? && s.current.value in s.rules && text != "") && s'.g == s.g &&
      s'.rules == (if !ok then s.rules
                   else if isCommand then s.rules[s.current.value := s.rules[s.current.value].(command := text)]
                   else s.rules[s.current.value := s.rules[s.current.value].(depfile := text)]) &&
      (ok ==> s'.current == s.current)
  }

  ghost predicate BuildDoes(line: string, s: Reading, s': Reading, ok: bool)
    requires |line| >= 6
  {
    && s'.rules == s.rules && (ok <==> Accepts(s.rules, s.g, line[6..]))
    && (ok ==> var outputs, parts := Statement(line[6..]).value.0, Statement(line[6..]).value.1;
         s'.g.edges == s.g.edges + [Edge(parts[0], parts[1..], outputs)] && s'.current == None)
  }

  /** What a trimmed line does; `ok` says whether it is accepted. */
  ghost predicate LineDoes(line: string, s: Reading, s': Reading, ok: bool)
  {
    if line == "" || StartsWith(line, "#") then ok && s' == s
    else if StartsWith(line, "rule ") then RuleDoes(line, s, s', ok)
    else if StartsWith(line, "command =") then PropertyDoes(line, true, s, s', ok)
    else if StartsWith(line, "depfile =") then PropertyDoes(line, false, s, s', ok)
    else if StartsWith(line, "build ") then BuildDoes(line, s, s', ok)
    else !ok && s' == s
  }

  /** Which error a rejected build statement is told about: the first of these. */
  ghost predicate BuildBlames(text: string, s: Reading, e: ParseError)
  {
    match Statement(text)
    case None => e == MissingColon
    case Some((outputs, parts)) =>
      if outputs == [] then e == NoOutputs
      else if parts == [] then e == NoRule
      else if |parts| < 2 then e == NoInputs
      else if parts[0] !in s.rules then e == UnknownRule(parts[0])
      else if s.rules[parts[0]].command == "" then e == RuleWithoutCommand(parts[0])
      else RefusedOutput(s.g, outputs, e)
  }

  /** Which error a rejected line is told about. */
  ghost predicate LineBlames(line: string, s: Reading, e: ParseError)
  {
    if StartsWith(line, "rule ") then 
      exists name :: IsTrimOf(line[5..], name) && e == if name == "" then EmptyRuleName else RuleExists(name)
    else if StartsWith(line, "command =") then e == if s.current.None? then CommandOutsideRule else EmptyCommand
    else if StartsWith(line, "depfile =") then e == if s.current.None? then DepfileOutsideRule else EmptyDepfile
    else if StartsWith(line, "build ") then BuildBlames(line[6..], s, e)
    else e == UnknownStatement(line)
  }

  ghost predicate RawLineBlames(raw: string, s: Reading, e: ParseError)
  {
    exists line :: IsTrimOf(raw, line) && LineBlames(line, s, e)
  }

  ghost predicate RawLineDoes(raw: string, s: Reading, s': Reading, ok: bool)
  {
    exists line :: IsTrimOf(raw, line) && LineDoes(line, s, s', ok)
  }

  /** The states between the lines that were read; only the last line may have been rejected. */
  ghost predicate ReadAlong(lines: seq<string>, trace: seq<Reading>, lastOk: bool)
  {
    && 0 < |trace| <= |lines| + 1
    && forall k :: 0 <= k < |trace| - 1 ==> RawLineDoes(lines[k], trace[k], trace[k + 1], k < |trace| - 2 || lastOk)
  }

  /** The last line that was read was rejected; the error names it by its number. */
  ghost predicate Stopped(lines: seq<string>, trace: seq<Reading>, error: Option<(nat, ParseError)>)
  {
    && |trace| > 1 && ReadAlong(lines, trace, false) && error.Some? && error.value.0 == |trace| - 1
    && RawLineBlames(lines[|trace| - 2], trace[|trace| - 2], error.value.1)
  }

  lemma ReadOneMore(lines: seq<string>, trace: seq<Reading>, next: Reading, ok: bool)
    requires ReadAlong(lines, trace, true) && |trace| <= |lines| &&
        RawLineDoes(lines[|trace| - 1], trace[|trace| - 1], next, ok)
    ensures ReadAlong(lines, trace + [next], ok)
  {
    hide RawLineDoes;
    var longer := trace + [next];
    forall k | 0 <= k < |longer| - 1
      ensures RawLineDoes(lines[k], longer[k], longer[k + 1], k < |longer| - 2 || ok)
    {
      if k < |trace| - 1 {
        assert RawLineDoes(lines[k], trace[k], trace[k + 1], true);
      }
    }
  }

  class Parser {
    var section: Section
    var current: Option<string>
    var lineNumber: nat
    var error: Option<(nat, ParseError)>

    /** What holds between two lines. */
    ghost predicate Between(m: Manifest)
      reads this, m, m.graph
    {
      && m.Valid() && AllComplete(m.base, m.graph.edges)
      && (current.Some? ==> section.InRule? && current.value in m.rules && !Used(m, current.value))
    }

    ghost predicate Used(m: Manifest, name: string)
      reads m, m.graph
    {
      exists e :: 0 <= e < |m.graph.edges| && m.graph.edges[e].rule == name
    }

    ghost function State(m: Manifest): Reading
      reads this, m, m.graph
    {
      Reading(m.rules, m.G(), current)
    }

    constructor ()
      ensures section.Nowhere? && current.None? && error.None?
    {
      section, current, lineNumber, error := Nowhere, None, 0, None;
    }

    method Fail(e: ParseError) returns (ok: bool)
      modifies this`error
      ensures !ok && error == Some((lineNumber, e))
    {
      error := Some((lineNumber, e));
      ok := false;
    }

    /** `rule NAME` opens a new rule. */
    method RuleLine(line: string, m: Manifest) returns (ok: bool)
      requires Between(m) && StartsWith(line, "rule ")
      modifies this, m`rules
      ensures Between(m) && lineNumber == old(lineNumber)
      ensures RuleDoes(line, old(State(m)), State(m), ok)
      ensures ok ==> error == old(error)
      ensures !ok ==> exists name :: IsTrimOf(line[5..], name) &&
                        error == Some((lineNumber, if name == "" then EmptyRuleName else RuleExists(name)))
    {
      hide Graphs.Valid;
      var name := Trim(line[5..]);
      if name == "" {
        ok := Fail(EmptyRuleName);
        return;
      }
      var added := m.AddRule(name);
      if added.Err? {
        ok := Fail(added.error);
        return;
      }
      current, section := Some(name), InRule;
      return true;
    }

    /** `command = TEXT` and `depfile = TEXT` complete the rule that was opened last. */
    method RuleProperty(line: string, m: Manifest, isCommand: bool) returns (ok: bool)
      requires Between(m) && |line| >= 9
      modifies this, m`rules
      ensures Between(m) && lineNumber == old(lineNumber)
      ensures PropertyDoes(line, isCommand, old(State(m)), State(m), ok)
      ensures ok ==> error == old(error)
      ensures !ok ==> error == Some((lineNumber,
                if old(current).None? then (if isCommand then CommandOutsideRule else DepfileOutsideRule)
                else if isCommand then EmptyCommand else EmptyDepfile))
    {
      hide Graphs.Valid;
      var text := Trim(line[9..]);
      if !section.InRule? || current.None? {
        ok := Fail(if isCommand then CommandOutsideRule else DepfileOutsideRule);
        return;
      }
      if text == "" {
        ok := Fail(if isCommand then EmptyCommand else EmptyDepfile);
        return;
      }
      var rule := m.rules[current.value];
      m.ChangeRule(current.value, if isCommand then rule.(command := text) else rule.(depfile := text));
      return true;
    }

    /** The words of a build statement, read through `trim`, `find` and `split` as the parser does. */
    method ReadStatement(text: string) returns (r: Option<(seq<string>, seq<string>)>)
      ensures r == Statement(text)
    {
      var content := Trim(text);
      TrimKeepsStatement(text, content);
      var colon := Find(content, ':');
      if colon == |content| {
        return None;
      }
      var outputText := Trim(content[..colon]);
      TrimKeepsWords(content[..colon], outputText);
      var outputs := Split(outputText);
      var rest := Trim(content[colon + 1..]);
      TrimKeepsWords(content[colon + 1..], rest);
      var parts := Split(rest);
      return Some((outputs, parts));
    }

    /**
     `build OUTPUTS : RULE INPUTS` adds exactly one edge with these links, and closes the rule that was open. A
     rejected statement may leave one unfinished edge; all links still agree.
     */
    method BuildLine(line: string, m: Manifest) returns (ok: bool)
      requires Between(m) && StartsWith(line, "build ")
      modifies this, m`seen, m.graph
      ensures m.Valid() && lineNumber == old(lineNumber)
      ensures old(m.graph.edges) <= m.graph.edges && old(m.seen) <= m.seen && CompleteButLast(m.base, m.graph.edges)
      ensures BuildDoes(line, old(State(m)), State(m), ok)
      ensures ok ==> Between(m) && section.InBuild? && current.None? && error == old(error)
      ensures !ok ==> error.Some? && error.value.0 == lineNumber &&
                      BuildBlames(line[6..], old(State(m)), error.value.1)
    {
      hide Graphs.Valid, Unproduced, ProducerOf;
      ghost var g0, edges0 := m.G(), m.graph.edges;
      var statement := ReadStatement(line[6..]);
      hide Statement;
      if statement.None? {
        ok := Fail(MissingColon);
        return;
      }
      var outputs, parts := statement.value.0, statement.value.1;
      if outputs == [] {
        ok := Fail(NoOutputs);
        return;
      }
      if parts == [] {
        ok := Fail(NoRule);
        return;
      }
      if |parts| < 2 {
        ok := Fail(NoInputs);
        return;
      }
      if parts[0] !in m.rules {
        ok := Fail(UnknownRule(parts[0]));
        return;
      }
      if m.rules[parts[0]].command == "" {
        ok := Fail(RuleWithoutCommand(parts[0]));
        return;
      }
      var added := AddStatement(m, parts[0], parts[1..], outputs);
      if added.Err? {
        ok := Fail(added.error);
        return;
      }
      section, current := InBuild, None;
      return true;
    }

    /** Creates the edge, then its outputs, then its inputs. */
    method AddStatement(m: Manifest, rule: string, inputs: seq<Path>, outputs: seq<Path>)
      returns (r: Result<(), ParseError>)
      requires Between(m) && rule in m.rules && m.rules[rule].command != "" && inputs != [] && outputs != []
      modifies m`seen, m.graph
      ensures m.Valid() && old(m.graph.edges) <= m.graph.edges && old(m.seen) <= m.seen &&
          CompleteButLast(m.base, m.graph.edges)
      ensures r.Ok? <==> Unproduced(old(m.G()), outputs)
      ensures r.Err? ==> RefusedOutput(old(m.G()), outputs, r.error)
      ensures r.Ok? ==> m.graph.edges == old(m.graph.edges) + [Edge(rule, inputs, outputs)]
      ensures r.Ok? ==> AllComplete(m.base, m.graph.edges)
    {
      hide Graphs.Valid, Unproduced, ProducerOf;
      ghost var g0, edges0 := m.G(), m.graph.edges;
      var e := m.AddEdge(rule);
      SameProducers(g0, rule, outputs);
      r := m.LinkOutputs(e, outputs);
      if r.Err? {
        SameRefusal(g0, rule, outputs, r.error);
      }
      EdgesKept(m.base, edges0, m.graph.edges, e);
      if r.Ok? {
        m.LinkInputs(e, inputs);
        EdgesKept(m.base, edges0, m.graph.edges, e);
        assert m.graph.edges == edges0 + [Edge(rule, inputs, outputs)];
      }
    }

    /** Nothing that was there before is taken back: edges stay, and so does the rule of every edge. */
    ghost predicate Extends(edges: seq<Edge>, seen: seq<Rule>, m: Manifest)
      reads m, m.graph
    {
      edges <= m.graph.edges && seen <= m.seen
    }

    /** One line: what it does depends on what it says when trimmed. */
    method ParseLine(raw: string, m: Manifest) returns (ok: bool)
      requires Between(m)
      modifies this, m`rules, m`seen, m.graph
      ensures m.Valid() && Extends(old(m.graph.edges), old(m.seen), m) && CompleteButLast(m.base, m.graph.edges)
      ensures RawLineDoes(raw, old(State(m)), State(m), ok)
      ensures lineNumber == old(lineNumber)
      ensures ok ==> Between(m) && error == old(error)
      ensures !ok ==> error.Some? && error.value.0 == lineNumber &&
                      RawLineBlames(raw, old(State(m)), error.value.1)
    {
      hide Graphs.Valid, Statement, Unproduced, LineDoes, LineBlames;
      var line := Trim(raw);
      ok := ParseTrimmed(line, m);
      assert IsTrimOf(raw, line) && LineDoes(line, old(State(m)), State(m), ok);
      assert !ok ==> LineBlames(line, old(State(m)), error.value.1);
    }

    method ParseTrimmed(line: string, m: Manifest) returns (ok: bool)
      requires Between(m)
      modifies this, m`rules, m`seen, m.graph
      ensures m.Valid() && Extends(old(m.graph.edges), old(m.seen), m) && CompleteButLast(m.base, m.graph.edges)
      ensures LineDoes(line, old(State(m)), State(m), ok)
      ensures lineNumber == old(lineNumber)
      ensures ok ==> Between(m) && error == old(error)
      ensures !ok ==> error.Some? && error.value.0 == lineNumber &&
                      LineBlames(line, old(State(m)), error.value.1)
    {
      hide Graphs.Valid, Statement, Unproduced, RuleDoes, PropertyDoes, BuildDoes, BuildBlames;
      if line == "" || StartsWith(line, "#") {
        return true;
      }
      if StartsWith(line, "rule ") {
        ok := RuleLine(line, m);
        return;
      }
      if StartsWith(line, "command =") {
        ok := RuleProperty(line, m, true);
        return;
      }
      if StartsWith(line, "depfile =") {
        ok := RuleProperty(line, m, false);
        return;
      }
      if StartsWith(line, "build ") {
        ok := BuildLine(line, m);
        return;
      }
      ok := Fail(UnknownStatement(line));
    }

    /**
     A whole file. Whatever the lines are and wherever parsing stops, links agree and every node has at most one
     producer. After a success every new edge has inputs and outputs, every edge a command, and the rule of every edge
     says what it said when its build statement was read. An earlier file, even one that was rejected, may have left
     edges before. `trace` has the states between the lines.
     */
    method ParseFile(file: Stored, readError: bool, m: Manifest) returns (ok: bool, ghost trace: seq<Reading>)
      requires m.Valid()
      modifies this, m`rules, m`seen, m`base, m.graph
      ensures m.Valid() && Extends(old(m.graph.edges), old(m.seen), m)
      ensures CompleteButLast(|old(m.graph.edges)|, m.graph.edges)
      ensures ok ==> AllComplete(|old(m.graph.edges)|, m.graph.edges)
      ensures !ok <==> error.Some?
      ensures |trace| > 0 && trace[0] == Reading(old(m.rules), old(m.G()), None) && trace[|trace| - 1] == State(m)
      ensures ok ==> file.Text? && !readError && |trace| == |FileLines(file.text)| + 1
      ensures ok ==> ReadAlong(FileLines(file.text), trace, true)
      ensures forall k :: 0 <= k < |trace| ==> Graphs.Valid(trace[k].g)
      ensures !file.Text? ==> error == Some((0, CannotOpen))
      ensures !ok && file.Text? ==>
        || Stopped(FileLines(file.text), trace, error)
        || (readError && |trace| == |FileLines(file.text)| + 1 && ReadAlong(FileLines(file.text), trace, true) &&
            error == Some((|trace| - 1, ReadError)))
    {
      hide Graphs.Valid, RawLineDoes, ReadAlong, FileLines, Stopped;
      section, current, lineNumber, error := Nowhere, None, 0, None;
      m.base := |m.graph.edges|;
      trace := [State(m)];
      if !file.Text? {
        ok := Fail(CannotOpen);
        return;
      }
      ok, trace := ReadLines(file.text, m);
      if ok && readError {
        ok := Fail(ReadError);
      }
    }

    /** `while (std::getline(file, line))`, up to the first line that is rejected. */
    method ReadLines(text: string, m: Manifest) returns (ok: bool, ghost trace: seq<Reading>)
      requires Between(m) && error.None? && lineNumber == 0
      modifies this, m`rules, m`seen, m.graph
      ensures m.Valid() && Extends(old(m.graph.edges), old(m.seen), m) && CompleteButLast(m.base, m.graph.edges)
      ensures |trace| > 0 && trace[0] == old(State(m)) && trace[|trace| - 1] == State(m)
      ensures forall k :: 0 <= k < |trace| ==> Graphs.Valid(trace[k].g)
      ensures ok ==> AllComplete(m.base, m.graph.edges) && error.None?
      ensures ok ==> |trace| == |FileLines(text)| + 1 && ReadAlong(FileLines(text), trace, true)
      ensures ok ==> lineNumber == |trace| - 1
      ensures !ok ==> error.Some? && Stopped(FileLines(text), trace, error)
    {
      hide Graphs.Valid, RawLineDoes, RawLineBlames, ReadAlong, FileLines;
      ghost var lines := FileLines(text);
      var rest := text;
      trace := [State(m)];
      NothingRead(lines, trace);
      while rest != ""
        invariant Between(m) && Extends(old(m.graph.edges), old(m.seen), m) && error.None?
        invariant |trace| > 0 && trace[0] == old(State(m)) && trace[|trace| - 1] == State(m)
        invariant forall k :: 0 <= k < |trace| ==> Graphs.Valid(trace[k].g)
        invariant lineNumber == |trace| - 1
        invariant StillToRead(lines, trace, rest)
        decreases |rest|
      {
        lineNumber := lineNumber + 1;
        ok := ParseLine(Line(rest), m);
        ReadNext(lines, trace, rest, State(m), ok);
        trace := trace + [State(m)];
        if !ok {
          return;
        }
        rest := AfterLine(rest);
      }
      AllRead(lines, trace);
      ok := true;
    }
  }

  /** The lines before `rest` were read and accepted. */
  ghost predicate StillToRead(lines: seq<string>, trace: seq<Reading>, rest: string)
  {
    ReadAlong(lines, trace, true) && |trace| - 1 <= |lines| && FileLines(rest) == lines[|trace| - 1..]
  }

  lemma NothingRead(lines: seq<string>, trace: seq<Reading>)
    requires |trace| == 1
    ensures forall text :: lines == FileLines(text) ==> StillToRead(lines, trace, text)
  {
    assert lines[0..] == lines;
  }

  lemma ReadNext(lines: seq<string>, trace: seq<Reading>, rest: string, next: Reading, ok: bool)
    requires StillToRead(lines, trace, rest) && rest != "" && RawLineDoes(Line(rest), trace[|trace| - 1], next, ok)
    ensures ReadAlong(lines, trace + [next], ok) && |trace| <= |lines| && lines[|trace| - 1] == Line(rest)
    ensures ok ==> StillToRead(lines, trace + [next], AfterLine(rest))
  {
    hide RawLineDoes, Line, AfterLine;
    NextLine(lines, |trace| - 1, rest);
    hide FileLines;
    ReadOneMore(lines, trace, next, ok);
  }

  lemma AllRead(lines: seq<string>, trace: seq<Reading>)
    requires StillToRead(lines, trace, "")
    ensures |trace| == |lines| + 1 && ReadAlong(lines, trace, true)
  {
    hide RawLineDoes;
    assert |lines[|trace| - 1..]| == 0;
  }

  lemma NextLine(lines: seq<string>, k: nat, rest: string)
    requires k <= |lines| && rest != "" && FileLines(rest) == lines[k..]
    ensures k < |lines| && lines[k] == Line(rest) && FileLines(AfterLine(rest)) == lines[k + 1..]
  {
    hide Line, AfterLine;
    assert lines[k..][0] == lines[k] && lines[k..][1..] == lines[k + 1..];
  }

  lemma SameProducers(g: Graph, rule: string, outputs: seq<Path>)
    ensures Unproduced(BuildGraph.WithEdge(g, rule), outputs) <==> Unproduced(g, outputs)
  {
  }

  lemma SameRefusal(g: Graph, rule: string, outputs: seq<Path>, e: ParseError)
    requires RefusedOutput(BuildGraph.WithEdge(g, rule), outputs, e)
    ensures RefusedOutput(g, outputs, e)
  {
    hide Unproduced, BuildGraph.WithEdge;
    var k :| 0 <= k < |outputs| && e == SecondProducer(outputs[k]) &&
      Unproduced(BuildGraph.WithEdge(g, rule), outputs[..k]) &&
      !Unproduced(BuildGraph.WithEdge(g, rule), outputs[..k + 1]);
    SameProducers(g, rule, outputs[..k]);
    SameProducers(g, rule, outputs[..k + 1]);
  }

  lemma EdgesKept(base: nat, before: seq<Edge>, after: seq<Edge>, e: EdgeId)
    requires e == |before| && |after| == |before| + 1 && AllComplete(base, before)
    requires forall f :: 0 <= f < |before| ==> after[f] == before[f]
    ensures before <= after && CompleteButLast(base, after)
  {
  }
}
