/**
 `Edge::command` and `Edge::depfile`: a rule's template with `$in` and then `$out` replaced. Two replacements in a
 row are not one simultaneous substitution; here is exactly when they are.
 */
module Commands {
  import opened Prelude
  import opened LineFormat
  import opened Text

  const IN := "$in"
  const OUT := "$out"

  /** Both placeholders at once, in one pass over the template. */
  function Substituted(template: string, inputs: string, outputs: string): string
    decreases |template|
  {
    if template == "" then ""
    else if HereIs(template, 0, IN) then inputs + Substituted(template[3..], inputs, outputs)
    else if HereIs(template, 0, OUT) then outputs + Substituted(template[4..], inputs, outputs)
    else [template[0]] + Substituted(template[1..], inputs, outputs)
  }

  /** What the two calls of `replace_all` make. */
  function Sequential(template: string, inputs: string, outputs: string): string
  {
    Replaced(Replaced(template, IN, inputs), OUT, outputs)
  }

  /** The paths of one side of an edge, separated by single spaces. */
  method JoinPaths(paths: seq<string>) returns (text: string)
    ensures text == Joined(paths)
  {
    text := "";
    for i := 0 to |paths|
      invariant text == Joined(paths[..i])
    {
      JoinedOneMore(paths[..i], paths[i]);
      assert paths[..i + 1] == paths[..i] + [paths[i]];
      if i != 0 {
        text := text + " ";
      }
      text := text + paths[i];
    }
    assert paths[..|paths|] == paths;
  }

  lemma {:induction false} JoinedOneMore(paths: seq<string>, path: string)
    ensures Joined(paths + [path]) == if paths == [] then path else Joined(paths) + " " + path
  {
    if |paths| > 1 {
      JoinedOneMore(paths[1..], path);
      assert (paths + [path])[1..] == paths[1..] + [path];
    } else if |paths| == 1 {
      assert (paths + [path])[1..] == [path];
    } else {
      assert [] + [path] == [path];
    }
  }

  method Command(template: string, inputs: seq<string>, outputs: seq<string>) returns (command: string)
    ensures command == Sequential(template, Joined(inputs), Joined(outputs))
    ensures command == Replaced(Replaced(template, "$in", Joined(inputs)), "$out", Joined(outputs))
  {
    command := template;
    var input := JoinPaths(inputs);
    var output := JoinPaths(outputs);
    command := ReplaceAll(command, IN, input);
    command := ReplaceAll(command, OUT, output);
  }

  method DepfilePath(template: string, inputs: seq<string>, outputs: seq<string>) returns (path: string)
    ensures path == if template == "" then "" else Sequential(template, Joined(inputs), Joined(outputs))
  {
    if template == "" {
      return "";
    }
    path := Command(template, inputs, outputs);
  }

  // ------------------------------------------------------------------------------------------
  // The template cut at its own `$out`s
  // ------------------------------------------------------------------------------------------

  function InFront(s: string, segments: seq<string>): (r: seq<string>)
    requires |segments| > 0
    ensures |r| > 0
  {
    [s + segments[0]] + segments[1..]
  }

  /** The texts between the `$out`s of the template, with every `$in` of the template filled in. */
  function Segments(template: string, inputs: string): (segments: seq<string>)
    ensures |segments| > 0
    decreases |template|
  {
    if template == "" then [""]
    else if HereIs(template, 0, IN) then InFront(inputs, Segments(template[3..], inputs))
    else if HereIs(template, 0, OUT) then [""] + Segments(template[4..], inputs)
    else InFront([template[0]], Segments(template[1..], inputs))
  }

  lemma GlueInFront(s: string, segments: seq<string>, between: string)
    requires |segments| > 0
    ensures Glue(InFront(s, segments), between) == s + Glue(segments, between)
  {
    var more := InFront(s, segments);
    assert more[1..] == segments[1..];
    if |segments| > 1 {
      assert s + segments[0] + between + Glue(segments[1..], between) ==
             s + (segments[0] + between + Glue(segments[1..], between));
    }
  }

  lemma GlueEmptyInFront(segments: seq<string>, between: string)
    requires |segments| > 0
    ensures Glue([""] + segments, between) == between + Glue(segments, between)
  {
    assert ([""] + segments)[1..] == segments;
  }

  lemma {:induction false} SubstitutedIsGlued(template: string, inputs: string, outputs: string)
    ensures Substituted(template, inputs, outputs) == Glue(Segments(template, inputs), outputs)
    decreases |template|
  {
    hide Glue, InFront;
    if template == "" {
      OneSegment("", outputs);
    } else if HereIs(template, 0, IN) {
      SubstitutedIsGlued(template[3..], inputs, outputs);
      GlueInFront(inputs, Segments(template[3..], inputs), outputs);
    } else if HereIs(template, 0, OUT) {
      SubstitutedIsGlued(template[4..], inputs, outputs);
      GlueEmptyInFront(Segments(template[4..], inputs), outputs);
    } else {
      SubstitutedIsGlued(template[1..], inputs, outputs);
      GlueInFront([template[0]], Segments(template[1..], inputs), outputs);
    }
  }

  lemma OneSegment(s: string, between: string)
    ensures Glue([s], between) == s
  {
  }

  lemma FindSkips(s: string, from: string)
    requires s != "" && !HereIs(s, 0, from)
    ensures FindText(s, from) == FindText(s[1..], from) + 1
  {
  }

  /** A character that starts no occurrence is passed over. */
  lemma PassOver(s: string, from: string, to: string)
    requires s != "" && from != "" && !HereIs(s, 0, from)
    ensures Replaced(s, from, to) == [s[0]] + Replaced(s[1..], from, to)
  {
    var k, rest := FindText(s[1..], from), s[1..];
    FindSkips(s, from);
    hide FindText, HereIs;
    if k <= |rest| {
      ReplacedStep(s, k + 1, from, to);
      ReplacedStep(rest, k, from, to);
      hide *;
      InFrontOfSlices(s, k, |from|);
      Regroup([s[0]], rest[..k] + to, Replaced(rest[k + |from|..], from, to));
      Regroup([s[0]], rest[..k], to);
    } else {
      NothingFound(s, from, to);
      NothingFound(rest, from, to);
      assert s == [s[0]] + rest;
    }
  }

  lemma NothingFound(s: string, from: string, to: string)
    requires FindText(s, from) > |s|
    ensures Replaced(s, from, to) == s
  {
    hide FindText;
    assert from != "" ==> Pieces(s, from) == [s];
  }

  lemma InFrontOfSlices(s: string, k: nat, n: nat)
    requires s != "" && k + n < |s|
    ensures s[..k + 1] == [s[0]] + s[1..][..k] && s[k + 1 + n..] == s[1..][k + n..]
  {
  }

  lemma FoundAtOnce(s: string, from: string)
    requires HereIs(s, 0, from)
    ensures FindText(s, from) == 0
  {
  }

  lemma TakeFirst(s: string, from: string, to: string)
    requires from != "" && HereIs(s, 0, from)
    ensures Replaced(s, from, to) == to + Replaced(s[|from|..], from, to)
  {
    FoundAtOnce(s, from);
    ReplacedStep(s, 0, from, to);
    hide *;
    assert s[..0] + to == to;
  }

  /** The first pass leaves the segments, with the template's own `$out`s between them. */
  lemma {:induction false} FirstPass(template: string, inputs: string)
    ensures Replaced(template, IN, inputs) == Glue(Segments(template, inputs), OUT)
    decreases |template|
  {
    hide Replaced, Glue, InFront;
    if template == "" {
      OneSegment("", OUT);
      NothingToReplace(inputs);
    } else if HereIs(template, 0, IN) {
      FirstPass(template[3..], inputs);
      TakeFirst(template, IN, inputs);
      GlueInFront(inputs, Segments(template[3..], inputs), OUT);
    } else if HereIs(template, 0, OUT) {
      FirstPass(template[4..], inputs);
      PassOverOut(template, inputs);
      GlueEmptyInFront(Segments(template[4..], inputs), OUT);
    } else {
      FirstPass(template[1..], inputs);
      PassOver(template, IN, inputs);
      GlueInFront([template[0]], Segments(template[1..], inputs), OUT);
    }
  }

  lemma NothingToReplace(inputs: string)
    ensures Replaced("", IN, inputs) == ""
  {
    OneSegment("", inputs);
    assert FindText("", IN) == 1;
  }

  lemma PassOverOut(template: string, inputs: string)
    requires HereIs(template, 0, OUT)
    ensures Replaced(template, IN, inputs) == OUT + Replaced(template[4..], IN, inputs)
  {
    var t := template;
    assert t[0] == OUT[0] && t[1] == OUT[1] && t[2] == OUT[2] && t[3] == OUT[3];
    PassOverOne(t, inputs);
    PassOverOne(t[1..], inputs);
    PassOverOne(t[2..], inputs);
    PassOverOne(t[3..], inputs);
    assert t[1..][1..] == t[2..] && t[2..][1..] == t[3..] && t[3..][1..] == t[4..];
    hide *;
    FourInFront(t, Replaced(t[4..], IN, inputs));
  }

  lemma PassOverOne(s: string, inputs: string)
    requires s != "" && (s[0] != '$' || (|s| > 1 && s[1] == 'o'))
    ensures Replaced(s, IN, inputs) == [s[0]] + Replaced(s[1..], IN, inputs)
  {
    assert IN[0] == '$' && IN[1] == 'i';
    hide Replaced;
    PassOver(s, IN, inputs);
  }

  lemma FourInFront(t: string, rest: string)
    requires |t| >= 4 && t[0] == '$' && t[1] == 'o' && t[2] == 'u' && t[3] == 't'
    ensures [t[0]] + ([t[1]] + ([t[2]] + ([t[3]] + rest))) == OUT + rest
  {
  }

  // ------------------------------------------------------------------------------------------
  // The second pass
  // ------------------------------------------------------------------------------------------

  /** No occurrence of `$out` reaches from a text into a `$out` that follows it. */
  lemma NoStraddling(a: string, b: string, i: nat)
    requires HereIs(a + OUT + b, i, OUT) && i < |a|
    ensures HereIs(a, i, OUT)
  {
    var s := a + OUT + b;
    assert s[|a|] == '$' && OUT[1] == 'o' && OUT[2] == 'u' && OUT[3] == 't';
    assert forall j :: 0 <= j < 4 ==> OUT[j] == s[i + j];
    assert |a| - i >= 4;
    assert s[..|a|] == a;
    HereIsWithin(s, |a|, i, OUT);
  }

  lemma HereIsWithin(s: string, n: nat, i: nat, from: string)
    requires HereIs(s, i, from) && i + |from| <= n <= |s|
    ensures HereIs(s[..n], i, from)
  {
    forall j | 0 <= j < |from|
      ensures from[j] == s[..n][i + j]
    {
      assert from[j] == s[i + j];
    }
  }

  lemma FirstCut(a: string, b: string)
    ensures FindText(a + OUT + b, OUT) == if FindText(a, OUT) <= |a| then FindText(a, OUT) else |a|
  {
    var s, k := a + OUT + b, FindText(a, OUT);
    OutIsThere(a, b);
    var i := FindText(s, OUT);
    hide FindText;
    if i < |a| {
      NoStraddling(a, b, i);
    }
    if k <= |a| {
      assert k + 4 <= |a|;
      FoundInFront(a, b, k);
    }
    hide HereIs;
  }

  lemma OutIsThere(a: string, b: string)
    ensures HereIs(a + OUT + b, |a|, OUT)
  {
  }

  lemma FoundInFront(a: string, b: string, k: nat)
    requires HereIs(a, k, OUT)
    ensures HereIs(a + OUT + b, k, OUT)
  {
    assert (a + OUT + b)[..|a|] == a;
    HereIsInPrefix(a + OUT + b, |a|, k, OUT);
  }

  /** The second pass cuts each side of a `$out` on its own. */
  lemma {:induction false} CutsApart(a: string, b: string)
    ensures Pieces(a + OUT + b, OUT) == Pieces(a, OUT) + Pieces(b, OUT)
    decreases |a|
  {
    hide Pieces, FindText, HereIs;
    var k := FindText(a, OUT);
    if k <= |a| {
      FirstPiece(a, k, OUT);
      FirstOfBoth(a, b, k);
      var rest := a[k + 4..];
      CutsApart(rest, b);
      Regroup([a[..k]], Pieces(rest, OUT), Pieces(b, OUT));
    } else {
      LastPiece(a);
      LastOfFirst(a, b);
    }
  }

  lemma FirstOfBoth(a: string, b: string, k: nat)
    requires k == FindText(a, OUT) && k <= |a|
    ensures k + 4 <= |a| && Pieces(a + OUT + b, OUT) == [a[..k]] + Pieces(a[k + 4..] + OUT + b, OUT)
  {
    FirstCut(a, b);
    FirstPiece(a, k, OUT);
    hide Pieces, FindText, HereIs;
    SlicesOfBoth(a, b, k);
    PieceAndRest(a + OUT + b, k, a[..k], a[k + 4..] + OUT + b);
  }

  lemma PieceAndRest(s: string, k: nat, head: string, tail: string)
    requires k == FindText(s, OUT) && k + 4 <= |s| && s[..k] == head && s[k + 4..] == tail
    ensures Pieces(s, OUT) == [head] + Pieces(tail, OUT)
  {
    FirstPiece(s, k, OUT);
    hide *;
  }

  lemma SlicesOfBoth(a: string, b: string, k: nat)
    requires k + 4 <= |a|
    ensures (a + OUT + b)[..k] == a[..k] && (a + OUT + b)[k + 4..] == a[k + 4..] + OUT + b
  {
  }

  lemma LastOfFirst(a: string, b: string)
    requires FindText(a, OUT) > |a|
    ensures Pieces(a + OUT + b, OUT) == [a] + Pieces(b, OUT)
  {
    FirstCut(a, b);
    FirstPiece(a + OUT + b, |a|, OUT);
    hide *;
    assert (a + OUT + b)[..|a|] == a && (a + OUT + b)[|a| + 4..] == b;
  }

  lemma LastPiece(a: string)
    requires FindText(a, OUT) > |a|
    ensures Pieces(a, OUT) == [a]
  {
  }

  /** No segment contains `$out`. */
  ghost predicate Separate(segments: seq<string>)
  {
    forall i :: 0 <= i < |segments| ==> FindText(segments[i], OUT) > |segments[i]|
  }

  /** Cutting the glued segments gives them back exactly when none contains `$out`; otherwise there are more cuts. */
  lemma {:induction false} CutGlued(segments: seq<string>)
    requires |segments| > 0
    ensures Separate(segments) ==> Pieces(Glue(segments, OUT), OUT) == segments
    ensures !Separate(segments) ==> |Pieces(Glue(segments, OUT), OUT)| > |segments|
    ensures |Pieces(Glue(segments, OUT), OUT)| >= |segments|
    decreases |segments|
  {
    var first, rest := segments[0], segments[1..];
    OnePieceOrMore(first);
    if |segments| == 1 {
      assert segments == [first];
      hide Pieces, FindText;
    } else {
      CutGlued(rest);
      CutsApart(first, Glue(rest, OUT));
      hide Pieces, FindText;
      assert segments == [first] + rest;
      SeparateParts(segments);
    }
  }

  lemma OnePieceOrMore(s: string)
    ensures if FindText(s, OUT) > |s| then Pieces(s, OUT) == [s] else |Pieces(s, OUT)| > 1
  {
    hide FindText;
  }

  lemma SeparateParts(segments: seq<string>)
    requires |segments| > 0
    ensures Separate(segments) <==> FindText(segments[0], OUT) > |segments[0]| && Separate(segments[1..])
  {
    hide FindText;
    var rest := segments[1..];
    assert forall i :: 0 < i < |segments| ==> segments[i] == rest[i - 1];
  }

  lemma {:induction false} GlueLength(pieces: seq<string>, from: string, to: string)
    requires |pieces| > 0
    ensures |Glue(pieces, to)| == |Glue(pieces, from)| + (|pieces| - 1) * (|to| - |from|)
    decreases |pieces|
  {
    if |pieces| > 1 {
      GlueLength(pieces[1..], from, to);
      OneMore(|pieces| - 2, |to| - |from|);
    }
  }

  lemma OneMore(n: int, d: int)
    ensures (n + 1) * d == n * d + d
  {
  }

  lemma {:induction false} GlueJoined(a: seq<string>, b: seq<string>, to: string)
    requires |a| > 0 && |b| > 0
    ensures Glue(a + b, to) == Glue(a, to) + to + Glue(b, to)
    decreases |a|
  {
    if |a| == 1 {
      assert (a + b)[1..] == b;
    } else {
      GlueJoined(a[1..], b, to);
      assert (a + b)[1..] == a[1..] + b;
      hide Glue;
      Regroup(a[0] + to, Glue(a[1..], to) + to, Glue(b, to));
      Regroup(a[0] + to, Glue(a[1..], to), to);
    }
  }

  /** Both passes together, in terms of the segments: first all is cut anew at `$out`, or it is not. */
  lemma SequentialIsGlued(template: string, inputs: string, outputs: string)
    ensures Sequential(template, inputs, outputs) ==
            Glue(Pieces(Glue(Segments(template, inputs), OUT), OUT), outputs)
    ensures Substituted(template, inputs, outputs) == Glue(Segments(template, inputs), outputs)
  {
    FirstPass(template, inputs);
    SubstitutedIsGlued(template, inputs, outputs);
    hide Segments, Glue, Pieces, Substituted;
  }

  lemma CutAndGlued(s: string, from: string)
    requires from != ""
    ensures |Pieces(s, from)| > 0 && Glue(Pieces(s, from), from) == s
  {
    hide *;
    PiecesAreLeftmost(s, from);
  }

  /** With a filler of another width than what it replaces, the numbers of pieces tell. */
  lemma OtherWidth(segments: seq<string>, from: string, to: string)
    requires |segments| > 0 && from != "" && |to| != |from|
    requires |Pieces(Glue(segments, from), from)| > |segments|
    ensures Glue(Pieces(Glue(segments, from), from), to) != Glue(segments, to)
  {
    hide *;
    var text := Glue(segments, from);
    var pieces := Pieces(text, from);
    CutAndGlued(text, from);
    GlueLength(pieces, from, to);
    GlueLength(segments, from, to);
    DifferentCounts(|pieces| - 1, |segments| - 1, |to| - |from|);
  }

  /** A text cut at `from` and glued with another filler of the same width is another text. */
  lemma OneSegmentTells(s: string, pieces: seq<string>, from: string, to: string)
    requires from != "" && |to| == |from| && to != from && pieces == Pieces(s, from) && Glue(pieces, to) == s
    ensures FindText(s, from) > |s|
  {
    hide *;
    if FindText(s, from) <= |s| {
      MorePieces(s, from);
      CutAndGlued(s, from);
      OneFiller(pieces, from, to);
    }
  }

  lemma MorePieces(s: string, from: string)
    requires from != "" && FindText(s, from) <= |s|
    ensures |Pieces(s, from)| > 1
  {
    hide FindText;
  }

  lemma OneFiller(pieces: seq<string>, from: string, to: string)
    requires |pieces| > 1 && |from| == |to| && Glue(pieces, from) == Glue(pieces, to)
    ensures from == to
  {
    var a, b := Glue(pieces[1..], from), Glue(pieces[1..], to);
    assert Glue(pieces, from) == pieces[0] + from + a && Glue(pieces, to) == pieces[0] + to + b;
    hide *;
    SameMiddle(pieces[0], from, a, to, b);
  }

  lemma SameMiddle(a: string, b: string, c: string, b': string, c': string)
    requires |b| == |b'| && a + b + c == a + b' + c'
    ensures b == b' && c == c'
  {
    var left, right := a + b + c, a + b' + c';
    assert left[|a|..|a| + |b|] == b && right[|a|..|a| + |b|] == b';
    assert left[|a| + |b|..] == c && right[|a| + |b|..] == c';
  }

  lemma SameLength(s: string, from: string, to: string)
    requires from != "" && |to| == |from|
    ensures |Glue(Pieces(s, from), to)| == |s|
  {
    hide *;
    CutAndGlued(s, from);
    GlueLength(Pieces(s, from), from, to);
  }

  /** With a filler of the same width all positions stay aligned, and each segment can be looked at alone. */
  lemma AlignedParts(first: string, rest: seq<string>, from: string, to: string)
    requires |rest| > 0 && from != "" && |to| == |from|
    requires Pieces(Glue([first] + rest, from), from) == Pieces(first, from) + Pieces(Glue(rest, from), from)
    requires Glue(Pieces(Glue([first] + rest, from), from), to) == Glue([first] + rest, to)
    ensures Glue(Pieces(first, from), to) == first
    ensures Glue(Pieces(Glue(rest, from), from), to) == Glue(rest, to)
  {
    hide *;
    var p, q := Pieces(first, from), Pieces(Glue(rest, from), from);
    SameLength(first, from, to);
    GlueJoined(p, q, to);
    GlueJoined([first], rest, to);
    OneSegment(first, to);
    SameEnds(Glue(p, to), to, Glue(q, to), first, Glue(rest, to));
  }

  lemma SameEnds(a: string, b: string, c: string, a': string, c': string)
    requires |a| == |a'| && a + b + c == a' + b + c'
    ensures a == a' && c == c'
  {
    var left, right := a + b + c, a' + b + c';
    assert left[..|a|] == a && right[..|a|] == a';
    assert left[|a| + |b|..] == c && right[|a| + |b|..] == c';
  }

  lemma CutsOffFirst(first: string, rest: seq<string>)
    requires |rest| > 0
    ensures Pieces(Glue([first] + rest, OUT), OUT) == Pieces(first, OUT) + Pieces(Glue(rest, OUT), OUT)
  {
    GlueJoined([first], rest, OUT);
    OneSegment(first, OUT);
    CutsApart(first, Glue(rest, OUT));
    hide Pieces, Glue, FindText;
  }

  /** `from` is `$out`; its text plays no part here, only its width. */
  lemma {:induction false} SameWidth(segments: seq<string>, from: string, to: string)
    requires |segments| > 0 && from == OUT && |to| == |from| == 4 && to != from
    requires Glue(Pieces(Glue(segments, from), from), to) == Glue(segments, to)
    ensures Separate(segments)
    decreases |segments|
  {
    hide *;
    var first, rest := segments[0], segments[1..];
    assert segments == [first] + rest;
    if |segments| == 1 {
      assert segments == [first];
      OneSegment(first, from);
      OneSegment(first, to);
      OneSegmentTells(first, Pieces(first, from), from, to);
      NothingIsSeparate();
    } else {
      CutsOffFirst(first, rest);
      AlignedParts(first, rest, from, to);
      OneSegmentTells(first, Pieces(first, from), from, to);
      SameWidth(rest, from, to);
    }
    SeparateParts(segments);
  }

  lemma NothingIsSeparate()
    ensures Separate([])
  {
  }

  /** Cutting the glued segments anew changes nothing exactly when no segment holds `$out`, or the filler is `$out`. */
  lemma GluedAlike(segments: seq<string>, to: string)
    requires |segments| > 0
    ensures Glue(Pieces(Glue(segments, OUT), OUT), to) == Glue(segments, to) <==> Separate(segments) || to == OUT
  {
    assert |OUT| == 4;
    hide *;
    CutGlued(segments);
    CutAndGlued(Glue(segments, OUT), OUT);
    if !Separate(segments) && to != OUT {
      if |to| != 4 {
        OtherWidth(segments, OUT, to);
      } else if Glue(Pieces(Glue(segments, OUT), OUT), to) == Glue(segments, to) {
        SameWidth(segments, OUT, to);
      }
    }
  }

  /**
   The two replacements are the simultaneous substitution exactly when filling `$in` into the template makes no new
   `$out`, or the outputs are `$out` themselves.
   */
  lemma SequentialIsSimultaneous(template: string, inputs: string, outputs: string)
    ensures Sequential(template, inputs, outputs) == Substituted(template, inputs, outputs) <==>
            Separate(Segments(template, inputs)) || outputs == OUT
  {
    SequentialIsGlued(template, inputs, outputs);
    hide Sequential, Substituted, Segments, Separate, Glue, Pieces;
    GluedAlike(Segments(template, inputs), outputs);
  }

  lemma DifferentCounts(m: int, n: int, d: int)
    requires m != n && d != 0
    ensures m * d != n * d
  {
    assert m * d - n * d == (m - n) * d;
    if m > n {
      MoreThan(m - n, d);
    } else {
      MoreThan(n - m, d);
    }
  }

  lemma {:induction false} MoreThan(k: int, d: int)
    requires k > 0 && d != 0
    ensures d > 0 ==> k * d > 0
    ensures d < 0 ==> k * d < 0
  {
    if k > 1 {
      MoreThan(k - 1, d);
      assert k * d == (k - 1) * d + d;
    }
  }

  /** Every `$` of the template begins a placeholder. */
  ghost predicate OnlyPlaceholders(template: string)
  {
    forall k :: 0 <= k < |template| && template[k] == '$' ==> HereIs(template, k, IN) || HereIs(template, k, OUT)
  }

  lemma {:induction false} SegmentsAreFree(template: string, inputs: string)
    requires OnlyPlaceholders(template) && '$' !in inputs
    ensures forall i :: 0 <= i < |Segments(template, inputs)| ==> '$' !in Segments(template, inputs)[i]
    decreases |template|
  {
    if template != "" {
      var n := if HereIs(template, 0, IN) then 3 else if HereIs(template, 0, OUT) then 4 else 1;
      var rest := template[n..];
      forall k | 0 <= k < |rest| && rest[k] == '$'
        ensures HereIs(rest, k, IN) || HereIs(rest, k, OUT)
      {
        assert template[n + k] == '$';
        if HereIs(template, n + k, IN) {
          ShiftBy(template, n, k, IN);
        } else {
          ShiftBy(template, n, k, OUT);
        }
      }
      assert OnlyPlaceholders(rest);
      SegmentsAreFree(rest, inputs);
    }
  }

  lemma ShiftBy(s: string, n: nat, k: nat, from: string)
    requires n + k <= |s| && HereIs(s, n + k, from)
    ensures HereIs(s[n..], k, from)
  {
    forall j | 0 <= j < |from|
      ensures from[j] == s[n..][k + j]
    {
      assert from[j] == s[n + k + j];
    }
  }

  lemma FreeTextIsSeparate(s: string)
    requires '$' !in s
    ensures FindText(s, OUT) > |s|
  {
    assert OUT[0] == '$';
    assert forall i :: 0 <= i < |s| ==> s[i] in s;
    assert forall i: nat :: HereIs(s, i, OUT) ==> OUT[0] == s[i + 0];
  }

  /** With `$`-free input paths and a template whose `$`s are all placeholders, the command is what it looks like. */
  lemma PlainPathsAreSubstituted(template: string, inputs: string, outputs: string)
    requires OnlyPlaceholders(template) && '$' !in inputs
    ensures Sequential(template, inputs, outputs) == Substituted(template, inputs, outputs)
  {
    SegmentsAreFree(template, inputs);
    var segments := Segments(template, inputs);
    forall i | 0 <= i < |segments|
      ensures FindText(segments[i], OUT) > |segments[i]|
    {
      FreeTextIsSeparate(segments[i]);
    }
    SequentialIsSimultaneous(template, inputs, outputs);
  }

  /** An input path that contains `$out` is rewritten by the second pass. */
  lemma DollarInInputIsRewritten(outputs: string)
    requires outputs != OUT
    ensures Sequential(IN, OUT, outputs) != Substituted(IN, OUT, outputs)
  {
    TakeFirst(IN, IN, OUT);
    NothingToReplace(OUT);
    assert IN[3..] == "" && OUT + "" == OUT;
    TakeFirst(OUT, OUT, outputs);
    assert OUT[4..] == "" && FindText("", OUT) == 1;
    NothingFound("", OUT, outputs);
    assert outputs + "" == outputs;
    assert Sequential(IN, OUT, outputs) == outputs;
    assert Substituted(IN, OUT, outputs) == OUT + Substituted("", OUT, outputs);
  }
}
