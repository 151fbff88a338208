/**
 `Depfile::parse`: continuation lines are folded, the target stands before the first colon, and the dependencies
 are the words behind it. Escapes are not interpreted.
 */
module Depfile {
  import opened Prelude
  import opened LineFormat
  import opened Text

  /** Whether a continuation starts here, and how long it is. */
  function Continuation(s: string): (n: nat)
    ensures n <= |s|
  {
    if |s| >= 2 && s[0] == '\\' && s[1] == '\n' then 2
    else if |s| >= 3 && s[0] == '\\' && s[1] == '\r' && s[2] == '\n' then 3
    else 0
  }

  /** A backslash before a line end joins two lines with a space. */
  function Folded(s: string): string
    decreases |s|
  {
    if s == "" then ""
    else if Continuation(s) > 0 then " " + Folded(s[Continuation(s)..])
    else [s[0]] + Folded(s[1..])
  }

  datatype Contents = Contents(output: string, inputs: seq<string>)

  function Read(text: string): Option<Contents>
  {
    var s := Folded(text);
    var k := Find(s, ':');
    if k == |s| then None else Some(Contents(s[..k], Words(s[k + 1..])))
  }

  class Depfile {
    var output: string
    var inputs: seq<string>

    constructor ()
      ensures output == "" && inputs == []
    {
      output, inputs := "", [];
    }

    method Parse(text: string) returns (ok: bool)
      modifies this
      ensures ok <==> ':' in text
      ensures ok <==> Read(text).Some?
      ensures ok ==> output == Read(text).value.output && inputs == Read(text).value.inputs
      ensures !ok ==> output == "" && inputs == []
    {
      output, inputs := "", [];
      FoldKeepsColons(text);
      var normalized := Fold(text);
      var colon := Find(normalized, ':');
      if colon == |normalized| {
        return false;
      }
      output := normalized[..colon];
      inputs := Split(normalized[colon + 1..]);
      return true;
    }
  }

  lemma {:induction false} FoldKeepsColons(s: string)
    ensures ':' in Folded(s) <==> ':' in s
    decreases |s|
  {
    if s != "" {
      var n := Continuation(s);
      var rest := if n > 0 then s[n..] else s[1..];
      FoldKeepsColons(rest);
      assert s == (if n > 0 then s[..n] else [s[0]]) + rest;
      assert n > 0 ==> ':' !in s[..n];
    }
  }

  /** What is folded, followed by the rest folded, is the whole text folded. */
  ghost predicate Halfway(normalized: string, i: nat, text: string)
  {
    i <= |text| && normalized + Folded(text[i..]) == Folded(text)
  }

  /** The index loop that fills `normalized`. */
  method Fold(text: string) returns (normalized: string)
    ensures normalized == Folded(text)
  {
    normalized := "";
    var i := 0;
    assert text[0..] == text;
    assert Halfway(normalized, i, text);
    hide Folded, Continuation, Halfway;
    while i < |text|
      invariant i <= |text| && Halfway(normalized, i, text)
      decreases |text| - i
    {
      FoldStep(text, i, normalized);
      if text[i] == '\\' && i + 1 < |text| && text[i + 1] == '\n' {
        normalized := normalized + " ";
        i := i + 2;
        continue;
      }
      if text[i] == '\\' && i + 2 < |text| && text[i + 1] == '\r' && text[i + 2] == '\n' {
        normalized := normalized + " ";
        i := i + 3;
        continue;
      }
      normalized := normalized + [text[i]];
      i := i + 1;
    }
    FoldedAll(normalized, text);
  }

  lemma FoldedAll(normalized: string, text: string)
    requires Halfway(normalized, |text|, text)
    ensures normalized == Folded(text)
  {
  }

  lemma FoldStep(text: string, i: nat, before: string)
    requires i < |text| && Halfway(before, i, text)
    ensures if text[i] == '\\' && i + 1 < |text| && text[i + 1] == '\n' then Halfway(before + " ", i + 2, text)
            else if text[i] == '\\' && i + 2 < |text| && text[i + 1] == '\r' && text[i + 2] == '\n'
            then Halfway(before + " ", i + 3, text)
            else Halfway(before + [text[i]], i + 1, text)
  {
    Unfold(text, i);
    hide Folded, Continuation;
  }

  lemma Unfold(text: string, i: nat)
    requires i < |text|
    ensures var n := Continuation(text[i..]);
      Folded(text[i..]) == if n > 0 then " " + Folded(text[i + n..]) else [text[i]] + Folded(text[i + 1..])
    ensures Continuation(text[i..]) ==
            if text[i] == '\\' && i + 1 < |text| && text[i + 1] == '\n' then 2
            else if text[i] == '\\' && i + 2 < |text| && text[i + 1] == '\r' && text[i + 2] == '\n' then 3 else 0
  {
    var s, n := text[i..], Continuation(text[i..]);
    assert s[n..] == text[i + n..] && s[1..] == text[i + 1..];
  }

  // ------------------------------------------------------------------------------------------
  // What a compiler writes is what is read
  // ------------------------------------------------------------------------------------------

  /** Every backslash in it is followed by a character that ends no line: it stands for itself. */
  ghost predicate Kept(s: string)
  {
    forall k :: 0 <= k < |s| && s[k] == '\\' ==> k + 1 < |s| && s[k + 1] != '\n' && s[k + 1] != '\r'
  }

  /** One word that does not end in a backslash. */
  ghost predicate Plain(name: string)
  {
    IsWord(name) && name[|name| - 1] != '\\'
  }

  datatype LineEnd = NoEnd | NewLine | ReturnNewLine

  /** How a dependency is set off from what stands before it: white space, and perhaps a continued line. */
  datatype Gap = Gap(before: string, end: LineEnd, behind: string)

  ghost predicate IsGap(gap: Gap)
  {
    Blank(gap.before) && Blank(gap.behind) && (gap.end.NoEnd? ==> gap.before + gap.behind != "")
  }

  function EndText(end: LineEnd): string
  {
    match end
    case NoEnd => ""
    case NewLine => "\\\n"
    case ReturnNewLine => "\\\r\n"
  }

  function GapText(gap: Gap): string
  {
    gap.before + EndText(gap.end) + gap.behind
  }

  function Entries(names: seq<string>, gaps: seq<Gap>): string
    requires |names| == |gaps|
  {
    if names == [] then "" else GapText(gaps[0]) + names[0] + Entries(names[1..], gaps[1..])
  }

  /** A depfile for plain names, ended by a newline. */
  function Written(target: string, names: seq<string>, gaps: seq<Gap>): string
    requires |names| == |gaps|
  {
    target + ":" + Entries(names, gaps) + "\n"
  }

  lemma {:induction false} FoldKept(s: string, rest: string)
    requires Kept(s)
    ensures Folded(s + rest) == s + Folded(rest)
    decreases |s|
  {
    if s == "" {
      assert s + rest == rest;
    } else {
      assert (s + rest)[0] == s[0] && (s + rest)[1..] == s[1..] + rest;
      assert |s| > 1 ==> (s + rest)[1] == s[1];
      FoldKept(s[1..], rest);
      assert s == [s[0]] + s[1..];
    }
  }

  lemma PlainIsKept(name: string)
    requires Plain(name)
    ensures Kept(name)
  {
  }

  lemma BlankIsKept(space: string)
    requires Blank(space)
    ensures Kept(space)
  {
  }

  lemma FoldLineEnd(end: LineEnd, rest: string)
    ensures Folded(EndText(end) + rest) == (if end.NoEnd? then "" else " ") + Folded(rest)
  {
    var s := EndText(end) + rest;
    if end.NoEnd? {
      assert s == rest;
    } else {
      assert Continuation(s) == |EndText(end)| && s[|EndText(end)|..] == rest;
    }
  }

  /** What a gap leaves after folding: white space. */
  lemma FoldGap(gap: Gap, rest: string) returns (space: string)
    requires IsGap(gap)
    ensures Blank(space) && space != "" && Folded(GapText(gap) + rest) == space + Folded(rest)
  {
    BlankIsKept(gap.before);
    BlankIsKept(gap.behind);
    hide Folded, EndText, Kept, GapText, Blank;
    FoldKept(gap.before, EndText(gap.end) + (gap.behind + rest));
    FoldLineEnd(gap.end, gap.behind + rest);
    FoldKept(gap.behind, rest);
    GapInParts(gap, rest);
    var middle := if gap.end.NoEnd? then "" else " ";
    FourInOne(gap.before, middle, gap.behind, Folded(rest));
    space := gap.before + middle + gap.behind;
    BlankInParts(gap.before, middle, gap.behind);
  }

  lemma GapInParts(gap: Gap, rest: string)
    ensures GapText(gap) + rest == gap.before + (EndText(gap.end) + (gap.behind + rest))
  {
    FourInOne(gap.before, EndText(gap.end), gap.behind, rest);
  }

  lemma FourInOne(a: string, b: string, c: string, d: string)
    ensures a + (b + (c + d)) == a + b + c + d
  {
  }

  lemma BlankInParts(a: string, b: string, c: string)
    requires Blank(a) && Blank(c) && (b == "" || b == " ")
    ensures Blank(a + b + c)
  {
    hide IsSpace;
    assert IsSpace(' ') by { SixSpaces(' '); }
  }

  /** After folding, the entries are words with white space between them. */
  lemma {:induction false} EntriesAreWords(names: seq<string>, gaps: seq<Gap>)
    requires |names| == |gaps|
    requires forall k :: 0 <= k < |names| ==> Plain(names[k]) && IsGap(gaps[k])
    ensures Words(Folded(Entries(names, gaps) + "\n")) == names
    ensures Folded(Entries(names, gaps) + "\n") != "" && IsSpace(Folded(Entries(names, gaps) + "\n")[0])
    decreases |names|
  {
    if names == [] {
      OnlyLineEnd();
      assert Entries(names, gaps) + "\n" == "\n";
    } else {
      var rest := Entries(names[1..], gaps[1..]) + "\n";
      hide Plain, IsGap;
      EntriesAreWords(names[1..], gaps[1..]);
      EntriesFirst(names, gaps);
      hide *;
      WordAfterGap(gaps[0], names[0], rest);
      assert names == [names[0]] + names[1..];
    }
  }

  lemma OnlyLineEnd()
    ensures Folded("\n") == "\n" && Words("\n") == [] && IsSpace('\n')
  {
    assert Folded("\n") == "\n" + Folded("") && "\n"[1..] == "";
    SpaceThenRest("\n", "");
    assert "\n" + "" == "\n";
  }

  lemma EntriesFirst(names: seq<string>, gaps: seq<Gap>)
    requires |names| == |gaps| > 0
    ensures Entries(names, gaps) + "\n" == GapText(gaps[0]) + (names[0] + (Entries(names[1..], gaps[1..]) + "\n"))
  {
    assert Entries(names, gaps) == GapText(gaps[0]) + names[0] + Entries(names[1..], gaps[1..]);
    hide Entries, GapText;
  }

  lemma WordAfterGap(gap: Gap, name: string, rest: string)
    requires Plain(name) && IsGap(gap) && Folded(rest) != "" && IsSpace(Folded(rest)[0])
    ensures Words(Folded(GapText(gap) + (name + rest))) == [name] + Words(Folded(rest))
    ensures Folded(GapText(gap) + (name + rest)) != "" && IsSpace(Folded(GapText(gap) + (name + rest))[0])
  {
    PlainIsKept(name);
    hide Folded, Words, GapText, IsGap, Kept;
    var space := FoldGap(gap, name + rest);
    FoldKept(name, rest);
    WordThenRest(name, Folded(rest));
    assert (space + (name + Folded(rest)))[0] == space[0];
    SpaceThenRest(space, name + Folded(rest));
  }

  /**
   Plain names survive the trip, however they are spaced and whichever lines are continued; the target must not contain
   a colon.
   */
  lemma WrittenIsRead(target: string, names: seq<string>, gaps: seq<Gap>)
    requires |names| == |gaps| && Kept(target) && ':' !in target
    requires forall k :: 0 <= k < |names| ==> Plain(names[k]) && IsGap(gaps[k])
    ensures Read(Written(target, names, gaps)) == Some(Contents(target, names))
  {
    var rest := Entries(names, gaps) + "\n";
    assert Written(target, names, gaps) == (target + ":") + rest;
    assert Kept(target + ":");
    FoldKept(target + ":", rest);
    EntriesAreWords(names, gaps);
    hide Folded, Words, Entries, Kept, Plain, IsGap;
    assert ":" == [':'];
    FindAppend(target, ':', Folded(rest));
    var s := target + ":" + Folded(rest);
    assert s[..|target|] == target && s[|target| + 1..] == Folded(rest);
  }

  /** The target is not trimmed: white space before the colon, of whatever kind, becomes part of it. */
  lemma SpaceBeforeColonStays(target: string, space: string, names: seq<string>, gaps: seq<Gap>)
    requires |names| == |gaps| && Kept(target) && ':' !in target && Blank(space)
    requires forall k :: 0 <= k < |names| ==> Plain(names[k]) && IsGap(gaps[k])
    ensures Read(Written(target + space, names, gaps)).Some?
    ensures Read(Written(target + space, names, gaps)).value.inputs == names
    ensures Read(Written(target + space, names, gaps)).value.output == target <==> space == ""
  {
    assert forall k :: 0 <= k < |space| ==> IsSpace(space[k]) && space[k] != ':' && space[k] != '\\';
    assert Kept(target + space);
    hide Plain, IsGap;
    WrittenIsRead(target + space, names, gaps);
    assert target + space == target <==> |space| == 0;
  }
}
