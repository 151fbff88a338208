/**
 `DepsLog`: for every output, the dependencies that its last depfile listed. An entry is the output, a count, and
 that many dependencies, one per line; the count frames them, so names that look like numbers do no harm.
 */
module DepsLog {
  import opened Prelude
  import opened LineFormat

  const HEADER := "FORGEBUILD_DEPS_LOG_V1"

  type Entries = map<string, seq<string>>

  function InputLines(inputs: seq<string>): string
  {
    if inputs == [] then "" else inputs[0] + "\n" + InputLines(inputs[1..])
  }

  function EntryText(output: string, inputs: seq<string>): string
  {
    output + "\n" + Decimal(|inputs|) + "\n" + InputLines(inputs)
  }

  function EntryTexts(order: seq<string>, entries: Entries): string
    requires Elems(order) <= entries.Keys
  {
    if order == [] then ""
    else
      assert order[0] in Elems(order) && Elems(order[1..]) <= Elems(order);
      EntryText(order[0], entries[order[0]]) + EntryTexts(order[1..], entries)
  }

  /** The whole file, when the map is walked in this order. */
  function FileText(order: seq<string>, entries: Entries): string
    requires Elems(order) <= entries.Keys
  {
    HEADER + "\n" + EntryTexts(order, entries)
  }

  /** `count` non-empty lines, and what remains behind them. */
  function ReadNames(rest: string, count: nat): (r: Option<(seq<string>, string)>)
    ensures r.Some? ==> |r.value.1| <= |rest|
    decreases count
  {
    if count == 0 then Some(([], rest))
    else if rest == "" || Line(rest) == "" then None
    else
      var more := ReadNames(AfterLine(rest), count - 1);
      if more.None? then None else Some(([Line(rest)] + more.value.0, more.value.1))
  }

  /** One entry, and what remains behind it. */
  function ReadEntry(rest: string): (r: Option<(string, seq<string>, string)>)
    requires rest != ""
    ensures r.Some? ==> |r.value.2| < |rest|
  {
    var second := AfterLine(rest);
    if Line(rest) == "" || second == "" || ReadUnsigned(Line(second)).None? then None
    else
      var names := ReadNames(AfterLine(second), ReadUnsigned(Line(second)).value);
      if names.None? then None else Some((Line(rest), names.value.0, names.value.1))
  }

  function ParseEntries(rest: string, loaded: Entries): (r: Parsed<Entries>)
    ensures r.Bad? ==> r.why == Corrupted
    decreases |rest|
  {
    if rest == "" then Good(loaded)
    else
      var entry := ReadEntry(rest);
      if entry.None? || entry.value.0 in loaded then Bad(Corrupted)
      else ParseEntries(entry.value.2, loaded[entry.value.0 := entry.value.1])
  }

  function Parse(file: Stored): (r: Parsed<Entries>)
    ensures ResultOf(r) == LoadOk <==> r.Good?
  {
    match file
    case Absent => Bad(Missing)
    case Unreadable => Bad(IoError)
    case Text(text) =>
      if text == "" then Bad(Corrupted)
      else if Line(text) != HEADER then Bad(UnsupportedVersion)
      else ParseEntries(AfterLine(text), map[])
  }

  // ------------------------------------------------------------------------------------------
  // Saving and loading
  // ------------------------------------------------------------------------------------------

  ghost predicate CleanName(name: string)
  {
    name != "" && '\n' !in name
  }

  ghost predicate CleanNames(names: seq<string>)
  {
    |names| < TWO_TO_THE_64 && forall k :: 0 <= k < |names| ==> CleanName(names[k])
  }

  ghost predicate Clean(entries: Entries)
  {
    forall output :: output in entries ==> CleanName(output) && CleanNames(entries[output])
  }

  lemma {:induction false} OneMoreText(order: seq<string>, output: string, entries: Entries)
    requires Elems(order) <= entries.Keys && output in entries
    ensures Elems(order + [output]) <= entries.Keys
    ensures EntryTexts(order + [output], entries) == EntryTexts(order, entries) + EntryText(output, entries[output])
  {
    hide EntryText;
    ElemsAppend(order, output);
    if order == [] {
      assert [output][1..] == [];
    } else {
      OneMoreText(order[1..], output, entries);
      assert (order + [output])[1..] == order[1..] + [output];
    }
  }

  lemma OneMoreEntry(order: seq<string>, output: string, entries: Entries, text: string)
    requires Elems(order) <= entries.Keys && output in entries
    requires text == FileText(order, entries)
    ensures Elems(order + [output]) <= entries.Keys
    ensures text + output + "\n" + Decimal(|entries[output]|) + "\n" + InputLines(entries[output]) ==
            FileText(order + [output], entries)
  {
    OneMoreText(order, output, entries);
  }

  lemma NoTexts(entries: Entries)
    ensures Lists<string>([], {}) && Elems<string>([]) <= entries.Keys
    ensures FileText([], entries) == HEADER + "\n"
  {
  }

  lemma {:induction false} NamesRoundTrip(names: seq<string>, rest: string)
    requires forall k :: 0 <= k < |names| ==> CleanName(names[k])
    ensures ReadNames(InputLines(names) + rest, |names|) == Some((names, rest))
  {
    if names == [] {
      assert InputLines(names) + rest == rest;
    } else {
      var more := InputLines(names[1..]) + rest;
      assert InputLines(names) + rest == names[0] + "\n" + more;
      NameThenNames(names[0], more, |names|);
      hide *;
      NamesRoundTrip(names[1..], rest);
      assert [names[0]] + names[1..] == names;
    }
  }

  lemma NameThenNames(name: string, more: string, count: nat)
    requires CleanName(name) && count > 0
    ensures ReadNames(name + "\n" + more, count) ==
            match ReadNames(more, count - 1) case None => None case Some(r) => Some(([name] + r.0, r.1))
  {
    LineOf(name, more);
    hide Line, AfterLine;
  }

  lemma ReadOwnEntry(output: string, inputs: seq<string>, rest: string)
    requires CleanName(output) && CleanNames(inputs)
    ensures EntryText(output, inputs) + rest != ""
    ensures ReadEntry(EntryText(output, inputs) + rest) == Some((output, inputs, rest))
  {
    var third := InputLines(inputs) + rest;
    var second := Decimal(|inputs|) + "\n" + third;
    assert EntryText(output, inputs) + rest == output + "\n" + second;
    LineOf(output, second);
    DecimalIsPlain(|inputs|);
    LineOf(Decimal(|inputs|), third);
    DecimalRoundTrip(|inputs|);
    NamesRoundTrip(inputs, rest);
    hide Line, AfterLine, ReadUnsigned, ReadNames, InputLines, Decimal;
  }

  lemma ParsesOwnEntry(output: string, inputs: seq<string>, rest: string, loaded: Entries)
    requires CleanName(output) && CleanNames(inputs) && output !in loaded
    ensures ParseEntries(EntryText(output, inputs) + rest, loaded) == ParseEntries(rest, loaded[output := inputs])
  {
    ReadOwnEntry(output, inputs, rest);
    hide ReadEntry, EntryText, CleanName, CleanNames;
  }

  lemma {:induction false} EntriesRoundTrip(order: seq<string>, entries: Entries, loaded: Entries)
    requires Clean(entries) && NoDup(order) && Elems(order) <= entries.Keys && Elems(order) !! loaded.Keys
    ensures ParseEntries(EntryTexts(order, entries), loaded) == Good(loaded + Only(order, entries))
    decreases |order|
  {
    if order == [] {
      OnlyNothing(entries, loaded);
    } else {
      var output, rest := order[0], order[1..];
      FirstAndRest(order, entries, loaded);
      hide EntryText, ReadEntry, CleanName, CleanNames, Elems, NoDup, Only;
      ParsesOwnEntry(output, entries[output], EntryTexts(rest, entries), loaded);
      EntriesRoundTrip(rest, entries, loaded[output := entries[output]]);
    }
  }

  /** `count` lines that are not empty. */
  ghost predicate Filled(lines: seq<string>, count: nat)
  {
    count <= |lines| && "" !in lines[..count]
  }

  lemma FilledFirst(lines: seq<string>, count: nat)
    requires lines != [] && count > 0
    ensures Filled(lines, count) <==> lines[0] != "" && Filled(lines[1..], count - 1)
    ensures count <= |lines| ==> lines[..count] == [lines[0]] + lines[1..][..count - 1]
    ensures count <= |lines| ==> lines[count..] == lines[1..][count - 1..]
  {
    if count <= |lines| {
      assert lines[..count] == [lines[0]] + lines[1..][..count - 1];
      assert lines[..count][0] == lines[0];
    }
  }

  lemma {:induction false} NamesIff(rest: string, count: nat)
    ensures ReadNames(rest, count).Some? <==> Filled(FileLines(rest), count)
    ensures ReadNames(rest, count).Some? ==>
      && ReadNames(rest, count).value.0 == FileLines(rest)[..count]
      && FileLines(ReadNames(rest, count).value.1) == FileLines(rest)[count..]
    decreases count
  {
    if count > 0 && rest != "" {
      LinesBehind(rest);
      NamesIff(AfterLine(rest), count - 1);
      FilledFirst(FileLines(rest), count);
      hide FileLines, Line, AfterLine, Filled;
    }
  }

  lemma NamesAreClean(rest: string, count: nat)
    ensures var r := ReadNames(rest, count);
      r.Some? ==> |r.value.0| == count && forall k :: 0 <= k < count ==> CleanName(r.value.0[k])
  {
    NamesIff(rest, count);
    LinesArePlain(rest);
    hide ReadNames, FileLines;
    if Filled(FileLines(rest), count) {
      var lines := FileLines(rest);
      assert forall k :: 0 <= k < count ==> lines[..count][k] == lines[k] && lines[k] in lines[..count];
    }
  }

  lemma EntryIsClean(rest: string)
    requires rest != ""
    ensures ReadEntry(rest).Some? ==> CleanName(ReadEntry(rest).value.0) && CleanNames(ReadEntry(rest).value.1)
  {
    if ReadEntry(rest).Some? {
      var second := AfterLine(rest);
      ReadUnsignedFits(Line(second));
      NamesAreClean(AfterLine(second), ReadUnsigned(Line(second)).value);
      hide ReadUnsigned, ReadNames;
    }
  }

  lemma {:induction false} LoadedIsClean(rest: string, loaded: Entries)
    requires Clean(loaded)
    ensures ParseEntries(rest, loaded).Good? ==> Clean(ParseEntries(rest, loaded).entries)
    decreases |rest|
  {
    if rest != "" {
      EntryIsClean(rest);
      hide ReadEntry, CleanName, CleanNames;
      var entry := ReadEntry(rest);
      if entry.Some? && entry.value.0 !in loaded {
        LoadedIsClean(entry.value.2, loaded[entry.value.0 := entry.value.1]);
      }
    }
  }

  lemma NothingIsClean()
    ensures Clean(map[])
  {
  }

  lemma CleanComesBack(order: seq<string>, entries: Entries)
    requires Lists(order, entries.Keys) && Clean(entries)
    ensures ParseEntries(EntryTexts(order, entries), map[]) == Good(entries)
  {
    OnlyAll(order, entries);
    hide ParseEntries, EntryTexts, Clean, Lists, NoDup, Elems, Only;
    EntriesRoundTrip(order, entries, map[]);
  }

  lemma ParsesOwnHeader(texts: string)
    ensures Parse(Text(HEADER + "\n" + texts)) == ParseEntries(texts, map[])
  {
    hide ParseEntries;
    LineOf(HEADER, texts);
    hide Line, AfterLine;
  }

  lemma ParsesOwnFile(order: seq<string>, entries: Entries)
    requires Elems(order) <= entries.Keys
    ensures Parse(Text(FileText(order, entries))) == ParseEntries(EntryTexts(order, entries), map[])
  {
    hide Parse, ParseEntries, EntryTexts;
    ParsesOwnHeader(EntryTexts(order, entries));
  }

  /** Loading gives back what was saved, in whatever order the map was walked, exactly for clean entries. */
  lemma RoundTrip(order: seq<string>, entries: Entries)
    requires Lists(order, entries.Keys)
    ensures Parse(Text(FileText(order, entries))) == Good(entries) <==> Clean(entries)
  {
    ParsesOwnFile(order, entries);
    hide *;
    NothingIsClean();
    LoadedIsClean(EntryTexts(order, entries), map[]);
    if Clean(entries) {
      CleanComesBack(order, entries);
    }
  }

  /** `text` is what a save of `entries` writes, for some walk over the map. */
  ghost predicate IsTextOf(text: string, entries: Entries)
  {
    exists order :: Lists(order, entries.Keys) && text == FileText(order, entries)
  }

  lemma SavedThenLoaded(text: string, entries: Entries)
    requires IsTextOf(text, entries)
    ensures Parse(Text(text)) == Good(entries) <==> Clean(entries)
  {
    var order :| Lists(order, entries.Keys) && text == FileText(order, entries);
    hide *;
    RoundTrip(order, entries);
  }

  // ------------------------------------------------------------------------------------------
  // Which files load, and as what
  // ------------------------------------------------------------------------------------------

  /** The lines begin with an output, the number of its dependencies, and these, each on a line of its own. */
  ghost predicate Says(lines: seq<string>, output: string, inputs: seq<string>)
  {
    && |lines| >= 2 + |inputs| && lines[0] == output != "" && ReadUnsigned(lines[1]) == Some(|inputs|)
    && lines[2..2 + |inputs|] == inputs && "" !in inputs
  }

  /** One entry after another, nothing between them and nothing behind them. */
  ghost predicate Told(lines: seq<string>, records: seq<(string, seq<string>)>)
    decreases |records|
  {
    if records == [] then lines == []
    else Says(lines, records[0].0, records[0].1) && Told(lines[2 + |records[0].1|..], records[1..])
  }

  lemma EntryIff(rest: string, output: string, inputs: seq<string>)
    requires rest != ""
    ensures (exists behind :: ReadEntry(rest) == Some((output, inputs, behind))) <==>
            Says(FileLines(rest), output, inputs)
    ensures Says(FileLines(rest), output, inputs) ==>
      && ReadEntry(rest).Some?
      && FileLines(ReadEntry(rest).value.2) == FileLines(rest)[2 + |inputs|..]
  {
    var second := AfterLine(rest);
    LinesBehind(rest);
    if second != "" {
      LinesBehind(second);
      hide FileLines, Line, AfterLine, ReadUnsigned, ReadNames;
      if ReadUnsigned(Line(second)).Some? {
        var count := ReadUnsigned(Line(second)).value;
        NamesIff(AfterLine(second), count);
        EntryLinesAre(FileLines(rest), count, output, inputs);
      }
    } else {
      assert |FileLines(rest)| == 1;
    }
  }

  /** The names of an entry are the lines behind its first two. */
  lemma EntryLinesAre(lines: seq<string>, count: nat, output: string, inputs: seq<string>)
    requires |lines| >= 2 && ReadUnsigned(lines[1]) == Some(count)
    ensures Says(lines, output, inputs) <==>
            lines[0] == output != "" && Filled(lines[1..][1..], count) && inputs == lines[1..][1..][..count]
    ensures count <= |lines[1..][1..]| ==> lines[1..][1..][count..] == lines[2 + count..]
  {
    hide ReadUnsigned;
    assert lines[1..][1..] == lines[2..];
    if 2 + count <= |lines| {
      assert lines[2..][..count] == lines[2..2 + count];
    }
  }

  /** The lines say new entries, which lead from `loaded` to `entries`. */
  ghost predicate Fits(lines: seq<string>, loaded: Entries, entries: Entries)
  {
    exists records :: Told(lines, records) && Adds(loaded, records, entries)
  }

  lemma FitsNothing(loaded: Entries, entries: Entries)
    ensures Fits([], loaded, entries) <==> entries == loaded
  {
    assert Told([], []) && Adds<seq<string>>(loaded, [], loaded);
  }

  lemma FitsFirst(rest: string, loaded: Entries, entries: Entries)
    requires rest != ""
    ensures Fits(FileLines(rest), loaded, entries) <==>
      var entry := ReadEntry(rest);
      entry.Some? && entry.value.0 !in loaded &&
      Fits(FileLines(entry.value.2), loaded[entry.value.0 := entry.value.1], entries)
  {
    var entry := ReadEntry(rest);
    hide ReadEntry, Told, Adds, FileLines;
    if records: seq<(string, seq<string>)> :| Told(FileLines(rest), records) && Adds(loaded, records, entries) {
      FirstRecord(rest, loaded, entries, records);
    }
    if entry.Some? && entry.value.0 !in loaded &&
        Fits(FileLines(entry.value.2), loaded[entry.value.0 := entry.value.1], entries) {
      var records :| Told(FileLines(entry.value.2), records) &&
                     Adds(loaded[entry.value.0 := entry.value.1], records, entries);
      OneRecordMore(rest, loaded, entries, records);
    }
  }

  lemma FirstRecord(rest: string, loaded: Entries, entries: Entries, records: seq<(string, seq<string>)>)
    requires rest != "" && Told(FileLines(rest), records) && Adds(loaded, records, entries)
    ensures records != [] && records[0].0 !in loaded
    ensures ReadEntry(rest).Some? && ReadEntry(rest).value.0 == records[0].0 &&
            ReadEntry(rest).value.1 == records[0].1
    ensures Told(FileLines(ReadEntry(rest).value.2), records[1..])
    ensures Adds(loaded[records[0].0 := records[0].1], records[1..], entries)
  {
    LinesBehind(rest);
    hide FileLines, ReadEntry, Says;
    EntryIff(rest, records[0].0, records[0].1);
  }

  lemma OneRecordMore(rest: string, loaded: Entries, entries: Entries, records: seq<(string, seq<string>)>)
    requires rest != "" && ReadEntry(rest).Some? && ReadEntry(rest).value.0 !in loaded
    requires Told(FileLines(ReadEntry(rest).value.2), records)
    requires Adds(loaded[ReadEntry(rest).value.0 := ReadEntry(rest).value.1], records, entries)
    ensures Fits(FileLines(rest), loaded, entries)
  {
    hide FileLines, ReadEntry, Says;
    var entry := ReadEntry(rest).value;
    var longer := [(entry.0, entry.1)] + records;
    assert longer[1..] == records;
    assert ReadEntry(rest) == Some((entry.0, entry.1, entry.2));
    EntryIff(rest, entry.0, entry.1);
    assert Told(FileLines(rest), longer) && Adds(loaded, longer, entries);
  }

  lemma {:induction false} EntriesIff(rest: string, loaded: Entries, entries: Entries)
    ensures ParseEntries(rest, loaded) == Good(entries) <==> Fits(FileLines(rest), loaded, entries)
    decreases |rest|
  {
    if rest == "" {
      FitsNothing(loaded, entries);
    } else {
      FitsFirst(rest, loaded, entries);
      hide Fits, ReadEntry, FileLines;
      var entry := ReadEntry(rest);
      if entry.Some? && entry.value.0 !in loaded {
        EntriesIff(entry.value.2, loaded[entry.value.0 := entry.value.1], entries);
      }
    }
  }

  /**
   A file loads exactly when its first line is the header, the others say entries, one after another, and no two
   entries are about the same output; the entries are then what the lines say, and nothing else.
   */
  lemma LoadsIff(text: string, entries: Entries)
    ensures Parse(Text(text)) == Good(entries) <==>
      && FileLines(text) != [] && FileLines(text)[0] == HEADER
      && exists records :: Told(FileLines(text)[1..], records) && Holds(records, entries)
  {
    hide ParseEntries, Line, AfterLine, Told, Holds, Adds;
    if text != "" {
      LinesBehind(text);
      EntriesIff(AfterLine(text), map[], entries);
      forall records: seq<(string, seq<string>)>
        ensures Adds(map[], records, entries) <==> Holds(records, entries)
      {
        AddsIffHolds(records, entries);
      }
    }
  }

  class DepsLog {
    var entries: Entries

    constructor ()
      ensures entries == map[]
    {
      entries := map[];
    }

    method Record(output: string, inputs: seq<string>)
      modifies this
      ensures entries == old(entries)[output := inputs]
    {
      entries := entries[output := inputs];
    }

    method Clear()
      modifies this
      ensures entries == map[]
    {
      entries := map[];
    }

    method Contains(output: string) returns (b: bool)
      ensures b <==> output in entries
    {
      b := output in entries;
    }

    /** `at`: throws for an unknown output. */
    method Inputs(output: string) returns (inputs: Option<seq<string>>)
      ensures inputs == if output in entries then Some(entries[output]) else None
    {
      inputs := if output in entries then Some(entries[output]) else None;
    }

    method Save() returns (text: string)
      ensures IsTextOf(text, entries)
    {
      hide Lists, FileText, EntryTexts, InputLines, Decimal;
      var todo := entries.Keys;
      ghost var order, saved := [], {};
      text := HEADER + "\n";
      NoTexts(entries);
      while todo != {}
        invariant saved !! todo && saved + todo == entries.Keys
        invariant Lists(order, saved) && Elems(order) <= entries.Keys
        invariant text == FileText(order, entries)
        decreases todo
      {
        var output :| output in todo;
        OneMoreEntry(order, output, entries, text);
        text := text + output + "\n" + Decimal(|entries[output]|) + "\n";
        text := WriteNames(text, entries[output]);
        ListsAppend(order, saved, output);
        order, saved, todo := order + [output], saved + {output}, todo - {output};
      }
    }

    static method WriteNames(before: string, inputs: seq<string>) returns (text: string)
      ensures text == before + InputLines(inputs)
    {
      text := before;
      for k := 0 to |inputs|
        invariant text + InputLines(inputs[k..]) == before + InputLines(inputs)
      {
        assert inputs[k..][0] == inputs[k] && inputs[k..][1..] == inputs[k + 1..];
        text := text + inputs[k] + "\n";
      }
    }

    method Load(file: Stored) returns (r: LogLoadResult)
      modifies this
      ensures r == ResultOf(Parse(file))
      ensures entries == if Parse(file).Good? then Parse(file).entries else old(entries)
      ensures r == Missing <==> file.Absent?
      ensures r == IoError <==> file.Unreadable?
      ensures r == UnsupportedVersion <==>
        file.Text? && file.text != "" && Line(file.text) != "FORGEBUILD_DEPS_LOG_V1"
    {
      hide ReadUnsigned, ReadNames, Line, AfterLine, Find;
      if file.Absent? {
        return Missing;
      }
      if file.Unreadable? {
        return IoError;
      }
      var rest := file.text;
      if rest == "" {
        return Corrupted;
      }
      if Line(rest) != HEADER {
        return UnsupportedVersion;
      }
      rest := AfterLine(rest);
      var loaded: Entries := map[];
      while rest != ""
        invariant entries == old(entries)
        invariant ParseEntries(rest, loaded) == Parse(file)
        decreases |rest|
      {
        var output := Line(rest);
        if output == "" {
          return Corrupted;
        }
        var behind := AfterLine(rest);
        if behind == "" {
          return Corrupted;
        }
        var count := ReadUnsigned(Line(behind));
        if count.None? {
          return Corrupted;
        }
        var names := ReadInputs(AfterLine(behind), count.value);
        if names.None? {
          return Corrupted;
        }
        if output in loaded {
          return Corrupted;
        }
        loaded := loaded[output := names.value.0];
        rest := names.value.1;
      }
      entries := loaded;
      return LoadOk;
    }

    static method ReadInputs(text: string, count: nat) returns (r: Option<(seq<string>, string)>)
      ensures r == ReadNames(text, count)
    {
      var inputs: seq<string>, rest := [], text;
      PrependNothing(ReadNames(text, count));
      for k := 0 to count
        invariant ReadNames(text, count) == Prepend(inputs, ReadNames(rest, count - k))
      {
        if rest == "" || Line(rest) == "" {
          return None;
        }
        var name := Line(rest);
        PrependOne(inputs, name, ReadNames(AfterLine(rest), count - k - 1));
        inputs, rest := inputs + [name], AfterLine(rest);
      }
      assert inputs + [] == inputs;
      return Some((inputs, rest));
    }
  }

  function Prepend(names: seq<string>, r: Option<(seq<string>, string)>): Option<(seq<string>, string)>
  {
    if r.None? then None else Some((names + r.value.0, r.value.1))
  }

  lemma PrependNothing(r: Option<(seq<string>, string)>)
    ensures Prepend([], r) == r
  {
    if r.Some? {
      assert [] + r.value.0 == r.value.0;
    }
  }

  lemma PrependOne(names: seq<string>, name: string, r: Option<(seq<string>, string)>)
    ensures Prepend(names + [name], r) == Prepend(names, Prepend([name], r))
  {
    if r.Some? {
      assert names + [name] + r.value.0 == names + ([name] + r.value.0);
    }
  }
}
