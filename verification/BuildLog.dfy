/**
 `BuildLog`: for every output, the hash of the command that made it. One line per entry: path, tab, decimal.
 Saving walks a hash map, so the lines come in any order.
 */
module BuildLog {
  import opened Prelude
  import opened LineFormat

  const HEADER := "FORGEBUILD_BUILD_LOG_V1"

  type Entries = map<string, nat>

  function EntryLine(path: string, hash: nat): string
  {
    path + "\t" + Decimal(hash) + "\n"
  }

  function EntryLines(order: seq<string>, entries: Entries): string
    requires Elems(order) <= entries.Keys
  {
    if order == [] then ""
    else
      assert order[0] in Elems(order) && Elems(order[1..]) <= Elems(order);
      EntryLine(order[0], entries[order[0]]) + EntryLines(order[1..], entries)
  }

  /** The whole file, when the map is walked in this order. */
  function FileText(order: seq<string>, entries: Entries): string
    requires Elems(order) <= entries.Keys
  {
    HEADER + "\n" + EntryLines(order, entries)
  }

  /** One line of the file. */
  function ParseLine(line: string): Option<(string, nat)>
  {
    var k := Find(line, '\t');
    if k == |line| || k == 0 || ReadUnsigned(line[k + 1..]).None? then None
    else Some((line[..k], ReadUnsigned(line[k + 1..]).value))
  }

  /** The lines after the header; a bad line or a second entry for a path spoils everything. */
  function ParseLines(rest: string, loaded: Entries): (r: Parsed<Entries>)
    ensures r.Bad? ==> r.why == Corrupted
    decreases |rest|
  {
    if rest == "" then Good(loaded)
    else
      var entry := ParseLine(Line(rest));
      if entry.None? || entry.value.0 in loaded then Bad(Corrupted)
      else ParseLines(AfterLine(rest), loaded[entry.value.0 := entry.value.1])
  }

  function Parse(file: Stored): (r: Parsed<Entries>)
    ensures ResultOf(r) == LoadOk <==> r.Good?
  {
    match file
    case Absent => Bad(Missing)
    case Unreadable => Bad(IoError)
    case Text(text) =>
      if text == "" then Bad(Corrupted)
      else if Line(text) != HEADER then Bad(UnsupportedVersion)
      else ParseLines(AfterLine(text), map[])
  }

  // ------------------------------------------------------------------------------------------
  // Saving and loading
  // ------------------------------------------------------------------------------------------

  /** The format has no escapes: a path must be free of its two separators, and not empty. */
  ghost predicate CleanPath(path: string)
  {
    path != "" && '\n' !in path && '\t' !in path
  }

  ghost predicate Clean(entries: Entries)
  {
    forall path :: path in entries ==> CleanPath(path) && entries[path] < TWO_TO_THE_64
  }

  lemma {:induction false} OneMoreLine(order: seq<string>, path: string, entries: Entries)
    requires Elems(order) <= entries.Keys && path in entries
    ensures Elems(order + [path]) <= entries.Keys
    ensures EntryLines(order + [path], entries) == EntryLines(order, entries) + EntryLine(path, entries[path])
  {
    hide EntryLine;
    ElemsAppend(order, path);
    if order == [] {
      assert [path][1..] == [];
    } else {
      OneMoreLine(order[1..], path, entries);
      assert (order + [path])[1..] == order[1..] + [path];
    }
  }

  lemma OneMoreEntry(order: seq<string>, path: string, entries: Entries)
    requires Elems(order) <= entries.Keys && path in entries
    ensures Elems(order + [path]) <= entries.Keys
    ensures FileText(order + [path], entries) ==
            FileText(order, entries) + path + "\t" + Decimal(entries[path]) + "\n"
  {
    OneMoreLine(order, path, entries);
  }

  lemma NoLines(entries: Entries)
    ensures Lists<string>([], {}) && Elems<string>([]) <= entries.Keys
    ensures FileText([], entries) == HEADER + "\n"
  {
  }

  lemma ParseOwnLine(path: string, hash: nat, rest: string)
    requires CleanPath(path)
    ensures Line(EntryLine(path, hash) + rest) == path + "\t" + Decimal(hash)
    ensures AfterLine(EntryLine(path, hash) + rest) == rest
    ensures ParseLine(path + "\t" + Decimal(hash)) == if hash < TWO_TO_THE_64 then Some((path, hash)) else None
  {
    DecimalIsPlain(hash);
    var line := path + "\t" + Decimal(hash);
    assert EntryLine(path, hash) + rest == line + "\n" + rest;
    LineOf(line, rest);
    FindAppend(path, '\t', Decimal(hash));
    assert "\t" == ['\t'];
    assert line[..|path|] == path && line[|path| + 1..] == Decimal(hash);
    DecimalRoundTrip(hash);
  }

  lemma {:induction false} LinesRoundTrip(order: seq<string>, entries: Entries, loaded: Entries)
    requires Clean(entries) && NoDup(order) && Elems(order) <= entries.Keys && Elems(order) !! loaded.Keys
    ensures ParseLines(EntryLines(order, entries), loaded) == Good(loaded + Only(order, entries))
    decreases |order|
  {
    if order == [] {
      OnlyNothing(entries, loaded);
    } else {
      var path, rest := order[0], order[1..];
      FirstAndRest(order, entries, loaded);
      hide EntryLine, ParseLine, CleanPath, Elems, NoDup, Decimal, Only, Line, AfterLine;
      ReadsOwnLine(path, entries[path], EntryLines(rest, entries), loaded);
      LinesRoundTrip(rest, entries, loaded[path := entries[path]]);
    }
  }

  lemma ReadsOwnLine(path: string, hash: nat, rest: string, loaded: Entries)
    requires CleanPath(path) && hash < TWO_TO_THE_64 && path !in loaded
    ensures ParseLines(EntryLine(path, hash) + rest, loaded) == ParseLines(rest, loaded[path := hash])
  {
    ParseOwnLine(path, hash, rest);
    hide Line, AfterLine, ParseLine, Decimal, CleanPath;
  }

  lemma ParsedLineIsClean(line: string)
    requires '\n' !in line
    ensures ParseLine(line).Some? ==> CleanPath(ParseLine(line).value.0) && ParseLine(line).value.1 < TWO_TO_THE_64
  {
    ReadUnsignedFits(line[if Find(line, '\t') < |line| then Find(line, '\t') + 1 else 0..]);
  }

  lemma {:induction false} LoadedIsClean(rest: string, loaded: Entries)
    requires Clean(loaded)
    ensures ParseLines(rest, loaded).Good? ==> Clean(ParseLines(rest, loaded).entries)
    decreases |rest|
  {
    if rest != "" {
      ParsedLineIsClean(Line(rest));
      var entry := ParseLine(Line(rest));
      if entry.Some? && entry.value.0 !in loaded {
        LoadedIsClean(AfterLine(rest), loaded[entry.value.0 := entry.value.1]);
      }
    }
  }

  lemma ParsesOwnHeader(lines: string)
    ensures Parse(Text(HEADER + "\n" + lines)) == ParseLines(lines, map[])
  {
    hide ParseLines;
    LineOf(HEADER, lines);
    hide Line, AfterLine;
  }

  lemma CleanComesBack(order: seq<string>, entries: Entries)
    requires Lists(order, entries.Keys) && Clean(entries)
    ensures ParseLines(EntryLines(order, entries), map[]) == Good(entries)
  {
    OnlyAll(order, entries);
    hide ParseLines, EntryLines, Clean, Lists, NoDup, Elems, Only;
    LinesRoundTrip(order, entries, map[]);
  }

  lemma ParsesOwnFile(order: seq<string>, entries: Entries)
    requires Elems(order) <= entries.Keys
    ensures Parse(Text(FileText(order, entries))) == ParseLines(EntryLines(order, entries), map[])
  {
    hide Parse, ParseLines, EntryLines;
    ParsesOwnHeader(EntryLines(order, entries));
  }

  /** Loading gives back what was saved, in whatever order the map was walked, exactly for clean entries. */
  lemma RoundTrip(order: seq<string>, entries: Entries)
    requires Lists(order, entries.Keys)
    ensures Parse(Text(FileText(order, entries))) == Good(entries) <==> Clean(entries)
  {
    ParsesOwnFile(order, entries);
    hide *;
    NothingIsClean();
    LoadedIsClean(EntryLines(order, entries), map[]);
    if Clean(entries) {
      CleanComesBack(order, entries);
    }
  }

  /** `text` is what a save of `entries` writes, for some walk over the map. */
  ghost predicate IsTextOf(text: string, entries: Entries)
  {
    exists order :: Lists(order, entries.Keys) && text == FileText(order, entries)
  }

  lemma SavedThenLoaded(text: string, entries: Entries)
    requires IsTextOf(text, entries)
    ensures Parse(Text(text)) == Good(entries) <==> Clean(entries)
  {
    var order :| Lists(order, entries.Keys) && text == FileText(order, entries);
    hide *;
    RoundTrip(order, entries);
  }

  lemma NothingIsClean()
    ensures Clean(map[])
  {
  }

  // ------------------------------------------------------------------------------------------
  // Which files load, and as what
  // ------------------------------------------------------------------------------------------

  /** A path, a tab, and something that reads as this number. */
  ghost predicate Says(line: string, path: string, hash: nat)
  {
    exists number ::
      line == path + "\t" + number && path != "" && '\t' !in path && ReadUnsigned(number) == Some(hash)
  }

  lemma ParseLineIff(line: string, path: string, hash: nat)
    ensures ParseLine(line) == Some((path, hash)) <==> Says(line, path, hash)
  {
    hide ReadUnsigned;
    var k := Find(line, '\t');
    if k < |line| {
      assert line == line[..k] + "\t" + line[k + 1..];
    }
    if number :| line == path + "\t" + number && path != "" && '\t' !in path && ReadUnsigned(number) == Some(hash) {
      FindAppend(path, '\t', number);
      assert "\t" == ['\t'];
      assert line[..|path|] == path && line[|path| + 1..] == number;
    }
  }

  /** Line by line, what the file says. */
  ghost predicate Told(lines: seq<string>, records: seq<(string, nat)>)
  {
    |lines| == |records| && forall k :: 0 <= k < |lines| ==> Says(lines[k], records[k].0, records[k].1)
  }

  lemma ToldFirst(lines: seq<string>, records: seq<(string, nat)>)
    requires lines != []
    ensures Told(lines, records) <==> records != [] && Says(lines[0], records[0].0, records[0].1) &&
                                      Told(lines[1..], records[1..])
  {
    hide Says;
    if records != [] && Says(lines[0], records[0].0, records[0].1) && Told(lines[1..], records[1..]) {
      forall k | 0 <= k < |lines|
        ensures Says(lines[k], records[k].0, records[k].1)
      {
        if k > 0 {
          assert Says(lines[1..][k - 1], records[1..][k - 1].0, records[1..][k - 1].1);
        }
      }
    }
  }

  /** The lines say new entries, which lead from `loaded` to `entries`. */
  ghost predicate Fits(lines: seq<string>, loaded: Entries, entries: Entries)
  {
    exists records :: Told(lines, records) && Adds(loaded, records, entries)
  }

  lemma FitsNothing(loaded: Entries, entries: Entries)
    ensures Fits([], loaded, entries) <==> entries == loaded
  {
    assert Told([], []) && Adds<nat>(loaded, [], loaded);
  }

  lemma FitsFirst(lines: seq<string>, loaded: Entries, entries: Entries)
    requires lines != []
    ensures Fits(lines, loaded, entries) <==>
      var entry := ParseLine(lines[0]);
      entry.Some? && entry.value.0 !in loaded &&
      Fits(lines[1..], loaded[entry.value.0 := entry.value.1], entries)
  {
    var entry := ParseLine(lines[0]);
    hide ParseLine, Says, Told, Adds;
    if records: seq<(string, nat)> :| Told(lines, records) && Adds(loaded, records, entries) {
      FirstRecord(lines, loaded, entries, records);
    }
    if entry.Some? && entry.value.0 !in loaded && Fits(lines[1..], loaded[entry.value.0 := entry.value.1], entries) {
      var records :| Told(lines[1..], records) && Adds(loaded[entry.value.0 := entry.value.1], records, entries);
      OneRecordMore(lines, loaded, entries, entry.value, records);
    }
  }

  lemma FirstRecord(lines: seq<string>, loaded: Entries, entries: Entries, records: seq<(string, nat)>)
    requires lines != [] && Told(lines, records) && Adds(loaded, records, entries)
    ensures records != [] && ParseLine(lines[0]) == Some(records[0]) && records[0].0 !in loaded
    ensures Told(lines[1..], records[1..]) && Adds(loaded[records[0].0 := records[0].1], records[1..], entries)
  {
    ToldFirst(lines, records);
    hide ParseLine, Says, Told;
    ParseLineIff(lines[0], records[0].0, records[0].1);
  }

  lemma OneRecordMore(lines: seq<string>, loaded: Entries, entries: Entries, entry: (string, nat),
                      records: seq<(string, nat)>)
    requires lines != [] && ParseLine(lines[0]) == Some(entry) && entry.0 !in loaded
    requires Told(lines[1..], records) && Adds(loaded[entry.0 := entry.1], records, entries)
    ensures Told(lines, [entry] + records) && Adds(loaded, [entry] + records, entries)
  {
    var longer := [entry] + records;
    assert longer[1..] == records;
    hide ParseLine, Says, Told;
    ParseLineIff(lines[0], entry.0, entry.1);
    ToldFirst(lines, longer);
  }

  lemma {:induction false} LinesIff(rest: string, loaded: Entries, entries: Entries)
    ensures ParseLines(rest, loaded) == Good(entries) <==> Fits(FileLines(rest), loaded, entries)
    decreases |rest|
  {
    if rest == "" {
      FitsNothing(loaded, entries);
    } else {
      LinesBehind(rest);
      FitsFirst(FileLines(rest), loaded, entries);
      hide Fits, ParseLine, Line, AfterLine, FileLines;
      var entry := ParseLine(Line(rest));
      if entry.Some? && entry.value.0 !in loaded {
        LinesIff(AfterLine(rest), loaded[entry.value.0 := entry.value.1], entries);
      }
    }
  }

  /**
   A file loads exactly when its first line is the header, every other line says an entry, and no two lines speak of
   the same path; the entries are then what the lines say, and nothing else.
   */
  lemma LoadsIff(text: string, entries: Entries)
    ensures Parse(Text(text)) == Good(entries) <==>
      && FileLines(text) != [] && FileLines(text)[0] == HEADER
      && exists records :: Told(FileLines(text)[1..], records) && Holds(records, entries)
  {
    hide ParseLines, Line, AfterLine, Told, Holds, Adds;
    if text != "" {
      LinesBehind(text);
      LinesIff(AfterLine(text), map[], entries);
      forall records: seq<(string, nat)>
        ensures Adds(map[], records, entries) <==> Holds(records, entries)
      {
        AddsIffHolds(records, entries);
      }
    }
  }

  class BuildLog {
    var entries: Entries

    constructor ()
      ensures entries == map[]
    {
      entries := map[];
    }

    method Record(output: string, hash: nat)
      modifies this
      ensures entries == old(entries)[output := hash]
    {
      entries := entries[output := hash];
    }

    method Contains(output: string) returns (b: bool)
      ensures b <==> output in entries
    {
      b := output in entries;
    }

    method CommandMatches(output: string, current: nat) returns (b: bool)
      ensures b <==> output in entries && entries[output] == current
    {
      if output !in entries {
        return false;
      }
      b := entries[output] == current;
    }

    method Clear()
      modifies this
      ensures entries == map[]
    {
      entries := map[];
    }

    method Save() returns (text: string)
      ensures IsTextOf(text, entries)
    {
      hide Lists, FileText, EntryLines;
      var todo := entries.Keys;
      ghost var order, saved := [], {};
      text := HEADER + "\n";
      NoLines(entries);
      while todo != {}
        invariant saved !! todo && saved + todo == entries.Keys
        invariant Lists(order, saved) && Elems(order) <= entries.Keys
        invariant text == FileText(order, entries)
        decreases todo
      {
        var path :| path in todo;
        text := text + path + "\t" + Decimal(entries[path]) + "\n";
        OneMoreEntry(order, path, entries);
        ListsAppend(order, saved, path);
        order, saved, todo := order + [path], saved + {path}, todo - {path};
      }
    }

    method Load(file: Stored) returns (r: LogLoadResult)
      modifies this
      ensures r == ResultOf(Parse(file))
      ensures entries == if Parse(file).Good? then Parse(file).entries else old(entries)
      ensures r == Missing <==> file.Absent?
      ensures r == IoError <==> file.Unreadable?
      ensures r == UnsupportedVersion <==>
        file.Text? && file.text != "" && Line(file.text) != "FORGEBUILD_BUILD_LOG_V1"
    {
      NothingIsNoNumber();
      hide ReadUnsigned, Line, AfterLine, Find;
      if file.Absent? {
        return Missing;
      }
      if file.Unreadable? {
        return IoError;
      }
      var rest := file.text;
      if rest == "" {
        return Corrupted;
      }
      if Line(rest) != HEADER {
        return UnsupportedVersion;
      }
      rest := AfterLine(rest);
      var loaded: Entries := map[];
      while rest != ""
        invariant entries == old(entries)
        invariant ParseLines(rest, loaded) == Parse(file)
        decreases |rest|
      {
        var line := Line(rest);
        if line == "" {
          return Corrupted;
        }
        var separator := Find(line, '\t');
        if separator == |line| {
          return Corrupted;
        }
        var path, hashText := line[..separator], line[separator + 1..];
        if path == "" || hashText == "" {
          return Corrupted;
        }
        var hash := ReadUnsigned(hashText);
        if hash.None? {
          return Corrupted;
        }
        if path in loaded {
          return Corrupted;
        }
        loaded := loaded[path := hash.value];
        rest := AfterLine(rest);
      }
      entries := loaded;
      return LoadOk;
    }
  }
}
