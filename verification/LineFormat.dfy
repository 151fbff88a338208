/**
 What both log files are made of: lines ended by a newline, and unsigned decimals as `operator<<` writes and
 `operator>>` reads them.
 */
module LineFormat {
  import opened Prelude

  const TWO_TO_THE_64: int := 0x1_0000_0000_0000_0000

  datatype LogLoadResult = LoadOk | Missing | Corrupted | UnsupportedVersion | IoError

  /** What a loader finds under the path it is given. */
  datatype Stored = Absent | Unreadable | Text(text: string)

  /** What a loader makes of it. */
  datatype Parsed<+T> = Good(entries: T) | Bad(why: LogLoadResult)

  function ResultOf<T>(p: Parsed<T>): LogLoadResult
  {
    if p.Good? then LoadOk else p.why
  }

  // ------------------------------------------------------------------------------------------
  // Lines
  // ------------------------------------------------------------------------------------------

  /** `std::string::find` for one character; the length stands for `npos`. */
  function Find(s: string, c: char): (k: nat)
    ensures k <= |s| && c !in s[..k] && (k < |s| ==> s[k] == c)
  {
    if s == "" || s[0] == c then 0
    else
      var k := Find(s[1..], c);
      assert s[..k + 1] == [s[0]] + s[1..][..k];
      k + 1
  }

  /** `std::getline` on a stream that is not at its end: the next line ... */
  function Line(s: string): string
  {
    s[..Find(s, '\n')]
  }

  /** ... and what remains behind it. A last line need not end in a newline. */
  function AfterLine(s: string): (rest: string)
    ensures s != "" ==> |rest| < |s|
  {
    if Find(s, '\n') == |s| then "" else s[Find(s, '\n') + 1..]
  }

  lemma FindAppend(a: string, c: char, rest: string)
    requires c !in a
    ensures Find(a + [c] + rest, c) == |a|
  {
    var s := a + [c] + rest;
    assert s[|a|] == c && forall i :: 0 <= i < |a| ==> s[i] == a[i] && a[i] in a;
  }

  lemma LineOf(a: string, rest: string)
    requires '\n' !in a
    ensures Line(a + "\n" + rest) == a && AfterLine(a + "\n" + rest) == rest
  {
    FindAppend(a, '\n', rest);
    assert "\n" == ['\n'];
    assert (a + "\n" + rest)[..|a|] == a;
  }

  /** The lines of a file, as `getline` delivers them. */
  function FileLines(text: string): seq<string>
    decreases |text|
  {
    if text == "" then [] else [Line(text)] + FileLines(AfterLine(text))
  }

  ghost predicate OneLine(s: string)
  {
    '\n' !in s
  }

  /** Each line with a newline behind it. */
  function Terminated(lines: seq<string>): string
  {
    if lines == [] then "" else lines[0] + "\n" + Terminated(lines[1..])
  }

  /** A text is read as its lines, and a last line without a newline counts unless it is empty. */
  lemma {:induction false} LinesComeBack(lines: seq<string>, last: string)
    requires (forall k :: 0 <= k < |lines| ==> OneLine(lines[k])) && OneLine(last)
    ensures FileLines(Terminated(lines) + last) == lines + if last == "" then [] else [last]
  {
    if lines == [] {
      assert Terminated(lines) + last == last;
      WholeLine(last);
    } else {
      hide *;
      LinesComeBack(lines[1..], last);
      TerminatedFirst(lines, last);
      LinesStep(lines[0], Terminated(lines[1..]) + last, lines[1..] + if last == "" then [] else [last]);
      FirstOfAll(lines, if last == "" then [] else [last]);
    }
  }

  lemma FirstOfAll<T>(s: seq<T>, t: seq<T>)
    requires s != []
    ensures [s[0]] + (s[1..] + t) == s + t
  {
  }

  lemma LinesStep(line: string, rest: string, behind: seq<string>)
    requires OneLine(line) && FileLines(rest) == behind
    ensures FileLines(line + "\n" + rest) == [line] + behind
  {
    hide FileLines;
    FirstLine(line, rest);
  }

  lemma TerminatedFirst(lines: seq<string>, last: string)
    requires lines != []
    ensures Terminated(lines) + last == lines[0] + "\n" + (Terminated(lines[1..]) + last)
  {
    assert Terminated(lines) == lines[0] + "\n" + Terminated(lines[1..]);
    hide Terminated;
  }

  lemma FirstLine(line: string, rest: string)
    requires OneLine(line)
    ensures FileLines(line + "\n" + rest) == [line] + FileLines(rest)
  {
    LineOf(line, rest);
    hide Line, AfterLine;
  }

  lemma WholeLine(s: string)
    requires OneLine(s)
    ensures s != "" ==> Line(s) == s && AfterLine(s) == ""
    ensures FileLines(s) == if s == "" then [] else [s]
  {
    assert s[..|s|] == s;
  }

  lemma {:induction false} LinesArePlain(text: string)
    ensures forall k :: 0 <= k < |FileLines(text)| ==> '\n' !in FileLines(text)[k]
    decreases |text|
  {
    if text != "" {
      LinesArePlain(AfterLine(text));
    }
  }

  /** What remains behind the first line. */
  lemma LinesBehind(text: string)
    requires text != ""
    ensures FileLines(text) != [] && FileLines(text)[0] == Line(text)
    ensures FileLines(text)[1..] == FileLines(AfterLine(text))
  {
  }

  /** The records are all new, and `entries` has them and what was `loaded` before. */
  ghost predicate Adds<V(!new)>(loaded: map<string, V>, records: seq<(string, V)>, entries: map<string, V>)
    decreases |records|
  {
    if records == [] then entries == loaded
    else records[0].0 !in loaded && Adds(loaded[records[0].0 := records[0].1], records[1..], entries)
  }

  /** No two records have the same name, and `entries` has exactly the records. */
  ghost predicate Holds<V(!new)>(records: seq<(string, V)>, entries: map<string, V>)
  {
    && (forall i, j :: 0 <= i < j < |records| ==> records[i].0 != records[j].0)
    && (forall k :: 0 <= k < |records| ==> records[k].0 in entries && entries[records[k].0] == records[k].1)
    && (forall name :: name in entries ==> exists k :: 0 <= k < |records| && records[k].0 == name)
  }

  lemma {:induction false} AddsOneMore<V(!new)>(loaded: map<string, V>, records: seq<(string, V)>, name: string, v: V,
                                                entries: map<string, V>)
    ensures Adds(loaded, records + [(name, v)], entries) <==>
            exists before :: Adds(loaded, records, before) && name !in before && entries == before[name := v]
    decreases |records|
  {
    var longer := records + [(name, v)];
    if records == [] {
      assert longer[1..] == [];
      assert Adds(loaded, records, loaded);
    } else {
      assert longer[1..] == records[1..] + [(name, v)];
      AddsOneMore(loaded[records[0].0 := records[0].1], records[1..], name, v, entries);
    }
  }

  lemma {:induction false} AddsIffHolds<V(!new)>(records: seq<(string, V)>, entries: map<string, V>)
    ensures Adds(map[], records, entries) <==> Holds(records, entries)
    decreases |records|
  {
    if records == [] {
      assert Holds(records, entries) ==> entries.Keys == {};
    } else {
      var n := |records| - 1;
      var most, name, v := records[..n], records[n].0, records[n].1;
      assert records == most + [(name, v)];
      AddsOneMore(map[], most, name, v, entries);
      hide Adds, Holds;
      if before :| Adds(map[], most, before) && name !in before && entries == before[name := v] {
        AddsIffHolds(most, before);
        HoldsOneMore(records, before, entries);
      }
      if Holds(records, entries) {
        HoldsOneLess(records, entries);
        AddsIffHolds(most, entries - {name});
      }
    }
  }

  lemma HoldsOneMore<V(!new)>(records: seq<(string, V)>, before: map<string, V>, entries: map<string, V>)
    requires records != [] && Holds(records[..|records| - 1], before) && records[|records| - 1].0 !in before
    requires entries == before[records[|records| - 1].0 := records[|records| - 1].1]
    ensures Holds(records, entries)
  {
    var n := |records| - 1;
    assert forall k :: 0 <= k < n ==> records[..n][k] == records[k];
    forall name | name in entries
      ensures exists k :: 0 <= k < |records| && records[k].0 == name
    {
      if name in before {
        var k :| 0 <= k < n && records[..n][k].0 == name;
        assert records[k].0 == name;
      } else {
        assert records[n].0 == name;
      }
    }
  }

  lemma HoldsOneLess<V(!new)>(records: seq<(string, V)>, entries: map<string, V>)
    requires records != [] && Holds(records, entries)
    ensures Holds(records[..|records| - 1], entries - {records[|records| - 1].0})
    ensures var (name, v) := records[|records| - 1]; name in entries && entries == (entries - {name})[name := v]
  {
    var n := |records| - 1;
    var most, before := records[..n], entries - {records[n].0};
    assert forall k :: 0 <= k < n ==> most[k] == records[k];
    forall name | name in before
      ensures exists k :: 0 <= k < |most| && most[k].0 == name
    {
      var k :| 0 <= k < |records| && records[k].0 == name;
      assert most[k].0 == name;
    }
  }

  // ------------------------------------------------------------------------------------------
  // Numbers
  // ------------------------------------------------------------------------------------------

  predicate IsDigit(c: char)
  {
    '0' <= c <= '9'
  }

  /** Space, tab, newline, vertical tab, form feed and carriage return. */
  predicate IsSpace(c: char)
  {
    c == ' ' || ('\t' <= c <= '\r')
  }

  lemma SixSpaces(c: char)
    ensures IsSpace(c) <==> c == ' ' || c == '\t' || c == '\n' || c as int == 11 || c as int == 12 || c == '\r'
  {
  }

  ghost predicate Blank(s: string)
  {
    forall k :: 0 <= k < |s| ==> IsSpace(s[k])
  }

  function Digit(n: nat): char
    requires n < 10
  {
    ('0' as int + n) as char
  }

  /** `operator<<` for an unsigned integer. */
  function Decimal(n: nat): string
  {
    if n < 10 then [Digit(n)] else Decimal(n / 10) + [Digit(n % 10)]
  }

  ghost predicate AllDigits(s: string)
  {
    forall c :: c in s ==> IsDigit(c)
  }

  function DigitRun(s: string): (k: nat)
    ensures k <= |s| && AllDigits(s[..k]) && (k < |s| ==> !IsDigit(s[k]))
  {
    if s == "" || !IsDigit(s[0]) then 0
    else
      var k := DigitRun(s[1..]);
      assert s[..k + 1] == [s[0]] + s[1..][..k];
      k + 1
  }

  function Value(s: string): nat
    requires AllDigits(s)
  {
    if s == "" then 0
    else
      assert s[|s| - 1] in s;
      Value(s[..|s| - 1]) * 10 + (s[|s| - 1] as int - '0' as int)
  }

  function SkipSpaces(s: string): string
  {
    if s != "" && IsSpace(s[0]) then SkipSpaces(s[1..]) else s
  }

  function Unsigned(s: string): string
  {
    if s != "" && (s[0] == '+' || s[0] == '-') then s[1..] else s
  }

  /**
   `stream >> value; stream >> std::ws;` and the test for the end of the stream: leading and trailing white
   space is skipped, a sign is accepted, a minus negates modulo 2^64, and a value that does not fit fails.
   */
  function ReadUnsigned(text: string): Option<nat>
  {
    var s := SkipSpaces(text);
    var digits := Unsigned(s);
    var k := DigitRun(digits);
    if k == 0 || Value(digits[..k]) >= TWO_TO_THE_64 || SkipSpaces(digits[k..]) != "" then None
    else Some(if s[0] == '-' then (TWO_TO_THE_64 - Value(digits[..k])) % TWO_TO_THE_64 else Value(digits[..k]))
  }

  lemma {:induction false} DecimalIsValue(n: nat)
    ensures AllDigits(Decimal(n)) && Decimal(n) != "" && Value(Decimal(n)) == n
  {
    if n >= 10 {
      DecimalIsValue(n / 10);
      var s := Decimal(n);
      assert s[..|s| - 1] == Decimal(n / 10);
    } else {
      assert Decimal(n)[..0] == "";
    }
  }

  /** Digits contain no newline and no tab. */
  lemma DecimalIsPlain(n: nat)
    ensures '\n' !in Decimal(n) && '\t' !in Decimal(n) && Decimal(n) != ""
  {
    DecimalIsValue(n);
  }

  lemma ReadUnsignedFits(text: string)
    ensures ReadUnsigned(text).Some? ==> ReadUnsigned(text).value < TWO_TO_THE_64
  {
  }

  lemma NothingIsNoNumber()
    ensures ReadUnsigned("") == None
  {
  }

  /** White space, a sign or none, digits, white space. */
  ghost predicate NumberText(text: string, before: string, sign: string, digits: string, behind: string)
  {
    && text == before + sign + digits + behind && Blank(before) && Blank(behind)
    && (sign == "" || sign == "+" || sign == "-") && digits != "" && AllDigits(digits)
  }

  /** What is read as a number, and as which: nothing else may stand around it, and it must fit into 64 bits. */
  lemma ReadUnsignedIff(text: string, n: nat)
    ensures ReadUnsigned(text) == Some(n) <==>
      exists before, sign, digits, behind ::
        && NumberText(text, before, sign, digits, behind) && Value(digits) < TWO_TO_THE_64
        && n == if sign == "-" then (TWO_TO_THE_64 - Value(digits)) % TWO_TO_THE_64 else Value(digits)
  {
    hide ReadUnsigned, Value, Blank;
    if ReadUnsigned(text) == Some(n) {
      var before, sign, digits, behind := NumberIsThere(text, n);
    }
    if before, sign, digits, behind :|
      && NumberText(text, before, sign, digits, behind) && Value(digits) < TWO_TO_THE_64
      && n == if sign == "-" then (TWO_TO_THE_64 - Value(digits)) % TWO_TO_THE_64 else Value(digits) {
      NumberIsRead(text, before, sign, digits, behind);
    }
  }

  lemma {:induction false} Skipped(s: string) returns (before: string)
    ensures s == before + SkipSpaces(s) && Blank(before)
    ensures SkipSpaces(s) == "" || !IsSpace(SkipSpaces(s)[0])
  {
    if s != "" && IsSpace(s[0]) {
      var rest := Skipped(s[1..]);
      before := [s[0]] + rest;
    } else {
      before := "";
    }
  }

  lemma {:induction false} SkipsBlank(before: string, rest: string)
    requires Blank(before) && (rest == "" || !IsSpace(rest[0]))
    ensures SkipSpaces(before + rest) == rest
  {
    if before == "" {
      assert before + rest == rest;
    } else {
      assert (before + rest)[1..] == before[1..] + rest;
      SkipsBlank(before[1..], rest);
    }
  }

  lemma NumberIsThere(text: string, n: nat) returns (before: string, sign: string, digits: string, behind: string)
    requires ReadUnsigned(text) == Some(n)
    ensures NumberText(text, before, sign, digits, behind) && Value(digits) < TWO_TO_THE_64
    ensures n == if sign == "-" then (TWO_TO_THE_64 - Value(digits)) % TWO_TO_THE_64 else Value(digits)
  {
    var s := SkipSpaces(text);
    var tail := Unsigned(s);
    var k := DigitRun(tail);
    before := Skipped(text);
    sign := SignOf(s);
    digits, behind := tail[..k], tail[k..];
    var blank := Skipped(behind);
    hide SkipSpaces, Value, DigitRun, Unsigned, Blank, IsDigit, IsSpace;
    assert behind == blank + "" && blank == behind;
    FourParts(before, sign, tail, k);
  }

  lemma FourParts(before: string, sign: string, tail: string, k: nat)
    requires k <= |tail|
    ensures before + (sign + tail) == before + sign + tail[..k] + tail[k..]
  {
  }

  lemma SignOf(s: string) returns (sign: string)
    ensures s == sign + Unsigned(s) && (sign == "" || sign == "+" || sign == "-")
    ensures sign == "-" <==> s != "" && s[0] == '-'
  {
    sign := if s != "" && (s[0] == '+' || s[0] == '-') then [s[0]] else "";
  }

  lemma NumberIsRead(text: string, before: string, sign: string, digits: string, behind: string)
    requires NumberText(text, before, sign, digits, behind)
    ensures ReadUnsigned(text) ==
            if Value(digits) >= TWO_TO_THE_64 then None
            else Some(if sign == "-" then (TWO_TO_THE_64 - Value(digits)) % TWO_TO_THE_64 else Value(digits))
  {
    var s, tail := sign + digits + behind, digits + behind;
    assert digits[0] in digits;
    assert text == before + s;
    SkipsBlank(before, s);
    assert Unsigned(s) == tail;
    RunOfDigits(digits, behind);
    assert tail[..|digits|] == digits && tail[|digits|..] == behind;
    SkipsBlank(behind, "");
    assert behind + "" == behind;
    hide SkipSpaces, Value, DigitRun;
  }

  lemma {:induction false} RunOfDigits(digits: string, behind: string)
    requires AllDigits(digits) && Blank(behind)
    ensures DigitRun(digits + behind) == |digits|
  {
    if digits == "" {
      assert digits + behind == behind;
    } else {
      assert (digits + behind)[1..] == digits[1..] + behind && digits[0] in digits;
      RunOfDigits(digits[1..], behind);
    }
  }

  /** Numbers below 2^64 come back as they were written. */
  lemma DecimalRoundTrip(n: nat)
    ensures ReadUnsigned(Decimal(n)) == if n < TWO_TO_THE_64 then Some(n) else None
  {
    DecimalIsValue(n);
    hide ReadUnsigned, Decimal, Value;
    NumberIsRead(Decimal(n), "", "", Decimal(n), "");
  }
}
