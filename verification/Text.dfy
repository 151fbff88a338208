/**
 `string_utils`: trimming, splitting at white space, and replacing all occurrences of a text in place.
 */
module Text {
  import opened Prelude
  import opened LineFormat

  /** All white space around `text[i..j]`, none at its two ends. */
  ghost predicate TrimBounds(text: string, i: nat, j: nat)
  {
    && i <= j <= |text|
    && (forall k :: 0 <= k < i || j <= k < |text| ==> IsSpace(text[k]))
    && (i < j ==> !IsSpace(text[i]) && !IsSpace(text[j - 1]))
  }

  /** `r` is `text` without the white space around it. */
  ghost predicate IsTrimOf(text: string, r: string)
  {
    exists i: nat, j: nat :: TrimBounds(text, i, j) && r == text[i..j]
  }

  method Trim(text: string) returns (r: string)
    ensures IsTrimOf(text, r)
  {
    var begin := 0;
    while begin < |text| && IsSpace(text[begin])
      invariant begin <= |text| && forall k :: 0 <= k < begin ==> IsSpace(text[k])
    {
      begin := begin + 1;
    }
    var end := |text|;
    while end > begin && IsSpace(text[end - 1])
      invariant begin <= end <= |text| && forall k :: end <= k < |text| ==> IsSpace(text[k])
    {
      end := end - 1;
    }
    assert TrimBounds(text, begin, end);
    r := text[begin..end];
  }

  /** There is only one way to trim, and what is trimmed stays as it is. */
  lemma TrimIsUnique(text: string, r: string, s: string)
    requires IsTrimOf(text, r) && IsTrimOf(text, s)
    ensures r == s && IsTrimOf(r, r)
  {
    var i: nat, j: nat :| TrimBounds(text, i, j) && r == text[i..j];
    var k: nat, l: nat :| TrimBounds(text, k, l) && s == text[k..l];
    SameBounds(text, i, j, k, l);
    assert TrimBounds(r, 0, |r|) && r[0..|r|] == r;
  }

  lemma SameBounds(text: string, i: nat, j: nat, k: nat, l: nat)
    requires TrimBounds(text, i, j) && TrimBounds(text, k, l)
    ensures (i == j && k == l) || (i == k && j == l)
  {
  }

  // ------------------------------------------------------------------------------------------
  // Words
  // ------------------------------------------------------------------------------------------

  /** Length of the longest prefix without white space. */
  function WordRun(s: string): (k: nat)
    ensures k <= |s| && (forall i :: 0 <= i < k ==> !IsSpace(s[i])) && (k < |s| ==> IsSpace(s[k]))
  {
    if s == "" || IsSpace(s[0]) then 0 else 1 + WordRun(s[1..])
  }

  lemma SkipSpacesShrinks(s: string)
    ensures |SkipSpaces(s)| <= |s| && (SkipSpaces(s) != "" ==> !IsSpace(SkipSpaces(s)[0]))
  {
  }

  /** The maximal runs of characters that are not white space, in order. */
  function Words(s: string): seq<string>
    decreases |s|
  {
    SkipSpacesShrinks(s);
    var t := SkipSpaces(s);
    if t == "" then [] else [t[..WordRun(t)]] + Words(t[WordRun(t)..])
  }

  ghost predicate IsWord(s: string)
  {
    s != "" && forall k :: 0 <= k < |s| ==> !IsSpace(s[k])
  }

  lemma {:induction false} WordsAreWords(s: string)
    ensures forall w :: w in Words(s) ==> IsWord(w)
    decreases |s|
  {
    SkipSpacesShrinks(s);
    var t := SkipSpaces(s);
    if t != "" {
      WordsAreWords(t[WordRun(t)..]);
    }
  }

  /** `while (stream >> item) result.push_back(item)`. */
  method Split(text: string) returns (result: seq<string>)
    ensures result == Words(text)
    ensures forall w :: w in result ==> IsWord(w)
  {
    result := [];
    var rest := SkipSpaces(text);
    SkipSpacesShrinks(text);
    SkipTwice(text);
    while rest != ""
      invariant rest == SkipSpaces(rest)
      invariant result + Words(rest) == Words(text)
      decreases |rest|
    {
      SkipSpacesShrinks(rest);
      var k := WordRun(rest);
      SkipSpacesShrinks(rest[k..]);
      SkipTwice(rest[k..]);
      assert Words(rest) == [rest[..k]] + Words(rest[k..]);
      result, rest := result + [rest[..k]], SkipSpaces(rest[k..]);
    }
    WordsAreWords(text);
  }

  lemma {:induction false} SkipTwice(s: string)
    ensures SkipSpaces(SkipSpaces(s)) == SkipSpaces(s)
    ensures Words(SkipSpaces(s)) == Words(s)
    decreases |s|
  {
    if s != "" && IsSpace(s[0]) {
      SkipTwice(s[1..]);
    }
  }

  /** White space in front does not matter; a word followed by white space comes out first. */
  lemma WordThenRest(w: string, rest: string)
    requires IsWord(w) && (rest == "" || IsSpace(rest[0]))
    ensures Words(w + rest) == [w] + Words(rest)
  {
    var s := w + rest;
    assert s[0] == w[0] && SkipSpaces(s) == s;
    RunOfWord(w, rest);
    assert s[..|w|] == w && s[|w|..] == rest;
  }

  lemma {:induction false} RunOfWord(w: string, rest: string)
    requires (forall k :: 0 <= k < |w| ==> !IsSpace(w[k])) && (rest == "" || IsSpace(rest[0]))
    ensures WordRun(w + rest) == |w|
    decreases |w|
  {
    if w == "" {
      assert w + rest == rest;
    } else {
      assert (w + rest)[1..] == w[1..] + rest && (w + rest)[0] == w[0];
      RunOfWord(w[1..], rest);
    }
  }

  lemma {:induction false} SpaceThenRest(space: string, rest: string)
    requires Blank(space)
    ensures Words(space + rest) == Words(rest)
    decreases |space|
  {
    if space == "" {
      assert space + rest == rest;
    } else {
      assert (space + rest)[0] == space[0] && (space + rest)[1..] == space[1..] + rest;
      SpaceThenRest(space[1..], rest);
      SkipTwice(space + rest);
      SkipTwice(space[1..] + rest);
    }
  }

  /** `Edge::command` joins paths with single spaces. */
  function Joined(paths: seq<string>): string
  {
    if paths == [] then "" else if |paths| == 1 then paths[0] else paths[0] + " " + Joined(paths[1..])
  }

  /** Splitting undoes joining, as long as every path is one word. */
  lemma {:induction false} SplitUndoesJoin(paths: seq<string>)
    requires forall p :: p in paths ==> IsWord(p)
    ensures Words(Joined(paths)) == paths
  {
    if paths == [] {
    } else {
      assert paths[0] in paths;
      if |paths| == 1 {
        WordThenRest(paths[0], "");
        assert paths[0] + "" == paths[0] && paths == [paths[0]];
      } else {
        var rest := Joined(paths[1..]);
        assert paths[0] + " " + rest == paths[0] + (" " + rest);
        WordThenRest(paths[0], " " + rest);
        SpaceThenRest(" ", rest);
        SplitUndoesJoin(paths[1..]);
        assert paths == [paths[0]] + paths[1..];
      }
    }
  }

  // ------------------------------------------------------------------------------------------
  // Replacement
  // ------------------------------------------------------------------------------------------

  predicate HereIs(s: string, k: nat, from: string)
  {
    k + |from| <= |s| && forall j :: 0 <= j < |from| ==> from[j] == s[k + j]
  }

  lemma HereIsShift(s: string, i: nat, from: string)
    requires 0 < i <= |s|
    ensures HereIs(s, i, from) <==> HereIs(s[1..], i - 1, from)
  {
    var t := s[1..];
    if i + |from| <= |s| {
      forall j | 0 <= j < |from|
        ensures (from[j] == s[i + j]) <==> (from[j] == t[i - 1 + j])
      {
      }
    }
  }

  /** What is found in a prefix is found in the whole. */
  lemma HereIsInPrefix(s: string, n: nat, i: nat, from: string)
    requires n <= |s| && HereIs(s[..n], i, from)
    ensures HereIs(s, i, from)
  {
    forall j | 0 <= j < |from|
      ensures from[j] == s[i + j]
    {
      assert from[j] == s[..n][i + j];
    }
  }

  lemma HereIsSlice(s: string, k: nat, from: string)
    requires HereIs(s, k, from)
    ensures s == s[..k] + from + s[k + |from|..] && s[..k + |from|] == s[..k] + from
  {
    assert s[k..k + |from|] == from;
  }

  lemma HereIsAtEnd(a: string, from: string)
    ensures HereIs(a + from, |a|, from)
  {
  }

  /** `std::string::find`: the first occurrence; one past the end stands for `npos`. */
  function FindText(s: string, from: string): (k: nat)
    ensures k <= |s| + 1 && (k <= |s| ==> HereIs(s, k, from))
    ensures forall i: nat :: i < k && i <= |s| ==> !HereIs(s, i, from)
  {
    if HereIs(s, 0, from) then 0
    else if s == "" then 1
    else
      var k := FindText(s[1..], from);
      assert forall i: nat :: 0 < i <= |s| ==> (HereIs(s, i, from) <==> HereIs(s[1..], i - 1, from)) by {
        forall i: nat | 0 < i <= |s|
          ensures HereIs(s, i, from) <==> HereIs(s[1..], i - 1, from)
        {
          HereIsShift(s, i, from);
        }
      }
      k + 1
  }

  /** The text between the leftmost, non-overlapping occurrences of `from`. */
  function Pieces(s: string, from: string): (pieces: seq<string>)
    requires from != ""
    ensures |pieces| > 0
    decreases |s|
  {
    var k := FindText(s, from);
    if k > |s| then [s] else [s[..k]] + Pieces(s[k + |from|..], from)
  }

  function Glue(pieces: seq<string>, between: string): string
    requires |pieces| > 0
  {
    if |pieces| == 1 then pieces[0] else pieces[0] + between + Glue(pieces[1..], between)
  }

  /** Cutting at `from` and putting `to` in its places. */
  function Replaced(s: string, from: string, to: string): string
  {
    if from == "" then s else Glue(Pieces(s, from), to)
  }

  /** Every piece but the last is followed by an occurrence of `from`, the first one from where the piece starts. */
  ghost predicate Leftmost(pieces: seq<string>, from: string)
    requires |pieces| > 0
  {
    && (forall i :: 0 <= i < |pieces| - 1 ==> FindText(pieces[i] + from, from) == |pieces[i]|)
    && FindText(pieces[|pieces| - 1], from) > |pieces[|pieces| - 1]|
  }

  /** The pieces are what is left of `s` when occurrences of `from` are taken out from left to right. */
  lemma {:induction false} PiecesAreLeftmost(s: string, from: string)
    requires from != ""
    ensures Glue(Pieces(s, from), from) == s && Leftmost(Pieces(s, from), from)
    decreases |s|
  {
    var k := FindText(s, from);
    if k <= |s| {
      var rest := s[k + |from|..];
      CutOnce(s, k, from);
      hide Pieces, FindText;
      PiecesAreLeftmost(rest, from);
      OneMorePiece(s[..k], Pieces(rest, from), from);
    }
  }

  lemma CutOnce(s: string, k: nat, from: string)
    requires from != "" && k == FindText(s, from) && k <= |s|
    ensures k + |from| <= |s| && s == s[..k] + from + s[k + |from|..]
    ensures Pieces(s, from) == [s[..k]] + Pieces(s[k + |from|..], from)
    ensures FindText(s[..k] + from, from) == k
  {
    FirstStaysFirst(s, k, from);
    FirstPiece(s, k, from);
    HereIsSlice(s, k, from);
    hide *;
  }

  lemma FirstPiece(s: string, k: nat, from: string)
    requires from != "" && k == FindText(s, from) && k <= |s|
    ensures k + |from| <= |s|
    ensures Pieces(s, from) == [s[..k]] + Pieces(s[k + |from|..], from)
  {
    hide FindText;
  }

  lemma OneMorePiece(piece: string, pieces: seq<string>, from: string)
    requires |pieces| > 0 && Leftmost(pieces, from) && FindText(piece + from, from) == |piece|
    ensures Leftmost([piece] + pieces, from)
    ensures forall to :: Glue([piece] + pieces, to) == piece + to + Glue(pieces, to)
  {
    hide FindText;
    var more := [piece] + pieces;
    assert more[1..] == pieces;
    forall i | 0 <= i < |more| - 1
      ensures FindText(more[i] + from, from) == |more[i]|
    {
      if i > 0 {
        assert more[i] == pieces[i - 1];
      }
    }
  }

  lemma FirstStaysFirst(s: string, k: nat, from: string)
    requires k <= |s| && FindText(s, from) == k
    ensures FindText(s[..k] + from, from) == k
  {
    HereIsSlice(s, k, from);
    HereIsAtEnd(s[..k], from);
    hide HereIs;
    var t := s[..k] + from;
    var i := FindText(t, from);
    assert HereIs(t, i, from);
    HereIsInPrefix(s, k + |from|, i, from);
  }

  /**
   `replace_all`: terminates for every replacement, also one that contains the pattern, because the search goes
   on behind what was put in.
   */
  method ReplaceAll(text: string, from: string, to: string) returns (str: string)
    ensures str == Replaced(text, from, to)
  {
    str := text;
    if from == "" {
      return;
    }
    var pos := 0;
    Beginning(str, from, to);
    var found := FindText(str[pos..], from);
    hide Halfway, Replaced, FindText;
    while found <= |str| - pos
      invariant pos <= |str| && found == FindText(str[pos..], from)
      invariant Halfway(str, pos, text, from, to)
      decreases |str| - pos
    {
      str, pos := ReplaceAt(str, pos, found, text, from, to);
      found := FindText(str[pos..], from);
    }
    End(str, pos, text, from, to);
  }

  /** What is done, followed by what is left with everything replaced, is the original with everything replaced. */
  ghost predicate Halfway(str: string, pos: nat, text: string, from: string, to: string)
  {
    pos <= |str| && str[..pos] + Replaced(str[pos..], from, to) == Replaced(text, from, to)
  }

  lemma Beginning(s: string, from: string, to: string)
    ensures Halfway(s, 0, s, from, to)
  {
    assert s[0..] == s;
  }

  lemma End(s: string, pos: nat, text: string, from: string, to: string)
    requires Halfway(s, pos, text, from, to) && FindText(s[pos..], from) > |s| - pos
    ensures s == Replaced(text, from, to)
  {
    hide FindText;
    assert s[..pos] + s[pos..] == s;
    assert from != "" ==> Pieces(s[pos..], from) == [s[pos..]];
  }

  /** `str.replace(at, from.length(), to)`, and the place behind it. */
  method ReplaceAt(str: string, pos: nat, found: nat, ghost text: string, from: string, to: string)
    returns (next: string, behind: nat)
    requires from != "" && Halfway(str, pos, text, from, to)
    requires found == FindText(str[pos..], from) && found <= |str| - pos
    ensures behind <= |next| && |next| - behind < |str| - pos
    ensures Halfway(next, behind, text, from, to)
  {
    hide Replaced, FindText;
    ReplaceOne(str, pos, found, from, to);
    next := str[..pos + found] + to + str[pos + found + |from|..];
    behind := pos + found + |to|;
  }

  lemma ReplaceOne(str: string, pos: nat, found: nat, from: string, to: string)
    requires from != "" && pos <= |str| && found == FindText(str[pos..], from) && found <= |str| - pos
    ensures pos + found + |from| <= |str|
    ensures var at := pos + found; var next := str[..at] + to + str[at + |from|..];
      && pos + found + |to| <= |next| && |next| - (at + |to|) < |str| - pos
      && next[..at + |to|] + Replaced(next[at + |to|..], from, to) == str[..pos] + Replaced(str[pos..], from, to)
  {
    hide Replaced, FindText;
    var rest, n := str[pos..], |from|;
    assert HereIs(rest, found, from);
    ReplacedStep(rest, found, from, to);
    hide *;
    Splice(str, pos, found, n, to);
    Regroup(str[..pos], rest[..found] + to, Replaced(rest[found + n..], from, to));
  }

  lemma Splice(str: string, pos: nat, found: nat, n: nat, to: string)
    requires pos + found + n <= |str|
    ensures var at := pos + found; var next := str[..at] + to + str[at + n..];
      && next[at + |to|..] == str[at + n..] && str[pos..][found + n..] == str[at + n..]
      && next[..at + |to|] == str[..pos] + (str[pos..][..found] + to)
  {
  }

  lemma ReplacedStep(s: string, k: nat, from: string, to: string)
    requires from != "" && k == FindText(s, from) && k <= |s|
    ensures k + |from| <= |s|
    ensures Replaced(s, from, to) == s[..k] + to + Replaced(s[k + |from|..], from, to)
  {
    FirstPiece(s, k, from);
    hide FindText, Pieces;
    assert Pieces(s, from)[1..] == Pieces(s[k + |from|..], from);
  }
}
