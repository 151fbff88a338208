/**
 `CacheKeyBuilder`: the byte stream that is hashed into a cache key. Every name and every value is ended by a NUL
 byte. The stream determines what was put in, as long as nothing that is put in contains a NUL byte itself.
 */
module CacheKey {
  import opened Prelude
  import opened Hash

  type Bytes = seq<Byte>

  /** One dependency: its path and what its file holds. */
  datatype Dependency = Dependency(path: Bytes, content: Bytes)

  function Ascii(s: string): (b: Bytes)
    requires forall k :: 0 <= k < |s| ==> 0 < s[k] as int < 128
    ensures 0 !in b
  {
    if s == "" then [] else
      var code: Byte := s[0] as int;
      [code] + Ascii(s[1..])
  }

  /** The constant texts of the stream. */
  datatype Label = Version | CacheVersion | CompilerIdentity | Command | DependencyPath | DependencyContent

  function Name(which: Label): (b: Bytes)
    ensures 0 !in b
  {
    match which
    case Version => Ascii("version")
    case CacheVersion => Ascii("ForgeBuildCacheV2")
    case CompilerIdentity => Ascii("compiler_identity")
    case Command => Ascii("command")
    case DependencyPath => Ascii("dependency_path")
    case DependencyContent => Ascii("dependency_content")
  }

  const NUL: Bytes := [0]

  function Field(name: Bytes, value: Bytes): Bytes
  {
    name + NUL + value + NUL
  }

  function DependencyFields(deps: seq<Dependency>): Bytes
  {
    if deps == [] then []
    else
      Field(Name(DependencyPath), deps[0].path) + Field(Name(DependencyContent), deps[0].content) +
      DependencyFields(deps[1..])
  }

  /** What is hashed for one edge. */
  function KeyStream(identity: Bytes, command: Bytes, deps: seq<Dependency>): Bytes
  {
    Field(Name(Version), Name(CacheVersion)) + Field(Name(CompilerIdentity), identity) +
    Field(Name(Command), command) + DependencyFields(deps)
  }

  // ------------------------------------------------------------------------------------------
  // The stream as a list of NUL-terminated tokens
  // ------------------------------------------------------------------------------------------

  function Framed(tokens: seq<Bytes>): Bytes
  {
    if tokens == [] then [] else tokens[0] + NUL + Framed(tokens[1..])
  }

  ghost predicate Plain(tokens: seq<Bytes>)
  {
    forall k :: 0 <= k < |tokens| ==> 0 !in tokens[k]
  }

  /** NUL-free tokens can be read off the framed bytes, one by one. */
  lemma {:induction false} FramingIsInjective(tokens: seq<Bytes>, others: seq<Bytes>)
    requires Plain(tokens) && Plain(others) && Framed(tokens) == Framed(others)
    ensures tokens == others
    decreases |tokens|
  {
    hide Name;
    if tokens != [] && others != [] {
      var a, b := tokens[0], others[0];
      FirstToken(a, Framed(tokens[1..]), b, Framed(others[1..]));
      FramingIsInjective(tokens[1..], others[1..]);
      assert tokens == [a] + tokens[1..] && others == [b] + others[1..];
    }
  }

  lemma FirstToken(a: Bytes, rest: Bytes, b: Bytes, others: Bytes)
    requires 0 !in a && 0 !in b && a + NUL + rest == b + NUL + others
    ensures a == b && rest == others
  {
    hide Name;
    var s := a + NUL + rest;
    assert s[|a|] == 0 && s[|b|] == 0;
    assert forall k :: 0 <= k < |a| ==> s[k] == a[k] && a[k] in a;
    assert forall k :: 0 <= k < |b| ==> s[k] == b[k] && b[k] in b;
    assert |a| == |b|;
    assert a == s[..|a|] && b == s[..|b|];
    assert rest == s[|a| + 1..] && others == s[|b| + 1..];
  }

  function DependencyTokens(deps: seq<Dependency>): seq<Bytes>
  {
    if deps == [] then []
    else [Name(DependencyPath), deps[0].path, Name(DependencyContent), deps[0].content] + DependencyTokens(deps[1..])
  }

  function Tokens(identity: Bytes, command: Bytes, deps: seq<Dependency>): seq<Bytes>
  {
    [Name(Version), Name(CacheVersion), Name(CompilerIdentity), identity, Name(Command), command] +
    DependencyTokens(deps)
  }

  lemma {:induction false} FramedConcat(tokens: seq<Bytes>, others: seq<Bytes>)
    ensures Framed(tokens + others) == Framed(tokens) + Framed(others)
    decreases |tokens|
  {
    hide Name;
    if tokens == [] {
      assert tokens + others == others;
    } else {
      FramedConcat(tokens[1..], others);
      assert (tokens + others)[1..] == tokens[1..] + others;
    }
  }

  lemma FramedPair(name: Bytes, value: Bytes, rest: seq<Bytes>)
    ensures Framed([name, value] + rest) == Field(name, value) + Framed(rest)
  {
    hide Name;
    assert ([name, value] + rest)[1..] == [value] + rest;
    assert ([value] + rest)[1..] == rest;
  }

  lemma {:induction false} DependenciesAreFramed(deps: seq<Dependency>)
    ensures DependencyFields(deps) == Framed(DependencyTokens(deps))
  {
    hide Name, Field;
    if deps != [] {
      var first, rest := deps[0], DependencyTokens(deps[1..]);
      DependenciesAreFramed(deps[1..]);
      hide Framed;
      FramedPair(Name(DependencyContent), first.content, rest);
      FramedPair(Name(DependencyPath), first.path, [Name(DependencyContent), first.content] + rest);
      FirstTokens(deps);
    }
  }

  lemma FirstTokens(deps: seq<Dependency>)
    requires deps != []
    ensures DependencyTokens(deps) ==
            [Name(DependencyPath), deps[0].path] +
            ([Name(DependencyContent), deps[0].content] + DependencyTokens(deps[1..]))
  {
    hide Name;
  }

  lemma TokensRegroup(identity: Bytes, command: Bytes, deps: seq<Dependency>)
    ensures Tokens(identity, command, deps) ==
            [Name(Version), Name(CacheVersion)] +
            ([Name(CompilerIdentity), identity] + ([Name(Command), command] + DependencyTokens(deps)))
  {
    hide Name, DependencyTokens;
  }

  lemma FieldsRegroup(a: Bytes, b: Bytes, c: Bytes, d: Bytes)
    ensures a + b + c + d == a + (b + (c + d))
  {
  }

  lemma StreamIsFramed(identity: Bytes, command: Bytes, deps: seq<Dependency>)
    ensures KeyStream(identity, command, deps) == Framed(Tokens(identity, command, deps))
  {
    hide Name, Field, Framed, Tokens, DependencyFields, DependencyTokens;
    DependenciesAreFramed(deps);
    TokensRegroup(identity, command, deps);
    var rest := DependencyTokens(deps);
    var more := [Name(Command), command] + rest;
    FramedPair(Name(Command), command, rest);
    FramedPair(Name(CompilerIdentity), identity, more);
    FramedPair(Name(Version), Name(CacheVersion), [Name(CompilerIdentity), identity] + more);
    FieldsRegroup(Field(Name(Version), Name(CacheVersion)), Field(Name(CompilerIdentity), identity),
                  Field(Name(Command), command), DependencyFields(deps));
  }

  ghost predicate PlainDependencies(deps: seq<Dependency>)
  {
    forall k :: 0 <= k < |deps| ==> 0 !in deps[k].path && 0 !in deps[k].content
  }

  lemma {:induction false} PlainTokens(deps: seq<Dependency>)
    requires PlainDependencies(deps)
    ensures Plain(DependencyTokens(deps)) && |DependencyTokens(deps)| == 4 * |deps|
  {
    hide Name;
    if deps != [] {
      PlainTokens(deps[1..]);
    }
  }

  lemma {:induction false} TokensTellDependencies(deps: seq<Dependency>, others: seq<Dependency>)
    requires DependencyTokens(deps) == DependencyTokens(others) && PlainDependencies(deps) && PlainDependencies(others)
    ensures deps == others
    decreases |deps|
  {
    hide Name;
    PlainTokens(deps);
    PlainTokens(others);
    if deps != [] {
      var tokens := DependencyTokens(deps);
      assert tokens[1] == deps[0].path && tokens[1] == others[0].path;
      assert tokens[3] == deps[0].content && tokens[3] == others[0].content;
      assert tokens[4..] == DependencyTokens(deps[1..]) && tokens[4..] == DependencyTokens(others[1..]);
      TokensTellDependencies(deps[1..], others[1..]);
      assert deps == [deps[0]] + deps[1..] && others == [others[0]] + others[1..];
    }
  }

  /** Before hashing, the key stream is injective: same identity, same command, same dependencies in the same order. */
  lemma KeyStreamIsInjective(identity: Bytes, command: Bytes, deps: seq<Dependency>,
                             identity': Bytes, command': Bytes, deps': seq<Dependency>)
    requires 0 !in identity && 0 !in command && PlainDependencies(deps)
    requires 0 !in identity' && 0 !in command' && PlainDependencies(deps')
    ensures KeyStream(identity, command, deps) == KeyStream(identity', command', deps') <==>
            identity == identity' && command == command' && deps == deps'
  {
    hide Name;
    if KeyStream(identity, command, deps) == KeyStream(identity', command', deps') {
      var tokens, others := Tokens(identity, command, deps), Tokens(identity', command', deps');
      StreamIsFramed(identity, command, deps);
      StreamIsFramed(identity', command', deps');
      PlainTokens(deps);
      PlainTokens(deps');
      hide KeyStream, Framed, DependencyTokens;
      FramingIsInjective(tokens, others);
      assert tokens[3] == identity && others[3] == identity' && tokens[5] == command && others[5] == command';
      assert tokens[6..] == DependencyTokens(deps) && others[6..] == DependencyTokens(deps');
      TokensTellDependencies(deps, deps');
    }
  }

  /** One dependency whose content ends with the bytes that stand between two dependencies, and the second of them. */
  function Glued(first: Dependency, second: Dependency): Dependency
  {
    Dependency(first.path,
               first.content + NUL + Field(Name(DependencyPath), second.path) + Name(DependencyContent) + NUL +
               second.content)
  }

  lemma GluedFields(first: Dependency, second: Dependency)
    ensures DependencyFields([Glued(first, second)]) == DependencyFields([first, second])
  {
    hide Name;
    var glued := Glued(first, second);
    assert [glued][1..] == [] && [first, second][1..] == [second] && [second][1..] == [];
  }

  lemma {:induction false} FieldsConcat(deps: seq<Dependency>, more: seq<Dependency>)
    ensures DependencyFields(deps + more) == DependencyFields(deps) + DependencyFields(more)
    decreases |deps|
  {
    hide Name, Field;
    if deps == [] {
      assert deps + more == more;
    } else {
      FieldsConcat(deps[1..], more);
      assert (deps + more)[1..] == deps[1..] + more;
    }
  }

  /** The list in which dependency `k` and the one behind it are glued. */
  function GluedAt(deps: seq<Dependency>, k: nat): seq<Dependency>
    requires k + 1 < |deps|
  {
    deps[..k] + [Glued(deps[k], deps[k + 1])] + deps[k + 2..]
  }

  /**
   With NUL bytes in dependencies the framing is ambiguous: any two neighbours of any list can be replaced by one
   dependency that holds the bytes between them, and the stream stays the same.
   */
  lemma NulMakesStreamsAmbiguous(identity: Bytes, command: Bytes, deps: seq<Dependency>, k: nat)
    requires k + 1 < |deps|
    ensures GluedAt(deps, k) != deps
    ensures KeyStream(identity, command, GluedAt(deps, k)) == KeyStream(identity, command, deps)
  {
    hide KeyStream, Glued;
    var a, b := deps[..k], deps[k + 2..];
    assert deps == a + [deps[k], deps[k + 1]] + b;
    assert |GluedAt(deps, k)| != |deps|;
    GluedNeighbours(identity, command, a, deps[k], deps[k + 1], b);
  }

  lemma GluedNeighbours(identity: Bytes, command: Bytes, a: seq<Dependency>, first: Dependency, second: Dependency,
                        b: seq<Dependency>)
    ensures KeyStream(identity, command, a + [Glued(first, second)] + b) ==
            KeyStream(identity, command, a + [first, second] + b)
  {
    hide *;
    GluedFields(first, second);
    SameMiddle(a, [first, second], [Glued(first, second)], b);
    SameStream(identity, command, a + [first, second] + b, a + [Glued(first, second)] + b);
  }

  lemma SameMiddle(a: seq<Dependency>, middle: seq<Dependency>, other: seq<Dependency>, b: seq<Dependency>)
    requires DependencyFields(middle) == DependencyFields(other)
    ensures DependencyFields(a + middle + b) == DependencyFields(a + other + b)
  {
    hide *;
    FieldsConcat(a + middle, b);
    FieldsConcat(a, middle);
    FieldsConcat(a + other, b);
    FieldsConcat(a, other);
  }

  lemma SameStream(identity: Bytes, command: Bytes, deps: seq<Dependency>, others: seq<Dependency>)
    requires DependencyFields(deps) == DependencyFields(others)
    ensures KeyStream(identity, command, deps) == KeyStream(identity, command, others)
  {
    hide DependencyFields, Field, Name;
  }

  // ------------------------------------------------------------------------------------------
  // Which lists are read in one way only
  // ------------------------------------------------------------------------------------------

  ghost predicate PlainPaths(deps: seq<Dependency>)
  {
    forall k :: 0 <= k < |deps| ==> 0 !in deps[k].path
  }

  /** Nothing else with NUL-free identity, command and paths has the same stream. */
  ghost predicate ReadOneWay(identity: Bytes, command: Bytes, deps: seq<Dependency>)
  {
    forall identity': Bytes, command': Bytes, deps': seq<Dependency> ::
      (0 !in identity' && 0 !in command' && PlainPaths(deps') &&
       KeyStream(identity', command', deps') == KeyStream(identity, command, deps)) ==>
        identity' == identity && command' == command && deps' == deps
  }

  /** The content reads as one content, the bytes that stand between two dependencies, and another content. */
  ghost predicate HoldsSeparator(c: Bytes)
  {
    exists a: Bytes, p: Bytes, b: Bytes :: Separated(c, a, p, b)
  }

  ghost predicate Separated(c: Bytes, a: Bytes, p: Bytes, b: Bytes)
  {
    0 !in p && c == Glued(Dependency([], a), Dependency(p, b)).content
  }

  lemma ReadAnotherWay(identity: Bytes, command: Bytes, deps: seq<Dependency>, others: seq<Dependency>)
    requires 0 !in identity && 0 !in command && PlainPaths(others) && others != deps
    requires KeyStream(identity, command, others) == KeyStream(identity, command, deps)
    ensures !ReadOneWay(identity, command, deps)
  {
    hide KeyStream, PlainPaths;
  }

  /** Two or more dependencies can always be read as fewer ... */
  lemma TwoAreAmbiguous(identity: Bytes, command: Bytes, deps: seq<Dependency>)
    requires 0 !in identity && 0 !in command && PlainPaths(deps) && |deps| >= 2
    ensures !ReadOneWay(identity, command, deps)
  {
    hide *;
    GluedPathsArePlain(deps);
    NulMakesStreamsAmbiguous(identity, command, deps, 0);
    ReadAnotherWay(identity, command, deps, GluedAt(deps, 0));
  }

  lemma GluedPathsArePlain(deps: seq<Dependency>)
    requires PlainPaths(deps) && |deps| >= 2
    ensures PlainPaths(GluedAt(deps, 0))
  {
    hide Name, Field;
  }

  /** ... and one with a separator in its content as two. */
  lemma SeparatorIsAmbiguous(identity: Bytes, command: Bytes, dep: Dependency)
    requires 0 !in identity && 0 !in command && 0 !in dep.path && HoldsSeparator(dep.content)
    ensures !ReadOneWay(identity, command, [dep])
  {
    hide Name, KeyStream;
    var a: Bytes, p: Bytes, b: Bytes :| Separated(dep.content, a, p, b);
    var first, second := Dependency(dep.path, a), Dependency(p, b);
    assert Glued(first, second) == dep;
    assert PlainPaths([first, second]);
    hide *;
    GluedNeighbours(identity, command, [], first, second, []);
    assert [] + [dep] + [] == [dep] && [] + [first, second] + [] == [first, second];
    ReadAnotherWay(identity, command, [dep], [first, second]);
  }

  /** Identity and command can be read off any stream. */
  lemma HeadIsRead(identity: Bytes, command: Bytes, deps: seq<Dependency>,
                   identity': Bytes, command': Bytes, deps': seq<Dependency>)
    requires 0 !in identity && 0 !in command && 0 !in identity' && 0 !in command'
    requires KeyStream(identity, command, deps) == KeyStream(identity', command', deps')
    ensures identity == identity' && command == command' && DependencyFields(deps) == DependencyFields(deps')
  {
    StreamIsFielded(identity, command, deps);
    StreamIsFielded(identity', command', deps');
    hide Name, KeyStream, DependencyFields, Field;
    var version := Name(CacheVersion);
    var rest, rest' := Field(Name(Command), command) + DependencyFields(deps),
                       Field(Name(Command), command') + DependencyFields(deps');
    var more, more' := Field(Name(CompilerIdentity), identity) + rest, Field(Name(CompilerIdentity), identity') + rest';
    FirstField(Name(Version), version, more, Name(Version), version, more');
    FirstField(Name(CompilerIdentity), identity, rest, Name(CompilerIdentity), identity', rest');
    FirstField(Name(Command), command, DependencyFields(deps), Name(Command), command', DependencyFields(deps'));
  }

  lemma StreamIsFielded(identity: Bytes, command: Bytes, deps: seq<Dependency>)
    ensures KeyStream(identity, command, deps) ==
            Field(Name(Version), Name(CacheVersion)) +
            (Field(Name(CompilerIdentity), identity) + (Field(Name(Command), command) + DependencyFields(deps)))
  {
    hide Name, Field, DependencyFields;
    FieldsRegroup(Field(Name(Version), Name(CacheVersion)), Field(Name(CompilerIdentity), identity),
                  Field(Name(Command), command), DependencyFields(deps));
  }

  lemma FirstField(name: Bytes, value: Bytes, rest: Bytes, name': Bytes, value': Bytes, rest': Bytes)
    requires 0 !in name && 0 !in value && 0 !in name' && 0 !in value'
    requires Field(name, value) + rest == Field(name', value') + rest'
    ensures name == name' && value == value' && rest == rest'
  {
    hide Name;
    assert Field(name, value) + rest == name + NUL + (value + NUL + rest);
    assert Field(name', value') + rest' == name' + NUL + (value' + NUL + rest');
    FirstToken(name, value + NUL + rest, name', value' + NUL + rest');
    FirstToken(value, rest, value', rest');
  }

  lemma FieldsOfMore(dep: Dependency, deps: seq<Dependency>)
    ensures DependencyFields([dep] + deps) ==
            Field(Name(DependencyPath), dep.path) + (Name(DependencyContent) + NUL + (dep.content + NUL +
                                                                                      DependencyFields(deps)))
  {
    hide Name;
    assert ([dep] + deps)[1..] == deps;
  }

  /** The fields of a list end with a NUL byte. */
  lemma {:induction false} FieldsEnd(deps: seq<Dependency>)
    requires deps != []
    ensures DependencyFields(deps) != [] && DependencyFields(deps)[|DependencyFields(deps)| - 1] == 0
    decreases |deps|
  {
    hide Name;
    if |deps| > 1 {
      FieldsEnd(deps[1..]);
    }
  }

  /** The fields of one dependency, read as those of another list. */
  lemma OneIsRead(dep: Dependency, deps: seq<Dependency>)
    requires 0 !in dep.path && PlainPaths(deps) && !HoldsSeparator(dep.content)
    requires DependencyFields([dep]) == DependencyFields(deps)
    ensures deps == [dep]
  {
    hide *;
    NotEmptyLists(dep, deps);
    PlainParts(deps);
    SingleIsRead(dep, deps[0], deps[1..]);
  }

  lemma PlainParts(deps: seq<Dependency>)
    requires PlainPaths(deps) && deps != []
    ensures deps == [deps[0]] + deps[1..] && 0 !in deps[0].path && PlainPaths(deps[1..])
  {
  }

  lemma SingleIsRead(dep: Dependency, first: Dependency, rest: seq<Dependency>)
    requires 0 !in dep.path && 0 !in first.path && PlainPaths(rest) && !HoldsSeparator(dep.content)
    requires DependencyFields([dep]) == DependencyFields([first] + rest)
    ensures rest == [] && first == dep
  {
    hide *;
    FieldsOfMore(dep, []);
    assert [dep] + [] == [dep];
    FieldsOfMore(first, rest);
    FirstIsRead(dep, [], first, rest);
    ContentIsRead(dep.content, first.content, rest);
  }

  lemma NotEmptyLists(dep: Dependency, deps: seq<Dependency>)
    requires DependencyFields([dep]) == DependencyFields(deps)
    ensures deps != []
  {
    hide Name, Field;
    FieldsEnd([dep]);
  }

  lemma FirstIsRead(dep: Dependency, rest: seq<Dependency>, other: Dependency, others: seq<Dependency>)
    requires 0 !in dep.path && 0 !in other.path
    requires Field(Name(DependencyPath), dep.path) + (Name(DependencyContent) + NUL + (dep.content + NUL +
                                                                                       DependencyFields(rest))) ==
             Field(Name(DependencyPath), other.path) + (Name(DependencyContent) + NUL + (other.content + NUL +
                                                                                         DependencyFields(others)))
    ensures dep.path == other.path
    ensures dep.content + NUL + DependencyFields(rest) == other.content + NUL + DependencyFields(others)
  {
    var c, c' := dep.content + NUL + DependencyFields(rest), other.content + NUL + DependencyFields(others);
    var name, path := Name(DependencyContent), Name(DependencyPath);
    assert 0 !in name && 0 !in path;
    hide *;
    FirstField(path, dep.path, name + NUL + c, path, other.path, name + NUL + c');
    FirstToken(name, c, name, c');
  }

  lemma ContentIsRead(content: Bytes, other: Bytes, rest: seq<Dependency>)
    requires !HoldsSeparator(content) && PlainPaths(rest)
    requires content + NUL + DependencyFields([]) == other + NUL + DependencyFields(rest)
    ensures rest == [] && content == other
  {
    assert DependencyFields([]) == [];
    hide Name, DependencyFields, HoldsSeparator;
    if rest == [] {
      assert content + NUL + [] == content + NUL && other + NUL + [] == other + NUL;
      assert content == (content + NUL)[..|content|] && other == (other + NUL)[..|other|];
    } else {
      SeparatorIn(content, other, rest);
    }
  }

  lemma SeparatorIn(content: Bytes, other: Bytes, rest: seq<Dependency>)
    requires rest != [] && PlainPaths(rest) && content + NUL + [] == other + NUL + DependencyFields(rest)
    ensures HoldsSeparator(content)
  {
    var first, more := rest[0], rest[1..];
    hide *;
    PlainParts(rest);
    FieldsOfMore(first, more);
    TailEnds(first, more);
    SeparatorBefore(content, other, first, first.content + NUL + DependencyFields(more));
  }

  lemma SeparatorBefore(content: Bytes, other: Bytes, first: Dependency, tail: Bytes)
    requires 0 !in first.path && tail != [] && tail[|tail| - 1] == 0
    requires content + NUL + [] ==
             other + NUL + (Field(Name(DependencyPath), first.path) + (Name(DependencyContent) + NUL + tail))
    ensures HoldsSeparator(content)
  {
    hide Name, Field, HoldsSeparator;
    var b := tail[..|tail| - 1];
    assert tail == b + NUL;
    CutLast(content, other, Field(Name(DependencyPath), first.path), Name(DependencyContent), b, tail);
    IsSeparated(content, other, first.path, b);
  }

  lemma IsSeparated(content: Bytes, a: Bytes, p: Bytes, b: Bytes)
    requires 0 !in p
    requires content == a + NUL + Field(Name(DependencyPath), p) + Name(DependencyContent) + NUL + b
    ensures HoldsSeparator(content)
  {
    hide Name, Field;
    assert Separated(content, a, p, b);
  }

  lemma TailEnds(dep: Dependency, deps: seq<Dependency>)
    ensures var tail := dep.content + NUL + DependencyFields(deps);
      tail != [] && tail[|tail| - 1] == 0
  {
    if deps != [] {
      FieldsEnd(deps);
    }
    hide Name;
  }

  lemma CutLast(content: Bytes, other: Bytes, field: Bytes, name: Bytes, b: Bytes, tail: Bytes)
    requires tail == b + NUL
    requires content + NUL + [] == other + NUL + (field + (name + NUL + tail))
    ensures content == other + NUL + field + name + NUL + b
  {
    hide Name;
    var left, right := content + NUL + [], other + NUL + field + name + NUL + b + NUL;
    assert left == right;
    assert content == left[..|left| - 1] && other + NUL + field + name + NUL + b == right[..|right| - 1];
  }

  /**
   Exactly the lists without dependencies, and those of one dependency whose content holds no separator, are read in one
   way only.
   */
  lemma ReadOneWayIff(identity: Bytes, command: Bytes, deps: seq<Dependency>)
    requires 0 !in identity && 0 !in command && PlainPaths(deps)
    ensures ReadOneWay(identity, command, deps) <==>
            |deps| == 0 || (|deps| == 1 && !HoldsSeparator(deps[0].content))
  {
    hide Name, KeyStream, HoldsSeparator;
    if |deps| >= 2 {
      TwoAreAmbiguous(identity, command, deps);
    } else if |deps| == 1 && HoldsSeparator(deps[0].content) {
      assert deps == [deps[0]];
      SeparatorIsAmbiguous(identity, command, deps[0]);
    } else {
      forall identity': Bytes, command': Bytes, deps': seq<Dependency> |
        0 !in identity' && 0 !in command' && PlainPaths(deps') &&
        KeyStream(identity', command', deps') == KeyStream(identity, command, deps)
        ensures identity' == identity && command' == command && deps' == deps
      {
        HeadIsRead(identity', command', deps', identity, command, deps);
        FewAreRead(deps, deps');
      }
    }
  }

  lemma FewAreRead(deps: seq<Dependency>, others: seq<Dependency>)
    requires PlainPaths(deps) && PlainPaths(others) && DependencyFields(others) == DependencyFields(deps)
    requires |deps| == 0 || (|deps| == 1 && !HoldsSeparator(deps[0].content))
    ensures others == deps
  {
    hide Name, HoldsSeparator;
    if deps == [] {
      if others != [] {
        FieldsEnd(others);
      }
    } else {
      assert deps == [deps[0]];
      OneIsRead(deps[0], others);
    }
  }

  // ------------------------------------------------------------------------------------------
  // The real hash
  // ------------------------------------------------------------------------------------------

  /** The stream around the content of one dependency. */
  function Around(identity: Bytes, command: Bytes, before: seq<Dependency>, path: Bytes): Bytes
  {
    KeyStream(identity, command, before) + Field(Name(DependencyPath), path) + Name(DependencyContent) + NUL
  }

  lemma StreamAround(identity: Bytes, command: Bytes, a: seq<Dependency>, dep: Dependency, b: seq<Dependency>)
    ensures KeyStream(identity, command, a + [dep] + b) ==
            Around(identity, command, a, dep.path) + dep.content + (NUL + DependencyFields(b))
  {
    assert a + [dep] + b == a + ([dep] + b);
    FieldsConcat(a, [dep] + b);
    FieldsOfMore(dep, b);
    StreamHasHead(identity, command, a + [dep] + b);
    StreamHasHead(identity, command, a);
    hide Name, Field, DependencyFields, KeyStream, Head;
    Shifted(Head(identity, command), DependencyFields(a), Field(Name(DependencyPath), dep.path),
            Name(DependencyContent), dep.content, DependencyFields(b));
  }

  function Head(identity: Bytes, command: Bytes): Bytes
  {
    Field(Name(Version), Name(CacheVersion)) + Field(Name(CompilerIdentity), identity) + Field(Name(Command), command)
  }

  lemma StreamHasHead(identity: Bytes, command: Bytes, deps: seq<Dependency>)
    ensures KeyStream(identity, command, deps) == Head(identity, command) + DependencyFields(deps)
  {
    hide Name, Field, DependencyFields;
  }

  lemma Shifted(head: Bytes, a: Bytes, field: Bytes, name: Bytes, content: Bytes, b: Bytes)
    ensures head + (a + (field + (name + NUL + (content + NUL + b)))) ==
            head + a + field + name + NUL + content + (NUL + b)
  {
    hide Name;
  }

  /** With the real hash, a change of one byte in one of the files of the list always leads to another key. */
  lemma OneByteOfAFileIsSeen(identity: Bytes, command: Bytes, deps: seq<Dependency>, i: nat, k: nat, byte: Byte)
    requires i < |deps| && k < |deps[i].content| && byte != deps[i].content[k]
    ensures HashOf(KeyStream(identity, command, deps[i := deps[i].(content := deps[i].content[k := byte])])) !=
            HashOf(KeyStream(identity, command, deps))
  {
    var dep := deps[i];
    var other := dep.(content := dep.content[k := byte]);
    assert deps == deps[..i] + [dep] + deps[i + 1..];
    assert deps[i := other] == deps[..i] + [other] + deps[i + 1..];
    StreamAround(identity, command, deps[..i], dep, deps[i + 1..]);
    StreamAround(identity, command, deps[..i], other, deps[i + 1..]);
    hide Name, KeyStream, Around, DependencyFields, HashOf;
    OneByteBetween(Around(identity, command, deps[..i], dep.path), dep.content, NUL + DependencyFields(deps[i + 1..]),
                   k, byte);
  }

  lemma OneByteBetween(a: Bytes, content: Bytes, b: Bytes, k: nat, byte: Byte)
    requires k < |content| && byte != content[k]
    ensures HashOf(a + content[k := byte] + b) != HashOf(a + content + b)
  {
    hide Name, HashOf;
    var text := a + content + b;
    assert a + content[k := byte] + b == text[|a| + k := byte];
    OneByteIsAlwaysSeen(text, |a| + k, byte);
  }

  class CacheKeyBuilder {
    const hasher: Hash64
    /** Everything hashed so far. */
    ghost var stream: Bytes

    ghost predicate Valid()
      reads this, hasher
    {
      hasher.value == HashOf(stream)
    }

    constructor ()
      ensures Valid() && fresh(hasher) && stream == Field(Name(Version), Name(CacheVersion))
    {
      hide Name;
      hasher := new Hash64();
      stream := [];
      new;
      AddField(Name(Version), Name(CacheVersion));
      assert [] + Field(Name(Version), Name(CacheVersion)) == Field(Name(Version), Name(CacheVersion));
    }

    method AddField(name: Bytes, value: Bytes)
      requires Valid()
      modifies this, hasher
      ensures Valid() && stream == old(stream) + Field(name, value)
    {
      hide Name, Field, HashOf;
      Add(name);
      Add(NUL);
      Add(value);
      Add(NUL);
      FieldParts(old(stream), name, value);
    }

    /** `hasher_.update`. */
    method Add(text: Bytes)
      requires Valid()
      modifies this, hasher
      ensures Valid() && stream == old(stream) + text
    {
      hide Name;
      FnvConcat(OFFSET_BASIS, stream, text);
      hasher.Update(text);
      stream := stream + text;
    }

    method AddCompilerIdentity(identity: Bytes)
      requires Valid()
      modifies this, hasher
      ensures Valid() && stream == old(stream) + Field(Name(CompilerIdentity), identity)
    {
      hide Name;
      AddField(Name(CompilerIdentity), identity);
    }

    method AddCommand(command: Bytes)
      requires Valid()
      modifies this, hasher
      ensures Valid() && stream == old(stream) + Field(Name(Command), command)
    {
      hide Name;
      AddField(Name(Command), command);
    }

    /** A dependency whose file cannot be read makes the builder useless. */
    method AddDependency(path: Bytes, file: Input) returns (ok: bool)
      requires Valid()
      modifies this, hasher
      ensures ok <==> file.Stream? && !file.broken
      ensures ok ==> Valid()
      ensures ok ==>
                stream == old(stream) + Field(Name(DependencyPath), path) + Field(Name(DependencyContent), file.bytes)
    {
      hide Name, Field, HashOf;
      AddField(Name(DependencyPath), path);
      ghost var before := stream;
      Add(Name(DependencyContent));
      Add(NUL);
      if file.Stream? {
        FileJoins(stream, file.bytes);
      }
      ok := hasher.UpdateFile(file);
      if !ok {
        return;
      }
      stream := stream + file.bytes;
      Add(NUL);
      FieldParts(before, Name(DependencyContent), file.bytes);
    }
  }

  lemma FieldParts(before: Bytes, name: Bytes, value: Bytes)
    ensures before + name + NUL + value + NUL == before + Field(name, value)
  {
    hide Name;
  }

  lemma FileJoins(stream: Bytes, content: Bytes)
    ensures Fnv(HashOf(stream), content) == HashOf(stream + content)
  {
    hide Name;
    FnvConcat(OFFSET_BASIS, stream, content);
  }

  /** The calls that the executor makes, in its order, hash the key stream of the edge. */
  method KeyOf(identity: Bytes, command: Bytes, paths: seq<Bytes>, files: seq<Input>) returns (key: Option<Word>)
    requires |paths| == |files|
    ensures key.Some? <==> forall k :: 0 <= k < |files| ==> files[k].Stream? && !files[k].broken
    ensures key.Some? ==> key.value == HashOf(KeyStream(identity, command, Read(paths, files)))
  {
    hide Name, Field, HashOf;
    var builder := new CacheKeyBuilder();
    builder.AddCompilerIdentity(identity);
    builder.AddCommand(command);
    ghost var start := builder.stream;
    NothingReadYet(start, paths, files);
    for k := 0 to |paths|
      invariant builder.Valid() && fresh(builder) && fresh(builder.hasher)
      invariant forall j :: 0 <= j < k ==> files[j].Stream? && !files[j].broken
      invariant builder.stream == start + DependencyFields(Read(paths[..k], files[..k]))
    {
      var ok := builder.AddDependency(paths[k], files[k]);
      if !ok {
        return None;
      }
      OneMoreRead(start, paths, files, k);
    }
    assert paths[..|paths|] == paths && files[..|files|] == files;
    return Some(builder.hasher.value);
  }

  /** The dependencies with the contents that were read. */
  function Read(paths: seq<Bytes>, files: seq<Input>): seq<Dependency>
    requires |paths| == |files|
  {
    if paths == [] then []
    else
      var last := |paths| - 1;
      Read(paths[..last], files[..last]) +
      [Dependency(paths[last], if files[last].Stream? then files[last].bytes else [])]
  }

  lemma NothingReadYet(start: Bytes, paths: seq<Bytes>, files: seq<Input>)
    requires |paths| == |files|
    ensures start == start + DependencyFields(Read(paths[..0], files[..0]))
  {
    hide Name;
  }

  lemma OneMoreRead(start: Bytes, paths: seq<Bytes>, files: seq<Input>, k: nat)
    requires k < |paths| == |files| && files[k].Stream?
    ensures start + DependencyFields(Read(paths[..k], files[..k])) + Field(Name(DependencyPath), paths[k]) +
            Field(Name(DependencyContent), files[k].bytes) ==
            start + DependencyFields(Read(paths[..k + 1], files[..k + 1]))
  {
    hide Name;
    assert paths[..k + 1][..k] == paths[..k] && files[..k + 1][..k] == files[..k];
    LastDependency(Read(paths[..k], files[..k]), Dependency(paths[k], files[k].bytes));
    hide Field;
  }

  lemma {:induction false} LastDependency(deps: seq<Dependency>, last: Dependency)
    ensures DependencyFields(deps + [last]) ==
            DependencyFields(deps) + Field(Name(DependencyPath), last.path) +
            Field(Name(DependencyContent), last.content)
  {
    hide Name, Field;
    if deps == [] {
      assert [] + [last] == [last] && [last][1..] == [];
    } else {
      LastDependency(deps[1..], last);
      assert (deps + [last])[1..] == deps[1..] + [last];
    }
  }
}
