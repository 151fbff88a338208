/** Small vocabulary shared by every module of the model. */
module Prelude {

  datatype Option<+T> = None | Some(value: T)

  datatype Result<+T, +E> = Ok(value: T) | Err(error: E)

  /** No element of `s` occurs twice. */
  ghost predicate NoDup<T(!new)>(s: seq<T>)
  {
    forall i, j :: 0 <= i < j < |s| ==> s[i] != s[j]
  }

  function Elems<T>(s: seq<T>): set<T>
  {
    set x | x in s
  }

  lemma ElemsAppend<T>(s: seq<T>, x: T)
    ensures Elems(s + [x]) == Elems(s) + {x}
  {
  }

  lemma ElemsConcat<T>(s: seq<T>, t: seq<T>)
    ensures Elems(s + t) == Elems(s) + Elems(t)
  {
  }

  lemma NoDupConcat<T(!new)>(s: seq<T>, t: seq<T>)
    requires NoDup(s) && NoDup(t) && Elems(s) !! Elems(t)
    ensures NoDup(s + t)
  {
    forall i, j | 0 <= i < j < |s + t|
      ensures (s + t)[i] != (s + t)[j]
    {
      if i < |s| <= j {
        assert s[i] in Elems(s) && t[j - |s|] in Elems(t);
      }
    }
  }

  lemma NoDupAppend<T(!new)>(s: seq<T>, x: T)
    requires NoDup(s) && x !in s
    ensures NoDup(s + [x])
  {
  }

  lemma Regroup<T>(a: seq<T>, b: seq<T>, c: seq<T>)
    ensures a + (b + c) == (a + b) + c
  {
  }

  /** `s` lists the members of `S`, each exactly once. */
  ghost predicate Lists<T(!new)>(s: seq<T>, S: set<T>)
  {
    NoDup(s) && Elems(s) == S
  }

  lemma ListsAppend<T(!new)>(s: seq<T>, S: set<T>, x: T)
    requires Lists(s, S) && x !in S
    ensures Lists(s + [x], S + {x})
  {
    ElemsAppend(s, x);
    assert x !in s by { assert x !in Elems(s); }
  }

  lemma ListsNothing<T(!new)>()
    ensures Lists<T>([], {})
  {
  }

  /** Every set can be listed. */
  lemma {:induction false} SomeListing<T(!new)>(S: set<T>) returns (order: seq<T>)
    ensures Lists(order, S)
    decreases S
  {
    if S == {} {
      order := [];
    } else {
      var x :| x in S;
      var rest := SomeListing(S - {x});
      ListsAppend(rest, S - {x}, x);
      order := rest + [x];
      assert (S - {x}) + {x} == S;
    }
  }

  lemma ListsIn<T(!new)>(s: seq<T>, S: set<T>, x: T)
    requires Lists(s, S)
    ensures x in s <==> x in S
  {
    assert x in Elems(s) <==> x in s;
  }

  /** A loop over `s` visits a new member of `S` in every turn ... */
  lemma ListsStep<T(!new)>(s: seq<T>, S: set<T>, k: nat, seen: set<T>)
    requires Lists(s, S) && k < |s| && Lists(s[..k], seen)
    ensures s[k] in S && s[k] !in seen && Lists(s[..k + 1], seen + {s[k]})
  {
    assert s[k] in Elems(s);
    assert s[..k + 1] == s[..k] + [s[k]];
    assert s[k] !in Elems(s[..k]);
    ListsAppend(s[..k], seen, s[k]);
  }

  /** ... and all of them in the end. */
  lemma ListsEnds<T(!new)>(s: seq<T>, S: set<T>, seen: set<T>)
    requires Lists(s, S)
    ensures Lists(s[..0], {})
    ensures Lists(s[..|s|], seen) ==> seen == S
  {
    assert s[..|s|] == s;
  }

  /** A sequence without repetitions has as many positions as elements. */
  lemma {:induction false} NoDupSize<T(!new)>(s: seq<T>)
    requires NoDup(s)
    ensures |Elems(s)| == |s|
    decreases |s|
  {
    if s != [] {
      var front := s[..|s| - 1];
      NoDupSize(front);
      assert s == front + [s[|s| - 1]];
      ElemsAppend(front, s[|s| - 1]);
    }
  }

  lemma SubsetSize<T>(a: set<T>, b: set<T>)
    requires a <= b
    ensures |a| <= |b|
    ensures |a| == |b| ==> a == b
  {
    assert b == a + (b - a);
  }

  /** Two sequences without repetitions and with the same elements are permutations of each other. */
  lemma {:induction false} NoDupPermutation<T(!new)>(s: seq<T>, t: seq<T>)
    requires NoDup(s) && NoDup(t) && Elems(s) == Elems(t)
    ensures multiset(s) == multiset(t)
  {
    NoDupCount(s);
    NoDupCount(t);
    forall x
      ensures multiset(s)[x] == multiset(t)[x]
    {
      assert x in Elems(s) <==> x in Elems(t);
    }
  }

  lemma {:induction false} NoDupCount<T(!new)>(s: seq<T>)
    requires NoDup(s)
    ensures forall x :: multiset(s)[x] == if x in s then 1 else 0
    decreases |s|
  {
    if s != [] {
      var front, last := s[..|s| - 1], s[|s| - 1];
      NoDupCount(front);
      assert s == front + [last];
    }
  }

  lemma PermutationElems<T>(s: seq<T>, t: seq<T>)
    requires multiset(s) == multiset(t)
    ensures Elems(s) == Elems(t)
  {
    forall x
      ensures x in s <==> x in t
    {
      assert x in multiset(s) <==> x in s;
      assert x in multiset(t) <==> x in t;
    }
  }

  /** The pigeonhole principle: more positions than values force a repetition. */
  lemma Pigeonhole<T(!new)>(s: seq<T>, values: set<T>)
    requires Elems(s) <= values && |s| > |values|
    ensures exists i, j :: 0 <= i < j < |s| && s[i] == s[j]
  {
    if NoDup(s) {
      NoDupSize(s);
      SubsetSize(Elems(s), values);
    }
  }

  // ------------------------------------------------------------------------------------------
  // Walking a map in some order
  // ------------------------------------------------------------------------------------------

  function Only<K, V>(keys: seq<K>, m: map<K, V>): map<K, V>
    requires Elems(keys) <= m.Keys
  {
    map k | k in Elems(keys) :: m[k]
  }

  lemma OnlyAll<K(!new), V>(keys: seq<K>, m: map<K, V>)
    requires Lists(keys, m.Keys)
    ensures NoDup(keys) && Elems(keys) <= m.Keys && map[] + Only(keys, m) == m
  {
  }

  lemma OnlyNothing<K, V>(m: map<K, V>, loaded: map<K, V>)
    ensures loaded + Only([], m) == loaded
  {
  }

  /** The walk that adds the keys of `keys` to `loaded` one after the other adds them all. */
  lemma FirstAndRest<K(!new), V>(keys: seq<K>, m: map<K, V>, loaded: map<K, V>)
    requires keys != [] && NoDup(keys) && Elems(keys) <= m.Keys && Elems(keys) !! loaded.Keys
    ensures keys[0] in m && keys[0] !in loaded && NoDup(keys[1..])
    ensures Elems(keys[1..]) <= m.Keys && Elems(keys[1..]) !! loaded[keys[0] := m[keys[0]]].Keys
    ensures loaded[keys[0] := m[keys[0]]] + Only(keys[1..], m) == loaded + Only(keys, m)
  {
    var rest := keys[1..];
    assert keys[0] in Elems(keys);
    assert Elems(keys) == {keys[0]} + Elems(rest) by {
      assert keys == [keys[0]] + rest;
      ElemsConcat([keys[0]], rest);
    }
    hide Elems;
    assert keys[0] !in rest;
    OnlyMore(keys, rest, m, loaded, keys[0]);
  }

  lemma OnlyMore<K(!new), V>(keys: seq<K>, rest: seq<K>, m: map<K, V>, loaded: map<K, V>, first: K)
    requires Elems(keys) == {first} + Elems(rest) && Elems(keys) <= m.Keys
    ensures first in m && Elems(rest) <= m.Keys
    ensures loaded[first := m[first]] + Only(rest, m) == loaded + Only(keys, m)
  {
    hide Elems;
    assert first in {first};
  }
}
