/**
 `LocalCache`: stores, restores and lookups on the files of the cache. A store may fail or die between any two of its
 steps and files may decay; what a restore hands out was once stored under that key.
 */
module LocalCache {
  import opened Prelude
  import opened Cache

  predicate SameThere(before: map<nat, string>, after: map<nat, string>, key: nat)
  {
    (key in before <==> key in after) && (key in before ==> after[key] == before[key])
  }

  class LocalCache {
    const h: string -> nat
    var objects: map<nat, string>
    var metas: map<nat, Metadata>
    /** Everything that was ever given to `Store`. */
    ghost var stored: set<(nat, string)>

    ghost function Value(): Cache
      reads this
    {
      Cache(objects, metas, stored)
    }

    ghost predicate Valid()
      reads this
    {
      Authentic(h, Value())
    }

    constructor (h: string -> nat)
      ensures Valid() && this.h == h && Value() == NO_CACHE
    {
      this.h := h;
      objects, metas, stored := map[], map[], {};
    }

    method Contains(key: nat) returns (b: bool)
      ensures b <==> key in objects && key in metas
    {
      if key !in objects {
        return false;
      }
      b := key in metas;
    }

    method Store(key: nat, output: Option<string>, fate: StoreFate) returns (ok: bool)
      requires Valid()
      modifies this
      ensures Valid() && (ok <==> output.Some? && fate.Smooth?)
      ensures Value() == if output.None? then old(Value()) else AfterStore(h, old(Value()), key, output.value, fate)
      ensures ok ==> Verified(h, Value(), key) && key in objects && objects[key] == output.value
      ensures ok ==> key in metas && metas[key] == Numbers(|output.value|, h(output.value))
      ensures !ok ==> metas == old(metas) && (fate.MetadataRenameFails? && output.Some? ==> key !in objects)
      ensures forall other :: other != key ==> SameThere(old(objects), objects, other)
    {
      if output.None? {
        return false;
      }
      var size, hash := |output.value|, h(output.value);
      StoreKeepsAuthentic(h, Value(), key, output.value, fate);
      hide Authentic;
      stored := stored + {(key, output.value)};
      if fate.StopsBeforeObject? || fate.ObjectRenameFails? {
        return false;
      }
      objects := objects[key := output.value];
      if fate.DiesBetweenRenames? {
        return false;
      }
      if fate.MetadataRenameFails? {
        objects := objects - {key};
        assert objects == old(objects) - {key};
        return false;
      }
      metas := metas[key := Numbers(size, hash)];
      return true;
    }

    /** Nothing leaves the cache unverified; what cannot be verified is thrown away. */
    method Restore(key: nat, fate: CopyFate) returns (r: Option<string>)
      requires Valid()
      modifies this
      ensures Valid()
      ensures r.Some? <==> old(Verified(h, Value(), key)) && fate.Copied?
      ensures r.Some? <==>
        && fate.Copied? && key in old(objects) && key in old(metas)
        && old(metas)[key] == Numbers(|old(objects)[key]|, h(old(objects)[key]))
      ensures r.Some? ==> (key, r.value) in stored && r.value == old(objects)[key]
      ensures Value() == if old(Verified(h, Value(), key)) then old(Value()) else Without(old(Value()), key)
      ensures !old(Verified(h, Value(), key)) ==> key !in objects && key !in metas
      ensures forall other :: other != key ==> SameThere(old(objects), objects, other)
    {
      if key !in metas || metas[key].Garbage? {
        Discard(key);
        return None;
      }
      var expectedSize, expectedHash := metas[key].size, metas[key].hash;
      if key !in objects || |objects[key]| != expectedSize {
        Discard(key);
        return None;
      }
      if h(objects[key]) != expectedHash {
        Discard(key);
        return None;
      }
      assert Verified(h, Value(), key);
      if fate.NotCopied? {
        return None;
      }
      return Some(objects[key]);
    }

    method Discard(key: nat)
      requires Valid()
      modifies this
      ensures Valid() && Value() == Without(old(Value()), key)
    {
      objects := objects - {key};
      metas := metas - {key};
      WithoutIsAuthentic(h, old(Value()), key);
    }
  }

  lemma WithoutIsAuthentic(h: string -> nat, cache: Cache, key: nat)
    requires Authentic(h, cache)
    ensures Authentic(h, Without(cache, key))
  {
    forall k | Verified(h, Without(cache, key), k)
      ensures (k, cache.objects[k]) in cache.stored
    {
      assert Verified(h, cache, k);
    }
  }
}
