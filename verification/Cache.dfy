/**
 The files of the local cache as a value: content-addressed objects, each with a metadata file that is committed
 after it. `stored` is history: everything that was ever given to `LocalCache::store`.
 */
module Cache {
  import opened Prelude

  /** A metadata file: size and hash of the object, or something that does not read as two numbers. */
  datatype Metadata = Numbers(size: nat, hash: nat) | Garbage

  datatype Cache = Cache(objects: map<nat, string>, metas: map<nat, Metadata>, stored: set<(nat, string)>)

  const NO_CACHE := Cache(map[], map[], {})

  /** How the file system lets a store end. A process that dies cleans nothing up. */
  datatype StoreFate = Smooth | StopsBeforeObject | ObjectRenameFails | MetadataRenameFails | DiesBetweenRenames

  /** How it lets the copy of a restore end. */
  datatype CopyFate = Copied | NotCopied

  function Describe(h: string -> nat, c: string): Metadata
  {
    Numbers(|c|, h(c))
  }

  /** Object and metadata belong together. */
  ghost predicate Verified(h: string -> nat, cache: Cache, key: nat)
  {
    key in cache.objects && key in cache.metas && cache.metas[key] == Describe(h, cache.objects[key])
  }

  /** What can be verified was stored under its key. */
  ghost predicate Authentic(h: string -> nat, cache: Cache)
  {
    forall key :: Verified(h, cache, key) ==> (key, cache.objects[key]) in cache.stored
  }

  /** Files of the cache get lost or damaged in ways that size and hash reveal. */
  ghost predicate Decayed(h: string -> nat, cache: Cache, cache': Cache)
  {
    && cache'.stored == cache.stored
    && forall key :: Verified(h, cache', key) ==> (key, cache'.objects[key]) in cache.stored
  }

  function Without(cache: Cache, key: nat): Cache
  {
    Cache(cache.objects - {key}, cache.metas - {key}, cache.stored)
  }

  /** A lookup may throw away one entry that cannot be verified. */
  ghost predicate Pruned(h: string -> nat, cache: Cache, cache': Cache)
  {
    cache' == cache || exists key :: !Verified(h, cache, key) && cache' == Without(cache, key)
  }

  /** The object is renamed into place first, its metadata last; a failure in between takes the object back. */
  function AfterStore(h: string -> nat, cache: Cache, key: nat, c: string, fate: StoreFate): Cache
  {
    Cache(match fate
          case StopsBeforeObject => cache.objects
          case ObjectRenameFails => cache.objects
          case MetadataRenameFails => cache.objects - {key}
          case _ => cache.objects[key := c],
          if fate.Smooth? then cache.metas[key := Describe(h, c)] else cache.metas,
          cache.stored + {(key, c)})
  }

  /** Wherever a store ends, even with an object in place that is not the one its metadata was made for. */
  lemma StoreKeepsAuthentic(h: string -> nat, cache: Cache, key: nat, c: string, fate: StoreFate)
    requires Authentic(h, cache)
    ensures Authentic(h, AfterStore(h, cache, key, c, fate))
  {
    var after := AfterStore(h, cache, key, c, fate);
    forall k | Verified(h, after, k)
      ensures (k, after.objects[k]) in after.stored
    {
      if k != key || fate.StopsBeforeObject? || fate.ObjectRenameFails? {
        assert Verified(h, cache, k);
      }
    }
  }

  lemma DecayKeepsAuthentic(h: string -> nat, cache: Cache, cache': Cache)
    requires Decayed(h, cache, cache')
    ensures Authentic(h, cache')
  {
  }

  lemma PruningIsDecay(h: string -> nat, cache: Cache, cache': Cache)
    requires Authentic(h, cache) && Pruned(h, cache, cache')
    ensures Decayed(h, cache, cache')
  {
    forall key | Verified(h, cache', key)
      ensures (key, cache'.objects[key]) in cache.stored
    {
      assert Verified(h, cache, key);
    }
  }

  // ------------------------------------------------------------------------------------------
  // What size and hash reveal
  // ------------------------------------------------------------------------------------------

  /** Every readable metadata file describes something that was stored under its key. */
  ghost predicate Described(h: string -> nat, cache: Cache)
  {
    forall key :: key in cache.metas && cache.metas[key].Numbers? ==>
      exists c :: (key, c) in cache.stored && cache.metas[key] == Describe(h, c)
  }

  /** Any damage to objects; metadata gets lost, or damaged so that it does not read as numbers any more. */
  ghost predicate Damaged(cache: Cache, cache': Cache)
  {
    && cache'.stored == cache.stored
    && forall key :: key in cache'.metas && cache'.metas[key].Numbers? ==>
         key in cache.metas && cache.metas[key] == cache'.metas[key]
  }

  /** `c` has the size and the hash of something else that was stored under the key. */
  ghost predicate Disguised(h: string -> nat, cache: Cache, key: nat, c: string)
  {
    exists b :: (key, b) in cache.stored && Describe(h, b) == Describe(h, c) && b != c
  }

  lemma StoreKeepsDescribed(h: string -> nat, cache: Cache, key: nat, c: string, fate: StoreFate)
    requires Described(h, cache)
    ensures Described(h, AfterStore(h, cache, key, c, fate))
  {
    assert (key, c) in cache.stored + {(key, c)};
  }

  /** All such damage is revealed, but where a damaged object is one of these. */
  lemma DamageIsDecay(h: string -> nat, cache: Cache, cache': Cache)
    requires Described(h, cache) && Damaged(cache, cache')
    requires forall key :: Verified(h, cache', key) ==> !Disguised(h, cache, key, cache'.objects[key])
    ensures Decayed(h, cache, cache') && Described(h, cache')
  {
    forall key | Verified(h, cache', key)
      ensures (key, cache'.objects[key]) in cache.stored
    {
      var b :| (key, b) in cache.stored && cache.metas[key] == Describe(h, b);
      assert b == cache'.objects[key];
    }
  }
}
