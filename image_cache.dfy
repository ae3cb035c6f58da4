/** The in-memory image-configuration cache of both webhook variants
    (InMemoryImageCache): a map from the image reference string to the
    configuration fetched for it. The two variants store different Go types
    (an image config of go-containerregistry and one of the OCI image
    specification) and are otherwise the same code, so one class generic in
    the value type models both. Values are copied in and out, which Dafny's
    datatype values give for free. */
module ImageCache {
  import opened Wrappers

  class InMemoryImageCache<V> {
    var cache: map<string, V>

    /** NewInMemoryImageCache: an empty map. */
    constructor ()
      ensures cache == map[]
    {
      cache := map[];
    }

    /** A hit returns the stored entry, a miss returns nothing; the map is
        left unchanged either way. */
    method Get(image: string) returns (r: Option<V>)
      ensures r.Some? <==> image in cache
      ensures r.Some? ==> r.value == cache[image]
    {
      if image in cache {
        r := Some(cache[image]);
      } else {
        r := None;
      }
    }

    /** Store under `image`, replacing an earlier entry for the same key and
        no other. */
    method Put(image: string, config: V)
      modifies this
      ensures cache == old(cache)[image := config]
      ensures image in cache && cache[image] == config
      ensures forall k :: k in old(cache) && k != image ==> k in cache && cache[k] == old(cache)[k]
      ensures cache.Keys == old(cache.Keys) + {image}
    {
      cache := cache[image := config];
    }
  }

  /** A freshly created cache misses on every key. */
  method FreshCacheMisses<V(==)>(image: string) returns (r: Option<V>)
    ensures r == None
  {
    var c := new InMemoryImageCache<V>();
    r := c.Get(image);
  }

  /** Get after Put returns what was put, whatever the cache held before.
      The loop only fills the cache with arbitrary earlier entries, some
      perhaps under the same key; nothing about them is needed. */
  method GetAfterPut<V>(entries: seq<(string, V)>, image: string, config: V) returns (r: Option<V>)
    ensures r == Some(config)
  {
    var c := new InMemoryImageCache<V>();
    var i := 0;
    while i < |entries|
      invariant 0 <= i <= |entries|
    {
      c.Put(entries[i].0, entries[i].1);
      i := i + 1;
    }
    c.Put(image, config);
    r := c.Get(image);
  }

  /** The last writer wins: a second Put under the same key replaces the
      first. */
  method LastPutWins<V>(image: string, first: V, second: V) returns (r: Option<V>)
    ensures r == Some(second)
  {
    var c := new InMemoryImageCache<V>();
    c.Put(image, first);
    c.Put(image, second);
    r := c.Get(image);
  }

  /** A Put under one key leaves what another key returns as it was. */
  method PutKeepsOtherKeys<V>(image: string, config: V, other: string, otherConfig: V) returns (before: Option<V>, after: Option<V>)
    requires other != image
    ensures before == Some(otherConfig) && after == before
  {
    var c := new InMemoryImageCache<V>();
    c.Put(other, otherConfig);
    before := c.Get(other);
    c.Put(image, config);
    after := c.Get(other);
  }

  /** Get never changes what the cache holds: two Gets agree. */
  method GetTwice<V>(entries: seq<(string, V)>, image: string) returns (first: Option<V>, second: Option<V>)
    ensures first == second
    ensures first.Some? <==> exists i :: 0 <= i < |entries| && entries[i].0 == image
  {
    var c := new InMemoryImageCache<V>();
    var i := 0;
    while i < |entries|
      invariant 0 <= i <= |entries|
      invariant c.cache.Keys == set j | 0 <= j < i :: entries[j].0
    {
      c.Put(entries[i].0, entries[i].1);
      i := i + 1;
    }
    first := c.Get(image);
    second := c.Get(image);
  }
}
