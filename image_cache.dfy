/** The cache of generated scene images (src/utils/imageCache.js): each image
    URL is kept in the browser's key/value store under a key made from the
    scene parameters, stamped with the time it was written, and is valid for
    24 hours. The store is the field `storage`; the clock is the parameter
    `now` (milliseconds); a write that fails is the parameter `writeFails`. */
module ImageCache {
  import opened Json
  import opened Text

  const Prefix: string := "atlas_image_"

  /** `CACHE_DURATION`: 24 hours in milliseconds. */
  const Duration: int := 24 * 60 * 60 * 1000

  /** The parameters an image is generated from. */
  datatype ImageParams = ImageParams(location: string, season: string, timeOfDay: string,
                                     carColor: string, carModel: string)

  /** The object `{ url, timestamp, params }` as it is read back. `timestamp`
      is the number `now - cached.timestamp` subtracts, None when it is not a
      number (a missing field, say): the age is then NaN, and `NaN > duration`
      is false, so such an entry never expires. */
  datatype CacheData = CacheData(url: string, timestamp: Option<int>, params: ImageParams)

  /** A stored value: the length of its text, and what `JSON.parse` makes of
      it, None when parsing throws or the text is `null` (reading `timestamp`
      of null throws). An empty text (size 0) does not parse whatever `data`
      says. */
  datatype Entry = Entry(size: nat, data: Option<CacheData>)

  type Storage = map<string, Entry>

  /** `generateCacheKey(params)`: the prefix and the five parameters joined by
      `_`, with every run of white space replaced by `_`. */
  function Key(p: ImageParams): (k: string)
    ensures IsPrefixed(k) && NoSpace(k)
  {
    var body := p.location + "_" + p.season + "_" + p.timeOfDay + "_" + p.carColor + "_" + p.carModel;
    assert Prefix + p.location + "_" + p.season + "_" + p.timeOfDay + "_" + p.carColor + "_" + p.carModel
      == Prefix + body;
    PrefixNoSpace();
    assert NoSpace("_");
    ReplaceSpaceRunsPrefix(Prefix, body, "_");
    ReplaceSpaceRunsNoSpace(Prefix + body, "_");
    assert (Prefix + ReplaceSpaceRuns(body, "_"))[..|Prefix|] == Prefix;
    ReplaceSpaceRuns(Prefix + p.location + "_" + p.season + "_" + p.timeOfDay + "_" + p.carColor + "_" + p.carModel, "_")
  }

  predicate IsPrefixed(k: string) {
    |Prefix| <= |k| && k[..|Prefix|] == Prefix
  }

  /** An entry `clearExpiredCache` drops and `getCacheStats` counts as
      expired: empty or unreadable, or older than the duration. */
  predicate Stale(e: Entry, now: int) {
    e.size == 0 || e.data.None? || Expired(e.data.value, now)
  }

  /** `now - cacheData.timestamp > CACHE_DURATION`. */
  predicate Expired(d: CacheData, now: int) {
    d.timestamp.Some? && now - d.timestamp.value > Duration
  }

  /** `localStorage.setItem(generateCacheKey(params), JSON.stringify(...))`,
      where the text has `size` characters (a JSON object's text is never
      empty). */
  function Put(s: Storage, p: ImageParams, url: string, now: int, size: nat): Storage
    requires size > 0
  {
    s[Key(p) := Entry(size, Some(CacheData(url, Some(now), p)))]
  }

  /** What `getCachedImage` returns for key `k`: null for a missing entry, an
      empty text, an unreadable one or an expired one. */
  function Read(s: Storage, k: string, now: int): Option<string> {
    if k !in s || s[k].size == 0 then None
    else match s[k].data
      case None => None
      case Some(d) => if Expired(d, now) then None else Some(d.url)
  }

  /** The store after `getCachedImage` on key `k`: an expired entry that
      parses is removed; an unreadable one stays. */
  function AfterRead(s: Storage, k: string, now: int): Storage {
    if k in s && s[k].size > 0 && s[k].data.Some? && Expired(s[k].data.value, now) then s - {k}
    else s
  }

  /** The store after `clearExpiredCache`: prefixed stale entries are gone. */
  function Pruned(s: Storage, now: int): Storage {
    map k | k in s && !(IsPrefixed(k) && Stale(s[k], now)) :: s[k]
  }

  /** The store after `clearAllImageCache`: prefixed entries are gone. */
  function WithoutImages(s: Storage): Storage {
    map k | k in s && !IsPrefixed(k) :: s[k]
  }

  /** The keys `getCacheStats` looks at. */
  function ImageKeys(s: Storage): set<string> {
    set k | k in s && IsPrefixed(k)
  }

  function ExpiredKeys(s: Storage, keys: set<string>, now: int): set<string>
    requires keys <= s.Keys
  {
    set k | k in keys && Stale(s[k], now)
  }

  function ValidKeys(s: Storage, keys: set<string>, now: int): set<string>
    requires keys <= s.Keys
  {
    set k | k in keys && !Stale(s[k], now)
  }

  /** The summed text lengths of the entries under `keys`. */
  ghost function TotalSize(s: Storage, keys: set<string>): nat
    requires keys <= s.Keys
    decreases keys
  {
    if keys == {} then 0
    else
      var k :| k in keys;
      s[k].size + TotalSize(s, keys - {k})
  }

  /** `Math.round(n / 1024)` for a length `n`. */
  function Kilobytes(n: nat): nat {
    (n + 512) / 1024
  }

  /** The sum does not depend on which key is taken first. */
  lemma {:induction false} TotalSizeRemove(s: Storage, keys: set<string>, k: string)
    requires keys <= s.Keys && k in keys
    ensures TotalSize(s, keys) == s[k].size + TotalSize(s, keys - {k})
    decreases keys
  {
    var k' :| k' in keys && TotalSize(s, keys) == s[k'].size + TotalSize(s, keys - {k'});
    if k' != k {
      TotalSizeRemove(s, keys - {k'}, k);
      TotalSizeRemove(s, keys - {k}, k');
      assert keys - {k'} - {k} == keys - {k} - {k'};
    }
  }

  /** Counting one more key: its size is added, and it joins either the
      expired or the valid keys. */
  lemma StatsStep(s: Storage, done: set<string>, k: string, now: int)
    requires done <= s.Keys && k in s && k !in done
    ensures TotalSize(s, done + {k}) == s[k].size + TotalSize(s, done)
    ensures Stale(s[k], now) ==> (|ExpiredKeys(s, done + {k}, now)| == |ExpiredKeys(s, done, now)| + 1 &&
      |ValidKeys(s, done + {k}, now)| == |ValidKeys(s, done, now)|)
    ensures !Stale(s[k], now) ==> (|ValidKeys(s, done + {k}, now)| == |ValidKeys(s, done, now)| + 1 &&
      |ExpiredKeys(s, done + {k}, now)| == |ExpiredKeys(s, done, now)|)
  {
    TotalSizeRemove(s, done + {k}, k);
    assert done + {k} - {k} == done;
    if Stale(s[k], now) {
      ExpiredStep(s, done, k, now);
    } else {
      ValidStep(s, done, k, now);
    }
  }

  lemma ExpiredStep(s: Storage, done: set<string>, k: string, now: int)
    requires done <= s.Keys && k in s && k !in done && Stale(s[k], now)
    ensures |ExpiredKeys(s, done + {k}, now)| == |ExpiredKeys(s, done, now)| + 1
    ensures |ValidKeys(s, done + {k}, now)| == |ValidKeys(s, done, now)|
  {
    assert ExpiredKeys(s, done + {k}, now) == ExpiredKeys(s, done, now) + {k};
    assert ValidKeys(s, done + {k}, now) == ValidKeys(s, done, now);
  }

  lemma ValidStep(s: Storage, done: set<string>, k: string, now: int)
    requires done <= s.Keys && k in s && k !in done && !Stale(s[k], now)
    ensures |ValidKeys(s, done + {k}, now)| == |ValidKeys(s, done, now)| + 1
    ensures |ExpiredKeys(s, done + {k}, now)| == |ExpiredKeys(s, done, now)|
  {
    assert ValidKeys(s, done + {k}, now) == ValidKeys(s, done, now) + {k};
    assert ExpiredKeys(s, done + {k}, now) == ExpiredKeys(s, done, now);
  }

  /** A proper subset leaves some key out. */
  lemma MissingKey(all: set<string>, done: set<string>)
    requires done <= all && done != all
    ensures all - done != {}
  {
    var x :| x in all && x !in done;
    assert x in all - done;
  }

  /** Every key is counted as valid or as expired, and not both. */
  lemma CountsPartition(s: Storage, keys: set<string>, now: int)
    requires keys <= s.Keys
    ensures |ValidKeys(s, keys, now)| + |ExpiredKeys(s, keys, now)| == |keys|
  {
    var v, e := ValidKeys(s, keys, now), ExpiredKeys(s, keys, now);
    assert v + e == keys;
    assert v * e == {};
  }

  class ImageCache {
    /** `localStorage`. */
    var storage: Storage

    constructor(initial: Storage)
      ensures storage == initial
    {
      storage := initial;
    }

    /** `cacheImage(params, imageUrl)`: true after a successful write; when
        the write throws, the expired entries are cleared and the result is
        false. */
    method CacheImage(params: ImageParams, url: string, now: int, size: nat, writeFails: bool) returns (ok: bool)
      requires size > 0
      modifies this
      ensures ok == !writeFails
      ensures !writeFails ==> storage == Put(old(storage), params, url, now, size)
      ensures writeFails ==> storage == Pruned(old(storage), now)
    {
      if writeFails {
        ClearExpiredCache(now);
        return false;
      }
      storage := storage[Key(params) := Entry(size, Some(CacheData(url, Some(now), params)))];
      return true;
    }

    /** `getCachedImage(params)`. */
    method GetCachedImage(params: ImageParams, now: int) returns (r: Option<string>)
      modifies this
      ensures r == Read(old(storage), Key(params), now)
      ensures storage == AfterRead(old(storage), Key(params), now)
    {
      var key := Key(params);
      if key !in storage || storage[key].size == 0 {
        return None;
      }
      var cached := storage[key];
      if cached.data.None? {
        return None;
      }
      var data := cached.data.value;
      if data.timestamp.Some? {
        var age := now - data.timestamp.value;
        if age > Duration {
          storage := storage - {key};
          return None;
        }
      }
      return Some(data.url);
    }

    /** `clearExpiredCache()`: one pass over the keys present at the start. */
    method ClearExpiredCache(now: int)
      modifies this
      ensures storage == Pruned(old(storage), now)
    {
      var start := storage;
      var keys := storage.Keys;
      while keys != {}
        invariant keys <= start.Keys
        invariant storage == map k | k in start && !(k !in keys && IsPrefixed(k) && Stale(start[k], now)) :: start[k]
        decreases keys
      {
        var key :| key in keys;
        if IsPrefixed(key) && Stale(storage[key], now) {
          storage := storage - {key};
        }
        keys := keys - {key};
      }
    }

    /** `clearAllImageCache()`: removes every prefixed key and returns true. */
    method ClearAllImageCache() returns (ok: bool)
      modifies this
      ensures ok
      ensures storage == WithoutImages(old(storage))
    {
      var start := storage;
      var keys := storage.Keys;
      while keys != {}
        invariant keys <= start.Keys
        invariant storage == map k | k in start && !(k !in keys && IsPrefixed(k)) :: start[k]
        decreases keys
      {
        var key :| key in keys;
        if IsPrefixed(key) {
          storage := storage - {key};
        }
        keys := keys - {key};
      }
      return true;
    }

    /** `getCacheStats()`: the number of prefixed entries, how many are valid
        and how many expired, and their size in kilobytes, rounded. */
    method GetCacheStats(now: int) returns (total: nat, valid: nat, expired: nat, size: nat)
      ensures total == |ImageKeys(storage)| == valid + expired
      ensures valid == |ValidKeys(storage, ImageKeys(storage), now)|
      ensures expired == |ExpiredKeys(storage, ImageKeys(storage), now)|
      ensures size == Kilobytes(TotalSize(storage, ImageKeys(storage)))
    {
      var s := storage;
      var imageKeys := set k | k in s && IsPrefixed(k);
      total := |imageKeys|;
      valid, expired := 0, 0;
      var sum := 0;
      var done: set<string> := {};
      while done != imageKeys
        invariant done <= imageKeys
        invariant valid == |ValidKeys(s, done, now)|
        invariant expired == |ExpiredKeys(s, done, now)|
        invariant sum == TotalSize(s, done)
        decreases imageKeys - done
      {
        MissingKey(imageKeys, done);
        var key :| key in imageKeys - done;
        StatsStep(s, done, key, now);
        sum := sum + s[key].size;
        if Stale(s[key], now) {
          expired := expired + 1;
        } else {
          valid := valid + 1;
        }
        done := done + {key};
      }
      CountsPartition(s, imageKeys, now);
      size := Kilobytes(sum);
    }
  }

  /** An image written at `now` is read back for 24 hours, the last
      millisecond included, and is dropped on the first read after that. */
  lemma ReadAfterPut(s: Storage, p: ImageParams, url: string, now: int, size: nat, later: int)
    requires size > 0
    ensures later - now <= Duration ==> Read(Put(s, p, url, now, size), Key(p), later) == Some(url)
    ensures later - now <= Duration ==> AfterRead(Put(s, p, url, now, size), Key(p), later) == Put(s, p, url, now, size)
    ensures later - now > Duration ==> Read(Put(s, p, url, now, size), Key(p), later).None?
    ensures later - now > Duration ==> AfterRead(Put(s, p, url, now, size), Key(p), later) == s - {Key(p)}
  {
    var t := Put(s, p, url, now, size);
    if later - now > Duration {
      assert t - {Key(p)} == s - {Key(p)};
    }
  }

  /** Clearing expired entries changes no answer of `getCachedImage` at the
      same time, and leaves every key without the prefix alone. */
  lemma PrunedKeepsReads(s: Storage, k: string, now: int)
    ensures Read(Pruned(s, now), k, now) == Read(s, k, now)
    ensures !IsPrefixed(k) ==> (k in Pruned(s, now) <==> k in s)
    ensures k in Pruned(s, now) ==> Pruned(s, now)[k] == s[k]
  {
  }

  /** After clearing, no image entry is expired, and clearing again changes
      nothing. */
  lemma PrunedHasNoExpired(s: Storage, now: int)
    ensures ExpiredKeys(Pruned(s, now), ImageKeys(Pruned(s, now)), now) == {}
    ensures Pruned(Pruned(s, now), now) == Pruned(s, now)
  {
  }

  /** After `clearAllImageCache` no image is found and no key with the prefix
      is left; every other key keeps its entry. */
  lemma ClearedHasNoImages(s: Storage, p: ImageParams, now: int)
    ensures ImageKeys(WithoutImages(s)) == {}
    ensures Read(WithoutImages(s), Key(p), now).None?
    ensures forall k :: k in s && !IsPrefixed(k) ==> k in WithoutImages(s) && WithoutImages(s)[k] == s[k]
  {
  }

  /** Two different scenes share one cache slot when one has a space where
      the other has `_`: here, inside the season. */
  lemma SpaceInSeasonCollides(p: ImageParams, x: string, y: string)
    requires NoSpace(p.location) && NoSpace(x) && y != [] && !IsSpace(y[0])
    requires p.season == x + " " + y
    ensures Key(p) == Key(p.(season := x + "_" + y))
  {
    var q := p.(season := x + "_" + y);
    var head := Prefix + p.location + "_" + x;
    var tail := y + "_" + p.timeOfDay + "_" + p.carColor + "_" + p.carModel;
    assert Prefix + p.location + "_" + p.season + "_" + p.timeOfDay + "_" + p.carColor + "_" + p.carModel
      == head + " " + tail;
    assert Prefix + q.location + "_" + q.season + "_" + q.timeOfDay + "_" + q.carColor + "_" + q.carModel
      == head + "_" + tail;
    PrefixNoSpace();
    NoSpaceConcat(Prefix, p.location);
    NoSpaceConcat(Prefix + p.location, "_");
    NoSpaceConcat(Prefix + p.location + "_", x);
    SpaceReadsAsSeparator(head, tail);
  }

  /** For instance, `late summer` and `late_summer` share a key. */
  lemma KeysCollide(a: ImageParams, b: ImageParams)
    requires a == ImageParams("Paris", "late summer", "day", "red", "m4") && b == a.(season := "late_summer")
    ensures a != b && Key(a) == Key(b)
  {
    assert a.season[4] != b.season[4];
    assert a.season == "late" + " " + "summer";
    assert b.season == "late" + "_" + "summer";
    assert NoSpace("Paris") && NoSpace("late") && !IsSpace("summer"[0]);
    SpaceInSeasonCollides(a, "late", "summer");
  }

  lemma PrefixNoSpace()
    ensures NoSpace(Prefix)
  {
  }

  lemma NoSpaceConcat(x: string, y: string)
    requires NoSpace(x) && NoSpace(y)
    ensures NoSpace(x + y)
  {
    forall i | 0 <= i < |x + y| ensures !IsSpace((x + y)[i]) {
      if i >= |x| {
        assert (x + y)[i] == y[i - |x|];
      }
    }
  }

  /** One space between two texts free of leading white space reads as `_`. */
  lemma SpaceReadsAsSeparator(head: string, tail: string)
    requires NoSpace(head) && tail != [] && !IsSpace(tail[0])
    ensures ReplaceSpaceRuns(head + " " + tail, "_") == ReplaceSpaceRuns(head + "_" + tail, "_")
  {
    var a, b := " " + tail, "_" + tail;
    assert head + " " + tail == head + a;
    assert head + "_" + tail == head + b;
    ReplaceSpaceRunsPrefix(head, a, "_");
    ReplaceSpaceRunsPrefix(head, b, "_");
    LeadingSpace(tail);
    LeadingSeparator(tail);
  }

  lemma LeadingSpace(tail: string)
    requires tail != [] && !IsSpace(tail[0])
    ensures ReplaceSpaceRuns(" " + tail, "_") == "_" + ReplaceSpaceRuns(tail, "_")
  {
    var t := " " + tail;
    assert t[0] == ' ' && IsSpace(t[0]);
    assert t[1..] == tail;
    assert DropSpaces(t) == DropSpaces(tail) == tail;
  }

  lemma LeadingSeparator(tail: string)
    ensures ReplaceSpaceRuns("_" + tail, "_") == "_" + ReplaceSpaceRuns(tail, "_")
  {
    var t := "_" + tail;
    assert t[0] == '_' && !IsSpace(t[0]);
    assert t[1..] == tail;
  }
}
