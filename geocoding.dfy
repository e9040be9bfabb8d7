/**
 * The browser client's reverse-geocoding layer (js/geocoding.js): an
 * insertion-ordered address cache keyed by 4-decimal coordinates, a bounded
 * de-duplicated FIFO queue of lookups, the last address shown per member, and
 * the rule that turns a Photon feature's properties into a display string.
 */
module Geocoding {
  import opened Wrappers
  import opened Text
  import opened Records

  /** Sentinel cached when the geocoder found nothing at a coordinate. */
  const UNKNOWN_LOCATION: string := "Unknown Location"
  const MAX_GEOCODE_QUEUE_SIZE: nat := 50
  /** The cache is trimmed once it holds more than this many keys. */
  const MAX_CACHE_SIZE: nat := 200

  // ------------------------------------------------------------------
  // Coordinate keys
  // ------------------------------------------------------------------

  function Abs(x: real): real {
    if x < 0.0 then -x else x
  }

  /**
   * What `x.toFixed(4)` prints: a minus sign when x is negative, then |x| in
   * units of 1e-4, rounded to the nearest unit with ties going up.
   */
  datatype Fixed4 = Fixed4(negative: bool, units: nat)

  function ToFixed4(x: real): (f: Fixed4)
    ensures f.negative <==> x < 0.0
    ensures f.units as real - 0.5 <= Abs(x) * 10000.0 < f.units as real + 0.5
  {
    Fixed4(x < 0.0, (Abs(x) * 10000.0 + 0.5).Floor)
  }

  /** The number a printed Fixed4 denotes. */
  function Fixed4Value(f: Fixed4): real {
    if f.negative then -(f.units as real) / 10000.0 else f.units as real / 10000.0
  }

  /** Printing a 4-decimal value again gives the same text, except for the "-0.0000" case. */
  lemma Fixed4Canonical(f: Fixed4)
    requires !(f.negative && f.units == 0)
    ensures ToFixed4(Fixed4Value(f)) == f
  {
    var x := Fixed4Value(f);
    assert Abs(x) * 10000.0 == f.units as real;
  }

  /** A tiny negative coordinate prints as "-0.0000", a different key from "0.0000". */
  lemma NegativeZeroKey()
    ensures ToFixed4(-0.00001) == Fixed4(true, 0)
    ensures ToFixed4(0.0) == Fixed4(false, 0)
  {
  }

  /** `${lat.toFixed(4)},${lon.toFixed(4)}`; the text is determined by the two printed values. */
  datatype CoordKey = CoordKey(lat: Fixed4, lon: Fixed4)

  function KeyOf(lat: real, lon: real): CoordKey {
    CoordKey(ToFixed4(lat), ToFixed4(lon))
  }

  /** The key depends on the coordinates only through their 4-decimal values. */
  lemma KeyOfRounded(lat: real, lon: real)
    requires !(lat < 0.0 && ToFixed4(lat).units == 0)
    requires !(lon < 0.0 && ToFixed4(lon).units == 0)
    ensures KeyOf(Fixed4Value(ToFixed4(lat)), Fixed4Value(ToFixed4(lon))) == KeyOf(lat, lon)
  {
    Fixed4Canonical(ToFixed4(lat));
    Fixed4Canonical(ToFixed4(lon));
  }

  // ------------------------------------------------------------------
  // Address formatting
  // ------------------------------------------------------------------

  /** The fields of a Photon feature's `properties` that the formatter reads ("" when absent). */
  datatype Properties = Properties(
    name: string, street: string, housenumber: string,
    city: string, town: string, village: string, country: string)

  /** `p.city || p.town || p.village` */
  function Locality(p: Properties): (s: string)
    ensures s == [] <==> p.city == [] && p.town == [] && p.village == []
  {
    if p.city != [] then p.city else if p.town != [] then p.town else p.village
  }

  /** The street part: street plus " housenumber", or the house number alone. */
  function StreetPart(p: Properties): (s: string)
    ensures s == [] <==> p.street == [] && p.housenumber == []
  {
    if p.street != [] then (if p.housenumber != [] then p.street + " " + p.housenumber else p.street)
    else p.housenumber
  }

  /** The parts list built by the formatter, following its branches. */
  function AddressParts(p: Properties): (parts: seq<string>)
  {
    var parts := (if p.name != [] then [p.name] else [])
      + (if p.street != [] then [if p.housenumber != [] then p.street + " " + p.housenumber else p.street]
         else if p.housenumber != [] then [p.housenumber] else []);
    if parts == [] then
      if Locality(p) != [] then [Locality(p)] else if p.country != [] then [p.country] else []
    else
      parts + (if Locality(p) != [] then [Locality(p)] else [])
  }

  /** The non-empty strings of a list, in order. */
  function NonEmpty(xs: seq<string>): (r: seq<string>)
    ensures forall i :: 0 <= i < |r| ==> r[i] != []
    ensures |r| <= |xs|
  {
    if xs == [] then [] else (if xs[0] != [] then [xs[0]] else []) + NonEmpty(xs[1..])
  }

  /**
   * The parts are the non-empty ones of name, street part and locality, in
   * that order; the country stands in only when all three are empty.
   */
  lemma AddressPartsShape(p: Properties)
    ensures AddressParts(p) ==
      var main := NonEmpty([p.name, StreetPart(p), Locality(p)]);
      if main != [] then main else NonEmpty([p.country])
  {
    var a, b, c := p.name, StreetPart(p), Locality(p);
    assert [a, b, c][1..] == [b, c] && [b, c][1..] == [c] && [c][1..] == [];
    assert NonEmpty([c]) == if c != [] then [c] else [];
    assert NonEmpty([b, c]) == (if b != [] then [b] else []) + NonEmpty([c]);
    assert NonEmpty([a, b, c]) == (if a != [] then [a] else []) + NonEmpty([b, c]);
    assert [p.country][1..] == [];
  }

  /** Every part is non-empty and there are at most three. */
  lemma AddressPartsNonEmpty(p: Properties)
    ensures |AddressParts(p)| <= 3
    ensures forall i :: 0 <= i < |AddressParts(p)| ==> AddressParts(p)[i] != []
  {
    AddressPartsShape(p);
  }

  /** `parts.join(', ')` */
  function FormatAddress(p: Properties): string {
    Join(AddressParts(p), ", ")
  }

  /** The formatted address is empty exactly when every field the formatter reads is empty. */
  lemma FormatAddressEmpty(p: Properties)
    ensures FormatAddress(p) == [] <==>
      p.name == [] && p.street == [] && p.housenumber == [] &&
      p.city == [] && p.town == [] && p.village == [] && p.country == []
  {
    AddressPartsNonEmpty(p);
    if AddressParts(p) != [] {
      JoinNonEmpty(AddressParts(p), ", ");
    }
  }

  // ------------------------------------------------------------------
  // The insertion-ordered cache (a JavaScript Map)
  // ------------------------------------------------------------------

  /** A cache value: `null` marks a pending lookup, otherwise an address or the sentinel. */
  datatype CacheValue = Pending | Cached(address: string)

  predicate Distinct(s: seq<CoordKey>) {
    forall i, j :: 0 <= i < j < |s| ==> s[i] != s[j]
  }

  /** The sequence without the occurrences of k, order kept. */
  function Without(s: seq<CoordKey>, k: CoordKey): (r: seq<CoordKey>)
    ensures forall x :: x in r <==> x in s && x != k
    ensures |r| <= |s|
  {
    if s == [] then [] else (if s[0] == k then [] else [s[0]]) + Without(s[1..], k)
  }

  lemma {:induction false} WithoutDistinct(s: seq<CoordKey>, k: CoordKey)
    requires Distinct(s)
    ensures Distinct(Without(s, k))
    ensures k in s ==> |Without(s, k)| == |s| - 1
    ensures k !in s ==> Without(s, k) == s
  {
    if s != [] {
      assert Distinct(s[1..]) by {
        forall i, j | 0 <= i < j < |s[1..]| ensures s[1..][i] != s[1..][j] {
          assert s[1..][i] == s[i + 1] && s[1..][j] == s[j + 1];
        }
      }
      WithoutDistinct(s[1..], k);
      assert s[0] !in s[1..] by {
        forall i | 0 <= i < |s[1..]| ensures s[1..][i] != s[0] {
          assert s[1..][i] == s[i + 1];
        }
      }
    }
  }

  /** The Map's entries and its keys in insertion order (what `keys()` iterates). */
  datatype AddressCache = AddressCache(entries: map<CoordKey, CacheValue>, order: seq<CoordKey>) {
    ghost predicate Valid() {
      Distinct(order) && forall k :: k in entries <==> k in order
    }

    /** `map.size` */
    function Size(): nat {
      |order|
    }

    /** `map.set(k, v)`: an existing key keeps its place, a new one goes last. */
    function Set(k: CoordKey, v: CacheValue): (r: AddressCache)
      requires Valid()
      ensures r.Valid()
      ensures r.entries == entries[k := v]
      ensures k in entries ==> r.order == order
      ensures k !in entries ==> r.order == order + [k]
    {
      var r := AddressCache(entries[k := v], if k in entries then order else order + [k]);
      assert k !in entries ==> Distinct(r.order) by {
        if k !in entries {
          forall i, j | 0 <= i < j < |r.order| ensures r.order[i] != r.order[j] {
            if j < |order| { assert r.order[i] == order[i] && r.order[j] == order[j]; }
            else { assert r.order[i] == order[i] && order[i] in order; }
          }
        }
      }
      r
    }

    /** `map.delete(k)`: the other keys keep their order. */
    function Delete(k: CoordKey): (r: AddressCache)
      requires Valid()
      ensures r.Valid()
      ensures r.entries == entries - {k}
      ensures r.order == Without(order, k)
      ensures r.Size() == if k in entries then Size() - 1 else Size()
    {
      WithoutDistinct(order, k);
      AddressCache(entries - {k}, Without(order, k))
    }
  }

  /** Distinct keys are as many as their set. */
  lemma {:induction false} DistinctCount(s: seq<CoordKey>)
    requires Distinct(s)
    ensures |set x | x in s| == |s|
  {
    if s != [] {
      assert Distinct(s[1..]) by {
        forall i, j | 0 <= i < j < |s[1..]| ensures s[1..][i] != s[1..][j] {
          assert s[1..][i] == s[i + 1] && s[1..][j] == s[j + 1];
        }
      }
      DistinctCount(s[1..]);
      assert s[0] !in s[1..] by {
        forall i | 0 <= i < |s[1..]| ensures s[1..][i] != s[0] {
          assert s[1..][i] == s[i + 1];
        }
      }
      assert (set x | x in s) == (set x | x in s[1..]) + {s[0]};
    }
  }

  /** `map.size` counts the entries: the order list is exactly the key set. */
  lemma SizeIsEntryCount(c: AddressCache)
    requires c.Valid()
    ensures |c.entries| == c.Size()
  {
    DistinctCount(c.order);
    assert c.entries.Keys == set x | x in c.order;
  }

  /**
   * The size bound after a lookup: past 200 keys the first-inserted key is
   * deleted (`keys().next()`), one key only.
   */
  function Trimmed(c: AddressCache): (r: AddressCache)
    requires c.Valid()
    ensures r.Valid()
  {
    if c.Size() > MAX_CACHE_SIZE then c.Delete(c.order[0]) else c
  }

  /** Trimming removes exactly the oldest key and keeps the rest of the order. */
  lemma TrimRemovesOldest(c: AddressCache)
    requires c.Valid() && c.Size() > MAX_CACHE_SIZE
    ensures Trimmed(c).order == c.order[1..]
    ensures Trimmed(c).entries == c.entries - {c.order[0]}
    ensures Trimmed(c).Size() == c.Size() - 1
  {
    var k := c.order[0];
    assert c.order == [k] + c.order[1..];
    assert k !in c.order[1..] by {
      forall i | 0 <= i < |c.order[1..]| ensures c.order[1..][i] != k {
        assert c.order[1..][i] == c.order[i + 1];
      }
    }
    assert Distinct(c.order[1..]) by {
      forall i, j | 0 <= i < j < |c.order[1..]| ensures c.order[1..][i] != c.order[1..][j] {
        assert c.order[1..][i] == c.order[i + 1] && c.order[1..][j] == c.order[j + 1];
      }
    }
    WithoutDistinct(c.order[1..], k);
  }

  /** Trimming leaves a cache of at most 200 keys unchanged. */
  lemma TrimSmall(c: AddressCache)
    requires c.Valid() && c.Size() <= MAX_CACHE_SIZE
    ensures Trimmed(c) == c
  {
  }

  // ------------------------------------------------------------------
  // One lookup's effect on the cache
  // ------------------------------------------------------------------

  /** How a reverse-geocoding request ended. */
  datatype Lookup =
    | NotOk               // the response status was not ok
    | Failed              // fetch, `json()` or reading the properties threw
    | NoFeatures          // ok, but `features` was missing or empty
    | Feature(p: Properties)  // the properties of the first feature

  /** The cache value a lookup leaves at its key, or None when the key is deleted for a retry. */
  function Stored(outcome: Lookup): (v: Option<CacheValue>)
    ensures outcome.Feature? ==> v == Some(Cached(FormatAddress(outcome.p)))
    ensures outcome.NoFeatures? ==> v == Some(Cached(UNKNOWN_LOCATION))
    ensures v.None? <==> outcome.NotOk? || outcome.Failed?
  {
    match outcome
    case Feature(p) => Some(Cached(FormatAddress(p)))
    case NoFeatures => Some(Cached(UNKNOWN_LOCATION))
    case _ => None
  }

  /** The cache after `performGeocodeFetch` for key k: store or delete, then trim. */
  function AfterFetch(c: AddressCache, k: CoordKey, outcome: Lookup): (r: AddressCache)
    requires c.Valid()
    ensures r.Valid()
  {
    Trimmed(match Stored(outcome) case Some(v) => c.Set(k, v) case None => c.Delete(k))
  }

  /** A lookup grows the cache by at most one key, and never past 200 unless it already was. */
  lemma AfterFetchSize(c: AddressCache, k: CoordKey, outcome: Lookup)
    requires c.Valid()
    ensures AfterFetch(c, k, outcome).Size() <= if c.Size() > MAX_CACHE_SIZE then c.Size() else MAX_CACHE_SIZE
    ensures AfterFetch(c, k, outcome).Size() <= c.Size() + 1
  {
    var s := match Stored(outcome) case Some(v) => c.Set(k, v) case None => c.Delete(k);
    assert s.Size() <= c.Size() + 1;
    if s.Size() > MAX_CACHE_SIZE { TrimRemovesOldest(s); }
  }

  /** While no trimming happens, a lookup's key holds its result afterwards (or is gone for a retry). */
  lemma AfterFetchResult(c: AddressCache, k: CoordKey, outcome: Lookup)
    requires c.Valid() && c.Size() < MAX_CACHE_SIZE
    ensures Stored(outcome).Some? ==>
      k in AfterFetch(c, k, outcome).entries && AfterFetch(c, k, outcome).entries[k] == Stored(outcome).value
    ensures Stored(outcome).None? ==> k !in AfterFetch(c, k, outcome).entries
  {
    var s := match Stored(outcome) case Some(v) => c.Set(k, v) case None => c.Delete(k);
    assert s.Size() <= MAX_CACHE_SIZE;
  }

  // ------------------------------------------------------------------
  // The request queue
  // ------------------------------------------------------------------

  /** A queued request; the coordinates went through `parseFloat`. */
  datatype Task = Task(lat: real, lon: real)

  function TaskKey(t: Task): CoordKey {
    KeyOf(t.lat, t.lon)
  }

  /** `geocodeQueue.some(task => getCoordinateKey(task.lat, task.lon) === key)` */
  function Queued(q: seq<Task>, key: CoordKey): (b: bool)
    ensures b <==> exists i :: 0 <= i < |q| && TaskKey(q[i]) == key
  {
    if q == [] then false
    else if TaskKey(q[0]) == key then true
    else
      assert forall i :: 0 < i < |q| ==> q[i] == q[1..][i - 1];
      Queued(q[1..], key)
  }

  /** No two queued requests share a key. */
  predicate DistinctTasks(q: seq<Task>) {
    forall i, j :: 0 <= i < j < |q| ==> TaskKey(q[i]) != TaskKey(q[j])
  }

  /**
   * `enqueueGeocodeRequest`: the cache and queue after asking for a lookup of t.
   * A key that is cached (in any state, pending included) or already queued
   * changes nothing; otherwise a full queue loses its oldest request, the key
   * is marked pending and t goes last.
   */
  function Enqueued(c: AddressCache, q: seq<Task>, t: Task): (r: (AddressCache, seq<Task>))
    requires c.Valid()
  {
    var key := TaskKey(t);
    if key in c.entries || Queued(q, key) then (c, q)
    else (c.Set(key, Pending), (if |q| >= MAX_GEOCODE_QUEUE_SIZE then q[1..] else q) + [t])
  }

  /** An already cached or already queued key leaves cache and queue as they were. */
  lemma EnqueueKnown(c: AddressCache, q: seq<Task>, t: Task)
    requires c.Valid()
    requires TaskKey(t) in c.entries || exists i :: 0 <= i < |q| && TaskKey(q[i]) == TaskKey(t)
    ensures Enqueued(c, q, t) == (c, q)
  {
  }

  /**
   * A new key is marked pending, every other cache entry stays (including the
   * pending marker of a dropped request), and t becomes the last request.
   */
  lemma EnqueueNew(c: AddressCache, q: seq<Task>, t: Task)
    requires c.Valid() && |q| <= MAX_GEOCODE_QUEUE_SIZE
    requires TaskKey(t) !in c.entries && forall i :: 0 <= i < |q| ==> TaskKey(q[i]) != TaskKey(t)
    ensures var (c', q') := Enqueued(c, q, t);
      c'.entries == c.entries[TaskKey(t) := Pending] && c'.order == c.order + [TaskKey(t)] &&
      |q'| <= MAX_GEOCODE_QUEUE_SIZE && q'[|q'| - 1] == t &&
      q'[..|q'| - 1] == if |q| == MAX_GEOCODE_QUEUE_SIZE then q[1..] else q
  {
    var (c', q') := Enqueued(c, q, t);
    assert q'[..|q'| - 1] == if |q| == MAX_GEOCODE_QUEUE_SIZE then q[1..] else q;
  }

  /** Enqueueing keeps the queue within 50 requests and free of duplicate keys. */
  lemma EnqueueKeepsQueueValid(c: AddressCache, q: seq<Task>, t: Task)
    requires c.Valid() && |q| <= MAX_GEOCODE_QUEUE_SIZE && DistinctTasks(q)
    ensures |Enqueued(c, q, t).1| <= MAX_GEOCODE_QUEUE_SIZE
    ensures DistinctTasks(Enqueued(c, q, t).1)
    ensures Enqueued(c, q, t).0.Valid()
  {
    var key := TaskKey(t);
    if !(key in c.entries || Queued(q, key)) {
      var kept := if |q| >= MAX_GEOCODE_QUEUE_SIZE then q[1..] else q;
      assert forall i :: 0 <= i < |kept| ==> kept[i] in q;
      var q' := kept + [t];
      forall i, j | 0 <= i < j < |q'| ensures TaskKey(q'[i]) != TaskKey(q'[j]) {
        if j == |q'| - 1 {
          assert q'[i] == kept[i] && kept[i] in q;
        } else if |q| >= MAX_GEOCODE_QUEUE_SIZE {
          assert q'[i] == q[i + 1] && q'[j] == q[j + 1];
        } else {
          assert q'[i] == q[i] && q'[j] == q[j];
        }
      }
    }
  }

  /**
   * Draining the queue in order: the cache after each queued request has been
   * looked up with the outcomes `outcomes(i)`, `outcomes(i + 1)`, ...
   */
  function Drained(c: AddressCache, q: seq<Task>, outcomes: nat -> Lookup, i: nat): (r: AddressCache)
    requires c.Valid()
    ensures r.Valid()
    decreases |q|
  {
    if q == [] then c
    else Drained(AfterFetch(c, TaskKey(q[0]), outcomes(i)), q[1..], outcomes, i + 1)
  }

  /** Draining never takes the cache past 200 keys, or past its size if it was already larger. */
  lemma {:induction false} DrainedSize(c: AddressCache, q: seq<Task>, outcomes: nat -> Lookup, i: nat)
    requires c.Valid()
    ensures Drained(c, q, outcomes, i).Size() <= if c.Size() > MAX_CACHE_SIZE then c.Size() else MAX_CACHE_SIZE
    decreases |q|
  {
    if q != [] {
      var c' := AfterFetch(c, TaskKey(q[0]), outcomes(i));
      AfterFetchSize(c, TaskKey(q[0]), outcomes(i));
      DrainedSize(c', q[1..], outcomes, i + 1);
    }
  }

  // ------------------------------------------------------------------
  // Address resolution
  // ------------------------------------------------------------------

  /** What the cache says about a key, as `resolveAddress` reads it. */
  datatype Hit = Known(address: string) | UnknownHit | Unresolved

  /**
   * A real address is known; the sentinel means "nothing here"; a missing key,
   * a pending marker and an empty address all count as unresolved.
   */
  function Classify(c: AddressCache, key: CoordKey): (h: Hit)
    ensures h.Known? <==>
      key in c.entries && c.entries[key].Cached? &&
      c.entries[key].address != [] && c.entries[key].address != UNKNOWN_LOCATION
    ensures h.Known? ==> h.address == c.entries[key].address
    ensures h.UnknownHit? <==> key in c.entries && c.entries[key] == Cached(UNKNOWN_LOCATION)
  {
    if key !in c.entries then Unresolved
    else match c.entries[key]
      case Pending => Unresolved
      case Cached(a) =>
        if a == UNKNOWN_LOCATION then UnknownHit else if a != [] then Known(a) else Unresolved
  }

  /** `member.address && member.address !== "Unknown Location"` */
  predicate HasAddress(m: Member) {
    m.address != [] && m.address != UNKNOWN_LOCATION
  }

  /** Both coordinates are truthy (a coordinate of exactly 0 counts as missing). */
  predicate HasCoordinates(m: Member) {
    Latitude(m) != 0.0 && Longitude(m) != 0.0
  }

  function MemberKey(m: Member): CoordKey {
    KeyOf(Latitude(m), Longitude(m))
  }

  /** Last-known addresses are always real addresses. */
  predicate KnownAddresses(last: map<string, string>) {
    forall e :: e in last ==> last[e] != [] && last[e] != UNKNOWN_LOCATION
  }

  /** The module-level geocoding state: address cache, request queue, last-known addresses. */
  class AddressResolver {
    var cache: AddressCache
    var queue: seq<Task>
    var lastKnown: map<string, string>

    ghost predicate Valid()
      reads this
    {
      cache.Valid() && |queue| <= MAX_GEOCODE_QUEUE_SIZE && DistinctTasks(queue) && KnownAddresses(lastKnown)
    }

    constructor ()
      ensures Valid()
      ensures cache == AddressCache(map[], []) && queue == [] && lastKnown == map[]
    {
      cache := AddressCache(map[], []);
      queue := [];
      lastKnown := map[];
    }

    /** `enqueueGeocodeRequest(lat, lon)`, without starting the asynchronous drain. */
    method Enqueue(lat: real, lon: real)
      requires Valid()
      modifies this
      ensures Valid()
      ensures (cache, queue) == Enqueued(old(cache), old(queue), Task(lat, lon))
      ensures lastKnown == old(lastKnown)
    {
      EnqueueKeepsQueueValid(cache, queue, Task(lat, lon));
      var key := KeyOf(lat, lon);
      if key in cache.entries {
        return;
      }
      if Queued(queue, key) {
        return;
      }
      if |queue| >= MAX_GEOCODE_QUEUE_SIZE {
        queue := queue[1..];
      }
      cache := cache.Set(key, Pending);
      queue := queue + [Task(lat, lon)];
    }

    /** `performGeocodeFetch` for one task, given how its request ended. */
    method PerformFetch(t: Task, outcome: Lookup)
      requires cache.Valid()
      modifies this`cache
      ensures cache == AfterFetch(old(cache), TaskKey(t), outcome)
    {
      var key := TaskKey(t);
      match outcome {
        case Feature(p) =>
          cache := cache.Set(key, Cached(FormatAddress(p)));
        case NoFeatures =>
          cache := cache.Set(key, Cached(UNKNOWN_LOCATION));
        case _ =>
          cache := cache.Delete(key);
      }
      if cache.Size() > MAX_CACHE_SIZE {
        var first := cache.order[0];
        cache := cache.Delete(first);
      }
    }

    /** The `processGeocodeQueue` loop: shift each task in turn and look it up. */
    method ProcessQueue(outcomes: nat -> Lookup)
      requires Valid()
      modifies this
      ensures Valid()
      ensures queue == [] && lastKnown == old(lastKnown)
      ensures cache == Drained(old(cache), old(queue), outcomes, 0)
    {
      var i := 0;
      while |queue| > 0
        invariant Valid() && lastKnown == old(lastKnown)
        invariant i <= |old(queue)| && queue == old(queue)[i..]
        invariant Drained(cache, queue, outcomes, i) == Drained(old(cache), old(queue), outcomes, 0)
        decreases |queue|
      {
        var task := queue[0];
        queue := queue[1..];
        PerformFetch(task, outcomes(i));
        i := i + 1;
      }
    }

    /**
     * `resolveAddress(member)`; geocodeEnabled stands for "a config exists and
     * its geocodeEnabled flag is truthy".
     */
    method ResolveAddress(m: Member, geocodeEnabled: bool) returns (r: Option<string>)
      requires Valid()
      modifies this
      ensures Valid()
      // A record that already carries a real address gets it back; the cache
      // and the last-known address are seeded only when the key is new.
      ensures HasAddress(m) ==>
        r == Some(m.address) && queue == old(queue) &&
        (if HasCoordinates(m) && MemberKey(m) !in old(cache.entries) then
           cache == old(cache).Set(MemberKey(m), Cached(m.address)) &&
           lastKnown == old(lastKnown)[EmailOrOwner(m) := m.address]
         else
           cache == old(cache) && lastKnown == old(lastKnown))
      // Geocoding disabled, or a coordinate missing: nothing happens.
      ensures !HasAddress(m) && (!geocodeEnabled || !HasCoordinates(m)) ==>
        r == None && cache == old(cache) && queue == old(queue) && lastKnown == old(lastKnown)
      ensures !HasAddress(m) && geocodeEnabled && HasCoordinates(m) ==>
        match Classify(old(cache), MemberKey(m))
        case Known(a) =>
          r == Some(a) && lastKnown == old(lastKnown)[EmailOrOwner(m) := a] &&
          cache == old(cache) && queue == old(queue)
        case UnknownHit =>
          r == None && lastKnown == old(lastKnown) - {EmailOrOwner(m)} &&
          cache == old(cache) && queue == old(queue)
        case Unresolved =>
          (cache, queue) == Enqueued(old(cache), old(queue), Task(Latitude(m), Longitude(m))) &&
          lastKnown == old(lastKnown) &&
          r == if EmailOrOwner(m) in lastKnown then Some(lastKnown[EmailOrOwner(m)]) else None
    {
      if HasAddress(m) {
        var lat, lon := Latitude(m), Longitude(m);
        if lat != 0.0 && lon != 0.0 {
          var key := KeyOf(lat, lon);
          if key !in cache.entries {
            cache := cache.Set(key, Cached(m.address));
            lastKnown := lastKnown[EmailOrOwner(m) := m.address];
          }
        }
        return Some(m.address);
      }
      if !geocodeEnabled {
        return None;
      }
      var lat, lon, email := Latitude(m), Longitude(m), EmailOrOwner(m);
      if lat == 0.0 || lon == 0.0 {
        return None;
      }
      var key := KeyOf(lat, lon);
      if key in cache.entries {
        var cached := cache.entries[key];
        if cached.Cached? && cached.address != [] && cached.address != UNKNOWN_LOCATION {
          lastKnown := lastKnown[email := cached.address];
          return Some(cached.address);
        }
        if cached == Cached(UNKNOWN_LOCATION) {
          lastKnown := lastKnown - {email};
          return None;
        }
      }
      Enqueue(lat, lon);
      r := if email in lastKnown then Some(lastKnown[email]) else None;
    }
  }
}
