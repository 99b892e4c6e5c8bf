/** The in-memory sliding-window limiter of backend/internal/guard/limiter.go. Times and
    windows are nanoseconds. */
module Limiter {
  const MAX_TRACKED_KEYS: nat := 65536
  const DAY := 86_400_000_000_000

  type Hits = map<string, seq<int>>

  // ----- What the code computes, on values -----

  /** The stamps that are less than a window old. */
  function Fresh(stamps: seq<int>, now: int, window: int): seq<int> {
    if stamps == [] then []
    else
      var init, last := Fresh(stamps[..|stamps| - 1], now, window), stamps[|stamps| - 1];
      if now - last < window then init + [last] else init
  }

  function Stamps(hits: Hits, key: string): seq<int> {
    if key in hits then hits[key] else []
  }

  predicate Idle(stamps: seq<int>, now: int) {
    stamps == [] || now - stamps[|stamps| - 1] >= DAY
  }

  function Kept(hits: Hits, now: int): Hits {
    map key | key in hits && !Idle(hits[key], now) :: hits[key]
  }

  /** The whole map is dropped when sweeping the idle keys does not help. */
  predicate Drops(hits: Hits, now: int) {
    |hits| > MAX_TRACKED_KEYS && |Kept(hits, now)| > MAX_TRACKED_KEYS
  }

  function Swept(hits: Hits, now: int): Hits {
    if |hits| <= MAX_TRACKED_KEYS then hits
    else if Drops(hits, now) then map[]
    else Kept(hits, now)
  }

  predicate Allowed(stamps: seq<int>, limit: int, window: int, now: int) {
    limit <= 0 || |Fresh(stamps, now, window)| < limit
  }

  function AfterAllow(hits: Hits, key: string, limit: int, window: int, now: int): Hits {
    if limit <= 0 then hits
    else
      var swept := Swept(hits, now);
      var recent := Fresh(Stamps(swept, key), now, window);
      swept[key := if |recent| < limit then recent + [now] else recent]
  }

  // ----- What that means -----

  lemma FreshOne(x: int, now: int, window: int)
    ensures Fresh([x], now, window) == if now - x < window then [x] else []
  {
    assert [x][..0] == [];
  }

  lemma FreshSnoc(stamps: seq<int>, x: int, now: int, window: int)
    ensures Fresh(stamps + [x], now, window) ==
            Fresh(stamps, now, window) + (if now - x < window then [x] else [])
  {
    assert (stamps + [x])[..|stamps|] == stamps;
  }

  /** Filtering is done stamp by stamp, and keeps the order. */
  lemma {:induction false} FreshJoins(a: seq<int>, b: seq<int>, now: int, window: int)
    ensures Fresh(a + b, now, window) == Fresh(a, now, window) + Fresh(b, now, window)
  {
    if b == [] {
      assert a + b == a;
    } else {
      var init, last := b[..|b| - 1], b[|b| - 1];
      FreshJoins(a, init, now, window);
      FreshSnoc(a + init, last, now, window);
      assert a + b == (a + init) + [last];
    }
  }

  /** The positions of the stamps that are less than a window old. */
  ghost function Recent(stamps: seq<int>, now: int, window: int): set<int> {
    set i | 0 <= i < |stamps| && now - stamps[i] < window
  }

  lemma {:induction false} FreshCounts(stamps: seq<int>, now: int, window: int)
    ensures |Fresh(stamps, now, window)| == |Recent(stamps, now, window)|
  {
    if stamps != [] {
      var last := |stamps| - 1;
      FreshCounts(stamps[..last], now, window);
      var before := Recent(stamps[..last], now, window);
      assert Recent(stamps, now, window) == if now - stamps[last] < window then before + {last} else before;
    }
  }

  /** A call is let through exactly when there is no limit or fewer hits than that are less
      than a window old. */
  lemma AllowedIff(stamps: seq<int>, limit: int, window: int, now: int)
    ensures Allowed(stamps, limit, window, now) <==>
            limit <= 0 || |set i | 0 <= i < |stamps| && now - stamps[i] < window| < limit
  {
    FreshCounts(stamps, now, window);
    assert Recent(stamps, now, window) == set i | 0 <= i < |stamps| && now - stamps[i] < window;
  }

  /** Only a map of more than 65536 keys is swept. What is left are the keys used within 24
      hours, or nothing at all when these are still more than 65536. */
  lemma SweepIs(hits: Hits, now: int)
    ensures var used := UsedWithinADay(hits, now);
            && Swept(hits, now) == (if |hits| <= 65536 then hits else if |used| > 65536 then map[] else used)
            && (Drops(hits, now) <==> |hits| > 65536 && |used| > 65536)
  {
    assert Kept(hits, now) == UsedWithinADay(hits, now);
  }

  ghost function UsedWithinADay(hits: Hits, now: int): Hits {
    map key | key in hits && hits[key] != [] && now - hits[key][|hits[key]| - 1] < 86_400 * 1_000_000_000 :: hits[key]
  }

  // ----- The code, on slices -----

  /** A Go slice: the first `len` elements of a backing array. */
  datatype Slice = Slice(data: array<int>, len: nat)

  /** fresh := stamps[:0] and the appends of the loop: compaction in place. */
  method Compact(stamps: Slice, now: int, window: int) returns (recent: Slice)
    requires stamps.len <= stamps.data.Length
    modifies stamps.data
    ensures recent.data == stamps.data && recent.len <= stamps.len
    ensures recent.data[..recent.len] == Fresh(old(stamps.data[..stamps.len]), now, window)
  {
    var n := 0;
    ghost var was := stamps.data[..stamps.len];
    for i := 0 to stamps.len
      invariant n <= i
      invariant stamps.data[..n] == Fresh(was[..i], now, window)
      invariant stamps.data[i..stamps.len] == was[i..]
    {
      assert was[..i + 1][..i] == was[..i];
      var ts := stamps.data[i];
      assert ts == stamps.data[i..stamps.len][0] == was[i];
      if now - ts < window {
        stamps.data[n] := ts;
        assert stamps.data[..n + 1] == Fresh(was[..i], now, window) + [ts];
        n := n + 1;
      }
      assert stamps.data[i + 1..stamps.len] == was[i + 1..];
    }
    assert was[..stamps.len] == was;
    recent := Slice(stamps.data, n);
  }

  /** Go's append: in place while the capacity lasts, otherwise into a new array. */
  method Append(s: Slice, x: int) returns (r: Slice)
    requires s.len <= s.data.Length
    modifies s.data
    ensures r.len == s.len + 1 <= r.data.Length && (r.data == s.data || fresh(r.data))
    ensures r.data[..r.len] == old(s.data[..s.len]) + [x]
  {
    if s.len < s.data.Length {
      s.data[s.len] := x;
      assert s.data[..s.len + 1] == s.data[..s.len] + [x];
      r := Slice(s.data, s.len + 1);
    } else {
      var bigger := new int[2 * s.len + 1];
      for i := 0 to s.len
        invariant bigger[..i] == s.data[..i]
        modifies bigger
      {
        bigger[i] := s.data[i];
      }
      bigger[s.len] := x;
      assert bigger[..s.len + 1] == bigger[..s.len] + [x];
      r := Slice(bigger, s.len + 1);
    }
  }

  /** Drop the old stamps and, when the limit allows it, add the new one. */
  method Renew(stamps: Slice, limit: int, window: int, now: int) returns (ok: bool, recent: Slice)
    requires stamps.len <= stamps.data.Length
    modifies stamps.data
    ensures recent.len <= recent.data.Length && (recent.data == stamps.data || fresh(recent.data))
    ensures var kept := Fresh(old(stamps.data[..stamps.len]), now, window);
            && ok == (|kept| < limit)
            && recent.data[..recent.len] == if ok then kept + [now] else kept
  {
    recent := Compact(stamps, now, window);
    ok := recent.len < limit;
    if ok {
      recent := Append(recent, now);
    }
  }

  lemma SameSize<K, A, B>(m: map<K, A>, n: map<K, B>)
    requires m.Keys == n.Keys
    ensures |m| == |n|
  {
    assert |m| == |m.Keys| == |n.Keys| == |n|;
  }

  class RateLimiter {
    var hits: map<string, Slice>
    ghost var contents: Hits                   // what the slices hold
    ghost var owner: map<array<int>, string>   // a backing array serves one key

    ghost predicate Holds(key: string)
      requires key in hits
      reads this, owner.Keys
    {
      var s := hits[key];
      && s.data in owner && owner[s.data] == key
      && key in contents && s.len <= s.data.Length && contents[key] == s.data[..s.len]
    }

    ghost predicate Valid()
      reads this, owner.Keys
    {
      contents.Keys == hits.Keys && forall key | key in hits :: Holds(key)
    }

    constructor ()
      ensures Valid() && contents == map[]
    {
      hits, contents, owner := map[], map[], map[];
    }

    /** The loop of sweepLocked. */
    method DeleteFromMap(now: int)
      requires Valid()
      modifies this`hits
      ensures hits.Keys == Kept(contents, now).Keys
      ensures forall key | key in hits :: key in old(hits) && hits[key] == old(hits)[key]
    {
      var todo := hits.Keys;
      while todo != {}
        invariant todo <= hits.Keys <= old(hits).Keys
        invariant forall key | key in hits :: hits[key] == old(hits)[key]
        invariant forall key | key in contents :: key in hits <==> key in todo || !Idle(contents[key], now)
        decreases todo
      {
        var key :| key in todo;
        todo := todo - {key};
        var s := hits[key];
        assert old(Holds(key));
        if s.len == 0 || now - s.data[s.len - 1] >= DAY {
          hits := hits - {key};
        }
      }
    }

    method DeleteIdle(now: int)
      requires Valid()
      modifies this`hits, this`contents
      ensures Valid() && contents == Kept(old(contents), now)
      ensures forall key | key in hits :: key in old(hits) && hits[key] == old(hits)[key]
    {
      DeleteFromMap(now);
      contents := Kept(contents, now);
      assert forall key | key in hits :: old(Holds(key));
    }

    /** The last lines of sweepLocked. */
    method DropIfLarge()
      requires Valid()
      modifies this`hits, this`contents
      ensures Valid() && contents == if |old(contents)| > MAX_TRACKED_KEYS then map[] else old(contents)
      ensures forall key | key in hits :: key in old(hits) && hits[key] == old(hits)[key]
    {
      SameSize(hits, contents);
      if |hits| > MAX_TRACKED_KEYS {
        hits, contents := map[], map[];
      }
    }

    method Sweep(now: int)
      requires Valid() && |hits| > MAX_TRACKED_KEYS
      modifies this`hits, this`contents
      ensures Valid() && contents == Swept(old(contents), now)
      ensures forall key | key in hits :: key in old(hits) && hits[key] == old(hits)[key]
    {
      SameSize(hits, contents);
      DeleteIdle(now);
      DropIfLarge();
    }

    /** l.hits[key], an empty slice when there is none. */
    method SliceOf(key: string) returns (s: Slice)
      requires Valid()
      ensures s.len <= s.data.Length && s.data[..s.len] == Stamps(contents, key)
      ensures if key in hits then s == hits[key] else fresh(s.data)
    {
      if key in hits {
        assert Holds(key);
        return hits[key];
      }
      var empty := new int[0];
      s := Slice(empty, 0);
    }

    /** The part of Allow after the sweep. */
    method Record(key: string, limit: int, window: int, now: int) returns (ok: bool)
      requires Valid()
      modifies this, owner.Keys
      ensures Valid()
      ensures var kept := Fresh(Stamps(old(contents), key), now, window);
              && ok == (|kept| < limit)
              && contents == old(contents)[key := if ok then kept + [now] else kept]
    {
      var stamps := SliceOf(key);
      assert forall k | k in hits && k != key :: Holds(k) && hits[k].data != stamps.data;
      var recent;
      ok, recent := Renew(stamps, limit, window, now);
      assert forall k | k in hits && k != key :: Holds(k);
      Store(key, recent);
    }

    method Store(key: string, s: Slice)
      requires contents.Keys == hits.Keys && forall k | k in hits && k != key :: Holds(k)
      requires s.len <= s.data.Length && (s.data in owner ==> owner[s.data] == key)
      modifies this
      ensures Valid() && contents == old(contents)[key := s.data[..s.len]]
    {
      hits := hits[key := s];
      owner := owner[s.data := key];
      contents := contents[key := s.data[..s.len]];
      assert forall k | k in hits && k != key :: old(Holds(k));
    }

    method Allow(key: string, limit: int, window: int, now: int) returns (ok: bool)
      requires Valid()
      modifies this, owner.Keys
      ensures Valid()
      ensures ok == Allowed(Stamps(Swept(old(contents), now), key), limit, window, now)
      ensures contents == AfterAllow(old(contents), key, limit, window, now)
    {
      if limit <= 0 {
        return true;
      }
      SameSize(hits, contents);
      if |hits| > MAX_TRACKED_KEYS {
        Sweep(now);
      }
      ok := Record(key, limit, window, now);
    }
  }
}
