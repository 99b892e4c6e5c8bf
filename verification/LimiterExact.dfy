/** The limiter decides as if it kept every accepted hit: compaction and sweeping forget
    only stamps that no later decision counts. Only dropping the whole map, the one thing
    the code trades away for bounded memory, makes it start anew; every drop can let at most
    `limit` more hits of a key into an interval. */
module LimiterExact {
  import opened Limiter

  /** One call of Allow; `limit` may change from call to call, a key's window does not. */
  datatype Call = Call(key: string, limit: int, now: int)

  type Windows = string -> int

  /** The limiter's map; per key the times of all hits accepted since the last drop of the
      whole map, and of those accepted before it; the number of drops. */
  datatype World = World(hits: Hits, history: Hits, earlier: Hits, drops: nat)

  const EMPTY := World(map[], map[], map[], 0)

  /** All hits of a key ever accepted. */
  function Accepted(w: World, key: string): seq<int> {
    Stamps(w.earlier, key) + Stamps(w.history, key)
  }

  predicate DropsMap(w: World, c: Call) {
    c.limit > 0 && Drops(w.hits, c.now)
  }

  /** The history that the full-history rule looks at during a call. */
  function Remembered(w: World, c: Call): Hits {
    if DropsMap(w, c) then map[] else w.history
  }

  predicate Decision(w: World, c: Call, windows: Windows) {
    Allowed(Stamps(if c.limit > 0 then Swept(w.hits, c.now) else w.hits, c.key), c.limit, windows(c.key), c.now)
  }

  predicate FullDecision(w: World, c: Call, windows: Windows) {
    Allowed(Stamps(Remembered(w, c), c.key), c.limit, windows(c.key), c.now)
  }

  function Added(history: Hits, key: string, now: int): Hits {
    history[key := Stamps(history, key) + [now]]
  }

  function Joined(earlier: Hits, history: Hits): Hits {
    map key | key in earlier.Keys + history.Keys :: Stamps(earlier, key) + Stamps(history, key)
  }

  /** Calls without a limit are let through and not recorded. */
  function Step(w: World, c: Call, windows: Windows): World {
    var history, counts := Remembered(w, c), c.limit > 0 && Decision(w, c, windows);
    World(AfterAllow(w.hits, c.key, c.limit, windows(c.key), c.now),
          if counts then Added(history, c.key, c.now) else history,
          if DropsMap(w, c) then Joined(w.earlier, w.history) else w.earlier,
          w.drops + if DropsMap(w, c) then 1 else 0)
  }

  function Run(calls: seq<Call>, windows: Windows): World {
    if calls == [] then EMPTY
    else Step(Run(calls[..|calls| - 1], windows), calls[|calls| - 1], windows)
  }

  /** In ascending order and not after `upTo`. */
  predicate Sorted(stamps: seq<int>, upTo: int) {
    stamps == [] ||
    (stamps[|stamps| - 1] <= upTo && Sorted(stamps[..|stamps| - 1], stamps[|stamps| - 1]))
  }

  /** No decision from `clock` on can tell the two apart. */
  ghost predicate Agree(stamps: seq<int>, history: seq<int>, clock: int, window: int) {
    forall now | now >= clock :: Fresh(stamps, now, window) == Fresh(history, now, window)
  }

  lemma {:induction false} SortedAt(stamps: seq<int>, i: nat, j: nat, upTo: int)
    requires Sorted(stamps, upTo) && i <= j < |stamps|
    ensures stamps[i] <= stamps[j] <= upTo
  {
    var last := |stamps| - 1;
    if i < last {
      SortedAt(stamps[..last], i, if j < last then j else last - 1, stamps[last]);
    }
  }

  lemma SortedSnoc(stamps: seq<int>, now: int)
    requires Sorted(stamps, now)
    ensures Sorted(stamps + [now], now)
  {
    assert (stamps + [now])[..|stamps|] == stamps;
  }

  // ----- Facts about Fresh -----

  /** Compacting early does not change a later count. */
  lemma {:induction false} FreshTwice(stamps: seq<int>, early: int, now: int, window: int)
    requires early <= now
    ensures Fresh(Fresh(stamps, early, window), now, window) == Fresh(stamps, now, window)
  {
    if stamps != [] {
      var init, last := stamps[..|stamps| - 1], stamps[|stamps| - 1];
      FreshTwice(init, early, now, window);
      FreshSnoc(Fresh(init, early, window), last, now, window);
    }
  }

  lemma {:induction false} FreshSorted(stamps: seq<int>, now: int, window: int, upTo: int)
    requires Sorted(stamps, upTo)
    ensures Sorted(Fresh(stamps, now, window), upTo)
  {
    if stamps != [] {
      var init, last := stamps[..|stamps| - 1], stamps[|stamps| - 1];
      FreshSorted(init, now, window, last);
      SortedSnoc(Fresh(init, now, window), last);
    }
  }

  /** An idle key has nothing that a later decision would count. */
  lemma {:induction false} IdleIsStale(stamps: seq<int>, early: int, now: int, window: int)
    requires Sorted(stamps, early) && early <= now && window <= DAY
    requires stamps == [] || early - stamps[|stamps| - 1] >= DAY
    ensures Fresh(stamps, now, window) == []
  {
    if stamps != [] {
      var init := stamps[..|stamps| - 1];
      IdleIsStale(init, early, now, window);
    }
  }

  /** In a sorted history everything after a fresh stamp is fresh. */
  lemma {:induction false} FreshSuffix(stamps: seq<int>, k: nat, now: int, window: int, upTo: int)
    requires Sorted(stamps, upTo) && k < |stamps| && now - stamps[k] < window
    ensures |Fresh(stamps, now, window)| >= |stamps| - k
  {
    var last := |stamps| - 1;
    SortedAt(stamps, k, last, upTo);
    if k < last {
      FreshSuffix(stamps[..last], k, now, window, stamps[last]);
    }
  }

  // ----- The refinement -----

  ghost predicate Ok(stamps: seq<int>, history: seq<int>, clock: int, window: int) {
    Sorted(stamps, clock) && Sorted(history, clock) && Agree(stamps, history, clock, window)
  }

  ghost predicate KeyOk(w: World, clock: int, windows: Windows, key: string) {
    Ok(Stamps(w.hits, key), Stamps(w.history, key), clock, windows(key))
  }

  /** Sweeping, with the history dropped when the map is, keeps a key's counts. */
  lemma SweepAgrees(w: World, clock: int, c: Call, windows: Windows, key: string)
    requires KeyOk(w, clock, windows, key) && clock <= c.now && c.limit > 0 && windows(key) <= DAY
    ensures KeyOk(w.(hits := Swept(w.hits, c.now), history := Remembered(w, c)), c.now, windows, key)
  {
    if |w.hits| > MAX_TRACKED_KEYS && key in w.hits && Idle(w.hits[key], c.now) {
      forall now | now >= c.now
        ensures Fresh([], now, windows(key)) == Fresh(w.hits[key], now, windows(key))
      {
        IdleIsStale(w.hits[key], c.now, now, windows(key));
      }
    }
  }

  /** What one Allow at `now` keeps and adds is counted later as in the history. */
  lemma LaterSame(stamps: seq<int>, history: seq<int>, now: int, later: int, window: int)
    requires now <= later && Fresh(stamps, later, window) == Fresh(history, later, window)
    ensures Fresh(Fresh(stamps, now, window), later, window) == Fresh(history, later, window)
    ensures Fresh(Fresh(stamps, now, window) + [now], later, window) == Fresh(history + [now], later, window)
  {
    FreshTwice(stamps, now, later, window);
    FreshSnoc(Fresh(stamps, now, window), now, later, window);
    FreshSnoc(history, now, later, window);
  }

  lemma CompactAgrees(stamps: seq<int>, history: seq<int>, now: int, window: int)
    requires Agree(stamps, history, now, window)
    ensures Agree(Fresh(stamps, now, window), history, now, window)
  {
    var recent := Fresh(stamps, now, window);
    forall later | later >= now
      ensures Fresh(recent, later, window) == Fresh(history, later, window)
    {
      LaterSame(stamps, history, now, later, window);
    }
  }

  lemma AddAgrees(stamps: seq<int>, history: seq<int>, now: int, window: int)
    requires Agree(stamps, history, now, window)
    ensures Agree(Fresh(stamps, now, window) + [now], history + [now], now, window)
  {
    var recent, full := Fresh(stamps, now, window) + [now], history + [now];
    forall later | later >= now
      ensures Fresh(recent, later, window) == Fresh(full, later, window)
    {
      LaterSame(stamps, history, now, later, window);
    }
  }

  lemma AllowAgrees(stamps: seq<int>, history: seq<int>, now: int, window: int)
    requires Ok(stamps, history, now, window)
    ensures Ok(Fresh(stamps, now, window), history, now, window)
    ensures Ok(Fresh(stamps, now, window) + [now], history + [now], now, window)
  {
    FreshSorted(stamps, now, window, now);
    CompactAgrees(stamps, history, now, window);
    AddAgrees(stamps, history, now, window);
  }

  lemma StepDecides(w: World, c: Call, windows: Windows)
    requires KeyOk(w, c.now, windows, c.key) && windows(c.key) <= DAY
    ensures Decision(w, c, windows) == FullDecision(w, c, windows)
  {
    if c.limit > 0 {
      SweepAgrees(w, c.now, c, windows, c.key);
    }
  }

  lemma StepRefines(w: World, c: Call, windows: Windows, key: string)
    requires KeyOk(w, c.now, windows, key) && windows(key) <= DAY
    ensures KeyOk(Step(w, c, windows), c.now, windows, key)
  {
    if c.limit > 0 {
      SweepAgrees(w, c.now, c, windows, key);
      var stamps, history := Stamps(Swept(w.hits, c.now), key), Stamps(Remembered(w, c), key);
      AllowAgrees(stamps, history, c.now, windows(key));
      StepStamps(w, c, windows, key);
    }
  }

  /** What one counted call does to a key's stamps and history. */
  lemma StepStamps(w: World, c: Call, windows: Windows, key: string)
    requires c.limit > 0
    ensures var stamps, history := Stamps(Swept(w.hits, c.now), key), Stamps(Remembered(w, c), key);
            var recent := Fresh(stamps, c.now, windows(key));
            (Stamps(Step(w, c, windows).hits, key), Stamps(Step(w, c, windows).history, key)) ==
            if key != c.key then (stamps, history)
            else if |recent| < c.limit then (recent + [c.now], history + [c.now])
            else (recent, history)
  {
  }

  ghost predicate Ordered(calls: seq<Call>) {
    forall i, j | 0 <= i < j < |calls| :: calls[i].now <= calls[j].now
  }

  lemma {:induction false} RunRefines(calls: seq<Call>, windows: Windows, clock: int, key: string)
    requires Ordered(calls) && windows(key) <= DAY
    requires calls != [] ==> calls[|calls| - 1].now <= clock
    ensures KeyOk(Run(calls, windows), clock, windows, key)
  {
    if calls != [] {
      var init, c := calls[..|calls| - 1], calls[|calls| - 1];
      RunRefines(init, windows, c.now, key);
      StepRefines(Run(init, windows), c, windows, key);
    }
  }

  /** In every run with a clock that does not go back and windows of at most 24 hours, each
      call is decided exactly as by counting all accepted hits of the last window. */
  lemma DecidesLikeFullHistory(calls: seq<Call>, windows: Windows, c: Call)
    requires Ordered(calls) && (calls != [] ==> calls[|calls| - 1].now <= c.now)
    requires windows(c.key) <= DAY
    ensures Decision(Run(calls, windows), c, windows) == FullDecision(Run(calls, windows), c, windows)
  {
    RunRefines(calls, windows, c.now, c.key);
    StepDecides(Run(calls, windows), c, windows);
  }

  // ----- What the limit promises -----

  predicate Apart(hits: seq<int>, i: nat, count: nat, window: int)
    requires i + count < |hits|
  {
    hits[i + count] - hits[i] >= window
  }

  /** Any `count` + 1 consecutive hits span at least a window. */
  ghost predicate Spaced(hits: seq<int>, count: nat, window: int) {
    forall i: nat | i + count < |hits| :: Apart(hits, i, count, window)
  }

  lemma AcceptKeepsSpaced(history: seq<int>, limit: nat, window: int, now: int)
    requires limit > 0 && Sorted(history, now) && Spaced(history, limit, window)
    requires |Fresh(history, now, window)| < limit
    ensures Spaced(history + [now], limit, window)
  {
    var longer := history + [now];
    forall i: nat | i + limit < |longer|
      ensures Apart(longer, i, limit, window)
    {
      if i + limit < |history| {
        assert Apart(history, i, limit, window);
      } else if now - history[i] < window {
        FreshSuffix(history, i, now, window, now);
      }
    }
  }

  function Times(n: nat, limit: nat): nat {
    if n == 0 then 0 else Times(n - 1, limit) + limit
  }

  lemma {:induction false} TimesIsProduct(n: nat, limit: nat)
    ensures Times(n, limit) == n * limit
  {
    if n > 0 {
      TimesIsProduct(n - 1, limit);
      assert n * limit == (n - 1) * limit + limit;
    }
  }

  /** The hits since the last drop keep the limit, those before it `drops` times the limit. */
  ghost predicate Split(earlier: seq<int>, history: seq<int>, drops: nat, limit: nat, window: int, upTo: int) {
    && Sorted(earlier + history, upTo) && Sorted(history, upTo)
    && Spaced(history, limit, window) && Spaced(earlier, Times(drops, limit), window)
  }

  /** Of enough consecutive hits, too many lie before the last drop or after it. */
  lemma SplitIsSpaced(earlier: seq<int>, history: seq<int>, drops: nat, limit: nat, window: int, upTo: int)
    requires Split(earlier, history, drops, limit, window, upTo)
    ensures Spaced(earlier + history, Times(drops + 1, limit), window)
  {
    var all, past, total := earlier + history, Times(drops, limit), Times(drops + 1, limit);
    assert total == past + limit;
    forall i: nat | i + total < |all|
      ensures Apart(all, i, total, window)
    {
      if i + past < |earlier| {
        assert Apart(earlier, i, past, window);
        SortedAt(all, i + past, i + total, upTo);
      } else {
        SortedAt(all, i, i + past, upTo);
        assert Apart(history, i + past - |earlier|, limit, window);
      }
    }
  }

  /** A drop moves everything accepted so far to the earlier part. */
  lemma DropSplits(earlier: seq<int>, history: seq<int>, drops: nat, limit: nat, window: int, now: int)
    requires Split(earlier, history, drops, limit, window, now)
    ensures Split(earlier + history, [], drops + 1, limit, window, now)
  {
    SplitIsSpaced(earlier, history, drops, limit, window, now);
    assert (earlier + history) + [] == earlier + history;
  }

  lemma AcceptSplits(earlier: seq<int>, history: seq<int>, drops: nat, limit: nat, window: int, now: int)
    requires limit > 0 && Split(earlier, history, drops, limit, window, now)
    requires |Fresh(history, now, window)| < limit
    ensures Split(earlier, history + [now], drops, limit, window, now)
  {
    AcceptKeepsSpaced(history, limit, window, now);
    SortedSnoc(earlier + history, now);
    SortedSnoc(history, now);
    assert earlier + (history + [now]) == (earlier + history) + [now];
  }

  ghost predicate KeySplit(w: World, key: string, limit: nat, window: int, upTo: int) {
    Split(Stamps(w.earlier, key), Stamps(w.history, key), w.drops, limit, window, upTo)
  }

  /** What one call does to a key's two histories: a drop joins them, and a hit that counts
      is added to the recent one. */
  lemma StepHistories(w: World, c: Call, windows: Windows, key: string)
    ensures var w', dropped := Step(w, c, windows), DropsMap(w, c);
            var counts := key == c.key && c.limit > 0 && Decision(w, c, windows);
            && w'.drops == w.drops + (if dropped then 1 else 0)
            && Stamps(w'.earlier, key) == (if dropped then Accepted(w, key) else Stamps(w.earlier, key))
            && Stamps(Remembered(w, c), key) == (if dropped then [] else Stamps(w.history, key))
            && Stamps(w'.history, key) == Stamps(Remembered(w, c), key) + (if counts then [c.now] else [])
  {
  }

  /** Nothing accepted is ever forgotten here: each call adds its hit if it counts. */
  lemma NothingForgotten(w: World, c: Call, windows: Windows, key: string)
    ensures Accepted(Step(w, c, windows), key) ==
            Accepted(w, key) + if key == c.key && c.limit > 0 && Decision(w, c, windows) then [c.now] else []
  {
    StepHistories(w, c, windows, key);
  }

  /** A key's histories around a call: dropped or not, then hit or not. */
  datatype Move = Move(earlier: seq<int>, history: seq<int>, drops: nat, now: int, dropped: bool, hit: bool) {
    function Recent(): seq<int> {
      if dropped then [] else history
    }
    function Earlier(): seq<int> {
      if dropped then earlier + history else earlier
    }
    function History(): seq<int> {
      Recent() + if hit then [now] else []
    }
    function AfterDrops(): nat {
      drops + if dropped then 1 else 0
    }
  }

  function MoveOf(w: World, c: Call, windows: Windows, key: string): Move {
    Move(Stamps(w.earlier, key), Stamps(w.history, key), w.drops, c.now, DropsMap(w, c),
         key == c.key && c.limit > 0 && Decision(w, c, windows))
  }

  lemma StepMoves(w: World, c: Call, windows: Windows, key: string)
    requires c.key == key ==> Decision(w, c, windows) == FullDecision(w, c, windows)
    ensures var w', m := Step(w, c, windows), MoveOf(w, c, windows, key);
            && Stamps(w'.earlier, key) == m.Earlier() && Stamps(w'.history, key) == m.History()
            && w'.drops == m.AfterDrops()
            && (m.hit ==> |Fresh(m.Recent(), c.now, windows(key))| < c.limit)
  {
    StepHistories(w, c, windows, key);
  }

  lemma MoveSplits(m: Move, limit: nat, window: int)
    requires limit > 0 && Split(m.earlier, m.history, m.drops, limit, window, m.now)
    requires m.hit ==> |Fresh(m.Recent(), m.now, window)| < limit
    ensures Split(m.Earlier(), m.History(), m.AfterDrops(), limit, window, m.now)
  {
    if m.dropped {
      DropSplits(m.earlier, m.history, m.drops, limit, window, m.now);
    }
    if m.hit {
      AcceptSplits(m.Earlier(), m.Recent(), m.AfterDrops(), limit, window, m.now);
    } else {
      assert m.History() == m.Recent();
    }
  }

  lemma StepSplits(w: World, c: Call, windows: Windows, key: string, limit: nat)
    requires limit > 0 && (c.key == key ==> c.limit == limit)
    requires c.key == key ==> Decision(w, c, windows) == FullDecision(w, c, windows)
    requires KeySplit(w, key, limit, windows(key), c.now)
    ensures KeySplit(Step(w, c, windows), key, limit, windows(key), c.now)
  {
    StepMoves(w, c, windows, key);
    MoveSplits(MoveOf(w, c, windows, key), limit, windows(key));
  }

  lemma LaterSplit(w: World, key: string, limit: nat, window: int, now: int, later: int)
    requires KeySplit(w, key, limit, window, now) && now <= later
    ensures KeySplit(w, key, limit, window, later)
  {
  }

  lemma StepSplitsLater(w: World, c: Call, windows: Windows, key: string, limit: nat, clock: int)
    requires limit > 0 && c.now <= clock && (c.key == key ==> c.limit == limit)
    requires windows(key) <= DAY && KeyOk(w, c.now, windows, key) && KeySplit(w, key, limit, windows(key), c.now)
    ensures KeySplit(Step(w, c, windows), key, limit, windows(key), clock)
  {
    if c.key == key {
      StepDecides(w, c, windows);
    }
    StepSplits(w, c, windows, key, limit);
    LaterSplit(Step(w, c, windows), key, limit, windows(key), c.now, clock);
  }

  ghost predicate OneLimit(calls: seq<Call>, key: string, limit: nat) {
    forall c | c in calls && c.key == key :: c.limit == limit
  }

  lemma NextSplits(calls: seq<Call>, c: Call, windows: Windows, clock: int, key: string, limit: nat)
    requires Ordered(calls) && (calls != [] ==> calls[|calls| - 1].now <= c.now) && c.now <= clock
    requires limit > 0 && windows(key) <= DAY && (c.key == key ==> c.limit == limit)
    requires KeySplit(Run(calls, windows), key, limit, windows(key), c.now)
    ensures KeySplit(Step(Run(calls, windows), c, windows), key, limit, windows(key), clock)
  {
    RunRefines(calls, windows, c.now, key);
    StepSplitsLater(Run(calls, windows), c, windows, key, limit, clock);
  }

  lemma EmptySplits(key: string, limit: nat, window: int, clock: int)
    ensures KeySplit(EMPTY, key, limit, window, clock)
  {
    assert Stamps(map[], key) == [];
    assert Split([], [], 0, limit, window, clock);
  }

  lemma {:induction false} RunSplits(calls: seq<Call>, windows: Windows, clock: int, key: string, limit: nat)
    requires Ordered(calls) && limit > 0 && windows(key) <= DAY && OneLimit(calls, key, limit)
    requires calls != [] ==> calls[|calls| - 1].now <= clock
    ensures KeySplit(Run(calls, windows), key, limit, windows(key), clock)
  {
    if calls != [] {
      var init, c := calls[..|calls| - 1], calls[|calls| - 1];
      assert c in calls;
      RunSplits(init, windows, c.now, key, limit);
      NextSplits(init, c, windows, clock, key, limit);
    } else {
      EmptySplits(key, limit, windows(key), clock);
    }
  }

  /** Any (drops + 1) * limit + 1 consecutive hits span at least a window. */
  ghost predicate KeySpaced(w: World, key: string, limit: nat, window: int) {
    Spaced(Accepted(w, key), (w.drops + 1) * limit, window) &&
    (w.drops == 0 ==> Spaced(Accepted(w, key), limit, window))
  }

  lemma SplitKeySpaced(w: World, key: string, limit: nat, window: int, upTo: int)
    requires KeySplit(w, key, limit, window, upTo)
    ensures KeySpaced(w, key, limit, window)
  {
    SplitIsSpaced(Stamps(w.earlier, key), Stamps(w.history, key), w.drops, limit, window, upTo);
    TimesIsProduct(w.drops + 1, limit);
    TimesIsProduct(1, limit);
  }

  /** With one limit per key, in a run with d drops of the whole map any (d + 1) * limit + 1
      consecutive accepted hits of a key span at least a window. Without a drop no interval
      shorter than a window ever holds more than `limit` accepted hits. */
  lemma LimitHolds(calls: seq<Call>, windows: Windows, key: string, limit: nat)
    requires Ordered(calls) && limit > 0 && windows(key) <= DAY && OneLimit(calls, key, limit)
    ensures KeySpaced(Run(calls, windows), key, limit, windows(key))
  {
    var clock := if calls == [] then 0 else calls[|calls| - 1].now;
    RunSplits(calls, windows, clock, key, limit);
    SplitKeySpaced(Run(calls, windows), key, limit, windows(key), clock);
  }

  /** A drop forgets: the call that causes it is accepted whatever was accepted before. */
  lemma DropAccepts(w: World, c: Call, windows: Windows)
    requires DropsMap(w, c)
    ensures Decision(w, c, windows) && Step(w, c, windows).history == map[c.key := [c.now]]
  {
    assert Swept(w.hits, c.now) == map[] && Fresh([], c.now, windows(c.key)) == [];
    assert Stamps(map[], c.key) + [c.now] == [c.now];
  }

  // ----- A run with as many hits as the drops allow -----

  ghost predicate AllAtZero(hits: seq<int>) {
    forall i | 0 <= i < |hits| :: hits[i] == 0
  }

  lemma {:induction false} FreshAtZero(hits: seq<int>, window: int)
    requires AllAtZero(hits) && window > 0
    ensures Fresh(hits, 0, window) == hits
  {
    if hits != [] {
      FreshAtZero(hits[..|hits| - 1], window);
    }
  }

  /** Calls at time 0 that all ask for the same limit. */
  ghost predicate Burst(calls: seq<Call>, limit: nat) {
    forall c | c in calls :: c.now == 0 && c.limit == limit
  }

  /** The map holds k hits of `key` and hits of n other keys, which are not much longer. */
  ghost predicate Filled(hits: Hits, key: string, k: nat, n: nat) {
    && |hits| == n + 1 && key in hits && |hits[key]| == k
    && forall x | x in hits :: |hits[x]| > 0 && AllAtZero(hits[x]) && |x| <= |key| + n
  }

  /** This many hits of `key` were accepted. */
  ghost predicate Logged(w: World, key: string, count: nat) {
    |Accepted(w, key)| == count && AllAtZero(Accepted(w, key))
  }

  ghost predicate Reached(w: World, key: string, limit: nat, d: nat, k: nat, n: nat) {
    w.drops == d && Filled(w.hits, key, k, n) && Logged(w, key, Times(d, limit) + k)
  }

  lemma FilledDrops(hits: Hits, key: string, k: nat)
    requires Filled(hits, key, k, MAX_TRACKED_KEYS)
    ensures Drops(hits, 0)
  {
    assert Kept(hits, 0) == hits;
  }

  lemma Next(calls: seq<Call>, c: Call, windows: Windows, limit: nat)
    requires Burst(calls, limit) && c.now == 0 && c.limit == limit
    ensures Burst(calls + [c], limit) && Run(calls + [c], windows) == Step(Run(calls, windows), c, windows)
  {
    assert (calls + [c])[..|calls + [c]| - 1] == calls;
  }

  lemma LogsHit(w: World, windows: Windows, key: string, limit: nat, count: nat)
    requires limit > 0 && Logged(w, key, count) && Decision(w, Call(key, limit, 0), windows)
    ensures Logged(Step(w, Call(key, limit, 0), windows), key, count + 1)
  {
    NothingForgotten(w, Call(key, limit, 0), windows, key);
  }

  lemma HitFills(hits: Hits, key: string, limit: nat, window: int, k: nat)
    requires window > 0 && Filled(hits, key, k, 0) && k < limit
    ensures Filled(AfterAllow(hits, key, limit, window, 0), key, k + 1, 0)
    ensures Allowed(Stamps(Swept(hits, 0), key), limit, window, 0)
  {
    FreshAtZero(hits[key], window);
    assert hits[key := hits[key] + [0]].Keys == hits.Keys;
  }

  lemma OneMoreHit(w: World, windows: Windows, key: string, limit: nat, d: nat, k: nat)
    requires windows(key) > 0 && Reached(w, key, limit, d, k, 0) && k < limit
    ensures Reached(Step(w, Call(key, limit, 0), windows), key, limit, d, k + 1, 0)
  {
    HitFills(w.hits, key, limit, windows(key), k);
    LogsHit(w, windows, key, limit, Times(d, limit) + k);
  }

  lemma OneMoreKey(w: World, windows: Windows, key: string, other: string, limit: nat, d: nat, k: nat, n: nat)
    requires limit > 0 && Reached(w, key, limit, d, k, n) && n < MAX_TRACKED_KEYS && |other| == |key| + n + 1
    ensures Reached(Step(w, Call(other, limit, 0), windows), key, limit, d, k, n + 1)
  {
    NothingForgotten(w, Call(other, limit, 0), windows, key);
    assert other !in w.hits;
    assert w.hits[other := [0]].Keys == w.hits.Keys + {other};
  }

  lemma AloneInMap(hits: Hits, key: string, limit: nat, window: int)
    requires limit > 0 && Swept(hits, 0) == map[]
    ensures Filled(AfterAllow(hits, key, limit, window, 0), key, 1, 0)
  {
    assert Fresh(Stamps(map[], key), 0, window) + [0] == [0];
    var single: Hits := map[key := [0]];
    assert single.Keys == {key} && |single| == |single.Keys|;
  }

  lemma FirstHit(windows: Windows, key: string, limit: nat)
    requires limit > 0
    ensures Reached(Step(EMPTY, Call(key, limit, 0), windows), key, limit, 0, 1, 0)
  {
    AloneInMap(map[], key, limit, windows(key));
    LogsHit(EMPTY, windows, key, limit, 0);
  }

  lemma OneDrop(w: World, windows: Windows, key: string, limit: nat, d: nat)
    requires limit > 0 && Reached(w, key, limit, d, limit, MAX_TRACKED_KEYS)
    ensures Reached(Step(w, Call(key, limit, 0), windows), key, limit, d + 1, 1, 0)
  {
    FilledDrops(w.hits, key, limit);
    AloneInMap(w.hits, key, limit, windows(key));
    DropAccepts(w, Call(key, limit, 0), windows);
    LogsHit(w, windows, key, limit, Times(d, limit) + limit);
  }

  ghost predicate At(calls: seq<Call>, windows: Windows, key: string, limit: nat, d: nat, k: nat, n: nat) {
    Burst(calls, limit) && Reached(Run(calls, windows), key, limit, d, k, n)
  }

  lemma StartEmpty(windows: Windows, key: string, limit: nat) returns (calls: seq<Call>)
    requires 0 < limit
    ensures At(calls, windows, key, limit, 0, 1, 0)
  {
    FirstHit(windows, key, limit);
    Next([], Call(key, limit, 0), windows, limit);
    calls := [] + [Call(key, limit, 0)];
  }

  lemma StartAgain(calls: seq<Call>, windows: Windows, key: string, limit: nat, d: nat) returns (calls': seq<Call>)
    requires 0 < limit && At(calls, windows, key, limit, d, limit, MAX_TRACKED_KEYS)
    ensures At(calls', windows, key, limit, d + 1, 1, 0)
  {
    OneDrop(Run(calls, windows), windows, key, limit, d);
    Next(calls, Call(key, limit, 0), windows, limit);
    calls' := calls + [Call(key, limit, 0)];
  }

  lemma {:induction false} FillKey(calls: seq<Call>, windows: Windows, key: string, limit: nat, d: nat, k: nat)
    returns (calls': seq<Call>)
    requires windows(key) > 0 && 0 < k <= limit && At(calls, windows, key, limit, d, 1, 0)
    ensures At(calls', windows, key, limit, d, k, 0)
    decreases k
  {
    if k == 1 {
      calls' := calls;
    } else {
      calls' := FillKey(calls, windows, key, limit, d, k - 1);
      OneMoreHit(Run(calls', windows), windows, key, limit, d, k - 1);
      Next(calls', Call(key, limit, 0), windows, limit);
      calls' := calls' + [Call(key, limit, 0)];
    }
  }

  lemma {:induction false} FillMap(calls: seq<Call>, windows: Windows, key: string, limit: nat, d: nat, n: nat)
    returns (calls': seq<Call>)
    requires 0 < limit && n <= MAX_TRACKED_KEYS && At(calls, windows, key, limit, d, limit, 0)
    ensures At(calls', windows, key, limit, d, limit, n)
    decreases n
  {
    if n == 0 {
      calls' := calls;
    } else {
      calls' := FillMap(calls, windows, key, limit, d, n - 1);
      var other := key + seq(n, _ => 'k');
      OneMoreKey(Run(calls', windows), windows, key, other, limit, d, limit, n - 1);
      Next(calls', Call(other, limit, 0), windows, limit);
      calls' := calls' + [Call(other, limit, 0)];
    }
  }

  lemma FirstRound(windows: Windows, key: string, limit: nat) returns (calls: seq<Call>)
    requires windows(key) > 0 && 0 < limit
    ensures At(calls, windows, key, limit, 0, limit, 0)
  {
    calls := StartEmpty(windows, key, limit);
    calls := FillKey(calls, windows, key, limit, 0, limit);
  }

  lemma OneRound(calls: seq<Call>, windows: Windows, key: string, limit: nat, d: nat) returns (calls': seq<Call>)
    requires windows(key) > 0 && 0 < limit && At(calls, windows, key, limit, d, limit, 0)
    ensures At(calls', windows, key, limit, d + 1, limit, 0)
  {
    calls' := FillMap(calls, windows, key, limit, d, MAX_TRACKED_KEYS);
    calls' := StartAgain(calls', windows, key, limit, d);
    calls' := FillKey(calls', windows, key, limit, d + 1, limit);
  }

  lemma {:induction false} ManyDrops(windows: Windows, key: string, limit: nat, d: nat) returns (calls: seq<Call>)
    requires windows(key) > 0 && 0 < limit
    ensures At(calls, windows, key, limit, d, limit, 0)
  {
    if d == 0 {
      calls := FirstRound(windows, key, limit);
    } else {
      var before := ManyDrops(windows, key, limit, d - 1);
      calls := OneRound(before, windows, key, limit, d - 1);
    }
  }

  /** The bound of LimitHolds is attained for every key, limit and number of drops: fill the
      key, fill the map with other keys and call the key again, which drops the map. After d
      drops (d + 1) * limit hits lie at one instant, more than the limit as soon as d > 0. */
  lemma DropsExceedLimit(windows: Windows, key: string, limit: nat, d: nat) returns (calls: seq<Call>)
    requires windows(key) > 0 && limit > 0
    ensures Ordered(calls) && OneLimit(calls, key, limit) && Run(calls, windows).drops == d
    ensures var hits := Accepted(Run(calls, windows), key);
            |hits| == (d + 1) * limit && AllAtZero(hits) && (d > 0 ==> !Spaced(hits, limit, windows(key)))
  {
    calls := ManyDrops(windows, key, limit, d);
    TimesIsProduct(d + 1, limit);
    if d > 0 {
      assert !Apart(Accepted(Run(calls, windows), key), 0, limit, windows(key));
    }
  }

  // ----- A drop needs many active keys -----

  lemma {:induction false} StaleTail(stamps: seq<int>, now: int, window: int, upTo: int)
    requires Sorted(stamps, upTo) && upTo <= now - window
    ensures Fresh(stamps, now, window) == []
  {
    if stamps != [] {
      StaleTail(stamps[..|stamps| - 1], now, window, stamps[|stamps| - 1]);
    }
  }

  function Last(stamps: seq<int>): int
    requires stamps != []
  {
    stamps[|stamps| - 1]
  }

  lemma FreshLast(stamps: seq<int>, now: int, window: int, upTo: int)
    requires Sorted(stamps, upTo) && Fresh(stamps, now, window) != []
    ensures Last(Fresh(stamps, now, window)) == Last(stamps)
  {
    if now - Last(stamps) >= window {
      StaleTail(stamps[..|stamps| - 1], now, window, Last(stamps));
    }
  }

  /** What the map holds of a key ends with its last accepted hit. */
  ghost predicate LastKnown(w: World, key: string) {
    var stamps, history := Stamps(w.hits, key), Stamps(w.history, key);
    stamps != [] ==> history != [] && Last(stamps) == Last(history)
  }

  lemma StepLast(w: World, c: Call, windows: Windows, key: string)
    requires KeyOk(w, c.now, windows, key) && LastKnown(w, key)
    ensures LastKnown(Step(w, c, windows), key)
  {
    if c.limit > 0 {
      StepStamps(w, c, windows, key);
      var stamps := Stamps(Swept(w.hits, c.now), key);
      if Fresh(stamps, c.now, windows(key)) != [] {
        FreshLast(stamps, c.now, windows(key), c.now);
      }
    }
  }

  lemma {:induction false} RunLast(calls: seq<Call>, windows: Windows, key: string)
    requires Ordered(calls) && windows(key) <= DAY
    ensures LastKnown(Run(calls, windows), key)
  {
    if calls != [] {
      var init, c := calls[..|calls| - 1], calls[|calls| - 1];
      RunRefines(init, windows, c.now, key);
      RunLast(init, windows, key);
      StepLast(Run(init, windows), c, windows, key);
    }
  }

  /** The keys with a hit accepted less than 24 hours ago and since the last drop. */
  ghost function Active(w: World, now: int): set<string> {
    set key | key in w.history && w.history[key] != [] && now - Last(w.history[key]) < 86_400 * 1_000_000_000
  }

  /** In every ordered run the map is dropped only when more than 65536 keys are active. */
  lemma DropNeedsActiveKeys(calls: seq<Call>, windows: Windows, c: Call)
    requires Ordered(calls) && (forall key :: windows(key) <= DAY)
    requires DropsMap(Run(calls, windows), c)
    ensures |Active(Run(calls, windows), c.now)| > 65536
  {
    var w := Run(calls, windows);
    var used := UsedWithinADay(w.hits, c.now);
    SweepIs(w.hits, c.now);
    forall key | key in used
      ensures key in Active(w, c.now)
    {
      RunLast(calls, windows, key);
    }
    SubsetSize(used.Keys, Active(w, c.now));
  }

  lemma {:induction false} SubsetSize<T>(a: set<T>, b: set<T>)
    requires a <= b
    ensures |a| <= |b|
  {
    if a != {} {
      var x :| x in a;
      SubsetSize(a - {x}, b - {x});
    }
  }

  /** In every run whatsoever the map holds at most one key more than the bound. */
  lemma {:induction false} MapBounded(calls: seq<Call>, windows: Windows)
    ensures |Run(calls, windows).hits| <= MAX_TRACKED_KEYS + 1
  {
    if calls != [] {
      var w, c := Run(calls[..|calls| - 1], windows), calls[|calls| - 1];
      MapBounded(calls[..|calls| - 1], windows);
      if c.limit > 0 {
        var swept := Swept(w.hits, c.now);
        assert |swept| <= MAX_TRACKED_KEYS;
        assert Step(w, c, windows).hits.Keys == swept.Keys + {c.key};
        assert |swept.Keys + {c.key}| <= |swept.Keys| + 1;
      }
    }
  }
}
