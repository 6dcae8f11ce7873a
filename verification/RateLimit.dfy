/**
 * The cache-backed request counter, with any number of requests interleaved at every cache
 * operation. A request peeks, and then counts itself in up to three operations: add, increment,
 * and, if the counter expired between those two, set.
 */
module RateLimit {
  import opened Common
  import opened Caching

  /** `rate_limit_would_exceed`. */
  predicate WouldExceed(c: Cache, key: string, limit: int) {
    limit > 0 && Get(c, key, 0) >= limit
  }

  // ---- Interleaved requests ---------------------------------------------------------------------------

  /** The cache operation a request performs next. */
  datatype Phase = Adding | Counting | Restarting | Over

  /** `legacy`: counted first and compared afterwards, by `rate_limit_exceeded`. */
  datatype Request = Request(key: string, legacy: bool, phase: Phase)

  /** An admitted request: when it was counted, and in which of the key's windows. */
  datatype Hit = Hit(key: string, time: nat, start: int, window: nat)

  /** `begun` counts the windows of a key: the times its counter was created anew. */
  datatype Limiter = Limiter(cache: Cache, begun: map<string, nat>, requests: seq<Request>, hits: seq<Hit>)

  const IDLE := Limiter(Cache(0, map[]), map[], [], [])

  datatype Op =
    | Wait(seconds: nat)
    | Ask(key: string)
    | AskLegacy(key: string)
    | Go(i: nat)

  function Window(l: Limiter, key: string): nat {
    if key in l.begun then l.begun[key] else 0
  }

  function Move(l: Limiter, i: nat, phase: Phase): Limiter
    requires i < |l.requests|
  {
    l.(requests := l.requests[i := l.requests[i].(phase := phase)])
  }

  /** Request `i` has been counted as number `value`, in a new window or in the running one. */
  function Count(l: Limiter, i: nat, c: Cache, anew: bool, value: nat, limit: int, window: nat): Limiter
    requires i < |l.requests| && l.requests[i].key in c.entries
  {
    var r := l.requests[i];
    var w := Window(l, r.key) + (if anew then 1 else 0);
    var hit := Hit(r.key, c.now, c.entries[r.key].expiresAt - window, w);
    Move(Limiter(c, l.begun[r.key := w], l.requests,
                 if r.legacy && value > limit then l.hits else l.hits + [hit]), i, Over)
  }

  function Next(l: Limiter, i: nat, limit: int, window: nat): Limiter
    requires i < |l.requests|
  {
    var key := l.requests[i].key;
    match l.requests[i].phase
    case Adding =>
      var (c, anew) := Add(l.cache, key, 1, window);
      if anew then Count(l, i, c, true, 1, limit, window) else Move(l, i, Counting)
    case Counting =>
      var (c, value) := Incr(l.cache, key);
      if value.Some? then Count(l, i, c, false, value.value, limit, window) else Move(l, i, Restarting)
    case Restarting => Count(l, i, Set(l.cache, key, 1, window), true, 1, limit, window)
    case Over => l
  }

  function Step(l: Limiter, limit: int, window: nat, op: Op): Limiter {
    match op
    case Wait(d) => l.(cache := Pass(l.cache, d))
    case Ask(key) =>
      if WouldExceed(l.cache, key, limit) then l else l.(requests := l.requests + [Request(key, false, Adding)])
    case AskLegacy(key) =>
      if limit <= 0 then l else l.(requests := l.requests + [Request(key, true, Adding)])
    case Go(i) => if i < |l.requests| then Next(l, i, limit, window) else l
  }

  function Run(l: Limiter, limit: int, window: nat, ops: seq<Op>): Limiter
    decreases |ops|
  {
    if ops == [] then l else Step(Run(l, limit, window, ops[..|ops| - 1]), limit, window, ops[|ops| - 1])
  }

  lemma Then(l: Limiter, limit: int, window: nat, ops: seq<Op>, op: Op)
    ensures Run(l, limit, window, ops + [op]) == Step(Run(l, limit, window, ops), limit, window, op)
  {
    hide Step;
    assert (ops + [op])[..|ops|] == ops;
  }

  // ---- Counting ---------------------------------------------------------------------------------------

  function InWindow(hits: seq<Hit>, key: string, window: nat): nat {
    if hits == [] then 0
    else
      var h := hits[|hits| - 1];
      InWindow(hits[..|hits| - 1], key, window) + (if h.key == key && h.window == window then 1 else 0)
  }

  predicate Between(h: Hit, key: string, lo: nat, hi: nat) {
    h.key == key && lo <= h.time < hi
  }

  function InInterval(hits: seq<Hit>, key: string, lo: nat, hi: nat): nat {
    if hits == [] then 0
    else
      InInterval(hits[..|hits| - 1], key, lo, hi) + (if Between(hits[|hits| - 1], key, lo, hi) then 1 else 0)
  }

  /** The requests of a key that have begun and are not counted yet. */
  function Open(requests: seq<Request>, key: string): nat {
    if requests == [] then 0
    else
      var r := requests[|requests| - 1];
      Open(requests[..|requests| - 1], key) + (if r.key == key && !r.phase.Over? then 1 else 0)
  }

  /** Those among them that a peek has let through. */
  function Peeked(requests: seq<Request>, key: string): nat {
    if requests == [] then 0
    else
      var r := requests[|requests| - 1];
      Peeked(requests[..|requests| - 1], key) + (if r.key == key && !r.phase.Over? && !r.legacy then 1 else 0)
  }

  /** Those that found the counter gone and are about to create it anew. */
  function Restarts(requests: seq<Request>, key: string): nat {
    if requests == [] then 0
    else
      var r := requests[|requests| - 1];
      Restarts(requests[..|requests| - 1], key) + (if r.key == key && r.phase.Restarting? then 1 else 0)
  }

  /** At no time of the run are more than `k` requests of the key open. */
  predicate AtMostOpen(limit: int, window: nat, ops: seq<Op>, key: string, k: nat)
    decreases |ops|
  {
    && Open(Run(IDLE, limit, window, ops).requests, key) <= k
    && (ops != [] ==> AtMostOpen(limit, window, ops[..|ops| - 1], key, k))
  }

  lemma Appended(hits: seq<Hit>, h: Hit, key: string, window: nat)
    ensures InWindow(hits + [h], key, window) == InWindow(hits, key, window) + (if h.key == key && h.window == window then 1 else 0)
  {
    assert (hits + [h])[..|hits|] == hits;
  }

  lemma Begun(requests: seq<Request>, r: Request, key: string)
    ensures Open(requests + [r], key) == Open(requests, key) + (if r.key == key && !r.phase.Over? then 1 else 0)
    ensures Peeked(requests + [r], key) == Peeked(requests, key) + (if r.key == key && !r.phase.Over? && !r.legacy then 1 else 0)
    ensures Restarts(requests + [r], key) == Restarts(requests, key) + (if r.key == key && r.phase.Restarting? then 1 else 0)
  {
    assert (requests + [r])[..|requests|] == requests;
  }

  lemma {:induction false} Moved(requests: seq<Request>, i: nat, phase: Phase, key: string)
    requires i < |requests| && !requests[i].phase.Over?
    ensures var requests' := requests[i := requests[i].(phase := phase)];
            && Open(requests', key) == Open(requests, key) - (if requests[i].key == key && phase.Over? then 1 else 0)
            && Peeked(requests', key) == Peeked(requests, key) - (if requests[i].key == key && phase.Over? && !requests[i].legacy then 1 else 0)
    ensures requests[i].key == key ==> Open(requests, key) > 0
    ensures requests[i].key == key && requests[i].legacy ==> Peeked(requests, key) < Open(requests, key)
  {
    var n := |requests| - 1;
    var requests' := requests[i := requests[i].(phase := phase)];
    PeekedIsOpen(requests[..n], key);
    if i < n {
      assert requests'[..n] == requests[..n][i := requests[i].(phase := phase)];
      Moved(requests[..n], i, phase, key);
    } else {
      assert requests'[..n] == requests[..n];
    }
  }

  lemma {:induction false} PeekedIsOpen(requests: seq<Request>, key: string)
    ensures Peeked(requests, key) <= Open(requests, key)
  {
    if requests != [] {
      PeekedIsOpen(requests[..|requests| - 1], key);
    }
  }

  // ---- At most `limit + k - 1` in a window ------------------------------------------------------------

  /** The counter covers the hits of the running window, and no window numbered higher has any. */
  predicate CounterOk(l: Limiter, key: string) {
    && (key in l.cache.entries ==> InWindow(l.hits, key, Window(l, key)) <= l.cache.entries[key].value)
    && (key !in l.cache.entries ==> InWindow(l.hits, key, Window(l, key)) == 0)
  }

  ghost predicate NoLaterWindow(l: Limiter, key: string) {
    forall w: nat :: w > Window(l, key) ==> InWindow(l.hits, key, w) == 0
  }

  ghost predicate WindowsBounded(l: Limiter, key: string, bound: nat) {
    forall w: nat :: InWindow(l.hits, key, w) <= bound
  }

  /** The places taken in the running window, and those that a peek has promised. */
  predicate PromisesBounded(l: Limiter, key: string, bound: nat) {
    Live(l.cache, key) ==> InWindow(l.hits, key, Window(l, key)) + Peeked(l.requests, key) <= bound
  }

  ghost predicate KeyOk(l: Limiter, key: string, bound: nat) {
    CounterOk(l, key) && NoLaterWindow(l, key) && WindowsBounded(l, key, bound) && PromisesBounded(l, key, bound)
  }

  lemma CountHits(l: Limiter, i: nat, c: Cache, anew: bool, value: nat, limit: int, window: nat, key: string, w: nat)
    requires i < |l.requests| && l.requests[i].key in c.entries && !l.requests[i].phase.Over?
    ensures var l' := Count(l, i, c, anew, value, limit, window); var r := l.requests[i];
            && InWindow(l'.hits, key, w) == InWindow(l.hits, key, w)
               + (if r.key == key && w == Window(l', key) && !(r.legacy && value > limit) then 1 else 0)
            && (r.key != key ==> Window(l', key) == Window(l, key))
            && (r.key == key ==> Window(l', key) == Window(l, key) + (if anew then 1 else 0))
            && Peeked(l'.requests, key) == Peeked(l.requests, key) - (if r.key == key && !r.legacy then 1 else 0)
  {
    hide InWindow, Open, Peeked;
    var l', r := Count(l, i, c, anew, value, limit, window), l.requests[i];
    Moved(l.requests, i, Over, key);
    Appended(l.hits, Hit(r.key, c.now, c.entries[r.key].expiresAt - window, Window(l', r.key)), key, w);
  }

  /** Counting in the running window: `c` is the cache after the increment. */
  lemma ContinueKeeps(l: Limiter, i: nat, c: Cache, value: nat, limit: int, window: nat, key: string, k: nat)
    requires limit > 0 && k > 0 && KeyOk(l, key, limit - 1 + k) && Open(l.requests, key) <= k
    requires i < |l.requests| && l.requests[i].phase.Counting? && Incr(l.cache, l.requests[i].key) == (c, Some(value))
    ensures KeyOk(Count(l, i, c, false, value, limit, window), key, limit - 1 + k)
  {
    var l' := Count(l, i, c, false, value, limit, window);
    Moved(l.requests, i, Over, key);
    forall w: nat ensures w > Window(l', key) ==> InWindow(l'.hits, key, w) == 0
      ensures InWindow(l'.hits, key, w) <= limit - 1 + k
    {
      CountHits(l, i, c, false, value, limit, window, key, w);
    }
    CountHits(l, i, c, false, value, limit, window, key, Window(l', key));
  }

  /** A new window starts with one hit; everybody else who was let through is still to come. */
  lemma RestartKeeps(l: Limiter, i: nat, limit: int, window: nat, key: string, k: nat)
    requires limit > 0 && k > 0 && KeyOk(l, key, limit - 1 + k) && Open(l.requests, key) <= k
    requires i < |l.requests| && !l.requests[i].phase.Over?
    ensures KeyOk(Count(l, i, Set(l.cache, l.requests[i].key, 1, window), true, 1, limit, window), key, limit - 1 + k)
  {
    var c := Set(l.cache, l.requests[i].key, 1, window);
    var l' := Count(l, i, c, true, 1, limit, window);
    Moved(l.requests, i, Over, key);
    PeekedIsOpen(l.requests, key);
    forall w: nat ensures w > Window(l', key) ==> InWindow(l'.hits, key, w) == 0
      ensures InWindow(l'.hits, key, w) <= limit - 1 + k
    {
      CountHits(l, i, c, true, 1, limit, window, key, w);
    }
    CountHits(l, i, c, true, 1, limit, window, key, Window(l', key));
  }

  lemma MoveKeeps(l: Limiter, i: nat, phase: Phase, key: string, bound: nat)
    requires KeyOk(l, key, bound) && i < |l.requests| && !l.requests[i].phase.Over? && !phase.Over?
    ensures KeyOk(Move(l, i, phase), key, bound)
  {
    Moved(l.requests, i, phase, key);
  }

  lemma GoKeeps(l: Limiter, limit: int, window: nat, i: nat, key: string, k: nat)
    requires limit > 0 && k > 0 && KeyOk(l, key, limit - 1 + k) && Open(l.requests, key) <= k && i < |l.requests|
    ensures KeyOk(Next(l, i, limit, window), key, limit - 1 + k)
  {
    hide KeyOk, Open, Count;
    var r := l.requests[i];
    if !r.phase.Over? {
      if r.phase.Counting? && Live(l.cache, r.key) {
        var (c, value) := Incr(l.cache, r.key);
        ContinueKeeps(l, i, c, value.value, limit, window, key, k);
      } else if r.phase.Restarting? || (r.phase.Adding? && !Live(l.cache, r.key)) {
        RestartKeeps(l, i, limit, window, key, k);
      } else {
        MoveKeeps(l, i, if r.phase.Adding? then Counting else Restarting, key, limit - 1 + k);
      }
    }
  }

  /** A peek that lets a request through sees fewer hits than the limit. */
  lemma AskKeeps(l: Limiter, limit: int, r: Request, key: string, k: nat)
    requires limit > 0 && k > 0 && KeyOk(l, key, limit - 1 + k) && Open(l.requests + [r], key) <= k
    requires r.phase.Adding? && (!r.legacy ==> !WouldExceed(l.cache, r.key, limit))
    ensures KeyOk(l.(requests := l.requests + [r]), key, limit - 1 + k)
  {
    hide InWindow, Open, Peeked, Restarts;
    Begun(l.requests, r, key);
    PeekedIsOpen(l.requests + [r], key);
  }

  lemma WaitKeeps(l: Limiter, d: nat, key: string, bound: nat)
    requires KeyOk(l, key, bound)
    ensures KeyOk(l.(cache := Pass(l.cache, d)), key, bound)
  {
    hide InWindow, Peeked;
  }

  lemma StepKeeps(l: Limiter, limit: int, window: nat, op: Op, key: string, k: nat)
    requires limit > 0 && k > 0 && KeyOk(l, key, limit - 1 + k) && Open(l.requests, key) <= k
    requires Open(Step(l, limit, window, op).requests, key) <= k
    ensures KeyOk(Step(l, limit, window, op), key, limit - 1 + k)
  {
    hide KeyOk, Open, Next;
    match op {
      case Wait(d) => WaitKeeps(l, d, key, limit - 1 + k);
      case Ask(other) =>
        if !WouldExceed(l.cache, other, limit) { AskKeeps(l, limit, Request(other, false, Adding), key, k); }
      case AskLegacy(other) => AskKeeps(l, limit, Request(other, true, Adding), key, k);
      case Go(i) => if i < |l.requests| { GoKeeps(l, limit, window, i, key, k); }
    }
  }

  lemma {:induction false} WindowsStayBounded(limit: int, window: nat, ops: seq<Op>, key: string, k: nat)
    requires limit > 0 && k > 0 && AtMostOpen(limit, window, ops, key, k)
    ensures KeyOk(Run(IDLE, limit, window, ops), key, limit - 1 + k)
    decreases |ops|
  {
    hide Step;
    if ops != [] {
      var before := ops[..|ops| - 1];
      WindowsStayBounded(limit, window, before, key, k);
      StepKeeps(Run(IDLE, limit, window, before), limit, window, ops[|ops| - 1], key, k);
    }
  }

  /**
   * Whatever the interleaving of peeks and counts, and wherever the counter expires: if never more
   * than `k` requests of a key are open, each window admits at most `limit + k - 1`.
   */
  lemma AtMostLimitAndRacers(limit: int, window: nat, ops: seq<Op>, key: string, k: nat, w: nat)
    requires limit > 0 && k > 0 && AtMostOpen(limit, window, ops, key, k)
    ensures InWindow(Run(IDLE, limit, window, ops).hits, key, w) <= limit + k - 1
  {
    WindowsStayBounded(limit, window, ops, key, k);
  }

  /** So requests that come one at a time never exceed the limit. */
  lemma AtMostLimitPerWindow(limit: int, window: nat, ops: seq<Op>, key: string, w: nat)
    requires limit > 0 && AtMostOpen(limit, window, ops, key, 1)
    ensures InWindow(Run(IDLE, limit, window, ops).hits, key, w) <= limit
  {
    AtMostLimitAndRacers(limit, window, ops, key, 1, w);
  }

  // ---- At most `(k + 1) * (limit + k - 1) - 1` in an interval of a window's length --------------------

  lemma {:induction false} RestartMoved(requests: seq<Request>, i: nat, phase: Phase, key: string)
    requires i < |requests|
    ensures Restarts(requests[i := requests[i].(phase := phase)], key)
            + (if requests[i].key == key && requests[i].phase.Restarting? then 1 else 0)
            == Restarts(requests, key) + (if requests[i].key == key && phase.Restarting? then 1 else 0)
  {
    var n := |requests| - 1;
    var requests' := requests[i := requests[i].(phase := phase)];
    if i < n {
      assert requests'[..n] == requests[..n][i := requests[i].(phase := phase)];
      RestartMoved(requests[..n], i, phase, key);
    } else {
      assert requests'[..n] == requests[..n];
    }
  }

  lemma {:induction false} RestartIsOpen(requests: seq<Request>, key: string)
    ensures Restarts(requests, key) <= Open(requests, key)
  {
    if requests != [] {
      RestartIsOpen(requests[..|requests| - 1], key);
    }
  }

  /** Some hit of the window was counted when the window began. */
  ghost predicate Opened(hits: seq<Hit>, key: string, w: nat, start: int) {
    exists q :: 0 <= q < |hits| && Opens(hits[q], key, w, start)
  }

  predicate Opens(h: Hit, key: string, w: nat, start: int) {
    h.key == key && h.window == w && h.start == start && h.time == start
  }

  /**
   * A hit lies in its window, which began with a hit. The windows that have begun less than a window's
   * length after it, and the requests that may begin another, are fewer than the open requests.
   */
  ghost predicate HitOk(l: Limiter, key: string, window: nat, k: nat, p: nat)
    requires p < |l.hits|
  {
    var h := l.hits[p];
    h.key == key ==>
      && h.start <= h.time < h.start + window && h.time <= l.cache.now
      && 0 < h.window <= Window(l, key) && Opened(l.hits, key, h.window, h.start)
      && key in l.cache.entries && h.start + window <= l.cache.entries[key].expiresAt
      && (h.window == Window(l, key) ==> h.start + window == l.cache.entries[key].expiresAt)
      && (l.cache.now < h.start + window ==> Window(l, key) - h.window + Restarts(l.requests, key) < k)
  }

  /** A window's hits precede the next window, and fewer than `k` windows follow within a window's length. */
  predicate InOrder(g: Hit, h: Hit, window: nat, k: nat) {
    && (g.window == h.window ==> g.start == h.start)
    && (g.window < h.window ==> g.time <= h.start && (h.start < g.start + window ==> h.window - g.window < k))
  }

  ghost predicate HitsOk(l: Limiter, key: string, window: nat, k: nat) {
    && (forall p :: 0 <= p < |l.hits| ==> HitOk(l, key, window, k, p))
    && (forall p, q :: 0 <= p < |l.hits| && 0 <= q < |l.hits| && l.hits[p].key == key && l.hits[q].key == key ==>
          InOrder(l.hits[p], l.hits[q], window, k))
  }

  ghost predicate Began(hits: seq<Hit>, key: string, w: nat) {
    exists start: int :: Opened(hits, key, w, start)
  }

  /** Every window so far began with a hit. */
  ghost predicate AllOpened(l: Limiter, key: string) {
    forall w: nat :: 0 < w <= Window(l, key) ==> Began(l.hits, key, w)
  }

  ghost predicate WindowsOk(l: Limiter, key: string, window: nat, k: nat) {
    && HitsOk(l, key, window, k) && AllOpened(l, key)
    && (key in l.cache.entries ==> Opened(l.hits, key, Window(l, key), l.cache.entries[key].expiresAt - window))
  }

  lemma OpenedStays(hits: seq<Hit>, h: Hit, key: string, w: nat, start: int)
    requires Opened(hits, key, w, start)
    ensures Opened(hits + [h], key, w, start)
  {
    var q :| 0 <= q < |hits| && Opens(hits[q], key, w, start);
    assert (hits + [h])[q] == hits[q];
  }

  lemma AllOpenedStays(l: Limiter, l': Limiter, h: Hit, key: string)
    requires AllOpened(l, key) && (l'.hits == l.hits || l'.hits == l.hits + [h])
    requires Window(l', key) <= Window(l, key)
             || (l'.hits == l.hits + [h] && Window(l', key) == Window(l, key) + 1 && Opens(h, key, Window(l', key), h.start))
    ensures AllOpened(l', key)
  {
    forall w: nat | 0 < w <= Window(l', key) ensures Began(l'.hits, key, w) {
      if w <= Window(l, key) {
        assert Began(l.hits, key, w);
        var start: int :| Opened(l.hits, key, w, start);
        OpenedStays(l.hits, h, key, w, start);
      } else {
        assert l'.hits[|l.hits|] == h;
        assert Opened(l'.hits, key, w, h.start);
      }
    }
  }

  /** The hit that `Count` may add. */
  function HitOf(l: Limiter, i: nat, c: Cache, anew: bool, window: nat): Hit
    requires i < |l.requests| && l.requests[i].key in c.entries
  {
    var key := l.requests[i].key;
    Hit(key, c.now, c.entries[key].expiresAt - window, Window(l, key) + (if anew then 1 else 0))
  }

  /** Counting another key's request leaves this key's hits, counter and windows alone. */
  lemma OtherCounts(l: Limiter, i: nat, c: Cache, anew: bool, value: nat, limit: int, window: nat, key: string, k: nat)
    requires i < |l.requests| && l.requests[i].key in c.entries && l.requests[i].key != key && WindowsOk(l, key, window, k)
    requires c.now == l.cache.now && c.entries - {l.requests[i].key} == l.cache.entries - {l.requests[i].key}
    ensures WindowsOk(Count(l, i, c, anew, value, limit, window), key, window, k)
  {
    hide Restarts;
    var l', h := Count(l, i, c, anew, value, limit, window), HitOf(l, i, c, anew, window);
    SameEntry(c.entries, l.cache.entries, l.requests[i].key, key);
    RestartMoved(l.requests, i, Over, key);
    AllOpenedStays(l, l', h, key);
    forall p | 0 <= p < |l.hits| ensures HitOk(l', key, window, k, p) {
      assert HitOk(l, key, window, k, p);
      if l.hits[p].key == key { OpenedStays(l.hits, h, key, l.hits[p].window, l.hits[p].start); }
    }
    if key in l.cache.entries {
      OpenedStays(l.hits, h, key, Window(l, key), l.cache.entries[key].expiresAt - window);
    }
  }

  lemma SameEntry(a: map<string, Entry>, b: map<string, Entry>, other: string, key: string)
    requires a - {other} == b - {other} && key != other
    ensures key in a <==> key in b
    ensures key in a ==> a[key] == b[key]
  {
    assert key in a <==> key in a - {other};
    assert key in b <==> key in b - {other};
    if key in a {
      assert (a - {other})[key] == (b - {other})[key];
    }
  }

  /** What one more hit `h` in the running window means for hit `p`. */
  lemma EarlierHit(l: Limiter, l': Limiter, h: Hit, key: string, window: nat, k: nat, p: nat, q: nat)
    requires HitsOk(l, key, window, k) && p < |l.hits| && q < |l.hits| && l.hits[p].key == key
    requires h.key == key && h.window == Window(l, key) && Opens(l.hits[q], key, h.window, h.start)
    requires l'.cache.now == l.cache.now && Window(l', key) == Window(l, key)
    requires Restarts(l'.requests, key) == Restarts(l.requests, key)
    requires key in l.cache.entries && key in l'.cache.entries
    requires l'.cache.entries[key].expiresAt == l.cache.entries[key].expiresAt
    requires l'.hits == l.hits || l'.hits == l.hits + [h]
    ensures HitOk(l', key, window, k, p)
    ensures InOrder(l.hits[p], h, window, k) && InOrder(h, l.hits[p], window, k)
  {
    assert HitOk(l, key, window, k, p) && HitOk(l, key, window, k, q);
    assert InOrder(l.hits[p], l.hits[q], window, k) && InOrder(l.hits[q], l.hits[p], window, k);
    OpenedStays(l.hits, h, key, l.hits[p].window, l.hits[p].start);
  }

  /** One more hit in the running window. */
  lemma ContinueInOrder(l: Limiter, i: nat, limit: int, window: nat, key: string, k: nat)
    requires WindowsOk(l, key, window, k) && i < |l.requests| && l.requests[i].key == key && l.requests[i].phase.Counting?
    requires Live(l.cache, key)
    ensures WindowsOk(Next(l, i, limit, window), key, window, k)
  {
    hide Restarts, InOrder;
    var (c, value) := Incr(l.cache, key);
    var l', h := Next(l, i, limit, window), HitOf(l, i, c, false, window);
    assert l' == Count(l, i, c, false, value.value, limit, window);
    RestartMoved(l.requests, i, Over, key);
    AllOpenedStays(l, l', h, key);
    var q :| 0 <= q < |l.hits| && Opens(l.hits[q], key, h.window, h.start);
    OpenedStays(l.hits, h, key, h.window, h.start);
    assert HitOk(l, key, window, k, q);
    forall p | 0 <= p < |l.hits| && l.hits[p].key == key ensures HitOk(l', key, window, k, p)
      ensures InOrder(l.hits[p], h, window, k) && InOrder(h, l.hits[p], window, k)
    {
      EarlierHit(l, l', h, key, window, k, p, q);
    }
    SelfInOrder(h, window, k);
  }

  lemma SelfInOrder(h: Hit, window: nat, k: nat)
    ensures InOrder(h, h, window, k)
  {
  }

  /** What a new window, beginning with `h`, means for an older hit. */
  lemma OlderHit(l: Limiter, l': Limiter, h: Hit, key: string, window: nat, k: nat, p: nat)
    requires p < |l.hits| && HitOk(l, key, window, k, p) && l.hits[p].key == key
    requires l'.hits == l.hits + [h] && h.key == key && h.start == l.cache.now
    requires l.cache.now == l'.cache.now && Window(l', key) == h.window == Window(l, key) + 1
    requires key in l'.cache.entries && l'.cache.entries[key].expiresAt == h.start + window
    requires Live(l.cache, key) ==> Restarts(l'.requests, key) + 1 == Restarts(l.requests, key)
    ensures HitOk(l', key, window, k, p)
    ensures InOrder(l.hits[p], h, window, k) && InOrder(h, l.hits[p], window, k)
  {
    hide Restarts;
    OpenedStays(l.hits, h, key, l.hits[p].window, l.hits[p].start);
  }

  /** A new window; its first hit is admitted, the limit being positive. */
  lemma RestartInOrder(l: Limiter, i: nat, limit: int, window: nat, key: string, k: nat)
    requires WindowsOk(l, key, window, k) && i < |l.requests| && l.requests[i].key == key && !l.requests[i].phase.Over?
    requires l.requests[i].phase.Restarting? || !Live(l.cache, key)
    requires Open(l.requests, key) <= k && limit > 0 && window > 0
    ensures WindowsOk(Count(l, i, Set(l.cache, key, 1, window), true, 1, limit, window), key, window, k)
  {
    hide Open, InWindow, Peeked, Restarts, InOrder;
    var c := Set(l.cache, key, 1, window);
    var l', h := Count(l, i, c, true, 1, limit, window), HitOf(l, i, c, true, window);
    assert l'.hits == l.hits + [h] && h.time == h.start == c.now;
    AllOpenedStays(l, l', h, key);
    RestartMoved(l.requests, i, Over, key);
    Moved(l.requests, i, Over, key);
    RestartIsOpen(l'.requests, key);
    assert Opened(l'.hits, key, h.window, h.start) by { assert Opens(l'.hits[|l.hits|], key, h.window, h.start); }
    assert HitOk(l', key, window, k, |l.hits|);
    hide Opened, HitOk;
    forall p | 0 <= p < |l.hits| && l.hits[p].key == key ensures HitOk(l', key, window, k, p)
      ensures InOrder(l.hits[p], h, window, k) && InOrder(h, l.hits[p], window, k)
    {
      OlderHit(l, l', h, key, window, k, p);
    }
    forall p | 0 <= p < |l.hits| && l.hits[p].key != key ensures HitOk(l', key, window, k, p) {
      OtherHit(l', key, window, k, p);
    }
    SelfInOrder(h, window, k);
  }

  lemma OtherHit(l: Limiter, key: string, window: nat, k: nat, p: nat)
    requires p < |l.hits| && l.hits[p].key != key
    ensures HitOk(l, key, window, k, p)
  {
  }

  /** Time passes, or a request moves on; only on a dead counter does one more prepare to restart it. */
  lemma QuietInOrder(l: Limiter, l': Limiter, key: string, window: nat, k: nat)
    requires WindowsOk(l, key, window, k)
    requires l'.hits == l.hits && l'.begun == l.begun && l'.cache.entries == l.cache.entries && l.cache.now <= l'.cache.now
    requires Live(l.cache, key) ==> Restarts(l'.requests, key) <= Restarts(l.requests, key)
    ensures WindowsOk(l', key, window, k)
  {
    hide Restarts;
    forall p | 0 <= p < |l.hits| ensures HitOk(l', key, window, k, p) {
      assert HitOk(l, key, window, k, p);
    }
    forall w: nat | 0 < w <= Window(l', key) ensures Began(l'.hits, key, w) {
      assert Began(l.hits, key, w);
      var start: int :| Opened(l.hits, key, w, start);
      assert Opened(l'.hits, key, w, start);
    }
  }

  lemma CountInOrder(l: Limiter, i: nat, limit: int, window: nat, key: string, k: nat)
    requires WindowsOk(l, key, window, k) && i < |l.requests| && l.requests[i].key == key
    requires Open(l.requests, key) <= k && limit > 0 && window > 0
    ensures WindowsOk(Next(l, i, limit, window), key, window, k)
  {
    hide WindowsOk, Open, Restarts;
    var phase, l' := l.requests[i].phase, Next(l, i, limit, window);
    if phase.Counting? && Live(l.cache, key) {
      ContinueInOrder(l, i, limit, window, key, k);
    } else if phase.Restarting? || (phase.Adding? && !Live(l.cache, key)) {
      RestartInOrder(l, i, limit, window, key, k);
    } else {
      if !phase.Over? { RestartMoved(l.requests, i, if phase.Adding? then Counting else Restarting, key); }
      QuietInOrder(l, l', key, window, k);
    }
  }

  lemma OtherInOrder(l: Limiter, i: nat, limit: int, window: nat, key: string, k: nat)
    requires WindowsOk(l, key, window, k) && i < |l.requests| && l.requests[i].key != key
    ensures WindowsOk(Next(l, i, limit, window), key, window, k)
  {
    hide WindowsOk, Restarts;
    var r, l' := l.requests[i], Next(l, i, limit, window);
    if r.phase.Counting? && Live(l.cache, r.key) {
      var (c, value) := Incr(l.cache, r.key);
      OtherCounts(l, i, c, false, value.value, limit, window, key, k);
    } else if r.phase.Restarting? || (r.phase.Adding? && !Live(l.cache, r.key)) {
      OtherCounts(l, i, Set(l.cache, r.key, 1, window), true, 1, limit, window, key, k);
    } else {
      if !r.phase.Over? { RestartMoved(l.requests, i, if r.phase.Adding? then Counting else Restarting, key); }
      QuietInOrder(l, l', key, window, k);
    }
  }

  lemma WindowsStep(l: Limiter, limit: int, window: nat, op: Op, key: string, k: nat)
    requires WindowsOk(l, key, window, k) && Open(l.requests, key) <= k && limit > 0 && window > 0
    ensures WindowsOk(Step(l, limit, window, op), key, window, k)
  {
    hide Next, WindowsOk, Open, Restarts;
    if op.Go? && op.i < |l.requests| {
      if l.requests[op.i].key == key {
        CountInOrder(l, op.i, limit, window, key, k);
      } else {
        OtherInOrder(l, op.i, limit, window, key, k);
      }
    } else {
      if op.Ask? || op.AskLegacy? { Begun(l.requests, Request(op.key, op.AskLegacy?, Adding), key); }
      QuietInOrder(l, Step(l, limit, window, op), key, window, k);
    }
  }

  lemma {:induction false} WindowsRun(limit: int, window: nat, ops: seq<Op>, key: string, k: nat)
    requires limit > 0 && window > 0 && AtMostOpen(limit, window, ops, key, k)
    ensures WindowsOk(Run(IDLE, limit, window, ops), key, window, k)
    decreases |ops|
  {
    hide Step;
    if ops != [] {
      WindowsRun(limit, window, ops[..|ops| - 1], key, k);
      WindowsStep(Run(IDLE, limit, window, ops[..|ops| - 1]), limit, window, ops[|ops| - 1], key, k);
    }
  }

  // ---- From windows to intervals --------------------------------------------------------------------------

  /** The hits of `n` windows from `v` on. */
  function InWindows(hits: seq<Hit>, key: string, v: nat, n: nat): nat {
    if n == 0 then 0 else InWindows(hits, key, v, n - 1) + InWindow(hits, key, v + n - 1)
  }

  lemma {:induction false} AppendedToMany(hits: seq<Hit>, h: Hit, key: string, v: nat, n: nat)
    ensures InWindows(hits + [h], key, v, n) == InWindows(hits, key, v, n) + (if h.key == key && v <= h.window < v + n then 1 else 0)
  {
    hide InWindow;
    if n > 0 {
      AppendedToMany(hits, h, key, v, n - 1);
      Appended(hits, h, key, v + n - 1);
    }
  }

  lemma {:induction false} ManyBounded(hits: seq<Hit>, key: string, v: nat, n: nat, bound: nat)
    requires forall w: nat :: InWindow(hits, key, w) <= bound
    ensures InWindows(hits, key, v, n) <= n * bound
  {
    if n > 0 {
      ManyBounded(hits, key, v, n - 1, bound);
      assert n * bound == (n - 1) * bound + bound;
    }
  }

  /** The hits of an interval, if they belong to these windows; one less for each hit of theirs outside of it. */
  lemma {:induction false} IntervalInWindows(hits: seq<Hit>, key: string, lo: nat, hi: nat, v: nat, n: nat, outside: set<nat>)
    requires forall p :: 0 <= p < |hits| && Between(hits[p], key, lo, hi) ==> v <= hits[p].window < v + n
    requires forall q :: q in outside ==>
               q < |hits| && hits[q].key == key && v <= hits[q].window < v + n && !Between(hits[q], key, lo, hi)
    ensures InInterval(hits, key, lo, hi) + |outside| <= InWindows(hits, key, v, n)
  {
    hide InWindows;
    if hits == [] {
      assert outside == {};
    } else {
      var m := |hits| - 1;
      assert hits == hits[..m] + [hits[m]];
      AppendedToMany(hits[..m], hits[m], key, v, n);
      IntervalInWindows(hits[..m], key, lo, hi, v, n, outside - {m});
      assert m in outside ==> outside == (outside - {m}) + {m};
      assert m !in outside ==> outside == outside - {m};
    }
  }

  /** The first and the last window of an interval's hits. */
  lemma {:induction false} Extremes(hits: seq<Hit>, key: string, lo: nat, hi: nat, r: nat) returns (p: nat, q: nat)
    requires r < |hits| && Between(hits[r], key, lo, hi)
    ensures p < |hits| && q < |hits| && Between(hits[p], key, lo, hi) && Between(hits[q], key, lo, hi)
    ensures forall m :: 0 <= m < |hits| && Between(hits[m], key, lo, hi) ==> hits[p].window <= hits[m].window <= hits[q].window
  {
    var m := |hits| - 1;
    p, q := m, m;
    if r :| 0 <= r < m && Between(hits[r], key, lo, hi) {
      p, q := Extremes(hits[..m], key, lo, hi, r);
      if Between(hits[m], key, lo, hi) {
        if hits[m].window < hits[p].window { p := m; }
        if hits[m].window > hits[q].window { q := m; }
      }
    }
  }

  /** An interval of a window's length meets at most `k + 1` windows, and if so many, it misses the opening hit of the first. */
  lemma MeetsFew(l: Limiter, key: string, window: nat, k: nat, t: nat, p: nat, q: nat) returns (opening: nat)
    requires WindowsOk(l, key, window, k) && k > 0 && p < |l.hits| && q < |l.hits| && l.hits[p].window < l.hits[q].window
    requires Between(l.hits[p], key, t, t + window) && Between(l.hits[q], key, t, t + window)
    ensures l.hits[q].window - l.hits[p].window <= k
    ensures opening < |l.hits| && l.hits[opening].key == key && l.hits[opening].window == l.hits[p].window
    ensures l.hits[q].window - l.hits[p].window == k ==> !Between(l.hits[opening], key, t, t + window)
  {
    hide Restarts;
    var v, u := l.hits[p].window, l.hits[q].window;
    assert HitOk(l, key, window, k, p) && HitOk(l, key, window, k, q);
    opening :| 0 <= opening < |l.hits| && Opens(l.hits[opening], key, v, l.hits[p].start);
    assert Began(l.hits, key, v + 1);
    var start: int :| Opened(l.hits, key, v + 1, start);
    var next :| 0 <= next < |l.hits| && Opens(l.hits[next], key, v + 1, start);
    assert InOrder(l.hits[p], l.hits[next], window, k) && InOrder(l.hits[next], l.hits[q], window, k);
    assert InOrder(l.hits[opening], l.hits[q], window, k) && InOrder(l.hits[p], l.hits[q], window, k);
  }

  lemma Products(n: nat, m: nat, bound: nat)
    requires n <= m
    ensures n * bound <= m * bound
  {
  }

  lemma IntervalOf(l: Limiter, key: string, window: nat, t: nat, k: nat, bound: nat)
    requires WindowsOk(l, key, window, k) && (forall w: nat :: InWindow(l.hits, key, w) <= bound) && k > 0 && bound > 0
    ensures InInterval(l.hits, key, t, t + window) <= (k + 1) * bound - 1
  {
    hide InInterval, InWindow, InWindows, WindowsOk;
    Products(1, k, bound);
    assert (k + 1) * bound == k * bound + bound;
    if r :| 0 <= r < |l.hits| && Between(l.hits[r], key, t, t + window) {
      var p, q := Extremes(l.hits, key, t, t + window, r);
      var v, n := l.hits[p].window, l.hits[q].window - l.hits[p].window + 1;
      ManyBounded(l.hits, key, v, n, bound);
      IntervalInWindows(l.hits, key, t, t + window, v, n, {});
      if n > 1 {
        var opening := MeetsFew(l, key, window, k, t, p, q);
        if n == k + 1 {
          IntervalInWindows(l.hits, key, t, t + window, v, n, {opening});
        } else {
          Products(n, k, bound);
        }
      }
    } else {
      IntervalInWindows(l.hits, key, t, t + window, 0, 0, {});
      ManyBounded(l.hits, key, 0, 0, bound);
    }
  }

  /**
   * Whatever the interleaving, with never more than `k` requests of a key open: any half-open interval
   * as long as a window admits at most `(k + 1) * (limit + k - 1) - 1`. A counter created anew while it
   * lives takes a request that found it gone before, so at most `k` windows begin within the interval,
   * and of the one that runs when it begins the opening hit is missed.
   */
  lemma AtMostInInterval(limit: int, window: nat, ops: seq<Op>, key: string, k: nat, t: nat)
    requires limit > 0 && window > 0 && k > 0 && AtMostOpen(limit, window, ops, key, k)
    ensures InInterval(Run(IDLE, limit, window, ops).hits, key, t, t + window) <= (k + 1) * (limit + k - 1) - 1
  {
    WindowsRun(limit, window, ops, key, k);
    WindowsStayBounded(limit, window, ops, key, k);
    IntervalOf(Run(IDLE, limit, window, ops), key, window, t, k, limit + k - 1);
  }

  /** Requests that come one at a time. */
  lemma AtMostTwiceLimitLessOne(limit: int, window: nat, ops: seq<Op>, key: string, t: nat)
    requires limit > 0 && window > 0 && AtMostOpen(limit, window, ops, key, 1)
    ensures InInterval(Run(IDLE, limit, window, ops).hits, key, t, t + window) <= 2 * limit - 1
  {
    AtMostInInterval(limit, window, ops, key, 1, t);
  }

  lemma SameUnit(l: Limiter, key: string, t: nat, p: nat, q: nat)
    requires WindowsOk(l, key, 1, 1) && p < |l.hits| && q < |l.hits|
    requires Between(l.hits[p], key, t, t + 1) && Between(l.hits[q], key, t, t + 1)
    ensures l.hits[p].window == l.hits[q].window
  {
    hide Restarts, Opened, AllOpened;
    assert HitOk(l, key, 1, 1, p) && HitOk(l, key, 1, 1, q);
    assert InOrder(l.hits[p], l.hits[q], 1, 1) && InOrder(l.hits[q], l.hits[p], 1, 1);
  }

  /** And in windows of one time unit the limit itself holds. */
  lemma AtMostLimitPerUnit(limit: int, ops: seq<Op>, key: string, t: nat)
    requires limit > 0 && AtMostOpen(limit, 1, ops, key, 1)
    ensures InInterval(Run(IDLE, limit, 1, ops).hits, key, t, t + 1) <= limit
  {
    hide InInterval, InWindow, InWindows, WindowsOk, Run;
    var l := Run(IDLE, limit, 1, ops);
    WindowsRun(limit, 1, ops, key, 1);
    WindowsStayBounded(limit, 1, ops, key, 1);
    if r :| 0 <= r < |l.hits| && Between(l.hits[r], key, t, t + 1) {
      var w := l.hits[r].window;
      forall p | 0 <= p < |l.hits| && Between(l.hits[p], key, t, t + 1) ensures l.hits[p].window == w {
        SameUnit(l, key, t, p, r);
      }
      IntervalInWindows(l.hits, key, t, t + 1, w, 1, {});
      ManyBounded(l.hits, key, w, 1, limit);
    } else {
      IntervalInWindows(l.hits, key, t, t + 1, 0, 0, {});
      ManyBounded(l.hits, key, 0, 0, limit);
    }
  }

  // ---- The bounds are reached -------------------------------------------------------------------------

  /** The counter after `n` requests, one after the other, at this moment. */
  function Served(c: Cache, key: string, window: nat, n: nat): Cache {
    if n == 0 then c
    else if Live(c, key) then c.(entries := c.entries[key := Entry(c.entries[key].value + n, c.entries[key].expiresAt)])
    else c.(entries := c.entries[key := Entry(n, c.now + window)])
  }

  /** One request from its peek to its count. */
  lemma ServeOne(l: Limiter, limit: int, window: nat, key: string)
    requires !WouldExceed(l.cache, key, limit) && window > 0
    ensures var m := |l.requests|;
            var asked := Step(l, limit, window, Ask(key));
            var added := Step(asked, limit, window, Go(m));
            var l' := Step(added, limit, window, Go(m));
            && Open(asked.requests, key) == Open(l.requests, key) + 1
            && Open(added.requests, key) <= Open(l.requests, key) + 1
            && Open(l'.requests, key) == Open(l.requests, key)
            && l'.cache == Served(l.cache, key, window, 1)
            && |l'.hits| == |l.hits| + 1 && l'.hits[..|l.hits|] == l.hits
            && l'.hits[|l.hits|].key == key && l'.hits[|l.hits|].time == l.cache.now
  {
    hide Open;
    var m, r := |l.requests|, Request(key, false, Adding);
    Begun(l.requests, r, key);
    Moved(l.requests + [r], m, Over, key);
    Moved(l.requests + [r], m, Counting, key);
    if Live(l.cache, key) {
      Moved((l.requests + [r])[m := r.(phase := Counting)], m, Over, key);
    }
  }

  lemma OneMore(limit: int, window: nat, ops: seq<Op>, op: Op, key: string, k: nat)
    requires AtMostOpen(limit, window, ops, key, k)
    requires Open(Step(Run(IDLE, limit, window, ops), limit, window, op).requests, key) <= k
    ensures AtMostOpen(limit, window, ops + [op], key, k)
  {
    hide Step, Open, Run;
    Then(IDLE, limit, window, ops, op);
    assert (ops + [op])[..|ops|] == ops;
  }

  /** A run that ends with no request of the key open, and never had more than one. */
  predicate Serial(limit: int, window: nat, ops: seq<Op>, key: string) {
    AtMostOpen(limit, window, ops, key, 1) && Open(Run(IDLE, limit, window, ops).requests, key) == 0
  }

  lemma ServeAtEnd(limit: int, window: nat, ops: seq<Op>, key: string, t: nat) returns (ops': seq<Op>)
    requires Serial(limit, window, ops, key) && !WouldExceed(Run(IDLE, limit, window, ops).cache, key, limit) && window > 0
    ensures Serial(limit, window, ops', key)
    ensures var l, l' := Run(IDLE, limit, window, ops), Run(IDLE, limit, window, ops');
            && l'.cache == Served(l.cache, key, window, 1)
            && InInterval(l'.hits, key, t, t + window)
               == InInterval(l.hits, key, t, t + window) + (if t <= l.cache.now < t + window then 1 else 0)
  {
    hide Step, Run, Open;
    var l := Run(IDLE, limit, window, ops);
    var m := |l.requests|;
    ServeOne(l, limit, window, key);
    Then(IDLE, limit, window, ops, Ask(key));
    OneMore(limit, window, ops, Ask(key), key, 1);
    Then(IDLE, limit, window, ops + [Ask(key)], Go(m));
    OneMore(limit, window, ops + [Ask(key)], Go(m), key, 1);
    Then(IDLE, limit, window, ops + [Ask(key)] + [Go(m)], Go(m));
    OneMore(limit, window, ops + [Ask(key)] + [Go(m)], Go(m), key, 1);
    ops' := ops + [Ask(key)] + [Go(m)] + [Go(m)];
  }

  lemma {:induction false} ServeMany(limit: int, window: nat, ops: seq<Op>, key: string, n: nat, t: nat) returns (ops': seq<Op>)
    requires Serial(limit, window, ops, key) && window > 0
    requires Get(Run(IDLE, limit, window, ops).cache, key, 0) + n <= limit
    ensures Serial(limit, window, ops', key)
    ensures var l, l' := Run(IDLE, limit, window, ops), Run(IDLE, limit, window, ops');
            && l'.cache == Served(l.cache, key, window, n)
            && InInterval(l'.hits, key, t, t + window)
               == InInterval(l.hits, key, t, t + window) + (if t <= l.cache.now < t + window then n else 0)
    decreases n
  {
    hide Step, Run, Serial, InInterval;
    ops' := ops;
    if n > 0 {
      var mid := ServeMany(limit, window, ops, key, n - 1, t);
      ops' := ServeAtEnd(limit, window, mid, key, t);
    }
  }

  lemma Pause(limit: int, window: nat, ops: seq<Op>, key: string, d: nat)
    requires Serial(limit, window, ops, key)
    ensures Serial(limit, window, ops + [Wait(d)], key)
    ensures var l := Run(IDLE, limit, window, ops); Run(IDLE, limit, window, ops + [Wait(d)]) == l.(cache := Pass(l.cache, d))
  {
    hide Run, Open;
    Then(IDLE, limit, window, ops, Wait(d));
    OneMore(limit, window, ops, Wait(d), key, 1);
  }

  /** One request at once, the rest of the limit just before the window ends, the limit just after. */
  lemma TwiceLessOneIsReached(limit: int, window: nat, key: string) returns (ops: seq<Op>, t: nat)
    requires limit > 0 && window > 1
    ensures AtMostOpen(limit, window, ops, key, 1)
    ensures InInterval(Run(IDLE, limit, window, ops).hits, key, t, t + window) == 2 * limit - 1
  {
    hide Run, Open, InInterval;
    t := window - 1;
    StartsSerial(limit, window, key, t);
    ops := ServeMany(limit, window, [], key, 1, t);
    Pause(limit, window, ops, key, window - 1);
    ops := ServeMany(limit, window, ops + [Wait(window - 1)], key, limit - 1, t);
    Pause(limit, window, ops, key, 1);
    ops := ServeMany(limit, window, ops + [Wait(1)], key, limit, t);
  }

  lemma StartsSerial(limit: int, window: nat, key: string, t: nat)
    ensures Serial(limit, window, [], key) && Run(IDLE, limit, window, []) == IDLE
    ensures InInterval(IDLE.hits, key, t, t + window) == 0
  {
  }

  /** Every interval as long as a window admits at most the limit, over all runs of serial requests. */
  ghost predicate Rolling(limit: int, window: nat, key: string) {
    forall ops: seq<Op>, t: nat :: RollsAt(limit, window, key, ops, t)
  }

  predicate RollsAt(limit: int, window: nat, key: string, ops: seq<Op>, t: nat) {
    AtMostOpen(limit, window, ops, key, 1) ==>
      InInterval(Run(IDLE, limit, window, ops).hits, key, t, t + window) <= limit
  }

  /** The windows that the code calls rolling are so exactly if the limit or the window is one. */
  lemma RollingIff(limit: int, window: nat, key: string)
    requires limit > 0 && window > 0
    ensures Rolling(limit, window, key) <==> limit == 1 || window == 1
  {
    hide Run, InInterval, AtMostOpen;
    if limit == 1 || window == 1 {
      forall ops: seq<Op>, t: nat ensures RollsAt(limit, window, key, ops, t) {
        if AtMostOpen(limit, window, ops, key, 1) {
          AtMostTwiceLimitLessOne(limit, window, ops, key, t);
          if window == 1 { AtMostLimitPerUnit(limit, ops, key, t); }
        }
      }
    } else {
      var ops, t := TwiceLessOneIsReached(limit, window, key);
      assert !RollsAt(limit, window, key, ops, t);
    }
  }

  /** `v` requests were counted in the key's first window, and `a` have peeked and wait. */
  predicate Racing(l: Limiter, window: nat, key: string, v: nat, a: nat) {
    && l.cache.now == 0 && |l.requests| == v + a && Open(l.requests, key) == a
    && (forall i :: v <= i < v + a ==> l.requests[i] == Request(key, false, Adding))
    && (if v == 0 then key !in l.cache.entries && Window(l, key) == 0
        else key in l.cache.entries && l.cache.entries[key] == Entry(v, window) && Window(l, key) == 1)
    && InWindow(l.hits, key, 1) == v
  }

  lemma Joins(l: Limiter, limit: int, window: nat, key: string, v: nat, a: nat)
    requires Racing(l, window, key, v, a) && v < limit && window > 0
    ensures Racing(Step(l, limit, window, Ask(key)), window, key, v, a + 1)
  {
    hide Open;
    Begun(l.requests, Request(key, false, Adding), key);
  }

  /** The first one waiting is counted, in one operation or two. */
  lemma Counted(l: Limiter, limit: int, window: nat, key: string, v: nat, a: nat)
    requires Racing(l, window, key, v, a) && a > 0 && window > 0
    ensures var added := Step(l, limit, window, Go(v));
            Open(added.requests, key) <= a && Racing(Step(added, limit, window, Go(v)), window, key, v + 1, a - 1)
  {
    hide Open, InWindow;
    Moved(l.requests, v, Over, key);
    Moved(l.requests, v, Counting, key);
    var added := Step(l, limit, window, Go(v));
    if v == 0 {
      CountHits(l, 0, Set(l.cache, key, 1, window), true, 1, limit, window, key, 1);
    } else {
      Moved(added.requests, v, Over, key);
      CountHits(added, v, Incr(added.cache, key).0, false, v + 1, limit, window, key, 1);
    }
  }

  lemma CountedAtEnd(limit: int, window: nat, ops: seq<Op>, key: string, v: nat, a: nat, k: nat) returns (ops': seq<Op>)
    requires AtMostOpen(limit, window, ops, key, k) && Racing(Run(IDLE, limit, window, ops), window, key, v, a)
    requires 0 < a <= k && window > 0
    ensures AtMostOpen(limit, window, ops', key, k) && Racing(Run(IDLE, limit, window, ops'), window, key, v + 1, a - 1)
  {
    hide Run, Step, Open, AtMostOpen;
    Counted(Run(IDLE, limit, window, ops), limit, window, key, v, a);
    Then(IDLE, limit, window, ops, Go(v));
    OneMore(limit, window, ops, Go(v), key, k);
    Then(IDLE, limit, window, ops + [Go(v)], Go(v));
    OneMore(limit, window, ops + [Go(v)], Go(v), key, k);
    ops' := ops + [Go(v)] + [Go(v)];
  }

  lemma JoinsAtEnd(limit: int, window: nat, ops: seq<Op>, key: string, v: nat, a: nat, k: nat)
    requires AtMostOpen(limit, window, ops, key, k) && Racing(Run(IDLE, limit, window, ops), window, key, v, a)
    requires a < k && v < limit && window > 0
    ensures AtMostOpen(limit, window, ops + [Ask(key)], key, k)
    ensures Racing(Run(IDLE, limit, window, ops + [Ask(key)]), window, key, v, a + 1)
  {
    hide Run, Step, Open, AtMostOpen;
    Joins(Run(IDLE, limit, window, ops), limit, window, key, v, a);
    Then(IDLE, limit, window, ops, Ask(key));
    OneMore(limit, window, ops, Ask(key), key, k);
  }

  /** `v` requests one by one, all but the last place of the window. */
  lemma {:induction false} FillsUp(limit: int, window: nat, key: string, v: nat, k: nat) returns (ops: seq<Op>)
    requires v < limit && window > 0 && k > 0
    ensures AtMostOpen(limit, window, ops, key, k) && Racing(Run(IDLE, limit, window, ops), window, key, v, 0)
    decreases v
  {
    ops := [];
    if v > 0 {
      hide Run, AtMostOpen, Racing;
      ops := FillsUp(limit, window, key, v - 1, k);
      JoinsAtEnd(limit, window, ops, key, v - 1, 0, k);
      ops := CountedAtEnd(limit, window, ops + [Ask(key)], key, v - 1, 1, k);
    }
  }

  lemma {:induction false} AllPeek(limit: int, window: nat, key: string, a: nat, k: nat) returns (ops: seq<Op>)
    requires limit > 0 && window > 0 && a <= k && k > 0
    ensures AtMostOpen(limit, window, ops, key, k) && Racing(Run(IDLE, limit, window, ops), window, key, limit - 1, a)
    decreases a
  {
    hide Run, AtMostOpen, Racing;
    if a == 0 {
      ops := FillsUp(limit, window, key, limit - 1, k);
    } else {
      ops := AllPeek(limit, window, key, a - 1, k);
      JoinsAtEnd(limit, window, ops, key, limit - 1, a - 1, k);
      ops := ops + [Ask(key)];
    }
  }

  lemma {:induction false} AllCount(limit: int, window: nat, key: string, f: nat, k: nat) returns (ops: seq<Op>)
    requires limit > 0 && window > 0 && f <= k && k > 0
    ensures AtMostOpen(limit, window, ops, key, k) && Racing(Run(IDLE, limit, window, ops), window, key, limit - 1 + f, k - f)
    decreases f
  {
    hide Run, AtMostOpen, Racing;
    if f == 0 {
      ops := AllPeek(limit, window, key, k, k);
    } else {
      ops := AllCount(limit, window, key, f - 1, k);
      ops := CountedAtEnd(limit, window, ops, key, limit - 1 + f - 1, k - f + 1, k);
    }
  }

  /** With one place left, `k` requests that all peek before any counts are all admitted. */
  lemma RacersReachTheBound(limit: int, window: nat, key: string, k: nat) returns (ops: seq<Op>)
    requires limit > 0 && window > 0 && k > 0
    ensures AtMostOpen(limit, window, ops, key, k)
    ensures InWindow(Run(IDLE, limit, window, ops).hits, key, 1) == limit + k - 1
  {
    ops := AllCount(limit, window, key, k, k);
  }

  // ---- The mutable counter ----------------------------------------------------------------------------

  /**
   * `increment_counter`. `pause` and `late` are the times that pass between its cache operations,
   * in which the counter may expire.
   */
  function IncrementCounter(c: Cache, key: string, window: nat, pause: nat, late: nat): (Cache, nat) {
    var (added, isNew) := Add(c, key, 1, window);
    if isNew then (added, 1)
    else
      var (counted, value) := Incr(Pass(c, pause), key);
      if value.Some? then (counted, value.value) else (Set(Pass(counted, late), key, 1, window), 1)
  }

  class Counters {
    var cache: Cache

    constructor ()
      ensures cache == Cache(0, map[])
    {
      cache := Cache(0, map[]);
    }

    method IncrementCount(key: string, window: nat, pause: nat, late: nat) returns (value: nat)
      modifies this
      ensures (cache, value) == IncrementCounter(old(cache), key, window, pause, late)
      ensures var before, started := old(cache).entries, old(cache).now;
              if key !in before || before[key].expiresAt <= started then
                value == 1 && cache == Cache(started, before[key := Entry(1, started + window)])
              else if started + pause < before[key].expiresAt then
                value == before[key].value + 1 && cache == Cache(started + pause, before[key := Entry(value, before[key].expiresAt)])
              else
                value == 1 && cache == Cache(started + pause + late, before[key := Entry(1, started + pause + late + window)])
    {
      var (added, isNew) := Add(cache, key, 1, window);
      if isNew {
        cache, value := added, 1;
        return;
      }
      cache := Pass(cache, pause);
      var (counted, next) := Incr(cache, key);
      if next.Some? {
        cache, value := counted, next.value;
      } else {
        cache := Pass(counted, late);
        cache, value := Set(cache, key, 1, window), 1;
      }
    }

    /** `_enforce_upload_rate`: refuse and count nothing, or count the request whatever it finds by then. */
    method EnforceUploadRate(key: string, limit: int, window: nat, peekPause: nat, pause: nat, late: nat) returns (admitted: bool)
      modifies this
      ensures admitted <==> || limit <= 0 || key !in old(cache).entries || old(cache).entries[key].value < limit
                            || old(cache).entries[key].expiresAt <= old(cache).now
      ensures cache == if admitted then IncrementCounter(Pass(old(cache), peekPause), key, window, pause, late).0 else old(cache)
    {
      if WouldExceed(cache, key, limit) {
        return false;
      }
      cache := Pass(cache, peekPause);
      var _ := IncrementCount(key, window, pause, late);
      return true;
    }

    /** `rate_limit_exceeded`: without a limit nothing is counted, otherwise every request is. */
    method RateLimitExceeded(key: string, limit: int, window: nat, pause: nat, late: nat) returns (exceeded: bool)
      modifies this
      ensures limit <= 0 ==> !exceeded && cache == old(cache)
      ensures limit > 0 ==> var (c, value) := IncrementCounter(old(cache), key, window, pause, late);
                            cache == c && (exceeded <==> value > limit)
    {
      if limit <= 0 {
        return false;
      }
      var value := IncrementCount(key, window, pause, late);
      return value > limit;
    }
  }

  /** The operations of one request that runs alone. */
  function Alone(c: Cache, m: nat, key: string, pause: nat, late: nat): seq<Op> {
    if !Live(c, key) then [Go(m)]
    else if Live(Pass(c, pause), key) then [Go(m)] + [Wait(pause)] + [Go(m)]
    else [Go(m)] + [Wait(pause)] + [Go(m)] + [Wait(late)] + [Go(m)]
  }

  lemma StartsHere(l: Limiter, limit: int, window: nat)
    ensures Run(l, limit, window, []) == l
  {
  }

  /** The methods do what an undisturbed request of the interleaved model does. */
  lemma AloneIsIncrement(l: Limiter, limit: int, window: nat, key: string, legacy: bool, pause: nat, late: nat)
    requires |l.requests| > 0 && l.requests[|l.requests| - 1] == Request(key, legacy, Adding)
    ensures var m := |l.requests| - 1; var (c, value) := IncrementCounter(l.cache, key, window, pause, late);
            var l' := Run(l, limit, window, Alone(l.cache, m, key, pause, late));
            && l'.cache == c && l'.requests == l.requests[m := Request(key, legacy, Over)]
            && (|l'.hits| > |l.hits| <==> !(legacy && value > limit))
  {
    hide Run;
    var m := |l.requests| - 1;
    StartsHere(l, limit, window);
    Then(l, limit, window, [], Go(m));
    assert [] + [Go(m)] == [Go(m)];
    Then(l, limit, window, [Go(m)], Wait(pause));
    Then(l, limit, window, [Go(m)] + [Wait(pause)], Go(m));
    Then(l, limit, window, [Go(m)] + [Wait(pause)] + [Go(m)], Wait(late));
    Then(l, limit, window, [Go(m)] + [Wait(pause)] + [Go(m)] + [Wait(late)], Go(m));
  }
}
