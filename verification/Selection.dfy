/** selection.py: freshness gate, weighted score, circuit breaker and retry plan.  Scores are exact reals. */
module Selection {
  import opened Common

  datatype Config = Config(
    telemetryFresh: real, breakerCooldown: real,
    wTtft: real, wVram: real, wQueue: real, wPrice: real,
    topN: nat, ttftRef: real, queueRef: real, priceRef: real)

  const DEFAULTS := Config(3.0, 5.0, 0.45, 0.35, 0.15, 0.05, 2, 2000.0, 32.0, 5.0)

  /** What `score` and `select` need: no division by zero, and a first choice to draw from. */
  predicate Sound(cfg: Config) {
    && cfg.ttftRef > 0.0 && cfg.queueRef > 0.0 && cfg.priceRef > 0.0 && cfg.topN >= 1
    && cfg.wTtft >= 0.0 && cfg.wVram >= 0.0 && cfg.wQueue >= 0.0 && cfg.wPrice >= 0.0
  }

  datatype Worker = Worker(
    id: string, vram: real, ttft: real, queue: int, price: real, lastSeen: real, brokenUntil: real)

  predicate IsFresh(w: Worker, now: real, maxAge: real) {
    now - w.lastSeen <= maxAge
  }

  predicate IsBroken(w: Worker, now: real) {
    now < w.brokenUntil
  }

  predicate IsEligible(cfg: Config, w: Worker, now: real) {
    IsFresh(w, now, cfg.telemetryFresh) && !IsBroken(w, now)
  }

  // ---------------------------------------------------------------- score

  /** `max(0.0, 1.0 - x)`. */
  function Room(x: real): (r: real)
    ensures r >= 0.0 && (x >= 0.0 ==> r <= 1.0)
  {
    if 1.0 - x > 0.0 then 1.0 - x else 0.0
  }

  /** The weighted sum of the four partial scores. */
  function Mix(cfg: Config, a: real, b: real, c: real, d: real): real {
    Part(cfg.wTtft, a) + Part(cfg.wVram, b) + Part(cfg.wQueue, c) + Part(cfg.wPrice, d)
  }

  function Part(weight: real, a: real): real {
    weight * a
  }

  function TotalWeight(cfg: Config): real {
    cfg.wTtft + cfg.wVram + cfg.wQueue + cfg.wPrice
  }

  function Score(cfg: Config, w: Worker): real
    requires Sound(cfg)
  {
    var raw := Mix(cfg, Room(w.ttft / cfg.ttftRef), Room(w.vram), Room(w.queue as real / cfg.queueRef), Room(w.price / cfg.priceRef));
    if TotalWeight(cfg) != 0.0 then raw / TotalWeight(cfg) else 0.0
  }

  lemma Scaled(weight: real, a: real, b: real)
    requires weight >= 0.0 && a <= b
    ensures Part(weight, a) <= Part(weight, b)
  {
  }

  lemma Share(weight: real, a: real)
    requires weight >= 0.0 && 0.0 <= a <= 1.0
    ensures 0.0 <= Part(weight, a) <= weight
  {
  }

  lemma Ratio(x: real, y: real, d: real)
    requires d > 0.0 && x <= y
    ensures x / d <= y / d
  {
    assert x / d == x * (1.0 / d) && y / d == y * (1.0 / d);
  }

  lemma MixIsMonotone(cfg: Config, a: real, b: real, c: real, d: real, a': real, b': real, c': real, d': real)
    requires Sound(cfg) && a <= a' && b <= b' && c <= c' && d <= d'
    ensures Mix(cfg, a, b, c, d) <= Mix(cfg, a', b', c', d')
  {
    hide Part;
    Scaled(cfg.wTtft, a, a');
    Scaled(cfg.wVram, b, b');
    Scaled(cfg.wQueue, c, c');
    Scaled(cfg.wPrice, d, d');
  }

  lemma MixIsBounded(cfg: Config, a: real, b: real, c: real, d: real)
    requires Sound(cfg) && 0.0 <= a <= 1.0 && 0.0 <= b <= 1.0 && 0.0 <= c <= 1.0 && 0.0 <= d <= 1.0
    ensures 0.0 <= Mix(cfg, a, b, c, d) <= TotalWeight(cfg)
  {
    hide Part;
    Share(cfg.wTtft, a);
    Share(cfg.wVram, b);
    Share(cfg.wQueue, c);
    Share(cfg.wPrice, d);
  }

  lemma Quotient(x: real, d: real)
    requires d > 0.0
    ensures 0.0 <= x ==> 0.0 <= x / d
    ensures x <= d ==> x / d <= 1.0
  {
  }

  /** For metrics that are not negative a score lies between 0 and 1. */
  lemma ScoreInUnitInterval(cfg: Config, w: Worker)
    requires Sound(cfg) && w.vram >= 0.0 && w.ttft >= 0.0 && w.queue >= 0 && w.price >= 0.0
    ensures 0.0 <= Score(cfg, w) <= 1.0
  {
    hide Mix, TotalWeight, Room;
    Quotient(w.ttft, cfg.ttftRef);
    Quotient(w.queue as real, cfg.queueRef);
    Quotient(w.price, cfg.priceRef);
    var a, b := Room(w.ttft / cfg.ttftRef), Room(w.vram);
    var c, d := Room(w.queue as real / cfg.queueRef), Room(w.price / cfg.priceRef);
    MixIsBounded(cfg, a, b, c, d);
    if TotalWeight(cfg) != 0.0 {
      Quotient(Mix(cfg, a, b, c, d), TotalWeight(cfg));
    }
  }

  lemma LessRoom(x: real, y: real)
    requires x <= y
    ensures Room(y) <= Room(x)
  {
  }

  /** A worker that is no worse in any metric does not score lower. */
  lemma ScoreIsMonotone(cfg: Config, better: Worker, worse: Worker)
    requires Sound(cfg)
    requires better.vram <= worse.vram && better.ttft <= worse.ttft
    requires better.queue <= worse.queue && better.price <= worse.price
    ensures Score(cfg, better) >= Score(cfg, worse)
  {
    WeightNotNegative(cfg);
    hide Mix, TotalWeight, Room;
    Ratio(better.ttft, worse.ttft, cfg.ttftRef);
    Ratio(better.queue as real, worse.queue as real, cfg.queueRef);
    Ratio(better.price, worse.price, cfg.priceRef);
    LessRoom(better.ttft / cfg.ttftRef, worse.ttft / cfg.ttftRef);
    LessRoom(better.vram, worse.vram);
    LessRoom(better.queue as real / cfg.queueRef, worse.queue as real / cfg.queueRef);
    LessRoom(better.price / cfg.priceRef, worse.price / cfg.priceRef);
    var x := Mix(cfg, Room(worse.ttft / cfg.ttftRef), Room(worse.vram), Room(worse.queue as real / cfg.queueRef), Room(worse.price / cfg.priceRef));
    var y := Mix(cfg, Room(better.ttft / cfg.ttftRef), Room(better.vram), Room(better.queue as real / cfg.queueRef), Room(better.price / cfg.priceRef));
    MixIsMonotone(cfg, Room(worse.ttft / cfg.ttftRef), Room(worse.vram), Room(worse.queue as real / cfg.queueRef), Room(worse.price / cfg.priceRef),
                  Room(better.ttft / cfg.ttftRef), Room(better.vram), Room(better.queue as real / cfg.queueRef), Room(better.price / cfg.priceRef));
    if TotalWeight(cfg) != 0.0 {
      Ratio(x, y, TotalWeight(cfg));
    }
  }

  lemma WeightNotNegative(cfg: Config)
    requires Sound(cfg)
    ensures TotalWeight(cfg) >= 0.0
  {
  }

  // ---------------------------------------------------------------- which weight belongs to which metric

  lemma MixDiffers(cfg: Config, a: real, b: real, c: real, d: real, a': real, b': real, c': real, d': real)
    ensures Mix(cfg, a', b', c', d') - Mix(cfg, a, b, c, d)
      == cfg.wTtft * (a' - a) + cfg.wVram * (b' - b) + cfg.wQueue * (c' - c) + cfg.wPrice * (d' - d)
  {
  }

  lemma QuotientDiffers(x: real, y: real, t: real)
    requires t != 0.0
    ensures x / t - y / t == (x - y) / t
  {
  }

  /** Within the reference, what is left of it shrinks by the difference over the reference. */
  lemma RoomDiffers(x: real, y: real, ref: real)
    requires ref > 0.0 && x <= y <= ref
    ensures Room(x / ref) - Room(y / ref) == (y - x) / ref
  {
    Ratio(x, ref, ref);
    Ratio(y, ref, ref);
    assert ref / ref == 1.0;
    QuotientDiffers(y, x, ref);
  }

  lemma NothingLeft(x: real, ref: real)
    requires ref > 0.0 && x >= ref
    ensures Room(x / ref) == 0.0
  {
    Ratio(ref, x, ref);
    assert ref / ref == 1.0;
  }

  /** Two workers that differ in the time to first token only. */
  lemma TtftCounts(cfg: Config, w: Worker, x: real, y: real)
    requires Sound(cfg) && cfg.wTtft + cfg.wVram + cfg.wQueue + cfg.wPrice != 0.0 && x <= y <= cfg.ttftRef
    ensures Score(cfg, w.(ttft := x)) - Score(cfg, w.(ttft := y))
      == cfg.wTtft * ((y - x) / cfg.ttftRef) / (cfg.wTtft + cfg.wVram + cfg.wQueue + cfg.wPrice)
  {
    hide Score, Mix, Room;
    RoomDiffers(x, y, cfg.ttftRef);
    ScoresDiffer(cfg, w.(ttft := x), w.(ttft := y));
  }

  lemma VramCounts(cfg: Config, w: Worker, x: real, y: real)
    requires Sound(cfg) && cfg.wTtft + cfg.wVram + cfg.wQueue + cfg.wPrice != 0.0 && x <= y <= 1.0
    ensures Score(cfg, w.(vram := x)) - Score(cfg, w.(vram := y))
      == cfg.wVram * (y - x) / (cfg.wTtft + cfg.wVram + cfg.wQueue + cfg.wPrice)
  {
    var a, c, d := Room(w.ttft / cfg.ttftRef), Room(w.queue as real / cfg.queueRef), Room(w.price / cfg.priceRef);
    var b, b' := Room(x), Room(y);
    assert b - b' == y - x;
    hide Score, Mix, Room, TotalWeight;
    SecondAlone(cfg.wTtft, cfg.wVram, cfg.wQueue, cfg.wPrice, a, b, b', c, d, y - x);
    ScoresDifferBy(cfg, w.(vram := x), w.(vram := y), cfg.wVram * (y - x));
  }

  lemma SecondAlone(p: real, q: real, r: real, s: real, a: real, b: real, b': real, c: real, d: real, difference: real)
    requires b - b' == difference
    ensures p * (a - a) + q * (b - b') + r * (c - c) + s * (d - d) == q * difference
  {
    var zero := 0.0;
    assert p * zero == zero && r * zero == zero && s * zero == zero;
  }

  lemma QueueCounts(cfg: Config, w: Worker, x: int, y: int)
    requires Sound(cfg) && cfg.wTtft + cfg.wVram + cfg.wQueue + cfg.wPrice != 0.0 && x <= y && y as real <= cfg.queueRef
    ensures Score(cfg, w.(queue := x)) - Score(cfg, w.(queue := y))
      == cfg.wQueue * ((y - x) as real / cfg.queueRef) / (cfg.wTtft + cfg.wVram + cfg.wQueue + cfg.wPrice)
  {
    hide Score, Mix, Room;
    RoomDiffers(x as real, y as real, cfg.queueRef);
    assert y as real - x as real == (y - x) as real;
    ScoresDiffer(cfg, w.(queue := x), w.(queue := y));
  }

  lemma PriceCounts(cfg: Config, w: Worker, x: real, y: real)
    requires Sound(cfg) && cfg.wTtft + cfg.wVram + cfg.wQueue + cfg.wPrice != 0.0 && x <= y <= cfg.priceRef
    ensures Score(cfg, w.(price := x)) - Score(cfg, w.(price := y))
      == cfg.wPrice * ((y - x) / cfg.priceRef) / (cfg.wTtft + cfg.wVram + cfg.wQueue + cfg.wPrice)
  {
    hide Score, Mix, Room;
    RoomDiffers(x, y, cfg.priceRef);
    ScoresDiffer(cfg, w.(price := x), w.(price := y));
  }

  lemma ScoresDiffer(cfg: Config, w: Worker, v: Worker)
    requires Sound(cfg) && cfg.wTtft + cfg.wVram + cfg.wQueue + cfg.wPrice != 0.0
    ensures Score(cfg, w) - Score(cfg, v)
      == (cfg.wTtft * (Room(w.ttft / cfg.ttftRef) - Room(v.ttft / cfg.ttftRef)) + cfg.wVram * (Room(w.vram) - Room(v.vram))
          + cfg.wQueue * (Room(w.queue as real / cfg.queueRef) - Room(v.queue as real / cfg.queueRef))
          + cfg.wPrice * (Room(w.price / cfg.priceRef) - Room(v.price / cfg.priceRef)))
         / (cfg.wTtft + cfg.wVram + cfg.wQueue + cfg.wPrice)
  {
    hide Room, Mix;
    var a, b := Room(w.ttft / cfg.ttftRef), Room(w.vram);
    var c, d := Room(w.queue as real / cfg.queueRef), Room(w.price / cfg.priceRef);
    var a', b' := Room(v.ttft / cfg.ttftRef), Room(v.vram);
    var c', d' := Room(v.queue as real / cfg.queueRef), Room(v.price / cfg.priceRef);
    MixDiffers(cfg, a', b', c', d', a, b, c, d);
    QuotientDiffers(Mix(cfg, a, b, c, d), Mix(cfg, a', b', c', d'), TotalWeight(cfg));
  }

  lemma ScoresDifferBy(cfg: Config, w: Worker, v: Worker, gap: real)
    requires Sound(cfg) && cfg.wTtft + cfg.wVram + cfg.wQueue + cfg.wPrice != 0.0
    requires gap == cfg.wTtft * (Room(w.ttft / cfg.ttftRef) - Room(v.ttft / cfg.ttftRef)) + cfg.wVram * (Room(w.vram) - Room(v.vram))
      + cfg.wQueue * (Room(w.queue as real / cfg.queueRef) - Room(v.queue as real / cfg.queueRef))
      + cfg.wPrice * (Room(w.price / cfg.priceRef) - Room(v.price / cfg.priceRef))
    ensures Score(cfg, w) - Score(cfg, v) == gap / (cfg.wTtft + cfg.wVram + cfg.wQueue + cfg.wPrice)
  {
    hide Score, Mix, Room;
    ScoresDiffer(cfg, w, v);
  }

  /** Past its reference a metric counts as the reference itself. */
  lemma BeyondReference(cfg: Config, w: Worker)
    requires Sound(cfg)
    ensures w.ttft >= cfg.ttftRef ==> Score(cfg, w) == Score(cfg, w.(ttft := cfg.ttftRef))
    ensures w.vram >= 1.0 ==> Score(cfg, w) == Score(cfg, w.(vram := 1.0))
    ensures w.price >= cfg.priceRef ==> Score(cfg, w) == Score(cfg, w.(price := cfg.priceRef))
    ensures forall q :: w.queue as real >= cfg.queueRef && q as real >= cfg.queueRef ==> Score(cfg, w) == Score(cfg, w.(queue := q))
  {
    hide Room, Mix;
    if w.ttft >= cfg.ttftRef {
      NothingLeft(w.ttft, cfg.ttftRef);
      NothingLeft(cfg.ttftRef, cfg.ttftRef);
    }
    if w.vram >= 1.0 {
      NothingLeft(w.vram, 1.0);
      NothingLeft(1.0, 1.0);
      assert w.vram / 1.0 == w.vram && 1.0 / 1.0 == 1.0;
    }
    if w.price >= cfg.priceRef {
      NothingLeft(w.price, cfg.priceRef);
      NothingLeft(cfg.priceRef, cfg.priceRef);
    }
    forall q | w.queue as real >= cfg.queueRef && q as real >= cfg.queueRef
      ensures Score(cfg, w) == Score(cfg, w.(queue := q))
    {
      NothingLeft(w.queue as real, cfg.queueRef);
      NothingLeft(q as real, cfg.queueRef);
    }
  }

  /** A worker at or past every reference scores nothing, and so does every worker when no metric has a weight. */
  lemma WorstScoresZero(cfg: Config, w: Worker)
    requires Sound(cfg)
    ensures w.ttft >= cfg.ttftRef && w.vram >= 1.0 && w.queue as real >= cfg.queueRef && w.price >= cfg.priceRef ==>
      Score(cfg, w) == 0.0
    ensures cfg.wTtft + cfg.wVram + cfg.wQueue + cfg.wPrice == 0.0 ==> Score(cfg, w) == 0.0
  {
    if w.ttft >= cfg.ttftRef && w.vram >= 1.0 && w.queue as real >= cfg.queueRef && w.price >= cfg.priceRef {
      NothingLeft(w.ttft, cfg.ttftRef);
      NothingLeft(w.queue as real, cfg.queueRef);
      NothingLeft(w.price, cfg.priceRef);
      assert Room(w.vram) == 0.0;
      hide Room;
    }
  }

  lemma DefaultScore(w: Worker, a: real, b: real, c: real, d: real)
    requires Room(w.ttft / 2000.0) == a && Room(w.vram) == b && Room(w.queue as real / 32.0) == c && Room(w.price / 5.0) == d
    ensures Score(DEFAULTS, w) == 0.45 * a + 0.35 * b + 0.15 * c + 0.05 * d
  {
    hide Room;
    assert TotalWeight(DEFAULTS) == 1.0;
  }

  /** The shipped windows: three seconds of freshness, and a choice among the best two. */
  lemma ShippedWindows(w: Worker, now: real)
    ensures IsEligible(DEFAULTS, w, now) <==> now - w.lastSeen <= 3.0 && w.brokenUntil <= now
    ensures DEFAULTS.topN == 2 && DEFAULTS.breakerCooldown == 5.0
  {
  }

  /**
   The shipped settings: a slow worker with free memory scores 0.55 and a fast one with
   full memory 0.65, so the fast one ranks first.
   */
  lemma FastBeatsRoomy(id: string, id': string, seen: real, seen': real)
    ensures Score(DEFAULTS, Worker(id, 0.0, 2000.0, 0, 0.0, seen, 0.0)) == 0.55
    ensures Score(DEFAULTS, Worker(id', 1.0, 0.0, 0, 0.0, seen', 0.0)) == 0.65
    ensures Ranked(DEFAULTS, [Worker(id, 0.0, 2000.0, 0, 0.0, seen, 0.0), Worker(id', 1.0, 0.0, 0, 0.0, seen', 0.0)])[0]
      == Worker(id', 1.0, 0.0, 0, 0.0, seen', 0.0)
  {
    var slow, fast := Worker(id, 0.0, 2000.0, 0, 0.0, seen, 0.0), Worker(id', 1.0, 0.0, 0, 0.0, seen', 0.0);
    DefaultScore(slow, 0.0, 1.0, 1.0, 1.0);
    DefaultScore(fast, 1.0, 0.0, 1.0, 1.0);
    hide Score, Ranked;
    BetterFirst(DEFAULTS, slow, fast);
  }

  lemma BetterFirst(cfg: Config, worse: Worker, better: Worker)
    requires Sound(cfg) && Score(cfg, worse) < Score(cfg, better)
    ensures Ranked(cfg, [worse, better])[0] == better
  {
    hide Score;
    var r := Ranked(cfg, [worse, better]);
    hide Ranked;
    assert r[0] in r && r[1] in r;
    assert better in [worse, better] && better in r;
  }

  /** A worker halfway to every reference scores one half. */
  lemma HalfwayScoresHalf(id: string, seen: real)
    ensures Score(DEFAULTS, Worker(id, 0.5, 1000.0, 16, 2.5, seen, 0.0)) == 0.5
  {
    var w := Worker(id, 0.5, 1000.0, 16, 2.5, seen, 0.0);
    assert w.queue as real / 32.0 == 0.5;
    hide Score;
    DefaultScore(w, 0.5, 0.5, 0.5, 0.5);
  }

  lemma FullQueueScores(id: string, seen: real)
    ensures Score(DEFAULTS, Worker(id, 0.0, 0.0, 32, 0.0, seen, 0.0)) == 0.85
  {
    hide Score;
    DefaultScore(Worker(id, 0.0, 0.0, 32, 0.0, seen, 0.0), 1.0, 1.0, 0.0, 1.0);
  }

  // ---------------------------------------------------------------- ranking

  /** `sorted(pool, key=score, reverse=True)`: best first, equals in their old order. */
  function Ranked(cfg: Config, pool: seq<Worker>): (r: seq<Worker>)
    requires Sound(cfg)
    ensures |r| == |pool| && forall w :: w in r <==> w in pool
    ensures Descending(cfg, r)
  {
    if pool == [] then []
    else Placed(cfg, Ranked(cfg, pool[..|pool| - 1]), pool[|pool| - 1])
  }

  predicate Descending(cfg: Config, r: seq<Worker>)
    requires Sound(cfg)
  {
    forall i, j :: 0 <= i < j < |r| ==> Score(cfg, r[i]) >= Score(cfg, r[j])
  }

  function Placed(cfg: Config, r: seq<Worker>, w: Worker): (out: seq<Worker>)
    requires Sound(cfg) && Descending(cfg, r)
    ensures |out| == |r| + 1 && forall x :: x in out <==> x in r || x == w
    ensures Descending(cfg, out)
  {
    if r == [] || Score(cfg, r[|r| - 1]) >= Score(cfg, w) then r + [w]
    else
      var front := Placed(cfg, r[..|r| - 1], w);
      assert forall i :: 0 <= i < |front| ==> front[i] in r[..|r| - 1] || front[i] == w;
      front + [r[|r| - 1]]
  }

  /** The workers of one score, in order. */
  function WithScore(cfg: Config, ws: seq<Worker>, score: real): seq<Worker>
    requires Sound(cfg)
  {
    if ws == [] then []
    else WithScore(cfg, ws[..|ws| - 1], score) + (if Score(cfg, ws[|ws| - 1]) == score then [ws[|ws| - 1]] else [])
  }

  lemma WithScoreOneMore(cfg: Config, ws: seq<Worker>, w: Worker, score: real)
    requires Sound(cfg)
    ensures WithScore(cfg, ws + [w], score) == WithScore(cfg, ws, score) + (if Score(cfg, w) == score then [w] else [])
  {
    hide Score;
    assert (ws + [w])[..|ws|] == ws;
  }

  lemma {:induction false} PlacedIsStable(cfg: Config, r: seq<Worker>, w: Worker, score: real)
    requires Sound(cfg) && Descending(cfg, r)
    ensures WithScore(cfg, Placed(cfg, r, w), score) == WithScore(cfg, r, score) + (if Score(cfg, w) == score then [w] else [])
  {
    hide Score, WithScore;
    if r == [] || Score(cfg, r[|r| - 1]) >= Score(cfg, w) {
      WithScoreOneMore(cfg, r, w, score);
    } else {
      var init, last := r[..|r| - 1], r[|r| - 1];
      PlacedIsStable(cfg, init, w, score);
      WithScoreOneMore(cfg, Placed(cfg, init, w), last, score);
      assert r == init + [last];
      WithScoreOneMore(cfg, init, last, score);
    }
  }

  lemma {:induction false} PlacedIsPermutation(cfg: Config, r: seq<Worker>, w: Worker)
    requires Sound(cfg) && Descending(cfg, r)
    ensures multiset(Placed(cfg, r, w)) == multiset(r) + multiset{w}
  {
    hide Score;
    if !(r == [] || Score(cfg, r[|r| - 1]) >= Score(cfg, w)) {
      PlacedIsPermutation(cfg, r[..|r| - 1], w);
      assert r == r[..|r| - 1] + [r[|r| - 1]];
    }
  }

  /** Ranking permutes the pool, and among equal scores it keeps the pool's order. */
  lemma {:induction false} RankedIsStable(cfg: Config, pool: seq<Worker>, score: real)
    requires Sound(cfg)
    ensures multiset(Ranked(cfg, pool)) == multiset(pool)
    ensures WithScore(cfg, Ranked(cfg, pool), score) == WithScore(cfg, pool, score)
  {
    hide Score, Placed, WithScore, Descending;
    if pool != [] {
      var init, last := pool[..|pool| - 1], pool[|pool| - 1];
      RankedIsStable(cfg, init, score);
      PlacedIsPermutation(cfg, Ranked(cfg, init), last);
      PlacedIsStable(cfg, Ranked(cfg, init), last, score);
      assert pool == init + [last];
      WithScoreOneMore(cfg, init, last, score);
    }
  }

  ghost function Higher(cfg: Config, pool: seq<Worker>, score: real): set<Worker>
    requires Sound(cfg)
  {
    set w | w in pool && Score(cfg, w) > score
  }

  ghost function Elements(ws: seq<Worker>): set<Worker> {
    set w | w in ws
  }

  lemma {:induction false} FewElements(ws: seq<Worker>)
    ensures |Elements(ws)| <= |ws|
  {
    if ws != [] {
      FewElements(ws[..|ws| - 1]);
      assert Elements(ws) == Elements(ws[..|ws| - 1]) + {ws[|ws| - 1]};
    }
  }

  lemma Smaller(a: set<Worker>, b: set<Worker>)
    requires a <= b
    ensures |a| <= |b|
  {
    assert b == a + (b - a);
  }

  /** Fewer than `k + 1` workers outrank the one at position `k`. */
  lemma RankBounds(cfg: Config, pool: seq<Worker>, k: nat)
    requires Sound(cfg) && k < |pool|
    ensures |Higher(cfg, pool, Score(cfg, Ranked(cfg, pool)[k]))| <= k
  {
    hide Score, Ranked;
    var r := Ranked(cfg, pool);
    var top := r[..k];
    FewElements(top);
    forall w | w in Higher(cfg, pool, Score(cfg, r[k])) ensures w in top {
      var i :| 0 <= i < |r| && r[i] == w;
      assert i < k;
      assert top[i] == w;
    }
    Smaller(Higher(cfg, pool, Score(cfg, r[k])), Elements(top));
  }

  // ---------------------------------------------------------------- the retry plan

  ghost predicate DistinctWorkers(ws: seq<Worker>) {
    forall i, j :: 0 <= i < j < |ws| ==> ws[i].id != ws[j].id
  }

  function Minimum(a: nat, b: nat): nat {
    if a <= b then a else b
  }

  /**
   What every retry plan is, whatever the random draws: distinct workers, all eligible
   at one instant, as many as there can be, and position `i` outranked by fewer than
   `i + topN` of the eligible ones.
   */
  ghost predicate IsRetryPlan(cfg: Config, eligible: set<Worker>, plan: seq<Worker>, maxAttempts: nat)
    requires Sound(cfg)
  {
    && |plan| == Minimum(maxAttempts, |eligible|)
    && DistinctWorkers(plan)
    && (forall i :: 0 <= i < |plan| ==> plan[i] in eligible)
    && (forall i :: 0 <= i < |plan| ==> |Better(cfg, eligible, Score(cfg, plan[i]))| < i + cfg.topN)
  }

  ghost function Better(cfg: Config, eligible: set<Worker>, score: real): set<Worker>
    requires Sound(cfg)
  {
    set w | w in eligible && Score(cfg, w) > score
  }

  lemma {:induction false} AsManyElements(ws: seq<Worker>)
    requires DistinctWorkers(ws)
    ensures |Elements(ws)| == |ws|
  {
    if ws != [] {
      var init, last := ws[..|ws| - 1], ws[|ws| - 1];
      AsManyElements(init);
      assert Elements(ws) == Elements(init) + {last} && last !in Elements(init);
    }
  }

  /** The list that was drawn from and the set it lists give the same plan. */
  lemma PlanOverSet(cfg: Config, listed: seq<Worker>, eligible: set<Worker>, plan: seq<Worker>, maxAttempts: nat)
    requires Sound(cfg) && DistinctWorkers(listed) && (forall w :: w in listed <==> w in eligible)
    requires |plan| == Minimum(maxAttempts, |listed|) && DistinctWorkers(plan)
    requires forall i :: 0 <= i < |plan| ==> plan[i] in listed
    requires forall i :: 0 <= i < |plan| ==> |Higher(cfg, listed, Score(cfg, plan[i]))| < i + cfg.topN
    ensures IsRetryPlan(cfg, eligible, plan, maxAttempts)
  {
    hide Score;
    AsManyElements(listed);
    assert Elements(listed) == eligible;
    forall i | 0 <= i < |plan| ensures |Better(cfg, eligible, Score(cfg, plan[i]))| < i + cfg.topN {
      assert Better(cfg, eligible, Score(cfg, plan[i])) == Higher(cfg, listed, Score(cfg, plan[i]));
    }
  }

  /** `[w for w in self.eligible(now) if w.id not in exclude]`. */
  function Remaining(eligible: seq<Worker>, tried: set<string>): (pool: seq<Worker>)
    ensures forall w :: w in pool <==> w in eligible && w.id !in tried
    ensures |pool| <= |eligible|
  {
    if eligible == [] then []
    else (if eligible[0].id in tried then [] else [eligible[0]]) + Remaining(eligible[1..], tried)
  }

  /** Taking `i` distinct workers out of the eligible ones leaves exactly the others. */
  lemma {:induction false} RemainingSize(eligible: seq<Worker>, plan: seq<Worker>)
    requires DistinctWorkers(eligible) && DistinctWorkers(plan) && forall i :: 0 <= i < |plan| ==> plan[i] in eligible
    ensures |Remaining(eligible, set w | w in plan :: w.id)| == |eligible| - |plan|
    decreases |plan|
  {
    if plan == [] {
      NoneTried(eligible);
      assert (set w | w in plan :: w.id) == {};
    } else {
      var init, last := plan[..|plan| - 1], plan[|plan| - 1];
      RemainingSize(eligible, init);
      var tried := set w | w in init :: w.id;
      TriedMore(plan);
      hide Remaining;
      OneMoreTried(eligible, tried, last);
    }
  }

  lemma TriedMore(plan: seq<Worker>)
    requires plan != [] && DistinctWorkers(plan)
    ensures var init, last := plan[..|plan| - 1], plan[|plan| - 1];
      var tried := set w | w in init :: w.id;
      (set w | w in plan :: w.id) == tried + {last.id} && last.id !in tried
  {
    var init, last := plan[..|plan| - 1], plan[|plan| - 1];
    assert plan == init + [last];
    forall w | w in init ensures w.id != last.id {
      var i :| 0 <= i < |init| && init[i] == w;
    }
  }

  lemma {:induction false} NoneTried(eligible: seq<Worker>)
    ensures Remaining(eligible, {}) == eligible
  {
    if eligible != [] {
      NoneTried(eligible[1..]);
    }
  }

  lemma {:induction false} OneMoreTried(eligible: seq<Worker>, tried: set<string>, w: Worker)
    requires DistinctWorkers(eligible) && w in eligible && w.id !in tried
    ensures |Remaining(eligible, tried + {w.id})| == |Remaining(eligible, tried)| - 1
  {
    var rest := eligible[1..];
    if eligible[0] == w {
      SameWithout(rest, tried, w.id);
    } else {
      assert w in rest;
      OneMoreTried(rest, tried, w);
    }
  }

  lemma {:induction false} SameWithout(eligible: seq<Worker>, tried: set<string>, id: string)
    requires forall i :: 0 <= i < |eligible| ==> eligible[i].id != id
    ensures Remaining(eligible, tried + {id}) == Remaining(eligible, tried)
  {
    if eligible != [] {
      SameWithout(eligible[1..], tried, id);
    }
  }

  /** Leaving `i` tried workers out hides at most `i` of those that outrank a choice. */
  lemma HigherThanPlanned(cfg: Config, eligible: seq<Worker>, plan: seq<Worker>, score: real)
    requires Sound(cfg) && DistinctWorkers(eligible) && forall i :: 0 <= i < |plan| ==> plan[i] in eligible
    ensures |Higher(cfg, eligible, score)|
         <= |Higher(cfg, Remaining(eligible, set w | w in plan :: w.id), score)| + |plan|
  {
    var tried := set w | w in plan :: w.id;
    var seen := Elements(plan);
    var rest := Higher(cfg, Remaining(eligible, tried), score);
    FewElements(plan);
    forall w | w in Higher(cfg, eligible, score) ensures w in rest + seen {
      if w.id in tried {
        var x :| x in plan && x.id == w.id;
        assert x == w;
      }
    }
    Smaller(Higher(cfg, eligible, score), rest + seen);
  }

  class WorkerSelector {
    const cfg: Config
    var workers: map<string, Worker>

    /** The dictionary's keys in insertion order. */
    var order: seq<string>

    ghost predicate Valid()
      reads this
    {
      && Sound(cfg) && Distinct(order) && (forall id :: id in order <==> id in workers)
      && (forall id :: id in workers ==> workers[id].id == id)
    }

    constructor (cfg: Config)
      requires Sound(cfg)
      ensures Valid() && this.cfg == cfg && workers == map[]
    {
      this.cfg, workers, order := cfg, map[], [];
    }

    method Upsert(w: Worker)
      requires Valid()
      modifies this`workers, this`order
      ensures Valid() && workers == old(workers)[w.id := w]
    {
      if w.id !in workers {
        order := order + [w.id];
      }
      workers := workers[w.id := w];
    }

    /** All four metrics given, as `sync_from_ingest` calls it; an unknown worker is left out. */
    method UpdateTelemetry(id: string, vram: real, ttft: real, queue: int, price: real, now: real)
      requires Valid()
      modifies this`workers
      ensures Valid()
      ensures workers == if id in old(workers)
        then old(workers)[id := Worker(id, vram, ttft, queue, price, now, old(workers)[id].brokenUntil)] else old(workers)
    {
      if id in workers {
        workers := workers[id := workers[id].(vram := vram, ttft := ttft, queue := queue, price := price, lastSeen := now)];
      }
    }

    method TripBreaker(id: string, now: real)
      requires Valid()
      modifies this`workers
      ensures Valid()
      ensures workers == if id in old(workers)
        then old(workers)[id := old(workers)[id].(brokenUntil := now + cfg.breakerCooldown)] else old(workers)
    {
      if id in workers {
        workers := workers[id := workers[id].(brokenUntil := now + cfg.breakerCooldown)];
      }
    }

    ghost function EligibleSet(now: real): set<Worker>
      reads this
      requires Valid()
    {
      set id | id in workers && IsEligible(cfg, workers[id], now) :: workers[id]
    }

    method Eligible(now: real) returns (out: seq<Worker>)
      requires Valid()
      ensures DistinctWorkers(out)
      ensures forall w :: w in out <==> w in EligibleSet(now)
    {
      out := [];
      var i := 0;
      while i < |order|
        invariant 0 <= i <= |order| && DistinctWorkers(out)
        invariant forall w :: w in out <==> w.id in order[..i] && workers[w.id] == w && IsEligible(cfg, w, now)
      {
        var w := workers[order[i]];
        assert order[..i + 1] == order[..i] + [order[i]];
        assert order[i] !in order[..i];
        if IsFresh(w, now, cfg.telemetryFresh) && !IsBroken(w, now) {
          out := out + [w];
        }
        i := i + 1;
      }
      assert order[..i] == order;
    }

    /** `random.choices(top, ...)`: every weight is positive, so any of the top may come. */
    method Select(eligible: seq<Worker>, tried: set<string>) returns (w: Option<Worker>)
      requires Valid()
      ensures w.None? <==> Remaining(eligible, tried) == []
      ensures w.Some? ==>
        && w.value in eligible && w.value.id !in tried
        && |Higher(cfg, Remaining(eligible, tried), Score(cfg, w.value))| < cfg.topN
    {
      var pool := Remaining(eligible, tried);
      if pool == [] {
        return None;
      }
      var ranked := Ranked(cfg, pool);
      var top := ranked[..Minimum(cfg.topN, |ranked|)];
      var k :| 0 <= k < |top|;
      RankBounds(cfg, pool, k);
      assert ranked[k] in pool;
      return Some(top[k]);
    }

    method SelectWithRetryPlan(maxAttempts: nat, now: real) returns (plan: seq<Worker>)
      requires Valid()
      ensures IsRetryPlan(cfg, EligibleSet(now), plan, maxAttempts)
    {
      hide Score, Higher, IsRetryPlan;
      plan := [];
      var tried: set<string> := {};
      var eligible := Eligible(now);
      var n := 0;
      while n < maxAttempts
        invariant 0 <= n <= maxAttempts && |plan| == n && tried == set w | w in plan :: w.id
        invariant DistinctWorkers(plan) && forall i :: 0 <= i < |plan| ==> plan[i] in eligible
        invariant forall i :: 0 <= i < |plan| ==> |Higher(cfg, eligible, Score(cfg, plan[i]))| < i + cfg.topN
      {
        RemainingSize(eligible, plan);
        var w := Select(eligible, tried);
        if w.None? {
          break;
        }
        HigherThanPlanned(cfg, eligible, plan, Score(cfg, w.value));
        plan := plan + [w.value];
        tried := tried + {w.value.id};
        n := n + 1;
      }
      RemainingSize(eligible, plan);
      PlanOverSet(cfg, eligible, EligibleSet(now), plan, maxAttempts);
    }
  }
}
