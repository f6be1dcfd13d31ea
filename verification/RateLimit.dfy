/** The fixed-window rate limiter on expiring counters
    (internal/infrastructure/http/middleware/ratelimit.go:20-62). */
module RateLimit {
  import opened Wrappers

  /** Clock readings and lifetimes are milliseconds. */
  const MINUTE: nat := 60_000
  const DAY: nat := 86_400_000

  datatype Key = MinuteKey(token: string, bucket: nat) | DayKey(token: string, date: nat)

  /** A counter without expiry lives on. */
  datatype Counter = Counter(count: nat, expiry: Option<nat>)

  type Store = map<Key, Counter>

  datatype Limits = Limits(perMinute: int, perDay: int)

  datatype Request = Request(token: Option<string>, now: nat)

  datatype Verdict = Passed | MinuteRejected | DayRejected

  /** The limits of each token and the date each clock reading falls on. */
  datatype Setting = Setting(limits: string -> Limits, date: nat -> nat)

  function BucketOf(now: nat): nat {
    now / MINUTE
  }

  // ----- the store -----

  predicate Alive(store: Store, k: Key, now: nat) {
    k in store && (store[k].expiry.Some? ==> now <= store[k].expiry.value)
  }

  /** INCR, and EXPIRE when the counter starts at one. */
  function Hit(store: Store, k: Key, now: nat, life: nat): Store {
    if Alive(store, k, now) then store[k := Counter(store[k].count + 1, store[k].expiry)]
    else store[k := Counter(1, Some(now + life))]
  }

  function Minute(token: string, now: nat): Key {
    MinuteKey(token, BucketOf(now))
  }

  function Day(g: Setting, token: string, now: nat): Key {
    DayKey(token, g.date(now))
  }

  function Decide(g: Setting, store: Store, r: Request): (Store, Verdict) {
    match r.token
    case None => (store, Passed)
    case Some(token) =>
      var minute := Hit(store, Minute(token, r.now), r.now, MINUTE);
      if minute[Minute(token, r.now)].count > g.limits(token).perMinute then (minute, MinuteRejected)
      else
        var day := Hit(minute, Day(g, token, r.now), r.now, DAY);
        (day, if day[Day(g, token, r.now)].count > g.limits(token).perDay then DayRejected else Passed)
  }

  /** The middleware with the store it updates in place. */
  class RateLimiter {
    const setting: Setting
    var store: Store

    constructor (setting: Setting)
      ensures this.setting == setting && store == map[]
    {
      this.setting := setting;
      store := map[];
    }

    method Incr(k: Key, now: nat) returns (count: nat)
      modifies this
      ensures k in store && count == store[k].count
      ensures store == if Alive(old(store), k, now)
                       then old(store)[k := Counter(old(store)[k].count + 1, old(store)[k].expiry)]
                       else old(store)[k := Counter(1, None)]
    {
      var current := if Alive(store, k, now) then store[k] else Counter(0, None);
      store := store[k := Counter(current.count + 1, current.expiry)];
      count := current.count + 1;
    }

    method Expire(k: Key, now: nat, life: nat)
      requires k in store
      modifies this
      ensures store == old(store)[k := Counter(old(store)[k].count, Some(now + life))]
    {
      store := store[k := store[k].(expiry := Some(now + life))];
    }

    /** Counters already stored count at least one hit. */
    predicate Counted()
      reads this
    {
      forall k :: k in store ==> store[k].count > 0
    }

    method Limit(r: Request) returns (verdict: Verdict)
      requires Counted()
      modifies this
      ensures Counted()
      ensures (store, verdict) == Decide(setting, old(store), r)
    {
      if r.token.None? {
        return Passed;
      }
      var token := r.token.value;
      var minuteKey := Minute(token, r.now);
      var count := Incr(minuteKey, r.now);
      if count == 1 {
        Expire(minuteKey, r.now, MINUTE);
      }
      assert store == Hit(old(store), minuteKey, r.now, MINUTE);
      ghost var minute := store;
      if count > setting.limits(token).perMinute {
        return MinuteRejected;
      }
      var dayKey := Day(setting, token, r.now);
      var dayCount := Incr(dayKey, r.now);
      if dayCount == 1 {
        Expire(dayKey, r.now, DAY);
      }
      assert store == Hit(minute, dayKey, r.now, DAY);
      if dayCount > setting.limits(token).perDay {
        return DayRejected;
      }
      return Passed;
    }
  }

  // ----- runs -----

  function StoreAfter(g: Setting, rs: seq<Request>): Store {
    if rs == [] then map[] else Decide(g, StoreAfter(g, rs[..|rs| - 1]), rs[|rs| - 1]).0
  }

  /** The verdict on request r after the requests rs. */
  function VerdictAfter(g: Setting, rs: seq<Request>, r: Request): Verdict {
    Decide(g, StoreAfter(g, rs), r).1
  }

  // ----- the reference: counting requests, without keys or expiry -----

  predicate InBucket(r: Request, token: string, bucket: nat) {
    r.token == Some(token) && BucketOf(r.now) == bucket
  }

  predicate OnDate(g: Setting, r: Request, token: string, date: nat) {
    r.token == Some(token) && g.date(r.now) == date
  }

  function MinuteCount(rs: seq<Request>, token: string, bucket: nat): nat {
    if rs == [] then 0
    else MinuteCount(rs[..|rs| - 1], token, bucket) + if InBucket(rs[|rs| - 1], token, bucket) then 1 else 0
  }

  /** Requests of a date that the minute limit let through. */
  function DayCount(g: Setting, rs: seq<Request>, token: string, date: nat): nat {
    if rs == [] then 0
    else
      var before, r := rs[..|rs| - 1], rs[|rs| - 1];
      DayCount(g, before, token, date)
        + if OnDate(g, r, token, date) && MinuteCount(before, token, BucketOf(r.now)) < g.limits(token).perMinute
          then 1 else 0
  }

  /** The verdict by counting alone. */
  function Counting(g: Setting, rs: seq<Request>, r: Request): Verdict {
    match r.token
    case None => Passed
    case Some(token) =>
      if MinuteCount(rs, token, BucketOf(r.now)) >= g.limits(token).perMinute then MinuteRejected
      else if DayCount(g, rs, token, g.date(r.now)) >= g.limits(token).perDay then DayRejected
      else Passed
  }

  /** No two clock readings of the date are more than 24 hours apart. */
  ghost predicate ShortDate(date: nat -> nat, d: nat) {
    forall a: nat, b: nat :: date(a) == d && date(b) == d ==> b <= a + DAY
  }

  // ----- the keys count -----

  predicate MinuteKeyCounts(store: Store, token: string, bucket: nat, n: nat) {
    var k := MinuteKey(token, bucket);
    if n == 0 then k !in store
    else k in store && store[k].count == n && store[k].expiry.Some? && (bucket + 1) * MINUTE <= store[k].expiry.value
  }

  ghost predicate DayKeyCounts(g: Setting, store: Store, token: string, date: nat, n: nat) {
    var k := DayKey(token, date);
    if n == 0 then k !in store
    else
      && k in store && store[k].count == n && store[k].expiry.Some?
      && exists first: nat :: g.date(first) == date && store[k].expiry.value == first + DAY
  }

  /** A minute key never expires inside its own bucket, so it counts every request of the bucket. */
  lemma {:induction false} MinuteKeysCount(g: Setting, rs: seq<Request>, token: string, bucket: nat)
    ensures MinuteKeyCounts(StoreAfter(g, rs), token, bucket, MinuteCount(rs, token, bucket))
  {
    if rs != [] {
      MinuteKeysCount(g, rs[..|rs| - 1], token, bucket);
    }
  }

  lemma {:induction false} DayKeysCount(g: Setting, rs: seq<Request>, token: string, date: nat)
    requires ShortDate(g.date, date)
    ensures DayKeyCounts(g, StoreAfter(g, rs), token, date, DayCount(g, rs, token, date))
  {
    if rs != [] {
      var before, r := rs[..|rs| - 1], rs[|rs| - 1];
      DayKeysCount(g, before, token, date);
      if r.token.Some? {
        MinuteKeysCount(g, before, r.token.value, BucketOf(r.now));
      }
    }
  }

  /** The limiter with expiring keys decides as counting does, on every run whose dates last at most 24 hours. */
  lemma LimiterCounts(g: Setting, rs: seq<Request>, r: Request)
    requires ShortDate(g.date, g.date(r.now))
    ensures VerdictAfter(g, rs, r) == Counting(g, rs, r)
  {
    if r.token.Some? {
      MinuteKeysCount(g, rs, r.token.value, BucketOf(r.now));
      DayKeysCount(g, rs, r.token.value, g.date(r.now));
    }
  }

  // ----- how much passes -----

  /** Requests of a run that pass and satisfy p. */
  function Passes(g: Setting, rs: seq<Request>, p: Request -> bool): nat {
    if rs == [] then 0
    else
      var before, r := rs[..|rs| - 1], rs[|rs| - 1];
      Passes(g, before, p) + if p(r) && VerdictAfter(g, before, r) == Passed then 1 else 0
  }

  function AtMost(limit: int): nat {
    if limit > 0 then limit else 0
  }

  lemma {:induction false} BucketBound(g: Setting, rs: seq<Request>, token: string, bucket: nat)
    ensures var passes := Passes(g, rs, (r: Request) => InBucket(r, token, bucket));
            passes <= AtMost(g.limits(token).perMinute) && passes <= MinuteCount(rs, token, bucket)
  {
    if rs != [] {
      var before := rs[..|rs| - 1];
      BucketBound(g, before, token, bucket);
      MinuteKeysCount(g, before, token, bucket);
    }
  }

  /** A date of at most 24 hours passes at most the daily limit. */
  lemma {:induction false} DateBound(g: Setting, rs: seq<Request>, token: string, date: nat)
    requires ShortDate(g.date, date)
    ensures var passes := Passes(g, rs, (r: Request) => OnDate(g, r, token, date));
            passes <= AtMost(g.limits(token).perDay) && passes <= DayCount(g, rs, token, date)
  {
    if rs != [] {
      var before, r := rs[..|rs| - 1], rs[|rs| - 1];
      DateBound(g, before, token, date);
      if OnDate(g, r, token, date) {
        LimiterCounts(g, before, r);
      }
    }
  }

  lemma {:induction false} PassesSplit(g: Setting, rs: seq<Request>, p: Request -> bool, q: Request -> bool,
                                       either: Request -> bool)
    requires forall r :: either(r) ==> p(r) || q(r)
    ensures Passes(g, rs, either) <= Passes(g, rs, p) + Passes(g, rs, q)
  {
    if rs != [] {
      PassesSplit(g, rs[..|rs| - 1], p, q, either);
    }
  }

  predicate InBuckets(r: Request, token: string, first: nat, last: nat) {
    r.token == Some(token) && first <= BucketOf(r.now) <= last
  }

  lemma {:induction false} BucketsBound(g: Setting, rs: seq<Request>, token: string, first: nat, k: nat)
    ensures Passes(g, rs, (r: Request) => InBuckets(r, token, first, first + k))
         <= (k + 1) * AtMost(g.limits(token).perMinute)
    decreases k
  {
    var all := (r: Request) => InBuckets(r, token, first, first + k);
    var last := (r: Request) => InBucket(r, token, first + k);
    var limit := AtMost(g.limits(token).perMinute);
    BucketBound(g, rs, token, first + k);
    if k == 0 {
      PassesSplit(g, rs, last, (r: Request) => false, all);
      NonePass(g, rs);
    } else {
      BucketsBound(g, rs, token, first, k - 1);
      PassesSplit(g, rs, (r: Request) => InBuckets(r, token, first, first + k - 1), last, all);
      assert (k + 1) * limit == k * limit + limit;
    }
  }

  lemma {:induction false} NonePass(g: Setting, rs: seq<Request>)
    ensures Passes(g, rs, (r: Request) => false) == 0
  {
    if rs != [] {
      NonePass(g, rs[..|rs| - 1]);
    }
  }

  predicate Within(r: Request, token: string, from: nat, length: nat) {
    r.token == Some(token) && from <= r.now <= from + length
  }

  /** Any interval of k minutes, wherever it starts, passes at most (k+1) times the minute limit. */
  lemma IntervalBound(g: Setting, rs: seq<Request>, token: string, from: nat, k: nat)
    ensures Passes(g, rs, (r: Request) => Within(r, token, from, k * 60_000))
         <= (k + 1) * AtMost(g.limits(token).perMinute)
  {
    var first := BucketOf(from);
    var inside := (r: Request) => Within(r, token, from, k * MINUTE);
    var buckets := (r: Request) => InBuckets(r, token, first, first + k);
    forall r | inside(r) ensures buckets(r) {
      assert BucketOf(from + k * MINUTE) == first + k;
    }
    PassesSplit(g, rs, buckets, (r: Request) => false, inside);
    NonePass(g, rs);
    BucketsBound(g, rs, token, first, k);
  }

  // The bound is attained: the whole limit at each of the k + 1 minutes' marks.

  /** `limit` requests at each mark before the one of bucket b, and j there. */
  function Bursts(token: string, limit: nat, b: nat, j: nat): seq<Request>
    decreases b, j
  {
    if j > 0 then Bursts(token, limit, b, j - 1) + [Request(Some(token), b * MINUTE)]
    else if b > 0 then Bursts(token, limit, b - 1, limit)
    else []
  }

  lemma {:induction false} BurstsCount(token: string, limit: nat, b: nat, j: nat, bucket: nat)
    requires b <= bucket
    ensures MinuteCount(Bursts(token, limit, b, j), token, bucket) == if bucket == b then j else 0
    ensures |Bursts(token, limit, b, j)| == b * limit + j
    decreases b, j
  {
    if j > 0 {
      BurstsCount(token, limit, b, j - 1, bucket);
      OneMoreRequest(Bursts(token, limit, b, j - 1), Request(Some(token), b * MINUTE), token, bucket);
      assert BucketOf(b * MINUTE) == b;
    } else if b > 0 {
      BurstsCount(token, limit, b - 1, limit, bucket);
      assert b * limit == (b - 1) * limit + limit;
    }
  }

  lemma OneMoreRequest(rs: seq<Request>, r: Request, token: string, bucket: nat)
    ensures MinuteCount(rs + [r], token, bucket)
         == MinuteCount(rs, token, bucket) + if InBucket(r, token, bucket) then 1 else 0
  {
    assert (rs + [r])[..|rs|] == rs;
  }

  lemma {:induction false} DayCountAtMost(g: Setting, rs: seq<Request>, token: string, date: nat)
    ensures DayCount(g, rs, token, date) <= |rs|
  {
    if rs != [] {
      DayCountAtMost(g, rs[..|rs| - 1], token, date);
    }
  }

  lemma BurstVerdict(g: Setting, token: string, limit: nat, k: nat, b: nat, j: nat)
    requires g.limits(token).perMinute == limit && g.limits(token).perDay >= (k + 1) * limit
    requires forall date :: ShortDate(g.date, date)
    requires b <= k && j < limit
    ensures VerdictAfter(g, Bursts(token, limit, b, j), Request(Some(token), b * MINUTE)) == Passed
  {
    var before, r := Bursts(token, limit, b, j), Request(Some(token), b * MINUTE);
    BurstsCount(token, limit, b, j, b);
    DayCountAtMost(g, before, token, g.date(r.now));
    ScaledUp(b, j + 1, k, limit);
    assert BucketOf(b * MINUTE) == b;
    hide Bursts, ShortDate, MinuteCount, DayCount, VerdictAfter;
    LimiterCounts(g, before, r);
  }

  lemma OneMorePasses(g: Setting, rs: seq<Request>, r: Request, p: Request -> bool)
    requires p(r) && VerdictAfter(g, rs, r) == Passed
    ensures Passes(g, rs + [r], p) == Passes(g, rs, p) + 1
  {
    hide VerdictAfter;
    assert (rs + [r])[..|rs|] == rs;
  }

  lemma {:induction false} BurstsPass(g: Setting, token: string, limit: nat, k: nat, b: nat, j: nat, p: Request -> bool)
    requires g.limits(token).perMinute == limit && g.limits(token).perDay >= (k + 1) * limit
    requires forall date :: ShortDate(g.date, date)
    requires b <= k && j <= limit && forall i: nat :: i <= k ==> p(Request(Some(token), i * MINUTE))
    ensures Passes(g, Bursts(token, limit, b, j), p) == b * limit + j
    decreases b, j
  {
    hide Passes, VerdictAfter, ShortDate;
    if j > 0 {
      BurstsPass(g, token, limit, k, b, j - 1, p);
      BurstVerdict(g, token, limit, k, b, j - 1);
      OneMorePasses(g, Bursts(token, limit, b, j - 1), Request(Some(token), b * MINUTE), p);
    } else if b > 0 {
      BurstsPass(g, token, limit, k, b - 1, limit, p);
      assert b * limit == (b - 1) * limit + limit;
    } else {
      NothingPasses(g, p);
    }
  }

  lemma NothingPasses(g: Setting, p: Request -> bool)
    ensures Passes(g, [], p) == 0
  {
  }

  lemma ScaledUp(b: nat, j: nat, k: nat, limit: nat)
    requires b <= k && j <= limit
    ensures b * limit + j <= (k + 1) * limit
  {
    assert (k + 1) * limit == b * limit + (k - b) * limit + limit;
  }

  /** For every k and every minute limit there are k minutes in which (k+1) times the limit passes. */
  lemma IntervalBoundAttained(g: Setting, token: string, k: nat)
    requires g.limits(token).perMinute >= 0
    requires g.limits(token).perDay >= (k + 1) * g.limits(token).perMinute
    requires forall date :: ShortDate(g.date, date)
    ensures var limit := g.limits(token).perMinute;
            Passes(g, Bursts(token, limit, k, limit), (r: Request) => Within(r, token, 0, k * MINUTE))
            == (k + 1) * AtMost(limit)
  {
    hide Passes, VerdictAfter, ShortDate, Bursts;
    var limit := g.limits(token).perMinute;
    var p := (r: Request) => Within(r, token, 0, k * MINUTE);
    forall i: nat | i <= k ensures p(Request(Some(token), i * MINUTE)) {
    }
    BurstsPass(g, token, limit, k, k, limit, p);
    assert (k + 1) * limit == k * limit + limit;
  }

  // ----- days -----

  predicate OnDates(g: Setting, r: Request, token: string, first: nat, last: nat) {
    r.token == Some(token) && first <= g.date(r.now) <= last
  }

  /** n + 1 dates of at most 24 hours pass at most n + 1 times the daily limit. */
  lemma {:induction false} DatesBound(g: Setting, rs: seq<Request>, token: string, first: nat, n: nat)
    requires forall date :: first <= date <= first + n ==> ShortDate(g.date, date)
    ensures Passes(g, rs, (r: Request) => OnDates(g, r, token, first, first + n))
         <= (n + 1) * AtMost(g.limits(token).perDay)
    decreases n
  {
    var all := (r: Request) => OnDates(g, r, token, first, first + n);
    var last := (r: Request) => OnDate(g, r, token, first + n);
    var limit := AtMost(g.limits(token).perDay);
    DateBound(g, rs, token, first + n);
    if n == 0 {
      PassesSplit(g, rs, last, (r: Request) => false, all);
      NonePass(g, rs);
    } else {
      DatesBound(g, rs, token, first, n - 1);
      PassesSplit(g, rs, (r: Request) => OnDates(g, r, token, first, first + n - 1), last, all);
      assert (n + 1) * limit == n * limit + limit;
    }
  }

  /** Dates follow one another. */
  ghost predicate InOrder(date: nat -> nat) {
    forall a: nat, b: nat :: a <= b ==> date(a) <= date(b)
  }

  /** Any interval, over dates in order that last at most 24 hours, passes at most the daily limit
      once for each date from its first to its last. */
  lemma DayIntervalBound(g: Setting, rs: seq<Request>, token: string, from: nat, length: nat)
    requires InOrder(g.date) && forall date :: ShortDate(g.date, date)
    ensures var dates := g.date(from + length) - g.date(from) + 1;
            dates > 0
            && Passes(g, rs, (r: Request) => Within(r, token, from, length)) <= dates * AtMost(g.limits(token).perDay)
  {
    var first, n := g.date(from), g.date(from + length) - g.date(from);
    var inside := (r: Request) => Within(r, token, from, length);
    var dates := (r: Request) => OnDates(g, r, token, first, first + n);
    forall r | inside(r) ensures dates(r) {
      assert g.date(from) <= g.date(r.now) <= g.date(from + length);
    }
    PassesSplit(g, rs, dates, (r: Request) => false, inside);
    NonePass(g, rs);
    DatesBound(g, rs, token, first, n);
  }

  /** Where every date lasts 24 hours, any interval of k days passes at most k + 1 times the daily limit. */
  lemma DaysBound(limits: string -> Limits, offset: nat, rs: seq<Request>, token: string, from: nat, k: nat)
    ensures var g := Setting(limits, (now: nat) => (now + offset) / 86_400_000);
            Passes(g, rs, (r: Request) => Within(r, token, from, k * 86_400_000))
            <= (k + 1) * AtMost(limits(token).perDay)
  {
    var g := Setting(limits, (now: nat) => (now + offset) / DAY);
    assert g.date(from + k * DAY) == g.date(from) + k;
    DayIntervalBound(g, rs, token, from, k * DAY);
  }

  /** A request the minute limit rejects leaves every daily counter as it was. */
  lemma MinuteRejectionSparesTheDay(g: Setting, rs: seq<Request>, r: Request, token: string, date: nat)
    requires VerdictAfter(g, rs, r) == MinuteRejected
    ensures var k := DayKey(token, date);
            var before, after := StoreAfter(g, rs), StoreAfter(g, rs + [r]);
            (k in after) == (k in before) && (k in before ==> after[k] == before[k])
  {
    assert (rs + [r])[..|rs|] == rs;
  }

  predicate DailyLimitHolds(g: Setting, rs: seq<Request>, token: string, date: nat) {
    Passes(g, rs, (r: Request) => OnDate(g, r, token, date)) <= AtMost(g.limits(token).perDay)
  }

  ghost predicate AlwaysHolds(date: nat -> nat, d: nat) {
    forall limits: string -> Limits, rs: seq<Request>, token: string ::
      DailyLimitHolds(Setting(limits, date), rs, token, d)
  }

  /** The daily limit holds for a date, whatever the limits and the run, exactly when the date lasts
      at most 24 hours: a longer one lets a second request through under a limit of one. */
  lemma DailyLimitIff(date: nat -> nat, d: nat)
    ensures AlwaysHolds(date, d) <==> ShortDate(date, d)
  {
    if ShortDate(date, d) {
      forall limits: string -> Limits, rs: seq<Request>, token: string
        ensures DailyLimitHolds(Setting(limits, date), rs, token, d)
      {
        DateBound(Setting(limits, date), rs, token, d);
      }
    } else {
      var a: nat, b: nat :| date(a) == d && date(b) == d && b > a + DAY;
      var one := (t: string) => Limits(1, 1);
      LongDateLeaks(Setting(one, date), "t", a, b);
      assert !DailyLimitHolds(Setting(one, date), [Request(Some("t"), a), Request(Some("t"), b)], "t", d);
    }
  }

  lemma LongDateLeaks(g: Setting, token: string, a: nat, b: nat)
    requires g.limits(token) == Limits(1, 1) && g.date(a) == g.date(b) && b > a + DAY
    ensures Passes(g, [Request(Some(token), a), Request(Some(token), b)],
                   (r: Request) => OnDate(g, r, token, g.date(a))) == 2
  {
    var ra, rb := Request(Some(token), a), Request(Some(token), b);
    assert [ra, rb][..1] == [ra] && [ra][..0] == [];
    assert BucketOf(a) < BucketOf(b);
    var p := (r: Request) => OnDate(g, r, token, g.date(a));
    assert StoreAfter(g, []) == map[];
    assert VerdictAfter(g, [], ra) == Passed;
    MinuteKeysCount(g, [ra], token, BucketOf(b));
    assert MinuteCount([], token, BucketOf(b)) == 0;
    var store := StoreAfter(g, [ra]);
    assert store == Decide(g, map[], ra).0;
    assert store[Day(g, token, a)] == Counter(1, Some(a + DAY));
    assert VerdictAfter(g, [ra], rb) == Passed;
    assert OnDate(g, ra, token, g.date(a)) && OnDate(g, rb, token, g.date(a));
    assert p(ra) && p(rb);
    assert Passes(g, [], p) == 0;
    assert Passes(g, [ra], p) == 1;
  }
}
