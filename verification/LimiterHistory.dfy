/** The limiter over whole histories of calls, under a clock that does not run backwards. */
module LimiterHistory {
  import opened Options
  import opened Limiters

  datatype Op =
    | Ask(key: string, now: int, today: int)
    | Query(key: string, now: int, today: int)
    | Sweep(now: int, today: int)

  type History = seq<Op>

  /** Neither the clock nor the date runs backwards. */
  ghost predicate Monotone(h: History) {
    forall i, j | 0 <= i <= j < |h| :: h[i].now <= h[j].now && h[i].today <= h[j].today
  }

  /** What one call does to the table. */
  function Effect(cfg: Config, t: Table, op: Op, sweeping: bool): Table {
    match op
    case Ask(key, now, today) => t[key := Decide(cfg, Find(t, key), now, today).0]
    case Query(_, _, _) => t
    case Sweep(now, today) => if sweeping then Purged(t, now, today) else t
  }

  /** The table after the first `n` calls; `sweeping` tells whether the sweeps have any effect. */
  function After(cfg: Config, h: History, n: nat, sweeping: bool): Table
    requires n <= |h|
  {
    if n == 0 then map[]
    else Effect(cfg, After(cfg, h, n - 1, sweeping), h[n - 1], sweeping)
  }

  /** The answer to call `i`. */
  function Granted(cfg: Config, h: History, i: nat, sweeping: bool): bool
    requires i < |h| && h[i].Ask?
  {
    Decide(cfg, Find(After(cfg, h, i, sweeping), h[i].key), h[i].now, h[i].today).1
  }

  function Reported(cfg: Config, h: History, i: nat, sweeping: bool): int
    requires i < |h| && h[i].Query?
  {
    Remaining(cfg, Find(After(cfg, h, i, sweeping), h[i].key), h[i].today)
  }

  /** What has happened does not depend on what is still to come. */
  lemma {:induction false} PastStands(cfg: Config, h: History, more: History, n: nat, sweeping: bool)
    requires h <= more && n <= |h|
    ensures After(cfg, more, n, sweeping) == After(cfg, h, n, sweeping)
  {
    if n > 0 {
      PastStands(cfg, h, more, n - 1, sweeping);
    }
  }

  // ----- the sweep is invisible

  /** A record that no later call can tell from no record. */
  predicate Dead(r: Record, now: int, today: int) {
    r.dailyDate < today && now - r.windowStart > DAY
  }

  /** `t` lacks nothing of `full` but dead records. */
  ghost predicate Covers(full: Table, t: Table, now: int, today: int) {
    && (forall k | k in full :: full[k].dailyDate <= today && full[k].windowStart <= now)
    && (forall k | k in full :: k !in t ==> Dead(full[k], now, today))
    && (forall k | k in t :: k in full && t[k] == full[k])
  }

  lemma DeadIsAbsent(cfg: Config, r: Record, now: int, today: int)
    requires Dead(r, now, today)
    ensures Decide(cfg, Some(r), now, today) == Decide(cfg, None, now, today)
    ensures Remaining(cfg, Some(r), today) == Remaining(cfg, None, today)
  {
  }

  lemma RecordIsPast(cfg: Config, found: Option<Record>, now: int, today: int)
    requires found.Some? ==> found.value.windowStart <= now && found.value.dailyDate <= today
    ensures var r := Decide(cfg, found, now, today).0; r.windowStart <= now && r.dailyDate <= today
  {
  }

  lemma {:induction false} SweptCovers(cfg: Config, h: History, n: nat)
    requires Monotone(h) && n < |h|
    ensures Covers(After(cfg, h, n, false), After(cfg, h, n, true), h[n].now, h[n].today)
  {
    hide Decide;
    if n > 0 {
      SweptCovers(cfg, h, n - 1);
      var full, t := After(cfg, h, n - 1, false), After(cfg, h, n - 1, true);
      match h[n - 1]
      case Ask(key, now, today) =>
        RecordIsPast(cfg, Find(full, key), now, today);
        if key in full && key !in t {
          DeadIsAbsent(cfg, full[key], now, today);
        }
      case _ =>
    }
  }

  /** Sweeping at any points whatever changes no answer of any later `Allow` or `RemainingDaily`. */
  lemma SweepIsInvisible(cfg: Config, h: History, i: nat)
    requires Monotone(h) && i < |h|
    ensures h[i].Ask? ==> Granted(cfg, h, i, true) == Granted(cfg, h, i, false)
    ensures h[i].Query? ==> Reported(cfg, h, i, true) == Reported(cfg, h, i, false)
  {
    SweptCovers(cfg, h, i);
    if !h[i].Sweep? {
      var full := After(cfg, h, i, false);
      var key := h[i].key;
      if key in full && key !in After(cfg, h, i, true) {
        DeadIsAbsent(cfg, full[key], h[i].now, h[i].today);
      }
    }
  }

  // ----- counting the granted requests

  predicate Counts(cfg: Config, h: History, i: nat, key: string, sweeping: bool)
    requires i < |h|
  {
    h[i].Ask? && h[i].key == key && Granted(cfg, h, i, sweeping)
  }

  /** Requests for `key` granted among the first `n` calls at a time in [from, to). */
  function GrantsBetween(cfg: Config, h: History, n: nat, key: string, from: int, to: int, sweeping: bool): nat
    requires n <= |h|
  {
    if n == 0 then 0
    else
      GrantsBetween(cfg, h, n - 1, key, from, to, sweeping)
      + if Counts(cfg, h, n - 1, key, sweeping) && from <= h[n - 1].now < to then 1 else 0
  }

  /** Requests for `key` granted among the first `n` calls on date `date`. */
  function GrantsOn(cfg: Config, h: History, n: nat, key: string, date: int, sweeping: bool): nat
    requires n <= |h|
  {
    if n == 0 then 0
    else
      GrantsOn(cfg, h, n - 1, key, date, sweeping)
      + if Counts(cfg, h, n - 1, key, sweeping) && h[n - 1].today == date then 1 else 0
  }

  lemma {:induction false} SweepKeepsCounts(cfg: Config, h: History, n: nat, key: string, from: int, to: int, date: int)
    requires Monotone(h) && n <= |h|
    ensures GrantsBetween(cfg, h, n, key, from, to, true) == GrantsBetween(cfg, h, n, key, from, to, false)
    ensures GrantsOn(cfg, h, n, key, date, true) == GrantsOn(cfg, h, n, key, date, false)
  {
    if n > 0 {
      SweepKeepsCounts(cfg, h, n - 1, key, from, to, date);
      SweepIsInvisible(cfg, h, n - 1);
    }
  }

  // ----- the rate

  lemma TimesSucc(a: int, k: int)
    ensures a * (k + 1) == a * k + a
  {
  }

  lemma TimesMonotone(a: nat, k: int, l: int)
    requires k <= l
    ensures a * k <= a * l
  {
  }

  /** The most that can get through in `seconds` seconds. */
  function Ceiling(cfg: Config, seconds: nat): int {
    cfg.rps * (seconds + 1) - 1
  }

  /** The count for [from, from + seconds) when the key's record is `r`.  A window anchored before `from`
      has spent a request on its anchor; `k` full windows, anchored at least a second apart, lie between
      `from` and the current one. */
  predicate RateOk(cfg: Config, r: Record, grants: nat, from: int, seconds: nat, k: nat, now: int) {
    && r.windowStart <= now && 1 <= r.windowCount <= cfg.rps
    && (now < from ==> grants == 0)
    && (r.windowStart < from ==> grants < r.windowCount)
    && (from <= r.windowStart < from + seconds * SECOND ==>
          grants < r.windowCount + cfg.rps * k + cfg.rps && k * SECOND <= r.windowStart - from)
    && (from + seconds * SECOND <= r.windowStart ==> grants <= Ceiling(cfg, seconds))
  }

  lemma BelowCeiling(cfg: Config, r: Record, grants: nat, from: int, seconds: nat, k: nat, now: int)
    requires cfg.rps > 0 && seconds > 0 && RateOk(cfg, r, grants, from, seconds, k, now)
    ensures grants <= Ceiling(cfg, seconds)
  {
    TimesSucc(cfg.rps, seconds);
    TimesMonotone(cfg.rps, 0, seconds);
    if k < seconds {
      TimesSucc(cfg.rps, k);
      TimesMonotone(cfg.rps, k + 1, seconds);
    }
  }

  lemma RateStep(cfg: Config, r: Record, grants: nat, from: int, seconds: nat, k: nat, now: int, today: int)
    returns (k': nat)
    requires cfg.rps > 0 && seconds > 0 && RateOk(cfg, r, grants, from, seconds, k, now)
    ensures var (r', ok) := Decide(cfg, Some(r), now, today);
            var grants' := grants + if ok && from <= now < from + seconds * SECOND then 1 else 0;
            RateOk(cfg, r', grants', from, seconds, k', now)
  {
    BelowCeiling(cfg, r, grants, from, seconds, k, now);
    TimesSucc(cfg.rps, k);
    k' := k;
    if Decide(cfg, Some(r), now, today).1 && now - r.windowStart >= SECOND {
      k' := if r.windowStart < from then 0 else k + 1;
    }
  }

  lemma RateLater(cfg: Config, r: Record, grants: nat, from: int, seconds: nat, k: nat, now: int, later: int)
    requires RateOk(cfg, r, grants, from, seconds, k, now) && now <= later
    ensures RateOk(cfg, r, grants, from, seconds, k, later)
  {
  }

  /** The first request of a key is granted, and anchors its first window. */
  lemma FirstRateOk(cfg: Config, from: int, seconds: nat, now: int, today: int)
    requires cfg.rps > 0 && seconds > 0
    ensures var (r, ok) := Decide(cfg, None, now, today);
            ok && RateOk(cfg, r, if from <= now < from + seconds * SECOND then 1 else 0, from, seconds, 0, now)
  {
    TimesSucc(cfg.rps, seconds);
    TimesMonotone(cfg.rps, 1, seconds);
  }

  lemma {:induction false} RateInvariant(cfg: Config, h: History, n: nat, key: string, from: int, seconds: nat)
    returns (k: nat)
    requires Monotone(h) && n < |h| && cfg.rps > 0 && seconds > 0
    ensures var t := After(cfg, h, n, false);
            var grants := GrantsBetween(cfg, h, n, key, from, from + seconds * SECOND, false);
            if key in t then RateOk(cfg, t[key], grants, from, seconds, k, h[n].now) else grants == 0
  {
    hide Decide, RateOk;
    k := 0;
    if n > 0 {
      k := RateInvariant(cfg, h, n - 1, key, from, seconds);
      var t := After(cfg, h, n - 1, false);
      var now, today := h[n - 1].now, h[n - 1].today;
      if h[n - 1].Ask? && h[n - 1].key == key {
        if key in t {
          var grants := GrantsBetween(cfg, h, n - 1, key, from, from + seconds * SECOND, false);
          k := RateStep(cfg, t[key], grants, from, seconds, k, now, today);
        } else {
          k := 0;
          FirstRateOk(cfg, from, seconds, now, today);
        }
      }
      var t' := After(cfg, h, n, false);
      if key in t' {
        var grants' := GrantsBetween(cfg, h, n, key, from, from + seconds * SECOND, false);
        RateLater(cfg, t'[key], grants', from, seconds, k, now, h[n].now);
      }
    }
  }

  /** Whatever the calls and sweeps, a key gets at most (L + 1) * rps - 1 requests through in any half-open
      interval of L >= 1 seconds. */
  lemma RateBound(cfg: Config, h: History, key: string, from: int, seconds: nat)
    requires Monotone(h) && cfg.rps > 0 && seconds > 0
    ensures GrantsBetween(cfg, h, |h|, key, from, from + seconds * SECOND, true) <= cfg.rps * (seconds + 1) - 1
  {
    SweepKeepsCounts(cfg, h, |h|, key, from, from + seconds * SECOND, 0);
    TimesMonotone(cfg.rps, 1, seconds + 1);
    if h != [] {
      var last := h[|h| - 1];
      var more := h + [Query("", last.now, last.today)];
      PrefixAgrees(cfg, h, more, |h|, key, from, from + seconds * SECOND);
      var k := RateInvariant(cfg, more, |h|, key, from, seconds);
      var t := After(cfg, more, |h|, false);
      if key in t {
        var grants := GrantsBetween(cfg, h, |h|, key, from, from + seconds * SECOND, false);
        BelowCeiling(cfg, t[key], grants, from, seconds, k, last.now);
      }
    }
  }

  // ----- the rate bound is reached

  /** One request at 0, rps - 1 more in the middle of its window, and rps at every full second after. */
  function StormTime(rps: nat, i: nat): int
    requires rps > 0
  {
    if 0 < i < rps then SECOND / 2 else (i / rps) * SECOND
  }

  function Storm(rps: nat, seconds: nat): History
    requires rps > 0
  {
    seq(rps * (seconds + 1), i requires 0 <= i => Ask("", StormTime(rps, i), 0))
  }

  /** The record after `n > 0` of those requests. */
  function StormRecord(rps: nat, n: nat): Record
    requires rps > 0 && n > 0
  {
    Record(((n - 1) / rps) * SECOND, (n - 1) % rps + 1, 0, n)
  }

  lemma NextIndex(rps: nat, i: nat)
    requires rps > 0 && i > 0
    ensures if i % rps == 0 then (i - 1) / rps + 1 == i / rps && (i - 1) % rps == rps - 1
            else (i - 1) / rps == i / rps && (i - 1) % rps + 1 == i % rps
    ensures i < rps ==> i / rps == 0 && i % rps == i
    ensures i >= rps ==> i / rps >= 1
  {
    var q, m := i / rps, i % rps;
    assert i == q * rps + m;
    if m == 0 {
      assert i - 1 == (q - 1) * rps + (rps - 1);
      Quotient(rps, i - 1, q - 1, rps - 1);
    } else {
      Quotient(rps, i - 1, q, m - 1);
    }
    if i < rps {
      Quotient(rps, i, 0, i);
    } else if q == 0 {
      assert false;
    }
  }

  lemma Quotient(d: nat, n: nat, q: int, m: nat)
    requires d > 0 && m < d && n == q * d + m
    ensures n / d == q && n % d == m
  {
    var q', m' := n / d, n % d;
    assert (q - q') * d == m' - m;
    if q > q' {
      TimesMonotone(d, 1, q - q');
    } else if q < q' {
      TimesMonotone(d, 1, q' - q);
    }
  }

  lemma StormDecides(cfg: Config, n: nat)
    requires cfg.rps > 0 && n > 0 && (cfg.daily <= 0 || n <= cfg.daily)
    ensures Decide(cfg, if n == 1 then None else Some(StormRecord(cfg.rps, n - 1)), StormTime(cfg.rps, n - 1), 0)
         == (StormRecord(cfg.rps, n), true)
  {
    if n == 1 {
      Quotient(cfg.rps, 0, 0, 0);
    } else {
      NextIndex(cfg.rps, n - 1);
    }
  }

  lemma StormTimes(rps: nat, i: nat, seconds: nat)
    requires rps > 0 && i < rps * (seconds + 1)
    ensures 0 <= StormTime(rps, i) < SECOND / 2 + seconds * SECOND || seconds == 0
    ensures StormTime(rps, i) >= SECOND / 2 <==> i > 0
    ensures i > 0 ==> StormTime(rps, i - 1) <= StormTime(rps, i)
  {
    if i == 0 {
      Quotient(rps, 0, 0, 0);
    } else {
      NextIndex(rps, i);
      if i > 1 {
        NextIndex(rps, i - 1);
      } else {
        Quotient(rps, 0, 0, 0);
      }
    }
    var q := i / rps;
    assert i == q * rps + i % rps;
    if q > seconds {
      TimesMonotone(rps, seconds + 1, q);
    }
  }

  lemma {:induction false} StormIsMonotone(rps: nat, seconds: nat, i: nat, j: nat)
    requires rps > 0 && i <= j < rps * (seconds + 1)
    ensures StormTime(rps, i) <= StormTime(rps, j)
    decreases j
  {
    if i < j {
      StormIsMonotone(rps, seconds, i, j - 1);
      StormTimes(rps, j, seconds);
    }
  }

  lemma {:induction false} StormRuns(cfg: Config, seconds: nat, n: nat)
    requires cfg.rps > 0 && seconds > 0 && n <= cfg.rps * (seconds + 1)
    requires cfg.daily <= 0 || cfg.daily >= cfg.rps * (seconds + 1)
    ensures After(cfg, Storm(cfg.rps, seconds), n, false)
         == if n == 0 then map[] else map["" := StormRecord(cfg.rps, n)]
    ensures GrantsBetween(cfg, Storm(cfg.rps, seconds), n, "", SECOND / 2, SECOND / 2 + seconds * SECOND, false)
         == if n == 0 then 0 else n - 1
  {
    hide Decide, StormRecord, StormTime;
    if n > 0 {
      StormRuns(cfg, seconds, n - 1);
      StormDecides(cfg, n);
      StormTimes(cfg.rps, n - 1, seconds);
    }
  }

  /** No smaller bound will do: where the daily limit leaves room, some key gets exactly that many through. */
  lemma RateBoundIsReached(cfg: Config, seconds: nat) returns (h: History, from: int)
    requires cfg.rps > 0 && seconds > 0 && (cfg.daily <= 0 || cfg.daily >= cfg.rps * (seconds + 1))
    ensures Monotone(h)
    ensures GrantsBetween(cfg, h, |h|, "", from, from + seconds * SECOND, true) == cfg.rps * (seconds + 1) - 1
  {
    h, from := Storm(cfg.rps, seconds), SECOND / 2;
    TimesMonotone(cfg.rps, 1, seconds + 1);
    StormRuns(cfg, seconds, |h|);
    forall i, j | 0 <= i <= j < |h|
      ensures h[i].now <= h[j].now && h[i].today <= h[j].today
    {
      StormIsMonotone(cfg.rps, seconds, i, j);
    }
    SweepKeepsCounts(cfg, h, |h|, "", from, from + seconds * SECOND, 0);
  }

  lemma {:induction false} PrefixAgrees(cfg: Config, h: History, more: History, n: nat, key: string, from: int, to: int)
    requires h <= more && n <= |h|
    ensures After(cfg, more, n, false) == After(cfg, h, n, false)
    ensures GrantsBetween(cfg, more, n, key, from, to, false) == GrantsBetween(cfg, h, n, key, from, to, false)
  {
    if n > 0 {
      PrefixAgrees(cfg, h, more, n - 1, key, from, to);
    }
  }

  // ----- the daily counter

  /** The record of a key agrees with the history. */
  ghost predicate DailyOk(cfg: Config, h: History, n: nat, key: string, t: Table, today: int)
    requires n <= |h|
  {
    if key !in t then forall d :: GrantsOn(cfg, h, n, key, d, false) == 0
    else
      && t[key].dailyDate <= today
      && t[key].dailyCount == GrantsOn(cfg, h, n, key, t[key].dailyDate, false)
      && forall d :: GrantsOn(cfg, h, n, key, d, false) <= (if d > t[key].dailyDate then 0 else cfg.daily)
  }

  lemma {:induction false} DailyInvariant(cfg: Config, h: History, n: nat, key: string)
    requires Monotone(h) && n < |h| && cfg.daily > 0
    ensures DailyOk(cfg, h, n, key, After(cfg, h, n, false), h[n].today)
  {
    if n > 0 {
      DailyInvariant(cfg, h, n - 1, key);
      var today := h[n - 1].today;
      var extra := if Counts(cfg, h, n - 1, key, false) then 1 else 0;
      forall d
        ensures GrantsOn(cfg, h, n, key, d, false)
             == GrantsOn(cfg, h, n - 1, key, d, false) + (if d == today then extra else 0)
      {
      }
    }
  }

  /** Daily refinement: for a positive limit, no key gets more than `daily` requests through on any one
      date, and `RemainingDaily` reports exactly what is left of the current date's allowance, as the
      whole history determines it. */
  lemma DailyBound(cfg: Config, h: History, i: nat, key: string, date: int)
    requires Monotone(h) && i < |h| && cfg.daily > 0
    ensures GrantsOn(cfg, h, i, key, date, true) <= cfg.daily
    ensures h[i] == Query(key, h[i].now, h[i].today) ==>
              Reported(cfg, h, i, true) == cfg.daily - GrantsOn(cfg, h, i, key, h[i].today, true)
  {
    DailyInvariant(cfg, h, i, key);
    SweepIsInvisible(cfg, h, i);
    SweepKeepsCounts(cfg, h, i, key, 0, 0, date);
    SweepKeepsCounts(cfg, h, i, key, 0, 0, h[i].today);
  }

  lemma DailyBoundAtEnd(cfg: Config, h: History, key: string, date: int)
    requires Monotone(h) && cfg.daily > 0
    ensures GrantsOn(cfg, h, |h|, key, date, true) <= cfg.daily
  {
    if h != [] {
      var last := h[|h| - 1];
      var more := h + [Query("", last.now, last.today)];
      DailyBound(cfg, more, |h|, key, date);
      SweepKeepsCounts(cfg, h, |h|, key, 0, 0, date);
      SweepKeepsCounts(cfg, more, |h|, key, 0, 0, date);
      PrefixKeepsGrants(cfg, h, more, |h|, key, date);
    }
  }

  lemma {:induction false} PrefixKeepsGrants(cfg: Config, h: History, more: History, n: nat, key: string, date: int)
    requires h <= more && n <= |h|
    ensures GrantsOn(cfg, more, n, key, date, false) == GrantsOn(cfg, h, n, key, date, false)
  {
    if n > 0 {
      PrefixKeepsGrants(cfg, h, more, n - 1, key, date);
      PrefixAgrees(cfg, h, more, n - 1, key, 0, 0);
    }
  }

  // ----- the promise of a sliding window

  /** The dates are those of a calendar: equal times have equal dates, and calls less than two seconds
      apart fall on the same date or on neighbouring ones. */
  ghost predicate OnCalendar(h: History) {
    forall i, j | 0 <= i <= j < |h| ::
      && (h[i].now == h[j].now ==> h[i].today == h[j].today)
      && (h[j].now - h[i].now < 2 * SECOND ==> h[j].today <= h[i].today + 1)
  }

  /** Requests for `key` granted in the second from `from` on. */
  function GrantsInSecond(cfg: Config, h: History, key: string, from: int): nat {
    GrantsBetween(cfg, h, |h|, key, from, from + SECOND, true)
  }

  /** At most `rps` requests in every half-open second of every history. */
  ghost predicate SlidingWindow(cfg: Config) {
    forall h: History, key: string, from: int | Monotone(h) && OnCalendar(h) ::
      GrantsInSecond(cfg, h, key, from) <= cfg.rps
  }

  /** How the requests of one second can spread over windows: `grants` in [from, from + SECOND), `total` in
      the two seconds around `from`.  A window anchored before `from` adds its anchor to `total`. */
  predicate TwoWindows(cfg: Config, r: Record, grants: nat, total: nat, from: int, now: int) {
    && r.windowStart <= now && 1 <= r.windowCount <= cfg.rps && (now < from ==> grants == 0)
    && (r.windowStart <= from - SECOND ==> grants == 0)
    && (from - SECOND < r.windowStart < from ==> grants + 1 <= r.windowCount && grants + 1 <= total)
    && (from <= r.windowStart ==>
          grants <= (if r.windowStart < from + SECOND then r.windowCount else cfg.rps) || grants + 1 <= total)
  }

  lemma TwoWindowsStep(cfg: Config, r: Record, grants: nat, total: nat, from: int, now: int, today: int)
    requires cfg.rps > 0 && TwoWindows(cfg, r, grants, total, from, now)
    ensures var (r', ok) := Decide(cfg, Some(r), now, today);
            TwoWindows(cfg, r', grants + (if ok && from <= now < from + SECOND then 1 else 0),
                       total + (if ok && from - SECOND <= now < from + SECOND then 1 else 0), from, now)
  {
  }

  lemma {:induction false} TwoWindowsInvariant(cfg: Config, h: History, n: nat, key: string, from: int)
    requires Monotone(h) && n < |h| && cfg.rps > 0
    ensures var t := After(cfg, h, n, false);
            var grants := GrantsBetween(cfg, h, n, key, from, from + SECOND, false);
            var total := GrantsBetween(cfg, h, n, key, from - SECOND, from + SECOND, false);
            if key in t then TwoWindows(cfg, t[key], grants, total, from, h[n].now) else grants == total == 0
  {
    if n > 0 {
      TwoWindowsInvariant(cfg, h, n - 1, key, from);
      var t := After(cfg, h, n - 1, false);
      if h[n - 1].Ask? && h[n - 1].key == key && key in t {
        TwoWindowsStep(cfg, t[key], GrantsBetween(cfg, h, n - 1, key, from, from + SECOND, false),
                       GrantsBetween(cfg, h, n - 1, key, from - SECOND, from + SECOND, false),
                       from, h[n - 1].now, h[n - 1].today);
      }
    }
  }

  lemma OneMoreAround(cfg: Config, h: History, key: string, from: int)
    requires Monotone(h) && cfg.rps > 0
    ensures var grants := GrantsInSecond(cfg, h, key, from);
            grants <= cfg.rps || grants + 1 <= GrantsBetween(cfg, h, |h|, key, from - SECOND, from + SECOND, true)
  {
    SweepKeepsCounts(cfg, h, |h|, key, from, from + SECOND, 0);
    SweepKeepsCounts(cfg, h, |h|, key, from - SECOND, from + SECOND, 0);
    if h != [] {
      var last := h[|h| - 1];
      var more := h + [Query("", last.now, last.today)];
      PrefixAgrees(cfg, h, more, |h|, key, from, from + SECOND);
      PrefixAgrees(cfg, h, more, |h|, key, from - SECOND, from + SECOND);
      TwoWindowsInvariant(cfg, more, |h|, key, from);
    }
  }

  /** If all calls of the interval fall on two dates, so do its grants. */
  lemma {:induction false} GrantsOnTwoDates(cfg: Config, h: History, n: nat, key: string, from: int, to: int, date: int)
    requires n <= |h|
    requires forall i | 0 <= i < n && from <= h[i].now < to :: date <= h[i].today <= date + 1
    ensures GrantsBetween(cfg, h, n, key, from, to, true)
         <= GrantsOn(cfg, h, n, key, date, true) + GrantsOn(cfg, h, n, key, date + 1, true)
  {
    if n > 0 {
      GrantsOnTwoDates(cfg, h, n - 1, key, from, to, date);
    }
  }

  /** Two seconds cannot take more than two days' allowance. */
  lemma TwoSecondsTwoDates(cfg: Config, h: History, key: string, from: int)
    requires Monotone(h) && OnCalendar(h) && cfg.daily > 0
    ensures GrantsBetween(cfg, h, |h|, key, from - SECOND, from + SECOND, true) <= 2 * cfg.daily
  {
    var i := 0;
    while i < |h| && h[i].now < from - SECOND
      invariant i <= |h| && forall k | 0 <= k < i :: h[k].now < from - SECOND
    {
      i := i + 1;
    }
    var date := if i < |h| then h[i].today else 0;
    GrantsOnTwoDates(cfg, h, |h|, key, from - SECOND, from + SECOND, date);
    DailyBoundAtEnd(cfg, h, key, date);
    DailyBoundAtEnd(cfg, h, key, date + 1);
  }

  /** Half of a burst of rps + 2 requests before midnight: one at 0, the others late in the first window;
      then the rest, the last two of them at the start of the next window. */
  function BurstTime(rps: nat, i: nat): int {
    if i == 0 then 0 else if i < (rps + 2) / 2 then 8 * SECOND / 10 else if i < rps then 9 * SECOND / 10 else SECOND
  }

  function BurstDate(rps: nat, i: nat): int {
    if i < (rps + 2) / 2 then 0 else 1
  }

  function Burst(rps: nat): History {
    seq(rps + 2, i requires 0 <= i => Ask("", BurstTime(rps, i), BurstDate(rps, i)))
  }

  /** The record after `n > 0` of those requests. */
  function BurstRecord(rps: nat, n: nat): Record
    requires n > 0
  {
    var half := (rps + 2) / 2;
    Record(if n <= rps then 0 else SECOND, if n <= rps then n else n - rps,
           BurstDate(rps, n - 1), if n <= half then n else n - half)
  }

  lemma BurstDecides(cfg: Config, n: nat)
    requires cfg.rps >= 2 && (cfg.daily <= 0 || 2 * cfg.daily >= cfg.rps + 2) && 0 < n <= cfg.rps + 2
    ensures Decide(cfg, if n == 1 then None else Some(BurstRecord(cfg.rps, n - 1)),
                   BurstTime(cfg.rps, n - 1), BurstDate(cfg.rps, n - 1))
         == (BurstRecord(cfg.rps, n), true)
  {
  }

  lemma {:induction false} BurstRuns(cfg: Config, n: nat)
    requires cfg.rps >= 2 && (cfg.daily <= 0 || 2 * cfg.daily >= cfg.rps + 2) && n <= cfg.rps + 2
    ensures After(cfg, Burst(cfg.rps), n, false) == if n == 0 then map[] else map["" := BurstRecord(cfg.rps, n)]
    ensures GrantsBetween(cfg, Burst(cfg.rps), n, "", SECOND / 2, SECOND / 2 + SECOND, false)
         == if n == 0 then 0 else n - 1
  {
    hide Decide, BurstRecord;
    if n > 0 {
      BurstRuns(cfg, n - 1);
      BurstDecides(cfg, n);
    }
  }

  /** The comment in the source calls the one-second window sliding.  That promise holds exactly for
      one request a second, or when two days' allowance is at most one above the rate. */
  lemma SlidingWindowExactly(cfg: Config)
    requires cfg.rps > 0
    ensures SlidingWindow(cfg) <==> cfg.rps == 1 || 0 < 2 * cfg.daily <= cfg.rps + 1
  {
    if cfg.rps == 1 || 0 < 2 * cfg.daily <= cfg.rps + 1 {
      forall h: History, key: string, from: int | Monotone(h) && OnCalendar(h)
        ensures GrantsInSecond(cfg, h, key, from) <= cfg.rps
      {
        if cfg.rps == 1 {
          RateBound(cfg, h, key, from, 1);
        } else {
          OneMoreAround(cfg, h, key, from);
          TwoSecondsTwoDates(cfg, h, key, from);
        }
      }
    } else {
      var h := Burst(cfg.rps);
      BurstRuns(cfg, |h|);
      assert Monotone(h) && OnCalendar(h);
      SweepKeepsCounts(cfg, h, |h|, "", SECOND / 2, SECOND / 2 + SECOND, 0);
      assert GrantsInSecond(cfg, h, "", SECOND / 2) > cfg.rps;
    }
  }
}
