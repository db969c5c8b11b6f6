/** When the limiter grants a request, said in terms of the requests granted before it. */
module LimiterExact {
  import opened Options
  import opened Limiters
  import opened LimiterHistory

  // ----- the window, from the times of granted requests

  /** When the current window of `key` began: a granted request that comes a second or more after the
      beginning of a window begins the next one. */
  function WindowBegan(cfg: Config, h: History, n: nat, key: string, sweeping: bool): Option<int>
    requires n <= |h|
  {
    if n == 0 then None
    else
      var began := WindowBegan(cfg, h, n - 1, key, sweeping);
      if !Counts(cfg, h, n - 1, key, sweeping) then began
      else if began.None? || h[n - 1].now - began.value >= SECOND then Some(h[n - 1].now)
      else began
  }

  /** Requests for `key` granted among the first `n` calls at `from` or later. */
  function GrantsSince(cfg: Config, h: History, n: nat, key: string, from: int, sweeping: bool): nat
    requires n <= |h|
  {
    if n == 0 then 0
    else
      GrantsSince(cfg, h, n - 1, key, from, sweeping)
      + if Counts(cfg, h, n - 1, key, sweeping) && from <= h[n - 1].now then 1 else 0
  }

  /** The date of the last request for `key`, granted or not. */
  function LastAsked(h: History, n: nat, key: string): Option<int>
    requires n <= |h|
  {
    if n == 0 then None
    else if h[n - 1].Ask? && h[n - 1].key == key then Some(h[n - 1].today)
    else LastAsked(h, n - 1, key)
  }

  /** There is room on the date. */
  predicate RoomToday(cfg: Config, h: History, i: nat, sweeping: bool)
    requires i < |h| && h[i].Ask?
  {
    cfg.daily <= 0 || GrantsOn(cfg, h, i, h[i].key, h[i].today, sweeping) < cfg.daily
  }

  /** There is room in the window, or it is over. */
  predicate RoomNow(cfg: Config, h: History, i: nat, sweeping: bool)
    requires i < |h| && h[i].Ask?
  {
    || cfg.rps <= 0
    || (match WindowBegan(cfg, h, i, h[i].key, sweeping)
        case None => true
        case Some(began) =>
          h[i].now - began >= SECOND || GrantsSince(cfg, h, i, h[i].key, began, sweeping) < cfg.rps)
  }

  /** The record of a key, as the history determines it. */
  ghost predicate Mirrors(cfg: Config, h: History, n: nat, key: string, t: Table, now: int, today: int)
    requires n <= |h|
  {
    var began := WindowBegan(cfg, h, n, key, false);
    if key !in t then
      && LastAsked(h, n, key).None? && began.None?
      && (forall d :: GrantsOn(cfg, h, n, key, d, false) == 0)
      && (forall from :: GrantsSince(cfg, h, n, key, from, false) == 0)
    else
      && LastAsked(h, n, key) == Some(t[key].dailyDate) && t[key].dailyDate <= today
      && t[key].dailyCount == GrantsOn(cfg, h, n, key, t[key].dailyDate, false)
      && (forall d | d > t[key].dailyDate :: GrantsOn(cfg, h, n, key, d, false) == 0)
      && began == Some(t[key].windowStart) && t[key].windowStart <= now
      && t[key].windowCount == GrantsSince(cfg, h, n, key, t[key].windowStart, false)
      && (forall from | from >= t[key].windowStart + SECOND :: GrantsSince(cfg, h, n, key, from, false) == 0)
  }

  lemma MirrorsLater(cfg: Config, h: History, n: nat, key: string, t: Table, now: int, today: int, later: int, day: int)
    requires n <= |h| && Mirrors(cfg, h, n, key, t, now, today) && now <= later && today <= day
    ensures Mirrors(cfg, h, n, key, t, later, day)
  {
  }

  lemma {:induction false} SinceIsMonotone(cfg: Config, h: History, n: nat, key: string, from: int, to: int)
    requires n <= |h| && from <= to
    ensures GrantsSince(cfg, h, n, key, to, false) <= GrantsSince(cfg, h, n, key, from, false)
  {
    if n > 0 {
      SinceIsMonotone(cfg, h, n - 1, key, from, to);
    }
  }

  /** The answer to one request, from what the record mirrors. */
  lemma MirrorDecides(cfg: Config, h: History, i: nat, t: Table)
    requires Monotone(h) && i < |h| && h[i].Ask? && t == After(cfg, h, i, false)
    requires Mirrors(cfg, h, i, h[i].key, t, h[i].now, h[i].today)
    ensures Granted(cfg, h, i, false) <==> RoomToday(cfg, h, i, false) && RoomNow(cfg, h, i, false)
  {
  }

  lemma MirrorStep(cfg: Config, h: History, n: nat, key: string)
    requires Monotone(h) && n < |h|
    requires Mirrors(cfg, h, n, key, After(cfg, h, n, false), h[n].now, h[n].today)
    ensures Mirrors(cfg, h, n + 1, key, After(cfg, h, n + 1, false), h[n].now, h[n].today)
  {
    var granted, m := Counts(cfg, h, n, key, false), n + 1;
    forall d
      ensures GrantsOn(cfg, h, m, key, d, false)
           == GrantsOn(cfg, h, n, key, d, false) + if granted && h[n].today == d then 1 else 0
    {
    }
    forall from
      ensures GrantsSince(cfg, h, m, key, from, false)
           == GrantsSince(cfg, h, n, key, from, false) + if granted && from <= h[n].now then 1 else 0
    {
    }
    var t := After(cfg, h, n, false);
    if h[n].Ask? && h[n].key == key {
      var r := Decide(cfg, Find(t, key), h[n].now, h[n].today).0;
      assert r.dailyCount == GrantsOn(cfg, h, m, key, r.dailyDate, false);
      assert r.windowCount == GrantsSince(cfg, h, m, key, r.windowStart, false);
      assert forall d | d > r.dailyDate :: GrantsOn(cfg, h, m, key, d, false) == 0;
      assert forall from | from >= r.windowStart + SECOND :: GrantsSince(cfg, h, m, key, from, false) == 0;
    } else if key in t {
      assert forall d | d > t[key].dailyDate :: GrantsOn(cfg, h, m, key, d, false) == 0;
      assert forall from | from >= t[key].windowStart + SECOND :: GrantsSince(cfg, h, m, key, from, false) == 0;
    } else {
      assert forall d :: GrantsOn(cfg, h, m, key, d, false) == 0;
      assert forall from :: GrantsSince(cfg, h, m, key, from, false) == 0;
    }
  }

  lemma {:induction false} MirrorAlways(cfg: Config, h: History, n: nat, key: string)
    requires Monotone(h) && n < |h|
    ensures Mirrors(cfg, h, n, key, After(cfg, h, n, false), h[n].now, h[n].today)
  {
    hide Mirrors;
    if n > 0 {
      MirrorAlways(cfg, h, n - 1, key);
      MirrorStep(cfg, h, n - 1, key);
      MirrorsLater(cfg, h, n, key, After(cfg, h, n, false), h[n - 1].now, h[n - 1].today, h[n].now, h[n].today);
    } else {
      MirrorsNothing(cfg, h, key, h[0].now, h[0].today);
    }
  }

  lemma MirrorsNothing(cfg: Config, h: History, key: string, now: int, today: int)
    ensures Mirrors(cfg, h, 0, key, map[], now, today)
  {
  }

  lemma {:induction false} SweepKeepsWindows(cfg: Config, h: History, n: nat, key: string, from: int)
    requires Monotone(h) && n <= |h|
    ensures WindowBegan(cfg, h, n, key, true) == WindowBegan(cfg, h, n, key, false)
    ensures GrantsSince(cfg, h, n, key, from, true) == GrantsSince(cfg, h, n, key, from, false)
  {
    hide Granted;
    if n > 0 {
      SweepKeepsWindows(cfg, h, n - 1, key, from);
      SweepIsInvisible(cfg, h, n - 1);
    }
  }

  /** A request is granted if and only if fewer than `daily` requests of its key have been granted on its date,
      and the key's window is a second old or has seen fewer than `rps` grants; a limit that is not positive
      does not bind.  Sweeps make no difference. */
  lemma GrantedExactly(cfg: Config, h: History, i: nat)
    requires Monotone(h) && i < |h| && h[i].Ask?
    ensures Granted(cfg, h, i, true) <==> RoomToday(cfg, h, i, true) && RoomNow(cfg, h, i, true)
  {
    MirrorAlways(cfg, h, i, h[i].key);
    MirrorDecides(cfg, h, i, After(cfg, h, i, false));
    SweepIsInvisible(cfg, h, i);
    SweepKeepsCounts(cfg, h, i, h[i].key, 0, 0, h[i].today);
    var began := WindowBegan(cfg, h, i, h[i].key, false);
    SweepKeepsWindows(cfg, h, i, h[i].key, if began.Some? then began.value else 0);
  }

  // ----- a quiet key

  lemma {:induction false} WindowBeganWithAGrant(cfg: Config, h: History, n: nat, key: string, from: int)
    requires n <= |h| && WindowBegan(cfg, h, n, key, true).Some? && from <= WindowBegan(cfg, h, n, key, true).value
    ensures GrantsSince(cfg, h, n, key, from, true) > 0
  {
    hide Granted;
    if Counts(cfg, h, n - 1, key, true) && from <= h[n - 1].now {
    } else {
      WindowBeganWithAGrant(cfg, h, n - 1, key, from);
    }
  }

  /** A key with room on the date and no grant within the last second is served. */
  lemma QuietKeyIsServed(cfg: Config, h: History, i: nat)
    requires Monotone(h) && i < |h| && h[i].Ask?
    requires cfg.daily <= 0 || GrantsOn(cfg, h, i, h[i].key, h[i].today, true) < cfg.daily
    requires GrantsSince(cfg, h, i, h[i].key, h[i].now - SECOND + 1, true) == 0
    ensures Granted(cfg, h, i, true)
  {
    GrantedExactly(cfg, h, i);
    var began := WindowBegan(cfg, h, i, h[i].key, true);
    if began.Some? && h[i].now - began.value < SECOND {
      WindowBeganWithAGrant(cfg, h, i, h[i].key, h[i].now - SECOND + 1);
    }
  }

  // ----- refusals leave no trace

  /** The history without call `i`. */
  function Without(h: History, i: nat): History
    requires i < |h|
  {
    h[..i] + h[i + 1..]
  }

  /** Call for call, `h` up to `n` and `h'` up to `n'` granted the same. */
  ghost predicate SameGrants(cfg: Config, h: History, n: nat, h': History, n': nat)
    requires n <= |h| && n' <= |h'|
  {
    && (forall key, d :: GrantsOn(cfg, h, n, key, d, true) == GrantsOn(cfg, h', n', key, d, true))
    && (forall key, from :: GrantsSince(cfg, h, n, key, from, true) == GrantsSince(cfg, h', n', key, from, true))
    && (forall key :: WindowBegan(cfg, h, n, key, true) == WindowBegan(cfg, h', n', key, true))
  }

  lemma SameAnswer(cfg: Config, h: History, n: nat, h': History, n': nat)
    requires Monotone(h) && Monotone(h') && n < |h| && n' < |h'| && h[n] == h'[n'] && h[n].Ask?
    requires SameGrants(cfg, h, n, h', n')
    ensures Granted(cfg, h, n, true) == Granted(cfg, h', n', true)
  {
    GrantedExactly(cfg, h, n);
    GrantedExactly(cfg, h', n');
    var began := WindowBegan(cfg, h, n, h[n].key, true);
    if began.Some? {
      var key := h[n].key;
      assert GrantsSince(cfg, h, n, key, began.value, true) == GrantsSince(cfg, h', n', key, began.value, true);
    }
  }

  /** One more call on both sides. */
  lemma SameGrantsNext(cfg: Config, h: History, n: nat, h': History, n': nat)
    requires n < |h| && n' < |h'| && h[n] == h'[n'] && SameGrants(cfg, h, n, h', n')
    requires h[n].Ask? ==> Granted(cfg, h, n, true) == Granted(cfg, h', n', true)
    ensures SameGrants(cfg, h, n + 1, h', n' + 1)
  {
    hide Granted;
    var m, m' := n + 1, n' + 1;
    forall key, d
      ensures GrantsOn(cfg, h, m, key, d, true) == GrantsOn(cfg, h', m', key, d, true)
    {
      assert Counts(cfg, h, n, key, true) == Counts(cfg, h', n', key, true);
    }
    forall key, from
      ensures GrantsSince(cfg, h, m, key, from, true) == GrantsSince(cfg, h', m', key, from, true)
    {
      assert Counts(cfg, h, n, key, true) == Counts(cfg, h', n', key, true);
    }
    forall key
      ensures WindowBegan(cfg, h, m, key, true) == WindowBegan(cfg, h', m', key, true)
    {
      assert Counts(cfg, h, n, key, true) == Counts(cfg, h', n', key, true);
    }
  }

  /** A call that is not granted on one side only. */
  lemma SameGrantsSkip(cfg: Config, h: History, n: nat, h': History, n': nat)
    requires n < |h| && n' <= |h'| && SameGrants(cfg, h, n, h', n')
    requires h[n].Ask? ==> !Granted(cfg, h, n, true)
    ensures SameGrants(cfg, h, n + 1, h', n')
  {
    hide Granted;
    assert forall key :: !Counts(cfg, h, n, key, true);
  }

  lemma {:induction false} SameBefore(cfg: Config, h: History, i: nat, n: nat)
    requires Monotone(h) && n <= i < |h|
    ensures Monotone(Without(h, i)) && SameGrants(cfg, h, n, Without(h, i), n)
  {
    hide SameGrants, Granted;
    var h' := Without(h, i);
    assert forall k | 0 <= k < |h'| :: h'[k] == if k < i then h[k] else h[k + 1];
    if n > 0 {
      SameBefore(cfg, h, i, n - 1);
      if h[n - 1].Ask? {
        SameAnswer(cfg, h, n - 1, h', n - 1);
      }
      SameGrantsNext(cfg, h, n - 1, h', n - 1);
    } else {
      NoGrants(cfg, h, h');
    }
  }

  lemma NoGrants(cfg: Config, h: History, h': History)
    ensures SameGrants(cfg, h, 0, h', 0)
  {
  }

  lemma {:induction false} SameAfter(cfg: Config, h: History, i: nat, n: nat)
    requires Monotone(h) && i < n <= |h| && h[i].Ask? && !Granted(cfg, h, i, true)
    ensures Monotone(Without(h, i)) && SameGrants(cfg, h, n, Without(h, i), n - 1)
  {
    hide SameGrants, Granted;
    var h' := Without(h, i);
    SameBefore(cfg, h, i, i);
    if n == i + 1 {
      SameGrantsSkip(cfg, h, i, h', i);
    } else {
      SameAfter(cfg, h, i, n - 1);
      assert h'[n - 2] == h[n - 1];
      if h[n - 1].Ask? {
        SameAnswer(cfg, h, n - 1, h', n - 2);
      }
      SameGrantsNext(cfg, h, n - 1, h', n - 2);
    }
  }

  /** What `RemainingDaily` says under a limit that is not negative: what the grants of the date leave of it. */
  lemma ReportedExactly(cfg: Config, h: History, i: nat)
    requires Monotone(h) && i < |h| && h[i].Query? && cfg.daily >= 0
    ensures var left := cfg.daily - GrantsOn(cfg, h, i, h[i].key, h[i].today, true);
            Reported(cfg, h, i, true) == if left < 0 then 0 else left
  {
    SweepIsInvisible(cfg, h, i);
    SweepKeepsCounts(cfg, h, i, h[i].key, 0, 0, h[i].today);
    MirrorAlways(cfg, h, i, h[i].key);
  }

  /** Later calls are answered as if the refused one had not been made. */
  lemma RefusalIsForgotten(cfg: Config, h: History, i: nat, j: nat)
    requires Monotone(h) && i < j < |h| && h[i].Ask? && !Granted(cfg, h, i, true)
    ensures Without(h, i)[j - 1] == h[j]
    ensures h[j].Ask? ==> Granted(cfg, h, j, true) == Granted(cfg, Without(h, i), j - 1, true)
    ensures h[j].Query? && cfg.daily >= 0 ==> Reported(cfg, h, j, true) == Reported(cfg, Without(h, i), j - 1, true)
  {
    hide Granted, Reported;
    SameAfter(cfg, h, i, j);
    if h[j].Ask? {
      SameAnswer(cfg, h, j, Without(h, i), j - 1);
    } else if h[j].Query? && cfg.daily >= 0 {
      ReportedExactly(cfg, h, j);
      ReportedExactly(cfg, Without(h, i), j - 1);
    }
  }

  /** No later answer of `Allow` or `RemainingDaily` ever depends on a refused request. */
  ghost predicate RefusalsLeaveNoTrace(cfg: Config) {
    forall h: History, i: nat, j: nat | Monotone(h) && i < j < |h| && h[i].Ask? && !Granted(cfg, h, i, true) ::
      && (h[j].Ask? ==> Granted(cfg, h, j, true) == Granted(cfg, Without(h, i), j - 1, true))
      && (h[j].Query? ==> Reported(cfg, h, j, true) == Reported(cfg, Without(h, i), j - 1, true))
  }

  /** `rps` requests on date 0, then, at once, one on date 1, which is refused, and a query. */
  function Rush(rps: nat): History {
    seq(rps + 2, i requires 0 <= i =>
      if i < rps then Ask("", 0, 0) else if i == rps then Ask("", 1, 1) else Query("", 1, 1))
  }

  lemma {:induction false} RushRuns(cfg: Config, n: nat)
    requires cfg.rps > 0 && cfg.daily < 0 && n <= cfg.rps
    ensures After(cfg, Rush(cfg.rps), n, true) == if n == 0 then map[] else map["" := Record(0, n, 0, n)]
  {
    if n > 0 {
      RushRuns(cfg, n - 1);
    }
  }

  lemma RushEnds(cfg: Config)
    requires cfg.rps > 0 && cfg.daily < 0
    ensures var h, i := Rush(cfg.rps), cfg.rps;
            h[i] == Ask("", 1, 1) && !Granted(cfg, h, i, true) && h[i + 1].Query? && Reported(cfg, h, i + 1, true) == 0
  {
    var h, i := Rush(cfg.rps), cfg.rps;
    RushRuns(cfg, i);
    assert After(cfg, h, i + 1, true) == map["" := Record(0, i, 1, 0)];
  }

  lemma RushWithoutRefusal(cfg: Config)
    requires cfg.rps > 0 && cfg.daily < 0
    ensures var h, i := Without(Rush(cfg.rps), cfg.rps), cfg.rps;
            h[i] == Query("", 1, 1) && Reported(cfg, h, i, true) == cfg.daily
  {
    hide After;
    var h, h', i := Rush(cfg.rps), Without(Rush(cfg.rps), cfg.rps), cfg.rps;
    RushRuns(cfg, i);
    PastStands(cfg, h[..i], h, i, true);
    PastStands(cfg, h[..i], h', i, true);
  }

  lemma RushLeavesATrace(cfg: Config)
    requires cfg.rps > 0 && cfg.daily < 0
    ensures !RefusalsLeaveNoTrace(cfg)
  {
    hide Granted, Reported;
    RushEnds(cfg);
    RushWithoutRefusal(cfg);
    assert Monotone(Rush(cfg.rps));
  }

  /** Refusals leave no trace, unless a negative daily limit goes with a positive rate: then a refused request
      turns the reported remainder from negative to zero. */
  lemma RefusalsLeaveNoTraceExactly(cfg: Config)
    ensures RefusalsLeaveNoTrace(cfg) <==> cfg.daily >= 0 || cfg.rps <= 0
  {
    hide Granted, Reported;
    if cfg.daily >= 0 || cfg.rps <= 0 {
      forall h: History, i: nat, j: nat | Monotone(h) && i < j < |h| && h[i].Ask? && !Granted(cfg, h, i, true)
        ensures h[j].Ask? ==> Granted(cfg, h, j, true) == Granted(cfg, Without(h, i), j - 1, true)
        ensures h[j].Query? ==> Reported(cfg, h, j, true) == Reported(cfg, Without(h, i), j - 1, true)
      {
        GrantedExactly(cfg, h, i);
        RefusalIsForgotten(cfg, h, i, j);
      }
    } else {
      RushLeavesATrace(cfg);
    }
  }

  // ----- what a sweep deletes

  /** After a sweep the limiter knows exactly the keys that were asked about on the date of the sweep, or whose
      window began at most a day before it. */
  lemma SweptExactly(cfg: Config, h: History, i: nat, key: string)
    requires Monotone(h) && i < |h| && h[i].Sweep?
    ensures var began := WindowBegan(cfg, h, i, key, true);
            key in After(cfg, h, i + 1, true) <==>
              LastAsked(h, i, key) == Some(h[i].today) || (began.Some? && h[i].now - began.value <= DAY)
  {
    MirrorAlways(cfg, h, i, key);
    SweptCovers(cfg, h, i);
    SweepKeepsWindows(cfg, h, i, key, 0);
    var full, t := After(cfg, h, i, false), After(cfg, h, i, true);
    assert After(cfg, h, i + 1, true) == Purged(t, h[i].now, h[i].today);
  }
}
