/** ratelimit/limiter.go: a per-key limiter with a one-second window and a daily counter.  Every call
    reads the clock; the reading is a parameter: `now` in nanoseconds and `today`, the number of the
    date, of which the code only ever asks whether two are equal. */
module Limiters {
  import opened Options

  const SECOND := 1_000_000_000
  const DAY := 24 * 60 * 60 * SECOND

  datatype Config = Config(rps: int, daily: int)

  /** The contents of a `keyState`. */
  datatype Record = Record(windowStart: int, windowCount: int, dailyDate: int, dailyCount: int)

  type Table = map<string, Record>

  function Find(t: Table, key: string): Option<Record> {
    if key in t then Some(t[key]) else None
  }

  /** `Allow` on the record of its key. */
  function Decide(cfg: Config, found: Option<Record>, now: int, today: int): (Record, bool) {
    var r0 := if found.Some? then found.value else Record(now, 0, today, 0);
    var r1 := if r0.dailyDate != today then r0.(dailyDate := today, dailyCount := 0) else r0;
    if cfg.daily > 0 && r1.dailyCount >= cfg.daily then (r1, false)
    else
      var r2 := if now - r1.windowStart >= SECOND then r1.(windowStart := now, windowCount := 0) else r1;
      if cfg.rps > 0 && r2.windowCount >= cfg.rps then (r2, false)
      else (r2.(windowCount := r2.windowCount + 1, dailyCount := r2.dailyCount + 1), true)
  }

  function Remaining(cfg: Config, found: Option<Record>, today: int): int {
    if found.None? || found.value.dailyDate != today then cfg.daily
    else if cfg.daily - found.value.dailyCount < 0 then 0
    else cfg.daily - found.value.dailyCount
  }

  predicate Purgeable(r: Record, now: int, today: int) {
    r.dailyDate != today && now - r.windowStart > DAY
  }

  function Purged(t: Table, now: int, today: int): Table {
    map key | key in t && !Purgeable(t[key], now, today) :: t[key]
  }

  class KeyState {
    var windowStart: int
    var windowCount: int
    var dailyDate: int
    var dailyCount: int

    ghost function View(): Record
      reads this
    {
      Record(windowStart, windowCount, dailyDate, dailyCount)
    }

    constructor (now: int, today: int)
      ensures View() == Record(now, 0, today, 0)
    {
      windowStart, windowCount, dailyDate, dailyCount := now, 0, today, 0;
    }
  }

  class Limiter {
    var keys: map<string, KeyState>
    const cfg: Config

    /** No two keys share a state. */
    ghost predicate Valid()
      reads this
    {
      forall k, k' | k in keys && k' in keys && keys[k] == keys[k'] :: k == k'
    }

    ghost function View(): Table
      reads this, keys.Values
    {
      map k | k in keys :: keys[k].View()
    }

    constructor (cfg: Config)
      ensures Valid() && View() == map[] && this.cfg == cfg && keys == map[]
    {
      this.cfg := cfg;
      keys := map[];
    }

    method Allow(key: string, now: int, today: int) returns (ok: bool)
      requires Valid()
      modifies this, keys.Values
      ensures Valid() && fresh(keys.Values - old(keys.Values))
      ensures var (record, granted) := Decide(cfg, Find(old(View()), key), now, today);
              ok == granted && View() == old(View())[key := record]
    {
      if key !in keys {
        var created := new KeyState(now, today);
        keys := keys[key := created];
      }
      var state := keys[key];
      ok := Update(state, now, today);
    }

    /** Lines 58-81, on the state of one key. */
    method Update(state: KeyState, now: int, today: int) returns (ok: bool)
      modifies state
      ensures (state.View(), ok) == Decide(cfg, Some(old(state.View())), now, today)
    {
      if state.dailyDate != today {
        state.dailyDate := today;
        state.dailyCount := 0;
      }
      if cfg.daily > 0 && state.dailyCount >= cfg.daily {
        return false;
      }
      if now - state.windowStart >= SECOND {
        state.windowStart := now;
        state.windowCount := 0;
      }
      if cfg.rps > 0 && state.windowCount >= cfg.rps {
        return false;
      }
      state.windowCount := state.windowCount + 1;
      state.dailyCount := state.dailyCount + 1;
      return true;
    }

    method RemainingDaily(key: string, today: int) returns (remaining: int)
      ensures remaining == Remaining(cfg, Find(View(), key), today)
      ensures key !in keys || keys[key].dailyDate != today ==> remaining == cfg.daily
      ensures key in keys && keys[key].dailyDate == today ==>
                remaining == if keys[key].dailyCount <= cfg.daily then cfg.daily - keys[key].dailyCount else 0
    {
      if key !in keys || keys[key].dailyDate != today {
        return cfg.daily;
      }
      remaining := cfg.daily - keys[key].dailyCount;
      if remaining < 0 {
        return 0;
      }
    }

    /** One round of the background sweep. */
    method Cleanup(now: int, today: int)
      requires Valid()
      modifies this
      ensures Valid() && keys.Values <= old(keys.Values)
      ensures forall k :: k in keys <==>
                k in old(keys)
                && (old(keys[k].dailyDate) == today || now - old(keys[k].windowStart) <= 24 * 3600 * 1_000_000_000)
      ensures forall k | k in keys :: keys[k] == old(keys[k]) && keys[k].View() == old(keys[k].View())
      ensures View() == Purged(old(View()), now, today)
    {
      var todo := keys.Keys;
      while todo != {}
        invariant todo <= keys.Keys <= old(keys.Keys)
        invariant forall k | k in keys :: keys[k] == old(keys[k])
        invariant forall k | k in old(keys) && k !in todo :: k in keys <==> !Purgeable(old(keys[k].View()), now, today)
        decreases todo
      {
        var k :| k in todo;
        todo := todo - {k};
        if keys[k].dailyDate != today && now - keys[k].windowStart > DAY {
          keys := keys - {k};
        }
      }
    }
  }

  // ----- the header numerals

  function Pow10(n: nat): (p: nat)
    ensures p >= 1
  {
    if n == 0 then 1 else 10 * Pow10(n - 1)
  }

  predicate IsDigits(s: string) {
    forall k | 0 <= k < |s| :: '0' <= s[k] <= '9'
  }

  /** The number a string of digits denotes. */
  function Value(s: string): nat
    requires IsDigits(s)
  {
    if s == [] then 0 else (s[0] as int - '0' as int) * Pow10(|s| - 1) + Value(s[1..])
  }

  method Digit(d: int) returns (c: char)
    requires 0 <= d < 10
    ensures '0' <= c <= '9' && c as int - '0' as int == d
  {
    c := ('0' as int + d) as char;
  }

  /** `itoa`: the decimal numeral of a number, without leading zeros; negative numbers print as 0. */
  method Itoa(n: int) returns (s: string)
    ensures IsDigits(s) && Value(s) == if n < 0 then 0 else n
    ensures |s| > 0 && (s[0] == '0' ==> |s| == 1)
  {
    if n < 0 {
      return "0";
    }
    var i := n;
    var c := Digit(i % 10);
    s := [c];
    i := i / 10;
    assert Value(s) == n % 10 by {
      assert s[1..] == [];
    }
    while i > 0
      invariant i >= 0 && IsDigits(s) && |s| > 0
      invariant i * Pow10(|s|) + Value(s) == n
      invariant i == 0 ==> s[0] == '0' ==> |s| == 1
    {
      c := Digit(i % 10);
      assert ([c] + s)[1..] == s;
      Split10(i, Pow10(|s|));
      s := [c] + s;
      i := i / 10;
    }
  }

  lemma Split10(i: nat, p: nat)
    ensures i * p == (i / 10) * (10 * p) + (i % 10) * p
  {
    assert i == (i / 10) * 10 + i % 10;
    assert i * p == ((i / 10) * 10) * p + (i % 10) * p;
  }
}
