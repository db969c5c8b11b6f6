/** executor/semaphore.go: a counting semaphore on a mutex and a condition variable.  Every stretch of
    code that runs with the mutex held is one step.  Callers are numbered, one number per call of
    `Acquire` or `AcquireContext`; a sleeper returns from `Wait` only after a wake-up. */
module Semaphores {
  import opened Options

  type Caller = nat

  /** The fields, with the condition variable's sleepers and the callers woken but not yet holding the
      mutex again. */
  datatype Core = Core(max: int, current: int, queueLen: int, asleep: set<Caller>, woken: set<Caller>)

  datatype Outcome = Acquired | Refused | Asleep

  /** From the start of `Acquire` (`done` is then false) or `AcquireContext` to its return or its wait. */
  function Enter(k: Core, t: Caller, done: bool): (Core, Outcome) {
    if k.current < k.max then (k.(current := k.current + 1), Acquired)
    else if done then (k, Refused)
    else (k.(queueLen := k.queueLen + 1, asleep := k.asleep + {t}), Asleep)
  }

  /** From a return of `Wait` to the caller's return or its next wait.  A free slot is taken even if the
      context is done. */
  function Resume(k: Core, t: Caller, done: bool): (Core, Outcome) {
    if k.current < k.max then
      (k.(current := k.current + 1, queueLen := k.queueLen - 1, woken := k.woken - {t}), Acquired)
    else if done then (k.(queueLen := k.queueLen - 1, woken := k.woken - {t}), Refused)
    else (k.(asleep := k.asleep + {t}, woken := k.woken - {t}), Asleep)
  }

  /** `Signal` wakes one sleeper, whichever, if there is one. */
  predicate CanSignal(k: Core, chosen: Option<Caller>) {
    match chosen
    case None => k.asleep == {}
    case Some(t) => t in k.asleep
  }

  function ReleaseSlot(k: Core, chosen: Option<Caller>): Core {
    var freed := k.(current := k.current - 1);
    match chosen
    case None => freed
    case Some(t) => freed.(asleep := k.asleep - {t}, woken := k.woken + {t})
  }

  function WakeAll(k: Core): Core {
    k.(asleep := {}, woken := k.woken + k.asleep)
  }

  /** `sync.Cond`. */
  class Cond {
    var asleep: set<Caller>
    var woken: set<Caller>

    constructor ()
      ensures asleep == {} && woken == {}
    {
      asleep, woken := {}, {};
    }

    method Sleep(t: Caller)
      modifies this
      ensures asleep == old(asleep) + {t} && woken == old(woken)
    {
      asleep := asleep + {t};
    }

    method WakeUp(t: Caller)
      modifies this
      ensures asleep == old(asleep) && woken == old(woken) - {t}
    {
      woken := woken - {t};
    }

    method Signal() returns (chosen: Option<Caller>)
      modifies this
      ensures match chosen
              case None => old(asleep) == {} && asleep == {} && woken == old(woken)
              case Some(t) => t in old(asleep) && asleep == old(asleep) - {t} && woken == old(woken) + {t}
    {
      if asleep == {} {
        return None;
      }
      var t :| t in asleep;
      asleep, woken := asleep - {t}, woken + {t};
      return Some(t);
    }

    method Broadcast()
      modifies this
      ensures asleep == {} && woken == old(woken) + old(asleep)
    {
      asleep, woken := {}, woken + asleep;
    }
  }

  class Semaphore {
    const cond: Cond
    const max: int
    var current: int
    var queueLen: int

    ghost function View(): Core
      reads this, cond
    {
      Core(max, current, queueLen, cond.asleep, cond.woken)
    }

    constructor (max: int)
      ensures fresh(cond) && View() == Core(max, 0, 0, {}, {})
    {
      this.max := max;
      current, queueLen := 0, 0;
      cond := new Cond();
    }

    /** `Acquire` until it returns or waits (lines 29-41). */
    method Acquire(t: Caller) returns (outcome: Outcome)
      modifies this, cond
      ensures (View(), outcome) == Enter(old(View()), t, false)
    {
      if current >= max {
        queueLen := queueLen + 1;
        cond.Sleep(t);
        return Asleep;
      }
      current := current + 1;
      return Acquired;
    }

    /** `Acquire` from a return of `Wait` (lines 36-40). */
    method AcquireAgain(t: Caller) returns (outcome: Outcome)
      modifies this, cond
      ensures (View(), outcome) == Resume(old(View()), t, false)
    {
      cond.WakeUp(t);
      queueLen := queueLen - 1;
      if current >= max {
        queueLen := queueLen + 1;
        cond.Sleep(t);
        return Asleep;
      }
      current := current + 1;
      return Acquired;
    }

    /** `AcquireContext` until it returns or waits (lines 50-89). */
    method AcquireContext(t: Caller, done: bool) returns (outcome: Outcome)
      modifies this, cond
      ensures (View(), outcome) == Enter(old(View()), t, done)
    {
      if current < max {
        current := current + 1;
        return Acquired;
      }
      queueLen := queueLen + 1;
      outcome := ContextLoop(t, done);
    }

    /** One pass of the waiting loop and what follows it (lines 84-94), with the deferred decrement. */
    method ContextLoop(t: Caller, done: bool) returns (outcome: Outcome)
      modifies this, cond
      ensures outcome == if old(current) < max then Acquired else if done then Refused else Asleep
      ensures current == old(current) + (if outcome.Acquired? then 1 else 0)
      ensures queueLen == old(queueLen) - (if outcome.Asleep? then 0 else 1)
      ensures cond.asleep == if outcome.Asleep? then old(cond.asleep) + {t} else old(cond.asleep)
      ensures cond.woken == old(cond.woken)
    {
      if current >= max {
        if done {
          queueLen := queueLen - 1;
          return Refused;
        }
        cond.Sleep(t);
        return Asleep;
      }
      current := current + 1;
      queueLen := queueLen - 1;
      return Acquired;
    }

    /** `AcquireContext` from a return of `Wait` (lines 84-94). */
    method AcquireContextAgain(t: Caller, done: bool) returns (outcome: Outcome)
      modifies this, cond
      ensures (View(), outcome) == Resume(old(View()), t, done)
    {
      cond.WakeUp(t);
      outcome := ContextLoop(t, done);
    }

    method Release() returns (ghost chosen: Option<Caller>)
      modifies this, cond
      ensures CanSignal(old(View()), chosen) && View() == ReleaseSlot(old(View()), chosen)
    {
      current := current - 1;
      chosen := cond.Signal();
    }

    /** One tick of the goroutine that `AcquireContext` starts (lines 70-73). */
    method Tick()
      modifies cond
      ensures View() == WakeAll(old(View()))
      ensures cond.asleep == {} && cond.woken == old(cond.woken) + old(cond.asleep)
    {
      cond.Broadcast();
    }

    /** The unreleased acquisitions, in every state of the callers that keeps the monitor's invariant. */
    method Current() returns (n: int)
      ensures n == View().current
      ensures forall m: Monitor | m.core == View() && MonitorInv(m) :: n == |m.holders|
    {
      n := current;
    }

    method Available() returns (free: int)
      ensures free >= 0 && (free > 0 <==> current < max) && (free > 0 ==> current + free == max)
      ensures forall m: Monitor | m.core == View() && MonitorInv(m) && max >= 0 :: free + |m.holders| == max
    {
      free := max - current;
      if free < 0 {
        free := 0;
      }
    }

    /** The callers that wait, asleep or on their way to the mutex. */
    method QueueLen() returns (n: int)
      ensures n == View().queueLen
      ensures forall m: Monitor | m.core == View() && MonitorInv(m) :: n == |m.core.asleep + m.core.woken|
    {
      n := queueLen;
      assert forall m: Monitor | m.core == View() && MonitorInv(m) ::
          |m.core.asleep + m.core.woken| == |m.core.asleep| + |m.core.woken|;
    }
  }

  // ----- all callers together

  /** The semaphore with its callers.  `bounded` are the `AcquireContext` calls, `expired` those whose context
      is done, `holders` the unreleased acquisitions, `tickers` the calls whose ticker
      goroutine is running, `refused` the calls that returned false. */
  datatype Monitor = Monitor(
    core: Core,
    used: set<Caller>,
    bounded: set<Caller>,
    expired: set<Caller>,
    holders: set<Caller>,
    tickers: set<Caller>,
    refused: set<Caller>)

  datatype Action =
    | CallAcquire(t: Caller)
    | CallAcquireContext(t: Caller, done: bool)
    | WakeIn(t: Caller)
    | CallRelease(t: Caller, chosen: Option<Caller>)
    | TickerFires(t: Caller)
    | TickerStops(t: Caller)
    | ContextEnds(t: Caller)

  /** The caller leaves with `outcome`, or waits. */
  function Settle(m: Monitor, t: Caller, core: Core, outcome: Outcome): Monitor {
    match outcome
    case Acquired => m.(core := core, holders := m.holders + {t})
    case Refused => m.(core := core, refused := m.refused + {t})
    case Asleep => m.(core := core)
  }

  function MonitorNext(m: Monitor, a: Action): Option<Monitor> {
    match a
    case CallAcquire(t) =>
      if t in m.used then None
      else var (core, outcome) := Enter(m.core, t, false); Some(Settle(m.(used := m.used + {t}), t, core, outcome))
    case CallAcquireContext(t, done) =>
      if t in m.used then None
      else
        var (core, outcome) := Enter(m.core, t, done);
        var slow := m.core.current >= m.core.max;
        Some(Settle(m.(used := m.used + {t}, bounded := m.bounded + {t},
                       expired := if done then m.expired + {t} else m.expired,
                       tickers := if slow then m.tickers + {t} else m.tickers), t, core, outcome))
    case WakeIn(t) =>
      if t !in m.core.woken then None
      else
        var (core, outcome) := Resume(m.core, t, t in m.bounded && t in m.expired);
        Some(Settle(m, t, core, outcome))
    case CallRelease(t, chosen) =>
      if t !in m.holders || !CanSignal(m.core, chosen) then None
      else Some(m.(core := ReleaseSlot(m.core, chosen), holders := m.holders - {t}))
    case TickerFires(t) => if t in m.tickers then Some(m.(core := WakeAll(m.core))) else None
    case TickerStops(t) =>
      if t in m.tickers && t !in m.core.asleep && t !in m.core.woken then Some(m.(tickers := m.tickers - {t})) else None
    case ContextEnds(t) => if t in m.bounded then Some(m.(expired := m.expired + {t})) else None
  }

  function NewMonitor(max: int): Monitor {
    Monitor(Core(max, 0, 0, {}, {}), {}, {}, {}, {}, {}, {})
  }

  ghost predicate Schedule(max: int, ms: seq<Monitor>, actions: seq<Action>) {
    && |ms| == |actions| + 1 && ms[0] == NewMonitor(max)
    && forall i | 0 <= i < |actions| :: MonitorNext(ms[i], actions[i]) == Some(ms[i + 1])
  }

  /** No free slot is stranded: while anyone sleeps, at least as many callers are on their way to the
      mutex as there are free slots. */
  predicate NoStrandedSlot(k: Core) {
    k.asleep != {} ==> |k.woken| >= k.max - k.current
  }

  predicate CountsOk(k: Core, holders: set<Caller>) {
    && NoStrandedSlot(k)
    && k.asleep !! k.woken
    && k.queueLen == |k.asleep| + |k.woken|
    && k.current == |holders| && (k.current <= k.max || k.current == 0)
  }

  predicate CallersOk(m: Monitor) {
    var k := m.core;
    && k.asleep <= m.used && k.woken <= m.used && m.holders <= m.used && m.bounded <= m.used
    && m.holders !! k.asleep && m.holders !! k.woken
    && (forall t | t in m.bounded && (t in k.asleep || t in k.woken) :: t in m.tickers)
    && m.refused <= m.bounded && m.refused <= m.expired
  }

  predicate MonitorInv(m: Monitor) {
    CountsOk(m.core, m.holders) && CallersOk(m)
  }

  function Holding(holders: set<Caller>, t: Caller, outcome: Outcome): set<Caller> {
    if outcome.Acquired? then holders + {t} else holders
  }

  lemma EnterCounts(k: Core, holders: set<Caller>, t: Caller, done: bool)
    requires CountsOk(k, holders) && t !in k.asleep && t !in k.woken && t !in holders
    ensures var (k', outcome) := Enter(k, t, done); CountsOk(k', Holding(holders, t, outcome))
  {
  }

  lemma ResumeCounts(k: Core, holders: set<Caller>, t: Caller, done: bool)
    requires CountsOk(k, holders) && t in k.woken && t !in holders
    ensures var (k', outcome) := Resume(k, t, done); CountsOk(k', Holding(holders, t, outcome))
  {
  }

  lemma ReleaseCounts(k: Core, holders: set<Caller>, t: Caller, chosen: Option<Caller>)
    requires CountsOk(k, holders) && t in holders && CanSignal(k, chosen)
    ensures CountsOk(ReleaseSlot(k, chosen), holders - {t})
  {
  }

  lemma WakeAllCounts(k: Core, holders: set<Caller>)
    requires CountsOk(k, holders)
    ensures CountsOk(WakeAll(k), holders)
  {
    assert |k.woken + k.asleep| == |k.woken| + |k.asleep|;
  }

  lemma ActionCounts(m: Monitor, a: Action)
    requires MonitorInv(m) && MonitorNext(m, a).Some?
    ensures var m' := MonitorNext(m, a).value; CountsOk(m'.core, m'.holders)
  {
    hide CountsOk, CallersOk;
    match a
    case CallAcquire(t) => Unknown(m, t); EnterCounts(m.core, m.holders, t, false);
    case CallAcquireContext(t, done) => Unknown(m, t); EnterCounts(m.core, m.holders, t, done);
    case WakeIn(t) => Waiting(m, t); ResumeCounts(m.core, m.holders, t, t in m.bounded && t in m.expired);
    case CallRelease(t, chosen) => ReleaseCounts(m.core, m.holders, t, chosen);
    case TickerFires(_) => WakeAllCounts(m.core, m.holders);
    case _ =>
  }

  lemma Unknown(m: Monitor, t: Caller)
    requires CallersOk(m) && t !in m.used
    ensures t !in m.core.asleep && t !in m.core.woken && t !in m.holders
  {
  }

  lemma Waiting(m: Monitor, t: Caller)
    requires CallersOk(m) && t in m.core.woken
    ensures t !in m.holders
  {
  }

  lemma ActionCallers(m: Monitor, a: Action)
    requires CallersOk(m) && m.core.asleep !! m.core.woken && MonitorNext(m, a).Some?
    ensures CallersOk(MonitorNext(m, a).value) && MonitorNext(m, a).value.core.max == m.core.max
  {
  }

  lemma ActionKeepsInv(m: Monitor, a: Action)
    requires MonitorInv(m) && MonitorNext(m, a).Some?
    ensures MonitorInv(MonitorNext(m, a).value) && MonitorNext(m, a).value.core.max == m.core.max
  {
    hide CallersOk, MonitorNext;
    ActionCounts(m, a);
    ActionCallers(m, a);
  }

  /** In every state of every schedule: no stranded slot, exact queue length, the counter equal to the
      unreleased acquisitions and within the capacity, and a running ticker for every context-bounded
      caller that waits. */
  lemma {:induction false} MonitorAlways(max: int, ms: seq<Monitor>, actions: seq<Action>, i: nat)
    requires Schedule(max, ms, actions) && i < |ms|
    ensures MonitorInv(ms[i]) && ms[i].core.max == max
    decreases i
  {
    if i > 0 {
      MonitorAlways(max, ms, actions, i - 1);
      assert MonitorNext(ms[i - 1], actions[i - 1]) == Some(ms[i - 1 + 1]);
      ActionKeepsInv(ms[i - 1], actions[i - 1]);
    }
  }

  /** Sound refusal: a call returns false only when its context is done and no slot is free, and the
      refusal leaves the counter alone. */
  lemma RefusalIsSound(max: int, ms: seq<Monitor>, actions: seq<Action>, i: nat, t: Caller)
    requires Schedule(max, ms, actions) && i < |actions|
    requires t !in ms[i].refused && t in ms[i + 1].refused
    ensures t in ms[i + 1].expired && t in ms[i + 1].bounded
    ensures ms[i + 1].core.current == ms[i].core.current >= max && ms[i + 1].holders == ms[i].holders
  {
    MonitorAlways(max, ms, actions, i);
    assert MonitorNext(ms[i], actions[i]) == Some(ms[i + 1]);
  }

  /** What a step does to the counter: nothing, a refusal at capacity, the taking of a free slot, or the
      return of a held one. */
  lemma CounterStep(m: Monitor, a: Action)
    requires MonitorInv(m) && MonitorNext(m, a).Some?
    ensures var m' := MonitorNext(m, a).value;
            && (m'.holders == m.holders ==> m'.core.current == m.core.current)
            && (m'.refused != m.refused ==> m'.holders == m.holders && m.core.current >= m.core.max)
            && (m'.holders != m.holders ==>
                  if a.CallRelease? then m'.holders == m.holders - {a.t} && m'.core.current == m.core.current - 1 >= 0
                  else m'.holders == m.holders + {a.t} && m'.core.current == m.core.current + 1 <= m.core.max)
  {
    hide CallersOk, CountsOk;
    match a
    case CallAcquire(t) => Unknown(m, t);
    case CallAcquireContext(t, _) => Unknown(m, t);
    case WakeIn(t) => Waiting(m, t);
    case CallRelease(t, _) => HeldIsCounted(m, t);
    case _ =>
  }

  lemma HeldIsCounted(m: Monitor, t: Caller)
    requires CountsOk(m.core, m.holders) && t in m.holders
    ensures m.core.current >= 1
  {
  }

  // ----- who moves where

  /** What each action does, caller by caller. */
  lemma CallersMove(m: Monitor, a: Action)
    requires MonitorInv(m) && MonitorNext(m, a).Some?
    ensures var m' := MonitorNext(m, a).value; var full := m.core.current >= m.core.max;
            match a
            case CallAcquire(t) =>
              && t !in m.used && m'.core.woken == m.core.woken && m'.refused == m.refused
              && m'.holders == m.holders + (if full then {} else {t})
              && m'.core.asleep == m.core.asleep + (if full then {t} else {})
            case CallAcquireContext(t, done) =>
              && t !in m.used && m'.core.woken == m.core.woken
              && m'.holders == m.holders + (if full then {} else {t})
              && m'.refused == m.refused + (if full && done then {t} else {})
              && m'.core.asleep == m.core.asleep + (if full && !done then {t} else {})
            case WakeIn(t) =>
              var ended := t in m.bounded && t in m.expired;
              && t in m.core.woken && m'.core.woken == m.core.woken - {t}
              && m'.holders == m.holders + (if full then {} else {t})
              && m'.refused == m.refused + (if full && ended then {t} else {})
              && m'.core.asleep == m.core.asleep + (if full && !ended then {t} else {})
            case CallRelease(t, chosen) =>
              && t in m.holders && m'.holders == m.holders - {t} && m'.refused == m.refused
              && (if m.core.asleep == {} then chosen == None && m'.core.asleep == {} && m'.core.woken == m.core.woken
                  else && chosen.Some? && chosen.value in m.core.asleep
                       && m'.core.asleep == m.core.asleep - {chosen.value}
                       && m'.core.woken == m.core.woken + {chosen.value})
            case TickerFires(_) =>
              && m'.core.asleep == {} && m'.core.woken == m.core.woken + m.core.asleep
              && m'.holders == m.holders && m'.refused == m.refused
            case TickerStops(t) => m' == m.(tickers := m.tickers - {t})
            case ContextEnds(t) => m' == m.(expired := m.expired + {t})
  {
    hide CountsOk, CallersOk;
  }

  /** A context-bounded caller whose context has ended is never stuck: in every state of every schedule in
      which it waits, its own ticker can fire, after which it is awake; and when it then runs, it leaves
      with a slot if one is free, and refused otherwise. */
  lemma EndedWaitersCanLeave(max: int, ms: seq<Monitor>, actions: seq<Action>, i: nat, t: Caller)
    requires Schedule(max, ms, actions) && i < |ms| && t in ms[i].bounded && t in ms[i].expired
    requires t in ms[i].core.asleep || t in ms[i].core.woken
    ensures MonitorNext(ms[i], TickerFires(t)).Some?
    ensures var m := MonitorNext(ms[i], TickerFires(t)).value;
            && t in m.core.woken && MonitorNext(m, WakeIn(t)).Some?
            && var m' := MonitorNext(m, WakeIn(t)).value;
               && t !in m'.core.asleep && t !in m'.core.woken
               && if m.core.current < max then t in m'.holders else t in m'.refused
  {
    MonitorAlways(max, ms, actions, i);
  }

  lemma ResumeOne(m: Monitor, t: Caller)
    requires t in m.core.woken
    ensures MonitorNext(m, WakeIn(t)).Some?
    ensures var k' := MonitorNext(m, WakeIn(t)).value.core;
            k'.woken == m.core.woken - {t} && k'.max == m.core.max
            && k'.current == m.core.current + (if m.core.current < m.core.max then 1 else 0)
  {
  }

  /** Letting the woken callers run, in any order and without anything else happening, fills every free
      slot they can fill; so with sleepers left, the semaphore ends up full. */
  lemma {:induction false} WokenCallersFillTheSlots(m: Monitor, order: seq<Caller>) returns (m': Monitor)
    requires MonitorInv(m)
    requires multiset(order) == multiset(m.core.woken)
    ensures MonitorInv(m') && m'.core.woken == {} && m'.core.max == m.core.max
    ensures m'.core.current == if m.core.current >= m.core.max then m.core.current
                               else if m.core.current + |order| <= m.core.max then m.core.current + |order|
                               else m.core.max
    ensures m'.core.asleep != {} ==> m'.core.current >= m'.core.max
    decreases |order|
  {
    hide MonitorNext, CallersOk;
    if order == [] {
      assert forall t :: t in m.core.woken <==> t in multiset(m.core.woken);
      m' := m;
    } else {
      var t := order[0];
      assert order == [t] + order[1..];
      assert t in multiset(order) && multiset(order[1..]) == multiset(order) - multiset{t};
      ResumeOne(m, t);
      ActionKeepsInv(m, WakeIn(t));
      var next := MonitorNext(m, WakeIn(t)).value;
      assert multiset(next.core.woken) == multiset(m.core.woken) - multiset{t};
      m' := WokenCallersFillTheSlots(next, order[1..]);
    }
  }
}
