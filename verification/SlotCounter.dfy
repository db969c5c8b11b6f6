/** What `Runner` uses of the semaphore, a counter with three labels, is what the semaphore does. */
module SlotCounter {
  import opened Options
  import opened Connection
  import opened Runner
  import S = Semaphores

  /** The name that `Runner` gives to an action; waiting, waking and ticking change no counter. */
  function LabelOf(m: S.Monitor, a: S.Action): Label
    requires S.MonitorNext(m, a).Some?
  {
    var m' := S.MonitorNext(m, a).value;
    if a.CallRelease? then Release
    else if m'.holders != m.holders then AcquireOk
    else if m'.refused != m.refused then AcquireRefused
    else Tick
  }

  function WithCurrent(p: Pool, current: int): Pool {
    p.(current := current)
  }

  /** Each action moves the counter as its label does. */
  lemma ActionIsLabel(m: S.Monitor, a: S.Action, p: Pool, u: UserQuota.User)
    requires S.MonitorInv(m) && S.MonitorNext(m, a).Some? && p.current == m.core.current && p.max == m.core.max
    ensures PoolNext(p, u, LabelOf(m, a)) == Some(WithCurrent(p, S.MonitorNext(m, a).value.core.current))
  {
    hide S.MonitorInv;
    S.CounterStep(m, a);
    if a.CallRelease? {
      var held := S.MonitorNext(m, a).value.holders;
      assert a.t in m.holders && a.t !in held;
    }
  }

  /** A schedule of the semaphore, whatever its callers, wake-ups and tickers, is a run of the counter. */
  lemma ScheduleIsCounter(max: int, ms: seq<S.Monitor>, actions: seq<S.Action>, i: nat, u: UserQuota.User)
    requires S.Schedule(max, ms, actions) && i < |actions|
    ensures ms[0].core.current == Start(max).pool.current
    ensures S.MonitorNext(ms[i], actions[i]).Some?
    ensures PoolNext(WithCurrent(Start(max).pool, ms[i].core.current), u, LabelOf(ms[i], actions[i]))
         == Some(WithCurrent(Start(max).pool, ms[i + 1].core.current))
  {
    S.MonitorAlways(max, ms, actions, i);
    assert S.MonitorNext(ms[i], actions[i]) == Some(ms[i + 1]);
    ActionIsLabel(ms[i], actions[i], WithCurrent(Start(max).pool, ms[i].core.current), u);
  }

  lemma NewCaller(used: set<S.Caller>) returns (t: S.Caller)
    ensures t !in used
  {
    t := 0;
    var todo := used;
    while todo != {}
      invariant forall k | k in used && k !in todo :: k < t
    {
      var k :| k in todo;
      todo := todo - {k};
      t := if k < t then t else k + 1;
    }
  }

  /** Some action of the semaphore goes by the name `l`. */
  ghost predicate CanBe(m: S.Monitor, l: Label) {
    exists a :: S.MonitorNext(m, a).Some? && LabelOf(m, a) == l
  }

  /** And the counter offers no more than the semaphore: a slot can be taken, or refused, exactly when some
      caller's action does it, which is when a slot is free, or none is. */
  lemma CounterIsSemaphore(m: S.Monitor, p: Pool, u: UserQuota.User)
    requires S.MonitorInv(m) && p.current == m.core.current && p.max == m.core.max
    ensures PoolNext(p, u, AcquireOk).Some? <==> CanBe(m, AcquireOk)
    ensures PoolNext(p, u, AcquireRefused).Some? <==> CanBe(m, AcquireRefused)
    ensures CanBe(m, AcquireOk) <==> m.core.current < m.core.max
    ensures CanBe(m, AcquireRefused) <==> m.core.current >= m.core.max
  {
    hide S.MonitorInv;
    forall a | S.MonitorNext(m, a).Some?
      ensures LabelOf(m, a).AcquireOk? ==> m.core.current < m.core.max
      ensures LabelOf(m, a).AcquireRefused? ==> m.core.current >= m.core.max
    {
      S.CounterStep(m, a);
    }
    var t := NewCaller(m.used + m.holders + m.refused);
    var a := S.CallAcquireContext(t, true);
    assert S.MonitorNext(m, a).Some?;
    var m' := S.MonitorNext(m, a).value;
    if m.core.current < m.core.max {
      assert t in m'.holders && LabelOf(m, a) == AcquireOk;
    } else {
      assert t in m'.refused && m'.holders == m.holders && LabelOf(m, a) == AcquireRefused;
    }
  }
}
