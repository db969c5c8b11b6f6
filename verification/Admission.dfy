/** Which run messages are admitted (handler/websocket.go:495-501).  The admission is up to seven lock
    sections, between which other goroutines may run. */
module Admission {
  import opened Options
  import opened UserQuota
  import opened Connection
  import opened Runner
  import opened Reachability

  predicate HasConn(s: System, p: nat) {
    p in s.parties && s.parties[p].Socket?
  }

  function PcOf(s: System, p: nat): Pc
    requires HasConn(s, p)
  {
    s.parties[p].conn.pc
  }

  /** From the first attempt to charge the user until the verdict. */
  predicate Admitting(s: System, p: nat) {
    HasConn(s, p)
    && match PcOf(s, p)
       case Charging => true
       case CapCheck => true
       case ListingRuns => true
       case PickingVictim => true
       case Evicting(_) => true
       case Forgetting(_) => true
       case Discounting => true
       case Recharging => true
       case _ => false
  }

  predicate IsHandlerStep(e: Event, p: nat) {
    e.Step? && e.id == p && e.actor.Handler?
  }

  predicate SameQuota(pool: Pool, pool': Pool, u: User) {
    Count(pool'.counts, u) == Count(pool.counts, u) && RunsOf(pool'.runs, u) == RunsOf(pool.runs, u)
  }

  /** Between `i` and `k` only the handler of connection `p` changes user `u`'s count and tracked runs. */
  ghost predicate Undisturbed(ss: seq<System>, es: seq<Event>, i: nat, k: nat, p: nat, u: User)
    requires |ss| == |es| + 1 && k < |ss|
  {
    forall j | i <= j < k :: IsHandlerStep(es[j], p) || SameQuota(ss[j].pool, ss[j + 1].pool, u)
  }

  ghost predicate Admissible(pool: Pool, u: User) {
    BelowCap(pool.counts, u) || HasVictim(RunsOf(pool.runs, u))
  }

  /** What the handler has established at `pc`, when the user began with `count0` and `runs0`. */
  ghost predicate Progress(pc: Pc, pool: Pool, u: User, count0: int, runs0: map<DockerClient.ContainerId, int>) {
    var count, full := Count(pool.counts, u), count0 == MAX_CONTAINERS_PER_USER;
    match pc
    case Charging => count == count0 && RunsOf(pool.runs, u) == runs0
    case CapCheck => full && count == count0 && RunsOf(pool.runs, u) == runs0
    case ListingRuns => full && count == count0 && RunsOf(pool.runs, u) == runs0
    case PickingVictim => full && count == count0 && RunsOf(pool.runs, u) == runs0
    case Evicting(_) => full && count == count0 && HasVictim(runs0)
    case Forgetting(_) => full && count == count0 && HasVictim(runs0)
    case Discounting => full && count == count0 && HasVictim(runs0)
    case Recharging => full && count == count0 - (if HasVictim(runs0) then 1 else 0)
    case Replacing(kind) => kind.RunJob? && (count0 < MAX_CONTAINERS_PER_USER || HasVictim(runs0))
    case Idle => full && !HasVictim(runs0)
    case _ => false
  }

  lemma HandlerProgress(c: Conn, l: Label, pool: Pool, count0: int, runs0: map<DockerClient.ContainerId, int>)
    requires CountsOk(pool.counts) && count0 <= MAX_CONTAINERS_PER_USER
    requires Progress(c.pc, pool, c.user, count0, runs0) && !c.pc.Replacing? && !c.pc.Idle?
    requires HandlerNext(c, l).Some? && PoolNext(pool, c.user, l).Some?
    ensures Progress(HandlerNext(c, l).value.pc, PoolNext(pool, c.user, l).value, c.user, count0, runs0)
  {
  }

  lemma WorkersLeavePc(c: Conn, actor: Actor, l: Label)
    requires !actor.Handler? && Next(c, actor, l).Some?
    ensures Next(c, actor, l).value.pc == c.pc
  {
    hide WorkerNext;
  }

  lemma ProgressStep(s: System, e: Event, s': System, p: nat, count0: int, runs0: map<DockerClient.ContainerId, int>)
    requires CountsOk(s.pool.counts) && count0 <= MAX_CONTAINERS_PER_USER
    requires SystemNext(s, e) == Some(s') && Admitting(s, p)
    requires Progress(PcOf(s, p), s.pool, UserOf(s.parties[p]), count0, runs0)
    requires IsHandlerStep(e, p) || SameQuota(s.pool, s'.pool, UserOf(s.parties[p]))
    ensures HasConn(s', p) && UserOf(s'.parties[p]) == UserOf(s.parties[p])
    ensures Progress(PcOf(s', p), s'.pool, UserOf(s.parties[p]), count0, runs0)
  {
    hide HandlerNext, WorkerNext, PoolNext;
    if e.Step? && e.id == p {
      SameUser(s.parties[p].conn, e.actor, e.l);
      if e.actor.Handler? {
        HandlerProgress(s.parties[p].conn, e.l, s.pool, count0, runs0);
      } else {
        WorkersLeavePc(s.parties[p].conn, e.actor, e.l);
      }
    }
  }

  lemma SameUser(c: Conn, actor: Actor, l: Label)
    requires Next(c, actor, l).Some?
    ensures Next(c, actor, l).value.user == c.user
  {
    hide WorkerNext, LaunchNext;
  }

  lemma InvCounts(s: System)
    requires SystemInv(s)
    ensures CountsOk(s.pool.counts)
  {
  }

  /** The last step of an undisturbed stretch, and the stretch before it. */
  lemma OneStepFewer(max: int, ss: seq<System>, es: seq<Event>, i: nat, k: nat, p: nat, u: User)
    requires Behaviour(max, ss, es) && i <= k && k + 1 < |ss| && Undisturbed(ss, es, i, k + 1, p, u)
    ensures Undisturbed(ss, es, i, k, p, u) && SystemNext(ss[k], es[k]) == Some(ss[k + 1])
    ensures IsHandlerStep(es[k], p) || SameQuota(ss[k].pool, ss[k + 1].pool, u)
  {
    hide SystemNext, SameQuota, IsHandlerStep;
  }

  lemma {:induction false} ProgressAlways(max: int, ss: seq<System>, es: seq<Event>, i: nat, k: nat, p: nat)
    requires Behaviour(max, ss, es) && |ss| == |es| + 1
    requires i <= k < |ss| && forall j | i <= j < k :: Admitting(ss[j], p)
    requires HasConn(ss[i], p) && PcOf(ss[i], p).Charging? && Undisturbed(ss, es, i, k, p, UserOf(ss[i].parties[p]))
    ensures HasConn(ss[k], p) && UserOf(ss[k].parties[p]) == UserOf(ss[i].parties[p])
    ensures var u := UserOf(ss[i].parties[p]);
            Progress(PcOf(ss[k], p), ss[k].pool, u, Count(ss[i].pool.counts, u), RunsOf(ss[i].pool.runs, u))
    decreases k
  {
    hide SystemNext, Progress, SystemInv, Behaviour, Undisturbed, SameQuota, IsHandlerStep;
    var u := UserOf(ss[i].parties[p]);
    Always(max, ss, es, i);
    InvCounts(ss[i]);
    if i < k {
      OneStepFewer(max, ss, es, i, k - 1, p, u);
      ProgressAlways(max, ss, es, i, k - 1, p);
      Always(max, ss, es, k - 1);
      InvCounts(ss[k - 1]);
      ProgressStep(ss[k - 1], es[k - 1], ss[k], p, Count(ss[i].pool.counts, u), RunsOf(ss[i].pool.runs, u));
    } else {
      FirstProgress(ss[i].pool, u);
    }
  }

  lemma FirstProgress(pool: Pool, u: User)
    ensures Progress(Charging, pool, u, Count(pool.counts, u), RunsOf(pool.runs, u))
  {
  }

  /** "Newest action wins", exactly: a run message that finds no interference with its user's tables is
      admitted if and only if, when the handler first tries, the user is below the cap or has a run that is
      still tracked. */
  lemma AdmittedExactly(max: int, ss: seq<System>, es: seq<Event>, i: nat, k: nat, p: nat)
    requires Behaviour(max, ss, es) && i <= k < |ss| && (forall j | i <= j < k :: Admitting(ss[j], p))
    requires HasConn(ss[i], p) && PcOf(ss[i], p).Charging? && Undisturbed(ss, es, i, k, p, UserOf(ss[i].parties[p]))
    requires HasConn(ss[k], p) && !Admitting(ss[k], p)
    ensures PcOf(ss[k], p) == Replacing(RunJob) || PcOf(ss[k], p) == Idle
    ensures PcOf(ss[k], p) == Replacing(RunJob) <==> Admissible(ss[i].pool, UserOf(ss[i].parties[p]))
  {
    hide SystemNext, Behaviour;
    Lengths(max, ss, es);
    ProgressAlways(max, ss, es, i, k, p);
  }
}
