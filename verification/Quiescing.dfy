/** Nothing gets stuck: from every reachable state the process can come to rest. */
module Quiescing {
  import opened Options
  import opened DockerClient
  import opened Session
  import opened UserQuota
  import opened Connection
  import opened ConnectionInv
  import opened Runner
  import opened Guarantees
  import opened Reachability
  import opened Admission

  // ----- the message loop

  /** The longest way back to `Idle`. */
  function HandlerRank(pc: Pc): nat {
    match pc
    case Idle => 0
    case Closed => 0
    case Recharging => 20
    case Discounting => 21
    case Forgetting(_) => 22
    case Evicting(_) => 23
    case PickingVictim => 24
    case ListingRuns => 25
    case CapCheck => 26
    case Charging => 27
    case Replacing(_) => 19
    case Launching(_, _, stage) =>
      match stage
      case Acquiring => 18
      case Creating => 17
      case SettingUp(_) => 16
      case Storing(_) => 15
      case Tracking(_) => 14
      case Announcing(_) => 9
      case StartingBridge(_) => 8
      case ArmingTimer(_) => 10
      case StartingWaiter(_) => 5
      case Untracking(_) => 4
      case Failing => 3
      case Uncharging => 2
  }

  /** For a run the timer is armed after the announcement, for a shell before it. */
  function PcRank(pc: Pc): nat {
    if pc.Launching? && pc.kind.RunJob? && pc.stage.ArmingTimer? then 7 else HandlerRank(pc)
  }

  lemma {:induction false} OldestExists(m: map<ContainerId, int>) returns (victim: Option<ContainerId>)
    ensures IsOldest(m, victim)
    decreases |m|
  {
    victim := None;
    var todo := m.Keys;
    while todo != {}
      invariant todo <= m.Keys
      invariant victim.None? ==> forall id | id in m && id !in todo :: m[id] >= MAX_INT64
      invariant victim.Some? ==> victim.value in m && m[victim.value] < MAX_INT64
                                 && forall id | id in m && id !in todo :: m[victim.value] <= m[id]
    {
      var id :| id in todo;
      todo := todo - {id};
      if m[id] < (if victim.Some? then m[victim.value] else MAX_INT64) {
        victim := Some(id);
      }
    }
  }

  lemma LaunchGoesOn(pool: Pool, u: User, st: Shared, g: nat, j: Job, kind: Kind, stage: Stage) returns (l: Label)
    requires stage.Tracking? || stage.Untracking? || stage.Uncharging? ==> kind.RunJob?
    ensures LaunchNext(st, g, j, kind, stage, l).Some? && PoolNext(pool, u, l).Some?
    ensures var pc := LaunchNext(st, g, j, kind, stage, l).value.pc;
            !pc.Closed? && PcRank(pc) < PcRank(Launching(g, kind, stage))
  {
    match stage
    case Acquiring => l := if pool.current < pool.max then AcquireOk else AcquireRefused;
    case Creating => l := Fail;
    case Failing => l := Release;
    case Uncharging => l := Discharge;
    case Tracking(id) => l := Connection.Track(id, 0);
    case Untracking(id) => l := Untrack(id);
    case _ => l := Tick;
  }

  /** A handler that is under way has a next step, towards its return. */
  lemma HandlerGoesOn(pool: Pool, c: Conn) returns (l: Label)
    requires PcOk(c) && !c.pc.Idle? && !c.pc.Closed?
    ensures HandlerNext(c, l).Some? && PoolNext(pool, c.user, l).Some?
    ensures !HandlerNext(c, l).value.pc.Closed? && PcRank(HandlerNext(c, l).value.pc) < PcRank(c.pc)
  {
    hide PhaseOf, LaunchNext;
    match c.pc
    case Charging => l := Charge(BelowCap(pool.counts, c.user));
    case CapCheck => l := SeeCap(BelowCap(pool.counts, c.user));
    case ListingRuns => l := SeeRuns(RunsOf(pool.runs, c.user) != map[]);
    case PickingVictim =>
      var victim := OldestExists(RunsOf(pool.runs, c.user));
      l := Pick(victim);
    case Evicting(victim) => l := Remove(victim);
    case Forgetting(victim) => l := Untrack(victim);
    case Discounting => l := Discount;
    case Recharging => l := Charge(BelowCap(pool.counts, c.user));
    case Replacing(kind) => l := Clear(Dropped(c.st, Replaced(c, kind).st));
    case Launching(g, kind, stage) => l := LaunchGoesOn(pool, c.user, c.st, g, c.jobs[g], kind, stage);
  }

  // ----- the goroutines

  function BridgeRank(b: Bridge): nat {
    match b
    case Checking(_) => 5
    case Sending(_) => 4
    case Reading => 3
    case Closing => 1
    case _ => 0
  }

  function WaiterRank(w: Waiter): nat {
    match w
    case Blocked => 20
    case StoppingTimer => 19
    case Sampling => 18
    case Inspecting(_, _) => 17
    case Rechecking(_, _) => 16
    case ReadingFiles(_, _) => 15
    case SendingFiles(_) => 14
    case Exiting(_) => 13
    case Finishing => 12
    case Discharging => 11
    case Releasing => 10
    case _ => 0
  }

  function JobRank(j: Job): nat {
    BridgeRank(j.bridge) + WaiterRank(j.waiter)
  }

  predicate JobIsOver(j: Job) {
    j.waiter.WaiterUnborn? || j.waiter.WaiterDone?
  }

  /** A job that has been launched and is not over has a next step, towards its end. */
  lemma JobGoesOn(pool: Pool, u: User, st: Shared, g: nat, j: Job) returns (actor: Actor, l: Label)
    requires JobOk(j) && !JobIsOver(j) && !j.bridge.BridgeUnborn?
    ensures !actor.Handler? && actor.gen == g && WorkerNext(st, j, actor, l).Some? && PoolNext(pool, u, l).Some?
    ensures var ch := WorkerNext(st, j, actor, l).value;
            && JobRank(ch.job) < JobRank(j) && !ch.job.waiter.WaiterUnborn? && !ch.job.bridge.BridgeUnborn?
  {
    hide PhaseOf, MarksOk, VerdictOk, PhaseOk, TargetsOk;
    if !j.bridge.BridgeClosed? {
      actor := BridgeOf(g);
      l := if j.bridge.Reading? then Read(false, true) else Tick;
    } else {
      actor := WaiterOf(g);
      match j.waiter
      case Inspecting(id, _) => l := Report(id, Unavailable, 0);
      case ReadingFiles(id, _) => l := ReadFiles(id, false);
      case Finishing => l := Clear(Dropped(st, Retire(st, g)));
      case Discharging => l := Discharge;
      case Releasing => l := Release;
      case _ => l := Tick;
    }
  }

  // ----- one party after the other

  lemma {:induction false} InvReaches(s: System, s': System)
    requires SystemInv(s) && Reaches(s, s')
    ensures SystemInv(s')
  {
    hide SystemNext, SystemInv;
    var ss, es :| Path(ss, es) && ss[0] == s && ss[|es|] == s';
    InvAlong(ss, es, |es|);
  }

  lemma {:induction false} InvAlong(ss: seq<System>, es: seq<Event>, i: nat)
    requires Path(ss, es) && i < |ss| && SystemInv(ss[0])
    ensures SystemInv(ss[i])
    decreases i
  {
    hide SystemNext, SystemInv;
    if i > 0 {
      InvAlong(ss, es, i - 1);
      assert SystemNext(ss[i - 1], es[i - 1]) == Some(ss[i - 1 + 1]);
      StepKeepsInv(ss[i - 1], es[i - 1]);
    }
  }

  /** Only party `p` and the shared state differ. */
  predicate OnlyParty(s: System, s': System, p: nat) {
    p in s.parties && p in s'.parties && s'.parties == s.parties[p := s'.parties[p]]
  }

  lemma OneStep(s: System, p: nat, actor: Actor, l: Label, c': Conn) returns (s': System)
    requires SystemInv(s) && p in s.parties && s.parties[p].Socket?
    requires Next(s.parties[p].conn, actor, l) == Some(c') && PoolNext(s.pool, s.parties[p].conn.user, l).Some?
    ensures Reaches(s, s') && SystemInv(s') && OnlyParty(s, s', p) && s'.parties[p] == Socket(c')
  {
    hide Next, PoolNext, SystemInv, Reaches;
    s' := System(PoolNext(s.pool, s.parties[p].conn.user, l).value, s.parties[p := Socket(c')]);
    Stay(s);
    Go(s, s, Step(p, actor, l), s');
    InvReaches(s, s');
  }

  lemma ConnInv(s: System, p: nat)
    requires SystemInv(s) && HasConn(s, p)
    ensures Inv(s.parties[p].conn)
  {
  }

  /** The handler of connection `p` can come back to its loop. */
  lemma {:induction false} HandlerReturns(s: System, p: nat) returns (s': System)
    requires SystemInv(s) && HasConn(s, p)
    ensures Reaches(s, s') && SystemInv(s') && OnlyParty(s, s', p) && HasConn(s', p)
    ensures if s.parties[p].conn.pc.Closed? then s'.parties[p].conn.pc.Closed? else s'.parties[p].conn.pc.Idle?
    decreases PcRank(s.parties[p].conn.pc)
  {
    hide SystemInv, Reaches, JobsOk, LaunchOk, HandlerNext, PoolNext;
    var c := s.parties[p].conn;
    if c.pc.Idle? || c.pc.Closed? {
      Stay(s);
      s' := s;
      assert s.parties == s.parties[p := s.parties[p]];
    } else {
      ConnInv(s, p);
      var l := HandlerGoesOn(s.pool, c);
      var s1 := OneStep(s, p, Handler, l, HandlerNext(c, l).value);
      s' := HandlerReturns(s1, p);
      Joins(s, s1, s');
    }
  }

  /** Job `g` of connection `p`, whose handler is back in its loop, can come to its end. */
  lemma {:induction false} JobEnds(s: System, p: nat, g: nat) returns (s': System)
    requires SystemInv(s) && HasJob(s, p, g) && !s.parties[p].conn.pc.Launching?
    ensures Reaches(s, s') && SystemInv(s') && OnlyParty(s, s', p) && HasJob(s', p, g)
    ensures s'.parties[p].conn.pc == s.parties[p].conn.pc && s'.parties[p].conn.jobs.Keys == s.parties[p].conn.jobs.Keys
    ensures JobIsOver(JobAt(s', p, g))
    ensures forall h | HasJob(s, p, h) && h != g :: JobAt(s', p, h) == JobAt(s, p, h)
    decreases JobRank(JobAt(s, p, g))
  {
    hide SystemInv, Reaches, Inv, WorkerNext, PoolNext, JobOk;
    var c, j := s.parties[p].conn, JobAt(s, p, g);
    if JobIsOver(j) {
      Stay(s);
      s' := s;
      assert s.parties == s.parties[p := s.parties[p]];
    } else {
      ConnInv(s, p);
      LaunchedShape(c, g);
      var actor, l := JobGoesOn(s.pool, c.user, c.st, g, j);
      var ch := WorkerNext(c.st, j, actor, l).value;
      var s1 := OneStep(s, p, actor, l, c.(st := ch.st, jobs := c.jobs[g := ch.job]));
      s' := JobEnds(s1, p, g);
      Joins(s, s1, s');
    }
  }

  lemma LaunchedShape(c: Conn, g: nat)
    requires Inv(c) && g in c.jobs && !c.pc.Launching? && !JobIsOver(c.jobs[g])
    ensures JobOk(c.jobs[g]) && !c.jobs[g].bridge.BridgeUnborn?
  {
    hide JobOk;
  }

  /** All of its jobs can, up to the `n`th. */
  lemma {:induction false} JobsEnd(s: System, p: nat, n: nat) returns (s': System)
    requires SystemInv(s) && HasConn(s, p) && !s.parties[p].conn.pc.Launching?
    ensures Reaches(s, s') && SystemInv(s') && OnlyParty(s, s', p) && HasConn(s', p)
    ensures s'.parties[p].conn.pc == s.parties[p].conn.pc && s'.parties[p].conn.jobs.Keys == s.parties[p].conn.jobs.Keys
    ensures forall g | g in s'.parties[p].conn.jobs && g <= n :: JobIsOver(s'.parties[p].conn.jobs[g])
    decreases n
  {
    hide SystemInv, Reaches;
    if n == 0 {
      Stay(s);
      s' := s;
      assert s.parties == s.parties[p := s.parties[p]];
      NoJobZero(s, p);
    } else {
      var s1 := JobsEnd(s, p, n - 1);
      s' := s1;
      if HasJob(s1, p, n) {
        s' := JobEnds(s1, p, n);
        assert forall g | g in s'.parties[p].conn.jobs && g < n :: HasJob(s1, p, g);
        Joins(s, s1, s');
      }
    }
  }

  lemma NoJobZero(s: System, p: nat)
    requires SystemInv(s) && HasConn(s, p)
    ensures 0 !in s.parties[p].conn.jobs
    ensures forall g | g in s.parties[p].conn.jobs :: g <= s.parties[p].conn.st.generation
  {
    ConnInv(s, p);
  }

  /** The client leaves. */
  lemma Leaves(s: System, p: nat) returns (s': System)
    requires SystemInv(s) && HasConn(s, p) && (s.parties[p].conn.pc.Idle? || s.parties[p].conn.pc.Closed?)
    ensures Reaches(s, s') && SystemInv(s') && OnlyParty(s, s', p) && HasConn(s', p) && s'.parties[p].conn.pc.Closed?
  {
    hide SystemInv, Reaches, PoolNext, Dropped;
    var c := s.parties[p].conn;
    if c.pc.Idle? {
      var l := Clear(Dropped(c.st, Hangup(c.st)));
      ClearIsEnabled(s.pool, c.user, Dropped(c.st, Hangup(c.st)));
      s' := OneStep(s, p, Handler, l, c.(st := Hangup(c.st), pc := Closed));
    } else {
      Stay(s);
      s' := s;
      assert s.parties == s.parties[p := s.parties[p]];
    }
  }

  lemma ClearIsEnabled(pool: Pool, u: User, dropped: set<ContainerId>)
    ensures PoolNext(pool, u, Clear(dropped)).Some?
  {
  }

  lemma SocketFinishes(s: System, p: nat) returns (s': System)
    requires SystemInv(s) && HasConn(s, p)
    ensures Reaches(s, s') && SystemInv(s') && OnlyParty(s, s', p) && Finished(s'.parties[p])
  {
    hide SystemInv, Reaches;
    var s1 := HandlerReturns(s, p);
    var s2 := Leaves(s1, p);
    Joins(s, s1, s2);
    NoJobZero(s2, p);
    s' := JobsEnd(s2, p, s2.parties[p].conn.st.generation);
    Joins(s, s2, s');
  }

  /** What a request can do next. */
  function RestLabel(pool: Pool, r: Rest): Label {
    match r
    case RestAcquiring => if pool.current < pool.max then AcquireOk else AcquireRefused
    case RestCreating => Fail
    case RestRunning(id) => Remove(id)
    case _ => Release
  }

  function RestRank(r: Rest): nat {
    match r
    case RestAcquiring => 4
    case RestCreating => 3
    case RestRunning(_) => 2
    case RestReleasing => 1
    case RestDone => 0
  }

  lemma {:induction false} RequestFinishes(s: System, p: nat) returns (s': System)
    requires SystemInv(s) && p in s.parties && s.parties[p].Request?
    ensures Reaches(s, s') && SystemInv(s') && OnlyParty(s, s', p) && Finished(s'.parties[p])
    decreases RestRank(s.parties[p].rest)
  {
    hide SystemInv, Reaches;
    var r := s.parties[p].rest;
    Stay(s);
    if r.RestDone? {
      s' := s;
      assert s.parties == s.parties[p := s.parties[p]];
    } else {
      var l := RestLabel(s.pool, r);
      var s1 := SystemNext(s, Step(p, Handler, l)).value;
      Go(s, s, Step(p, Handler, l), s1);
      InvReaches(s, s1);
      s' := RequestFinishes(s1, p);
      Joins(s, s1, s');
    }
  }

  lemma {:induction false} AllFinish(s: System, todo: set<nat>) returns (s': System)
    requires SystemInv(s) && forall p | p in s.parties && p !in todo :: Finished(s.parties[p])
    ensures Reaches(s, s') && SystemInv(s') && forall p | p in s'.parties :: Finished(s'.parties[p])
    decreases |todo|
  {
    hide SystemInv, Reaches, Finished;
    if todo == {} {
      Stay(s);
      s' := s;
    } else {
      var p :| p in todo;
      var s1 := s;
      if p !in s.parties {
        Stay(s);
      } else if s.parties[p].Socket? {
        s1 := SocketFinishes(s, p);
      } else {
        s1 := RequestFinishes(s, p);
      }
      s' := AllFinish(s1, todo - {p});
      Joins(s, s1, s');
    }
  }

  /** Nothing gets stuck and nothing is leaked for good: from every state of every behaviour the process can
      come to rest, every connection closed and every waiter and request done; and then no slot is taken, no
      container lives, no user is charged and no run is tracked. */
  lemma TheProcessCanComeToRest(max: int, ss: seq<System>, es: seq<Event>, i: nat) returns (s': System)
    requires Behaviour(max, ss, es) && i < |ss|
    ensures Reaches(ss[i], s') && forall p | p in s'.parties :: Finished(s'.parties[p])
    ensures s'.pool.current == 0 && s'.pool.live == {} && s'.pool.counts == map[] && s'.pool.runs == map[]
  {
    hide SystemNext, SystemInv, Reaches, Finished;
    Always(max, ss, es, i);
    s' := AllFinish(ss[i], ss[i].parties.Keys);
    var ss', es' := Continues(max, ss, es, i, s');
    Lengths(max, ss', es');
    QuiescenceIsClean(max, ss', es', |es'|);
  }

  /** No handler gets stuck: from every state of every behaviour it can come back to its loop by itself. */
  lemma EveryHandlerCanReturn(max: int, ss: seq<System>, es: seq<Event>, i: nat, p: nat) returns (s': System)
    requires Behaviour(max, ss, es) && i < |ss| && HasConn(ss[i], p) && !ss[i].parties[p].conn.pc.Closed?
    ensures Reaches(ss[i], s') && HasConn(s', p) && s'.parties[p].conn.pc.Idle?
    ensures forall q | q in ss[i].parties && q != p :: q in s'.parties && s'.parties[q] == ss[i].parties[q]
  {
    hide SystemNext, SystemInv, Reaches;
    Always(max, ss, es, i);
    s' := HandlerReturns(ss[i], p);
  }
}
