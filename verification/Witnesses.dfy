/** Runs of the process that show where a comment of the source promises more than the code does, and
    that the bounds of `Guarantees` are reached. */
module Witnesses {
  import opened Options
  import opened DockerClient
  import opened Session
  import opened UserQuota
  import opened Connection
  import opened Runner
  import opened Guarantees
  import opened Reachability
  import opened Admission
  import opened Timers

  // ----- one connection among others

  function At(pool: Pool, others: map<nat, Party>, id: nat, c: Conn): System {
    System(pool, others[id := Socket(c)])
  }

  lemma Drive(a: System, pool: Pool, others: map<nat, Party>, id: nat, c: Conn, actor: Actor, l: Label,
              pool': Pool, c': Conn)
    requires Reaches(a, At(pool, others, id, c))
    requires Next(c, actor, l) == Some(c') && PoolNext(pool, c.user, l) == Some(pool')
    ensures Reaches(a, At(pool', others, id, c'))
  {
    hide Next, PoolNext, Reaches;
    assert others[id := Socket(c)][id := Socket(c')] == others[id := Socket(c')];
    Go(a, At(pool, others, id, c), Step(id, actor, l), At(pool', others, id, c'));
  }

  lemma Join(a: System, pool: Pool, others: map<nat, Party>, id: nat, u: User)
    requires Reaches(a, System(pool, others)) && id !in others
    ensures Reaches(a, At(pool, others, id, NewConn(u)))
  {
    hide Reaches;
    Go(a, System(pool, others), Open(id, Socket(NewConn(u))), At(pool, others, id, NewConn(u)));
  }

  // ----- a run from the message to the handler's return

  /** A run whose handler has returned and whose goroutines have not moved yet. */
  function Launched(id: ContainerId): Job {
    Job(RunJob, Some(id), Reading, Armed, Blocked, [Started], Unmarked, {})
  }

  function AfterRun(c: Conn, id: ContainerId): Conn {
    var g := c.st.generation + 1;
    c.(st := Shared(Some(id), g, false), pc := Idle, jobs := c.jobs[g := Launched(id)])
  }

  /** The shared state when the old session of `c` has gone and a container has been created instead. */
  function WithContainer(p: Pool, c: Conn): Pool {
    p.(current := p.current + 1, live := p.live - Dropped(c.st, Hangup(c.st)) + {p.next}, next := p.next + 1)
  }

  function PoolAfterRun(p: Pool, c: Conn): Pool {
    WithContainer(p.(counts := Increment(p.counts, c.user)), c)
  }

  /** Connection `c` while it launches its next run, with `j` so far, at `stage`. */
  function Midway(c: Conn, session: Option<ContainerId>, stage: Stage, j: Job): Conn {
    var g := c.st.generation + 1;
    c.(st := Shared(session, g, false), pc := Launching(g, RunJob, stage), jobs := c.jobs[g := j])
  }

  /** One launching step that is not the last. */
  lemma Launch(a: System, pool: Pool, others: map<nat, Party>, id: nat, c: Conn,
               session: Option<ContainerId>, stage: Stage, j: Job, l: Label,
               pool': Pool, session': Option<ContainerId>, stage': Stage, j': Job)
    requires Reaches(a, At(pool, others, id, Midway(c, session, stage, j))) && PoolNext(pool, c.user, l) == Some(pool')
    requires var g := c.st.generation + 1;
             LaunchNext(Shared(session, g, false), g, j, RunJob, stage, l)
             == Some(Move(Shared(session', g, false), j', Launching(g, RunJob, stage')))
    ensures Reaches(a, At(pool', others, id, Midway(c, session', stage', j')))
  {
    hide At, Reaches, LaunchNext, PoolNext;
    var g := c.st.generation + 1;
    assert c.jobs[g := j][g := j'] == c.jobs[g := j'];
    Drive(a, pool, others, id, Midway(c, session, stage, j), Handler, l, pool', Midway(c, session', stage', j'));
  }

  lemma DroppedEither(st: Shared, st': Shared)
    requires st'.session.None?
    ensures Dropped(st, st') == Dropped(st, Hangup(st))
  {
  }

  /** The user is below the cap. */
  lemma BeAdmitted(a: System, pool: Pool, others: map<nat, Party>, id: nat, c: Conn)
    requires Reaches(a, At(pool, others, id, c)) && c.pc.Idle? && BelowCap(pool.counts, c.user)
    ensures Reaches(a, At(pool.(counts := Increment(pool.counts, c.user)), others, id, c.(pc := Replacing(RunJob))))
  {
    hide At, Reaches;
    Drive(a, pool, others, id, c, Handler, Receive(RunJob), pool, c.(pc := Charging));
    Drive(a, pool, others, id, c.(pc := Charging), Handler, Charge(true),
          pool.(counts := Increment(pool.counts, c.user)), c.(pc := Replacing(RunJob)));
  }

  /** The old session goes, and the run gets a slot and a container. */
  lemma GetContainer(a: System, pool: Pool, others: map<nat, Party>, id: nat, c: Conn)
    requires Reaches(a, At(pool, others, id, c.(pc := Replacing(RunJob)))) && pool.current < pool.max
    ensures var j := NewJob(RunJob).(container := Some(pool.next));
            Reaches(a, At(WithContainer(pool, c), others, id, Midway(c, None, Storing(pool.next), j)))
  {
    hide At, Reaches, Dropped;
    var box, st := pool.next, Shared(None, c.st.generation + 1, false);
    var cleared := pool.(live := pool.live - Dropped(c.st, st));
    DroppedEither(c.st, st);
    var j0 := NewJob(RunJob);
    Drive(a, pool, others, id, c.(pc := Replacing(RunJob)), Handler, Clear(Dropped(c.st, st)), cleared,
          Midway(c, None, Acquiring, j0));
    var taken := cleared.(current := pool.current + 1);
    Launch(a, cleared, others, id, c, None, Acquiring, j0, AcquireOk, taken, None, Creating, j0);
    var j1 := j0.(container := Some(box));
    Launch(a, taken, others, id, c, None, Creating, j0, Create(box), WithContainer(pool, c), None, SettingUp(box), j1);
    Launch(a, WithContainer(pool, c), others, id, c, None, SettingUp(box), j1, Tick, WithContainer(pool, c),
           None, Storing(box), j1);
  }

  /** The handler installs and tracks the container. */
  lemma PutInPlace(a: System, pool: Pool, others: map<nat, Party>, id: nat, c: Conn, box: ContainerId)
    requires Reaches(a, At(pool, others, id, Midway(c, None, Storing(box), NewJob(RunJob).(container := Some(box)))))
    ensures Reaches(a, At(pool.(runs := UserQuota.Track(pool.runs, c.user, box, 0)), others, id,
                          Midway(c, Some(box), Announcing(box), NewJob(RunJob).(container := Some(box)))))
  {
    hide At, Reaches;
    var j := NewJob(RunJob).(container := Some(box));
    Launch(a, pool, others, id, c, None, Storing(box), j, Tick, pool, Some(box), Tracking(box), j);
    Launch(a, pool, others, id, c, Some(box), Tracking(box), j, Connection.Track(box, 0),
           pool.(runs := UserQuota.Track(pool.runs, c.user, box, 0)), Some(box), Announcing(box), j);
  }

  /** The handler starts the goroutines and returns. */
  lemma Return(a: System, pool: Pool, others: map<nat, Party>, id: nat, c: Conn, box: ContainerId)
    requires var j := NewJob(RunJob).(container := Some(box));
             Reaches(a, At(pool, others, id, Midway(c, Some(box), Announcing(box), j)))
    ensures Reaches(a, At(pool.(runs := Forget(pool.runs, c.user, box)), others, id, AfterRun(c, box)))
  {
    hide At, Reaches;
    var j0, session := NewJob(RunJob).(container := Some(box)), Some(box);
    var j1 := j0.(sent := [Started]);
    assert Say(j0, Started) == j1;
    Launch(a, pool, others, id, c, session, Announcing(box), j0, Tick, pool, session, StartingBridge(box), j1);
    var j2 := j1.(bridge := Reading);
    Launch(a, pool, others, id, c, session, StartingBridge(box), j1, Tick, pool, session, ArmingTimer(box), j2);
    var j3 := j2.(timer := Armed);
    Launch(a, pool, others, id, c, session, ArmingTimer(box), j2, Tick, pool, session, StartingWaiter(box), j3);
    var j4 := Launched(box);
    Launch(a, pool, others, id, c, session, StartingWaiter(box), j3, Tick, pool, session, Untracking(box), j4);
    HandOver(a, pool, others, id, c, box);
  }

  lemma HandOver(a: System, pool: Pool, others: map<nat, Party>, id: nat, c: Conn, box: ContainerId)
    requires Reaches(a, At(pool, others, id, Midway(c, Some(box), Untracking(box), Launched(box))))
    ensures Reaches(a, At(pool.(runs := Forget(pool.runs, c.user, box)), others, id, AfterRun(c, box)))
  {
    hide At, Reaches;
    var g := c.st.generation + 1;
    assert c.jobs[g := Launched(box)][g := Launched(box)] == c.jobs[g := Launched(box)];
    Drive(a, pool, others, id, Midway(c, Some(box), Untracking(box), Launched(box)), Handler, Untrack(box),
          pool.(runs := Forget(pool.runs, c.user, box)), AfterRun(c, box));
  }

  /** From the admission on, while no run of the user is tracked. */
  lemma RunAdmitted(a: System, pool: Pool, others: map<nat, Party>, id: nat, c: Conn)
    requires Reaches(a, At(pool, others, id, c.(pc := Replacing(RunJob))))
    requires pool.current < pool.max && c.user !in pool.runs
    ensures Reaches(a, At(WithContainer(pool, c), others, id, AfterRun(c, pool.next)))
  {
    hide At, Reaches, Dropped;
    var after, box := WithContainer(pool, c), pool.next;
    GetContainer(a, pool, others, id, c);
    PutInPlace(a, after, others, id, c, box);
    var tracked := after.(runs := UserQuota.Track(after.runs, c.user, box, 0));
    Return(a, tracked, others, id, c, box);
    assert Forget(tracked.runs, c.user, box) == pool.runs;
    assert tracked.(runs := Forget(tracked.runs, c.user, box)) == after;
  }

  lemma Run(a: System, pool: Pool, others: map<nat, Party>, id: nat, c: Conn)
    requires Reaches(a, At(pool, others, id, c)) && c.pc.Idle? && BelowCap(pool.counts, c.user)
    requires pool.current < pool.max && c.user !in pool.runs
    ensures Reaches(a, At(PoolAfterRun(pool, c), others, id, AfterRun(c, pool.next)))
  {
    hide At, Reaches, Dropped, BelowCap;
    BeAdmitted(a, pool, others, id, c);
    RunAdmitted(a, pool.(counts := Increment(pool.counts, c.user)), others, id, c);
  }

  // ----- the newest action

  /** "Your newest action always wins" (handler/websocket.go:130-135) does not hold: a user with one
      connection and one live container is turned away.  The two earlier runs are superseded and their
      containers gone, but their waiters have not decremented the count yet, and no run is tracked that
      could be evicted. */
  lemma NewestActionCanLose(u: User) returns (ss: seq<System>, es: seq<Event>, c: Conn)
    ensures Behaviour(3, ss, es)
    ensures var s := ss[|es|];
            && s.parties == map[0 := Socket(c)] && c.user == u && c.pc.Recharging? && |s.pool.live| == 1
            && PoolNext(s.pool, u, Charge(true)).None?
  {
    hide At, Reaches, Behaviour;
    var a, p0, c0 := Start(3), Start(3).pool, NewConn(u);
    Stay(a);
    Join(a, p0, map[], 0, u);
    Run(a, p0, map[], 0, c0);
    var p1, c1 := PoolAfterRun(p0, c0), AfterRun(c0, 0);
    Run(a, p1, map[], 0, c1);
    var p2, c2 := PoolAfterRun(p1, c1), AfterRun(c1, 1);
    Run(a, p2, map[], 0, c2);
    var p3, c3 := PoolAfterRun(p2, c2), AfterRun(c2, 2);
    assert p3.live == {2} && Count(p3.counts, u) == 3 && p3.runs == map[];
    BeRefused(a, p3, map[], 0, c3);
    c := c3.(pc := Recharging);
    var s := At(p3, map[], 0, c);
    assert s.parties == map[0 := Socket(c)] && s.pool == p3 by { AloneAt(p3, 0, c); }
    Stay(s);
    var i;
    ss, es, i := ReachedInOrder(3, s, s);
  }

  lemma AloneAt(pool: Pool, id: nat, c: Conn)
    ensures At(pool, map[], id, c) == System(pool, map[id := Socket(c)])
  {
  }

  lemma BeRefused(a: System, pool: Pool, others: map<nat, Party>, id: nat, c: Conn)
    requires Reaches(a, At(pool, others, id, c)) && c.pc.Idle? && !BelowCap(pool.counts, c.user) && pool.runs == map[]
    ensures Reaches(a, At(pool, others, id, c.(pc := Recharging)))
  {
    hide At, Reaches;
    Drive(a, pool, others, id, c, Handler, Receive(RunJob), pool, c.(pc := Charging));
    Drive(a, pool, others, id, c.(pc := Charging), Handler, Charge(false), pool, c.(pc := CapCheck));
    Drive(a, pool, others, id, c.(pc := CapCheck), Handler, SeeCap(false), pool, c.(pc := ListingRuns));
    Drive(a, pool, others, id, c.(pc := ListingRuns), Handler, SeeRuns(false), pool, c.(pc := Recharging));
  }

  // ----- a run that has been superseded

  /** Connection `c` with job `g` as `j`. */
  function WithJob(c: Conn, g: nat, j: Job): Conn {
    c.(jobs := c.jobs[g := j])
  }

  /** A goroutine of a job takes a step that leaves the connection's shared state alone. */
  lemma Toil(a: System, pool: Pool, others: map<nat, Party>, id: nat, c: Conn, j: Job, actor: Actor, l: Label,
             pool': Pool, j': Job)
    requires !actor.Handler? && Reaches(a, At(pool, others, id, WithJob(c, actor.gen, j)))
    requires WorkerNext(c.st, j, actor, l) == Some(Change(c.st, j')) && PoolNext(pool, c.user, l) == Some(pool')
    ensures Reaches(a, At(pool', others, id, WithJob(c, actor.gen, j')))
  {
    hide At, Reaches, WorkerNext, PoolNext;
    assert c.jobs[actor.gen := j][actor.gen := j'] == c.jobs[actor.gen := j'];
    Drive(a, pool, others, id, WithJob(c, actor.gen, j), actor, l, pool', WithJob(c, actor.gen, j'));
  }

  function FirstRun(u: User): Conn {
    AfterRun(NewConn(u), 0)
  }

  function FirstPool(u: User): Pool {
    PoolAfterRun(Start(3).pool, NewConn(u))
  }

  lemma RunFirst(u: User)
    ensures Reaches(Start(3), At(FirstPool(u), map[], 0, WithJob(FirstRun(u), 1, Launched(0))))
  {
    hide At, Reaches;
    Stay(Start(3));
    Join(Start(3), Start(3).pool, map[], 0, u);
    Run(Start(3), Start(3).pool, map[], 0, NewConn(u));
    assert WithJob(FirstRun(u), 1, Launched(0)) == FirstRun(u);
  }

  /** The same connection after a second run, with job 1 as `j`. */
  function Supplanted(u: User, j: Job): Conn {
    AfterRun(WithJob(FirstRun(u), 1, j), 1)
  }

  function SecondPool(u: User): Pool {
    PoolAfterRun(FirstPool(u), FirstRun(u))
  }

  lemma Supplant(u: User, j: Job)
    requires Reaches(Start(3), At(FirstPool(u), map[], 0, WithJob(FirstRun(u), 1, j)))
    ensures Reaches(Start(3), At(SecondPool(u), map[], 0, Supplanted(u, j)))
  {
    hide At, Reaches;
    Run(Start(3), FirstPool(u), map[], 0, WithJob(FirstRun(u), 1, j));
  }

  /** In state `i` of the behaviour, run 1 of connection 0 has sent `before` and is superseded by run 2, which
      has announced itself.  At the end run 1 has sent `after`. */
  ghost predicate SpeaksWhenStale(ss: seq<System>, es: seq<Event>, i: nat, before: seq<Message>, after: seq<Message>) {
    && Behaviour(3, ss, es) && i < |ss| && Superseded(ss[i], before)
    && HasJob(ss[|es|], 0, 1) && JobAt(ss[|es|], 0, 1).sent == after
  }

  predicate Superseded(s: System, before: seq<Message>) {
    && StaleAt(s, 0, 1) && JobAt(s, 0, 1).sent == before
    && HasJob(s, 0, 2) && JobAt(s, 0, 2).sent == [Started]
  }

  lemma StandsSuperseded(u: User, j: Job)
    ensures Superseded(At(SecondPool(u), map[], 0, Supplanted(u, j)), j.sent)
    ensures var s := At(SecondPool(u), map[], 0, Supplanted(u, j)); HasJob(s, 0, 1) && JobAt(s, 0, 1).sent == j.sent
  {
  }

  /** One late output chunk is possible: the bridge checked before the new run began and sends after it. */
  lemma StaleOutputIsPossible(u: User) returns (ss: seq<System>, es: seq<Event>, i: nat)
    ensures SpeaksWhenStale(ss, es, i, [Started], [Started, Output])
  {
    hide Reaches, At, Superseded, Behaviour;
    var a, pool, c, j0 := Start(3), FirstPool(u), FirstRun(u), Launched(0);
    RunFirst(u);
    Toil(a, pool, map[], 0, c, j0, BridgeOf(1), Read(true, false), pool, j0.(bridge := Checking(false)));
    var j1 := j0.(bridge := Sending(false));
    Toil(a, pool, map[], 0, c, j0.(bridge := Checking(false)), BridgeOf(1), Tick, pool, j1);
    Supplant(u, j1);
    var s := At(SecondPool(u), map[], 0, Supplanted(u, j1));
    var j2 := j0.(sent := [Started, Output]);
    assert Say(j1, Output).(bridge := Reading) == j2;
    Stay(s);
    SpeakOn(u, s, j1, j1, BridgeOf(1), Tick, j2);
    StandsSuperseded(u, j1);
    StandsSuperseded(u, j2);
    ss, es, i := ReachedInOrder(3, s, At(SecondPool(u), map[], 0, Supplanted(u, j2)));
  }

  /** A goroutine of the superseded run takes a step. */
  lemma SpeakOn(u: User, s: System, j0: Job, j: Job, actor: Actor, l: Label, j': Job)
    requires s == At(SecondPool(u), map[], 0, Supplanted(u, j0))
    requires Reaches(s, At(SecondPool(u), map[], 0, Supplanted(u, j)))
    requires !actor.Handler? && actor.gen == 1 && l.Tick?
    requires var st := Shared(Some(1), 2, false); WorkerNext(st, j, actor, l) == Some(Change(st, j'))
    ensures Reaches(s, At(SecondPool(u), map[], 0, Supplanted(u, j')))
  {
    hide At, Reaches, WorkerNext;
    var c := Supplanted(u, j);
    assert WithJob(c, 1, j) == c && WithJob(c, 1, j') == Supplanted(u, j');
    Toil(s, SecondPool(u), map[], 0, c, j, actor, l, SecondPool(u), j');
  }

  /** A run whose waiter is past both of its currency checks and has read the container's files. */
  function PastBothChecks(): Job {
    Launched(0).(bridge := BridgeClosed, timer := TimerDone, waiter := SendingFiles(Normal), marks := Sampled)
  }

  lemma EndTheOutput(a: System, pool: Pool, others: map<nat, Party>, id: nat, c: Conn, box: ContainerId)
    requires Reaches(a, At(pool, others, id, WithJob(c, 1, Launched(box))))
    ensures Reaches(a, At(pool, others, id, WithJob(c, 1, Launched(box).(bridge := BridgeClosed))))
  {
    hide At, Reaches;
    var j := Launched(box);
    Toil(a, pool, others, id, c, j, BridgeOf(1), Read(false, true), pool, j.(bridge := Closing));
    Toil(a, pool, others, id, c, j.(bridge := Closing), BridgeOf(1), Tick, pool, j.(bridge := BridgeClosed));
  }

  lemma PassBothChecks(u: User)
    ensures Reaches(Start(3), At(FirstPool(u), map[], 0, WithJob(FirstRun(u), 1, PastBothChecks())))
  {
    hide At, Reaches, Increment, Dropped;
    var a, pool, c := Start(3), FirstPool(u), FirstRun(u);
    RunFirst(u);
    EndTheOutput(a, pool, map[], 0, c, 0);
    var j0 := Launched(0).(bridge := BridgeClosed);
    var j1 := j0.(waiter := StoppingTimer);
    Toil(a, pool, map[], 0, c, j0, WaiterOf(1), Tick, pool, j1);
    var j2 := j0.(waiter := Sampling, timer := TimerDone);
    Toil(a, pool, map[], 0, c, j1, WaiterOf(1), Tick, pool, j2);
    var j3 := j2.(waiter := Inspecting(0, false), marks := Sampled);
    Toil(a, pool, map[], 0, c, j2, WaiterOf(1), Tick, pool, j3);
    var j4 := j3.(waiter := Rechecking(0, Normal));
    Toil(a, pool, map[], 0, c, j3, WaiterOf(1), Report(0, Inspected(false), 0), pool, j4);
    var j5 := j4.(waiter := ReadingFiles(0, Normal));
    Toil(a, pool, map[], 0, c, j4, WaiterOf(1), Tick, pool, j5);
    Toil(a, pool, map[], 0, c, j5, WaiterOf(1), ReadFiles(0, true), pool, PastBothChecks());
  }

  /** A late exit is possible, files and all: the waiter read the files, past its second check, before the
      new run began.  So "only send exit if this is still the current generation" (handler/websocket.go:643,
      673) does not hold of what the client sees. */
  lemma StaleExitIsPossible(u: User) returns (ss: seq<System>, es: seq<Event>, i: nat)
    ensures SpeaksWhenStale(ss, es, i, [Started], [Started, Files, Exit(Normal)])
  {
    hide Reaches, At, Superseded, Behaviour;
    var j0 := PastBothChecks();
    PassBothChecks(u);
    Supplant(u, j0);
    var s := At(SecondPool(u), map[], 0, Supplanted(u, j0));
    Stay(s);
    var j1 := j0.(waiter := Exiting(Normal), sent := [Started, Files]);
    assert Say(j0, Files).(waiter := Exiting(Normal)) == j1;
    SpeakOn(u, s, j0, j0, WaiterOf(1), Tick, j1);
    var j2 := j1.(waiter := Finishing, sent := [Started, Files, Exit(Normal)]);
    assert Say(j1, Exit(Normal)).(waiter := Finishing) == j2;
    SpeakOn(u, s, j0, j1, WaiterOf(1), Tick, j2);
    StandsSuperseded(u, j0);
    StandsSuperseded(u, j2);
    ss, es, i := ReachedInOrder(3, s, At(SecondPool(u), map[], 0, Supplanted(u, j2)));
  }

  /** A run can end with "timeout": its timer fires, raises the flag and cancels the container, and the waiter
      reads the flag after that. */
  lemma TimeoutIsPossible(u: User) returns (ss: seq<System>, es: seq<Event>)
    ensures Behaviour(3, ss, es) && HasJob(ss[|es|], 0, 1) && Exit(Timeout) in JobAt(ss[|es|], 0, 1).sent
    ensures HitThenRead(ss, es, |es|, 0, 1)
  {
    hide Reaches, SystemNext, HitThenRead;
    RunFirst(u);
    var s := At(FirstPool(u), map[], 0, WithJob(FirstRun(u), 1, Launched(0)));
    Stay(s);
    var i;
    ss, es, i := ReachedInOrder(3, s, s);
    var s' := EveryRunCanTimeOut(3, ss, es, |es|, 0, 1);
    ss, es, i := ReachedInOrder(3, s, s');
    TimeoutIsAttributed(3, ss, es, |es|, 0, 1, Timeout);
  }

  // ----- eviction

  /** The pool once the user's run in `victim` has been evicted. */
  function Evicted(pool: Pool, u: User, victim: ContainerId): Pool {
    pool.(live := pool.live - {victim}, runs := Forget(pool.runs, u, victim), counts := Decrement(pool.counts, u),
          evictions := pool.evictions[u := Evictions(pool, u) + 1])
  }

  /** At the cap, with one run tracked: the handler picks it. */
  lemma PickOnly(a: System, pool: Pool, others: map<nat, Party>, id: nat, c: Conn, victim: ContainerId)
    requires Reaches(a, At(pool, others, id, c.(pc := Charging)))
    requires Count(pool.counts, c.user) == MAX_CONTAINERS_PER_USER && RunsOf(pool.runs, c.user) == map[victim := 0]
    ensures Reaches(a, At(pool, others, id, c.(pc := Evicting(victim))))
  {
    hide At, Reaches;
    Drive(a, pool, others, id, c.(pc := Charging), Handler, Charge(false), pool, c.(pc := CapCheck));
    Drive(a, pool, others, id, c.(pc := CapCheck), Handler, SeeCap(false), pool, c.(pc := ListingRuns));
    assert victim in RunsOf(pool.runs, c.user);
    Drive(a, pool, others, id, c.(pc := ListingRuns), Handler, SeeRuns(true), pool, c.(pc := PickingVictim));
    Drive(a, pool, others, id, c.(pc := PickingVictim), Handler, Pick(Some(victim)), pool, c.(pc := Evicting(victim)));
  }

  /** ... and evicts it. */
  lemma Evict(a: System, pool: Pool, others: map<nat, Party>, id: nat, c: Conn, victim: ContainerId)
    requires Reaches(a, At(pool, others, id, c.(pc := Charging)))
    requires Count(pool.counts, c.user) == MAX_CONTAINERS_PER_USER && RunsOf(pool.runs, c.user) == map[victim := 0]
    ensures Reaches(a, At(Evicted(pool, c.user, victim), others, id, c.(pc := Recharging)))
  {
    hide At, Reaches, Forget, Decrement;
    PickOnly(a, pool, others, id, c, victim);
    var p1 := pool.(live := pool.live - {victim});
    Drive(a, pool, others, id, c.(pc := Evicting(victim)), Handler, Connection.Remove(victim),
          p1, c.(pc := Forgetting(victim)));
    var p2 := p1.(runs := Forget(pool.runs, c.user, victim));
    Drive(a, p1, others, id, c.(pc := Forgetting(victim)), Handler, Untrack(victim), p2, c.(pc := Discounting));
    Drive(a, p2, others, id, c.(pc := Discounting), Handler, Discount,
          Evicted(pool, c.user, victim), c.(pc := Recharging));
  }

  /** The client disconnects during its first run; the waiter notices, discharges and releases. */
  lemma Depart(a: System, pool: Pool, others: map<nat, Party>, id: nat, u: User, box: ContainerId) returns (c': Conn)
    requires Reaches(a, At(pool, others, id, AfterRun(NewConn(u), box)))
    ensures Reaches(a, At(pool.(live := pool.live - {box}, counts := Decrement(pool.counts, u),
                                current := pool.current - 1),
                          others, id, c'))
  {
    hide At, Reaches, Decrement;
    var c, left := AfterRun(NewConn(u), box), pool.(live := pool.live - {box});
    var closed := c.(st := Shared(None, 1, false), pc := Closed);
    Drive(a, pool, others, id, c, Handler, Clear({box}), left, closed);
    assert WithJob(closed, 1, Launched(box)) == closed;
    EndTheOutput(a, left, others, id, closed, box);
    var j0 := Launched(box).(bridge := BridgeClosed);
    var j1 := j0.(waiter := StoppingTimer);
    Toil(a, left, others, id, closed, j0, WaiterOf(1), Tick, left, j1);
    var j2 := j0.(waiter := Sampling, timer := TimerDone);
    Toil(a, left, others, id, closed, j1, WaiterOf(1), Tick, left, j2);
    c' := GiveBack(a, left, others, id, closed, j2);
  }

  lemma GiveBack(a: System, pool: Pool, others: map<nat, Party>, id: nat, c: Conn, j: Job) returns (c': Conn)
    requires Reaches(a, At(pool, others, id, WithJob(c, 1, j)))
    requires j.kind.RunJob? && j.waiter.Sampling? && c.st.session.None?
    ensures Reaches(a, At(pool.(counts := Decrement(pool.counts, c.user), current := pool.current - 1), others, id, c'))
  {
    hide At, Reaches, Decrement;
    var j1 := j.(waiter := Discharging, marks := j.marks.AfterSample());
    Toil(a, pool, others, id, c, j, WaiterOf(1), Tick, pool, j1);
    var j2, p2 := j1.(waiter := Releasing), pool.(counts := Decrement(pool.counts, c.user));
    Toil(a, pool, others, id, c, j1, WaiterOf(1), Discharge, p2, j2);
    var j3 := j1.(waiter := WaiterDone);
    Toil(a, p2, others, id, c, j2, WaiterOf(1), Release, p2.(current := pool.current - 1), j3);
    c' := WithJob(c, 1, j3);
  }

  // ----- many runs of one user

  /** A connection's only run so far, in container `box`. */
  function Single(u: User, box: ContainerId): Party {
    Socket(AfterRun(NewConn(u), box))
  }

  /** The same, while the handler has not returned, so that the run is tracked. */
  function Unreturned(u: User, box: ContainerId): Party {
    Socket(Midway(NewConn(u), Some(box), Announcing(box), NewJob(RunJob).(container := Some(box))))
  }

  /** User `u` alone in the process, charged for `count` runs. */
  function Crowd(p: Pool, u: User, current: int, live: set<ContainerId>, next: ContainerId, count: int,
                 runs: Runs): Pool
  {
    p.(current := current, live := live, next := next, counts := map[u := count], runs := runs)
  }

  /** A run that is admitted without eviction and whose handler returns. */
  lemma RunAnother(a: System, pool: Pool, u: User, others: map<nat, Party>, id: nat)
    requires Reaches(a, System(pool, others)) && id !in others
    requires pool.current < pool.max && pool.runs == map[] && BelowCap(pool.counts, u)
    ensures Reaches(a, System(pool.(current := pool.current + 1, live := pool.live + {pool.next}, next := pool.next + 1,
                                    counts := Increment(pool.counts, u)),
                              others[id := Single(u, pool.next)]))
  {
    hide Reaches;
    Join(a, pool, others, id, u);
    Run(a, pool, others, id, NewConn(u));
    assert pool.live - {} + {pool.next} == pool.live + {pool.next};
  }

  /** A run that is admitted without eviction and whose handler does not return yet. */
  lemma RunAndTrack(a: System, pool: Pool, u: User, others: map<nat, Party>, id: nat)
    requires Reaches(a, System(pool, others)) && id !in others
    requires pool.current < pool.max && pool.runs == map[] && BelowCap(pool.counts, u)
    ensures Reaches(a, System(pool.(current := pool.current + 1, live := pool.live + {pool.next}, next := pool.next + 1,
                                    counts := Increment(pool.counts, u), runs := map[u := map[pool.next := 0]]),
                              others[id := Unreturned(u, pool.next)]))
  {
    hide Reaches, Midway;
    var charged := pool.(counts := Increment(pool.counts, u));
    Join(a, pool, others, id, u);
    BeAdmitted(a, pool, others, id, NewConn(u));
    GetContainer(a, charged, others, id, NewConn(u));
    var placed := WithContainer(charged, NewConn(u));
    assert pool.live - {} + {pool.next} == pool.live + {pool.next};
    PutInPlace(a, placed, others, id, NewConn(u), pool.next);
    assert UserQuota.Track(map[], u, pool.next, 0) == map[u := map[pool.next := 0]];
  }

  /** `3 + n` live runs after `n` evictions; the one in `box`, of connection `x`, is still tracked. */
  ghost predicate Piled(s: System, max: int, u: User, n: nat, x: nat, box: ContainerId) {
    && s.pool == Crowd(s.pool, u, 3 + n, s.pool.live, s.pool.next, 3, map[u := map[box := 0]])
    && s.pool.max == max && Evictions(s.pool, u) == n
    && |s.pool.live| == 3 + n && box in s.pool.live && (forall id | id in s.pool.live :: id < s.pool.next)
    && x in s.parties && s.parties[x] == Unreturned(u, box)
    && forall id | id in s.pool.live && id != box :: IsSingle(s, u, x, id)
  }

  ghost predicate IsSingle(s: System, u: User, x: nat, id: ContainerId) {
    exists p :: p in s.parties && p != x && s.parties[p] == Single(u, id)
  }

  lemma PiledRuns(s: System, max: int, u: User, n: nat, x: nat, box: ContainerId)
    requires Piled(s, max, u, n, x, box)
    ensures LiveRuns(s, u) == s.pool.live
  {
    assert HasJob(s, x, 1);
    forall id | id in s.pool.live
      ensures IsRunOf(s, u, id)
    {
      if id != box {
        assert IsSingle(s, u, x, id);
        var p :| p in s.parties && p != x && s.parties[p] == Single(u, id);
        assert HasJob(s, p, 1);
      }
    }
  }

  lemma NewId(parties: map<nat, Party>) returns (id: nat)
    ensures id !in parties
  {
    id := 0;
    var todo := parties.Keys;
    while todo != {}
      invariant forall k | k in parties && k !in todo :: k < id
    {
      var k :| k in todo;
      todo := todo - {k};
      id := if k < id then id else k + 1;
    }
  }

  function TwoSingles(u: User): map<nat, Party> {
    map[1 := Single(u, 0), 2 := Single(u, 1)]
  }

  lemma RunTwo(max: int, u: User)
    requires max >= 3
    ensures Reaches(Start(max), System(Crowd(Start(max).pool, u, 2, {0, 1}, 2, 2, map[]), TwoSingles(u)))
  {
    hide Reaches;
    var a, p0 := Start(max), Start(max).pool;
    Stay(a);
    RunAnother(a, p0, u, map[], 1);
    assert {} + {0} == {0} && Increment(map[], u) == map[u := 1];
    assert map[][1 := Single(u, 0)] == map[1 := Single(u, 0)];
    RunAnother(a, Crowd(p0, u, 1, {0}, 1, 1, map[]), u, map[1 := Single(u, 0)], 2);
    assert {0} + {1} == {0, 1} && Increment(map[u := 1], u) == map[u := 2];
    assert map[1 := Single(u, 0)][2 := Single(u, 1)] == TwoSingles(u);
  }

  lemma PileThree(max: int, u: User) returns (s: System, x: nat, box: ContainerId)
    requires max >= 3
    ensures Reaches(Start(max), s) && Piled(s, max, u, 0, x, box)
  {
    hide Reaches, Single, Unreturned;
    var p0 := Start(max).pool;
    RunTwo(max, u);
    RunAndTrack(Start(max), Crowd(p0, u, 2, {0, 1}, 2, 2, map[]), u, TwoSingles(u), 0);
    assert Increment(map[u := 2], u) == map[u := 3];
    x, box := 0, 2;
    s := System(Crowd(p0, u, 3, {0, 1, 2}, 3, 3, map[u := map[2 := 0]]), TwoSingles(u)[0 := Unreturned(u, 2)]);
    assert {0, 1} + {2} == {0, 1, 2};
    assert s.parties[1] == Single(u, 0) && s.parties[2] == Single(u, 1);
  }

  /** A fourth run, on connection `y`, evicts the tracked one. */
  lemma ReplaceTracked(a: System, s: System, max: int, u: User, n: nat, x: nat, box: ContainerId, y: nat)
    requires Reaches(a, s) && Piled(s, max, u, n, x, box) && max > 3 + n && y !in s.parties
    ensures Reaches(a, System(Crowd(s.pool, u, 4 + n, s.pool.live - {box} + {s.pool.next}, s.pool.next + 1, 3, map[])
                              .(evictions := s.pool.evictions[u := n + 1]),
                              s.parties[y := Single(u, s.pool.next)]))
  {
    hide Reaches, Piled;
    var c, pool := NewConn(u), s.pool;
    assert pool == Crowd(pool, u, 3 + n, pool.live, pool.next, 3, map[u := map[box := 0]]) && pool.max == max
           && Evictions(pool, u) == n by { PiledPool(s, max, u, n, x, box); }
    Join(a, pool, s.parties, y, u);
    Drive(a, pool, s.parties, y, c, Handler, Receive(RunJob), pool, c.(pc := Charging));
    Evict(a, pool, s.parties, y, c, box);
    var p1 := Crowd(pool, u, 3 + n, pool.live - {box}, pool.next, 2, map[]).(evictions := pool.evictions[u := n + 1]);
    assert Evicted(pool, u, box) == p1;
    var p2 := p1.(counts := map[u := 3]);
    assert Increment(p1.counts, u) == p2.counts;
    Drive(a, p1, s.parties, y, c.(pc := Recharging), Handler, Charge(true), p2, c.(pc := Replacing(RunJob)));
    RunAdmitted(a, p2, s.parties, y, c);
    assert p2.live - {} + {p2.next} == p2.live + {p2.next};
    assert WithContainer(p2, c) == Crowd(pool, u, 4 + n, pool.live - {box} + {pool.next}, pool.next + 1, 3, map[])
                                   .(evictions := pool.evictions[u := n + 1]);
  }

  lemma PiledPool(s: System, max: int, u: User, n: nat, x: nat, box: ContainerId)
    requires Piled(s, max, u, n, x, box)
    ensures s.pool == Crowd(s.pool, u, 3 + n, s.pool.live, s.pool.next, 3, map[u := map[box := 0]])
    ensures s.pool.max == max && Evictions(s.pool, u) == n
    ensures box in s.pool.live && forall id | id in s.pool.live :: id < s.pool.next
    ensures x in s.parties && s.parties[x] == Unreturned(u, box)
  {
  }

  /** The evicted run's handler returns, its client leaves, and its waiter discharges it once more. */
  lemma TrackedDeparts(a: System, pool: Pool, parties: map<nat, Party>, u: User, x: nat, box: ContainerId)
    returns (c': Conn)
    requires Reaches(a, System(pool, parties)) && x in parties && parties[x] == Unreturned(u, box)
    requires box !in pool.live && pool.counts == map[u := 3] && pool.runs == map[]
    ensures Reaches(a, System(pool.(counts := map[u := 2], current := pool.current - 1), parties[x := Socket(c')]))
  {
    hide Reaches, Midway;
    assert parties[x := parties[x]] == parties;
    Return(a, pool, parties, x, NewConn(u), box);
    assert pool.(runs := Forget(pool.runs, u, box)) == pool;
    c' := Depart(a, pool, parties, x, u, box);
    assert pool.live - {box} == pool.live;
    assert Decrement(pool.counts, u) == map[u := 2];
  }

  /** One more live run, at the price of one more eviction. */
  lemma PileHigher(a: System, s: System, max: int, u: User, n: nat, x: nat, box: ContainerId)
    returns (s': System, z: nat, box': ContainerId)
    requires Reaches(a, s) && Piled(s, max, u, n, x, box) && max > 3 + n
    ensures Reaches(a, s') && Piled(s', max, u, n + 1, z, box')
  {
    hide Reaches, Unreturned, Single, Piled;
    var pool, k := s.pool, s.pool.next;
    PiledPool(s, max, u, n, x, box);
    var y := NewId(s.parties);
    ReplaceTracked(a, s, max, u, n, x, box, y);
    var p1 := Crowd(pool, u, 4 + n, pool.live - {box} + {k}, k + 1, 3, map[]).(evictions := pool.evictions[u := n + 1]);
    var parties := s.parties[y := Single(u, k)];
    var c' := TrackedDeparts(a, p1, parties, u, x, box);
    var p2 := p1.(counts := map[u := 2], current := 3 + n);
    parties := parties[x := Socket(c')];
    z := NewId(parties);
    RunAndTrack(a, p2, u, parties, z);
    box' := k + 1;
    s' := Higher(s, u, n, box, x, Socket(c'), y, z);
    assert Increment(p2.counts, u) == map[u := 3];
    StillPiled(s, max, u, n, x, box, Socket(c'), y, z);
  }

  /** State `s` after connection `y` has replaced the tracked run, `x` has become `gone`, and `z` has a
      tracked run. */
  function Higher(s: System, u: User, n: nat, box: ContainerId, x: nat, gone: Party, y: nat, z: nat): System {
    var k := s.pool.next;
    System(Crowd(s.pool, u, 4 + n, s.pool.live - {box} + {k} + {k + 1}, k + 2, 3, map[u := map[k + 1 := 0]])
           .(evictions := s.pool.evictions[u := n + 1]),
           s.parties[y := Single(u, k)][x := gone][z := Unreturned(u, k + 1)])
  }

  lemma StillPiled(s: System, max: int, u: User, n: nat, x: nat, box: ContainerId, gone: Party, y: nat, z: nat)
    requires Piled(s, max, u, n, x, box) && y !in s.parties && z !in s.parties && y != z
    ensures Piled(Higher(s, u, n, box, x, gone, y, z), max, u, n + 1, z, s.pool.next + 1)
  {
    hide Unreturned, Single;
    var s', k := Higher(s, u, n, box, x, gone, y, z), s.pool.next;
    assert |s'.pool.live| == 4 + n;
    forall id | id in s'.pool.live && id != k + 1
      ensures IsSingle(s', u, z, id)
    {
      SinglesStay(s, max, u, n, x, box, gone, y, z, id);
    }
  }

  lemma SinglesStay(s: System, max: int, u: User, n: nat, x: nat, box: ContainerId, gone: Party, y: nat, z: nat,
                    id: ContainerId)
    requires Piled(s, max, u, n, x, box) && y !in s.parties && z !in s.parties && y != z
    requires id == s.pool.next || (id in s.pool.live && id != box)
    ensures IsSingle(Higher(s, u, n, box, x, gone, y, z), u, z, id)
  {
    hide Unreturned, Single;
    var s', k := Higher(s, u, n, box, x, gone, y, z), s.pool.next;
    if id == k {
      assert y in s'.parties && s'.parties[y] == Single(u, k);
    } else {
      assert IsSingle(s, u, x, id);
      var p :| p in s.parties && p != x && s.parties[p] == Single(u, id);
      assert p in s'.parties && s'.parties[p] == Single(u, id);
    }
  }

  lemma {:induction false} PileUp(max: int, u: User, n: nat) returns (s: System, x: nat, box: ContainerId)
    requires max >= 3 + n
    ensures Reaches(Start(max), s) && Piled(s, max, u, n, x, box)
  {
    hide Reaches, Piled;
    if n == 0 {
      s, x, box := PileThree(max, u);
    } else {
      s, x, box := PileUp(max, u, n - 1);
      s, x, box := PileHigher(Start(max), s, max, u, n - 1, x, box);
    }
  }

  /** "The maximum concurrent containers a single user can have" (handler/websocket.go:98-99) is not three:
      an eviction decrements the count (line 176) and so does the evicted run's waiter (line 636), which
      lets in one more run.  The bound of `UserRunsBounded` is reached for every number of evictions, up
      to the capacity of the process. */
  lemma RunsPileUp(max: int, u: User, n: nat) returns (ss: seq<System>, es: seq<Event>)
    requires max >= MAX_CONTAINERS_PER_USER + n
    ensures Behaviour(max, ss, es) && Evictions(ss[|es|].pool, u) == n
    ensures |LiveRuns(ss[|es|], u)| == MAX_CONTAINERS_PER_USER + n
  {
    hide Reaches, Behaviour;
    var s, x, box := PileUp(max, u, n);
    PiledRuns(s, max, u, n, x, box);
    Stay(s);
    var i;
    ss, es, i := ReachedInOrder(max, s, s);
  }

  /** The condition of `AdmittedExactly` cannot be dropped: a run message finds its user at the cap with a
      run to evict, evicts it, and is refused nevertheless, because another connection of the user has
      charged the place in between. */
  lemma EvictorCanLose(u: User) returns (ss: seq<System>, es: seq<Event>, i: nat, y: nat)
    ensures Behaviour(3, ss, es) && i < |ss|
    ensures HasConn(ss[i], y) && UserOf(ss[i].parties[y]) == u && PcOf(ss[i], y).Charging? && Admissible(ss[i].pool, u)
    ensures HasConn(ss[|es|], y) && PcOf(ss[|es|], y).Recharging? && PoolNext(ss[|es|].pool, u, Charge(true)).None?
  {
    hide Reaches, Behaviour;
    var a, c := Start(3), NewConn(u);
    var s, x, box := PileThree(3, u);
    y := NewId(s.parties);
    Join(a, s.pool, s.parties, y, u);
    var z := NewId(s.parties[y := Socket(c)]);
    Join(a, s.pool, s.parties[y := Socket(c)], z, u);
    var others, pool := s.parties[z := Socket(c)], s.pool;
    assert s.parties[y := Socket(c)][z := Socket(c)] == others[y := Socket(c)];
    Drive(a, pool, others, y, c, Handler, Receive(RunJob), pool, c.(pc := Charging));
    var s1 := At(pool, others, y, c.(pc := Charging));
    assert box in RunsOf(pool.runs, u) && RunsOf(pool.runs, u)[box] == 0;
    Stay(s1);
    Evict(s1, pool, others, y, c, box);
    var s2 := Overtake(s1, Evicted(pool, u, box), others, y, z, u);
    ss, es, i := ReachedInOrder(3, s1, s2);
  }

  /** Connection `z` charges the place that connection `y` has made. */
  lemma Overtake(a: System, pool: Pool, others: map<nat, Party>, y: nat, z: nat, u: User) returns (s: System)
    requires Reaches(a, At(pool, others, y, NewConn(u).(pc := Recharging)))
    requires y != z && z in others && others[z] == Socket(NewConn(u)) && Count(pool.counts, u) == 2
    ensures Reaches(a, s) && HasConn(s, y) && PcOf(s, y).Recharging? && PoolNext(s.pool, u, Charge(true)).None?
  {
    hide Reaches;
    var c, parties := NewConn(u), others[y := Socket(NewConn(u).(pc := Recharging))];
    assert parties[z := Socket(c)] == parties;
    Drive(a, pool, parties, z, c, Handler, Receive(RunJob), pool, c.(pc := Charging));
    var full := pool.(counts := Increment(pool.counts, u));
    Drive(a, pool, parties, z, c.(pc := Charging), Handler, Charge(true), full, c.(pc := Replacing(RunJob)));
    s := At(full, parties, z, c.(pc := Replacing(RunJob)));
  }

  // ----- shells

  /** Connection of user `u` whose shell's container is its session. */
  function Shelled(u: User, box: ContainerId): Conn {
    var c := NewConn(u);
    c.(st := Shared(Some(box), 1, false), pc := Launching(1, ShellJob, ArmingTimer(box)),
       jobs := map[1 := NewJob(ShellJob).(container := Some(box))])
  }

  /** Connection of user `u` while it launches its first shell. */
  function Shelling(u: User, stage: Stage, box: Option<ContainerId>): Conn {
    NewConn(u).(st := Shared(None, 1, false), pc := Launching(1, ShellJob, stage),
                jobs := map[1 := NewJob(ShellJob).(container := box)])
  }

  lemma BeginShell(a: System, pool: Pool, others: map<nat, Party>, id: nat, u: User)
    requires Reaches(a, System(pool, others)) && id !in others
    ensures Reaches(a, At(pool, others, id, Shelling(u, Acquiring, None)))
  {
    hide At, Reaches;
    var c := NewConn(u).(pc := Replacing(ShellJob));
    Join(a, pool, others, id, u);
    Drive(a, pool, others, id, NewConn(u), Handler, Receive(ShellJob), pool, c);
    assert Replaced(c, ShellJob) == Shelling(u, Acquiring, None);
    assert pool.(live := pool.live - {}) == pool;
    Drive(a, pool, others, id, c, Handler, Clear({}), pool, Shelling(u, Acquiring, None));
  }

  lemma OpenShell(a: System, pool: Pool, others: map<nat, Party>, id: nat, u: User)
    requires Reaches(a, System(pool, others)) && id !in others && pool.current < pool.max
    ensures Reaches(a, System(pool.(current := pool.current + 1, live := pool.live + {pool.next},
                                    next := pool.next + 1),
                              others[id := Socket(Shelled(u, pool.next))]))
  {
    hide Reaches;
    var box := pool.next;
    BeginShell(a, pool, others, id, u);
    var taken := pool.(current := pool.current + 1);
    LaunchShell(a, pool, others, id, u, Acquiring, None, AcquireOk, taken, Creating, None);
    var created := taken.(live := pool.live + {box}, next := box + 1);
    LaunchShell(a, taken, others, id, u, Creating, None, Create(box), created, SettingUp(box), Some(box));
    LaunchShell(a, created, others, id, u, SettingUp(box), Some(box), Tick, created, Storing(box), Some(box));
    var j := NewJob(ShellJob).(container := Some(box));
    assert Shelling(u, Storing(box), Some(box)).jobs[1 := j] == Shelled(u, box).jobs;
    Drive(a, created, others, id, Shelling(u, Storing(box), Some(box)), Handler, Tick, created, Shelled(u, box));
  }

  lemma LaunchShell(a: System, pool: Pool, others: map<nat, Party>, id: nat, u: User,
                    stage: Stage, box: Option<ContainerId>, l: Label,
                    pool': Pool, stage': Stage, box': Option<ContainerId>)
    requires Reaches(a, At(pool, others, id, Shelling(u, stage, box))) && PoolNext(pool, u, l) == Some(pool')
    requires var j := NewJob(ShellJob); var st := Shared(None, 1, false);
             LaunchNext(st, 1, j.(container := box), ShellJob, stage, l)
             == Some(Move(st, j.(container := box'), Launching(1, ShellJob, stage')))
    ensures Reaches(a, At(pool', others, id, Shelling(u, stage', box')))
  {
    hide At, Reaches, LaunchNext, PoolNext;
    assert Shelling(u, stage, box).jobs[1 := NewJob(ShellJob).(container := box')] == Shelling(u, stage', box').jobs;
    Drive(a, pool, others, id, Shelling(u, stage, box), Handler, l, pool', Shelling(u, stage', box'));
  }

  /** A shell can be told that it was idle. */
  lemma IdleNoticeIsPossible(u: User) returns (ss: seq<System>, es: seq<Event>)
    ensures Behaviour(1, ss, es) && HasJob(ss[|es|], 0, 1) && IdleNotice in JobAt(ss[|es|], 0, 1).sent
  {
    hide Reaches, At, SystemNext;
    var a, c := Start(1), Shelled(u, 0);
    Stay(a);
    OpenShell(a, a.pool, map[], 0, u);
    var pool := a.pool.(current := 1, live := {} + {0}, next := 1);
    assert System(pool, map[][0 := Socket(c)]) == At(pool, map[], 0, c) by { AtIs(pool, map[], 0, c); }
    var j1 := c.jobs[1].(timer := Armed);
    var armed := c.(pc := Launching(1, ShellJob, Announcing(0)));
    assert c.jobs[1 := j1] == WithJob(armed, 1, j1).jobs;
    Drive(a, pool, map[], 0, c, Handler, Tick, pool, WithJob(armed, 1, j1));
    Toil(a, pool, map[], 0, armed, j1, TimerOf(1), Tick, pool, j1.(timer := Fired));
    Toil(a, pool, map[], 0, armed, j1.(timer := Fired), TimerOf(1), IdleVerdict(true), pool, j1.(timer := Noticing(0)));
    var j2 := Say(j1, IdleNotice).(timer := Cancelling(0));
    Toil(a, pool, map[], 0, armed, j1.(timer := Noticing(0)), TimerOf(1), Tick, pool, j2);
    var s := At(pool, map[], 0, WithJob(armed, 1, j2));
    Stay(s);
    var i;
    ss, es, i := ReachedInOrder(1, s, s);
    AtIs(pool, map[], 0, WithJob(armed, 1, j2));
  }

  lemma AtIs(pool: Pool, others: map<nat, Party>, id: nat, c: Conn)
    ensures At(pool, others, id, c) == System(pool, others[id := Socket(c)])
  {
  }

  /** `n` connections of user `u`, each with a live shell, and nobody charged. */
  ghost predicate Shells(s: System, max: int, u: User, n: nat) {
    && s.pool == Pool(max, n, s.pool.live, n, map[], map[], map[])
    && |s.pool.live| == n && (forall id | id in s.pool.live :: id < n)
    && (forall p | p in s.parties :: p < n && s.parties[p].Socket? && s.parties[p].conn.user == u)
  }

  lemma {:induction false} OpenShells(max: int, u: User, n: nat) returns (s: System)
    requires max >= n
    ensures Reaches(Start(max), s) && Shells(s, max, u, n)
  {
    hide Reaches;
    if n == 0 {
      s := Start(max);
      Stay(s);
    } else {
      var before := OpenShells(max, u, n - 1);
      OpenShell(Start(max), before.pool, before.parties, n - 1, u);
      s := System(Pool(max, n, before.pool.live + {n - 1}, n, map[], map[], map[]),
                  before.parties[n - 1 := Socket(Shelled(u, n - 1))]);
    }
  }

  /** Shells are not charged at all: up to the capacity of the process, one user can have any number of
      live containers without an eviction and with the count at zero. */
  lemma ShellsAreNotCharged(max: int, u: User, n: nat) returns (ss: seq<System>, es: seq<Event>)
    requires max >= n
    ensures Behaviour(max, ss, es)
    ensures var s := ss[|es|];
            && |s.pool.live| == n && s.pool.counts == map[] && s.pool.evictions == map[]
            && forall p | p in s.parties :: s.parties[p].Socket? && s.parties[p].conn.user == u
  {
    hide Reaches, Behaviour;
    var s := OpenShells(max, u, n);
    Stay(s);
    var i;
    ss, es, i := ReachedInOrder(max, s, s);
  }
}
