/** The kill timer of a run and the idle timer of a shell: when they are pending, and what firing does. */
module Timers {
  import opened Options
  import opened DockerClient
  import opened Session
  import opened Connection
  import opened ConnectionInv
  import opened Accounts
  import opened Runner
  import opened Guarantees
  import opened Reachability
  import opened Tails

  /** The waiter has not come to stopping the timer. */
  predicate Waits(w: Waiter) {
    w.WaiterUnborn? || w.Blocked? || w.StoppingTimer?
  }

  /** A run that is current and has not ended has a kill timer pending, or has been hit by it; and no timer
      is pending for a run or shell whose end has been seen. */
  predicate Timed(st: Shared, g: nat, j: Job) {
    && (j.kind.RunJob? && IsCurrent(st, g) && Waits(j.waiter) && !j.timer.TimerUnborn? ==>
          j.timer.Armed? || j.timer.Fired? || j.marks.WasHit())
    && (j.kind.RunJob? && !Waits(j.waiter) ==> !j.timer.Armed?)
    && (j.kind.ShellJob? && j.bridge.BridgeClosed? ==> !j.timer.Armed?)
  }

  lemma WorkerTimed(st: Shared, g: nat, j: Job, actor: Actor, l: Label)
    requires !actor.Handler? && actor.gen == g && JobOk(j) && Timed(st, g, j) && WorkerNext(st, j, actor, l).Some?
    ensures var ch := WorkerNext(st, j, actor, l).value; Timed(ch.st, g, ch.job)
  {
    hide PhaseOf, VerdictOk, PhaseOk, TargetsOk;
  }

  lemma LaunchTimed(st: Shared, g: nat, j: Job, kind: Kind, stage: Stage, l: Label)
    requires JobOk(j) && LaunchOk(st, kind, stage, j) && Timed(st, g, j) && LaunchNext(st, g, j, kind, stage, l).Some?
    ensures var m := LaunchNext(st, g, j, kind, stage, l).value; Timed(m.st, g, m.job)
  {
    hide PhaseOf, VerdictOk, PhaseOk, TargetsOk;
  }

  /** A job's timers depend on the rest of the connection only through its being current. */
  lemma TimedElsewhere(st: Shared, st': Shared, g: nat, j: Job)
    requires Timed(st, g, j) && (IsCurrent(st', g) ==> IsCurrent(st, g))
    ensures Timed(st', g, j)
  {
  }

  predicate AllTimed(c: Conn) {
    forall g | g in c.jobs :: Timed(c.st, g, c.jobs[g])
  }

  lemma TimedStep(c: Conn, actor: Actor, l: Label)
    requires Inv(c) && AllTimed(c) && Next(c, actor, l).Some?
    ensures AllTimed(Next(c, actor, l).value)
  {
    hide WorkerNext, LaunchNext, LaunchOk, JobOk, Timed;
    var c' := Next(c, actor, l).value;
    if !actor.Handler? {
      WorkerKeepsInv(c, actor, l);
      WorkerTimed(c.st, actor.gen, c.jobs[actor.gen], actor, l);
    } else if c.pc.Launching? {
      LaunchTimed(c.st, c.pc.gen, c.jobs[c.pc.gen], c.pc.kind, c.pc.stage, l);
      LaunchKeepsGeneration(c.st, c.pc.gen, c.jobs[c.pc.gen], c.pc.kind, c.pc.stage, l);
    } else if c.pc.Replacing? {
      NewTimed(c'.st, c.pc.kind);
    }
    forall g | g in c.jobs && g in c'.jobs && c'.jobs[g] == c.jobs[g] && (IsCurrent(c'.st, g) ==> IsCurrent(c.st, g))
      ensures Timed(c'.st, g, c'.jobs[g])
    {
      TimedElsewhere(c.st, c'.st, g, c.jobs[g]);
    }
  }

  lemma LaunchKeepsGeneration(st: Shared, g: nat, j: Job, kind: Kind, stage: Stage, l: Label)
    requires LaunchNext(st, g, j, kind, stage, l).Some?
    ensures LaunchNext(st, g, j, kind, stage, l).value.st.generation == st.generation
  {
  }

  lemma NewTimed(st: Shared, kind: Kind)
    ensures Timed(st, st.generation, NewJob(kind))
  {
  }

  ghost predicate SystemTimed(s: System) {
    forall p | p in s.parties && s.parties[p].Socket? :: AllTimed(s.parties[p].conn)
  }

  lemma TimedSystemStep(s: System, e: Event, s': System)
    requires PartiesOk(s) && SystemTimed(s) && SystemNext(s, e) == Some(s')
    ensures SystemTimed(s')
  {
    hide Next, PoolNext, Inv, RestNext, AllTimed;
    if e.Step? && s.parties[e.id].Socket? {
      TimedStep(s.parties[e.id].conn, e.actor, e.l);
    } else if e.Open? {
      NewConnTimed(UserOf(e.party));
    }
  }

  lemma NewConnTimed(u: UserQuota.User)
    ensures AllTimed(NewConn(u))
  {
  }

  lemma {:induction false} TimedAlways(max: int, ss: seq<System>, es: seq<Event>, i: nat)
    requires Behaviour(max, ss, es) && i < |ss|
    ensures SystemTimed(ss[i])
    decreases i
  {
    hide SystemNext, PartyInv, AllTimed;
    if i > 0 {
      TimedAlways(max, ss, es, i - 1);
      Always(max, ss, es, i - 1);
      assert SystemNext(ss[i - 1], es[i - 1]) == Some(ss[i - 1 + 1]);
      TimedSystemStep(ss[i - 1], es[i - 1], ss[i]);
    } else {
      assert ss[0].parties == map[];
    }
  }

  /** No run escapes its kill timer: while a run is current, from the arming of its timer until its end has
      been seen, the timer is pending or has already hit it.  And no timer outlives what it watches. */
  lemma NoRunEscapesItsTimer(max: int, ss: seq<System>, es: seq<Event>, i: nat, p: nat, g: nat)
    requires Behaviour(max, ss, es) && i < |ss| && HasJob(ss[i], p, g)
    ensures var j, st := JobAt(ss[i], p, g), ss[i].parties[p].conn.st;
            && (j.kind.RunJob? && IsCurrent(st, g) && !j.timer.TimerUnborn?
                && (j.waiter.WaiterUnborn? || j.waiter.Blocked? || j.waiter.StoppingTimer?) ==>
                  j.timer.Armed? || j.timer.Fired? || HitBefore(ss, es, i, p, g))
            && (j.kind.RunJob? && !j.waiter.WaiterUnborn? && !j.waiter.Blocked? && !j.waiter.StoppingTimer? ==>
                  !j.timer.Armed?)
            && (j.kind.ShellJob? && j.bridge.BridgeClosed? ==> !j.timer.Armed?)
  {
    hide SystemNext, HitBefore;
    TimedAlways(max, ss, es, i);
    assert AllTimed(ss[i].parties[p].conn);
    assert Timed(ss[i].parties[p].conn.st, g, JobAt(ss[i], p, g));
    MarksTellHistory(max, ss, es, i, p, g);
  }

  // ----- what firing does

  /** The kill timer's section raises the flag and cancels the session, if the run is current, and does
      nothing otherwise. */
  lemma KillTimerActs(s: System, s': System, p: nat, g: nat, l: Label)
    requires HasJob(s, p, g) && JobAt(s, p, g).kind.RunJob? && JobAt(s, p, g).timer.Fired?
    requires SystemNext(s, Step(p, TimerOf(g), l)) == Some(s')
    ensures HasJob(s', p, g) && !JobAt(s', p, g).timer.Fired? && !JobAt(s', p, g).timer.Armed?
    ensures var st, st' := s.parties[p].conn.st, s'.parties[p].conn.st;
            if st.session.Some? && st.generation == g then
              && st' == st.(timedOut := true)
              && JobAt(s', p, g).touched == JobAt(s, p, g).touched + {st.session.value}
            else st' == st && JobAt(s', p, g).touched == JobAt(s, p, g).touched
  {
  }

  /** The idle timer: a shell found current and idle gets its notice, then is cancelled. */
  lemma IdleTimerActs(s: System, s': System, p: nat, g: nat, l: Label)
    requires HasJob(s, p, g) && JobAt(s, p, g).kind.ShellJob? && SystemNext(s, Step(p, TimerOf(g), l)) == Some(s')
    ensures HasJob(s', p, g) && s'.parties[p].conn.st == s.parties[p].conn.st
    ensures var j, j', st := JobAt(s, p, g), JobAt(s', p, g), s.parties[p].conn.st;
            match j.timer
            case Fired =>
              j'.sent == j.sent && j'.touched == j.touched
              && j'.timer == if l == IdleVerdict(true) && st.session.Some? && st.generation == g
                             then Noticing(st.session.value) else TimerDone
            case Noticing(victim) =>
              j'.sent == j.sent + [IdleNotice] && j'.touched == j.touched && j'.timer == Cancelling(victim)
            case Cancelling(victim) => j'.sent == j.sent && j'.touched == j.touched + {victim} && j'.timer == TimerDone
            case _ => j'.sent == j.sent && j'.touched == j.touched
  {
  }

  // ----- a run can always be timed out

  /** The kill timer of the current run fires. */
  lemma Fires(s: System, p: nat, g: nat) returns (s': System)
    requires HasJob(s, p, g) && JobAt(s, p, g).kind.RunJob? && IsCurrent(s.parties[p].conn.st, g)
    requires JobAt(s, p, g).timer.Armed? || JobAt(s, p, g).timer.Fired?
    ensures Reaches(s, s') && HasJob(s', p, g) && s'.parties[p].conn.st == s.parties[p].conn.st.(timedOut := true)
    ensures var j, j' := JobAt(s, p, g), JobAt(s', p, g);
            && j' == j.(timer := TimerDone, marks := j.marks.AfterHit(), touched := j'.touched)
            && s.parties[p].conn.st.session.value in j'.touched
  {
    hide Reaches;
    var c, j := s.parties[p].conn, JobAt(s, p, g);
    Stay(s);
    NoChange(s, p, g);
    if j.timer.Armed? {
      Works(s, s, p, g, j, TimerOf(g), Tick, j.(timer := Fired));
    }
    var fired := WithJobAt(s, p, g, j.(timer := Fired));
    assert fired == s || j.timer.Armed?;
    var j' := j.(timer := TimerDone, marks := j.marks.AfterHit(), touched := j.touched + {c.st.session.value});
    s' := s.(parties := s.parties[p := Socket(c.(st := c.st.(timedOut := true), jobs := c.jobs[g := j']))]);
    assert c.jobs[g := j.(timer := Fired)][g := j'] == c.jobs[g := j'];
    assert fired.parties[p := s'.parties[p]] == s'.parties;
    Go(s, fired, Step(p, TimerOf(g), Tick), s');
  }

  /** The container's output ends. */
  lemma OutputEnds(s: System, p: nat, g: nat) returns (j': Job)
    requires HasJob(s, p, g) && IsCurrent(s.parties[p].conn.st, g) && !JobAt(s, p, g).bridge.BridgeUnborn?
    requires JobAt(s, p, g).kind.RunJob?
    ensures Reaches(s, WithJobAt(s, p, g, j')) && JobAt(s, p, g).sent <= j'.sent
    ensures j' == JobAt(s, p, g).(bridge := BridgeClosed, sent := j'.sent)
  {
    hide Reaches;
    j' := JobAt(s, p, g);
    Stay(s);
    NoChange(s, p, g);
    if j'.bridge.Checking? {
      Works(s, s, p, g, j', BridgeOf(g), Tick, j'.(bridge := Sending(j'.bridge.last)));
      j' := j'.(bridge := Sending(j'.bridge.last));
    }
    if j'.bridge.Sending? {
      var next := Say(j', Output).(bridge := if j'.bridge.last then Closing else Reading);
      Works(s, s, p, g, j', BridgeOf(g), Tick, next);
      j' := next;
    }
    if j'.bridge.Reading? {
      Works(s, s, p, g, j', BridgeOf(g), Read(false, true), j'.(bridge := Closing));
      j' := j'.(bridge := Closing);
    }
    if j'.bridge.Closing? {
      Works(s, s, p, g, j', BridgeOf(g), Tick, j'.(bridge := BridgeClosed));
      j' := j'.(bridge := BridgeClosed);
    }
  }

  /** The waiter of a run whose flag is up and whose output has ended sends "timeout". */
  lemma SaysTimeout(s: System, p: nat, g: nat) returns (j': Job)
    requires HasJob(s, p, g) && IsCurrent(s.parties[p].conn.st, g) && s.parties[p].conn.st.timedOut
    requires var j := JobAt(s, p, g);
             j.kind.RunJob? && j.waiter.Blocked? && j.bridge.BridgeClosed? && j.timer.TimerDone?
    ensures Reaches(s, WithJobAt(s, p, g, j')) && j'.sent == JobAt(s, p, g).sent + [Exit(Timeout)]
    ensures j'.touched == JobAt(s, p, g).touched
  {
    hide Reaches;
    var j, id := JobAt(s, p, g), s.parties[p].conn.st.session.value;
    Stay(s);
    NoChange(s, p, g);
    Works(s, s, p, g, j, WaiterOf(g), Tick, j.(waiter := StoppingTimer));
    Works(s, s, p, g, j.(waiter := StoppingTimer), WaiterOf(g), Tick, j.(waiter := Sampling));
    var j1 := j.(marks := j.marks.AfterSample());
    Works(s, s, p, g, j.(waiter := Sampling), WaiterOf(g), Tick, j1.(waiter := Inspecting(id, true)));
    Works(s, s, p, g, j1.(waiter := Inspecting(id, true)), WaiterOf(g), Report(id, Unavailable, 0),
          j1.(waiter := Rechecking(id, Timeout)));
    var reading := j1.(waiter := ReadingFiles(id, Timeout));
    Works(s, s, p, g, j1.(waiter := Rechecking(id, Timeout)), WaiterOf(g), Tick, reading);
    Works(s, s, p, g, reading, WaiterOf(g), ReadFiles(id, false), j1.(waiter := Exiting(Timeout)));
    j' := Say(j1, Exit(Timeout)).(waiter := Finishing);
    Works(s, s, p, g, j1.(waiter := Exiting(Timeout)), WaiterOf(g), Tick, j');
  }

  /** Every run can be timed out: from every state of every behaviour in which a run is current, launched and
      not ended, the process can go on so that the run's container is cancelled and its exit says "timeout". */
  lemma EveryRunCanTimeOut(max: int, ss: seq<System>, es: seq<Event>, i: nat, p: nat, g: nat) returns (s': System)
    requires Behaviour(max, ss, es) && i < |ss| && HasJob(ss[i], p, g)
    requires var j := JobAt(ss[i], p, g); j.kind.RunJob? && j.waiter.Blocked? && IsCurrent(ss[i].parties[p].conn.st, g)
    ensures Reaches(ss[i], s') && HasJob(s', p, g)
    ensures ss[i].parties[p].conn.st.session.value in JobAt(s', p, g).touched || HitBefore(ss, es, i, p, g)
    ensures Exit(Timeout) in JobAt(s', p, g).sent
  {
    hide SystemNext, Reaches, HitBefore;
    var s, j := ss[i], JobAt(ss[i], p, g);
    NoRunEscapesItsTimer(max, ss, es, i, p, g);
    LaunchedJob(max, ss, es, i, p, g);
    var s1 := s;
    if j.timer.TimerDone? {
      Stay(s);
      FlagIsUp(max, ss, es, i, p, g);
    } else {
      s1 := Fires(s, p, g);
    }
    var j1 := OutputEnds(s1, p, g);
    var s2 := WithJobAt(s1, p, g, j1);
    Joins(s, s1, s2);
    var j2 := SaysTimeout(s2, p, g);
    s' := WithJobAt(s2, p, g, j2);
    Joins(s, s2, s');
  }

  lemma LaunchedJob(max: int, ss: seq<System>, es: seq<Event>, i: nat, p: nat, g: nat)
    requires Behaviour(max, ss, es) && i < |ss| && HasJob(ss[i], p, g)
    requires var j := JobAt(ss[i], p, g); j.kind.RunJob? && j.waiter.Blocked?
    ensures var j := JobAt(ss[i], p, g);
            !j.bridge.BridgeUnborn? && (j.timer.Armed? || j.timer.Fired? || j.timer.TimerDone?)
  {
    hide SystemNext, JobOk;
    Always(max, ss, es, i);
    var c := ss[i].parties[p].conn;
    assert Inv(c);
    JobFacts(c, g);
    WaitingJobShape(c, g);
  }

  lemma WaitingJobShape(c: Conn, g: nat)
    requires Inv(c) && g in c.jobs && c.jobs[g].kind.RunJob? && c.jobs[g].waiter.Blocked?
    ensures var j := c.jobs[g]; !j.bridge.BridgeUnborn? && (j.timer.Armed? || j.timer.Fired? || j.timer.TimerDone?)
  {
    hide PhaseOf, MarksOk, VerdictOk, PhaseOk;
  }

  /** A run that has been hit finds the flag up as long as it is current. */
  lemma FlagIsUp(max: int, ss: seq<System>, es: seq<Event>, i: nat, p: nat, g: nat)
    requires Behaviour(max, ss, es) && i < |ss| && HasJob(ss[i], p, g)
    requires JobAt(ss[i], p, g).kind.RunJob? && IsCurrent(ss[i].parties[p].conn.st, g) && HitBefore(ss, es, i, p, g)
    ensures ss[i].parties[p].conn.st.timedOut
  {
    hide SystemNext, HitBefore, JobsOk, PcOk;
    Always(max, ss, es, i);
    MarksTellHistory(max, ss, es, i, p, g);
    assert Inv(ss[i].parties[p].conn);
  }
}
