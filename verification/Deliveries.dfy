/** What becomes of the output a job's bridge has read, and of the verdicts of a shell's idle timer. */
module Deliveries {
  import opened Options
  import opened Session
  import opened Connection
  import opened ConnectionInv
  import opened Histories
  import opened Runner
  import opened Guarantees

  // ----- output

  function Outputs(sent: seq<Message>): nat {
    if sent == [] then 0
    else Outputs(sent[..|sent| - 1]) + if sent[|sent| - 1].Output? then 1 else 0
  }

  lemma OutputsAfter(j: Job, m: Message)
    ensures Outputs(Say(j, m).sent) == Outputs(j.sent) + if m.Output? then 1 else 0
  {
    assert (j.sent + [m])[..|j.sent|] == j.sent;
  }

  predicate ReadsChunk(actor: Actor, l: Label, g: nat) {
    actor == BridgeOf(g) && l.Read? && l.some
  }

  /** The chunks that the bridge of job `g` of connection `p` has read. */
  function Chunks(es: seq<Event>, p: nat, g: nat): nat {
    if es == [] then 0
    else
      var e := es[|es| - 1];
      Chunks(es[..|es| - 1], p, g) + if e.Step? && e.id == p && ReadsChunk(e.actor, e.l, g) then 1 else 0
  }

  /** The chunks sent, and the one in hand. */
  function Ledger(j: Job): nat {
    Outputs(j.sent) + if j.bridge.Checking? || j.bridge.Sending? then 1 else 0
  }

  predicate Ended(j: Job) {
    j.bridge.Closing? || j.bridge.BridgeClosed?
  }

  /** Of `chunks` read, all are on the ledger, but for one that a bridge drops when it finds its job no
      longer current, and then stops. */
  predicate Delivered(c: Conn, g: nat, chunks: nat)
    requires g in c.jobs
  {
    chunks == Ledger(c.jobs[g]) || (chunks == Ledger(c.jobs[g]) + 1 && Ended(c.jobs[g]) && Stale(c, g))
  }

  lemma WorkerDelivers(st: Shared, g: nat, j: Job, actor: Actor, l: Label)
    requires !actor.Handler? && actor.gen == g && WorkerNext(st, j, actor, l).Some?
    ensures var j' := WorkerNext(st, j, actor, l).value.job;
            var gain := if ReadsChunk(actor, l, g) then 1 else 0;
            && (Ended(j) ==> Ended(j') && gain == 0 && Ledger(j') == Ledger(j))
            && (Ledger(j') == Ledger(j) + gain
                || (Ledger(j') + 1 == Ledger(j) && gain == 0 && Ended(j') && j.bridge.Checking? && !IsCurrent(st, g)))
  {
    hide Outputs;
    OutputsAfter(j, Output);
    OutputsAfter(j, IdleNotice);
    OutputsAfter(j, Files);
    if j.waiter.Exiting? {
      OutputsAfter(j, Exit(j.waiter.reason));
    }
  }

  lemma LaunchDelivers(st: Shared, g: nat, j: Job, kind: Kind, stage: Stage, l: Label)
    requires LaunchOk(st, kind, stage, j) && LaunchNext(st, g, j, kind, stage, l).Some?
    ensures Ledger(LaunchNext(st, g, j, kind, stage, l).value.job) == Ledger(j)
  {
    hide Outputs, PhaseOf;
    OutputsAfter(j, Started);
  }

  /** A job whose bridge holds a chunk and which is not current has been launched and superseded. */
  lemma HeldBackIsStale(c: Conn, g: nat)
    requires Inv(c) && g in c.jobs && c.jobs[g].bridge.Checking? && !IsCurrent(c.st, g)
    ensures Stale(c, g)
  {
  }

  lemma StaysStaleToo(c: Conn, actor: Actor, l: Label, g: nat)
    requires Inv(c) && Stale(c, g) && Next(c, actor, l).Some?
    ensures Stale(Next(c, actor, l).value, g)
  {
    hide HandlerNext, WorkerNext, JobOk, LaunchOk, Consumes, FutureOf;
    if actor.Handler? {
      StaleHandler(c, l, g);
    } else {
      WorkerKeepsInv(c, actor, l);
    }
  }

  lemma DeliveryStep(c: Conn, actor: Actor, l: Label, g: nat, chunks: nat)
    requires Inv(c) && Next(c, actor, l).Some? && g in c.jobs && Delivered(c, g, chunks)
    ensures var c' := Next(c, actor, l).value;
            g in c'.jobs && Delivered(c', g, chunks + if ReadsChunk(actor, l, g) then 1 else 0)
  {
    hide WorkerNext, LaunchNext, LaunchOk, JobOk, Ledger, Ended, Stale;
    var c' := Next(c, actor, l).value;
    if Stale(c, g) {
      StaysStaleToo(c, actor, l, g);
    }
    if !actor.Handler? {
      if actor.gen == g {
        WorkerDelivers(c.st, g, c.jobs[g], actor, l);
        if c.jobs[g].bridge.Checking? && !IsCurrent(c.st, g) {
          HeldBackIsStale(c, g);
          StaysStaleToo(c, actor, l, g);
        }
      }
    } else if c.pc.Launching? && c.pc.gen == g {
      LaunchDelivers(c.st, g, c.jobs[g], c.pc.kind, c.pc.stage, l);
      if Stale(c, g) {
        LateLaunch(c, l, g);
      }
    }
  }

  lemma LateLaunch(c: Conn, l: Label, g: nat)
    requires Inv(c) && Stale(c, g) && c.pc.Launching? && c.pc.gen == g && HandlerNext(c, l).Some?
    ensures HandlerNext(c, l).value.jobs[g] == c.jobs[g]
  {
    hide JobsOk, PhaseOf;
  }

  predicate DeliveredAt(s: System, p: nat, g: nat, chunks: nat) {
    if HasJob(s, p, g) then Delivered(s.parties[p].conn, g, chunks) else chunks == 0
  }

  lemma NewJobHasNoLedger(kind: Kind)
    ensures Ledger(NewJob(kind)) == 0
  {
  }

  lemma NewJobs(c: Conn, actor: Actor, l: Label, g: nat)
    requires Next(c, actor, l).Some? && g !in c.jobs && g in Next(c, actor, l).value.jobs
    ensures Next(c, actor, l).value.jobs[g] == NewJob(RunJob) || Next(c, actor, l).value.jobs[g] == NewJob(ShellJob)
    ensures !ReadsChunk(actor, l, g)
  {
    hide WorkerNext, LaunchNext;
  }

  lemma DeliverySystemStep(s: System, e: Event, s': System, p: nat, g: nat, chunks: nat)
    requires PartiesOk(s) && SystemNext(s, e) == Some(s') && DeliveredAt(s, p, g, chunks)
    ensures DeliveredAt(s', p, g, chunks + if e.Step? && e.id == p && ReadsChunk(e.actor, e.l, g) then 1 else 0)
  {
    hide Next, PoolNext, Inv, Delivered, RestNext;
    if e.Step? && e.id == p && s.parties[p].Socket? {
      var c := s.parties[p].conn;
      if g in c.jobs {
        DeliveryStep(c, e.actor, e.l, g, chunks);
      } else {
        OnlyOwnBridgeReads(c, e.actor, e.l, g);
        if g in s'.parties[p].conn.jobs {
          NewJobs(c, e.actor, e.l, g);
          FreshIsDelivered(s'.parties[p].conn, g);
        }
      }
    } else if e.Step? && e.id == p {
      assert e.actor.Handler?;
    } else if e.Open? && e.id == p {
      assert s'.parties[p].Socket? ==> s'.parties[p].conn.jobs == map[];
    }
  }

  lemma FreshIsDelivered(c: Conn, g: nat)
    requires g in c.jobs && (c.jobs[g] == NewJob(RunJob) || c.jobs[g] == NewJob(ShellJob))
    ensures Delivered(c, g, 0)
  {
  }

  lemma OnlyOwnBridgeReads(c: Conn, actor: Actor, l: Label, g: nat)
    requires Next(c, actor, l).Some? && g !in c.jobs
    ensures !ReadsChunk(actor, l, g)
  {
    hide WorkerNext, LaunchNext;
  }

  lemma {:induction false} DeliveryAlways(max: int, ss: seq<System>, es: seq<Event>, i: nat, p: nat, g: nat)
    requires Behaviour(max, ss, es) && i < |ss|
    ensures DeliveredAt(ss[i], p, g, Chunks(es[..i], p, g))
    decreases i
  {
    hide SystemNext, PartyInv, Delivered;
    if i == 0 {
      assert ss[0].parties == map[];
    } else {
      DeliveryAlways(max, ss, es, i - 1, p, g);
      Always(max, ss, es, i - 1);
      assert SystemNext(ss[i - 1], es[i - 1]) == Some(ss[i - 1 + 1]);
      assert es[..i][..i - 1] == es[..i - 1];
      DeliverySystemStep(ss[i - 1], es[i - 1], ss[i], p, g, Chunks(es[..i - 1], p, g));
    }
  }

  /** No output is lost and none invented: as long as a job is current, every chunk its bridge has read has
      been sent or is in hand.  A job that is no longer current drops one chunk at most, its last. */
  lemma OutputIsComplete(max: int, ss: seq<System>, es: seq<Event>, i: nat, p: nat, g: nat)
    requires Behaviour(max, ss, es) && i < |ss| && HasJob(ss[i], p, g)
    ensures var j := JobAt(ss[i], p, g);
            var chunks, sent := Chunks(es[..i], p, g), Outputs(j.sent);
            var held := if j.bridge.Checking? || j.bridge.Sending? then 1 else 0;
            && sent + held <= chunks <= sent + held + 1
            && (chunks == sent + held + 1 ==> StaleAt(ss[i], p, g) && (j.bridge.Closing? || j.bridge.BridgeClosed?))
  {
    hide SystemNext, Stale;
    DeliveryAlways(max, ss, es, i, p, g);
  }

  // ----- the end of the output

  /** The bridge has read the end of the output, and at most this one chunk is still to be sent. */
  predicate AtTheEnd(j: Job) {
    match j.bridge
    case Checking(last) => last
    case Sending(last) => last
    case Closing => true
    case BridgeClosed => true
    case _ => false
  }

  predicate AtTheEndIn(c: Conn, g: nat) {
    g in c.jobs && AtTheEnd(c.jobs[g])
  }

  predicate Reads(actor: Actor, l: Label, g: nat) {
    actor == BridgeOf(g) && l.Read?
  }

  lemma WorkerEnds(st: Shared, g: nat, j: Job, actor: Actor, l: Label)
    requires !actor.Handler? && actor.gen == g && WorkerNext(st, j, actor, l).Some?
    ensures AtTheEnd(j) ==> !Reads(actor, l, g) && AtTheEnd(WorkerNext(st, j, actor, l).value.job)
    ensures Reads(actor, l, g) && l.last ==> AtTheEnd(WorkerNext(st, j, actor, l).value.job)
  {
  }

  lemma LaunchEnds(st: Shared, g: nat, j: Job, kind: Kind, stage: Stage, l: Label)
    requires LaunchOk(st, kind, stage, j) && LaunchNext(st, g, j, kind, stage, l).Some?
    ensures AtTheEnd(j) ==> AtTheEnd(LaunchNext(st, g, j, kind, stage, l).value.job)
  {
    hide PhaseOf;
  }

  lemma EndStep(c: Conn, actor: Actor, l: Label, g: nat)
    requires Inv(c) && Next(c, actor, l).Some?
    ensures AtTheEndIn(c, g) ==> !Reads(actor, l, g) && AtTheEndIn(Next(c, actor, l).value, g)
    ensures Reads(actor, l, g) && l.last ==> AtTheEndIn(Next(c, actor, l).value, g)
  {
    hide WorkerNext, LaunchNext, LaunchOk, JobOk, AtTheEnd;
    if !actor.Handler? {
      WorkerEnds(c.st, actor.gen, c.jobs[actor.gen], actor, l);
    } else if c.pc.Launching? {
      LaunchEnds(c.st, c.pc.gen, c.jobs[c.pc.gen], c.pc.kind, c.pc.stage, l);
    }
  }

  predicate EndedAt(s: System, p: nat, g: nat) {
    HasJob(s, p, g) && AtTheEndIn(s.parties[p].conn, g)
  }

  predicate IsRead(e: Event, p: nat, g: nat) {
    e.Step? && e.id == p && Reads(e.actor, e.l, g)
  }

  lemma EndSystemStep(s: System, e: Event, s': System, p: nat, g: nat)
    requires PartiesOk(s) && SystemNext(s, e) == Some(s')
    ensures EndedAt(s, p, g) ==> !IsRead(e, p, g) && EndedAt(s', p, g)
    ensures IsRead(e, p, g) && e.l.last ==> EndedAt(s', p, g)
  {
    hide Next, PoolNext, Inv, RestNext, AtTheEndIn;
    if e.Step? && e.id == p && s.parties[p].Socket? {
      EndStep(s.parties[p].conn, e.actor, e.l, g);
      HasIt(s'.parties[p].conn, g);
    }
  }

  lemma HasIt(c: Conn, g: nat)
    ensures AtTheEndIn(c, g) ==> g in c.jobs
  {
  }

  lemma {:induction false} EndLasts(max: int, ss: seq<System>, es: seq<Event>, i: nat, k: nat, p: nat, g: nat)
    requires Behaviour(max, ss, es) && i <= k < |ss| && EndedAt(ss[i], p, g)
    ensures EndedAt(ss[k], p, g)
    decreases k
  {
    hide SystemNext, PartyInv, EndedAt;
    if i < k {
      EndLasts(max, ss, es, i, k - 1, p, g);
      Always(max, ss, es, k - 1);
      assert SystemNext(ss[k - 1], es[k - 1]) == Some(ss[k - 1 + 1]);
      EndSystemStep(ss[k - 1], es[k - 1], ss[k], p, g);
    }
  }

  /** A bridge that has read the end of the output reads no more. */
  lemma NothingIsReadAfterTheEnd(max: int, ss: seq<System>, es: seq<Event>, i: nat, k: nat, p: nat, g: nat)
    requires Behaviour(max, ss, es) && i < k < |es|
    requires es[i].Step? && es[i].id == p && es[i].actor == BridgeOf(g) && es[i].l.Read? && es[i].l.last
    ensures !(es[k].Step? && es[k].id == p && es[k].actor == BridgeOf(g) && es[k].l.Read?)
  {
    hide SystemNext, PartyInv, EndedAt;
    Always(max, ss, es, i);
    assert SystemNext(ss[i], es[i]) == Some(ss[i + 1]);
    EndSystemStep(ss[i], es[i], ss[i + 1], p, g);
    EndLasts(max, ss, es, i + 1, k, p, g);
    Always(max, ss, es, k);
    assert SystemNext(ss[k], es[k]) == Some(ss[k + 1]);
    EndSystemStep(ss[k], es[k], ss[k + 1], p, g);
  }

  // ----- the idle notice

  /** The shell's idle timer has found the shell idle. */
  predicate Warned(j: Job) {
    IdleNotice in j.sent || j.timer.Noticing? || j.timer.Cancelling?
  }

  predicate WarnedIn(c: Conn, g: nat) {
    g in c.jobs && Warned(c.jobs[g])
  }

  /** The idle timer of job `g` finds it current, and the last input long ago. */
  predicate FoundIdle(c: Conn, actor: Actor, l: Label, g: nat) {
    && actor == TimerOf(g) && l == IdleVerdict(true) && IsCurrent(c.st, g)
    && g in c.jobs && c.jobs[g].kind.ShellJob? && c.jobs[g].timer.Fired?
  }

  lemma WorkerWarns(st: Shared, g: nat, j: Job, actor: Actor, l: Label)
    requires !actor.Handler? && actor.gen == g && JobOk(j) && WorkerNext(st, j, actor, l).Some?
    requires st.generation == g && st.session.Some? ==> j.container == st.session
    ensures var j' := WorkerNext(st, j, actor, l).value.job;
            var found := actor.TimerOf? && l == IdleVerdict(true) && IsCurrent(st, g)
                         && j.kind.ShellJob? && j.timer.Fired?;
            && (Warned(j') ==> Warned(j) || found)
            && (found ==> j'.timer.Noticing? && j'.container == Some(j'.timer.victim))
  {
    hide PhaseOf, VerdictOk, PhaseOk, MarksOk;
  }

  lemma WarnedStep(c: Conn, actor: Actor, l: Label, g: nat)
    requires Inv(c) && Next(c, actor, l).Some?
    ensures WarnedIn(Next(c, actor, l).value, g) ==> WarnedIn(c, g) || FoundIdle(c, actor, l, g)
    ensures FoundIdle(c, actor, l, g) ==>
              var j' := Next(c, actor, l).value.jobs[g]; j'.timer.Noticing? && j'.container == Some(j'.timer.victim)
  {
    hide PhaseOf, LaunchNext, WorkerNext, LaunchOk, JobOk;
    if !actor.Handler? {
      WorkerWarns(c.st, actor.gen, c.jobs[actor.gen], actor, l);
    } else if c.pc.Launching? {
      LaunchWarnsNobody(c.st, c.pc.gen, c.jobs[c.pc.gen], c.pc.kind, c.pc.stage, l);
    }
  }

  lemma LaunchWarnsNobody(st: Shared, g: nat, j: Job, kind: Kind, stage: Stage, l: Label)
    requires LaunchNext(st, g, j, kind, stage, l).Some?
    ensures Warned(LaunchNext(st, g, j, kind, stage, l).value.job) ==> Warned(j)
  {
  }

  /** Event `e` is the idle timer of shell `g` finding it current and idle. */
  predicate FindsIdle(s: System, e: Event, p: nat, g: nat) {
    HasJob(s, p, g) && e.Step? && e.id == p && FoundIdle(s.parties[p].conn, e.actor, e.l, g)
  }

  lemma WarnedSystemStep(s: System, e: Event, s': System, p: nat, g: nat)
    requires PartiesOk(s) && SystemNext(s, e) == Some(s') && HasJob(s', p, g) && Warned(JobAt(s', p, g))
    ensures (HasJob(s, p, g) && Warned(JobAt(s, p, g))) || FindsIdle(s, e, p, g)
  {
    hide Next, PoolNext, Inv, RestNext, Warned;
    if e.Step? && e.id == p && s.parties[p].Socket? {
      WarnedStep(s.parties[p].conn, e.actor, e.l, g);
    }
  }

  /** A shell is told that it was idle, and cancelled for it, only after its own timer has found it current and
      its last input long ago.  A shell whose last input is recent is left alone. */
  lemma {:induction false} IdleNoticeIsEarned(max: int, ss: seq<System>, es: seq<Event>, i: nat, p: nat, g: nat)
    returns (k: nat)
    requires Behaviour(max, ss, es) && i < |ss| && HasJob(ss[i], p, g)
    requires var j := JobAt(ss[i], p, g); IdleNotice in j.sent || j.timer.Noticing? || j.timer.Cancelling?
    ensures k < i && HasJob(ss[k], p, g) && JobAt(ss[k], p, g).kind.ShellJob?
    ensures es[k] == Step(p, TimerOf(g), IdleVerdict(true)) && IsCurrent(ss[k].parties[p].conn.st, g)
    decreases i
  {
    hide SystemNext, PartyInv;
    assert i > 0 by { assert ss[0].parties == map[]; }
    Always(max, ss, es, i - 1);
    assert SystemNext(ss[i - 1], es[i - 1]) == Some(ss[i - 1 + 1]);
    WarnedSystemStep(ss[i - 1], es[i - 1], ss[i], p, g);
    if HasJob(ss[i - 1], p, g) && Warned(JobAt(ss[i - 1], p, g)) {
      k := IdleNoticeIsEarned(max, ss, es, i - 1, p, g);
    } else {
      k := i - 1;
    }
  }
}
