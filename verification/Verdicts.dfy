/** What the exit of a run tells its client, traced back to what the daemon answered. */
module Verdicts {
  import opened Options
  import opened DockerClient
  import opened Session
  import opened Connection
  import opened ConnectionInv
  import opened Accounts
  import opened Histories
  import opened Runner
  import opened Guarantees

  /** The reason that a report calls for, unless the run was timed out. */
  predicate Fits(reason: ExitReason, info: Inspection, exitCode: int) {
    && (reason == Oom <==> info == Inspected(true))
    && (reason == Error <==> info == Inspected(false) && exitCode != 0)
    && (reason == Crash <==> info == Unavailable && exitCode != 0)
    && (reason == Normal <==> info != Inspected(true) && exitCode == 0)
  }

  /** The reason the job has settled on, on its way to the client or there already. */
  function Settled(j: Job): Option<ExitReason> {
    match j.waiter
    case Rechecking(_, reason) => Some(reason)
    case ReadingFiles(_, reason) => Some(reason)
    case SendingFiles(reason) => Some(reason)
    case Exiting(reason) => Some(reason)
    case _ => if Said(j).Gone? then Some(Said(j).reason) else None
  }

  predicate NewlySettled(j: Job, j': Job, actor: Actor, l: Label) {
    && actor.WaiterOf? && l.Report? && j.container == Some(l.id) && Settled(j').Some?
    && (Settled(j').value == Timeout || Fits(Settled(j').value, l.info, l.exitCode))
  }

  lemma WorkerSettles(st: Shared, g: nat, j: Job, actor: Actor, l: Label)
    requires !actor.Handler? && actor.gen == g && JobOk(j) && WorkerNext(st, j, actor, l).Some?
    ensures var j' := WorkerNext(st, j, actor, l).value.job;
            Settled(j') == None || Settled(j') == Settled(j) || NewlySettled(j, j', actor, l)
  {
    hide PhaseOf, MarksOk, VerdictOk;
    match actor
    case BridgeOf(_) => SayAdvances(j, Output);
    case TimerOf(_) => SayAdvances(j, IdleNotice);
    case WaiterOf(_) =>
      match j.waiter
      case SendingFiles(_) => SayAdvances(j, Files);
      case Exiting(reason) => SayAdvances(j, Exit(reason));
      case _ =>
  }

  lemma LaunchSettlesNothing(st: Shared, g: nat, j: Job, kind: Kind, stage: Stage, l: Label)
    requires JobOk(j) && LaunchOk(st, kind, stage, j) && LaunchNext(st, g, j, kind, stage, l).Some?
    ensures var j' := LaunchNext(st, g, j, kind, stage, l).value.job; Settled(j') == None || Settled(j') == Settled(j)
  {
    hide PhaseOf, MarksOk, VerdictOk;
    NothingSaid(j.kind);
    SayAdvances(j, Started);
  }

  function SettledIn(c: Conn, g: nat): Option<ExitReason> {
    if g in c.jobs then Settled(c.jobs[g]) else None
  }

  lemma SettledStep(c: Conn, actor: Actor, l: Label, g: nat)
    requires Inv(c) && Next(c, actor, l).Some?
    ensures var c' := Next(c, actor, l).value;
            || SettledIn(c', g) == None || SettledIn(c', g) == SettledIn(c, g)
            || (actor == WaiterOf(g) && g in c.jobs && g in c'.jobs && NewlySettled(c.jobs[g], c'.jobs[g], actor, l))
  {
    hide PhaseOf, LaunchNext, WorkerNext, JobOk, LaunchOk, Settled, Fits;
    if !actor.Handler? {
      WorkerSettles(c.st, actor.gen, c.jobs[actor.gen], actor, l);
    } else if c.pc.Launching? {
      LaunchSettlesNothing(c.st, c.pc.gen, c.jobs[c.pc.gen], c.pc.kind, c.pc.stage, l);
    } else if c.pc.Replacing? {
      NewSettlesNothing(c.pc.kind);
    }
  }

  lemma NewSettlesNothing(kind: Kind)
    ensures Settled(NewJob(kind)) == None
  {
    NothingSaid(kind);
  }

  function SettledAt(s: System, p: nat, g: nat): Option<ExitReason> {
    if HasJob(s, p, g) then Settled(JobAt(s, p, g)) else None
  }

  /** Event `e`, taken in `s`, is the waiter of run `g` learning how its own container ended. */
  predicate Reports(s: System, e: Event, p: nat, g: nat, info: Inspection, exitCode: int) {
    && HasJob(s, p, g) && JobAt(s, p, g).container.Some?
    && e == Step(p, WaiterOf(g), Report(JobAt(s, p, g).container.value, info, exitCode))
  }

  /** Event `e`, taken in `s`, is a report that calls for `reason`, a timeout apart. */
  ghost predicate Justifies(s: System, e: Event, p: nat, g: nat, reason: ExitReason) {
    exists info, exitCode :: Reports(s, e, p, g, info, exitCode) && (reason == Timeout || Fits(reason, info, exitCode))
  }

  lemma SettledSystemStep(s: System, e: Event, s': System, p: nat, g: nat)
    requires PartiesOk(s) && SystemNext(s, e) == Some(s') && SettledAt(s', p, g).Some?
    ensures SettledAt(s', p, g) == SettledAt(s, p, g) || Justifies(s, e, p, g, SettledAt(s', p, g).value)
  {
    hide Next, PoolNext, Inv, Settled;
    if e.Step? && e.id == p && s.parties[p].Socket? {
      SettledStep(s.parties[p].conn, e.actor, e.l, g);
      if SettledAt(s', p, g) != SettledAt(s, p, g) {
        assert Reports(s, e, p, g, e.l.info, e.l.exitCode);
      }
    }
  }

  lemma {:induction false} SettledWasReported(max: int, ss: seq<System>, es: seq<Event>, i: nat, p: nat, g: nat)
    returns (k: nat)
    requires Behaviour(max, ss, es) && i < |ss| && SettledAt(ss[i], p, g).Some?
    ensures k < i && Justifies(ss[k], es[k], p, g, SettledAt(ss[i], p, g).value)
    decreases i
  {
    hide SystemNext, SystemInv, Justifies, Settled;
    assert i > 0 by { assert ss[0].parties == map[]; }
    Always(max, ss, es, i - 1);
    InvParties(ss[i - 1]);
    assert SystemNext(ss[i - 1], es[i - 1]) == Some(ss[i - 1 + 1]);
    SettledSystemStep(ss[i - 1], es[i - 1], ss[i], p, g);
    if SettledAt(ss[i], p, g) == SettledAt(ss[i - 1], p, g) {
      k := SettledWasReported(max, ss, es, i - 1, p, g);
    } else {
      k := i - 1;
    }
  }

  lemma InvParties(s: System)
    requires SystemInv(s)
    ensures PartiesOk(s)
  {
  }

  lemma SaidExit(j: Job, reason: ExitReason)
    requires JobOk(j) && j.kind.RunJob? && Exit(reason) in j.sent
    ensures Settled(j) == Some(reason)
  {
    PhaseShape(j.sent);
    var k :| 0 <= k < |j.sent| && j.sent[k] == Exit(reason);
    assert InPlace(j.sent, k);
  }

  /** The exit a run sends says what became of its program: the run's own waiter asked the daemon about the
      run's own container, and the reason is "timeout" if the run's own kill timer came first, otherwise the
      one that the daemon's answer and the exit code call for. */
  lemma ExitTellsTheReport(max: int, ss: seq<System>, es: seq<Event>, i: nat, p: nat, g: nat, reason: ExitReason)
    returns (k: nat, info: Inspection, exitCode: int)
    requires Behaviour(max, ss, es) && i < |ss| && HasJob(ss[i], p, g) && Exit(reason) in JobAt(ss[i], p, g).sent
    ensures k < i && Reports(ss[k], es[k], p, g, info, exitCode)
    ensures if HitThenRead(ss, es, i, p, g) then reason == Timeout
            else && (reason == Oom <==> info == Inspected(true))
                 && (reason == Error <==> info == Inspected(false) && exitCode != 0)
                 && (reason == Crash <==> info == Unavailable && exitCode != 0)
                 && (reason == Normal <==> info != Inspected(true) && exitCode == 0)
  {
    hide SystemNext, HitThenRead, Reports;
    TimeoutIsAttributed(max, ss, es, i, p, g, reason);
    Always(max, ss, es, i);
    JobFacts(ss[i].parties[p].conn, g);
    SaidExit(JobAt(ss[i], p, g), reason);
    k := SettledWasReported(max, ss, es, i, p, g);
    info, exitCode :| Reports(ss[k], es[k], p, g, info, exitCode)
                      && (reason == Timeout || Fits(reason, info, exitCode));
  }

  // ----- files and silent ends

  /** The read of the container's files has found some. */
  predicate FoundFiles(j: Job) {
    j.waiter.SendingFiles? || Files in j.sent
  }

  /** The waiter leaves without an exit: it finds the run not current, or superseded. */
  predicate IsGivingUp(st: Shared, g: nat, j: Job) {
    || (j.waiter.Sampling? && !IsCurrent(st, g))
    || (j.waiter.Rechecking? && st.generation != g)
  }

  /** The run's waiter has left without an exit. */
  predicate Silent(j: Job) {
    j.kind.RunJob? && Late(j.waiter) && !Said(j).Gone?
  }

  lemma WorkerReads(st: Shared, g: nat, j: Job, actor: Actor, l: Label)
    requires !actor.Handler? && actor.gen == g && JobOk(j) && WorkerNext(st, j, actor, l).Some?
    ensures var j' := WorkerNext(st, j, actor, l).value.job;
            var found := actor.WaiterOf? && l.ReadFiles? && l.some;
            && (FoundFiles(j') <==> FoundFiles(j) || found)
            && (found ==> j.container == Some(l.id))
            && (Silent(j') ==> Silent(j) || (actor.WaiterOf? && IsGivingUp(st, g, j)))
  {
    hide PhaseOf, MarksOk, VerdictOk;
    match actor
    case BridgeOf(_) => SayAdvances(j, Output);
    case TimerOf(_) => SayAdvances(j, IdleNotice);
    case WaiterOf(_) =>
      match j.waiter
      case SendingFiles(_) => SayAdvances(j, Files);
      case Exiting(reason) => SayAdvances(j, Exit(reason));
      case _ =>
  }

  lemma LaunchReads(st: Shared, g: nat, j: Job, kind: Kind, stage: Stage, l: Label)
    requires JobOk(j) && LaunchOk(st, kind, stage, j) && LaunchNext(st, g, j, kind, stage, l).Some?
    ensures var j' := LaunchNext(st, g, j, kind, stage, l).value.job;
            && (FoundFiles(j') <==> FoundFiles(j)) && (Silent(j') ==> Silent(j))
  {
    hide PhaseOf, MarksOk, VerdictOk;
    NothingSaid(j.kind);
    SayAdvances(j, Started);
  }

  lemma NewReadsNothing(kind: Kind)
    ensures !FoundFiles(NewJob(kind)) && !Silent(NewJob(kind))
  {
  }

  function FoundIn(c: Conn, g: nat): bool {
    g in c.jobs && FoundFiles(c.jobs[g])
  }

  function SilentIn(c: Conn, g: nat): bool {
    g in c.jobs && Silent(c.jobs[g])
  }

  predicate FindsIn(c: Conn, actor: Actor, l: Label, g: nat) {
    && g in c.jobs && c.jobs[g].container.Some?
    && actor == WaiterOf(g) && l == ReadFiles(c.jobs[g].container.value, true)
  }

  predicate GivesUpIn(c: Conn, actor: Actor, g: nat) {
    g in c.jobs && actor == WaiterOf(g) && IsGivingUp(c.st, g, c.jobs[g])
  }

  lemma ReadsStep(c: Conn, actor: Actor, l: Label, g: nat)
    requires Inv(c) && Next(c, actor, l).Some?
    ensures FoundIn(Next(c, actor, l).value, g) <==> FoundIn(c, g) || FindsIn(c, actor, l, g)
    ensures SilentIn(Next(c, actor, l).value, g) ==> SilentIn(c, g) || GivesUpIn(c, actor, g)
  {
    hide PhaseOf, LaunchNext, WorkerNext, JobOk, LaunchOk, FoundFiles, Silent, IsGivingUp, CurrentOk;
    if !actor.Handler? {
      WorkerReads(c.st, actor.gen, c.jobs[actor.gen], actor, l);
    } else if c.pc.Launching? {
      LaunchReads(c.st, c.pc.gen, c.jobs[c.pc.gen], c.pc.kind, c.pc.stage, l);
    } else if c.pc.Replacing? {
      NewReadsNothing(c.pc.kind);
    }
  }

  /** Event `e` is the waiter of job `g` reading some files from the job's own container. */
  predicate Finds(s: System, e: Event, p: nat, g: nat) {
    HasJob(s, p, g) && e.Step? && e.id == p && FindsIn(s.parties[p].conn, e.actor, e.l, g)
  }

  /** Event `e` is the waiter of run `g` finding it not current, or superseded. */
  predicate GivesUp(s: System, e: Event, p: nat, g: nat) {
    HasJob(s, p, g) && e.Step? && e.id == p && GivesUpIn(s.parties[p].conn, e.actor, g)
  }

  predicate FoundAt(s: System, p: nat, g: nat) {
    HasJob(s, p, g) && FoundIn(s.parties[p].conn, g)
  }

  predicate SilentAt(s: System, p: nat, g: nat) {
    HasJob(s, p, g) && SilentIn(s.parties[p].conn, g)
  }

  lemma ReadsSystemStep(s: System, e: Event, s': System, p: nat, g: nat)
    requires PartiesOk(s) && SystemNext(s, e) == Some(s')
    ensures FoundAt(s', p, g) <==> FoundAt(s, p, g) || Finds(s, e, p, g)
    ensures SilentAt(s', p, g) ==> SilentAt(s, p, g) || GivesUp(s, e, p, g)
  {
    hide Next, PoolNext, Inv, RestNext, FoundFiles, Silent, IsGivingUp;
    if e.Step? && e.id == p && s.parties[p].Socket? {
      ReadsStep(s.parties[p].conn, e.actor, e.l, g);
      if g in s.parties[p].conn.jobs {
        JobsStay(s.parties[p].conn, e.actor, e.l, g);
      }
    }
  }

  lemma JobsStay(c: Conn, actor: Actor, l: Label, g: nat)
    requires Next(c, actor, l).Some? && g in c.jobs
    ensures g in Next(c, actor, l).value.jobs
  {
    hide WorkerNext, LaunchNext;
  }

  ghost predicate FoundBefore(ss: seq<System>, es: seq<Event>, i: nat, p: nat, g: nat)
    requires |ss| == |es| + 1 && i < |ss|
  {
    exists k :: 0 <= k < i && Finds(ss[k], es[k], p, g)
  }

  ghost predicate GaveUpBefore(ss: seq<System>, es: seq<Event>, i: nat, p: nat, g: nat)
    requires |ss| == |es| + 1 && i < |ss|
  {
    exists k :: 0 <= k < i && GivesUp(ss[k], es[k], p, g)
  }

  lemma {:induction false} ReadsAlways(max: int, ss: seq<System>, es: seq<Event>, i: nat, p: nat, g: nat)
    requires Behaviour(max, ss, es) && i < |ss|
    ensures FoundAt(ss[i], p, g) <==> FoundBefore(ss, es, i, p, g)
    ensures SilentAt(ss[i], p, g) ==> GaveUpBefore(ss, es, i, p, g)
    decreases i
  {
    hide SystemNext, SystemInv, Finds, GivesUp, FoundAt, SilentAt;
    if i == 0 {
      NothingFoundYet(ss[0], p, g);
    } else {
      ReadsAlways(max, ss, es, i - 1, p, g);
      Always(max, ss, es, i - 1);
      InvParties(ss[i - 1]);
      assert SystemNext(ss[i - 1], es[i - 1]) == Some(ss[i - 1 + 1]);
      ReadsSystemStep(ss[i - 1], es[i - 1], ss[i], p, g);
      assert FoundBefore(ss, es, i, p, g) <==> FoundBefore(ss, es, i - 1, p, g) || Finds(ss[i - 1], es[i - 1], p, g);
      assert GaveUpBefore(ss, es, i - 1, p, g) || GivesUp(ss[i - 1], es[i - 1], p, g) ==> GaveUpBefore(ss, es, i, p, g);
    }
  }

  lemma NothingFoundYet(s: System, p: nat, g: nat)
    requires s.parties == map[]
    ensures !FoundAt(s, p, g) && !SilentAt(s, p, g)
  {
  }

  /** What a run says at its end.  It has sent its files, or is about to, exactly if its waiter has read some
      from the run's own container.  And a run whose waiter has left without an exit was found not to be
      current, or superseded, by that waiter: no current run ends in silence. */
  lemma EndsAreTold(max: int, ss: seq<System>, es: seq<Event>, i: nat, p: nat, g: nat)
    requires Behaviour(max, ss, es) && i < |ss| && HasJob(ss[i], p, g)
    ensures var j := JobAt(ss[i], p, g);
            Files in j.sent || j.waiter.SendingFiles? <==> FoundBefore(ss, es, i, p, g)
    ensures var j := JobAt(ss[i], p, g);
            j.kind.RunJob? && (j.waiter.Discharging? || j.waiter.Releasing? || j.waiter.WaiterDone?) ==>
              (exists reason :: Exit(reason) in j.sent) || GaveUpBefore(ss, es, i, p, g)
  {
    hide SystemNext, FoundBefore, GaveUpBefore;
    ReadsAlways(max, ss, es, i, p, g);
    Always(max, ss, es, i);
    JobFacts(ss[i].parties[p].conn, g);
    var j := JobAt(ss[i], p, g);
    if j.kind.RunJob? && Said(j).Gone? {
      PhaseShape(j.sent);
      assert Exit(Said(j).reason) in j.sent;
    }
  }
}
