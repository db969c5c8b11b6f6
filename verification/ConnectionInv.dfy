/** What every reachable state of one connection satisfies, proved actor by actor. */
module ConnectionInv {
  import opened Options
  import opened DockerClient
  import opened Session
  import opened UserQuota
  import opened Connection

  // ----- the messages of one job

  datatype Phase = Quiet | Streaming | Filed | Gone(reason: ExitReason) | Broken

  /** How far the messages have come; `Broken` once one is out of place. */
  function Advance(kind: Kind, p: Phase, m: Message): Phase {
    match m
    case Started => if p.Quiet? then Streaming else Broken
    case Output => if p.Streaming? then Streaming else Broken
    case IdleNotice => if kind.ShellJob? then p else Broken
    case Files => if kind.RunJob? && p.Streaming? then Filed else Broken
    case Exit(reason) => if kind.RunJob? && (p.Streaming? || p.Filed?) then Gone(reason) else Broken
  }

  function PhaseOf(kind: Kind, sent: seq<Message>): Phase {
    if sent == [] then Quiet else Advance(kind, PhaseOf(kind, sent[..|sent| - 1]), sent[|sent| - 1])
  }

  function Said(j: Job): Phase {
    PhaseOf(j.kind, j.sent)
  }

  lemma SayAdvances(j: Job, m: Message)
    ensures Said(Say(j, m)) == Advance(j.kind, Said(j), m)
  {
    assert (j.sent + [m])[..|j.sent|] == j.sent;
  }

  lemma NothingSaid(kind: Kind)
    ensures PhaseOf(kind, []) == Quiet
  {
  }

  // ----- one job

  predicate Blank(j: Job) {
    && j.bridge.BridgeUnborn? && j.timer.TimerUnborn? && j.waiter.WaiterUnborn?
    && j.sent == [] && j.marks.Unmarked? && j.touched == {}
  }

  /** The waiter has not read the timeout flag yet. */
  predicate Early(w: Waiter) {
    w.WaiterUnborn? || w.Blocked? || w.StoppingTimer? || w.Sampling?
  }

  /** The waiter has given up its container. */
  predicate Late(w: Waiter) {
    w.Discharging? || w.Releasing? || w.WaiterDone?
  }

  predicate MarksOk(j: Job) {
    && (j.marks.WasHit() ==> j.timer.TimerDone?)
    && (if j.kind.ShellJob? then j.marks.Unmarked?
        else if Early(j.waiter) then j.marks.Unmarked? || j.marks.Hit?
        else !j.marks.Unmarked? && !j.marks.Hit?)
  }

  /** The verdict the waiter carries, and the one it sent, is the one the marks call for. */
  predicate VerdictOk(j: Job) {
    && (j.waiter.Inspecting? && j.kind.RunJob? ==> (j.waiter.wasTimedOut <==> j.marks.HitThenSampled?))
    && (j.waiter.Rechecking? || j.waiter.ReadingFiles? || j.waiter.SendingFiles? || j.waiter.Exiting? ==>
          (j.waiter.reason.Timeout? <==> j.marks.HitThenSampled?))
    && (Said(j).Gone? ==> !Early(j.waiter) && (Said(j).reason.Timeout? <==> j.marks.HitThenSampled?))
  }

  /** The phase the messages sent so far must have reached, read off the waiter's position. */
  predicate PhaseOk(j: Job) {
    var p := Said(j);
    match j.waiter
    case WaiterUnborn => p.Streaming? || (p.Quiet? && j.bridge.BridgeUnborn?)
    case Exiting(_) => p.Streaming? || p.Filed?
    case Finishing => if j.kind.RunJob? then p.Gone? else p.Streaming?
    case Discharging => p.Streaming? || p.Gone?
    case Releasing => p.Streaming? || p.Gone?
    case WaiterDone => p.Streaming? || p.Gone?
    case _ => p.Streaming?
  }

  /** The job's actors only ever handle the job's own container. */
  predicate TargetsOk(j: Job) {
    && (j.timer.Noticing? || j.timer.Cancelling? ==> j.container == Some(j.timer.victim))
    && (j.waiter.Inspecting? || j.waiter.Rechecking? || j.waiter.ReadingFiles? ==> j.container == Some(j.waiter.id))
    && j.touched <= (if j.container.Some? then {j.container.value} else {})
  }

  predicate ShapeOk(j: Job) {
    && (j.waiter.StoppingTimer? || j.waiter.Rechecking? || j.waiter.ReadingFiles? ==> j.kind.RunJob?)
    && (j.waiter.SendingFiles? || j.waiter.Exiting? || j.waiter.Discharging? ==> j.kind.RunJob?)
    && (j.timer.Noticing? || j.timer.Cancelling? ==> j.kind.ShellJob?)
    && (!j.waiter.WaiterUnborn? && !j.waiter.Blocked? ==> j.bridge.BridgeClosed?)
  }

  predicate JobOk(j: Job) {
    MarksOk(j) && VerdictOk(j) && PhaseOk(j) && TargetsOk(j) && ShapeOk(j)
  }

  // ----- a job in its connection

  /** The handler is done with the job: it failed before it had a session, or its goroutines run. */
  predicate Settled(st: Shared, g: nat, j: Job) {
    if j.waiter.WaiterUnborn? then Blank(j) && !IsCurrent(st, g)
    else j.container.Some? && !j.bridge.BridgeUnborn? && !j.timer.TimerUnborn? && (Late(j.waiter) ==> !IsCurrent(st, g))
  }

  /** The stages at which the new container is the connection's session. */
  predicate Installed(stage: Stage) {
    stage.Tracking? || stage.Announcing? || stage.StartingBridge? || stage.ArmingTimer? || stage.StartingWaiter?
  }

  /** Job `j` while its handler is at `stage`. */
  predicate LaunchOk(st: Shared, kind: Kind, stage: Stage, j: Job) {
    var run := kind.RunJob?;
    && j.kind == kind
    && (stage.Tracking? || stage.Untracking? || stage.Uncharging? ==> run)
    && (if stage.Untracking? then j.container == Some(stage.id) && !j.waiter.WaiterUnborn?
        else if !Installed(stage) then
          Blank(j) && st.session.None? && (stage.SettingUp? || stage.Storing? ==> j.container == Some(stage.id))
        else
          && j.waiter.WaiterUnborn? && j.container == Some(stage.id) && st.session == Some(stage.id)
          && (match stage
              case Tracking(_) => Blank(j)
              case Announcing(_) => j.bridge.BridgeUnborn? && Said(j).Quiet? && (run <==> j.timer.TimerUnborn?)
              case StartingBridge(_) => j.bridge.BridgeUnborn? && Said(j).Streaming? && (run <==> j.timer.TimerUnborn?)
              case ArmingTimer(_) => j.timer.TimerUnborn? && (if run then !j.bridge.BridgeUnborn? else Blank(j))
              case _ => !j.bridge.BridgeUnborn? && !j.timer.TimerUnborn?))
  }

  /** The handler is still busy launching job `g`. */
  predicate Busy(pc: Pc, g: nat) {
    pc.Launching? && pc.gen == g && !pc.stage.Untracking?
  }

  predicate JobsOk(c: Conn) {
    forall g | g in c.jobs :: JobOk(c.jobs[g]) && (Busy(c.pc, g) || Settled(c.st, g, c.jobs[g]))
  }

  ghost predicate Numbered(c: Conn) {
    forall g :: g in c.jobs <==> 1 <= g <= c.st.generation
  }

  predicate PcOk(c: Conn) {
    && (c.pc.Closed? ==> c.st.session.None?)
    && (c.pc.Launching? ==>
          c.pc.gen == c.st.generation && c.pc.gen in c.jobs && LaunchOk(c.st, c.pc.kind, c.pc.stage, c.jobs[c.pc.gen]))
  }

  /** The session is the container of the current generation, and the timeout flag is that
      generation's own unless it is a shell, which never resets the flag. */
  predicate CurrentOk(st: Shared, j: Job) {
    && (st.session.Some? ==> j.container == st.session)
    && (j.kind.RunJob? ==> (st.timedOut <==> j.marks.WasHit()))
  }

  ghost predicate Inv(c: Conn) {
    && Numbered(c) && PcOk(c) && JobsOk(c)
    && (if c.st.generation == 0 then c.st.session.None?
        else c.st.generation in c.jobs && CurrentOk(c.st, c.jobs[c.st.generation]))
  }

  lemma InvInit(u: User)
    ensures Inv(NewConn(u))
  {
  }

  // ----- the goroutines of a job

  /** What any step of a goroutine of job `g` leaves in place. */
  predicate Bounded(st: Shared, g: nat, j: Job, st': Shared, j': Job) {
    && JobOk(j')
    && st'.generation == st.generation
    && (st' == st || IsCurrent(st, g))
    && (st'.session == st.session || st'.session.None?)
    && j'.kind == j.kind && j'.container == j.container
    && (j'.waiter.WaiterUnborn? <==> j.waiter.WaiterUnborn?)
    && (j.waiter.WaiterUnborn? ==> st'.session == st.session)
    && (j'.bridge.BridgeUnborn? <==> j.bridge.BridgeUnborn?)
    && (j'.timer.TimerUnborn? <==> j.timer.TimerUnborn?)
    && (Late(j'.waiter) && !Late(j.waiter) ==> !IsCurrent(st', g))
    && (j.bridge.BridgeUnborn? ==> Said(j') == Said(j))
    && (Blank(j) ==> j' == j)
    && (st.generation == g && CurrentOk(st, j) ==> CurrentOk(st', j'))
  }

  lemma BridgeBounded(st: Shared, g: nat, j: Job, l: Label)
    requires JobOk(j) && BridgeNext(st, g, j, l).Some?
    ensures var ch := BridgeNext(st, g, j, l).value; ch.st == st && Bounded(st, g, j, ch.st, ch.job)
  {
    hide PhaseOf;
    SayAdvances(j, Output);
  }

  lemma TimerBounded(st: Shared, g: nat, j: Job, l: Label)
    requires JobOk(j) && TimerNext(st, g, j, l).Some?
    requires st.generation == g ==> CurrentOk(st, j)
    ensures var ch := TimerNext(st, g, j, l).value; Bounded(st, g, j, ch.st, ch.job)
  {
    hide PhaseOf;
    SayAdvances(j, IdleNotice);
  }

  lemma WaiterBounded(st: Shared, g: nat, j: Job, l: Label)
    requires JobOk(j) && WaiterNext(st, g, j, l).Some?
    requires st.generation == g ==> CurrentOk(st, j)
    ensures var ch := WaiterNext(st, g, j, l).value; Bounded(st, g, j, ch.st, ch.job)
  {
    hide PhaseOf;
    match j.waiter
    case SendingFiles(_) => SayAdvances(j, Files);
    case Exiting(reason) => SayAdvances(j, Exit(reason));
    case _ =>
  }

  lemma WorkerKeepsInv(c: Conn, actor: Actor, l: Label)
    requires Inv(c) && !actor.Handler? && Next(c, actor, l).Some?
    ensures Inv(Next(c, actor, l).value)
    ensures var g := actor.gen; var c' := Next(c, actor, l).value;
            g in c.jobs && Bounded(c.st, g, c.jobs[g], c'.st, c'.jobs[g])
  {
    hide PhaseOf, JobOk, BridgeNext, TimerNext, WaiterNext;
    var g := actor.gen;
    var j := c.jobs[g];
    match actor
    case BridgeOf(_) => BridgeBounded(c.st, g, j, l);
    case TimerOf(_) => TimerBounded(c.st, g, j, l);
    case WaiterOf(_) => WaiterBounded(c.st, g, j, l);
  }

  // ----- the message loop

  lemma HangupKeepsInv(c: Conn)
    requires Inv(c) && c.pc.Idle?
    ensures Inv(c.(st := Hangup(c.st), pc := Closed))
  {
  }

  lemma ReplaceKeepsInv(c: Conn, kind: Kind)
    requires Inv(c) && c.pc == Replacing(kind)
    ensures Inv(Replaced(c, kind))
  {
  }

  lemma LoopKeepsInv(c: Conn, l: Label)
    requires Inv(c) && HandlerNext(c, l).Some? && !c.pc.Launching?
    ensures Inv(HandlerNext(c, l).value)
  {
    match c.pc
    case Idle =>
      HangupKeepsInv(c);
    case Replacing(kind) =>
      ReplaceKeepsInv(c, kind);
    case _ =>
  }

  /** One launching step, seen from the job being launched. */
  lemma LaunchStepOk(st: Shared, g: nat, j: Job, kind: Kind, stage: Stage, l: Label)
    requires JobOk(j) && LaunchOk(st, kind, stage, j) && st.generation == g && CurrentOk(st, j)
    requires stage.Untracking? ==> Settled(st, g, j)
    requires LaunchNext(st, g, j, kind, stage, l).Some?
    ensures var m := LaunchNext(st, g, j, kind, stage, l).value;
            && m.st.generation == g && JobOk(m.job) && CurrentOk(m.st, m.job)
            && (m.pc.Idle?
                || (m.pc.Launching? && m.pc.gen == g && m.pc.kind == kind && LaunchOk(m.st, kind, m.pc.stage, m.job)))
            && (Busy(m.pc, g) || Settled(m.st, g, m.job))
  {
    hide PhaseOf;
    NothingSaid(j.kind);
    SayAdvances(j, Started);
  }

  lemma LaunchKeepsInv(c: Conn, l: Label)
    requires Inv(c) && HandlerNext(c, l).Some? && c.pc.Launching?
    ensures Inv(HandlerNext(c, l).value)
  {
    hide JobOk, LaunchNext;
    LaunchStepOk(c.st, c.pc.gen, c.jobs[c.pc.gen], c.pc.kind, c.pc.stage, l);
    var m := LaunchNext(c.st, c.pc.gen, c.jobs[c.pc.gen], c.pc.kind, c.pc.stage, l).value;
    forall g | g in c.jobs && g != c.pc.gen
      ensures JobOk(c.jobs[g]) && Settled(m.st, g, c.jobs[g])
    {
    }
  }

  lemma NextKeepsInv(c: Conn, actor: Actor, l: Label)
    requires Inv(c) && Next(c, actor, l).Some?
    ensures Inv(Next(c, actor, l).value)
  {
    if !actor.Handler? {
      WorkerKeepsInv(c, actor, l);
    } else if c.pc.Launching? {
      LaunchKeepsInv(c, l);
    } else {
      LoopKeepsInv(c, l);
    }
  }
}
