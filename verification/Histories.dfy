/** How one step of a connection changes what a job has sent and recorded. */
module Histories {
  import opened Options
  import opened Session
  import opened Connection
  import opened ConnectionInv

  // ----- the shape of a complete exchange

  predicate InPlace(sent: seq<Message>, k: nat)
    requires k < |sent|
  {
    match sent[k]
    case Started => k == 0
    case Output => k > 0
    case IdleNotice => false
    case Files => k > 0 && (k == |sent| - 1 || (k == |sent| - 2 && sent[k + 1].Exit?))
    case Exit(_) => k > 0 && k == |sent| - 1
  }

  /** A prefix of: started, output*, an optional files message, exit. */
  ghost predicate InOrder(sent: seq<Message>) {
    forall k | 0 <= k < |sent| :: InPlace(sent, k)
  }

  lemma {:induction false} PhaseShape(sent: seq<Message>)
    requires !PhaseOf(RunJob, sent).Broken?
    ensures InOrder(sent)
    ensures PhaseOf(RunJob, sent).Quiet? <==> sent == []
    ensures PhaseOf(RunJob, sent).Streaming? ==> forall k | 0 < k < |sent| :: sent[k].Output?
    ensures PhaseOf(RunJob, sent).Filed? ==> sent[|sent| - 1].Files? && forall k | 0 < k < |sent| - 1 :: sent[k].Output?
    ensures PhaseOf(RunJob, sent).Gone? ==> sent[|sent| - 1] == Exit(PhaseOf(RunJob, sent).reason)
  {
    if sent != [] {
      var front := sent[..|sent| - 1];
      PhaseShape(front);
      forall k | 0 <= k < |sent|
        ensures InPlace(sent, k)
      {
        if k < |front| {
          assert InPlace(front, k) && front[k] == sent[k];
        }
      }
    }
  }

  lemma {:induction false} ShellShape(sent: seq<Message>)
    requires !PhaseOf(ShellJob, sent).Broken?
    ensures PhaseOf(ShellJob, sent).Quiet? || PhaseOf(ShellJob, sent).Streaming?
    ensures forall m | m in sent :: !m.Files? && !m.Exit?
  {
    if sent != [] {
      var front := sent[..|sent| - 1];
      ShellShape(front);
      assert sent == front + [sent[|sent| - 1]];
    }
  }

  // ----- what a job that is no longer current can still send

  /** The messages still to come; each at most once. */
  datatype Future = Future(output: bool, notice: bool, files: bool, exit: bool)

  predicate Allows(f: Future, sent: seq<Message>)
    decreases |sent|
  {
    sent == [] ||
    match sent[0]
    case Started => false
    case Output => f.output && Allows(f.(output := false), sent[1..])
    case IdleNotice => f.notice && Allows(f.(notice := false), sent[1..])
    case Files => f.files && Allows(f.(files := false), sent[1..])
    case Exit(_) => f.exit && Allows(f.(files := false, exit := false), sent[1..])
  }

  predicate Within(f: Future, g: Future) {
    && (f.output ==> g.output) && (f.notice ==> g.notice) && (f.files ==> g.files) && (f.exit ==> g.exit)
  }

  lemma {:induction false} AllowsMonotone(f: Future, g: Future, sent: seq<Message>)
    requires Within(f, g) && Allows(f, sent)
    ensures Allows(g, sent)
    decreases |sent|
  {
    if sent != [] {
      match sent[0]
      case Output => AllowsMonotone(f.(output := false), g.(output := false), sent[1..]);
      case IdleNotice => AllowsMonotone(f.(notice := false), g.(notice := false), sent[1..]);
      case Files => AllowsMonotone(f.(files := false), g.(files := false), sent[1..]);
      case Exit(_) => AllowsMonotone(f.(files := false, exit := false), g.(files := false, exit := false), sent[1..]);
    }
  }

  /** The job was installed once, or failed, and is not the current session any more. */
  predicate Stale(c: Conn, g: nat) {
    g in c.jobs && !Busy(c.pc, g) && !IsCurrent(c.st, g)
  }

  /** What the goroutines of a stale job may still send.  A waiter that has passed the first currency check
      goes on to its exit as long as no newer generation has begun; the files it sends only if it has
      already read them, since the container is gone. */
  function FutureOf(generation: nat, g: nat, j: Job): Future {
    var w := j.waiter;
    Future(j.bridge.Sending?, j.timer.Noticing?, w.SendingFiles?,
           w.ReadingFiles? || w.SendingFiles? || w.Exiting?
           || (j.kind.RunJob? && generation == g && (w.Inspecting? || w.Rechecking?)))
  }

  /** The step is not a read of the job's files that succeeds. */
  predicate ReadsNothing(actor: Actor, l: Label, g: nat) {
    actor == WaiterOf(g) && l.ReadFiles? ==> !l.some
  }

  /** A step either says nothing about `g`'s stream, or says the next message of its future. */
  ghost predicate Consumes(f: Future, sent: seq<Message>, f': Future, sent': seq<Message>) {
    || (sent' == sent && Within(f', f))
    || (|sent'| == |sent| + 1 && sent' == sent + [sent'[|sent|]] && Allows(f, [sent'[|sent|]])
        && (forall rest | Allows(f', rest) :: Allows(f, [sent'[|sent|]] + rest)))
  }

  lemma ConsumeOne(f: Future, f': Future, sent: seq<Message>, m: Message)
    requires match m
             case Started => false
             case Output => f.output && Within(f', f.(output := false))
             case IdleNotice => f.notice && Within(f', f.(notice := false))
             case Files => f.files && Within(f', f.(files := false))
             case Exit(_) => f.exit && Within(f', f.(files := false, exit := false))
    ensures Consumes(f, sent, f', sent + [m])
  {
    forall rest | Allows(f', rest)
      ensures Allows(f, [m] + rest)
    {
      assert ([m] + rest)[1..] == rest;
      match m
      case Output => AllowsMonotone(f', f.(output := false), rest);
      case IdleNotice => AllowsMonotone(f', f.(notice := false), rest);
      case Files => AllowsMonotone(f', f.(files := false), rest);
      case Exit(_) => AllowsMonotone(f', f.(files := false, exit := false), rest);
    }
    assert [m] == [m] + [];
    assert Allows(f', []);
  }

  lemma StaleWorkerStep(st: Shared, g: nat, j: Job, actor: Actor, l: Label)
    requires !actor.Handler? && actor.gen == g && JobOk(j) && !IsCurrent(st, g) && ReadsNothing(actor, l, g)
    requires WorkerNext(st, j, actor, l).Some?
    ensures var ch := WorkerNext(st, j, actor, l).value;
            && ch.st == st && ch.job.kind == j.kind
            && Consumes(FutureOf(st.generation, g, j), j.sent, FutureOf(st.generation, g, ch.job), ch.job.sent)
  {
    hide PhaseOf, Consumes, Allows;
    var ch := WorkerNext(st, j, actor, l).value;
    var f, f' := FutureOf(st.generation, g, j), FutureOf(st.generation, g, ch.job);
    match actor
    case BridgeOf(_) =>
      if j.bridge.Sending? { ConsumeOne(f, f', j.sent, Output); } else { ConsumeNone(f, f', j.sent); }
    case TimerOf(_) =>
      if j.timer.Noticing? { ConsumeOne(f, f', j.sent, IdleNotice); } else { ConsumeNone(f, f', j.sent); }
    case WaiterOf(_) =>
      if j.waiter.SendingFiles? { ConsumeOne(f, f', j.sent, Files); }
      else if j.waiter.Exiting? { ConsumeOne(f, f', j.sent, Exit(j.waiter.reason)); }
      else { ConsumeNone(f, f', j.sent); }
  }

  lemma ConsumeNone(f: Future, f': Future, sent: seq<Message>)
    requires Within(f', f)
    ensures Consumes(f, sent, f', sent)
  {
  }

  /** Job `g` of a connection is stale before and after, and a step used up some of its future. */
  ghost predicate StaysStale(c: Conn, c': Conn, g: nat) {
    && Stale(c, g) && Stale(c', g) && c'.jobs[g].kind == c.jobs[g].kind
    && Consumes(FutureOf(c.st.generation, g, c.jobs[g]), c.jobs[g].sent,
                FutureOf(c'.st.generation, g, c'.jobs[g]), c'.jobs[g].sent)
  }

  lemma Unaffected(c: Conn, c': Conn, g: nat)
    requires Stale(c, g) && g in c'.jobs && c'.jobs[g] == c.jobs[g] && g <= c.st.generation <= c'.st.generation
    requires Busy(c'.pc, g) ==> Busy(c.pc, g)
    requires IsCurrent(c'.st, g) ==> IsCurrent(c.st, g)
    ensures StaysStale(c, c', g)
  {
    hide Consumes;
    ConsumeNone(FutureOf(c.st.generation, g, c.jobs[g]), FutureOf(c'.st.generation, g, c'.jobs[g]), c.jobs[g].sent);
  }

  lemma StaleWorkers(c: Conn, actor: Actor, l: Label, g: nat)
    requires Inv(c) && Stale(c, g) && !actor.Handler? && Next(c, actor, l).Some? && ReadsNothing(actor, l, g)
    ensures StaysStale(c, Next(c, actor, l).value, g)
  {
    hide WorkerNext, Consumes, LaunchOk;
    var c' := Next(c, actor, l).value;
    if actor.gen == g {
      StaleWorkerStep(c.st, g, c.jobs[g], actor, l);
    } else {
      WorkerKeepsInv(c, actor, l);
      Unaffected(c, c', g);
    }
  }

  lemma StaleHandler(c: Conn, l: Label, g: nat)
    requires Numbered(c) && PcOk(c) && Stale(c, g) && HandlerNext(c, l).Some?
    ensures StaysStale(c, HandlerNext(c, l).value, g)
  {
    hide StaysStale, LaunchOk;
    Unaffected(c, HandlerNext(c, l).value, g);
  }

  /** Once stale, always stale; and every step of the connection uses up the stale job's future. */
  lemma StaleStep(c: Conn, actor: Actor, l: Label, g: nat)
    requires Inv(c) && Stale(c, g) && Next(c, actor, l).Some? && ReadsNothing(actor, l, g)
    ensures StaysStale(c, Next(c, actor, l).value, g)
  {
    hide StaysStale, HandlerNext, WorkerNext;
    if actor.Handler? {
      StaleHandler(c, l, g);
    } else {
      StaleWorkers(c, actor, l, g);
    }
  }

  // ----- the timeout verdict

  function MarksIn(c: Conn, g: nat): Marks {
    if g in c.jobs then c.jobs[g].marks else Unmarked
  }

  /** The kill timer of run `g` fires while the run is current. */
  predicate HitBy(c: Conn, actor: Actor, g: nat) {
    actor == TimerOf(g) && g in c.jobs && c.jobs[g].kind.RunJob? && c.jobs[g].timer.Fired? && IsCurrent(c.st, g)
  }

  /** The exit waiter of run `g` reads the timeout flag. */
  predicate ReadBy(c: Conn, actor: Actor, g: nat) {
    actor == WaiterOf(g) && g in c.jobs && c.jobs[g].kind.RunJob? && c.jobs[g].waiter.Sampling?
  }

  function MarksNext(c: Conn, actor: Actor, g: nat): Marks {
    if HitBy(c, actor, g) then MarksIn(c, g).AfterHit()
    else if ReadBy(c, actor, g) then MarksIn(c, g).AfterSample()
    else MarksIn(c, g)
  }

  lemma WorkerMarks(st: Shared, g: nat, j: Job, actor: Actor, l: Label)
    requires !actor.Handler? && actor.gen == g && JobOk(j) && WorkerNext(st, j, actor, l).Some?
    ensures var m := WorkerNext(st, j, actor, l).value.job.marks;
            m == if actor.TimerOf? && j.kind.RunJob? && j.timer.Fired? && IsCurrent(st, g) then j.marks.AfterHit()
                 else if actor.WaiterOf? && j.kind.RunJob? && j.waiter.Sampling? then j.marks.AfterSample()
                 else j.marks
  {
    hide PhaseOf;
  }

  lemma LaunchMarks(st: Shared, g: nat, j: Job, kind: Kind, stage: Stage, l: Label)
    requires LaunchNext(st, g, j, kind, stage, l).Some?
    ensures LaunchNext(st, g, j, kind, stage, l).value.job.marks == j.marks
  {
  }

  lemma WorkerMarksStep(c: Conn, actor: Actor, l: Label, g: nat)
    requires Inv(c) && !actor.Handler? && Next(c, actor, l).Some?
    ensures MarksIn(Next(c, actor, l).value, g) == MarksNext(c, actor, g)
    ensures HitBy(c, actor, g) ==> !MarksIn(c, g).WasHit()
    ensures ReadBy(c, actor, g) ==> MarksIn(c, g).Unmarked? || MarksIn(c, g).Hit?
  {
    hide PhaseOf, WorkerNext, PcOk;
    WorkerMarks(c.st, actor.gen, c.jobs[actor.gen], actor, l);
  }

  lemma HandlerMarksStep(c: Conn, l: Label, g: nat)
    requires PcOk(c) && Numbered(c) && HandlerNext(c, l).Some?
    ensures MarksIn(HandlerNext(c, l).value, g) == MarksIn(c, g)
  {
    hide PhaseOf, LaunchNext, LaunchOk;
    if c.pc.Launching? {
      LaunchMarks(c.st, c.pc.gen, c.jobs[c.pc.gen], c.pc.kind, c.pc.stage, l);
    }
  }

  lemma MarksStep(c: Conn, actor: Actor, l: Label, g: nat)
    requires Inv(c) && Next(c, actor, l).Some?
    ensures MarksIn(Next(c, actor, l).value, g) == MarksNext(c, actor, g)
    ensures HitBy(c, actor, g) ==> !MarksIn(c, g).WasHit()
    ensures ReadBy(c, actor, g) ==> MarksIn(c, g).Unmarked? || MarksIn(c, g).Hit?
  {
    hide HandlerNext, WorkerNext, JobsOk, PcOk, MarksIn;
    if actor.Handler? {
      HandlerMarksStep(c, l, g);
    } else {
      WorkerMarksStep(c, actor, l, g);
    }
  }

  // ----- container names

  /** Only a creation names a container, and it names that of the current generation's job. */
  ghost predicate NamedBy(c: Conn, l: Label, c': Conn, g: nat) {
    g in c'.jobs && c'.jobs[g].container.Some? ==>
      || (g in c.jobs && c.jobs[g].container == c'.jobs[g].container)
      || (g == c.st.generation && l == Create(c'.jobs[g].container.value))
  }

  lemma WorkerNames(st: Shared, j: Job, actor: Actor, l: Label)
    requires !actor.Handler? && WorkerNext(st, j, actor, l).Some?
    ensures WorkerNext(st, j, actor, l).value.job.container == j.container
  {
  }

  lemma LaunchNames(st: Shared, g: nat, j: Job, kind: Kind, stage: Stage, l: Label)
    requires LaunchNext(st, g, j, kind, stage, l).Some?
    ensures var j' := LaunchNext(st, g, j, kind, stage, l).value.job;
            j'.container == j.container || (l.Create? && j'.container == Some(l.id))
  {
  }

  lemma NamesStep(c: Conn, actor: Actor, l: Label, g: nat)
    requires PcOk(c) && Next(c, actor, l).Some?
    ensures NamedBy(c, l, Next(c, actor, l).value, g)
  {
    hide PhaseOf, LaunchNext, WorkerNext, LaunchOk;
    if !actor.Handler? {
      WorkerNames(c.st, c.jobs[actor.gen], actor, l);
    } else if c.pc.Launching? {
      LaunchNames(c.st, c.pc.gen, c.jobs[c.pc.gen], c.pc.kind, c.pc.stage, l);
    }
  }
}
