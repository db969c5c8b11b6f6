/** One WebSocket connection (handler/websocket.go:286-374, 474-730, 841-988) as an automaton: the
    sequential message loop and, for every run or shell it ever started, the output bridge, the timer
    and the exit waiter.  A step is one lock..unlock section or one action between two of them; what
    it does to the process-wide tables is its label, given a meaning in `Runner`. */
module Connection {
  import opened Options
  import opened DockerClient
  import opened Session
  import opened UserQuota

  datatype Kind = RunJob | ShellJob

  datatype Message = Started | Output | IdleNotice | Files | Exit(reason: ExitReason)

  /** Whether the job's own kill timer raised the timeout flag, whether the job's waiter read it, and
      which came first. */
  datatype Marks = Unmarked | Hit | Sampled | HitThenSampled | SampledThenHit {
    function AfterHit(): Marks {
      match this
      case Unmarked => Hit
      case Sampled => SampledThenHit
      case _ => this
    }

    function AfterSample(): Marks {
      match this
      case Unmarked => Sampled
      case Hit => HitThenSampled
      case _ => this
    }

    predicate WasHit() {
      Hit? || HitThenSampled? || SampledThenHit?
    }
  }

  datatype Bridge = BridgeUnborn | Reading | Checking(last: bool) | Sending(last: bool) | Closing | BridgeClosed

  /** The kill timer of a run, the idle timer of a shell. */
  datatype Timer =
    | TimerUnborn
    | Armed
    | Fired
    | Noticing(victim: ContainerId)
    | Cancelling(victim: ContainerId)
    | TimerDone

  datatype Waiter =
    | WaiterUnborn
    | Blocked
    | StoppingTimer
    | Sampling
    | Inspecting(id: ContainerId, wasTimedOut: bool)
    | Rechecking(id: ContainerId, reason: ExitReason)
    | ReadingFiles(id: ContainerId, reason: ExitReason)
    | SendingFiles(reason: ExitReason)
    | Exiting(reason: ExitReason)
    | Finishing
    | Discharging
    | Releasing
    | WaiterDone

  /** Everything that belongs to one generation.  `sent` lists the messages its actors sent, `touched`
      the containers they cancelled, closed or removed. */
  datatype Job = Job(
    kind: Kind,
    container: Option<ContainerId>,
    bridge: Bridge,
    timer: Timer,
    waiter: Waiter,
    sent: seq<Message>,
    marks: Marks,
    touched: set<ContainerId>)

  datatype Stage =
    | Acquiring
    | Creating
    | SettingUp(id: ContainerId)
    | Failing
    | Uncharging
    | Storing(id: ContainerId)
    | Tracking(id: ContainerId)
    | Announcing(id: ContainerId)
    | StartingBridge(id: ContainerId)
    | ArmingTimer(id: ContainerId)
    | StartingWaiter(id: ContainerId)
    | Untracking(id: ContainerId)

  /** Where the message loop is.  `gen` is the local `currentGen`. */
  datatype Pc =
    | Idle
    | Closed
    | Charging
    | CapCheck
    | ListingRuns
    | PickingVictim
    | Evicting(victim: ContainerId)
    | Forgetting(victim: ContainerId)
    | Discounting
    | Recharging
    | Replacing(kind: Kind)
    | Launching(gen: nat, kind: Kind, stage: Stage)

  datatype Conn = Conn(user: User, st: Shared, pc: Pc, jobs: map<nat, Job>)

  datatype Actor = Handler | BridgeOf(gen: nat) | TimerOf(gen: nat) | WaiterOf(gen: nat)

  datatype Label =
    | Tick
    | Receive(kind: Kind)
    | Charge(ok: bool)
    | SeeCap(below: bool)
    | SeeRuns(some: bool)
    | Pick(victim: Option<ContainerId>)
    | Remove(id: ContainerId)
    | Untrack(id: ContainerId)
    | Discount
    | Discharge
    | AcquireOk
    | AcquireRefused
    | Release
    | Create(id: ContainerId)
    | Fail
    | Track(id: ContainerId, now: int)
    | Clear(dropped: set<ContainerId>)
    | Read(some: bool, last: bool)
    | IdleVerdict(idle: bool)
    | Report(id: ContainerId, info: Inspection, exitCode: int)
    | ReadFiles(id: ContainerId, some: bool)

  function NewJob(kind: Kind): Job {
    Job(kind, None, BridgeUnborn, TimerUnborn, WaiterUnborn, [], Unmarked, {})
  }

  function NewConn(user: User): Conn {
    Conn(user, Shared(None, 0, false), Idle, map[])
  }

  function Say(j: Job, m: Message): Job {
    j.(sent := j.sent + [m])
  }

  /** `Timer.Stop`: only a timer that has not fired is stopped. */
  function StopTimer(j: Job): Job {
    if j.timer.Armed? then j.(timer := TimerDone) else j
  }

  // ----- the four kinds of actor

  /** The critical section that opens a run or a shell: the old session goes, a new job begins. */
  function Replaced(c: Conn, kind: Kind): Conn {
    var st' := Supersede(c.st, kind.RunJob?);
    c.(st := st', pc := Launching(st'.generation, kind, Acquiring), jobs := c.jobs[st'.generation := NewJob(kind)])
  }

  function HandlerNext(c: Conn, l: Label): Option<Conn> {
    match c.pc
    case Idle => (
      match l
      case Receive(kind) => Some(c.(pc := if kind.RunJob? then Charging else Replacing(ShellJob)))
      case Clear(dropped) =>
        if dropped == Dropped(c.st, Hangup(c.st)) then Some(c.(st := Hangup(c.st), pc := Closed)) else None
      case _ => None)
    case Closed => None
    case Charging => if l.Charge? then Some(c.(pc := if l.ok then Replacing(RunJob) else CapCheck)) else None
    case CapCheck => if l.SeeCap? then Some(c.(pc := if l.below then Recharging else ListingRuns)) else None
    case ListingRuns => if l.SeeRuns? then Some(c.(pc := if l.some then PickingVictim else Recharging)) else None
    case PickingVictim =>
      if l.Pick? then Some(c.(pc := if l.victim.Some? then Evicting(l.victim.value) else Recharging)) else None
    case Evicting(victim) => if l == Remove(victim) then Some(c.(pc := Forgetting(victim))) else None
    case Forgetting(victim) => if l == Untrack(victim) then Some(c.(pc := Discounting)) else None
    case Discounting => if l.Discount? then Some(c.(pc := Recharging)) else None
    case Recharging => if l.Charge? then Some(c.(pc := if l.ok then Replacing(RunJob) else Idle)) else None
    case Replacing(kind) =>
      if l == Clear(Dropped(c.st, Replaced(c, kind).st)) then Some(Replaced(c, kind)) else None
    case Launching(g, kind, stage) =>
      if g !in c.jobs then None
      else
        match LaunchNext(c.st, g, c.jobs[g], kind, stage, l)
        case None => None
        case Some(move) => Some(c.(st := move.st, pc := move.pc, jobs := c.jobs[g := move.job]))
  }

  /** What the handler does while it launches a job. */
  datatype Move = Move(st: Shared, job: Job, pc: Pc)

  /** Lines 533-730 for a run, 869-987 for a shell. */
  function LaunchNext(st: Shared, g: nat, j: Job, kind: Kind, stage: Stage, l: Label): Option<Move> {
    var run := kind.RunJob?;
    match stage
    case Acquiring =>
      if l.AcquireOk? then Some(Move(st, j, Launching(g, kind, Creating)))
      else if l.AcquireRefused? then Some(Move(st, j, if run then Launching(g, kind, Uncharging) else Idle))
      else None
    case Creating =>
      if l.Create? then Some(Move(st, j.(container := Some(l.id)), Launching(g, kind, SettingUp(l.id))))
      else if l.Fail? then Some(Move(st, j, Launching(g, kind, Failing)))
      else None
    case SettingUp(id) =>
      if l == Remove(id) then Some(Move(st, j, Launching(g, kind, Failing)))
      else if l.Tick? then Some(Move(st, j, Launching(g, kind, Storing(id))))
      else None
    case Failing => if l.Release? then Some(Move(st, j, if run then Launching(g, kind, Uncharging) else Idle)) else None
    case Uncharging => if l.Discharge? then Some(Move(st, j, Idle)) else None
    case Storing(id) =>
      if l.Tick? then Some(Move(Install(st, id), j, Launching(g, kind, if run then Tracking(id) else ArmingTimer(id))))
      else None
    case Tracking(id) => if l.Track? && l.id == id then Some(Move(st, j, Launching(g, kind, Announcing(id)))) else None
    case Announcing(id) =>
      if l.Tick? then Some(Move(st, Say(j, Started), Launching(g, kind, StartingBridge(id)))) else None
    case StartingBridge(id) =>
      if l.Tick? then
        Some(Move(st, j.(bridge := Reading), Launching(g, kind, if run then ArmingTimer(id) else StartingWaiter(id))))
      else None
    case ArmingTimer(id) =>
      if l.Tick? then
        Some(Move(st, j.(timer := Armed), Launching(g, kind, if run then StartingWaiter(id) else Announcing(id))))
      else None
    case StartingWaiter(id) =>
      if l.Tick? then Some(Move(st, j.(waiter := Blocked), if run then Launching(g, kind, Untracking(id)) else Idle))
      else None
    case Untracking(id) => if l == Untrack(id) then Some(Move(st, j, Idle)) else None
  }

  /** What a goroutine of job `g` does to the shared state and to its job. */
  datatype Change = Change(st: Shared, job: Job)

  function BridgeNext(st: Shared, g: nat, j: Job, l: Label): Option<Change> {
    match j.bridge
    case BridgeUnborn => None
    case Reading =>
      if l.Read? && l.some then Some(Change(st, j.(bridge := Checking(l.last))))
      else if l.Read? && l.last then Some(Change(st, j.(bridge := Closing)))
      else None
    case Checking(last) =>
      if l.Tick? then Some(Change(st, j.(bridge := if IsCurrent(st, g) then Sending(last) else Closing))) else None
    case Sending(last) =>
      if l.Tick? then Some(Change(st, Say(j, Output).(bridge := if last then Closing else Reading))) else None
    case Closing =>
      if l.Tick? then Some(Change(st, (if j.kind.ShellJob? then StopTimer(j) else j).(bridge := BridgeClosed)))
      else None
    case BridgeClosed => None
  }

  function TimerNext(st: Shared, g: nat, j: Job, l: Label): Option<Change> {
    match j.timer
    case TimerUnborn => None
    case Armed => if l.Tick? then Some(Change(st, j.(timer := Fired))) else None
    case Fired =>
      if j.kind.RunJob? then
        if !l.Tick? then None
        else if IsCurrent(st, g) then
          Some(Change(FireKillTimer(st, g),
                      j.(timer := TimerDone, marks := j.marks.AfterHit(), touched := j.touched + {st.session.value})))
        else Some(Change(st, j.(timer := TimerDone)))
      else if !l.IdleVerdict? then None
      else Some(Change(st, j.(timer := if IsCurrent(st, g) && l.idle then Noticing(st.session.value) else TimerDone)))
    case Noticing(victim) =>
      if l.Tick? then Some(Change(st, Say(j, IdleNotice).(timer := Cancelling(victim)))) else None
    case Cancelling(victim) =>
      if l.Tick? then Some(Change(st, j.(timer := TimerDone, touched := j.touched + {victim}))) else None
    case TimerDone => None
  }

  function WaiterNext(st: Shared, g: nat, j: Job, l: Label): Option<Change> {
    var run := j.kind.RunJob?;
    match j.waiter
    case WaiterUnborn => None
    case Blocked =>
      if l.Tick? && j.bridge.BridgeClosed? then Some(Change(st, j.(waiter := if run then StoppingTimer else Sampling)))
      else None
    case StoppingTimer => if l.Tick? then Some(Change(st, StopTimer(j).(waiter := Sampling))) else None
    case Sampling =>
      if !l.Tick? then None
      else
        var next := if IsCurrent(st, g) then Inspecting(st.session.value, run && st.timedOut)
                    else if run then Discharging else Releasing;
        Some(Change(st, j.(waiter := next, marks := if run then j.marks.AfterSample() else j.marks)))
    case Inspecting(id, wasTimedOut) =>
      if l.Report? && l.id == id then
        Some(Change(st, j.(waiter := if run then Rechecking(id, InspectContainer(l.info, l.exitCode, wasTimedOut))
                                     else Finishing)))
      else None
    case Rechecking(id, reason) =>
      if l.Tick? then
        Some(Change(st, j.(waiter := if st.generation == g then ReadingFiles(id, reason) else Discharging)))
      else None
    case ReadingFiles(id, reason) =>
      if l.ReadFiles? && l.id == id then
        Some(Change(st, j.(waiter := if l.some then SendingFiles(reason) else Exiting(reason))))
      else None
    case SendingFiles(reason) => if l.Tick? then Some(Change(st, Say(j, Files).(waiter := Exiting(reason)))) else None
    case Exiting(reason) => if l.Tick? then Some(Change(st, Say(j, Exit(reason)).(waiter := Finishing))) else None
    case Finishing =>
      var st' := Retire(st, g);
      if l == Clear(Dropped(st, st')) then
        Some(Change(st', j.(waiter := if run then Discharging else Releasing, touched := j.touched + Dropped(st, st'))))
      else None
    case Discharging => if l.Discharge? then Some(Change(st, j.(waiter := Releasing))) else None
    case Releasing => if l.Release? then Some(Change(st, j.(waiter := WaiterDone))) else None
    case WaiterDone => None
  }

  function WorkerNext(st: Shared, j: Job, actor: Actor, l: Label): Option<Change>
    requires !actor.Handler?
  {
    match actor
    case BridgeOf(g) => BridgeNext(st, g, j, l)
    case TimerOf(g) => TimerNext(st, g, j, l)
    case WaiterOf(g) => WaiterNext(st, g, j, l)
  }

  /** The step `actor` takes with label `l`, if it can. */
  function Next(c: Conn, actor: Actor, l: Label): Option<Conn> {
    if actor.Handler? then HandlerNext(c, l)
    else if actor.gen !in c.jobs then None
    else
      match WorkerNext(c.st, c.jobs[actor.gen], actor, l)
      case None => None
      case Some(change) => Some(c.(st := change.st, jobs := c.jobs[actor.gen := change.job]))
  }
}
