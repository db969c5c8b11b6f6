/** What one connection holds of the process-wide resources, and how a labelled step changes it. */
module Accounts {
  import opened Options
  import opened DockerClient
  import opened Session
  import opened Connection
  import opened ConnectionInv

  /** The handler has taken the slot of job `g` and has not passed it on. */
  predicate SlotAt(pc: Pc, g: nat) {
    && pc.Launching? && pc.gen == g
    && !pc.stage.Acquiring? && !pc.stage.Uncharging? && !pc.stage.Untracking?
  }

  predicate WaiterHasSlot(w: Waiter) {
    !w.WaiterUnborn? && !w.WaiterDone?
  }

  predicate HasSlot(pc: Pc, g: nat, j: Job) {
    SlotAt(pc, g) || WaiterHasSlot(j.waiter)
  }

  /** The jobs for which this connection holds an unreleased semaphore slot. */
  function Slots(c: Conn): set<nat> {
    set g | g in c.jobs && HasSlot(c.pc, g, c.jobs[g])
  }

  predicate ChargeAt(pc: Pc, g: nat) {
    pc.Launching? && pc.gen == g && !pc.stage.Untracking?
  }

  predicate WaiterHasCharge(w: Waiter) {
    !w.WaiterUnborn? && !w.Releasing? && !w.WaiterDone?
  }

  predicate HasCharge(pc: Pc, g: nat, j: Job) {
    j.kind.RunJob? && (ChargeAt(pc, g) || WaiterHasCharge(j.waiter))
  }

  /** The runs for which this connection has yet to decrement its user's count; 0 stands for a run
      that is charged and has no generation yet. */
  function Charges(c: Conn): set<nat> {
    (if c.pc == Replacing(RunJob) then {0} else {})
    + set g | g in c.jobs && HasCharge(c.pc, g, c.jobs[g])
  }

  /** The containers this connection still has to remove. */
  function Exposed(c: Conn): set<ContainerId> {
    (if c.st.session.Some? then {c.st.session.value} else {})
    + (if c.pc.Launching? && (c.pc.stage.SettingUp? || c.pc.stage.Storing?) then {c.pc.stage.id} else {})
  }

  /** The run container the handler has entered in `userRuns` and not yet taken out: from line 582
      until `handleRunMessage` returns. */
  function Tracked(c: Conn): set<ContainerId> {
    if c.pc.Launching? && c.pc.kind.RunJob?
       && (c.pc.stage.Announcing? || c.pc.stage.StartingBridge? || c.pc.stage.ArmingTimer? || c.pc.stage.StartingWaiter?
           || c.pc.stage.Untracking?)
    then {c.pc.stage.id} else {}
  }

  function SlotGain(l: Label): int {
    match l
    case AcquireOk => 1
    case Release => -1
    case _ => 0
  }

  function ChargeGain(l: Label): int {
    match l
    case Charge(ok) => if ok then 1 else 0
    case Discharge => -1
    case _ => 0
  }

  function Removed(l: Label): set<ContainerId> {
    match l
    case Remove(id) => {id}
    case Clear(dropped) => dropped
    case _ => {}
  }

  /** A container that a connection still exposes is covered by the slot of the job it belongs to. */
  lemma ExposedIsCovered(c: Conn, id: ContainerId)
    requires Inv(c) && id in Exposed(c)
    ensures c.st.generation in Slots(c) && c.jobs[c.st.generation].container == Some(id)
  {
  }

  /** If it is a run's, the run's charge is outstanding. */
  lemma ExposedIsCharged(c: Conn, id: ContainerId)
    requires Inv(c) && id in Exposed(c) && c.jobs[c.st.generation].kind.RunJob?
    ensures c.st.generation in Charges(c)
  {
  }

  function One(b: bool): int {
    if b then 1 else 0
  }

  lemma ChangedAt<T>(s: set<T>, s': set<T>, x: T)
    requires s - {x} == s' - {x}
    ensures |s'| == |s| + One(x in s') - One(x in s)
  {
    assert s == (s - {x}) + (if x in s then {x} else {});
    assert s' == (s' - {x}) + (if x in s' then {x} else {});
  }

  lemma Exchange<T>(s: set<T>, s': set<T>, x: T, y: T)
    requires s - {x} == s' - {y} && y !in s && x !in s' && (x in s <==> y in s')
    ensures |s'| == |s|
  {
    ChangedAt(s, s - {x}, x);
    ChangedAt(s', s' - {y}, y);
  }

  /** A step of the goroutines of one job, counted on that job alone. */
  lemma WorkerGains(st: Shared, j: Job, pc: Pc, actor: Actor, l: Label)
    requires !actor.Handler? && JobOk(j) && WorkerNext(st, j, actor, l).Some?
    requires Busy(pc, actor.gen) ==> j.waiter.WaiterUnborn?
    ensures var g := actor.gen; var j' := WorkerNext(st, j, actor, l).value.job;
            && One(HasSlot(pc, g, j')) == One(HasSlot(pc, g, j)) + SlotGain(l)
            && One(HasCharge(pc, g, j')) == One(HasCharge(pc, g, j)) + ChargeGain(l)
  {
    hide PhaseOf, MarksOk, VerdictOk, PhaseOk, TargetsOk;
  }

  lemma LaunchGains(st: Shared, g: nat, j: Job, kind: Kind, stage: Stage, l: Label)
    requires LaunchOk(st, kind, stage, j) && LaunchNext(st, g, j, kind, stage, l).Some?
    ensures var pc := Launching(g, kind, stage); var m := LaunchNext(st, g, j, kind, stage, l).value;
            && One(HasSlot(m.pc, g, m.job)) == One(HasSlot(pc, g, j)) + SlotGain(l)
            && One(HasCharge(m.pc, g, m.job)) == One(HasCharge(pc, g, j)) + ChargeGain(l)
  {
  }

  /** Two states of a connection that differ, as far as slots and charges go, at job `g` only. */
  ghost predicate DifferAt(c: Conn, c': Conn, g: nat) {
    && g in c.jobs && c'.jobs.Keys == c.jobs.Keys && 0 !in c.jobs
    && (c.pc == Replacing(RunJob) <==> c'.pc == Replacing(RunJob))
    && forall h | h in c.jobs && h != g ::
         c'.jobs[h] == c.jobs[h] && SlotAt(c'.pc, h) == SlotAt(c.pc, h) && ChargeAt(c'.pc, h) == ChargeAt(c.pc, h)
  }

  lemma RecountSlots(c: Conn, c': Conn, g: nat, gain: int)
    requires DifferAt(c, c', g)
    requires One(HasSlot(c'.pc, g, c'.jobs[g])) == One(HasSlot(c.pc, g, c.jobs[g])) + gain
    ensures |Slots(c')| == |Slots(c)| + gain
  {
    forall h | h != g
      ensures h in Slots(c') <==> h in Slots(c)
    {
    }
    ChangedAt(Slots(c), Slots(c'), g);
  }

  lemma RecountCharges(c: Conn, c': Conn, g: nat, gain: int)
    requires DifferAt(c, c', g)
    requires One(HasCharge(c'.pc, g, c'.jobs[g])) == One(HasCharge(c.pc, g, c.jobs[g])) + gain
    ensures |Charges(c')| == |Charges(c)| + gain
  {
    forall h | h != g
      ensures h in Charges(c') <==> h in Charges(c)
    {
    }
    ChangedAt(Charges(c), Charges(c'), g);
  }

  lemma JobFacts(c: Conn, g: nat)
    requires Inv(c) && g in c.jobs
    ensures JobOk(c.jobs[g]) && 0 !in c.jobs && (Busy(c.pc, g) ==> c.jobs[g].waiter.WaiterUnborn?)
  {
  }

  lemma WorkerAccounts(c: Conn, actor: Actor, l: Label, change: Change)
    requires !actor.Handler? && actor.gen in c.jobs && JobOk(c.jobs[actor.gen]) && 0 !in c.jobs
    requires Busy(c.pc, actor.gen) ==> c.jobs[actor.gen].waiter.WaiterUnborn?
    requires WorkerNext(c.st, c.jobs[actor.gen], actor, l) == Some(change)
    ensures var c' := c.(st := change.st, jobs := c.jobs[actor.gen := change.job]);
            |Slots(c')| == |Slots(c)| + SlotGain(l) && |Charges(c')| == |Charges(c)| + ChargeGain(l)
  {
    WorkerGains(c.st, c.jobs[actor.gen], c.pc, actor, l);
    var c' := c.(st := change.st, jobs := c.jobs[actor.gen := change.job]);
    RecountSlots(c, c', actor.gen, SlotGain(l));
    RecountCharges(c, c', actor.gen, ChargeGain(l));
  }

  lemma LaunchTarget(st: Shared, g: nat, j: Job, kind: Kind, stage: Stage, l: Label)
    requires LaunchNext(st, g, j, kind, stage, l).Some?
    ensures var pc := LaunchNext(st, g, j, kind, stage, l).value.pc;
            pc.Idle? || (pc.Launching? && pc.gen == g && pc.kind == kind)
  {
  }

  lemma LaunchAccounts(c: Conn, l: Label, m: Move)
    requires c.pc.Launching? && c.pc.gen in c.jobs && 0 !in c.jobs
    requires LaunchOk(c.st, c.pc.kind, c.pc.stage, c.jobs[c.pc.gen])
    requires LaunchNext(c.st, c.pc.gen, c.jobs[c.pc.gen], c.pc.kind, c.pc.stage, l) == Some(m)
    ensures var c' := c.(st := m.st, pc := m.pc, jobs := c.jobs[c.pc.gen := m.job]);
            |Slots(c')| == |Slots(c)| + SlotGain(l) && |Charges(c')| == |Charges(c)| + ChargeGain(l)
  {
    var g := c.pc.gen;
    LaunchGains(c.st, g, c.jobs[g], c.pc.kind, c.pc.stage, l);
    LaunchTarget(c.st, g, c.jobs[g], c.pc.kind, c.pc.stage, l);
    var c' := c.(st := m.st, pc := m.pc, jobs := c.jobs[g := m.job]);
    RecountSlots(c, c', g, SlotGain(l));
    RecountCharges(c, c', g, ChargeGain(l));
  }

  lemma ReplaceSlots(c: Conn, kind: Kind)
    requires Numbered(c) && c.pc == Replacing(kind)
    ensures Slots(Replaced(c, kind)) == Slots(c)
  {
    var c' := Replaced(c, kind);
    forall h | h in c'.jobs
      ensures h in Slots(c') <==> h in Slots(c)
    {
    }
  }

  /** The charge taken before the run has a generation passes to its job. */
  lemma ReplaceCharges(c: Conn, kind: Kind)
    requires Numbered(c) && c.pc == Replacing(kind)
    ensures var c' := Replaced(c, kind); Charges(c') - {c'.pc.gen} == Charges(c) - {0}
    ensures var c' := Replaced(c, kind); c'.pc.gen !in Charges(c) && 0 !in Charges(c')
    ensures var c' := Replaced(c, kind); c'.pc.gen in Charges(c') <==> 0 in Charges(c)
  {
  }

  lemma ReplaceAccounts(c: Conn, kind: Kind)
    requires Numbered(c) && c.pc == Replacing(kind)
    ensures |Slots(Replaced(c, kind))| == |Slots(c)| && |Charges(Replaced(c, kind))| == |Charges(c)|
  {
    ReplaceSlots(c, kind);
    ReplaceCharges(c, kind);
    Exchange(Charges(c), Charges(Replaced(c, kind)), 0, Replaced(c, kind).pc.gen);
  }

  lemma LoopTarget(c: Conn, c': Conn, l: Label)
    requires HandlerNext(c, l) == Some(c') && !c.pc.Launching? && !c.pc.Replacing?
    ensures c'.jobs == c.jobs && !c'.pc.Launching? && SlotGain(l) == 0
    ensures ChargeGain(l) == One(c'.pc == Replacing(RunJob))
  {
  }

  lemma SameHoldings(pc: Pc, pc': Pc)
    requires !pc.Launching? && !pc'.Launching?
    ensures forall g: nat, j: Job ::
              HasSlot(pc', g, j) == HasSlot(pc, g, j) && HasCharge(pc', g, j) == HasCharge(pc, g, j)
  {
  }

  lemma LoopAccounts(c: Conn, c': Conn, gain: int)
    requires !c.pc.Launching? && !c'.pc.Launching? && c.pc != Replacing(RunJob) && c'.jobs == c.jobs && 0 !in c.jobs
    requires gain == One(c'.pc == Replacing(RunJob))
    ensures |Slots(c')| == |Slots(c)| && |Charges(c')| == |Charges(c)| + gain
  {
    hide HasSlot, HasCharge;
    SameHoldings(c.pc, c'.pc);
    assert Slots(c') == Slots(c);
    assert Charges(c') - {0} == Charges(c) - {0};
    ChangedAt(Charges(c), Charges(c'), 0);
  }

  /** Conservation for one connection: a step changes the slots it holds, and the charges it owes,
      by exactly what its label says. */
  lemma NextAccounts(c: Conn, actor: Actor, l: Label)
    requires Inv(c) && Next(c, actor, l).Some?
    ensures var c' := Next(c, actor, l).value; |Slots(c')| == |Slots(c)| + SlotGain(l)
    ensures var c' := Next(c, actor, l).value; |Charges(c')| == |Charges(c)| + ChargeGain(l)
  {
    hide Slots, Charges, WorkerNext, LaunchNext, JobsOk, JobOk, LaunchOk, CurrentOk;
    if !actor.Handler? {
      JobFacts(c, actor.gen);
      WorkerAccounts(c, actor, l, WorkerNext(c.st, c.jobs[actor.gen], actor, l).value);
    } else if c.pc.Launching? {
      JobFacts(c, c.pc.gen);
      LaunchAccounts(c, l, LaunchNext(c.st, c.pc.gen, c.jobs[c.pc.gen], c.pc.kind, c.pc.stage, l).value);
    } else if c.pc.Replacing? {
      ReplaceAccounts(c, c.pc.kind);
    } else {
      LoopTarget(c, HandlerNext(c, l).value, l);
      LoopAccounts(c, HandlerNext(c, l).value, ChargeGain(l));
    }
  }

  /** What a step leaves of the containers it exposed. */
  ghost predicate ExposureOk(c: Conn, l: Label, c': Conn) {
    && Exposed(c) - Removed(l) <= Exposed(c')
    && (if l.Create? then l.id in Exposed(c') else Exposed(c') <= Exposed(c))
  }

  /** Goroutines drop the session only by the removal their label names, and create nothing. */
  lemma WorkerDrops(st: Shared, j: Job, actor: Actor, l: Label)
    requires !actor.Handler? && WorkerNext(st, j, actor, l).Some?
    ensures var st' := WorkerNext(st, j, actor, l).value.st;
            st'.session == st.session || (st'.session.None? && Removed(l) == {st.session.value})
    ensures !l.Create? && !l.Untrack? && !l.Track?
  {
  }

  lemma WorkerExposure(c: Conn, actor: Actor, l: Label)
    requires !actor.Handler? && Next(c, actor, l).Some?
    ensures ExposureOk(c, l, Next(c, actor, l).value)
  {
    hide WorkerNext;
    WorkerDrops(c.st, c.jobs[actor.gen], actor, l);
  }

  lemma LaunchExposure(c: Conn, l: Label, m: Move)
    requires PcOk(c) && c.pc.Launching?
    requires LaunchNext(c.st, c.pc.gen, c.jobs[c.pc.gen], c.pc.kind, c.pc.stage, l) == Some(m)
    ensures ExposureOk(c, l, c.(st := m.st, pc := m.pc, jobs := c.jobs[c.pc.gen := m.job]))
  {
    hide PhaseOf;
  }

  lemma LoopExposure(c: Conn, l: Label)
    requires !c.pc.Launching? && HandlerNext(c, l).Some?
    ensures ExposureOk(c, l, HandlerNext(c, l).value)
  {
  }

  /** Only a creation exposes a container, and only its removal ends the exposure. */
  lemma NextExposure(c: Conn, actor: Actor, l: Label)
    requires PcOk(c) && Next(c, actor, l).Some?
    ensures ExposureOk(c, l, Next(c, actor, l).value)
  {
    hide LaunchNext, LaunchOk;
    if !actor.Handler? {
      WorkerExposure(c, actor, l);
    } else if c.pc.Launching? {
      LaunchExposure(c, l, LaunchNext(c.st, c.pc.gen, c.jobs[c.pc.gen], c.pc.kind, c.pc.stage, l).value);
    } else {
      LoopExposure(c, l);
    }
  }

  ghost predicate TrackingOk(c: Conn, l: Label, c': Conn) {
    && Tracked(c) <= Tracked(c') + (if l.Untrack? then {l.id} else {})
    && (l.Track? ==> l.id in Tracked(c'))
    && c'.user == c.user
  }

  lemma LaunchTracking(c: Conn, l: Label, m: Move)
    requires PcOk(c) && c.pc.Launching?
    requires LaunchNext(c.st, c.pc.gen, c.jobs[c.pc.gen], c.pc.kind, c.pc.stage, l) == Some(m)
    ensures TrackingOk(c, l, c.(st := m.st, pc := m.pc, jobs := c.jobs[c.pc.gen := m.job]))
  {
    hide PhaseOf;
  }

  lemma NextTracking(c: Conn, actor: Actor, l: Label)
    requires PcOk(c) && Next(c, actor, l).Some?
    ensures TrackingOk(c, l, Next(c, actor, l).value)
  {
    hide LaunchNext, LaunchOk, WorkerNext;
    if !actor.Handler? {
      WorkerDrops(c.st, c.jobs[actor.gen], actor, l);
    } else if c.pc.Launching? {
      LaunchTracking(c, l, LaunchNext(c.st, c.pc.gen, c.jobs[c.pc.gen], c.pc.kind, c.pc.stage, l).value);
    }
  }

  /** A step of one connection as its shared surroundings see it. */
  ghost predicate Accounted(c: Conn, l: Label, c': Conn) {
    && |Slots(c')| == |Slots(c)| + SlotGain(l) && |Charges(c')| == |Charges(c)| + ChargeGain(l)
    && ExposureOk(c, l, c')
    && TrackingOk(c, l, c')
  }

  lemma NextAccounted(c: Conn, actor: Actor, l: Label)
    requires Inv(c) && Next(c, actor, l).Some?
    ensures Accounted(c, l, Next(c, actor, l).value)
  {
    hide Slots, Charges, HandlerNext, WorkerNext, JobsOk, ExposureOk, TrackingOk;
    NextAccounts(c, actor, l);
    NextExposure(c, actor, l);
    NextTracking(c, actor, l);
  }
}
