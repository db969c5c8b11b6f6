/** executor/lab.go and the lab messages of handler/websocket.go: who owns a lab's network and targets,
    and who removes them. */
module Labs {
  import opened Options

  /** Networks and containers have names of their own; the daemon reuses none. */
  type Name = nat

  // ----- the manager

  datatype LabFault = NoFault | NetworkFault | TargetFault | ConnectFault | StartFault

  class Daemon {
    var networks: set<Name>
    var containers: set<Name>
    var next: Name

    ghost predicate Valid()
      reads this
    {
      (forall n | n in networks :: n < next) && (forall c | c in containers :: c < next)
    }

    constructor ()
      ensures Valid() && networks == {} && containers == {}
    {
      networks, containers, next := {}, {}, 0;
    }

    method NetworkCreate() returns (id: Name)
      requires Valid()
      modifies this
      ensures Valid() && id !in old(networks) && networks == old(networks) + {id} && containers == old(containers)
      ensures id == old(next) && next == id + 1
    {
      id := next;
      networks, next := networks + {id}, next + 1;
    }

    method ContainerCreate() returns (id: Name)
      requires Valid()
      modifies this
      ensures Valid() && id !in old(containers) && containers == old(containers) + {id} && networks == old(networks)
      ensures id == old(next) && next == id + 1
    {
      id := next;
      containers, next := containers + {id}, next + 1;
    }

    method ContainerRemove(id: Name)
      requires Valid()
      modifies this
      ensures Valid() && containers == old(containers) - {id} && networks == old(networks) && next == old(next)
    {
      containers := containers - {id};
    }

    method NetworkRemove(id: Name)
      requires Valid()
      modifies this
      ensures Valid() && networks == old(networks) - {id} && containers == old(containers) && next == old(next)
    {
      networks := networks - {id};
    }
  }

  class LabSession {
    const networkId: Name
    var studentId: Option<Name>
    var targetIds: seq<Name>
    var cancelled: bool

    constructor (networkId: Name)
      ensures this.networkId == networkId && studentId == None && targetIds == [] && !cancelled
    {
      this.networkId := networkId;
      studentId, targetIds, cancelled := None, [], false;
    }
  }

  class LabManager {
    const daemon: Daemon

    constructor (daemon: Daemon)
      ensures this.daemon == daemon
    {
      this.daemon := daemon;
    }

    /** `StartLab`.  A failure leaves nothing behind exactly when it comes before the target exists; after
        that the target container stays, unowned. */
    method StartLab(fault: LabFault) returns (lab: Option<LabSession>)
      requires daemon.Valid()
      modifies daemon
      ensures daemon.Valid() && (lab.None? <==> fault != NoFault)
      ensures lab.None? ==> daemon.networks == old(daemon.networks)
      ensures lab.None? ==>
                (daemon.containers == old(daemon.containers) <==> fault == NetworkFault || fault == TargetFault)
      ensures lab.None? ==> old(daemon.containers) <= daemon.containers
      ensures lab.Some? ==>
                var l := lab.value;
                && fresh(l) && l.studentId == None && !l.cancelled && |l.targetIds| == 1
                && l.networkId !in old(daemon.networks) && daemon.networks == old(daemon.networks) + {l.networkId}
                && l.targetIds[0] !in old(daemon.containers)
                && daemon.containers == old(daemon.containers) + {l.targetIds[0]}
    {
      if fault == NetworkFault {
        return None;
      }
      var networkId := daemon.NetworkCreate();
      var session := new LabSession(networkId);
      if fault == TargetFault {
        session.cancelled := true;
        daemon.NetworkRemove(networkId);
        return None;
      }
      var target := daemon.ContainerCreate();
      session.targetIds := session.targetIds + [target];
      if fault == ConnectFault {
        session.cancelled := true;
        daemon.NetworkRemove(networkId);
        return None;
      }
      if fault == StartFault {
        session.cancelled := true;
        daemon.NetworkRemove(networkId);
        return None;
      }
      return Some(session);
    }

    /** `StopLab`, also on a lab that is already stopped. */
    method StopLab(lab: LabSession)
      requires daemon.Valid()
      modifies daemon, lab
      ensures daemon.Valid() && lab.cancelled
      ensures lab.targetIds == old(lab.targetIds) && lab.studentId == old(lab.studentId)
      ensures daemon.networks == old(daemon.networks) - {lab.networkId}
      ensures daemon.containers == old(daemon.containers) - (set c | c in lab.targetIds)
                                   - (if lab.studentId.Some? then {lab.studentId.value} else {})
    {
      lab.cancelled := true;
      if lab.studentId.Some? {
        daemon.ContainerRemove(lab.studentId.value);
      }
      ghost var before := daemon.containers;
      for i := 0 to |lab.targetIds|
        invariant daemon.Valid() && lab.cancelled
        invariant lab.targetIds == old(lab.targetIds) && lab.studentId == old(lab.studentId)
        invariant daemon.networks == old(daemon.networks)
        invariant daemon.containers == before - (set c | c in lab.targetIds[..i])
      {
        assert lab.targetIds[..i + 1] == lab.targetIds[..i] + [lab.targetIds[i]];
        daemon.ContainerRemove(lab.targetIds[i]);
      }
      assert lab.targetIds[..|lab.targetIds|] == lab.targetIds;
      daemon.NetworkRemove(lab.networkId);
    }
  }

  // ----- many sessions, expiry goroutines and stops at once

  /** A lab is known by its network.  `begun` and `finished` record whether some `StopLab` call on it has
      begun, and whether one has finished. */
  datatype Lab = Lab(targets: seq<Name>, student: Option<Name>, expiring: bool, begun: bool, finished: bool)

  /** A running or finished `StopLab` call. */
  datatype StopAt = AtStudent | AtTargets(rest: seq<Name>) | AtNetwork | StopDone
  datatype Stop = Stop(lab: Name, at: StopAt)

  datatype Continuation = ThenCreate | ThenIdle | ThenClosed

  /** What a session's message loop is doing about labs. */
  datatype LabPc = LabIdle | Creating | Holding(lab: Name) | Awaiting(stop: nat, next: Continuation) | LabClosed

  /** `cur` is `st.lab`; `started` collects every lab `StartLab` gave this session. */
  datatype LabConn = LabConn(cur: Option<Name>, pc: LabPc, started: set<Name>)

  /** `reaped` records what the reaper has removed, `leaked` the targets that failed starts left behind; the
      program records neither. */
  datatype World = World(
    networks: set<Name>,
    containers: set<Name>,
    reaped: set<Name>,
    leaked: set<Name>,
    next: Name,
    students: set<Name>,
    labs: map<Name, Lab>,
    stops: map<nat, Stop>,
    conns: map<nat, LabConn>)

  // ----- what can happen to the world

  datatype Deed =
    | NoDeed
    | Begin(stop: nat, lab: Name, byExpiry: bool)
    | Advance(stop: nat)
    | Launch
    | FailLaunch(leaks: bool)
    | EndExpiry(lab: Name)
    | NewStudent
    | NoteStudent(lab: Name, student: Name)
    | StudentGone(student: Name)
    | Reap(victim: Name)

  predicate CanDo(w: World, d: Deed) {
    match d
    case Begin(stop, lab, _) => stop !in w.stops && lab in w.labs
    case Advance(stop) => stop in w.stops && w.stops[stop].lab in w.labs
    case EndExpiry(lab) => lab in w.labs
    case NoteStudent(lab, student) => lab in w.labs && student in w.students
    case StudentGone(student) => student in w.students
    case _ => true
  }

  /** One step of a `StopLab` call: the student, then each target, then the network (lines 203-214). */
  function AdvanceStop(w: World, k: nat): World
    requires k in w.stops && w.stops[k].lab in w.labs
  {
    var Stop(lab, at) := w.stops[k];
    var l := w.labs[lab];
    match at
    case AtStudent =>
      w.(containers := if l.student.Some? then w.containers - {l.student.value} else w.containers,
         stops := w.stops[k := Stop(lab, AtTargets(l.targets))])
    case AtTargets(rest) =>
      if rest == [] then w.(stops := w.stops[k := Stop(lab, AtNetwork)])
      else w.(containers := w.containers - {rest[0]}, stops := w.stops[k := Stop(lab, AtTargets(rest[1..]))])
    case AtNetwork =>
      w.(networks := w.networks - {lab}, stops := w.stops[k := Stop(lab, StopDone)],
         labs := w.labs[lab := l.(finished := true)])
    case StopDone => w
  }

  function Do(w: World, d: Deed): World
    requires CanDo(w, d)
  {
    match d
    case NoDeed => w
    case Begin(stop, lab, byExpiry) =>
      var l := w.labs[lab];
      w.(stops := w.stops[stop := Stop(lab, AtStudent)],
         labs := w.labs[lab := l.(begun := true, expiring := l.expiring && !byExpiry)])
    case Advance(stop) => AdvanceStop(w, stop)
    case Launch =>
      w.(networks := w.networks + {w.next}, containers := w.containers + {w.next + 1}, next := w.next + 2,
         labs := w.labs[w.next := Lab([w.next + 1], None, true, false, false)])
    case FailLaunch(leaks) =>
      if leaks then w.(containers := w.containers + {w.next}, leaked := w.leaked + {w.next}, next := w.next + 1)
      else w.(next := w.next + 1)
    case EndExpiry(lab) => w.(labs := w.labs[lab := w.labs[lab].(expiring := false)])
    case NewStudent => w.(containers := w.containers + {w.next}, students := w.students + {w.next}, next := w.next + 1)
    case NoteStudent(lab, student) => w.(labs := w.labs[lab := w.labs[lab].(student := Some(student))])
    case StudentGone(student) => w.(containers := w.containers - {student})
    case Reap(victim) => w.(containers := w.containers - {victim}, reaped := w.reaped + {victim})
  }

  // ----- one session's message loop

  datatype Message =
    | StartMessage(stop: nat)
    | BadConfig
    | LabStarts
    | LabFails(leaks: bool)
    | StoreLab
    | StopMessage(stop: nat)
    | CloseSession(stop: nat)
    | StopReturns
    | RunStarts(student: Name)

  function AfterStop(conn: LabConn, next: Continuation): LabConn {
    match next
    case ThenCreate => conn.(cur := None, pc := Creating)
    case ThenIdle => conn.(pc := LabIdle)
    case ThenClosed => conn.(cur := None, pc := LabClosed)
  }

  /** The loop's next state and what it does to the world: `handleLabStart`, `handleLabStop`, the
      connection's deferred clean-up, and the line of `handleRunMessage` that notes the student. */
  function ConnNext(w: World, conn: LabConn, m: Message): Option<(LabConn, Deed)> {
    match m
    case StartMessage(k) =>
      if !conn.pc.LabIdle? then None
      else if conn.cur.Some? then Some((conn.(pc := Awaiting(k, ThenCreate)), Begin(k, conn.cur.value, false)))
      else Some((conn.(pc := Creating), NoDeed))
    case BadConfig => if conn.pc.Creating? then Some((conn.(pc := LabIdle), NoDeed)) else None
    case LabStarts =>
      if conn.pc.Creating? then Some((conn.(pc := Holding(w.next), started := conn.started + {w.next}), Launch))
      else None
    case LabFails(leaks) => if conn.pc.Creating? then Some((conn.(pc := LabIdle), FailLaunch(leaks))) else None
    case StoreLab => if conn.pc.Holding? then Some((conn.(cur := Some(conn.pc.lab), pc := LabIdle), NoDeed)) else None
    case StopMessage(k) =>
      if !conn.pc.LabIdle? then None
      else if conn.cur.Some? then
        Some((conn.(cur := None, pc := Awaiting(k, ThenIdle)), Begin(k, conn.cur.value, false)))
      else Some((conn, NoDeed))
    case CloseSession(k) =>
      if !conn.pc.LabIdle? then None
      else if conn.cur.Some? then Some((conn.(pc := Awaiting(k, ThenClosed)), Begin(k, conn.cur.value, false)))
      else Some((conn.(pc := LabClosed), NoDeed))
    case StopReturns =>
      if conn.pc.Awaiting? && conn.pc.stop in w.stops && w.stops[conn.pc.stop].at.StopDone? then
        Some((AfterStop(conn, conn.pc.next), NoDeed))
      else None
    case RunStarts(student) =>
      if conn.pc.LabIdle? && conn.cur.Some? then Some((conn, NoteStudent(conn.cur.value, student))) else None
  }

  datatype LabEvent = Connect(c: nat) | Act(c: nat, m: Message) | Happen(d: Deed)

  /** What happens apart from the message loops: stops advance, expiry goroutines fire or notice that
      they were cancelled, students' containers come and go, and the reaper may remove any container: a
      lab whose target uses a student's image is not safe from it. */
  predicate Spontaneous(w: World, d: Deed) {
    match d
    case Advance(_) => true
    case Begin(_, lab, byExpiry) => byExpiry && lab in w.labs && w.labs[lab].expiring
    case EndExpiry(lab) => lab in w.labs && w.labs[lab].begun
    case NewStudent => true
    case StudentGone(_) => true
    case Reap(_) => true
    case _ => false
  }

  function LabNext(w: World, e: LabEvent): Option<World> {
    match e
    case Connect(c) => if c in w.conns then None else Some(w.(conns := w.conns[c := LabConn(None, LabIdle, {})]))
    case Happen(d) => if Spontaneous(w, d) && CanDo(w, d) then Some(Do(w, d)) else None
    case Act(c, m) =>
      if c !in w.conns then None
      else
        match ConnNext(w, w.conns[c], m)
        case None => None
        case Some((conn, d)) => if CanDo(w, d) then Some(Do(w, d).(conns := w.conns[c := conn])) else None
  }

  const EMPTY_WORLD: World := World({}, {}, {}, {}, 0, {}, map[], map[], map[])

  ghost predicate LabRun(ws: seq<World>, es: seq<LabEvent>) {
    && |ws| == |es| + 1 && ws[0] == EMPTY_WORLD
    && forall i | 0 <= i < |es| :: LabNext(ws[i], es[i]) == Some(ws[i + 1])
  }

  // ----- the invariant

  /** Names are used once: no target belongs to two labs or is a student's container. */
  ghost predicate NamesOk(w: World) {
    && (forall s | s in w.students :: s < w.next)
    && (forall l | l in w.labs ::
          && l < w.next
          && (forall t | t in w.labs[l].targets :: t < w.next)
          && (forall t | t in w.labs[l].targets :: t !in w.students)
          && (w.labs[l].student.Some? ==> w.labs[l].student.value in w.students))
    && (forall l, m | l in w.labs && m in w.labs && l != m ::
          forall t | t in w.labs[l].targets :: t !in w.labs[m].targets)
  }

  /** A `StopLab` call has removed what it has passed. */
  ghost predicate StopOk(w: World, s: Stop) {
    && s.lab in w.labs && w.labs[s.lab].begun
    && (s.at.AtTargets? ==>
          && (forall t | t in s.at.rest :: t in w.labs[s.lab].targets)
          && (forall t | t in w.labs[s.lab].targets :: t in s.at.rest || t !in w.containers))
    && (s.at.AtNetwork? ==> forall t | t in w.labs[s.lab].targets :: t !in w.containers)
    && (s.at.StopDone? ==> w.labs[s.lab].finished)
  }

  /** A lab nobody has stopped is whole, but for the reaper; a lab somebody has finished stopping is gone. */
  ghost predicate LabOk(w: World, l: Name) {
    l in w.labs ==>
      && (!w.labs[l].begun ==>
            l in w.networks && forall t | t in w.labs[l].targets :: t in w.containers || t in w.reaped)
      && (w.labs[l].finished ==> l !in w.networks && forall t | t in w.labs[l].targets :: t !in w.containers)
  }

  /** A session answers for every lab it ever started. */
  ghost predicate OwnerOk(w: World, conn: LabConn) {
    && (forall l | l in conn.started ::
          && l in w.labs
          && (conn.cur == Some(l) || conn.pc == Holding(l) || w.labs[l].finished
              || (conn.pc.Awaiting? && conn.pc.stop in w.stops && w.stops[conn.pc.stop].lab == l)))
    && (conn.cur.Some? ==> conn.cur.value in conn.started)
    && (conn.pc.Holding? ==> conn.pc.lab in conn.started)
    && (conn.pc.Holding? || conn.pc.Creating? || conn.pc.LabClosed? ==> conn.cur.None?)
    && (conn.pc.Awaiting? ==>
          conn.pc.stop in w.stops && (conn.cur.Some? ==> conn.cur == Some(w.stops[conn.pc.stop].lab)))
    && (conn.pc.Awaiting? && conn.pc.next.ThenIdle? ==> conn.cur.None?)
  }

  ghost predicate WorldInv(w: World) {
    && NamesOk(w)
    && StopsOk(w)
    && (forall l | l in w.labs :: LabOk(w, l))
    && (forall c | c in w.conns :: OwnerOk(w, w.conns[c]))
  }

  /** What no deed undoes. */
  ghost predicate Grows(w: World, w': World) {
    && w.next <= w'.next && w.reaped <= w'.reaped
    && (forall l | l in w.labs :: l in w'.labs && w'.labs[l].targets == w.labs[l].targets
                                  && (w.labs[l].begun ==> w'.labs[l].begun)
                                  && (w.labs[l].finished ==> w'.labs[l].finished))
    && (forall k | k in w.stops :: k in w'.stops && w'.stops[k].lab == w.stops[k].lab)
    && (forall c | c in w'.containers :: c in w.containers || c >= w.next)
    && (forall n | n in w'.networks :: n in w.networks || n >= w.next)
  }

  lemma AdvanceGrows(w: World, k: nat)
    requires k in w.stops && w.stops[k].lab in w.labs
    ensures Grows(w, AdvanceStop(w, k))
    ensures var w' := AdvanceStop(w, k);
            w'.conns == w.conns && w'.students == w.students && w'.next == w.next && w'.labs.Keys == w.labs.Keys
            && forall l | l in w.labs :: w'.labs[l].student == w.labs[l].student
  {
  }

  lemma LaunchGrows(w: World)
    requires NamesOk(w)
    ensures Grows(w, Do(w, Launch)) && Do(w, Launch).conns == w.conns
  {
  }

  lemma OtherDeedGrows(w: World, d: Deed)
    requires CanDo(w, d) && !d.Launch? && !d.Advance?
    ensures Grows(w, Do(w, d)) && Do(w, d).conns == w.conns
  {
  }

  lemma DeedGrows(w: World, d: Deed)
    requires NamesOk(w) && CanDo(w, d)
    ensures Grows(w, Do(w, d)) && Do(w, d).conns == w.conns
  {
    hide AdvanceStop, Grows, NamesOk;
    match d
    case Launch => LaunchGrows(w);
    case Advance(k) => AdvanceGrows(w, k);
    case _ => OtherDeedGrows(w, d);
  }

  lemma LaunchNames(w: World)
    requires NamesOk(w)
    ensures NamesOk(Do(w, Launch))
  {
  }

  lemma SameNames(w: World, w': World)
    requires NamesOk(w) && Grows(w, w') && w'.labs.Keys == w.labs.Keys
    requires w.students <= w'.students <= w.students + {w.next} && forall s | s in w'.students :: s < w'.next
    requires forall l | l in w.labs && w'.labs[l].student.Some? :: w'.labs[l].student.value in w.students
    ensures NamesOk(w')
  {
  }

  lemma DeedNames(w: World, d: Deed)
    requires NamesOk(w) && CanDo(w, d)
    ensures NamesOk(Do(w, d))
  {
    hide AdvanceStop, Grows;
    DeedGrows(w, d);
    match d
    case Launch => LaunchNames(w);
    case Advance(k) => AdvanceGrows(w, k); SameNames(w, Do(w, d));
    case _ => SameNames(w, Do(w, d));
  }

  lemma StopStays(w: World, w': World, s: Stop)
    requires NamesOk(w) && Grows(w, w') && StopOk(w, s)
    ensures StopOk(w', s)
  {
  }

  lemma AdvancedStopOk(w: World, k: nat)
    requires NamesOk(w) && k in w.stops && StopOk(w, w.stops[k])
    ensures StopOk(AdvanceStop(w, k), AdvanceStop(w, k).stops[k])
  {
  }

  ghost predicate StopsOk(w: World) {
    forall k | k in w.stops :: StopOk(w, w.stops[k])
  }

  lemma DeedStops(w: World, d: Deed)
    requires NamesOk(w) && CanDo(w, d) && StopsOk(w)
    ensures StopsOk(Do(w, d))
  {
    hide NamesOk, Grows;
    var w' := Do(w, d);
    DeedGrows(w, d);
    forall k | k in w'.stops
      ensures StopOk(w', w'.stops[k])
    {
      if d == Advance(k) {
        AdvancedStopOk(w, k);
      } else if k in w.stops {
        StopStays(w, w', w.stops[k]);
      }
    }
  }

  lemma DeedLabs(w: World, d: Deed)
    requires NamesOk(w) && CanDo(w, d) && StopsOk(w) && forall l | l in w.labs :: LabOk(w, l)
    ensures forall l | l in Do(w, d).labs :: LabOk(Do(w, d), l)
  {
    var w' := Do(w, d);
    if d.Advance? {
      AdvanceLabs(w, d.stop);
    } else {
      forall l | l in w'.labs
        ensures LabOk(w', l)
      {
        assert l in w.labs ==> LabOk(w, l);
      }
    }
  }

  lemma AdvanceLabs(w: World, k: nat)
    requires NamesOk(w) && k in w.stops && StopOk(w, w.stops[k]) && forall l | l in w.labs :: LabOk(w, l)
    ensures forall l | l in w.labs :: LabOk(AdvanceStop(w, k), l)
  {
    forall l | l in w.labs
      ensures LabOk(AdvanceStop(w, k), l)
    {
      assert LabOk(w, l);
    }
  }

  lemma OwnerStays(w: World, w': World, conn: LabConn)
    requires Grows(w, w') && OwnerOk(w, conn)
    ensures OwnerOk(w', conn)
  {
  }

  /** The world after a message's deed, as far as its own session can tell. */
  ghost predicate Accommodates(w: World, d: Deed, w': World) {
    && Grows(w, w')
    && (d.Begin? ==> d.stop in w'.stops && w'.stops[d.stop].lab == d.lab)
    && (d.Launch? ==> w.next in w'.labs)
  }

  lemma DeedAccommodates(w: World, d: Deed)
    requires NamesOk(w) && CanDo(w, d)
    ensures Accommodates(w, d, Do(w, d))
  {
    hide AdvanceStop, NamesOk, Grows;
    DeedGrows(w, d);
  }

  lemma ActorOwns(w: World, conn: LabConn, m: Message, conn': LabConn, d: Deed, w': World)
    requires StopsOk(w) && OwnerOk(w, conn) && ConnNext(w, conn, m) == Some((conn', d)) && Accommodates(w, d, w')
    ensures OwnerOk(w', conn')
  {
    OwnerStays(w, w', conn);
  }

  lemma DeedOwners(w: World, d: Deed)
    requires NamesOk(w) && CanDo(w, d) && forall c | c in w.conns :: OwnerOk(w, w.conns[c])
    ensures forall c | c in w.conns :: OwnerOk(Do(w, d), w.conns[c])
  {
    hide Do, NamesOk, Grows, OwnerOk;
    DeedGrows(w, d);
    forall c | c in w.conns
      ensures OwnerOk(Do(w, d), w.conns[c])
    {
      OwnerStays(w, Do(w, d), w.conns[c]);
    }
  }

  /** The invariant speaks of the session loops only through `conns`. */
  lemma LoopsAside(w: World, w': World)
    requires w' == w.(conns := w'.conns)
    ensures NamesOk(w') == NamesOk(w) && (StopsOk(w) ==> StopsOk(w')) && (forall l | LabOk(w, l) :: LabOk(w', l))
    ensures forall conn | OwnerOk(w, conn) :: OwnerOk(w', conn)
  {
  }

  lemma DeedKeepsInv(w: World, d: Deed)
    requires WorldInv(w) && CanDo(w, d)
    ensures WorldInv(Do(w, d))
  {
    hide Do, NamesOk, StopOk, LabOk, OwnerOk;
    DeedGrows(w, d);
    DeedNames(w, d);
    DeedStops(w, d);
    DeedLabs(w, d);
    DeedOwners(w, d);
  }

  lemma LabStepKeepsInv(w: World, e: LabEvent, w': World)
    requires WorldInv(w) && LabNext(w, e) == Some(w')
    ensures WorldInv(w')
  {
    hide Do, ConnNext, CanDo, NamesOk, StopOk, LabOk, OwnerOk, Accommodates;
    match e
    case Connect(c) =>
      LoopsAside(w, w');
      FreshOwnsNothing(w');
    case Happen(d) =>
      DeedKeepsInv(w, d);
    case Act(c, m) =>
      var (conn, d) := ConnNext(w, w.conns[c], m).value;
      DeedKeepsInv(w, d);
      DeedGrows(w, d);
      DeedAccommodates(w, d);
      ActorOwns(w, w.conns[c], m, conn, d, Do(w, d));
      LoopsAside(Do(w, d), w');
  }

  lemma FreshOwnsNothing(w: World)
    ensures OwnerOk(w, LabConn(None, LabIdle, {}))
  {
  }

  lemma WorldGrows(w: World, e: LabEvent, w': World)
    requires NamesOk(w) && LabNext(w, e) == Some(w')
    ensures Grows(w, w')
  {
    hide Do, ConnNext, CanDo, NamesOk;
    match e
    case Connect(_) =>
    case Happen(d) => DeedGrows(w, d);
    case Act(c, m) => DeedGrows(w, ConnNext(w, w.conns[c], m).value.1);
  }

  lemma {:induction false} LabsAlways(ws: seq<World>, es: seq<LabEvent>, i: nat)
    requires LabRun(ws, es) && i < |ws|
    ensures WorldInv(ws[i])
    decreases i
  {
    hide LabNext;
    if i > 0 {
      LabsAlways(ws, es, i - 1);
      LabStepKeepsInv(ws[i - 1], es[i - 1], ws[i]);
    }
  }

  // ----- what follows

  /** Between messages, every lab a session ever started is the current one or has been stopped to the
      end.  Once the session has closed, no network and no target of any lab it started is left. */
  lemma SessionsOwnTheirLabs(ws: seq<World>, es: seq<LabEvent>, i: nat, c: nat, l: Name)
    requires LabRun(ws, es) && i < |ws| && c in ws[i].conns && l in ws[i].conns[c].started
    ensures l in ws[i].labs
    ensures ws[i].conns[c].pc.LabIdle? ==> ws[i].conns[c].cur == Some(l) || ws[i].labs[l].finished
    ensures ws[i].conns[c].pc.LabClosed? ==>
              l !in ws[i].networks && forall t | t in ws[i].labs[l].targets :: t !in ws[i].containers
  {
    LabsAlways(ws, es, i);
    assert OwnerOk(ws[i], ws[i].conns[c]) && LabOk(ws[i], l);
  }

  /** A stop in progress on lab `l` takes its next step. */
  predicate StopsLab(w: World, e: LabEvent, l: Name) {
    e.Happen? && e.d.Advance? && e.d.stop in w.stops && w.stops[e.d.stop].lab == l
  }

  lemma DeedSpares(w: World, d: Deed, l: Name)
    requires NamesOk(w) && StopsOk(w) && CanDo(w, d) && l in w.labs
    requires !(d.Advance? && w.stops[d.stop].lab == l)
    ensures l in Do(w, d).networks <==> l in w.networks
    ensures forall t | t in w.labs[l].targets && d != Reap(t) :: t in Do(w, d).containers <==> t in w.containers
  {
    if d.Advance? {
      assert StopOk(w, w.stops[d.stop]);
    }
  }

  /** Stopping is selective: whatever happens, be it the start, the stop or the expiry of other labs, in any
      interleaving, only a step of a `StopLab` call on lab `l` itself touches its network, and only such a
      step or the reaper its targets.  This holds of a lab at any time, also while it is being stopped. */
  lemma OnlyItsOwnStopTouches(ws: seq<World>, es: seq<LabEvent>, i: nat, l: Name)
    requires LabRun(ws, es) && i < |es| && l in ws[i].labs && !StopsLab(ws[i], es[i], l)
    ensures l in ws[i + 1].networks <==> l in ws[i].networks
    ensures forall t | t in ws[i].labs[l].targets && es[i] != Happen(Reap(t)) ::
              t in ws[i + 1].containers <==> t in ws[i].containers
  {
    hide Do, ConnNext, NamesOk, StopOk, LabOk, OwnerOk;
    LabsAlways(ws, es, i);
    assert LabNext(ws[i], es[i]) == Some(ws[i + 1]);
    match es[i]
    case Connect(_) =>
    case Happen(d) => DeedSpares(ws[i], d, l);
    case Act(c, m) =>
      LoopsOnlyBegin(ws[i], ws[i].conns[c], m);
      DeedSpares(ws[i], ConnNext(ws[i], ws[i].conns[c], m).value.1, l);
  }

  /** Messages start stops and do not advance them, nor reap. */
  lemma LoopsOnlyBegin(w: World, conn: LabConn, m: Message)
    requires ConnNext(w, conn, m).Some?
    ensures var d := ConnNext(w, conn, m).value.1; !d.Advance? && !d.Reap?
  {
  }

  /** So, however often and however concurrently other labs are stopped, by hand, by expiry or on close, a
      lab on which `StopLab` was never called keeps its network, and its targets but for the reaper. */
  lemma StoppingSparesOthers(ws: seq<World>, es: seq<LabEvent>, i: nat, l: Name)
    requires LabRun(ws, es) && i < |ws| && l in ws[i].labs
    requires forall k | k in ws[i].stops :: ws[i].stops[k].lab != l
    ensures l in ws[i].networks
    ensures forall t | t in ws[i].labs[l].targets :: t in ws[i].containers || t in ws[i].reaped
  {
    LabsAlways(ws, es, i);
    if ws[i].labs[l].begun {
      BegunMeansStop(ws, es, i, l);
    }
    assert LabOk(ws[i], l);
  }

  lemma BegunStep(w: World, d: Deed, l: Name)
    requires CanDo(w, d) && l in Do(w, d).labs && Do(w, d).labs[l].begun && !(l in w.labs && w.labs[l].begun)
    ensures exists k :: k in Do(w, d).stops && Do(w, d).stops[k].lab == l
  {
    assert d.Begin? && d.stop in Do(w, d).stops;
  }

  lemma BegunEvent(w: World, e: LabEvent, w': World, l: Name)
    requires LabNext(w, e) == Some(w') && l in w'.labs && w'.labs[l].begun && !(l in w.labs && w.labs[l].begun)
    ensures exists k :: k in w'.stops && w'.stops[k].lab == l
  {
    hide Do, ConnNext, CanDo;
    match e
    case Connect(_) =>
    case Happen(d) => BegunStep(w, d, l);
    case Act(c, m) => BegunStep(w, ConnNext(w, w.conns[c], m).value.1, l);
  }

  lemma {:induction false} BegunMeansStop(ws: seq<World>, es: seq<LabEvent>, i: nat, l: Name)
    requires LabRun(ws, es) && i < |ws| && l in ws[i].labs && ws[i].labs[l].begun
    ensures exists k :: k in ws[i].stops && ws[i].stops[k].lab == l
    decreases i
  {
    hide LabNext;
    if i > 0 {
      LabsAlways(ws, es, i - 1);
      WorldGrows(ws[i - 1], es[i - 1], ws[i]);
      if l in ws[i - 1].labs && ws[i - 1].labs[l].begun {
        BegunMeansStop(ws, es, i - 1, l);
        var k :| k in ws[i - 1].stops && ws[i - 1].stops[k].lab == l;
        assert k in ws[i].stops && ws[i].stops[k].lab == l;
      } else {
        BegunEvent(ws[i - 1], es[i - 1], ws[i], l);
      }
    }
  }

  /** Stopping is final: once some `StopLab` call on a lab has finished, the lab's network and targets are
      gone, and stay gone. */
  lemma {:induction false} StoppingIsFinal(ws: seq<World>, es: seq<LabEvent>, i: nat, j: nat, k: nat)
    requires LabRun(ws, es) && i <= j < |ws| && k in ws[i].stops && ws[i].stops[k].at.StopDone?
    ensures var l := ws[i].stops[k].lab;
            && l in ws[j].labs && l !in ws[j].networks
            && forall t | t in ws[j].labs[l].targets :: t !in ws[j].containers
    decreases j
  {
    var l := ws[i].stops[k].lab;
    LabsAlways(ws, es, j);
    FinishedStays(ws, es, i, j, l);
    assert LabOk(ws[j], l);
  }

  lemma {:induction false} FinishedStays(ws: seq<World>, es: seq<LabEvent>, i: nat, j: nat, l: Name)
    requires LabRun(ws, es) && i <= j < |ws|
    requires exists k :: k in ws[i].stops && ws[i].stops[k].at.StopDone? && ws[i].stops[k].lab == l
    ensures l in ws[j].labs && ws[j].labs[l].finished
    decreases j
  {
    hide LabNext;
    LabsAlways(ws, es, i);
    if i < j {
      FinishedStays(ws, es, i, j - 1, l);
      LabsAlways(ws, es, j - 1);
      WorldGrows(ws[j - 1], es[j - 1], ws[j]);
    } else {
      var k :| k in ws[i].stops && ws[i].stops[k].at.StopDone? && ws[i].stops[k].lab == l;
      assert StopOk(ws[i], ws[i].stops[k]);
    }
  }

  // ----- when every session has closed

  ghost predicate IsTarget(w: World, c: Name) {
    exists l :: l in w.labs && c in w.labs[l].targets
  }

  ghost predicate IsStarted(w: World, l: Name) {
    exists c :: c in w.conns && l in w.conns[c].started
  }

  /** Every network is a lab's, every lab was started by a session, and every container is a student's, a
      lab's target or the remains of a failed start. */
  ghost predicate Provenance(w: World) {
    && (forall n | n in w.networks :: n in w.labs)
    && (forall l | l in w.labs :: IsStarted(w, l))
    && (forall c | c in w.containers :: c in w.students || c in w.leaked || IsTarget(w, c))
  }

  /** Where the networks, labs and containers of `Do(w, d)` come from. */
  lemma DeedProvenance(w: World, d: Deed)
    requires NamesOk(w) && CanDo(w, d)
    requires forall c | c in w.containers :: c in w.students || c in w.leaked || IsTarget(w, c)
    ensures forall n | n in Do(w, d).networks :: n in w.networks || (d.Launch? && n == w.next)
    ensures forall l | l in Do(w, d).labs :: l in w.labs || (d.Launch? && l == w.next)
    ensures d.Launch? ==> w.next in Do(w, d).labs
    ensures forall c | c in Do(w, d).containers ::
              c in Do(w, d).students || c in Do(w, d).leaked || IsTarget(Do(w, d), c)
  {
    var w' := Do(w, d);
    forall c | c in w'.containers
      ensures c in w'.students || c in w'.leaked || IsTarget(w', c)
    {
      if d.Launch? && c == w.next + 1 {
        assert w.next in w'.labs && c in w'.labs[w.next].targets;
      } else if c in w.containers && IsTarget(w, c) {
        var l :| l in w.labs && c in w.labs[l].targets;
        TargetStays(w, d, l, c);
      }
    }
  }

  lemma TargetStays(w: World, d: Deed, l: Name, c: Name)
    requires CanDo(w, d) && l in w.labs && c in w.labs[l].targets && !(d.Launch? && l == w.next)
    ensures IsTarget(Do(w, d), c)
  {
    assert l in Do(w, d).labs && c in Do(w, d).labs[l].targets;
  }

  /** A session forgets none of its labs, and notes the one it starts. */
  lemma LoopsRemember(w: World, conn: LabConn, m: Message)
    requires ConnNext(w, conn, m).Some?
    ensures var (conn', d) := ConnNext(w, conn, m).value;
            conn.started <= conn'.started && (d.Launch? ==> w.next in conn'.started)
  {
  }

  lemma StartedStays(w: World, w': World, l: Name)
    requires IsStarted(w, l) && forall c | c in w.conns :: c in w'.conns && w.conns[c].started <= w'.conns[c].started
    ensures IsStarted(w', l)
  {
    var c :| c in w.conns && l in w.conns[c].started;
    assert c in w'.conns && l in w'.conns[c].started;
  }

  lemma StepProvenance(w: World, e: LabEvent, w': World)
    requires NamesOk(w) && Provenance(w) && LabNext(w, e) == Some(w')
    ensures Provenance(w')
  {
    hide Do, ConnNext, CanDo, Spontaneous, NamesOk, IsTarget, IsStarted;
    match e
    case Connect(c) =>
      SameTargets(w, w');
      forall l | l in w.labs
        ensures IsStarted(w', l)
      {
        StartedStays(w, w', l);
      }
    case Happen(d) =>
      HappeningsLaunchNothing(w, d);
      DeedGrows(w, d);
      DeedProvenance(w, d);
      forall l | l in w.labs
        ensures IsStarted(w', l)
      {
        StartedStays(w, w', l);
      }
    case Act(c, m) =>
      var (conn, d) := ConnNext(w, w.conns[c], m).value;
      DeedGrows(w, d);
      DeedProvenance(w, d);
      LoopsRemember(w, w.conns[c], m);
      SameTargets(Do(w, d), w');
      forall l | l in w'.labs
        ensures IsStarted(w', l)
      {
        if l in w.labs {
          StartedStays(w, w', l);
        } else {
          NowStarted(w', c, l);
        }
      }
  }

  lemma NowStarted(w: World, c: nat, l: Name)
    requires c in w.conns && l in w.conns[c].started
    ensures IsStarted(w, l)
  {
  }

  lemma SameTargets(w: World, w': World)
    requires w'.labs == w.labs
    ensures forall c | IsTarget(w, c) :: IsTarget(w', c)
  {
  }

  lemma HappeningsLaunchNothing(w: World, d: Deed)
    requires Spontaneous(w, d)
    ensures !d.Launch?
  {
  }

  lemma {:induction false} ProvenanceAlways(ws: seq<World>, es: seq<LabEvent>, i: nat)
    requires LabRun(ws, es) && i < |ws|
    ensures Provenance(ws[i])
    decreases i
  {
    hide LabNext;
    if i > 0 {
      ProvenanceAlways(ws, es, i - 1);
      LabsAlways(ws, es, i - 1);
      assert LabNext(ws[i - 1], es[i - 1]) == Some(ws[i - 1 + 1]);
      StepProvenance(ws[i - 1], es[i - 1], ws[i]);
    }
  }

  /** Once every session has closed, no lab network is left in the whole process, and of the containers only
      students' and the targets of failed starts. */
  lemma ClosedSessionsLeaveNoLab(ws: seq<World>, es: seq<LabEvent>, i: nat)
    requires LabRun(ws, es) && i < |ws| && forall c | c in ws[i].conns :: ws[i].conns[c].pc.LabClosed?
    ensures ws[i].networks == {} && ws[i].containers <= ws[i].students + ws[i].leaked
  {
    hide LabNext;
    var w := ws[i];
    ProvenanceAlways(ws, es, i);
    forall l | l in w.labs
      ensures l !in w.networks && forall t | t in w.labs[l].targets :: t !in w.containers
    {
      assert IsStarted(w, l);
      var c :| c in w.conns && l in w.conns[c].started;
      SessionsOwnTheirLabs(ws, es, i, c, l);
    }
    forall c | c in w.containers
      ensures c in w.students + w.leaked
    {
      assert c in w.students || c in w.leaked || IsTarget(w, c);
    }
  }

  // ----- a stop from beginning to end

  /** What is left of a `StopLab` call. */
  function StepsLeft(w: World, k: nat): nat
    requires k in w.stops && w.stops[k].lab in w.labs
  {
    match w.stops[k].at
    case AtStudent => |w.labs[w.stops[k].lab].targets| + 3
    case AtTargets(rest) => |rest| + 2
    case AtNetwork => 1
    case StopDone => 0
  }

  /** The call's remaining steps, with nothing in between. */
  function FinishStop(w: World, k: nat): World
    requires k in w.stops && w.stops[k].lab in w.labs
    decreases StepsLeft(w, k)
  {
    if w.stops[k].at.StopDone? then w else FinishStop(AdvanceStop(w, k), k)
  }

  function Elements(s: seq<Name>): set<Name> {
    set n | n in s
  }

  lemma {:induction false} FinishTargets(w: World, k: nat)
    requires k in w.stops && w.stops[k].lab in w.labs && w.stops[k].at.AtTargets?
    ensures var w' := FinishStop(w, k);
            && w'.containers == w.containers - Elements(w.stops[k].at.rest)
            && w'.networks == w.networks - {w.stops[k].lab}
            && k in w'.stops && w'.stops[k].at.StopDone?
    decreases |w.stops[k].at.rest|
  {
    var rest := w.stops[k].at.rest;
    var w1 := AdvanceStop(w, k);
    if rest == [] {
      assert FinishStop(w, k) == FinishStop(w1, k) == AdvanceStop(w1, k);
    } else {
      FinishTargets(w1, k);
      assert Elements(rest) == {rest[0]} + Elements(rest[1..]);
    }
  }

  /** The steps of a `StopLab` call amount to what `LabManager.StopLab` does: the student, the targets and the
      network go, and nothing else. */
  lemma StopsAddUp(w: World, k: nat)
    requires k in w.stops && w.stops[k].lab in w.labs && w.stops[k].at.AtStudent?
    ensures var w', l := FinishStop(w, k), w.labs[w.stops[k].lab];
            && w'.containers == w.containers - (if l.student.Some? then {l.student.value} else {})
                                - (set t | t in l.targets)
            && w'.networks == w.networks - {w.stops[k].lab}
            && k in w'.stops && w'.stops[k].at.StopDone?
  {
    FinishTargets(AdvanceStop(w, k), k);
  }

  // ----- students

  /** A run that starts while its session has a lab is noted as that lab's student. */
  lemma RunsAreNoted(w: World, c: nat, student: Name, w': World)
    requires LabNext(w, Act(c, RunStarts(student))) == Some(w')
    ensures w.conns[c].cur.Some? && w.conns[c].cur.value in w'.labs
    ensures w'.labs[w.conns[c].cur.value] == w.labs[w.conns[c].cur.value].(student := Some(student))
  {
  }

  /** What is gone stays gone. */
  lemma {:induction false} GoneStays(ws: seq<World>, es: seq<LabEvent>, i: nat, j: nat, c: Name)
    requires LabRun(ws, es) && i <= j < |ws| && c < ws[i].next && c !in ws[i].containers
    ensures c < ws[j].next && c !in ws[j].containers
    decreases j
  {
    hide LabNext, WorldInv;
    if i < j {
      GoneStays(ws, es, i, j - 1, c);
      LabsAlways(ws, es, j - 1);
      assert NamesOk(ws[j - 1]) by { InvNames(ws[j - 1]); }
      WorldGrows(ws[j - 1], es[j - 1], ws[j]);
    }
  }

  lemma InvNames(w: World)
    requires WorldInv(w)
    ensures NamesOk(w)
  {
  }

  /** The student noted when a `StopLab` call comes to it is gone from then on. */
  lemma NotedStudentGoes(ws: seq<World>, es: seq<LabEvent>, i: nat, j: nat, k: nat)
    requires LabRun(ws, es) && i < j < |ws| && es[i] == Happen(Advance(k)) && k in ws[i].stops
    requires ws[i].stops[k].at.AtStudent? && ws[i].stops[k].lab in ws[i].labs
    ensures var student := ws[i].labs[ws[i].stops[k].lab].student;
            student.Some? ==> student.value !in ws[j].containers
  {
    LabsAlways(ws, es, i);
    assert LabNext(ws[i], es[i]) == Some(ws[i + 1]);
    var student := ws[i].labs[ws[i].stops[k].lab].student;
    if student.Some? {
      GoneStays(ws, es, i + 1, j, student.value);
    }
  }

  // ----- expiry

  predicate ExpiryOk(w: World) {
    forall l | l in w.labs :: w.labs[l].begun || w.labs[l].expiring
  }

  lemma DeedExpiry(w: World, d: Deed)
    requires CanDo(w, d) && ExpiryOk(w) && (d.EndExpiry? ==> w.labs[d.lab].begun)
    ensures ExpiryOk(Do(w, d))
  {
  }

  lemma LoopsEndNoExpiry(w: World, conn: LabConn, m: Message)
    requires ConnNext(w, conn, m).Some?
    ensures !ConnNext(w, conn, m).value.1.EndExpiry?
  {
  }

  lemma {:induction false} ExpiryAlways(ws: seq<World>, es: seq<LabEvent>, i: nat)
    requires LabRun(ws, es) && i < |ws|
    ensures ExpiryOk(ws[i])
    decreases i
  {
    hide Do, ConnNext, CanDo;
    if i > 0 {
      ExpiryAlways(ws, es, i - 1);
      var w := ws[i - 1];
      assert LabNext(w, es[i - 1]) == Some(ws[i - 1 + 1]);
      match es[i - 1]
      case Connect(_) =>
      case Happen(d) => DeedExpiry(w, d);
      case Act(c, m) =>
        LoopsEndNoExpiry(w, w.conns[c], m);
        DeedExpiry(w, ConnNext(w, w.conns[c], m).value.1);
    }
  }

  /** No lab is forgotten by its expiry: in every state of every run, the expiry goroutine of a lab that nobody
      has begun to stop can still fire, and then stops that lab. */
  lemma UnstoppedLabsCanExpire(ws: seq<World>, es: seq<LabEvent>, i: nat, l: Name, k: nat)
    requires LabRun(ws, es) && i < |ws| && l in ws[i].labs && k !in ws[i].stops
    requires forall j | j in ws[i].stops :: ws[i].stops[j].lab != l
    ensures var e := Happen(Begin(k, l, true));
            && LabNext(ws[i], e).Some?
            && var w := LabNext(ws[i], e).value;
               k in w.stops && w.stops[k] == Stop(l, AtStudent) && !w.labs[l].expiring
  {
    ExpiryAlways(ws, es, i);
    if ws[i].labs[l].begun {
      BegunMeansStop(ws, es, i, l);
    }
  }

  // ----- no session gets stuck

  ghost predicate LabReaches(w: World, w': World) {
    exists ws, es :: LabPath(ws, es) && ws[0] == w && ws[|es|] == w'
  }

  ghost predicate LabPath(ws: seq<World>, es: seq<LabEvent>) {
    |ws| == |es| + 1 && forall i | 0 <= i < |es| :: LabNext(ws[i], es[i]) == Some(ws[i + 1])
  }

  lemma LabStay(w: World)
    ensures LabReaches(w, w)
  {
    assert LabPath([w], []);
  }

  /** One event, and then on. */
  lemma LabGo(w: World, e: LabEvent, w1: World, w': World)
    requires LabNext(w, e) == Some(w1) && LabReaches(w1, w')
    ensures LabReaches(w, w')
  {
    hide LabNext;
    var ws, es :| LabPath(ws, es) && ws[0] == w1 && ws[|es|] == w';
    var all, events := [w] + ws, [e] + es;
    forall i | 0 <= i < |events|
      ensures LabNext(all[i], events[i]) == Some(all[i + 1])
    {
      if i > 0 {
        assert all[i] == ws[i - 1] && all[i + 1] == ws[i] && events[i] == es[i - 1];
      }
    }
    assert LabPath(all, events);
  }

  function LoopRank(pc: LabPc): nat {
    match pc
    case Awaiting(_, next) => if next.ThenCreate? then 3 else 2
    case Creating => 1
    case Holding(_) => 1
    case _ => 0
  }

  /** What is left of the stop the session waits for. */
  function WaitLeft(w: World, c: nat): nat
    requires c in w.conns
  {
    var pc := w.conns[c].pc;
    if pc.Awaiting? && pc.stop in w.stops && w.stops[pc.stop].lab in w.labs then StepsLeft(w, pc.stop) else 0
  }

  predicate IsClosing(pc: LabPc) {
    pc.LabClosed? || (pc.Awaiting? && pc.next.ThenClosed?)
  }

  function LoopEvent(w: World, c: nat): LabEvent
    requires c in w.conns
  {
    match w.conns[c].pc
    case Creating => Act(c, BadConfig)
    case Holding(_) => Act(c, StoreLab)
    case Awaiting(k, _) => if k in w.stops && w.stops[k].at.StopDone? then Act(c, StopReturns) else Happen(Advance(k))
    case _ => Connect(c)
  }

  lemma LoopGoesOn(w: World, c: nat) returns (w': World)
    requires StopsOk(w) && c in w.conns && OwnerOk(w, w.conns[c]) && LoopRank(w.conns[c].pc) > 0
    ensures LabNext(w, LoopEvent(w, c)) == Some(w') && c in w'.conns
    ensures LoopRank(w'.conns[c].pc) < LoopRank(w.conns[c].pc)
            || (w'.conns[c].pc == w.conns[c].pc && WaitLeft(w', c) < WaitLeft(w, c))
    ensures IsClosing(w'.conns[c].pc) == IsClosing(w.conns[c].pc)
  {
    hide StopOk;
    if w.conns[c].pc.Awaiting? {
      StopIsKnown(w, w.conns[c].pc.stop);
    }
    w' := LabNext(w, LoopEvent(w, c)).value;
  }

  lemma StopIsKnown(w: World, k: nat)
    requires StopsOk(w) && k in w.stops
    ensures w.stops[k].lab in w.labs
  {
    assert StopOk(w, w.stops[k]);
  }

  lemma {:induction false} LoopReturns(w: World, c: nat) returns (w': World)
    requires WorldInv(w) && c in w.conns
    ensures LabReaches(w, w') && c in w'.conns
    ensures if IsClosing(w.conns[c].pc) then w'.conns[c].pc.LabClosed? else w'.conns[c].pc.LabIdle?
    decreases LoopRank(w.conns[c].pc), WaitLeft(w, c)
  {
    hide LabNext, LabReaches, NamesOk, StopOk, LabOk, OwnerOk;
    if LoopRank(w.conns[c].pc) == 0 {
      w' := w;
      LabStay(w);
    } else {
      var w1 := LoopGoesOn(w, c);
      LabStepKeepsInv(w, LoopEvent(w, c), w1);
      w' := LoopReturns(w1, c);
      LabGo(w, LoopEvent(w, c), w1, w');
    }
  }

  /** From every state of every run a session's loop can come back to its next message, or end if its client
      has left: no stop and no failing start holds it for good. */
  lemma SessionsAreNeverStuck(ws: seq<World>, es: seq<LabEvent>, i: nat, c: nat) returns (w': World)
    requires LabRun(ws, es) && i < |ws| && c in ws[i].conns
    ensures LabReaches(ws[i], w') && c in w'.conns
    ensures var pc := ws[i].conns[c].pc;
            if pc.LabClosed? || (pc.Awaiting? && pc.next.ThenClosed?) then w'.conns[c].pc.LabClosed?
            else w'.conns[c].pc.LabIdle?
  {
    LabsAlways(ws, es, i);
    w' := LoopReturns(ws[i], c);
  }
}
