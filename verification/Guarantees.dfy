/** What holds in every run of the process, stated on whole behaviours of `Runner`. */
module Guarantees {
  import opened Options
  import opened DockerClient
  import opened UserQuota
  import opened Connection
  import opened ConnectionInv
  import opened Accounts
  import opened Fibers
  import opened Histories
  import opened Runner

  // ----- slots and containers

  /** The unreleased slot a live container runs under. */
  ghost function SlotFor(s: System, id: ContainerId): (slot: (nat, nat))
    requires SystemInv(s) && id in s.pool.live
    ensures slot in Holders(s) && RunsUnder(s.parties[slot.0], slot.1, id)
  {
    var i :| i in s.parties && id in ExposedOf(s.parties[i]);
    match s.parties[i]
    case Socket(c) => (ExposedIsCovered(c, id); (i, c.st.generation))
    case Request(_) => (i, 0)
  }

  /** Each live execution container has an unreleased slot of its own, and the number of live
      containers never exceeds the capacity, whatever the interleaving of connections, requests,
      evictions and reaper removals. */
  lemma CapacityHolds(max: int, ss: seq<System>, es: seq<Event>, i: nat) returns (slots: map<ContainerId, (nat, nat)>)
    requires Behaviour(max, ss, es) && i < |ss|
    ensures slots.Keys == ss[i].pool.live
    ensures forall id | id in slots ::
              slots[id] in Holders(ss[i]) && RunsUnder(ss[i].parties[slots[id].0], slots[id].1, id)
    ensures forall id, id' | id in slots && id' in slots && slots[id] == slots[id'] :: id == id'
    ensures |ss[i].pool.live| <= ss[i].pool.current
    ensures max >= 0 ==> ss[i].pool.current <= max
  {
    var s := ss[i];
    Always(max, ss, es, i);
    slots := map id | id in s.pool.live :: SlotFor(s, id);
    forall v | v in slots.Values
      ensures v in Holders(s)
    {
    }
    InjectionCard(slots, Holders(s));
  }

  /** Acquires minus releases by party `id`. */
  function Balance(es: seq<Event>, id: nat): int {
    if es == [] then 0
    else
      Balance(es[..|es| - 1], id)
      + match es[|es| - 1]
        case Step(j, _, l) => if j == id then SlotGain(l) else 0
        case _ => 0
  }

  /** Slot conservation: the counter is the number of holders, and each party has released each slot
      it acquired exactly once, but for those it holds now. */
  lemma {:induction false} SlotsConserved(max: int, ss: seq<System>, es: seq<Event>, i: nat, id: nat)
    requires Behaviour(max, ss, es) && i < |ss|
    ensures ss[i].pool.current == |Holders(ss[i])|
    ensures Balance(es[..i], id) == if id in ss[i].parties then |SlotsOf(ss[i].parties[id])| else 0
    decreases i
  {
    Always(max, ss, es, i);
    if i > 0 {
      SlotsConserved(max, ss, es, i - 1, id);
      Always(max, ss, es, i - 1);
      assert es[..i][..i - 1] == es[..i - 1];
      BalanceStep(ss[i - 1], es[i - 1], ss[i], id);
    }
  }

  lemma BalanceStep(s: System, e: Event, s': System, id: nat)
    requires PartiesOk(s) && SystemNext(s, e) == Some(s')
    ensures (if id in s'.parties then |SlotsOf(s'.parties[id])| else 0)
         == (if id in s.parties then |SlotsOf(s.parties[id])| else 0)
            + match e case Step(j, _, l) => if j == id then SlotGain(l) else 0 case _ => 0
  {
    hide PartyNext, PoolNext, Slots, PartyInv;
    match e
    case Step(j, actor, l) => PartyStep(s.parties[j], actor, l, s'.parties[j]);
    case Open(j, party) => NewHasNoSlots(party);
    case Reap(_) =>
  }

  lemma NewHasNoSlots(p: Party)
    requires p == Request(RestAcquiring) || p == Socket(NewConn(UserOf(p)))
    ensures SlotsOf(p) == {}
  {
  }

  // ----- per-user accounting

  /** The per-user table: at most three per user, never more than the user's outstanding runs, which
      exceed it by at most the number of evictions; and no entry, hence no lock-out, without
      outstanding runs. */
  lemma UserCountsHold(max: int, ss: seq<System>, es: seq<Event>, i: nat, u: User)
    requires Behaviour(max, ss, es) && i < |ss|
    ensures var s := ss[i]; var count := Count(s.pool.counts, u);
            && 0 <= count <= MAX_CONTAINERS_PER_USER
            && count <= |Owed(s, u)| <= MAX_CONTAINERS_PER_USER + Evictions(s.pool, u)
            && (Evictions(s.pool, u) == 0 ==> count == |Owed(s, u)|)
            && (Owed(s, u) == {} ==> u !in s.pool.counts)
  {
    Always(max, ss, es, i);
  }

  /** A run can be evicted only while its own handler is still launching it. */
  lemma EvictableOnlyWhileLaunching(max: int, ss: seq<System>, es: seq<Event>, i: nat, u: User, id: ContainerId)
    requires Behaviour(max, ss, es) && i < |ss|
    requires id in RunsOf(ss[i].pool.runs, u)
    ensures exists p :: p in ss[i].parties && ss[i].parties[p].Socket?
                        && var c := ss[i].parties[p].conn;
                           && c.user == u && c.pc.Launching? && c.pc.kind.RunJob? && c.pc.gen == c.st.generation
                           && RunsUnder(Socket(c), c.st.generation, id)
  {
    Always(max, ss, es, i);
    var p :| p in ss[i].parties && UserOf(ss[i].parties[p]) == u && id in TrackedOf(ss[i].parties[p]);
  }

  // ----- quiescence

  predicate Finished(p: Party) {
    match p
    case Socket(c) =>
      c.pc.Closed? && forall g | g in c.jobs :: c.jobs[g].waiter.WaiterUnborn? || c.jobs[g].waiter.WaiterDone?
    case Request(r) => r.RestDone?
  }

  lemma FinishedHoldsNothing(p: Party, u: User)
    requires PartyInv(p) && Finished(p)
    ensures SlotsOf(p) == {} && ChargesOf(p, u) == {} && ExposedOf(p) == {} && TrackedOf(p) == {}
  {
  }

  lemma TrackedSomewhere(s: System, u: User)
    requires TrackedOk(s) && u in s.pool.runs
    ensures exists p :: p in s.parties && TrackedOf(s.parties[p]) != {}
  {
    var id :| id in s.pool.runs[u];
    assert id in RunsOf(s.pool.runs, u);
    var p :| p in s.parties && UserOf(s.parties[p]) == u && id in TrackedOf(s.parties[p]);
  }

  /** Once every connection has run its clean-up and every waiter and request is done, nothing is
      left: no slot taken, no container alive, no user charged, no run tracked. */
  lemma QuiescenceIsClean(max: int, ss: seq<System>, es: seq<Event>, i: nat)
    requires Behaviour(max, ss, es) && i < |ss|
    requires forall p | p in ss[i].parties :: Finished(ss[i].parties[p])
    ensures ss[i].pool.current == 0 && ss[i].pool.live == {} && ss[i].pool.counts == map[] && ss[i].pool.runs == map[]
  {
    hide Finished, PartyInv, SlotsOf, ChargesOf, ExposedOf, TrackedOf;
    var s := ss[i];
    Always(max, ss, es, i);
    forall p | p in s.parties
      ensures SlotsOf(s.parties[p]) == {} && ExposedOf(s.parties[p]) == {} && TrackedOf(s.parties[p]) == {}
    {
      FinishedHoldsNothing(s.parties[p], "");
    }
    EmptySpread(SlotMap(s));
    forall u
      ensures u !in s.pool.counts && u !in s.pool.runs
    {
      forall p | p in s.parties
        ensures ChargesOf(s.parties[p], u) == {}
      {
        FinishedHoldsNothing(s.parties[p], u);
      }
      EmptySpread(ChargeMap(s, u));
      assert Count(s.pool.counts, u) <= |Owed(s, u)| == 0;
      if u in s.pool.runs {
        TrackedSomewhere(s, u);
      }
    }
  }

  // ----- generations

  predicate HasJob(s: System, p: nat, g: nat) {
    p in s.parties && s.parties[p].Socket? && g in s.parties[p].conn.jobs
  }

  function JobAt(s: System, p: nat, g: nat): Job
    requires HasJob(s, p, g)
  {
    s.parties[p].conn.jobs[g]
  }

  /** A container belongs to one job of one party. */
  ghost predicate NamesOk(s: System) {
    && (forall p, g: nat, id: ContainerId | p in s.parties && RunsUnder(s.parties[p], g, id) :: id < s.pool.next)
    && (forall p, g: nat, q, h: nat, id: ContainerId | p in s.parties && q in s.parties
                                && RunsUnder(s.parties[p], g, id) && RunsUnder(s.parties[q], h, id) :: p == q && g == h)
  }

  function CurrentSlot(p: Party): nat {
    match p
    case Socket(c) => c.st.generation
    case Request(_) => 0
  }

  lemma PartyNames(p: Party, actor: Actor, l: Label, p': Party)
    requires PartyInv(p) && PartyNext(p, actor, l) == Some(p')
    ensures forall g: nat, id | RunsUnder(p', g, id) :: RunsUnder(p, g, id) || (l == Create(id) && g == CurrentSlot(p))
  {
    hide Next, JobsOk, LaunchOk;
    forall g: nat, id | RunsUnder(p', g, id)
      ensures RunsUnder(p, g, id) || (l == Create(id) && g == CurrentSlot(p))
    {
      if p.Socket? {
        NamesStep(p.conn, actor, l, g);
      }
    }
  }

  lemma NamesPreserved(s: System, e: Event, s': System)
    requires NamesOk(s) && PartiesOk(s) && SystemNext(s, e) == Some(s')
    ensures NamesOk(s')
  {
    hide PartyNext, PartyInv;
    match e
    case Step(j, actor, l) =>
      PartyNames(s.parties[j], actor, l, s'.parties[j]);
    case _ =>
  }

  lemma {:induction false} NamesAlways(max: int, ss: seq<System>, es: seq<Event>, i: nat)
    requires Behaviour(max, ss, es) && i < |ss|
    ensures NamesOk(ss[i])
    decreases i
  {
    hide PartyNext, PoolNext, PartyInv;
    if i > 0 {
      NamesAlways(max, ss, es, i - 1);
      Always(max, ss, es, i - 1);
      NamesPreserved(ss[i - 1], es[i - 1], ss[i]);
    }
  }

  /** Generation fencing: a session is always the container its connection created for the current
      generation; no container belongs to two jobs; so whatever a job's kill timer, idle timer or exit
      waiter cancelled, closed or removed was its own container, never another generation's. */
  lemma GenerationsAreFenced(max: int, ss: seq<System>, es: seq<Event>, i: nat, p: nat, g: nat)
    requires Behaviour(max, ss, es) && i < |ss| && HasJob(ss[i], p, g)
    ensures var c := ss[i].parties[p].conn;
            && (c.st.session.Some? ==> RunsUnder(Socket(c), c.st.generation, c.st.session.value))
            && (forall id | id in c.jobs[g].touched :: RunsUnder(Socket(c), g, id))
            && (forall q, h, id | HasJob(ss[i], q, h) && JobAt(ss[i], q, h).container == Some(id)
                                  && id in c.jobs[g].touched :: q == p && h == g)
  {
    hide JobsOk, PhaseOf;
    Always(max, ss, es, i);
    NamesAlways(max, ss, es, i);
    var c := ss[i].parties[p].conn;
    JobFacts(c, g);
    forall q, h, id | HasJob(ss[i], q, h) && JobAt(ss[i], q, h).container == Some(id) && id in c.jobs[g].touched
      ensures q == p && h == g
    {
      assert RunsUnder(ss[i].parties[q], h, id) && RunsUnder(ss[i].parties[p], g, id);
    }
  }

  // ----- how many runs a user can have

  ghost predicate IsRunOf(s: System, u: User, id: ContainerId) {
    exists p, g :: HasJob(s, p, g) && UserOf(s.parties[p]) == u
                   && JobAt(s, p, g).kind.RunJob? && JobAt(s, p, g).container == Some(id)
  }

  /** The live containers of user `u`'s runs. */
  ghost function LiveRuns(s: System, u: User): set<ContainerId> {
    set id | id in s.pool.live && IsRunOf(s, u, id)
  }

  /** The outstanding charge of a live run. */
  ghost function ChargeFor(s: System, u: User, id: ContainerId): (charge: (nat, nat))
    requires SystemInv(s) && NamesOk(s) && id in LiveRuns(s, u)
    ensures charge in Owed(s, u) && RunsUnder(s.parties[charge.0], charge.1, id)
  {
    var slot := SlotFor(s, id);
    var p, g :| HasJob(s, p, g) && UserOf(s.parties[p]) == u
                && JobAt(s, p, g).kind.RunJob? && JobAt(s, p, g).container == Some(id);
    assert RunsUnder(s.parties[p], g, id);
    var i :| i in s.parties && id in ExposedOf(s.parties[i]);
    assert i == p by { ExposedNames(s.parties[i], id); }
    ExposedIsCovered(s.parties[p].conn, id);
    ExposedIsCharged(s.parties[p].conn, id);
    slot
  }

  lemma ExposedNames(p: Party, id: ContainerId)
    requires PartyInv(p) && id in ExposedOf(p)
    ensures RunsUnder(p, CurrentSlot(p), id)
  {
    if p.Socket? {
      ExposedIsCovered(p.conn, id);
    }
  }

  lemma LiveRunsAreCharged(s: System, u: User)
    requires SystemInv(s) && NamesOk(s)
    ensures |LiveRuns(s, u)| <= |Owed(s, u)|
  {
    hide SystemInv, NamesOk, IsRunOf, Owed;
    var charges := map id | id in LiveRuns(s, u) :: ChargeFor(s, u, id);
    forall v | v in charges.Values
      ensures v in Owed(s, u)
    {
    }
    assert charges.Keys == LiveRuns(s, u);
    InjectionCard(charges, Owed(s, u));
  }

  /** The promise behind "max 3 per user": a user's live runs number at most three, plus one for every
      eviction there has been. */
  lemma UserRunsBounded(max: int, ss: seq<System>, es: seq<Event>, i: nat, u: User)
    requires Behaviour(max, ss, es) && i < |ss|
    ensures |LiveRuns(ss[i], u)| <= |Owed(ss[i], u)| <= MAX_CONTAINERS_PER_USER + Evictions(ss[i].pool, u)
  {
    hide SystemInv, NamesOk, IsRunOf, Owed;
    UserCountsHold(max, ss, es, i, u);
    Always(max, ss, es, i);
    NamesAlways(max, ss, es, i);
    LiveRunsAreCharged(ss[i], u);
  }

  // ----- messages

  /** The messages a run sends are a prefix of: started, output*, optional files, exit.  A shell never
      sends files or an exit. */
  lemma MessagesInOrder(max: int, ss: seq<System>, es: seq<Event>, i: nat, p: nat, g: nat)
    requires Behaviour(max, ss, es) && i < |ss| && HasJob(ss[i], p, g)
    ensures var j := JobAt(ss[i], p, g);
            if j.kind.RunJob? then InOrder(j.sent) else forall m | m in j.sent :: !m.Files? && !m.Exit?
  {
    Always(max, ss, es, i);
    JobFacts(ss[i].parties[p].conn, g);
    var j := JobAt(ss[i], p, g);
    if j.kind.RunJob? {
      PhaseShape(j.sent);
    } else {
      ShellShape(j.sent);
    }
  }

  // ----- jobs that are no longer current

  predicate StaleAt(s: System, p: nat, g: nat) {
    p in s.parties && s.parties[p].Socket? && Stale(s.parties[p].conn, g)
  }

  function FutureAt(s: System, p: nat, g: nat): Future
    requires HasJob(s, p, g)
  {
    FutureOf(s.parties[p].conn.st.generation, g, JobAt(s, p, g))
  }

  /** The container of a job that is not current is gone. */
  lemma StaleIsGone(s: System, p: nat, g: nat)
    requires SystemInv(s) && NamesOk(s) && StaleAt(s, p, g) && JobAt(s, p, g).container.Some?
    ensures JobAt(s, p, g).container.value !in s.pool.live
  {
    hide SlotsOk, ChargesOk, TrackedOk, JobsOk, LaunchOk;
    var id := JobAt(s, p, g).container.value;
    assert RunsUnder(s.parties[p], g, id);
    if id in s.pool.live {
      var i :| i in s.parties && id in ExposedOf(s.parties[i]);
      ExposedNames(s.parties[i], id);
    }
  }

  lemma StaleReadsNothing(s: System, e: Event, s': System, p: nat, g: nat)
    requires SystemInv(s) && NamesOk(s) && SystemNext(s, e) == Some(s') && StaleAt(s, p, g) && e.Step? && e.id == p
    ensures ReadsNothing(e.actor, e.l, g)
  {
    hide SlotsOk, ChargesOk, TrackedOk, LiveOk, PcOk;
    if e.actor == WaiterOf(g) && e.l.ReadFiles? {
      JobFacts(s.parties[p].conn, g);
      StaleIsGone(s, p, g);
    }
  }

  lemma StaleSystemStep(s: System, e: Event, s': System, p: nat, g: nat)
    requires SystemInv(s) && NamesOk(s) && SystemNext(s, e) == Some(s') && StaleAt(s, p, g)
    ensures StaleAt(s', p, g) && JobAt(s', p, g).kind == JobAt(s, p, g).kind
    ensures Consumes(FutureAt(s, p, g), JobAt(s, p, g).sent, FutureAt(s', p, g), JobAt(s', p, g).sent)
  {
    hide Consumes, Inv, Next, PoolNext, NamesOk, SlotsOk, LiveOk, ChargesOk, TrackedOk;
    if e.Step? && e.id == p {
      StaleReadsNothing(s, e, s', p, g);
      StaleStep(s.parties[p].conn, e.actor, e.l, g);
    } else {
      assert s'.parties[p] == s.parties[p];
      ConsumeNone(FutureAt(s, p, g), FutureAt(s', p, g), JobAt(s, p, g).sent);
    }
  }

  lemma {:induction false} StaleTail(max: int, ss: seq<System>, es: seq<Event>, i: nat, k: nat, p: nat, g: nat)
    returns (tail: seq<Message>)
    requires Behaviour(max, ss, es) && i <= k < |ss| && StaleAt(ss[i], p, g)
    ensures StaleAt(ss[k], p, g) && JobAt(ss[k], p, g).kind == JobAt(ss[i], p, g).kind
    ensures JobAt(ss[k], p, g).sent == JobAt(ss[i], p, g).sent + tail && Allows(FutureAt(ss[i], p, g), tail)
    decreases k - i
  {
    hide SystemInv, NamesOk, SystemNext;
    if i == k {
      tail := [];
    } else {
      Always(max, ss, es, i);
      NamesAlways(max, ss, es, i);
      assert SystemNext(ss[i], es[i]) == Some(ss[i + 1]);
      StaleSystemStep(ss[i], es[i], ss[i + 1], p, g);
      tail := StaleTail(max, ss, es, i + 1, k, p, g);
      var was, now := JobAt(ss[i], p, g).sent, JobAt(ss[i + 1], p, g).sent;
      if now == was {
        AllowsMonotone(FutureAt(ss[i + 1], p, g), FutureAt(ss[i], p, g), tail);
      } else {
        tail := [now[|was|]] + tail;
      }
    }
  }

  /** After a run is superseded or its session cleared, it sends one more output chunk at most, or the
      rest of its files and exit at most, never both. */
  lemma StaleRunSendsLittle(max: int, ss: seq<System>, es: seq<Event>, i: nat, k: nat, p: nat, g: nat)
    requires Behaviour(max, ss, es) && i <= k < |ss| && StaleAt(ss[i], p, g) && JobAt(ss[i], p, g).kind.RunJob?
    ensures HasJob(ss[k], p, g)
    ensures var was, now := JobAt(ss[i], p, g).sent, JobAt(ss[k], p, g).sent;
            && was <= now
            && var tail := now[|was|..];
               || tail == [] || tail == [Output] || tail == [Files]
               || (|tail| == 1 && tail[0].Exit?)
               || (|tail| == 2 && tail[0] == Files && tail[1].Exit?)
  {
    var tail := StaleTail(max, ss, es, i, k, p, g);
    Always(max, ss, es, i);
    JobFacts(ss[i].parties[p].conn, g);
    assert JobAt(ss[k], p, g).sent[|JobAt(ss[i], p, g).sent|..] == tail;
    ShortTail(FutureAt(ss[i], p, g), tail);
  }

  /** A shell that is no longer current sends one more output chunk and one idle notice at most, in either
      order. */
  lemma StaleShellSendsLittle(max: int, ss: seq<System>, es: seq<Event>, i: nat, k: nat, p: nat, g: nat)
    requires Behaviour(max, ss, es) && i <= k < |ss| && StaleAt(ss[i], p, g) && JobAt(ss[i], p, g).kind.ShellJob?
    ensures HasJob(ss[k], p, g)
    ensures var was, now := JobAt(ss[i], p, g).sent, JobAt(ss[k], p, g).sent;
            && was <= now
            && now[|was|..] in {[], [Output], [IdleNotice], [Output, IdleNotice], [IdleNotice, Output]}
  {
    var tail := StaleTail(max, ss, es, i, k, p, g);
    Always(max, ss, es, i);
    JobFacts(ss[i].parties[p].conn, g);
    assert JobAt(ss[k], p, g).sent[|JobAt(ss[i], p, g).sent|..] == tail;
    ShortShellTail(FutureAt(ss[i], p, g), tail);
  }

  lemma ShortShellTail(f: Future, tail: seq<Message>)
    requires Allows(f, tail) && !f.files && !f.exit
    ensures tail in {[], [Output], [IdleNotice], [Output, IdleNotice], [IdleNotice, Output]}
  {
    if tail != [] {
      var rest := tail[1..];
      var f' := if tail[0].Output? then f.(output := false) else f.(notice := false);
      assert tail == [tail[0]] + rest && Allows(f', rest);
      if rest != [] {
        assert rest == [rest[0]] + rest[1..];
        assert Allows(f'.(output := false, notice := false), rest[1..]);
        assert tail == [tail[0], rest[0]];
      } else {
        assert tail == [tail[0]];
      }
    }
  }

  lemma ShortTail(f: Future, tail: seq<Message>)
    requires Allows(f, tail) && !f.notice && !(f.output && (f.files || f.exit))
    ensures || tail == [] || tail == [Output] || tail == [Files]
            || (|tail| == 1 && tail[0].Exit?)
            || (|tail| == 2 && tail[0] == Files && tail[1].Exit?)
  {
    if tail != [] && tail[1..] != [] {
      assert tail == [tail[0]] + tail[1..];
    }
  }

  // ----- the timeout verdict

  /** Event `e`, taken in `s`, is run `g`'s own kill timer raising the timeout flag while the run is
      the current session. */
  predicate KillTimerHits(s: System, e: Event, p: nat, g: nat) {
    HasJob(s, p, g) && e.Step? && e.id == p && HitBy(s.parties[p].conn, e.actor, g)
  }

  predicate WaiterReadsFlag(s: System, e: Event, p: nat, g: nat) {
    HasJob(s, p, g) && e.Step? && e.id == p && ReadBy(s.parties[p].conn, e.actor, g)
  }

  function MarksAt(s: System, p: nat, g: nat): Marks {
    if HasJob(s, p, g) then JobAt(s, p, g).marks else Unmarked
  }

  lemma MarksSystemStep(s: System, e: Event, s': System, p: nat, g: nat)
    requires PartiesOk(s) && SystemNext(s, e) == Some(s')
    ensures MarksAt(s', p, g) == if KillTimerHits(s, e, p, g) then MarksAt(s, p, g).AfterHit()
                                 else if WaiterReadsFlag(s, e, p, g) then MarksAt(s, p, g).AfterSample()
                                 else MarksAt(s, p, g)
    ensures KillTimerHits(s, e, p, g) ==> !MarksAt(s, p, g).WasHit()
    ensures WaiterReadsFlag(s, e, p, g) ==>
              !KillTimerHits(s, e, p, g) && (MarksAt(s, p, g).Unmarked? || MarksAt(s, p, g).Hit?)
  {
    hide Next, PoolNext, Inv;
    if e.Step? && e.id == p && s.parties[p].Socket? {
      MarksStep(s.parties[p].conn, e.actor, e.l, g);
    }
  }

  ghost predicate HitBefore(ss: seq<System>, es: seq<Event>, i: nat, p: nat, g: nat)
    requires |ss| == |es| + 1 && i < |ss|
  {
    exists k :: 0 <= k < i && KillTimerHits(ss[k], es[k], p, g)
  }

  ghost predicate ReadBefore(ss: seq<System>, es: seq<Event>, i: nat, p: nat, g: nat)
    requires |ss| == |es| + 1 && i < |ss|
  {
    exists k :: 0 <= k < i && WaiterReadsFlag(ss[k], es[k], p, g)
  }

  /** The kill timer raised the flag, and the waiter read it after that. */
  ghost predicate HitThenRead(ss: seq<System>, es: seq<Event>, i: nat, p: nat, g: nat)
    requires |ss| == |es| + 1 && i < |ss|
  {
    exists k :: 0 <= k < i && WaiterReadsFlag(ss[k], es[k], p, g) && HitBefore(ss, es, k, p, g)
  }

  lemma {:induction false} MarksTellHistory(max: int, ss: seq<System>, es: seq<Event>, i: nat, p: nat, g: nat)
    requires Behaviour(max, ss, es) && i < |ss|
    ensures var m := MarksAt(ss[i], p, g);
            && (m.WasHit() <==> HitBefore(ss, es, i, p, g))
            && (m.Sampled? || m.HitThenSampled? || m.SampledThenHit? <==> ReadBefore(ss, es, i, p, g))
            && (m.HitThenSampled? <==> HitThenRead(ss, es, i, p, g))
    decreases i
  {
    hide SystemNext, PartyInv, KillTimerHits, WaiterReadsFlag;
    if i == 0 {
      assert ss[0].parties == map[];
    } else {
      MarksTellHistory(max, ss, es, i - 1, p, g);
      Always(max, ss, es, i - 1);
      assert SystemNext(ss[i - 1], es[i - 1]) == Some(ss[i - 1 + 1]);
      MarksSystemStep(ss[i - 1], es[i - 1], ss[i], p, g);
      assert HitBefore(ss, es, i, p, g) <==>
             HitBefore(ss, es, i - 1, p, g) || KillTimerHits(ss[i - 1], es[i - 1], p, g);
      assert ReadBefore(ss, es, i, p, g) <==>
             ReadBefore(ss, es, i - 1, p, g) || WaiterReadsFlag(ss[i - 1], es[i - 1], p, g);
      assert HitThenRead(ss, es, i, p, g) <==>
             HitThenRead(ss, es, i - 1, p, g)
             || (WaiterReadsFlag(ss[i - 1], es[i - 1], p, g) && HitBefore(ss, es, i - 1, p, g));
    }
  }

  /** A run's exit says "timeout" exactly when that run's own kill timer found it current and raised
      the flag before its waiter read it, whatever earlier runs and shells of the connection did. */
  lemma TimeoutIsAttributed(max: int, ss: seq<System>, es: seq<Event>, i: nat, p: nat, g: nat, reason: ExitReason)
    requires Behaviour(max, ss, es) && i < |ss| && HasJob(ss[i], p, g) && Exit(reason) in JobAt(ss[i], p, g).sent
    ensures JobAt(ss[i], p, g).kind.RunJob?
    ensures reason == Timeout <==> HitThenRead(ss, es, i, p, g)
  {
    hide SystemNext, HitThenRead, HitBefore, ReadBefore;
    var j := JobAt(ss[i], p, g);
    Always(max, ss, es, i);
    JobFacts(ss[i].parties[p].conn, g);
    if j.kind.RunJob? {
      PhaseShape(j.sent);
      var k :| 0 <= k < |j.sent| && j.sent[k] == Exit(reason);
      assert InPlace(j.sent, k);
    } else {
      ShellShape(j.sent);
    }
    MarksTellHistory(max, ss, es, i, p, g);
  }
}
