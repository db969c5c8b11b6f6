/** The whole process: any number of WebSocket connections and REST requests over the shared semaphore
    counter, container daemon and per-user tables, interleaved step by step. */
module Runner {
  import opened Options
  import opened DockerClient
  import opened UserQuota
  import opened Connection
  import opened ConnectionInv
  import opened Accounts
  import opened Fibers

  /** handler/execute.go:65-87 with executor/container.go:693-698. */
  datatype Rest = RestAcquiring | RestCreating | RestRunning(id: ContainerId) | RestReleasing | RestDone

  function RestNext(r: Rest, l: Label): Option<Rest> {
    match r
    case RestAcquiring =>
      if l.AcquireOk? then Some(RestCreating) else if l.AcquireRefused? then Some(RestDone) else None
    case RestCreating =>
      if l.Create? then Some(RestRunning(l.id)) else if l.Fail? then Some(RestReleasing) else None
    case RestRunning(id) => if l == Remove(id) then Some(RestReleasing) else None
    case RestReleasing => if l.Release? then Some(RestDone) else None
    case RestDone => None
  }

  datatype Party = Socket(conn: Conn) | Request(rest: Rest)

  /** The process-wide state.  `evictions` counts, for each user, the extra decrements that evictions
      have made; the program does not store it. */
  datatype Pool = Pool(
    max: int,
    current: int,
    live: set<ContainerId>,
    next: ContainerId,
    counts: Counts,
    runs: Runs,
    evictions: map<User, nat>)

  datatype System = System(pool: Pool, parties: map<nat, Party>)

  datatype Event =
    | Open(id: nat, party: Party)
    | Step(id: nat, actor: Actor, l: Label)
    | Reap(victim: ContainerId)

  function Evictions(p: Pool, u: User): nat {
    if u in p.evictions then p.evictions[u] else 0
  }

  /** What a label means to the shared state, when a party of user `u` does it.  A container that has been
      removed can be neither inspected nor read. */
  ghost function PoolNext(p: Pool, u: User, l: Label): Option<Pool> {
    match l
    case Charge(ok) =>
      if ok != BelowCap(p.counts, u) then None else Some(if ok then p.(counts := Increment(p.counts, u)) else p)
    case SeeCap(below) => if below == BelowCap(p.counts, u) then Some(p) else None
    case SeeRuns(some) => if some == (RunsOf(p.runs, u) != map[]) then Some(p) else None
    case Pick(victim) => if IsOldest(RunsOf(p.runs, u), victim) then Some(p) else None
    case Remove(id) => Some(p.(live := p.live - {id}))
    case Clear(dropped) => Some(p.(live := p.live - dropped))
    case Track(id, now) => Some(p.(runs := UserQuota.Track(p.runs, u, id, now)))
    case Untrack(id) => Some(p.(runs := Forget(p.runs, u, id)))
    case Discount => Some(p.(counts := Decrement(p.counts, u), evictions := p.evictions[u := Evictions(p, u) + 1]))
    case Discharge => Some(p.(counts := Decrement(p.counts, u)))
    case AcquireOk => if p.current < p.max then Some(p.(current := p.current + 1)) else None
    case AcquireRefused => if p.current >= p.max then Some(p) else None
    case Release => Some(p.(current := p.current - 1))
    case Report(id, info, _) => if info.Inspected? ==> id in p.live then Some(p) else None
    case ReadFiles(id, some) => if some ==> id in p.live then Some(p) else None
    case Create(id) => if id == p.next then Some(p.(live := p.live + {id}, next := id + 1)) else None
    case _ => Some(p)
  }

  function PartyNext(p: Party, actor: Actor, l: Label): Option<Party> {
    match p
    case Socket(c) => (match Next(c, actor, l) case None => None case Some(c') => Some(Socket(c')))
    case Request(r) =>
      if !actor.Handler? then None
      else match RestNext(r, l) case None => None case Some(r') => Some(Request(r'))
  }

  function UserOf(p: Party): User {
    match p
    case Socket(c) => c.user
    case Request(_) => ""
  }

  ghost function SystemNext(s: System, e: Event): Option<System> {
    match e
    case Open(id, party) =>
      if id !in s.parties && (party == Request(RestAcquiring) || party == Socket(NewConn(UserOf(party)))) then
        Some(s.(parties := s.parties[id := party]))
      else None
    case Step(id, actor, l) =>
      if id !in s.parties then None
      else
        (match PartyNext(s.parties[id], actor, l)
         case None => None
         case Some(party') =>
           match PoolNext(s.pool, UserOf(s.parties[id]), l)
           case None => None
           case Some(pool') => Some(System(pool', s.parties[id := party'])))
    case Reap(victim) => Some(s.(pool := s.pool.(live := s.pool.live - {victim})))
  }

  function Start(max: int): System {
    System(Pool(max, 0, {}, 0, map[], map[], map[]), map[])
  }

  /** A run of the process: states joined by events, from the empty process. */
  ghost predicate Behaviour(max: int, ss: seq<System>, es: seq<Event>) {
    && |ss| == |es| + 1
    && ss[0] == Start(max)
    && forall i | 0 <= i < |es| :: SystemNext(ss[i], es[i]) == Some(ss[i + 1])
  }

  // ----- what a party holds

  ghost predicate PartyInv(p: Party) {
    p.Socket? ==> Inv(p.conn)
  }

  function SlotsOf(p: Party): set<nat> {
    match p
    case Socket(c) => Slots(c)
    case Request(r) => if r.RestAcquiring? || r.RestDone? then {} else {0}
  }

  function ChargesOf(p: Party, u: User): set<nat> {
    if p.Socket? && p.conn.user == u then Charges(p.conn) else {}
  }

  function ExposedOf(p: Party): set<ContainerId> {
    match p
    case Socket(c) => Exposed(c)
    case Request(r) => if r.RestRunning? then {r.id} else {}
  }

  function TrackedOf(p: Party): set<ContainerId> {
    if p.Socket? then Tracked(p.conn) else {}
  }

  function SlotMap(s: System): map<nat, set<nat>> {
    map id | id in s.parties :: SlotsOf(s.parties[id])
  }

  function ChargeMap(s: System, u: User): map<nat, set<nat>> {
    map id | id in s.parties :: ChargesOf(s.parties[id], u)
  }

  /** Every actor that holds an unreleased slot: the party and, for a connection, the job. */
  function Holders(s: System): set<(nat, nat)> {
    Spread(SlotMap(s))
  }

  /** The runs of user `u` whose charge is outstanding. */
  function Owed(s: System, u: User): set<(nat, nat)> {
    Spread(ChargeMap(s, u))
  }

  /** Slot `g` of party `p` is the one container `id` runs under. */
  predicate RunsUnder(p: Party, g: nat, id: ContainerId) {
    match p
    case Socket(c) => g in c.jobs && c.jobs[g].container == Some(id)
    case Request(r) => g == 0 && r == RestRunning(id)
  }

  /** What a step of one party amounts to, for the rest of the process. */
  ghost predicate Amounts(p: Party, l: Label, p': Party) {
    && UserOf(p') == UserOf(p)
    && |SlotsOf(p')| == |SlotsOf(p)| + SlotGain(l)
    && (forall u ::
          |ChargesOf(p', u)| == |ChargesOf(p, u)| + (if p.Socket? && u == UserOf(p) then ChargeGain(l) else 0))
    && (p.Request? ==> ChargeGain(l) == 0 && !l.Discount?)
    && ExposedOf(p) - Removed(l) <= ExposedOf(p')
    && (l.Create? ==> l.id in ExposedOf(p'))
    && TrackedOf(p) <= TrackedOf(p') + (if l.Untrack? then {l.id} else {})
    && (l.Track? ==> l.id in TrackedOf(p'))
  }

  lemma SocketCharges(c: Conn, c': Conn, gain: int)
    requires c'.user == c.user && |Charges(c')| == |Charges(c)| + gain
    ensures forall u :: |ChargesOf(Socket(c'), u)| == |ChargesOf(Socket(c), u)| + (if u == c.user then gain else 0)
  {
    forall u
      ensures |ChargesOf(Socket(c'), u)| == |ChargesOf(Socket(c), u)| + (if u == c.user then gain else 0)
    {
      if u == c.user {
        assert ChargesOf(Socket(c), u) == Charges(c) && ChargesOf(Socket(c'), u) == Charges(c');
      }
    }
  }

  lemma SocketAmounts(c: Conn, l: Label, c': Conn)
    requires Accounted(c, l, c')
    ensures Amounts(Socket(c), l, Socket(c'))
  {
    hide Slots, Charges, Exposed, Tracked;
    SocketCharges(c, c', ChargeGain(l));
    assert SlotsOf(Socket(c)) == Slots(c) && SlotsOf(Socket(c')) == Slots(c');
  }

  lemma PartyStep(p: Party, actor: Actor, l: Label, p': Party)
    requires PartyInv(p) && PartyNext(p, actor, l) == Some(p')
    ensures PartyInv(p') && Amounts(p, l, p')
  {
    match p
    case Socket(c) =>
      NextKeepsInv(c, actor, l);
      NextAccounted(c, actor, l);
      SocketAmounts(c, l, p'.conn);
    case Request(_) =>
  }

  // ----- the invariant

  /** Current never exceeds the capacity and counts the holders. */
  ghost predicate SlotsOk(s: System) {
    s.pool.current == |Holders(s)| && (s.pool.current <= s.pool.max || s.pool.current == 0)
  }

  /** Every live container is still to be removed by some party. */
  ghost predicate LiveOk(s: System) {
    forall id | id in s.pool.live :: id < s.pool.next && exists i :: i in s.parties && id in ExposedOf(s.parties[i])
  }

  ghost predicate ChargesOk(s: System) {
    && CountsOk(s.pool.counts)
    && forall u :: Count(s.pool.counts, u) <= |Owed(s, u)| <= Count(s.pool.counts, u) + Evictions(s.pool, u)
  }

  /** A run is evictable only while its own handler has not returned. */
  ghost predicate TrackedOk(s: System) {
    && RunsOk(s.pool.runs)
    && forall u, id | id in RunsOf(s.pool.runs, u) ::
         exists i :: i in s.parties && UserOf(s.parties[i]) == u && id in TrackedOf(s.parties[i])
  }

  ghost predicate PartiesOk(s: System) {
    forall i | i in s.parties :: PartyInv(s.parties[i])
  }

  ghost predicate SystemInv(s: System) {
    PartiesOk(s) && SlotsOk(s) && LiveOk(s) && ChargesOk(s) && TrackedOk(s)
  }

  lemma StartOk(max: int)
    ensures SystemInv(Start(max))
  {
    var s := Start(max);
    EmptySpread(SlotMap(s));
    forall u
      ensures |Owed(s, u)| == 0
    {
      EmptySpread(ChargeMap(s, u));
    }
  }

  /** Party `id` becomes `p`, new or not. */
  function With(s: System, pool: Pool, id: nat, p: Party): System {
    System(pool, s.parties[id := p])
  }

  lemma SlotsAfter(s: System, pool: Pool, id: nat, p: Party, gain: int)
    requires SlotsOk(s)
    requires |SlotsOf(p)| == (if id in s.parties then |SlotsOf(s.parties[id])| else 0) + gain
    requires pool.current == s.pool.current + gain && pool.max == s.pool.max
    requires gain <= 0 || (gain == 1 && s.pool.current < s.pool.max)
    ensures SlotsOk(With(s, pool, id, p))
  {
    var s' := With(s, pool, id, p);
    assert SlotMap(s') == SlotMap(s)[id := SlotsOf(p)];
    SpreadUpdate(SlotMap(s), id, SlotsOf(p));
  }

  lemma OwedAfter(s: System, pool: Pool, id: nat, p: Party, u: User)
    ensures |Owed(With(s, pool, id, p), u)|
         == |Owed(s, u)| + |ChargesOf(p, u)| - (if id in s.parties then |ChargesOf(s.parties[id], u)| else 0)
  {
    var s' := With(s, pool, id, p);
    assert ChargeMap(s', u) == ChargeMap(s, u)[id := ChargesOf(p, u)];
    SpreadUpdate(ChargeMap(s, u), id, ChargesOf(p, u));
  }

  /** The counts after a label that changes user `who`'s outstanding charges by `gain`. */
  lemma CountsStep(p: Pool, who: User, l: Label, u: User, owed: nat)
    requires CountsOk(p.counts) && PoolNext(p, who, l).Some?
    requires Count(p.counts, u) <= owed <= Count(p.counts, u) + Evictions(p, u)
    requires u == who ==> owed + ChargeGain(l) >= 0
    ensures var p' := PoolNext(p, who, l).value;
            && CountsOk(p'.counts)
            && Count(p'.counts, u) <= owed + (if u == who then ChargeGain(l) else 0)
                                   <= Count(p'.counts, u) + Evictions(p', u)
  {
    CountAfterDecrement(p.counts, who, u);
  }

  lemma ChargesAfter(s: System, id: nat, l: Label, p: Party)
    requires ChargesOk(s) && id in s.parties && Amounts(s.parties[id], l, p)
    requires PoolNext(s.pool, UserOf(s.parties[id]), l).Some?
    ensures ChargesOk(With(s, PoolNext(s.pool, UserOf(s.parties[id]), l).value, id, p))
  {
    var who := UserOf(s.parties[id]);
    var pool := PoolNext(s.pool, who, l).value;
    var s' := With(s, pool, id, p);
    OwedAfter(s, pool, id, p, who);
    CountsStep(s.pool, who, l, who, |Owed(s, who)|);
    forall u
      ensures Count(pool.counts, u) <= |Owed(s', u)| <= Count(pool.counts, u) + Evictions(pool, u)
    {
      OwedAfter(s, pool, id, p, u);
      CountsStep(s.pool, who, l, u, |Owed(s, u)|);
    }
  }

  lemma LiveAfter(s: System, id: nat, l: Label, p: Party)
    requires LiveOk(s) && id in s.parties && Amounts(s.parties[id], l, p)
    requires PoolNext(s.pool, UserOf(s.parties[id]), l).Some?
    ensures LiveOk(With(s, PoolNext(s.pool, UserOf(s.parties[id]), l).value, id, p))
  {
    var s' := With(s, PoolNext(s.pool, UserOf(s.parties[id]), l).value, id, p);
    forall c | c in s'.pool.live
      ensures c < s'.pool.next && exists i :: i in s'.parties && c in ExposedOf(s'.parties[i])
    {
      if c in s.pool.live {
        var i :| i in s.parties && c in ExposedOf(s.parties[i]);
        assert i in s'.parties && c in ExposedOf(s'.parties[i]);
      } else {
        assert id in s'.parties && c in ExposedOf(s'.parties[id]);
      }
    }
  }

  lemma RunsStep(p: Pool, who: User, l: Label, u: User)
    requires RunsOk(p.runs) && PoolNext(p, who, l).Some?
    ensures var p' := PoolNext(p, who, l).value;
            && RunsOk(p'.runs)
            && RunsOf(p'.runs, u).Keys <= RunsOf(p.runs, u).Keys + (if l.Track? && u == who then {l.id} else {})
            && RunsOf(p'.runs, u) == if u == who && l.Track? then RunsOf(p.runs, u)[l.id := l.now]
                                     else if u == who && l.Untrack? then RunsOf(p.runs, u) - {l.id}
                                     else RunsOf(p.runs, u)
  {
    match l
    case Track(id, now) => RunsAfterTrack(p.runs, who, id, now, u);
    case Untrack(id) => RunsAfterForget(p.runs, who, id, u);
    case _ =>
  }

  lemma TrackedAfter(s: System, id: nat, l: Label, p: Party)
    requires TrackedOk(s) && id in s.parties && Amounts(s.parties[id], l, p)
    requires PoolNext(s.pool, UserOf(s.parties[id]), l).Some?
    ensures TrackedOk(With(s, PoolNext(s.pool, UserOf(s.parties[id]), l).value, id, p))
  {
    hide PoolNext, SlotsOf, ChargesOf, ExposedOf, TrackedOf;
    var who := UserOf(s.parties[id]);
    var s' := With(s, PoolNext(s.pool, who, l).value, id, p);
    RunsStep(s.pool, who, l, who);
    forall u, c | c in RunsOf(s'.pool.runs, u)
      ensures exists i :: i in s'.parties && UserOf(s'.parties[i]) == u && c in TrackedOf(s'.parties[i])
    {
      RunsStep(s.pool, who, l, u);
      if c in RunsOf(s.pool.runs, u) {
        var i :| i in s.parties && UserOf(s.parties[i]) == u && c in TrackedOf(s.parties[i]);
        assert i in s'.parties && UserOf(s'.parties[i]) == u && c in TrackedOf(s'.parties[i]);
      } else {
        assert id in s'.parties && UserOf(s'.parties[id]) == u && c in TrackedOf(s'.parties[id]);
      }
    }
  }

  lemma SlotsPool(p: Pool, u: User, l: Label)
    requires PoolNext(p, u, l).Some?
    ensures var p' := PoolNext(p, u, l).value;
            && p'.current == p.current + SlotGain(l) && p'.max == p.max && (SlotGain(l) <= 0 || p.current < p.max)
  {
  }

  lemma PartyAfter(s: System, id: nat, l: Label, p: Party)
    requires SlotsOk(s) && LiveOk(s) && ChargesOk(s) && TrackedOk(s)
    requires id in s.parties && Amounts(s.parties[id], l, p) && PoolNext(s.pool, UserOf(s.parties[id]), l).Some?
    ensures var s' := With(s, PoolNext(s.pool, UserOf(s.parties[id]), l).value, id, p);
            SlotsOk(s') && LiveOk(s') && ChargesOk(s') && TrackedOk(s') && s'.pool.max == s.pool.max
  {
    hide LiveOk, ChargesOk, TrackedOk;
    SlotsPool(s.pool, UserOf(s.parties[id]), l);
    SlotsAfter(s, PoolNext(s.pool, UserOf(s.parties[id]), l).value, id, p, SlotGain(l));
    ChargesAfter(s, id, l, p);
    LiveAfter(s, id, l, p);
    TrackedAfter(s, id, l, p);
  }

  lemma OpenKeepsRest(s: System, id: nat, p: Party)
    requires LiveOk(s) && TrackedOk(s) && id !in s.parties
    ensures LiveOk(With(s, s.pool, id, p)) && TrackedOk(With(s, s.pool, id, p))
  {
    var s' := With(s, s.pool, id, p);
    forall c | c in s.pool.live
      ensures exists i :: i in s'.parties && c in ExposedOf(s'.parties[i])
    {
      var i :| i in s.parties && c in ExposedOf(s.parties[i]);
      assert i in s'.parties && c in ExposedOf(s'.parties[i]);
    }
    forall u, c | c in RunsOf(s.pool.runs, u)
      ensures exists i :: i in s'.parties && UserOf(s'.parties[i]) == u && c in TrackedOf(s'.parties[i])
    {
      var i :| i in s.parties && UserOf(s.parties[i]) == u && c in TrackedOf(s.parties[i]);
      assert i in s'.parties && UserOf(s'.parties[i]) == u && c in TrackedOf(s'.parties[i]);
    }
  }

  lemma OpenKeepsInv(s: System, id: nat, p: Party)
    requires SystemInv(s) && id !in s.parties && (p == Request(RestAcquiring) || p == Socket(NewConn(UserOf(p))))
    ensures SystemInv(With(s, s.pool, id, p))
  {
    if p.Socket? {
      InvInit(p.conn.user);
    }
    SlotsAfter(s, s.pool, id, p, 0);
    forall u
      ensures |Owed(With(s, s.pool, id, p), u)| == |Owed(s, u)|
    {
      OwedAfter(s, s.pool, id, p, u);
    }
    OpenKeepsRest(s, id, p);
  }

  lemma StepKeepsInv(s: System, e: Event)
    requires SystemInv(s) && SystemNext(s, e).Some?
    ensures SystemInv(SystemNext(s, e).value) && SystemNext(s, e).value.pool.max == s.pool.max
  {
    match e
    case Open(id, party) =>
      OpenKeepsInv(s, id, party);
    case Step(id, actor, l) =>
      var p' := PartyNext(s.parties[id], actor, l).value;
      PartyStep(s.parties[id], actor, l, p');
      PartyAfter(s, id, l, p');
    case Reap(victim) =>
      var s' := SystemNext(s, e).value;
      assert SlotMap(s') == SlotMap(s);
      forall u
        ensures Owed(s', u) == Owed(s, u)
      {
        assert ChargeMap(s', u) == ChargeMap(s, u);
      }
  }

  lemma {:induction false} Always(max: int, ss: seq<System>, es: seq<Event>, i: nat)
    requires Behaviour(max, ss, es) && i < |ss|
    ensures SystemInv(ss[i]) && ss[i].pool.max == max
    decreases i
  {
    hide SystemNext, SystemInv;
    if i == 0 {
      StartOk(max);
    } else {
      Always(max, ss, es, i - 1);
      assert SystemNext(ss[i - 1], es[i - 1]) == Some(ss[i - 1 + 1]);
      StepKeepsInv(ss[i - 1], es[i - 1]);
    }
  }

  /** The reaper, or whoever else removes containers, may take any container at any moment, and nothing else. */
  lemma AnyContainerMayVanish(s: System, victim: ContainerId)
    ensures SystemNext(s, Reap(victim)).Some?
    ensures var s' := SystemNext(s, Reap(victim)).value;
            victim !in s'.pool.live && s' == s.(pool := s.pool.(live := s'.pool.live))
            && forall id | id in s.pool.live && id != victim :: id in s'.pool.live
  {
  }
}
