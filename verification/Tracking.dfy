/** Which runs can be evicted (handler/websocket.go:580-583): those between tracking and untracking. */
module Tracking {
  import opened Options
  import opened DockerClient
  import opened UserQuota
  import opened Connection
  import opened ConnectionInv
  import opened Accounts
  import opened Runner
  import opened Guarantees
  import opened Admission

  /** A container newly between tracking and untracking has just been tracked. */
  lemma TrackedGain(c: Conn, actor: Actor, l: Label, id: ContainerId)
    requires PcOk(c) && Next(c, actor, l).Some? && id in Tracked(Next(c, actor, l).value) && id !in Tracked(c)
    ensures actor.Handler? && l.Track? && l.id == id
  {
    hide PhaseOf, WorkerNext;
  }

  /** Who tracks a container is launching it, and has not tracked it yet. */
  lemma TrackersLaunch(c: Conn, actor: Actor, l: Label)
    requires PcOk(c) && Next(c, actor, l).Some? && l.Track?
    ensures Tracked(c) == {} && RunsUnder(Socket(c), c.st.generation, l.id)
  {
    hide PhaseOf;
  }

  lemma TrackedIsNamed(c: Conn, id: ContainerId)
    requires PcOk(c) && id in Tracked(c)
    ensures RunsUnder(Socket(c), c.st.generation, id)
  {
    hide PhaseOf;
  }

  /** Event `e` takes user `u`'s run `id` off the table: its own handler returns, or it is evicted. */
  predicate Untracks(s: System, e: Event, u: User, id: ContainerId) {
    e.Step? && e.id in s.parties && UserOf(s.parties[e.id]) == u && e.l == Untrack(id)
  }

  predicate Lists(s: System, u: User, id: ContainerId, now: int) {
    id in RunsOf(s.pool.runs, u) && RunsOf(s.pool.runs, u)[id] == now
  }

  predicate IsTracked(s: System, p: nat, id: ContainerId) {
    HasConn(s, p) && id in Tracked(s.parties[p].conn)
  }

  /** An entry stays as it is until it is untracked. */
  lemma ListedStays(s: System, e: Event, s': System, p: nat, id: ContainerId, now: int)
    requires PartiesOk(s) && NamesOk(s) && RunsOk(s.pool.runs) && SystemNext(s, e) == Some(s')
    requires IsTracked(s, p, id) && Lists(s, UserOf(s.parties[p]), id, now) && !Untracks(s, e, UserOf(s.parties[p]), id)
    ensures Lists(s', UserOf(s.parties[p]), id, now)
  {
    hide Next, RestNext, PoolNext, JobsOk, LaunchOk, Tracked;
    if e.Step? {
      var q, u := s.parties[e.id], UserOf(s.parties[p]);
      RunsStep(s.pool, UserOf(q), e.l, u);
      TrackedIsNamed(s.parties[p].conn, id);
      if e.l.Track? && e.l.id == id {
        TrackStep(q, e.actor, e.l);
      }
    }
  }

  lemma TrackStep(p: Party, actor: Actor, l: Label)
    requires PartyInv(p) && PartyNext(p, actor, l).Some? && l.Track?
    ensures p.Socket? && Tracked(p.conn) == {} && RunsUnder(p, CurrentSlot(p), l.id)
  {
    hide Next, JobsOk;
    if p.Socket? {
      TrackersLaunch(p.conn, actor, l);
    }
  }

  /** A container that comes to stand between tracking and untracking is on the table from then on. */
  lemma TrackedNow(s: System, e: Event, s': System, p: nat, id: ContainerId) returns (now: int)
    requires PartiesOk(s) && RunsOk(s.pool.runs) && SystemNext(s, e) == Some(s')
    requires IsTracked(s', p, id) && !IsTracked(s, p, id)
    ensures e == Step(p, Handler, Track(id, now)) && Lists(s', UserOf(s'.parties[p]), id, now)
  {
    hide Next, RestNext, PoolNext, JobsOk, LaunchOk;
    if e.Step? && e.id == p && s.parties[p].Socket? {
      TrackedGain(s.parties[p].conn, e.actor, e.l, id);
      SameUser(s.parties[p].conn, e.actor, e.l);
      now := e.l.now;
      RunsStep(s.pool, UserOf(s.parties[p]), e.l, UserOf(s.parties[p]));
    } else {
      assert false;
    }
  }

  lemma SameUsers(s: System, e: Event, s': System, p: nat)
    requires SystemNext(s, e) == Some(s') && HasConn(s, p)
    ensures HasConn(s', p) && UserOf(s'.parties[p]) == UserOf(s.parties[p])
  {
    hide Next, PoolNext, RestNext;
    if e.Step? && e.id == p {
      SameUser(s.parties[p].conn, e.actor, e.l);
    }
  }

  /** The converse of `EvictableOnlyWhileLaunching`: from line 582 until its handler returns, a run is on its
      user's table with the time at which it was tracked, unless somebody has evicted it since. */
  lemma {:induction false} TrackedRunIsListed(max: int, ss: seq<System>, es: seq<Event>, k: nat, p: nat,
                                              id: ContainerId)
    returns (i: nat, now: int)
    requires Behaviour(max, ss, es) && k < |ss| && IsTracked(ss[k], p, id)
    ensures i < k && es[i] == Step(p, Handler, Track(id, now))
    ensures var u := UserOf(ss[k].parties[p]);
            (exists j :: i < j < k && Untracks(ss[j], es[j], u, id)) || Lists(ss[k], u, id, now)
    decreases k
  {
    hide SystemNext, PartyInv, Tracked, NamesOk, SlotsOk, LiveOk, ChargesOk, Lists, Untracks;
    assert k > 0 by { assert ss[0].parties == map[]; }
    Always(max, ss, es, k - 1);
    NamesAlways(max, ss, es, k - 1);
    assert SystemNext(ss[k - 1], es[k - 1]) == Some(ss[k - 1 + 1]);
    if IsTracked(ss[k - 1], p, id) {
      i, now := TrackedRunIsListed(max, ss, es, k - 1, p, id);
      SameUsers(ss[k - 1], es[k - 1], ss[k], p);
      var u := UserOf(ss[k].parties[p]);
      if Lists(ss[k - 1], u, id, now) {
        if !Untracks(ss[k - 1], es[k - 1], u, id) {
          ListedStays(ss[k - 1], es[k - 1], ss[k], p, id, now);
        } else {
          UntrackIsNoTrack(ss[k - 1], es[k - 1], u, id, p, now);
        }
      }
    } else {
      now := TrackedNow(ss[k - 1], es[k - 1], ss[k], p, id);
      i := k - 1;
    }
  }

  lemma UntrackIsNoTrack(s: System, e: Event, u: User, id: ContainerId, p: nat, now: int)
    requires Untracks(s, e, u, id)
    ensures e != Step(p, Handler, Track(id, now))
  {
  }

  /** The handler that is at the cap picks one of the user's runs that no other is older than, and picks none
      only if no run has a time below the largest integer. */
  lemma EvictionPicksTheOldest(s: System, p: nat, victim: Option<ContainerId>)
    requires HasConn(s, p) && PcOf(s, p).PickingVictim?
    ensures SystemNext(s, Step(p, Handler, Pick(victim))).Some? <==>
            var runs := RunsOf(s.pool.runs, UserOf(s.parties[p]));
            match victim
            case Some(id) => id in runs && runs[id] < MAX_INT64 && forall k | k in runs :: runs[id] <= runs[k]
            case None => forall k | k in runs :: runs[k] >= MAX_INT64
    ensures SystemNext(s, Step(p, Handler, Pick(victim))).Some? && victim.Some? ==>
              var s' := SystemNext(s, Step(p, Handler, Pick(victim))).value;
              HasConn(s', p) && PcOf(s', p) == Evicting(victim.value) && s'.pool == s.pool
  {
  }
}
