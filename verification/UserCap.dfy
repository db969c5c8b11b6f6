/** "The maximum concurrent containers a single user can have" (handler/websocket.go:98-99): for which
    capacities of the process it holds. */
module UserCap {
  import opened Options
  import opened DockerClient
  import opened UserQuota
  import opened Runner
  import opened Guarantees
  import opened Witnesses

  ghost predicate Owns(s: System, u: User, id: ContainerId) {
    exists p, g :: HasJob(s, p, g) && UserOf(s.parties[p]) == u && JobAt(s, p, g).container == Some(id)
  }

  /** The live containers of user `u`'s runs and shells. */
  ghost function LiveContainers(s: System, u: User): set<ContainerId> {
    set id | id in s.pool.live && Owns(s, u, id)
  }

  /** In every state of every behaviour, every user has at most `cap` live runs. */
  ghost predicate RunsCapped(max: int, cap: nat) {
    forall ss: seq<System>, es: seq<Event>, i: nat, u: User | Behaviour(max, ss, es) && i < |ss| ::
      |LiveRuns(ss[i], u)| <= cap
  }

  /** In every state of every behaviour, every user has at most `cap` live containers. */
  ghost predicate ContainersCapped(max: int, cap: nat) {
    forall ss: seq<System>, es: seq<Event>, i: nat, u: User | Behaviour(max, ss, es) && i < |ss| ::
      |LiveContainers(ss[i], u)| <= cap
  }

  lemma SubsetCard<T>(a: set<T>, b: set<T>)
    requires a <= b
    ensures |a| <= |b|
  {
    assert b == a + (b - a);
  }

  lemma LiveWithinCapacity(max: int, ss: seq<System>, es: seq<Event>, i: nat)
    requires Behaviour(max, ss, es) && i < |ss|
    ensures |ss[i].pool.live| <= if max < 0 then 0 else max
  {
    hide SystemNext, PartiesOk, LiveOk, ChargesOk, TrackedOk;
    Always(max, ss, es, i);
    var slots := CapacityHolds(max, ss, es, i);
  }

  lemma AloneOwnsAll(s: System, u: User)
    requires SystemInv(s) && forall p | p in s.parties :: s.parties[p].Socket? && s.parties[p].conn.user == u
    ensures LiveContainers(s, u) == s.pool.live
  {
    hide PartyInv, SlotsOk, ChargesOk, TrackedOk, ExposedOf;
    forall id | id in s.pool.live
      ensures Owns(s, u, id)
    {
      var p :| p in s.parties && id in ExposedOf(s.parties[p]);
      ExposedNames(s.parties[p], id);
      assert HasJob(s, p, CurrentSlot(s.parties[p]));
    }
  }

  /** The per-user limit of three on runs, or any larger one, holds if and only if the process has no more
      slots than that: it bounds no user that the capacity does not bound. */
  lemma RunCapExactly(max: int, cap: nat)
    requires cap >= MAX_CONTAINERS_PER_USER
    ensures RunsCapped(max, cap) <==> max <= cap
  {
    hide Behaviour;
    if max <= cap {
      forall ss: seq<System>, es: seq<Event>, i: nat, u: User | Behaviour(max, ss, es) && i < |ss|
        ensures |LiveRuns(ss[i], u)| <= cap
      {
        LiveWithinCapacity(max, ss, es, i);
        SubsetCard(LiveRuns(ss[i], u), ss[i].pool.live);
      }
    } else {
      var ss, es := RunsPileUp(max, "", cap + 1 - MAX_CONTAINERS_PER_USER);
      LastIndex(max, ss, es);
      assert |LiveRuns(ss[|es|], "")| > cap;
    }
  }

  lemma LastIndex(max: int, ss: seq<System>, es: seq<Event>)
    requires Behaviour(max, ss, es)
    ensures |es| < |ss|
  {
  }

  /** The same for all containers of a user, and for every limit, since shells are not charged. */
  lemma ContainerCapExactly(max: int, cap: nat)
    ensures ContainersCapped(max, cap) <==> max <= cap
  {
    hide Behaviour, SystemInv;
    if max <= cap {
      forall ss: seq<System>, es: seq<Event>, i: nat, u: User | Behaviour(max, ss, es) && i < |ss|
        ensures |LiveContainers(ss[i], u)| <= cap
      {
        LiveWithinCapacity(max, ss, es, i);
        SubsetCard(LiveContainers(ss[i], u), ss[i].pool.live);
      }
    } else {
      var ss, es := ShellsAreNotCharged(max, "", cap + 1);
      LastIndex(max, ss, es);
      Always(max, ss, es, |es|);
      AloneOwnsAll(ss[|es|], "");
      assert |LiveContainers(ss[|es|], "")| > cap;
    }
  }
}
