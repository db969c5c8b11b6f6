/** handler/websocket.go:76-188: the process-wide tables `userContainers` (how many containers each
    user is charged for) and `userRuns` (the run containers that may be evicted). */
module UserQuota {
  import opened Options
  import opened DockerClient

  type User = string

  const MAX_CONTAINERS_PER_USER := 3
  const MAX_INT64 := 0x7FFF_FFFF_FFFF_FFFF

  type Counts = map<User, int>
  type Runs = map<User, map<ContainerId, int>>

  /** Go's map read: an absent entry reads as zero. */
  function Count(counts: Counts, u: User): int {
    if u in counts then counts[u] else 0
  }

  function RunsOf(runs: Runs, u: User): map<ContainerId, int> {
    if u in runs then runs[u] else map[]
  }

  predicate BelowCap(counts: Counts, u: User) {
    Count(counts, u) < MAX_CONTAINERS_PER_USER
  }

  function Increment(counts: Counts, u: User): Counts {
    counts[u := Count(counts, u) + 1]
  }

  /** Decrementing deletes an entry that reaches zero, so the count saturates there. */
  function Decrement(counts: Counts, u: User): Counts {
    if Count(counts, u) <= 1 then counts - {u} else counts[u := counts[u] - 1]
  }

  function Track(runs: Runs, u: User, id: ContainerId, now: int): Runs {
    runs[u := RunsOf(runs, u)[id := now]]
  }

  function Forget(runs: Runs, u: User, id: ContainerId): Runs {
    if u !in runs then runs
    else if runs[u].Keys <= {id} then runs - {u}
    else runs[u := runs[u] - {id}]
  }

  /** Charged entries are between one and the cap. */
  ghost predicate CountsOk(counts: Counts) {
    forall u | u in counts :: 1 <= counts[u] <= MAX_CONTAINERS_PER_USER
  }

  ghost predicate RunsOk(runs: Runs) {
    forall u | u in runs :: runs[u] != map[]
  }

  /** The scan only sees creation times below MaxInt64. */
  ghost predicate HasVictim(m: map<ContainerId, int>) {
    exists id :: id in m && m[id] < MAX_INT64
  }

  ghost predicate IsOldest(m: map<ContainerId, int>, victim: Option<ContainerId>) {
    match victim
    case None => !HasVictim(m)
    case Some(v) => v in m && m[v] < MAX_INT64 && forall id | id in m :: m[v] <= m[id]
  }

  lemma CountAfterDecrement(counts: Counts, u: User, w: User)
    requires CountsOk(counts)
    ensures CountsOk(Decrement(counts, u))
    ensures Count(Decrement(counts, u), w) ==
            if w == u && Count(counts, u) > 0 then Count(counts, u) - 1 else Count(counts, w)
  {
  }

  lemma RunsAfterTrack(runs: Runs, u: User, id: ContainerId, now: int, w: User)
    requires RunsOk(runs)
    ensures RunsOk(Track(runs, u, id, now))
    ensures RunsOf(Track(runs, u, id, now), w) == if w == u then RunsOf(runs, u)[id := now] else RunsOf(runs, w)
  {
    assert id in RunsOf(runs, u)[id := now];
  }

  lemma RunsAfterForget(runs: Runs, u: User, id: ContainerId, w: User)
    requires RunsOk(runs)
    ensures RunsOk(Forget(runs, u, id))
    ensures RunsOf(Forget(runs, u, id), w) == if w == u then RunsOf(runs, u) - {id} else RunsOf(runs, w)
  {
    if u in runs && !(runs[u].Keys <= {id}) {
      var c :| c in runs[u] && c != id;
      assert c in runs[u] - {id};
    }
  }

  class UserContainers {
    var counts: Counts
    var runs: Runs

    ghost predicate Valid()
      reads this
    {
      CountsOk(counts) && RunsOk(runs)
    }

    constructor ()
      ensures Valid() && counts == map[] && runs == map[]
    {
      counts := map[];
      runs := map[];
    }

    method IncUserContainers(u: User) returns (ok: bool)
      requires Valid()
      modifies this
      ensures Valid() && runs == old(runs)
      ensures ok == BelowCap(old(counts), u)
      ensures counts == if ok then Increment(old(counts), u) else old(counts)
      ensures Count(counts, u) == Count(old(counts), u) + if Count(old(counts), u) < 3 then 1 else 0
      ensures forall w | w != u :: Count(counts, w) == Count(old(counts), w)
    {
      if Count(counts, u) >= MAX_CONTAINERS_PER_USER {
        return false;
      }
      counts := counts[u := Count(counts, u) + 1];
      return true;
    }

    method DecUserContainers(u: User)
      requires Valid()
      modifies this
      ensures Valid() && runs == old(runs)
      ensures counts == Decrement(old(counts), u)
      ensures Count(counts, u) == Count(old(counts), u) - if Count(old(counts), u) > 0 then 1 else 0
      ensures forall w | w != u :: Count(counts, w) == Count(old(counts), w)
    {
      counts := counts[u := Count(counts, u) - 1];
      if counts[u] <= 0 {
        counts := counts - {u};
      }
    }

    method TrackUserRun(u: User, id: ContainerId, now: int)
      requires Valid()
      modifies this
      ensures Valid() && counts == old(counts)
      ensures runs == Track(old(runs), u, id, now)
      ensures RunsOf(runs, u) == RunsOf(old(runs), u)[id := now]
      ensures forall w | w != u :: RunsOf(runs, w) == RunsOf(old(runs), w)
    {
      if u !in runs {
        runs := runs[u := map[]];
      }
      var m: map<ContainerId, int> := runs[u][id := now];
      assert id in m;
      runs := runs[u := m];
    }

    method DeleteUserRun(u: User, id: ContainerId)
      requires Valid()
      modifies this
      ensures Valid() && counts == old(counts)
      ensures runs == Forget(old(runs), u, id)
      ensures RunsOf(runs, u) == RunsOf(old(runs), u) - {id}
      ensures forall w | w != u :: RunsOf(runs, w) == RunsOf(old(runs), w)
    {
      ghost var before := runs;
      if u in runs {
        var m := runs[u] - {id};
        assert |m| == 0 <==> runs[u].Keys <= {id} by {
          assert m.Keys == runs[u].Keys - {id};
        }
        runs := runs[u := m];
        if |m| == 0 {
          runs := runs - {u};
          assert runs == before - {u};
        }
      }
      assert runs == Forget(before, u, id);
      RunsAfterForget(before, u, id, u);
      forall w | w != u
        ensures RunsOf(runs, w) == RunsOf(before, w)
      {
        RunsAfterForget(before, u, id, w);
      }
    }

    /** The scan for the oldest tracked run (lines 157-167). */
    method PickOldest(u: User) returns (oldest: Option<ContainerId>)
      ensures IsOldest(RunsOf(runs, u), oldest)
      ensures oldest.Some? ==> u in runs && oldest.value in runs[u]
                               && forall id | id in runs[u] :: runs[u][oldest.value] <= runs[u][id]
      ensures oldest.None? ==> u !in runs || forall id | id in runs[u] :: runs[u][id] >= MAX_INT64
    {
      var m := RunsOf(runs, u);
      oldest := None;
      var oldestTime := MAX_INT64;
      var todo := m.Keys;
      while todo != {}
        invariant todo <= m.Keys
        invariant oldestTime <= MAX_INT64
        invariant forall id | id in m && id !in todo :: oldestTime <= m[id]
        invariant oldest.None? ==> oldestTime == MAX_INT64
        invariant oldest.Some? ==> oldest.value in m && m[oldest.value] == oldestTime < MAX_INT64
        decreases todo
      {
        var id :| id in todo;
        if m[id] < oldestTime {
          oldestTime := m[id];
          oldest := Some(id);
        }
        todo := todo - {id};
      }
    }

    /** Evicts the user's oldest tracked run if the user is at the cap and has one. */
    method EvictOldest(docker: Docker, u: User) returns (evicted: Option<ContainerId>)
      requires Valid() && docker.Valid()
      modifies this, docker
      ensures Valid() && docker.Valid()
      ensures evicted.Some? <==> !BelowCap(old(counts), u) && HasVictim(RunsOf(old(runs), u))
      ensures evicted.None? ==> counts == old(counts) && runs == old(runs) && docker.live == old(docker.live)
      ensures evicted.Some? ==> IsOldest(RunsOf(old(runs), u), evicted)
                                && counts == Decrement(old(counts), u)
                                && runs == Forget(old(runs), u, evicted.value)
                                && docker.live == old(docker.live) - {evicted.value}
    {
      if Count(counts, u) < MAX_CONTAINERS_PER_USER {
        return None;
      }
      if |RunsOf(runs, u)| == 0 {
        return None;
      }
      evicted := PickOldest(u);
      if evicted.None? {
        return;
      }
      docker.Remove(evicted.value);
      DeleteUserRun(u, evicted.value);
      DecUserContainers(u);
    }

    /** The admission of `handleRunMessage` (lines 495-501), undisturbed by other goroutines.
        "Newest action wins" holds exactly when the user is below the cap or has a run that is still
        tracked, which a run is only while its handler has not returned. */
    method Admit(docker: Docker, u: User) returns (ok: bool)
      requires Valid() && docker.Valid()
      modifies this, docker
      ensures Valid() && docker.Valid()
      ensures ok <==> BelowCap(old(counts), u) || HasVictim(RunsOf(old(runs), u))
      ensures !ok ==> counts == old(counts) && runs == old(runs) && docker.live == old(docker.live)
      ensures ok ==> Count(counts, u) ==
                     (if BelowCap(old(counts), u) then Count(old(counts), u) + 1 else MAX_CONTAINERS_PER_USER)
      ensures forall w | w != u :: Count(counts, w) == Count(old(counts), w)
    {
      ok := IncUserContainers(u);
      if !ok {
        var _ := EvictOldest(docker, u);
        ok := IncUserContainers(u);
      }
    }
  }
}
