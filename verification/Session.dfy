/** handler/websocket.go: the fields of one connection's `sessionState` that its goroutines share, and
    the lock..unlock sections over them.  Each section is a function on `Shared`; the class runs the
    section in place, as the handler does. */
module Session {
  import opened Options
  import opened DockerClient

  /** `session` is reduced to the container it names. */
  datatype Shared = Shared(session: Option<ContainerId>, generation: nat, timedOut: bool)

  /** The currency check of the output bridge, kill timer and exit waiter. */
  predicate IsCurrent(st: Shared, g: nat) {
    st.session.Some? && st.generation == g
  }

  /** A new run or shell drops the old session and takes the next generation; only a run clears the
      timeout flag. */
  function Supersede(st: Shared, isRun: bool): Shared {
    Shared(None, st.generation + 1, if isRun then false else st.timedOut)
  }

  function Install(st: Shared, id: ContainerId): Shared {
    st.(session := Some(id))
  }

  function FireKillTimer(st: Shared, g: nat): Shared {
    if IsCurrent(st, g) then st.(timedOut := true) else st
  }

  /** The exit waiter's last section, and the connection's deferred clean-up. */
  function Retire(st: Shared, g: nat): Shared {
    if IsCurrent(st, g) then st.(session := None) else st
  }

  function Hangup(st: Shared): Shared {
    st.(session := None)
  }

  /** The container a section removes: the one `session` names, if the section clears it. */
  function Dropped(st: Shared, st': Shared): set<ContainerId> {
    if st.session.Some? && st'.session.None? then {st.session.value} else {}
  }

  class SessionState {
    var session: Option<ContainerId>
    var generation: nat
    var timedOut: bool

    ghost function View(): Shared
      reads this
    {
      Shared(session, generation, timedOut)
    }

    constructor ()
      ensures View() == Shared(None, 0, false)
    {
      session, generation, timedOut := None, 0, false;
    }

    method Clear(docker: Docker)
      requires docker.Valid()
      modifies this, docker
      ensures docker.Valid() && docker.next == old(docker.next)
      ensures View() == Hangup(old(View()))
      ensures docker.live == old(docker.live) - Dropped(old(View()), View())
    {
      if session.Some? {
        docker.Remove(session.value);
        session := None;
      }
    }

    /** Lines 504-523 for a run, 843-859 for a shell. */
    method Replace(docker: Docker, isRun: bool) returns (currentGen: nat)
      requires docker.Valid()
      modifies this, docker
      ensures docker.Valid() && docker.next == old(docker.next)
      ensures View() == Supersede(old(View()), isRun) && currentGen == generation
      ensures docker.live == old(docker.live) - Dropped(old(View()), View())
    {
      Clear(docker);
      generation := generation + 1;
      currentGen := generation;
      if isRun {
        timedOut := false;
      }
    }

    /** Lines 575-578 and 885-887: the store does not look at the generation again. */
    method Store(id: ContainerId)
      modifies this
      ensures View() == Install(old(View()), id)
    {
      session := Some(id);
    }

    /** What opening a run or a shell amounts to when nobody interferes (lines 504-578 and 843-887): of the
        session's containers only the new one is left, and it is current; if its creation fails, none is. */
    method Relaunch(docker: Docker, isRun: bool, fault: Fault) returns (currentGen: nat)
      requires docker.Valid()
      modifies this, docker
      ensures docker.Valid() && currentGen == old(generation) + 1 == generation
      ensures session.Some? <==> IsCurrent(View(), currentGen)
      ensures session.None? <==> fault in {ImageFault, CreateFault, StartFault, AttachFault}
                                 || (isRun && fault in {StagingFault, CopyFault})
      ensures timedOut == (!isRun && old(timedOut))
      ensures var kept := old(docker.live) - (if old(session).Some? then {old(session).value} else {});
              if session.Some? then session.value !in kept && docker.live == kept + {session.value}
              else docker.live == kept
    {
      currentGen := Replace(docker, isRun);
      var created;
      if isRun {
        created := docker.CreateInteractive(fault);
      } else {
        created := docker.CreateShell(fault);
      }
      if created.Some? {
        Store(created.value);
      }
    }

    /** Lines 624-629. */
    method OnKillTimer(currentGen: nat) returns (cancelled: Option<ContainerId>)
      modifies this
      ensures View() == FireKillTimer(old(View()), currentGen)
      ensures cancelled == if IsCurrent(old(View()), currentGen) then session else None
    {
      cancelled := None;
      if session.Some? && generation == currentGen {
        timedOut := true;
        cancelled := session;
      }
    }

    /** Lines 719-728 and 973-982. */
    method Finish(docker: Docker, currentGen: nat)
      requires docker.Valid()
      modifies this, docker
      ensures docker.Valid() && docker.next == old(docker.next)
      ensures View() == Retire(old(View()), currentGen)
      ensures docker.live == old(docker.live) - Dropped(old(View()), View())
    {
      if session.Some? && generation == currentGen {
        docker.Remove(session.value);
        session := None;
      }
    }

    /** Lines 644-652: the waiter samples the session and the timeout flag in one section. */
    method Sample(currentGen: nat) returns (s: Option<ContainerId>, wasTimedOut: bool)
      ensures s == if IsCurrent(View(), currentGen) then session else None
      ensures wasTimedOut == timedOut
    {
      wasTimedOut := timedOut;
      s := None;
      if session.Some? && generation == currentGen {
        s := session;
      }
    }
  }
}
