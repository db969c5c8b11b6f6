/** executor/container.go: which containers exist.  Images, tar streams and attach sockets are
    reduced to the point at which a step may fail; `Remove` is taken to succeed and to be harmless
    on a container that is already gone. */
module DockerClient {
  import opened Options

  /** Container names; the daemon never reuses one. */
  type ContainerId = nat

  datatype ExitReason = Normal | Error | Oom | Timeout | Crash

  /** What `ContainerInspect` answered. */
  datatype Inspection = Unavailable | Inspected(oomKilled: bool)

  /** The reason reported for a stopped container; a timeout masks everything else. */
  function InspectContainer(info: Inspection, exitCode: int, wasTimedOut: bool): (reason: ExitReason)
    ensures reason == Timeout <==> wasTimedOut
    ensures reason == Oom <==> !wasTimedOut && info == Inspected(true)
    ensures reason == Crash <==> !wasTimedOut && info.Unavailable? && exitCode != 0
    ensures reason == Error <==> !wasTimedOut && info == Inspected(false) && exitCode != 0
  {
    if wasTimedOut then Timeout
    else
      match info
      case Unavailable => if exitCode == 0 then Normal else Crash
      case Inspected(oomKilled) => if oomKilled then Oom else if exitCode == 0 then Normal else Error
  }

  /** The first step of a container's life that goes wrong, if any does; `WaitFault` is a failure to wait
      for the end or to fetch the logs. */
  datatype Fault = NoFault | ImageFault | StagingFault | CreateFault | CopyFault | StartFault | AttachFault | WaitFault

  class Docker {
    var live: set<ContainerId>
    var next: ContainerId

    ghost predicate Valid()
      reads this
    {
      forall c | c in live :: c < next
    }

    constructor ()
      ensures Valid() && live == {}
    {
      live := {};
      next := 0;
    }

    /** `ContainerCreate`: from here on the container exists, whatever fails later. */
    method ContainerCreate() returns (id: ContainerId)
      requires Valid()
      modifies this
      ensures Valid() && id == old(next) && next == id + 1
      ensures id !in old(live) && live == old(live) + {id}
    {
      id := next;
      live := live + {id};
      next := next + 1;
    }

    /** `Remove`: forced, and idempotent. */
    method Remove(id: ContainerId)
      requires Valid()
      modifies this
      ensures Valid() && live == old(live) - {id} && next == old(next)
    {
      live := live - {id};
    }

    /** `CreateInteractive`: the container exists exactly when it is handed over. */
    method CreateInteractive(fault: Fault) returns (session: Option<ContainerId>)
      requires Valid()
      modifies this
      ensures Valid() && old(next) <= next
      ensures session.None? <==> fault in {ImageFault, StagingFault, CreateFault, CopyFault, StartFault, AttachFault}
      ensures session.None? ==> live == old(live)
      ensures session.Some? ==> session.value !in old(live) && live == old(live) + {session.value}
    {
      if fault == ImageFault || fault == StagingFault || fault == CreateFault {
        return None;
      }
      var id := ContainerCreate();
      if fault == CopyFault {
        Remove(id);
        return None;
      }
      if fault == StartFault {
        Remove(id);
        return None;
      }
      if fault == AttachFault {
        Remove(id);
        return None;
      }
      return Some(id);
    }

    /** `CreateShell`: as above, without files to stage or to copy. */
    method CreateShell(fault: Fault) returns (session: Option<ContainerId>)
      requires Valid()
      modifies this
      ensures Valid() && old(next) <= next
      ensures session.None? <==> fault in {ImageFault, CreateFault, StartFault, AttachFault}
      ensures session.None? ==> live == old(live)
      ensures session.Some? ==> session.value !in old(live) && live == old(live) + {session.value}
    {
      if fault == ImageFault || fault == CreateFault {
        return None;
      }
      var id := ContainerCreate();
      if fault == StartFault {
        Remove(id);
        return None;
      }
      if fault == AttachFault {
        Remove(id);
        return None;
      }
      return Some(id);
    }

    /** `RunNonInteractive`: no path leaves a container behind.  A missing image is answered with a
        response, not with an error. */
    method RunNonInteractive(fault: Fault, exitCode: int) returns (response: Option<int>)
      requires Valid()
      modifies this
      ensures Valid() && live == old(live)
      ensures response == match fault
                          case NoFault => Some(exitCode)
                          case ImageFault => Some(1)
                          case _ => None
    {
      if fault == ImageFault {
        return Some(1);
      }
      if fault == StagingFault || fault == CreateFault {
        return None;
      }
      var id := ContainerCreate();
      if fault == CopyFault || fault == StartFault || fault == AttachFault || fault == WaitFault {
        response := None;
      } else {
        response := Some(exitCode);
      }
      Remove(id);
    }
  }
}
