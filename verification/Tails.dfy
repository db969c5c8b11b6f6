/** What a job that is no longer current can still send: the bound of `Histories`, met from every state. */
module Tails {
  import opened Options
  import opened DockerClient
  import opened Connection
  import opened Histories
  import opened Runner
  import opened Guarantees
  import opened Reachability

  // ----- no more than the future allows

  lemma {:induction false} AllowedKinds(f: Future, tail: seq<Message>, m: Message)
    requires Allows(f, tail) && m in tail
    ensures match m
            case Started => false
            case Output => f.output
            case IdleNotice => f.notice
            case Files => f.files
            case Exit(_) => f.exit
    decreases |tail|
  {
    if m != tail[0] {
      assert tail == [tail[0]] + tail[1..];
      match tail[0]
      case Output => AllowedKinds(f.(output := false), tail[1..], m);
      case IdleNotice => AllowedKinds(f.(notice := false), tail[1..], m);
      case Files => AllowedKinds(f.(files := false), tail[1..], m);
      case Exit(_) => AllowedKinds(f.(files := false, exit := false), tail[1..], m);
    }
  }

  /** From `s` the process can go on so that job `g` of connection `p` sends `m`. */
  ghost predicate MaySay(s: System, p: nat, g: nat, m: Message)
    requires HasJob(s, p, g)
  {
    exists s' :: Reaches(s, s') && Adds(s, s', p, g, m)
  }

  predicate Adds(s: System, s': System, p: nat, g: nat, m: Message)
    requires HasJob(s, p, g)
  {
    && HasJob(s', p, g) && JobAt(s, p, g).sent <= JobAt(s', p, g).sent
    && m in JobAt(s', p, g).sent[|JobAt(s, p, g).sent|..]
  }

  lemma SaidWasAllowed(max: int, ss: seq<System>, es: seq<Event>, i: nat, p: nat, g: nat, m: Message)
    requires Behaviour(max, ss, es) && i < |ss| && StaleAt(ss[i], p, g) && MaySay(ss[i], p, g, m)
    ensures match m
            case Started => false
            case Output => FutureAt(ss[i], p, g).output
            case IdleNotice => FutureAt(ss[i], p, g).notice
            case Files => FutureAt(ss[i], p, g).files
            case Exit(_) => FutureAt(ss[i], p, g).exit
  {
    hide Behaviour, Reaches, FutureOf;
    var s' :| Reaches(ss[i], s') && Adds(ss[i], s', p, g, m);
    var ss', es' := Continues(max, ss, es, i, s');
    assert ss'[i] == ss[..i + 1][i] == ss[i];
    assert |ss'| == |es'| + 1 by { Lengths(max, ss', es'); }
    var tail := StaleTail(max, ss', es', i, |es'|, p, g);
    assert JobAt(s', p, g).sent[|JobAt(ss[i], p, g).sent|..] == tail;
    AllowedKinds(FutureAt(ss[i], p, g), tail, m);
  }

  // ----- no less

  /** Job `g` of connection `p` becomes `j`. */
  function WithJobAt(s: System, p: nat, g: nat, j: Job): System
    requires HasJob(s, p, g)
  {
    var c := s.parties[p].conn;
    s.(parties := s.parties[p := Socket(c.(jobs := c.jobs[g := j]))])
  }

  /** A goroutine of the job takes a step that nobody else notices. */
  lemma Works(a: System, s: System, p: nat, g: nat, j: Job, actor: Actor, l: Label, j': Job)
    requires HasJob(s, p, g) && Reaches(a, WithJobAt(s, p, g, j)) && !actor.Handler? && actor.gen == g
    requires WorkerNext(s.parties[p].conn.st, j, actor, l) == Some(Change(s.parties[p].conn.st, j'))
    requires PoolNext(s.pool, s.parties[p].conn.user, l) == Some(s.pool)
    ensures Reaches(a, WithJobAt(s, p, g, j'))
  {
    hide Reaches, WorkerNext;
    var c := s.parties[p].conn;
    assert c.jobs[g := j][g := j'] == c.jobs[g := j'];
    assert WithJobAt(s, p, g, j).parties[p := WithJobAt(s, p, g, j').parties[p]] == WithJobAt(s, p, g, j').parties;
    Go(a, WithJobAt(s, p, g, j), Step(p, actor, l), WithJobAt(s, p, g, j'));
  }

  lemma NoChange(s: System, p: nat, g: nat)
    requires HasJob(s, p, g)
    ensures WithJobAt(s, p, g, JobAt(s, p, g)) == s
  {
    var c := s.parties[p].conn;
    assert c.jobs[g := c.jobs[g]] == c.jobs;
    assert s.parties[p := Socket(c)] == s.parties;
  }

  lemma Added(s: System, p: nat, g: nat, j: Job, m: Message)
    requires HasJob(s, p, g) && Reaches(s, WithJobAt(s, p, g, j)) && JobAt(s, p, g).sent <= j.sent
    requires m in j.sent[|JobAt(s, p, g).sent|..]
    ensures MaySay(s, p, g, m)
  {
    assert Adds(s, WithJobAt(s, p, g, j), p, g, m);
  }

  /** The bridge sends the chunk it has in hand. */
  lemma OutputFollows(s: System, p: nat, g: nat)
    requires HasJob(s, p, g) && JobAt(s, p, g).bridge.Sending?
    ensures MaySay(s, p, g, Output)
  {
    hide MaySay, Reaches;
    var j := JobAt(s, p, g);
    Stay(s);
    NoChange(s, p, g);
    var j' := Say(j, Output).(bridge := if j.bridge.last then Closing else Reading);
    Works(s, s, p, g, j, BridgeOf(g), Tick, j');
    Added(s, p, g, j', Output);
  }

  lemma NoticeFollows(s: System, p: nat, g: nat)
    requires HasJob(s, p, g) && JobAt(s, p, g).timer.Noticing?
    ensures MaySay(s, p, g, IdleNotice)
  {
    hide MaySay, Reaches;
    var j := JobAt(s, p, g);
    Stay(s);
    NoChange(s, p, g);
    var j' := Say(j, IdleNotice).(timer := Cancelling(j.timer.victim));
    Works(s, s, p, g, j, TimerOf(g), Tick, j');
    Added(s, p, g, j', IdleNotice);
  }

  /** The waiter sends the files it has read. */
  lemma FilesFollow(s: System, p: nat, g: nat)
    requires HasJob(s, p, g) && JobAt(s, p, g).waiter.SendingFiles?
    ensures MaySay(s, p, g, Files)
  {
    hide MaySay, Reaches;
    var j := JobAt(s, p, g);
    Stay(s);
    NoChange(s, p, g);
    var j' := Say(j, Files).(waiter := Exiting(j.waiter.reason));
    Works(s, s, p, g, j, WaiterOf(g), Tick, j');
    Added(s, p, g, j', Files);
  }

  /** A waiter that is past its first check gets to its exit, if its second check succeeds: the inspection
      fails, and so does the reading. */
  lemma ExitingFollows(s: System, p: nat, g: nat) returns (j': Job)
    requires HasJob(s, p, g) && FutureAt(s, p, g).exit
    ensures Reaches(s, WithJobAt(s, p, g, j')) && j'.waiter.Exiting? && JobAt(s, p, g).sent <= j'.sent
  {
    hide Reaches;
    j' := JobAt(s, p, g);
    Stay(s);
    NoChange(s, p, g);
    if j'.waiter.Inspecting? {
      var id, reason := j'.waiter.id, InspectContainer(Unavailable, 0, j'.waiter.wasTimedOut);
      Works(s, s, p, g, j', WaiterOf(g), Report(id, Unavailable, 0), j'.(waiter := Rechecking(id, reason)));
      j' := j'.(waiter := Rechecking(id, reason));
    }
    if j'.waiter.Rechecking? {
      var next := j'.(waiter := ReadingFiles(j'.waiter.id, j'.waiter.reason));
      Works(s, s, p, g, j', WaiterOf(g), Tick, next);
      j' := next;
    }
    if j'.waiter.ReadingFiles? {
      var next := j'.(waiter := Exiting(j'.waiter.reason));
      Works(s, s, p, g, j', WaiterOf(g), ReadFiles(j'.waiter.id, false), next);
      j' := next;
    } else if j'.waiter.SendingFiles? {
      var next := Say(j', Files).(waiter := Exiting(j'.waiter.reason));
      Works(s, s, p, g, j', WaiterOf(g), Tick, next);
      j' := next;
    }
  }

  lemma ExitFollows(s: System, p: nat, g: nat) returns (reason: ExitReason)
    requires HasJob(s, p, g) && FutureAt(s, p, g).exit
    ensures MaySay(s, p, g, Exit(reason))
  {
    hide MaySay, Reaches;
    var j := ExitingFollows(s, p, g);
    reason := j.waiter.reason;
    var j' := Say(j, Exit(reason)).(waiter := Finishing);
    Works(s, s, p, g, j, WaiterOf(g), Tick, j');
    var n := |JobAt(s, p, g).sent|;
    assert j'.sent[n..] == j.sent[n..] + [Exit(reason)];
    Added(s, p, g, j', Exit(reason));
  }

  /** "Only send exit if this is still the current generation", exactly: in every state of every behaviour,
      a job that is no longer current can still send a message of some kind if and only if one of its
      goroutines stands past the last check that could stop it, and files only if they have been read
      already: `StaleIsGone`.  The waiter's second check looks at the generation only: clearing the session
      does not stop a waiter that is past its first. */
  lemma StaleFutureIsExact(max: int, ss: seq<System>, es: seq<Event>, i: nat, p: nat, g: nat)
    requires Behaviour(max, ss, es) && i < |ss| && StaleAt(ss[i], p, g)
    ensures var f := FutureAt(ss[i], p, g);
            && (f.output <==> MaySay(ss[i], p, g, Output))
            && (f.notice <==> MaySay(ss[i], p, g, IdleNotice))
            && (f.files <==> MaySay(ss[i], p, g, Files))
            && (f.exit <==> exists reason :: MaySay(ss[i], p, g, Exit(reason)))
  {
    hide Behaviour, MaySay;
    var s, f := ss[i], FutureAt(ss[i], p, g);
    forall m | MaySay(s, p, g, m)
      ensures match m
              case Started => false
              case Output => f.output
              case IdleNotice => f.notice
              case Files => f.files
              case Exit(_) => f.exit
    {
      SaidWasAllowed(max, ss, es, i, p, g, m);
    }
    if f.output { OutputFollows(s, p, g); }
    if f.notice { NoticeFollows(s, p, g); }
    if f.files { FilesFollow(s, p, g); }
    if f.exit { var reason := ExitFollows(s, p, g); }
  }
}
