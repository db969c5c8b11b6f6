/** States of the process that lead to one another. */
module Reachability {
  import opened Options
  import opened Runner

  ghost predicate Path(ss: seq<System>, es: seq<Event>) {
    |ss| == |es| + 1 && forall i | 0 <= i < |es| :: SystemNext(ss[i], es[i]) == Some(ss[i + 1])
  }

  /** Some sequence of events leads from `s` to `s'`. */
  ghost predicate Reaches(s: System, s': System) {
    exists ss, es :: Path(ss, es) && ss[0] == s && ss[|es|] == s'
  }

  lemma Stay(s: System)
    ensures Reaches(s, s)
  {
    assert Path([s], []);
  }

  lemma Go(a: System, s: System, e: Event, s': System)
    requires Reaches(a, s) && SystemNext(s, e) == Some(s')
    ensures Reaches(a, s')
  {
    hide SystemNext;
    var ss, es :| Path(ss, es) && ss[0] == a && ss[|es|] == s;
    assert Path(ss + [s'], es + [e]);
  }

  lemma Joins(a: System, b: System, c: System)
    requires Reaches(a, b) && Reaches(b, c)
    ensures Reaches(a, c)
  {
    hide SystemNext;
    var ss1, es1 :| Path(ss1, es1) && ss1[0] == a && ss1[|es1|] == b;
    var ss2, es2 :| Path(ss2, es2) && ss2[0] == b && ss2[|es2|] == c;
    var ss, es := ss1 + ss2[1..], es1 + es2;
    forall k | 0 <= k < |es|
      ensures SystemNext(ss[k], es[k]) == Some(ss[k + 1])
    {
      if k >= |es1| {
        assert ss[k] == ss2[k - |es1|] && ss[k + 1] == ss2[k + 1 - |es1|] && es[k] == es2[k - |es1|];
      }
    }
    assert Path(ss, es);
  }

  lemma Lengths(max: int, ss: seq<System>, es: seq<Event>)
    requires Behaviour(max, ss, es)
    ensures |ss| == |es| + 1
  {
  }

  /** What a state of a behaviour reaches is reached by a behaviour that begins alike. */
  lemma Continues(max: int, ss: seq<System>, es: seq<Event>, i: nat, s': System)
    returns (ss': seq<System>, es': seq<Event>)
    requires Behaviour(max, ss, es) && i < |ss| && Reaches(ss[i], s')
    ensures Behaviour(max, ss', es') && ss[..i + 1] <= ss' && es[..i] <= es' && ss'[|es'|] == s'
  {
    hide SystemNext;
    var ss2, es2 :| Path(ss2, es2) && ss2[0] == ss[i] && ss2[|es2|] == s';
    ss', es' := ss[..i] + ss2, es[..i] + es2;
    forall k | 0 <= k < |es'|
      ensures SystemNext(ss'[k], es'[k]) == Some(ss'[k + 1])
    {
      if k >= i {
        assert ss'[k] == ss2[k - i] && ss'[k + 1] == ss2[k + 1 - i] && es'[k] == es2[k - i];
      } else if k == i - 1 {
        assert ss'[k + 1] == ss2[0] == ss[k + 1];
      }
    }
  }

  /** What `Start` reaches, and what that reaches, are states of one behaviour. */
  lemma ReachedInOrder(max: int, s: System, s': System) returns (ss: seq<System>, es: seq<Event>, i: nat)
    requires Reaches(Start(max), s) && Reaches(s, s')
    ensures Behaviour(max, ss, es) && i < |ss| && ss[i] == s && ss[|es|] == s'
  {
    hide SystemNext;
    assert Behaviour(max, [Start(max)], []);
    var ss1, es1 := Continues(max, [Start(max)], [], 0, s);
    i := |es1|;
    ss, es := Continues(max, ss1, es1, i, s');
    assert ss[i] == ss1[..i + 1][i];
  }
}
