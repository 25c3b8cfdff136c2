/**
 The loops of internal/sse/sse.go run against whatever the other goroutines do in between: the shutdown sweep over
 the session map and the drain loop of a session's handler.
 */
module SseHub {
  import opened Sse

  class Hub {
    /** The session map, the sessions and the POSTs in progress. */
    var s: State
    /** The run so far. */
    ghost var states: seq<State>
    ghost var steps: seq<Step>

    ghost predicate Valid()
      reads this
    {
      IsRun(states, steps) && states[|states| - 1] == s
    }

    constructor ()
      ensures Valid() && s == INITIAL
    {
      s, states, steps := INITIAL, [INITIAL], [];
    }

    method Do(step: Step)
      requires Valid() && Enabled(s, step)
      modifies this
      ensures Valid() && s == Next(old(s), step)
      ensures states == old(states) + [s] && steps == old(steps) + [step]
    {
      Continue(states, steps, step, Next(s, step));
      s := Next(s, step);
      states, steps := states + [s], steps + [step];
    }

    lemma Safe()
      requires Valid()
      ensures SessionsOk(s)
    {
      SessionsSafe(states, steps, |states| - 1);
    }

    /** Steps of handlers and POSTs; the lock is held, so the ones that need it are not enabled. */
    static predicate ByOthers(step: Step) {
      !step.SweepBegin? && !step.SweepNotice? && !step.SweepClose? && !step.SweepDelete? && !step.SweepEnd?
    }

    /** Other goroutines run while the sweep holds the lock. */
    method RunDuringSweep(schedule: seq<Step>)
      requires Valid() && !s.sweep.Idle?
      modifies this
      ensures Valid() && s.sweep == old(s.sweep) && |s.sessions| == |old(s.sessions)|
      ensures forall i :: 0 <= i < |s.sessions| ==> s.sessions[i].closes == old(s.sessions)[i].closes
      ensures Longer(old(states), old(steps), states, steps)
    {
      for n := 0 to |schedule|
        invariant Valid() && s.sweep == old(s.sweep) && |s.sessions| == |old(s.sessions)|
        invariant forall i :: 0 <= i < |s.sessions| ==> s.sessions[i].closes == old(s.sessions)[i].closes
        invariant Longer(old(states), old(steps), states, steps)
      {
        if ByOthers(schedule[n]) && Enabled(s, schedule[n]) {
          Do(schedule[n]);
        }
      }
    }

    /** The run has gone on. */
    static predicate Longer(states: seq<State>, steps: seq<Step>, states': seq<State>, steps': seq<Step>) {
      states <= states' && steps <= steps'
    }

    /** Since step `from`, session i was offered the notice, and got it exactly if its buffer had room. */
    static ghost predicate Offered(states: seq<State>, steps: seq<Step>, from: nat, i: nat) {
      exists n :: from <= n < |steps| && NoticeAt(states, steps, n, i)
    }

    static lemma StillOffered(states: seq<State>, steps: seq<Step>, states': seq<State>, steps': seq<Step>,
                              from: nat, i: nat)
      requires |states| == |steps| + 1 && |states'| == |steps'| + 1
      requires Longer(states, steps, states', steps') && Offered(states, steps, from, i)
      ensures Offered(states', steps', from, i)
    {
      var n :| from <= n < |steps| && NoticeAt(states, steps, n, i);
      assert NoticeAt(states', steps', n, i);
    }

    static ghost predicate AllOffered(states: seq<State>, steps: seq<Step>, from: nat, visited: set<nat>) {
      forall i :: i in visited ==> Offered(states, steps, from, i)
    }

    static lemma StillAllOffered(states: seq<State>, steps: seq<Step>, states': seq<State>, steps': seq<Step>,
                                 from: nat, from': nat, visited: set<nat>)
      requires |states| == |steps| + 1 && |states'| == |steps'| + 1 && Longer(states, steps, states', steps')
      requires AllOffered(states, steps, from, visited) && from' <= from
      ensures AllOffered(states', steps', from', visited)
    {
      forall i | i in visited
        ensures Offered(states', steps', from', i)
      {
        StillOffered(states, steps, states', steps', from, i);
        var n :| from <= n < |steps'| && NoticeAt(states', steps', n, i);
        assert from' <= n;
      }
    }

    static lemma OffersKept(states: seq<State>, steps: seq<Step>, states': seq<State>, steps': seq<Step>,
                            from: nat, visited: set<nat>, i: nat)
      requires |states| == |steps| + 1 && |states'| == |steps'| + 1 && Longer(states, steps, states', steps')
      requires from <= |steps| && Offered(states', steps', |steps|, i) && AllOffered(states, steps, from, visited)
      ensures AllOffered(states', steps', from, visited + {i})
    {
      StillAllOffered(states, steps, states', steps', from, from, visited);
      var n :| |steps| <= n < |steps'| && NoticeAt(states', steps', n, i);
      assert from <= n;
    }

    /** One turn of the sweep's loop: notice if it fits, close, delete. */
    method Visit(i: nat, schedule1: seq<Step>, schedule2: seq<Step>, schedule3: seq<Step>)
      requires Valid() && s.sweep.Choosing? && i in s.sweep.left
      modifies this
      ensures Valid() && s.sweep == Choosing(old(s.sweep.left) - {i})
      ensures i < |s.sessions| == |old(s.sessions)|
      ensures forall j :: 0 <= j < |s.sessions| ==>
        s.sessions[j].closes == old(s.sessions)[j].closes + if j == i then 1 else 0
      ensures Longer(old(states), old(steps), states, steps) && Offered(states, steps, |old(steps)|, i)
    {
      Safe();
      Do(SweepNotice(i));
      NoticeStep(states, steps, |old(steps)|, i);
      ghost var states1, steps1 := states, steps;
      assert Offered(states1, steps1, |old(steps)|, i);
      RunDuringSweep(schedule1);
      Do(SweepClose);
      RunDuringSweep(schedule2);
      Do(SweepDelete);
      RunDuringSweep(schedule3);
      StillOffered(states1, steps1, states, steps, |old(steps)|, i);
    }

    /** The sweep's loop: the sessions still to visit, in any order. */
    method VisitAll(schedule: nat -> seq<Step>)
      requires Valid() && s.sweep.Choosing?
      modifies this
      ensures Valid() && s.sweep == Choosing({}) && |s.sessions| == |old(s.sessions)|
      ensures forall i :: 0 <= i < |s.sessions| ==>
        s.sessions[i].closes == old(s.sessions)[i].closes + if i in old(s.sweep.left) then 1 else 0
      ensures |steps| >= |old(steps)| && AllOffered(states, steps, |old(steps)|, old(s.sweep.left))
    {
      ghost var found := s.sweep.left;
      var n := 0;
      while s.sweep.left != {}
        invariant Valid() && s.sweep.Choosing? && s.sweep.left <= found
        invariant |s.sessions| == |old(s.sessions)|
        invariant forall i :: 0 <= i < |s.sessions| ==>
          s.sessions[i].closes == old(s.sessions)[i].closes + if i in found && i !in s.sweep.left then 1 else 0
        invariant |steps| >= |old(steps)| && AllOffered(states, steps, |old(steps)|, found - s.sweep.left)
        decreases s.sweep.left
      {
        var i :| i in s.sweep.left;
        ghost var left, states1, steps1 := s.sweep.left, states, steps;
        Visit(i, schedule(n), schedule(n + 1), schedule(n + 2));
        OffersKept(states1, steps1, states, steps, |old(steps)|, found - left, i);
        assert found - s.sweep.left <= (found - left) + {i};
        n := n + 3;
      }
    }

    /**
     The sweep visits the sessions of the map in any order, with other goroutines running between any two of its
     actions. When it releases the lock the map is empty; every session it found there has been offered the shutdown
     notice, which its buffer took exactly if it had room, and has been closed once more; every other session has been
     closed as often as before.
     */
    method CloseAllSessions(schedule: nat -> seq<Step>)
      requires Valid() && s.sweep.Idle?
      modifies this
      ensures Valid() && s.sweep.Idle? && |s.sessions| == |old(s.sessions)|
      ensures InMap(s.sessions) == {}
      ensures forall i :: 0 <= i < |s.sessions| ==>
        s.sessions[i].closes == old(s.sessions)[i].closes + if old(s.sessions)[i].inMap then 1 else 0
      ensures |steps| >= |old(steps)| && AllOffered(states, steps, |old(steps)|, InMap(old(s.sessions)))
    {
      Do(SweepBegin);
      ghost var found, from := s.sweep.left, |steps|;
      VisitAll(schedule);
      Safe();
      ghost var states1, steps1 := states, steps;
      Do(SweepEnd);
      StillAllOffered(states1, steps1, states, steps, from, |old(steps)|, found);
    }

    /** Steps of goroutines other than the handler of session i. */
    static predicate NotHandler(step: Step, i: nat) {
      && !(step.Deliver? && step.i == i) && !(step.SeeDone? && step.i == i) && !(step.Drain? && step.i == i)
      && !Exits(step, i) && !(step.CleanUp? && step.i == i)
    }

    /** Other goroutines run while the handler of a retired session drains. */
    method RunDuringDrain(schedule: seq<Step>, i: nat)
      requires Valid() && i < |s.sessions| && Retired(s, i)
      modifies this
      ensures Valid() && i < |s.sessions| && Retired(s, i)
      ensures Potential(s, i) <= old(Potential(s, i))
      ensures s.sessions[i].handler == old(s.sessions)[i].handler
      ensures s.sessions[i].delivered == old(s.sessions)[i].delivered
    {
      for n := 0 to |schedule|
        invariant Valid() && i < |s.sessions| && Retired(s, i)
        invariant Potential(s, i) <= old(Potential(s, i))
        invariant s.sessions[i].handler == old(s.sessions)[i].handler
        invariant s.sessions[i].delivered == old(s.sessions)[i].delivered
      {
        if NotHandler(schedule[n], i) && Enabled(s, schedule[n]) {
          Safe();
          PotentialStep(s, schedule[n], i);
          Do(schedule[n]);
        }
      }
    }

    /**
     The drain loop: it ends whatever the other goroutines do, and at its exit everything enqueued so far, hence
     everything enqueued before `done` was closed, has been delivered in order.
     */
    method DrainLoop(i: nat, schedule: nat -> seq<Step>)
      requires Valid() && i < |s.sessions| && s.sessions[i].handler.Draining?
      modifies this
      ensures Valid() && i < |s.sessions| && s.sessions[i].handler == Left(ByDone)
      ensures s.sessions[i].delivered == s.sessions[i].enqueued
      ensures s.sessions[i].beforeClose <= s.sessions[i].delivered
      ensures old(s.sessions)[i].delivered <= s.sessions[i].delivered
    {
      Safe();
      assert SessionOk(s.sessions[i]);
      var n := 0;
      RunDuringDrain(schedule(n), i);
      while s.sessions[i].buffer != []
        invariant Valid() && i < |s.sessions| && Retired(s, i) && s.sessions[i].handler.Draining?
        invariant old(s.sessions)[i].delivered <= s.sessions[i].delivered
        decreases Potential(s, i)
      {
        Safe();
        PotentialStep(s, Drain(i), i);
        Do(Drain(i));
        n := n + 1;
        RunDuringDrain(schedule(n), i);
      }
      Do(DrainEnd(i));
      Safe();
      assert SessionOk(s.sessions[i]);
      assert s.sessions[i].delivered + [] == s.sessions[i].delivered;
    }
  }
}
