/**
 SSE sessions of internal/sse/sse.go as interleaved steps: handlers delivering from a bounded buffer, POST
 handlers that look a session up under the lock and send to it after releasing the lock, and the shutdown sweep.
 Sessions and POSTs are numbered in order of arrival, so identifiers are fresh.
 */
module Sse {
  import opened Seqs

  const BUFFER_SIZE: nat := 100

  /** The shutdown notice, or the response to POST number `p`. */
  datatype Msg = Shutdown | Response(p: nat)

  datatype Exit = ByDone | ByContext

  /** Where a session's handler is: in its loop, draining, returned, or past its deferred clean-up. */
  datatype Handler = Looping | Draining | Left(exit: Exit) | Gone(exit: Exit)

  /**
   `enqueued` and `delivered` are all messages ever put into the buffer and ever written to the client;
   `beforeClose` is what had been enqueued when `done` was closed, `noticed` whether the notice fitted.
   */
  datatype Session = Session(inMap: bool, buffer: seq<Msg>, closes: nat, handler: Handler,
                             enqueued: seq<Msg>, delivered: seq<Msg>, beforeClose: seq<Msg>, noticed: bool) {
    predicate Done() {
      closes > 0
    }
  }

  /**
   What handleMessage itself writes. The timeout wrapped around it may already have sent the client a 503 while the
   handler goes on and enqueues the response.
   */
  datatype Reply = NotFound | BadRequest | ServerError | Notified | Accepted | Unavailable

  /** A POST: holding a session pointer, waiting to send its response, or answered. */
  datatype Phase = LookedUp | Sending | Answered(reply: Reply)

  datatype Post = Post(session: nat, phase: Phase)

  /** The sweep holds the lock; `left` are the sessions its loop has still to visit. */
  datatype Sweep = Idle | Choosing(left: set<nat>) | Closing(left: set<nat>, i: nat) | Deleting(left: set<nat>, i: nat)

  datatype State = State(sessions: seq<Session>, posts: seq<Post>, sweep: Sweep)

  datatype Step =
    | Connect
    | Deliver(i: nat)
    | SeeDone(i: nat)
    | Drain(i: nat)
    | DrainEnd(i: nat)
    | ContextDone(i: nat)
    | CleanUp(i: nat)
    | LookUp(i: nat)
    | Refuse(p: nat, reply: Reply)
    | Ready(p: nat)
    | Send(p: nat)
    | GiveUp(p: nat)
    | SweepBegin
    | SweepNotice(i: nat)
    | SweepClose
    | SweepDelete
    | SweepEnd

  const INITIAL := State([], [], Idle)

  function NewSession(): Session {
    Session(true, [], 0, Looping, [], [], [], false)
  }

  function InMap(sessions: seq<Session>): set<nat> {
    set i: nat | 0 <= i < |sessions| && sessions[i].inMap
  }

  predicate Enabled(s: State, step: Step) {
    match step
    case Connect => s.sweep.Idle?
    case Deliver(i) => i < |s.sessions| && s.sessions[i].handler.Looping? && s.sessions[i].buffer != []
    case SeeDone(i) => i < |s.sessions| && s.sessions[i].handler.Looping? && s.sessions[i].Done()
    case Drain(i) => i < |s.sessions| && s.sessions[i].handler.Draining? && s.sessions[i].buffer != []
    case DrainEnd(i) => i < |s.sessions| && s.sessions[i].handler.Draining? && s.sessions[i].buffer == []
    case ContextDone(i) => i < |s.sessions| && s.sessions[i].handler.Looping?
    case CleanUp(i) => i < |s.sessions| && s.sessions[i].handler.Left? && s.sweep.Idle?
    case LookUp(_) => s.sweep.Idle?
    case Refuse(p, reply) =>
      && p < |s.posts| && s.posts[p].phase.LookedUp?
      && (reply.BadRequest? || reply.ServerError? || reply.Notified?)
    case Ready(p) => p < |s.posts| && s.posts[p].phase.LookedUp?
    case Send(p) =>
      && p < |s.posts| && s.posts[p].phase.Sending? && s.posts[p].session < |s.sessions|
      && |s.sessions[s.posts[p].session].buffer| < BUFFER_SIZE
    case GiveUp(p) => p < |s.posts| && s.posts[p].phase.Sending?
    case SweepBegin => s.sweep.Idle?
    case SweepNotice(i) => s.sweep.Choosing? && i in s.sweep.left && i < |s.sessions|
    case SweepClose => s.sweep.Closing? && s.sweep.i < |s.sessions|
    case SweepDelete => s.sweep.Deleting? && s.sweep.i < |s.sessions|
    case SweepEnd => s.sweep.Choosing? && s.sweep.left == {}
  }

  function Put(s: Session, m: Msg): Session {
    s.(buffer := s.buffer + [m], enqueued := s.enqueued + [m])
  }

  function Take(s: Session): Session
    requires s.buffer != []
  {
    s.(buffer := s.buffer[1..], delivered := s.delivered + [s.buffer[0]])
  }

  function SetSession(s: State, i: nat, x: Session): State
    requires i < |s.sessions|
  {
    s.(sessions := s.sessions[i := x])
  }

  function SetPost(s: State, p: nat, phase: Phase): State
    requires p < |s.posts|
  {
    s.(posts := s.posts[p := s.posts[p].(phase := phase)])
  }

  function Next(s: State, step: Step): State
    requires Enabled(s, step)
  {
    match step
    case Connect => s.(sessions := s.sessions + [NewSession()])
    case Deliver(i) => SetSession(s, i, Take(s.sessions[i]))
    case SeeDone(i) => SetSession(s, i, s.sessions[i].(handler := Draining))
    case Drain(i) => SetSession(s, i, Take(s.sessions[i]))
    case DrainEnd(i) => SetSession(s, i, s.sessions[i].(handler := Left(ByDone)))
    case ContextDone(i) => SetSession(s, i, s.sessions[i].(handler := Left(ByContext)))
    case CleanUp(i) => SetSession(s, i, s.sessions[i].(inMap := false, handler := Gone(s.sessions[i].handler.exit)))
    case LookUp(i) =>
      var found := i < |s.sessions| && s.sessions[i].inMap;
      s.(posts := s.posts + [Post(i, if found then LookedUp else Answered(NotFound))])
    case Refuse(p, reply) => SetPost(s, p, Answered(reply))
    case Ready(p) => SetPost(s, p, Sending)
    case Send(p) =>
      var i := s.posts[p].session;
      SetPost(SetSession(s, i, Put(s.sessions[i], Response(p))), p, Answered(Accepted))
    case GiveUp(p) => SetPost(s, p, Answered(Unavailable))
    case SweepBegin => s.(sweep := Choosing(InMap(s.sessions)))
    case SweepNotice(i) =>
      var x := s.sessions[i];
      var x' := if |x.buffer| < BUFFER_SIZE then Put(x, Shutdown).(noticed := true) else x;
      SetSession(s, i, x').(sweep := Closing(s.sweep.left, i))
    case SweepClose =>
      var i := s.sweep.i;
      var x := s.sessions[i].(closes := s.sessions[i].closes + 1, beforeClose := s.sessions[i].enqueued);
      SetSession(s, i, x).(sweep := Deleting(s.sweep.left, i))
    case SweepDelete =>
      SetSession(s, s.sweep.i, s.sessions[s.sweep.i].(inMap := false)).(sweep := Choosing(s.sweep.left - {s.sweep.i}))
    case SweepEnd => s.(sweep := Idle)
  }

  /** State k + 1 follows from state k by step k. */
  predicate Follows(states: seq<State>, steps: seq<Step>, k: nat)
    requires k < |steps| && |states| == |steps| + 1
  {
    Enabled(states[k], steps[k]) && states[k + 1] == Next(states[k], steps[k])
  }

  ghost predicate IsRun(states: seq<State>, steps: seq<Step>) {
    && |states| == |steps| + 1
    && states[0] == INITIAL
    && forall k :: 0 <= k < |steps| ==> Follows(states, steps, k)
  }

  /** A run can be continued with any step that is enabled at its end. */
  lemma Continue(states: seq<State>, steps: seq<Step>, step: Step, s': State)
    requires IsRun(states, steps) && Enabled(states[|steps|], step) && s' == Next(states[|steps|], step)
    ensures IsRun(states + [s'], steps + [step])
  {
    forall k | 0 <= k < |steps| + 1
      ensures Follows(states + [s'], steps + [step], k)
    {
      if k < |steps| {
        assert Follows(states, steps, k);
      }
    }
  }

  // ----- one session

  /** The buffer is a queue, `done` is closed at most once, and leaving through `done` means everything was drained. */
  ghost predicate SessionOk(x: Session) {
    && x.enqueued == x.delivered + x.buffer
    && |x.buffer| <= BUFFER_SIZE
    && x.closes <= 1
    && x.beforeClose <= x.enqueued
    && (x.handler.Draining? ==> x.Done())
    && (x.handler == Left(ByDone) || x.handler == Gone(ByDone) ==> x.Done() && x.beforeClose <= x.delivered)
    && (x.handler.Gone? ==> !x.inMap)
    && (!x.inMap && !x.handler.Gone? ==> x.Done())
    && (x.noticed && x.Done() ==> Shutdown in x.beforeClose)
    && multiset(x.enqueued)[Shutdown] == (if x.noticed then 1 else 0)
  }

  /** What the sweep's position says about session i. */
  predicate SweepOk(sweep: Sweep, i: nat, x: Session) {
    var visiting := (sweep.Closing? || sweep.Deleting?) && sweep.i == i;
    && (!sweep.Idle? ==> (x.inMap <==> i in sweep.left))
    && (visiting ==> x.inMap)
    && (x.inMap ==> (x.Done() <==> sweep.Deleting? && visiting))
    && (x.noticed ==> x.Done() || (sweep.Closing? && visiting))
  }

  ghost predicate SessionsOk(s: State) {
    && (forall i :: 0 <= i < |s.sessions| ==> SessionOk(s.sessions[i]) && SweepOk(s.sweep, i, s.sessions[i]))
    && (!s.sweep.Idle? ==> forall i :: i in s.sweep.left ==> i < |s.sessions|)
    && (s.sweep.Closing? || s.sweep.Deleting? ==> s.sweep.i in s.sweep.left)
  }

  lemma PutOk(x: Session, m: Msg)
    requires SessionOk(x) && |x.buffer| < BUFFER_SIZE && (m == Shutdown ==> !x.noticed && !x.Done())
    ensures SessionOk(if m == Shutdown then Put(x, m).(noticed := true) else Put(x, m))
  {
    Assoc(x.delivered, x.buffer, [m]);
    assert multiset(x.enqueued + [m]) == multiset(x.enqueued) + multiset{m};
  }

  lemma TakeOk(x: Session)
    requires SessionOk(x) && x.buffer != [] && (x.handler.Looping? || x.handler.Draining?)
    ensures SessionOk(Take(x))
  {
    assert x.buffer == [x.buffer[0]] + x.buffer[1..];
    Assoc(x.delivered, [x.buffer[0]], x.buffer[1..]);
  }

  lemma ChangeSession(s: State, i: nat, x: Session)
    requires SessionsOk(s) && i < |s.sessions| && SessionOk(x) && SweepOk(s.sweep, i, x)
    ensures SessionsOk(SetSession(s, i, x))
  {
  }

  lemma TakeStep(s: State, step: Step)
    requires SessionsOk(s) && Enabled(s, step) && (step.Deliver? || step.Drain?)
    ensures SessionsOk(Next(s, step))
  {
    TakeOk(s.sessions[step.i]);
    ChangeSession(s, step.i, Take(s.sessions[step.i]));
  }

  lemma HandlerStep(s: State, step: Step)
    requires SessionsOk(s) && Enabled(s, step)
    requires step.SeeDone? || step.DrainEnd? || step.ContextDone? || step.CleanUp?
    ensures SessionsOk(Next(s, step))
  {
    var x := s.sessions[step.i];
    if step.DrainEnd? {
      assert x.delivered + x.buffer == x.delivered;
    }
    ChangeSession(s, step.i, Next(s, step).sessions[step.i]);
  }

  lemma SendStep(s: State, step: Step)
    requires SessionsOk(s) && Enabled(s, step) && step.Send?
    ensures SessionsOk(Next(s, step))
  {
    var i := s.posts[step.p].session;
    PutOk(s.sessions[i], Response(step.p));
    ChangeSession(s, i, Put(s.sessions[i], Response(step.p)));
  }

  /** Replaces a session while the sweep moves on. */
  lemma SweepSession(s: State, i: nat, x: Session, sweep: Sweep)
    requires SessionsOk(s) && i < |s.sessions| && SessionOk(x) && SweepOk(sweep, i, x)
    requires forall j :: 0 <= j < |s.sessions| && j != i ==> SweepOk(sweep, j, s.sessions[j])
    requires !sweep.Idle? && (forall j :: j in sweep.left ==> j < |s.sessions|)
    requires sweep.Closing? || sweep.Deleting? ==> sweep.i in sweep.left
    ensures SessionsOk(SetSession(s, i, x).(sweep := sweep))
  {
  }

  lemma SweepNoticeStep(s: State, step: Step)
    requires SessionsOk(s) && Enabled(s, step) && step.SweepNotice?
    ensures SessionsOk(Next(s, step))
  {
    var s' := Next(s, step);
    var x := s.sessions[step.i];
    assert SweepOk(s.sweep, step.i, x);
    if |x.buffer| < BUFFER_SIZE {
      PutOk(x, Shutdown);
    }
    SweepSession(s, step.i, s'.sessions[step.i], s'.sweep);
  }

  lemma SweepCloseStep(s: State)
    requires SessionsOk(s) && Enabled(s, SweepClose)
    ensures SessionsOk(Next(s, SweepClose))
  {
    var s' := Next(s, SweepClose);
    var i := s.sweep.i;
    var x := s.sessions[i];
    assert SweepOk(s.sweep, i, x);
    if x.noticed {
      assert multiset(x.enqueued)[Shutdown] == 1;
      assert Shutdown in x.enqueued;
    }
    SweepSession(s, i, s'.sessions[i], s'.sweep);
  }

  lemma SweepDeleteStep(s: State)
    requires SessionsOk(s) && Enabled(s, SweepDelete)
    ensures SessionsOk(Next(s, SweepDelete))
  {
    var s' := Next(s, SweepDelete);
    SweepSession(s, s.sweep.i, s'.sessions[s.sweep.i], s'.sweep);
  }

  lemma SweepEdgeStep(s: State, step: Step)
    requires SessionsOk(s) && Enabled(s, step) && (step.SweepBegin? || step.SweepEnd?)
    ensures SessionsOk(Next(s, step))
  {
  }

  /** The other steps of POSTs touch no session. */
  lemma PostStep(s: State, step: Step)
    requires SessionsOk(s) && Enabled(s, step)
    requires step.LookUp? || step.Refuse? || step.Ready? || step.GiveUp?
    ensures SessionsOk(Next(s, step))
  {
  }

  lemma SessionsStep(s: State, step: Step)
    requires SessionsOk(s) && Enabled(s, step)
    ensures SessionsOk(Next(s, step))
  {
    match step
    case Connect => assert SessionOk(NewSession());
    case Deliver(_) => TakeStep(s, step);
    case Drain(_) => TakeStep(s, step);
    case Send(_) => SendStep(s, step);
    case SweepBegin => SweepEdgeStep(s, step);
    case SweepNotice(_) => SweepNoticeStep(s, step);
    case SweepClose => SweepCloseStep(s);
    case SweepDelete => SweepDeleteStep(s);
    case SweepEnd => SweepEdgeStep(s, step);
    case LookUp(_) => PostStep(s, step);
    case Refuse(_, _) => PostStep(s, step);
    case Ready(_) => PostStep(s, step);
    case GiveUp(_) => PostStep(s, step);
    case _ => HandlerStep(s, step);
  }

  lemma {:induction false} SessionsSafe(states: seq<State>, steps: seq<Step>, k: nat)
    requires IsRun(states, steps) && k < |states|
    ensures SessionsOk(states[k])
  {
    if k > 0 {
      SessionsSafe(states, steps, k - 1);
      assert Follows(states, steps, k - 1);
      SessionsStep(states[k - 1], steps[k - 1]);
    }
  }

  // ----- the shutdown notice

  /** Step n of the sweep offers session i the notice, and it is enqueued exactly if the buffer has room. */
  ghost predicate NoticeAt(states: seq<State>, steps: seq<Step>, n: nat, i: nat) {
    && n < |steps| && |states| == |steps| + 1 && steps[n] == SweepNotice(i)
    && i < |states[n].sessions| && i < |states[n + 1].sessions|
    && var x, x' := states[n].sessions[i], states[n + 1].sessions[i];
       x'.enqueued == x.enqueued + if |x.buffer| < 100 then [Shutdown] else []
  }

  lemma NoticeStep(states: seq<State>, steps: seq<Step>, n: nat, i: nat)
    requires IsRun(states, steps) && n < |steps| && steps[n] == SweepNotice(i)
    ensures NoticeAt(states, steps, n, i)
  {
    assert Follows(states, steps, n);
    var x := states[n].sessions[i];
    assert x.enqueued + [] == x.enqueued;
  }

  predicate Closes(states: seq<State>, steps: seq<Step>, c: nat, i: nat)
    requires c < |steps| && |states| == |steps| + 1
  {
    steps[c] == SweepClose && states[c].sweep.Closing? && states[c].sweep.i == i
  }

  lemma UnnoticedBefore(states: seq<State>, steps: seq<Step>, n: nat, i: nat)
    requires IsRun(states, steps) && n < |steps| && steps[n] == SweepNotice(i)
    ensures i < |states[n].sessions| && Shutdown !in states[n].sessions[i].enqueued
  {
    assert Follows(states, steps, n);
    SessionsSafe(states, steps, n);
    var s := states[n];
    assert SessionOk(s.sessions[i]) && SweepOk(s.sweep, i, s.sessions[i]);
    assert multiset(s.sessions[i].enqueued)[Shutdown] == 0;
  }

  lemma NoticedAt(states: seq<State>, steps: seq<Step>, n: nat, i: nat)
    requires IsRun(states, steps) && n < |steps| && steps[n] == SweepNotice(i)
    ensures i < |states[n].sessions| && i < |states[n + 1].sessions|
    ensures states[n + 1].sessions[i].noticed <==> |states[n].sessions[i].buffer| < 100
  {
    NoticeStep(states, steps, n, i);
    UnnoticedBefore(states, steps, n, i);
    SessionsSafe(states, steps, n + 1);
    var x := states[n + 1].sessions[i];
    assert SessionOk(x);
    assert Shutdown in x.enqueued <==> multiset(x.enqueued)[Shutdown] > 0;
  }

  lemma WhileClosing(states: seq<State>, steps: seq<Step>, m: nat, i: nat)
    requires IsRun(states, steps) && 0 < m < |states| && states[m].sweep.Closing? && states[m].sweep.i == i
    requires i < |states[m].sessions| && steps[m - 1] != SweepNotice(i)
    ensures states[m - 1].sweep == states[m].sweep && i < |states[m - 1].sessions|
    ensures states[m].sessions[i].noticed == states[m - 1].sessions[i].noticed
  {
    assert Follows(states, steps, m - 1);
    SessionsSafe(states, steps, m - 1);
  }

  /** While the sweep is about to close a session it has offered it the notice. */
  lemma {:induction false} NoticeOfVisit(states: seq<State>, steps: seq<Step>, m: nat, i: nat) returns (n: nat)
    requires IsRun(states, steps) && m < |states| && states[m].sweep.Closing? && states[m].sweep.i == i
    requires i < |states[m].sessions|
    ensures n < m && steps[n] == SweepNotice(i) && i < |states[n].sessions|
    ensures states[m].sessions[i].noticed <==> |states[n].sessions[i].buffer| < 100
    decreases m
  {
    if steps[m - 1] == SweepNotice(i) {
      n := m - 1;
      NoticedAt(states, steps, n, i);
    } else {
      WhileClosing(states, steps, m, i);
      n := NoticeOfVisit(states, steps, m - 1, i);
    }
  }

  lemma StaysDone(s: State, step: Step, i: nat)
    requires SessionsOk(s) && Enabled(s, step) && i < |s.sessions| && s.sessions[i].Done()
    ensures var x := Next(s, step).sessions[i];
            x.beforeClose == s.sessions[i].beforeClose && x.noticed == s.sessions[i].noticed
  {
    assert SweepOk(s.sweep, i, s.sessions[i]);
  }

  lemma BecomesDone(s: State, step: Step, i: nat)
    requires Enabled(s, step) && i < |Next(s, step).sessions| && Next(s, step).sessions[i].Done()
    requires i < |s.sessions| ==> !s.sessions[i].Done()
    ensures i < |s.sessions| && step == SweepClose && s.sweep.Closing? && s.sweep.i == i
    ensures var x := Next(s, step).sessions[i];
            x.beforeClose == s.sessions[i].enqueued && x.noticed == s.sessions[i].noticed
  {
  }

  lemma ClosedStep(states: seq<State>, steps: seq<Step>, m: nat, i: nat)
    requires IsRun(states, steps) && m < |steps| && i < |states[m + 1].sessions| && states[m + 1].sessions[i].Done()
    ensures i < |states[m].sessions|
    ensures var x, x' := states[m].sessions[i], states[m + 1].sessions[i];
            if x.Done() then x'.beforeClose == x.beforeClose && x'.noticed == x.noticed
            else Closes(states, steps, m, i) && x'.beforeClose == x.enqueued && x'.noticed == x.noticed
  {
    assert Follows(states, steps, m);
    SessionsSafe(states, steps, m);
    if i < |states[m].sessions| && states[m].sessions[i].Done() {
      StaysDone(states[m], steps[m], i);
    } else {
      BecomesDone(states[m], steps[m], i);
    }
  }

  /** A closed session was offered the notice and then closed, each in a step of the sweep. */
  lemma {:induction false} SweepSteps(states: seq<State>, steps: seq<Step>, k: nat, i: nat) returns (n: nat, c: nat)
    requires IsRun(states, steps) && k < |states| && i < |states[k].sessions| && states[k].sessions[i].Done()
    ensures n < c < k && steps[n] == SweepNotice(i) && Closes(states, steps, c, i)
    ensures i < |states[n].sessions| && i < |states[c].sessions|
    ensures states[k].sessions[i].beforeClose == states[c].sessions[i].enqueued
    ensures states[k].sessions[i].noticed <==> |states[n].sessions[i].buffer| < 100
    decreases k
  {
    ClosedStep(states, steps, k - 1, i);
    if states[k - 1].sessions[i].Done() {
      n, c := SweepSteps(states, steps, k - 1, i);
    } else {
      c := k - 1;
      n := NoticeOfVisit(states, steps, c, i);
    }
  }

  /** How many of the first k steps offer session i the notice. */
  function Notices(steps: seq<Step>, k: nat, i: nat): nat
    requires k <= |steps|
  {
    if k == 0 then 0 else Notices(steps, k - 1, i) + if steps[k - 1] == SweepNotice(i) then 1 else 0
  }

  /** How often session i has been closed or is about to be. */
  function Visits(s: State, i: nat): nat {
    if i >= |s.sessions| then 0 else s.sessions[i].closes + if s.sweep.Closing? && s.sweep.i == i then 1 else 0
  }

  lemma VisitsStep(s: State, step: Step, i: nat)
    requires SessionsOk(s) && Enabled(s, step)
    ensures Visits(Next(s, step), i) == Visits(s, i) + if step == SweepNotice(i) then 1 else 0
  {
  }

  /** In every run each session is offered the notice as often as it is closed or about to be, hence at most once. */
  lemma {:induction false} NoticedOnce(states: seq<State>, steps: seq<Step>, k: nat, i: nat)
    requires IsRun(states, steps) && k < |states|
    ensures Notices(steps, k, i) == Visits(states[k], i) <= 1
  {
    SessionsSafe(states, steps, k);
    if i < |states[k].sessions| {
      assert SessionOk(states[k].sessions[i]) && SweepOk(states[k].sweep, i, states[k].sessions[i]);
    }
    if k > 0 {
      NoticedOnce(states, steps, k - 1, i);
      SessionsSafe(states, steps, k - 1);
      assert Follows(states, steps, k - 1);
      VisitsStep(states[k - 1], steps[k - 1], i);
    }
  }

  /** In every reachable state a session's enqueued messages are those delivered followed by at most 100 buffered. */
  lemma Queue(states: seq<State>, steps: seq<Step>, k: nat, i: nat)
    requires IsRun(states, steps) && k < |states| && i < |states[k].sessions|
    ensures var x := states[k].sessions[i];
            x.enqueued == x.delivered + x.buffer && |x.buffer| <= 100
  {
    SessionsSafe(states, steps, k);
    assert SessionOk(states[k].sessions[i]);
  }

  /**
   A handler that left through the `done` branch has delivered, in order, everything enqueued up to the step that
   closed `done`; among it the shutdown notice, exactly if fewer than 100 messages were buffered in the one step that
   offered it.
   */
  lemma Delivery(states: seq<State>, steps: seq<Step>, k: nat, i: nat) returns (n: nat, c: nat)
    requires IsRun(states, steps) && k < |states| && i < |states[k].sessions|
    requires states[k].sessions[i].handler == Left(ByDone) || states[k].sessions[i].handler == Gone(ByDone)
    ensures n < c < k && steps[n] == SweepNotice(i) && Notices(steps, k, i) == 1 && Closes(states, steps, c, i)
    ensures i < |states[n].sessions| && i < |states[c].sessions|
    ensures states[c].sessions[i].enqueued <= states[k].sessions[i].delivered
    ensures Shutdown in states[k].sessions[i].delivered <==> |states[n].sessions[i].buffer| < 100
  {
    SessionsSafe(states, steps, k);
    var x := states[k].sessions[i];
    assert SessionOk(x) && SweepOk(states[k].sweep, i, x);
    n, c := SweepSteps(states, steps, k, i);
    OneNotice(states, steps, k, i, n);
    NoticeDelivered(x);
  }

  lemma {:induction false} NoticesAt(steps: seq<Step>, k: nat, i: nat, n: nat)
    requires n < k <= |steps| && steps[n] == SweepNotice(i)
    ensures Notices(steps, k, i) >= 1
  {
    if n < k - 1 {
      NoticesAt(steps, k - 1, i, n);
    }
  }

  lemma OneNotice(states: seq<State>, steps: seq<Step>, k: nat, i: nat, n: nat)
    requires IsRun(states, steps) && n < k < |states| && steps[n] == SweepNotice(i)
    ensures Notices(steps, k, i) == 1
  {
    NoticesAt(steps, k, i, n);
    NoticedOnce(states, steps, k, i);
  }

  lemma NoticeDelivered(x: Session)
    requires SessionOk(x) && (x.handler == Left(ByDone) || x.handler == Gone(ByDone))
    ensures Shutdown in x.delivered <==> x.noticed
  {
    if x.noticed {
      assert Shutdown in x.beforeClose;
      assert x.beforeClose == x.delivered[..|x.beforeClose|];
    } else {
      assert Shutdown !in multiset(x.enqueued);
      assert multiset(x.delivered) <= multiset(x.enqueued) by {
        assert multiset(x.delivered + x.buffer) == multiset(x.delivered) + multiset(x.buffer);
      }
    }
  }

  /**
   `done` is never closed twice, a session in the map is open except between the sweep's close and its delete,
   and when the sweep has visited the sessions it set out to visit, the map is empty and each of them is closed.
   */
  lemma CloseOnce(states: seq<State>, steps: seq<Step>, k: nat)
    requires IsRun(states, steps) && k < |states|
    ensures var s := states[k];
            && (forall i :: 0 <= i < |s.sessions| ==> s.sessions[i].closes <= 1)
            && (forall i :: 0 <= i < |s.sessions| && s.sessions[i].inMap ==>
                  (s.sessions[i].Done() <==> s.sweep.Deleting? && s.sweep.i == i))
            && (Enabled(s, SweepEnd) ==> forall i :: 0 <= i < |s.sessions| ==> !s.sessions[i].inMap)
  {
    SessionsSafe(states, steps, k);
    var s := states[k];
    assert forall i :: 0 <= i < |s.sessions| ==> SessionOk(s.sessions[i]) && SweepOk(s.sweep, i, s.sessions[i]);
  }

  // ----- responses: one message for each acknowledged POST

  function Sent(posts: seq<Post>, i: nat, p: nat): nat {
    if p < |posts| && posts[p].session == i && posts[p].phase == Answered(Accepted) then 1 else 0
  }

  ghost predicate ResponsesOk(s: State) {
    && (forall i, p: nat :: 0 <= i < |s.sessions| ==>
          multiset(s.sessions[i].enqueued)[Response(p)] == Sent(s.posts, i, p))
    && (forall p :: 0 <= p < |s.posts| && s.posts[p].phase != Answered(NotFound) ==> s.posts[p].session < |s.sessions|)
  }

  /** A response enters the buffer with the step that answers its POST with 202. */
  lemma EnqueuedStep(s: State, step: Step, i: nat, p: nat)
    requires ResponsesOk(s) && Enabled(s, step) && i < |s.sessions|
    ensures var s' := Next(s, step);
            multiset(s'.sessions[i].enqueued)[Response(p)] == Sent(s'.posts, i, p)
  {
    var x, x' := s.sessions[i], Next(s, step).sessions[i];
    assert multiset(x.enqueued)[Response(p)] == Sent(s.posts, i, p);
    if step.Send? && s.posts[step.p].session == i {
      assert multiset(x'.enqueued) == multiset(x.enqueued) + multiset{Response(step.p)};
    } else if step.SweepNotice? && step.i == i && x'.enqueued != x.enqueued {
      assert multiset(x'.enqueued) == multiset(x.enqueued) + multiset{Shutdown};
    }
  }

  lemma ResponsesStep(s: State, step: Step)
    requires ResponsesOk(s) && Enabled(s, step)
    ensures ResponsesOk(Next(s, step))
  {
    var s' := Next(s, step);
    forall i, p: nat | 0 <= i < |s'.sessions|
      ensures multiset(s'.sessions[i].enqueued)[Response(p)] == Sent(s'.posts, i, p)
    {
      if i < |s.sessions| {
        EnqueuedStep(s, step, i, p);
      }
    }
  }

  lemma {:induction false} ResponsesSafe(states: seq<State>, steps: seq<Step>, k: nat)
    requires IsRun(states, steps) && k < |states|
    ensures ResponsesOk(states[k])
  {
    if k > 0 {
      ResponsesSafe(states, steps, k - 1);
      assert Follows(states, steps, k - 1);
      ResponsesStep(states[k - 1], steps[k - 1]);
    }
  }

  /**
   A response is enqueued exactly once, in the session its POST named, if the POST was answered 202 with a
   response, and never otherwise; so it is delivered at most once, and never if the handler refused the POST.
   */
  lemma AcknowledgedOnce(states: seq<State>, steps: seq<Step>, k: nat, i: nat, p: nat)
    requires IsRun(states, steps) && k < |states| && i < |states[k].sessions|
    ensures var x := states[k].sessions[i];
            && multiset(x.delivered)[Response(p)] + multiset(x.buffer)[Response(p)] == Sent(states[k].posts, i, p)
            && multiset(x.enqueued)[Response(p)] == Sent(states[k].posts, i, p)
  {
    ResponsesSafe(states, steps, k);
    SessionsSafe(states, steps, k);
    var x := states[k].sessions[i];
    assert SessionOk(x);
    assert multiset(x.delivered + x.buffer) == multiset(x.delivered) + multiset(x.buffer);
  }

  // ----- what a POST is answered

  /** A POST keeps its session; once answered it keeps its answer, and only its lookup can answer it 404. */
  lemma AnswerStep(states: seq<State>, steps: seq<Step>, k: nat, p: nat)
    requires IsRun(states, steps) && k < |steps| && p < |states[k].posts|
    ensures p < |states[k + 1].posts|
    ensures var x, x' := states[k].posts[p], states[k + 1].posts[p];
            && x'.session == x.session
            && (x.phase.Answered? ==> x' == x)
            && (x'.phase == Answered(NotFound) ==> x == x')
  {
    assert Follows(states, steps, k);
  }

  /** A POST is answered 404 exactly if the session it names is not in the map when it looks it up. */
  lemma {:induction false} NotFoundIff(states: seq<State>, steps: seq<Step>, k: nat, k': nat, i: nat)
    requires IsRun(states, steps) && k < k' < |states| && steps[k] == LookUp(i)
    ensures var p := |states[k].posts|;
            && p < |states[k'].posts| && states[k'].posts[p].session == i
            && (states[k'].posts[p].phase == Answered(NotFound)
                <==> !(i < |states[k].sessions| && states[k].sessions[i].inMap))
    decreases k'
  {
    if k + 1 == k' {
      assert Follows(states, steps, k);
    } else {
      NotFoundIff(states, steps, k, k' - 1, i);
      AnswerStep(states, steps, k' - 1, |states[k].posts|);
    }
  }

  /** An answer is final. */
  lemma {:induction false} AnswerFinal(states: seq<State>, steps: seq<Step>, k: nat, k': nat, p: nat)
    requires IsRun(states, steps) && k <= k' < |states|
    requires p < |states[k].posts| && states[k].posts[p].phase.Answered?
    ensures p < |states[k'].posts| && states[k'].posts[p] == states[k].posts[p]
    decreases k'
  {
    if k < k' {
      AnswerFinal(states, steps, k, k' - 1, p);
      AnswerStep(states, steps, k' - 1, p);
    }
  }

  // ----- after the handler has returned

  predicate Exited(x: Session) {
    x.handler.Left? || x.handler.Gone?
  }

  /** From s to s' the handler of session i has returned and delivered nothing; its buffer only grew. */
  predicate Frozen(s: State, s': State, i: nat) {
    && i < |s.sessions| && Exited(s.sessions[i])
    && i < |s'.sessions| && Exited(s'.sessions[i])
    && s'.sessions[i].delivered == s.sessions[i].delivered
    && s.sessions[i].buffer <= s'.sessions[i].buffer
  }

  lemma FrozenStep(states: seq<State>, steps: seq<Step>, k: nat, i: nat)
    requires IsRun(states, steps) && k < |steps| && i < |states[k].sessions| && Exited(states[k].sessions[i])
    ensures Frozen(states[k], states[k + 1], i)
  {
    assert Follows(states, steps, k);
  }

  lemma FrozenTransitive(s: State, s': State, s'': State, i: nat)
    requires Frozen(s, s', i) && Frozen(s', s'', i)
    ensures Frozen(s, s'', i)
  {
  }

  /** Once a handler has returned nothing more is delivered: what is or gets buffered stays there for ever. */
  lemma {:induction false} ExitFreezes(states: seq<State>, steps: seq<Step>, k: nat, k': nat, i: nat)
    requires IsRun(states, steps) && k <= k' < |states|
    requires i < |states[k].sessions| && Exited(states[k].sessions[i])
    ensures Frozen(states[k], states[k'], i)
    decreases k'
  {
    if k < k' {
      ExitFreezes(states, steps, k, k' - 1, i);
      FrozenStep(states, steps, k' - 1, i);
      FrozenTransitive(states[k], states[k' - 1], states[k'], i);
    }
  }

  /** The steps in which the handler of session i returns. */
  predicate Exits(step: Step, i: nat) {
    step == DrainEnd(i) || step == ContextDone(i)
  }

  lemma ExitsOrStays(states: seq<State>, steps: seq<Step>, k: nat, i: nat)
    requires IsRun(states, steps) && k < |steps| && i < |states[k + 1].sessions| && Exited(states[k + 1].sessions[i])
    ensures i < |states[k].sessions| && (Exits(steps[k], i) || Exited(states[k].sessions[i]))
  {
    assert Follows(states, steps, k);
  }

  /** A handler that has returned did so in one of the steps before. */
  lemma {:induction false} ExitStepExists(states: seq<State>, steps: seq<Step>, k': nat, i: nat) returns (k: nat)
    requires IsRun(states, steps) && k' < |states| && i < |states[k'].sessions| && Exited(states[k'].sessions[i])
    ensures k < k' && i < |states[k].sessions| && Exits(steps[k], i)
    decreases k'
  {
    ExitsOrStays(states, steps, k' - 1, i);
    k := k' - 1;
    if !Exits(steps[k], i) {
      k := ExitStepExists(states, steps, k' - 1, i);
    }
  }

  lemma ExitKeepsDelivered(states: seq<State>, steps: seq<Step>, k: nat, i: nat)
    requires IsRun(states, steps) && k < |steps| && i < |states[k].sessions| && Exits(steps[k], i)
    ensures i < |states[k + 1].sessions| && Exited(states[k + 1].sessions[i])
    ensures states[k + 1].sessions[i].delivered == states[k].sessions[i].delivered
    ensures steps[k] == DrainEnd(i) ==> states[k].sessions[i].buffer == []
  {
    assert Follows(states, steps, k);
  }

  /**
   Which responses reach the client of a session whose handler returns in step k: at any later time, exactly those
   whose POST had been acknowledged by then and that were not still buffered. A handler that returns from its drain
   loop leaves nothing buffered.
   */
  lemma ReachesClientIff(states: seq<State>, steps: seq<Step>, k: nat, k': nat, i: nat, p: nat)
    requires IsRun(states, steps) && k < k' < |states| && i < |states[k].sessions| && Exits(steps[k], i)
    ensures i < |states[k'].sessions|
    ensures Response(p) in states[k'].sessions[i].delivered
            <==> Sent(states[k].posts, i, p) == 1 && Response(p) !in states[k].sessions[i].buffer
    ensures steps[k] == DrainEnd(i) ==>
              (Response(p) in states[k'].sessions[i].delivered <==> Sent(states[k].posts, i, p) == 1)
  {
    ExitKeepsDelivered(states, steps, k, i);
    ExitFreezes(states, steps, k + 1, k', i);
    AcknowledgedOnce(states, steps, k, i, p);
    var x := states[k].sessions[i];
    assert Response(p) in x.delivered <==> multiset(x.delivered)[Response(p)] > 0;
    assert Response(p) in x.buffer <==> multiset(x.buffer)[Response(p)] > 0;
  }

  lemma RunOn(states: seq<State>, steps: seq<Step>, step: Step) returns (states': seq<State>, steps': seq<Step>)
    requires IsRun(states, steps) && Enabled(states[|states| - 1], step)
    ensures IsRun(states', steps') && |states'| == |states| + 1
    ensures states'[|states|] == Next(states[|states| - 1], step)
  {
    states', steps' := states + [Next(states[|states| - 1], step)], steps + [step];
    Continue(states, steps, step, Next(states[|states| - 1], step));
  }

  /** The condition can fail: a POST is acknowledged after the handler returned, and its response is never delivered. */
  lemma AcknowledgedButLost() returns (states: seq<State>, steps: seq<Step>)
    ensures IsRun(states, steps)
    ensures var s := states[|states| - 1];
            && |s.sessions| == 1 && |s.posts| == 1
            && s.posts[0] == Post(0, Answered(Accepted))
            && Exited(s.sessions[0]) && Response(0) !in s.sessions[0].delivered
  {
    states, steps := [INITIAL], [];
    states, steps := RunOn(states, steps, Connect);
    states, steps := RunOn(states, steps, LookUp(0));
    states, steps := RunOn(states, steps, Ready(0));
    states, steps := RunOn(states, steps, ContextDone(0));
    states, steps := RunOn(states, steps, CleanUp(0));
    states, steps := RunOn(states, steps, Send(0));
  }

  // ----- the drain loop ends

  /** How many messages a POST can still put into the buffer of session i. */
  function Weight(x: Post, i: nat): nat {
    if x.session == i && !x.phase.Answered? then 1 else 0
  }

  function PostWeight(posts: seq<Post>, i: nat): nat {
    if posts == [] then 0 else PostWeight(posts[..|posts| - 1], i) + Weight(posts[|posts| - 1], i)
  }

  /** What session i can still be asked to deliver: its buffer, and the POSTs that looked it up in time. */
  function Potential(s: State, i: nat): nat
    requires i < |s.sessions|
  {
    |s.sessions[i].buffer| + PostWeight(s.posts, i)
  }

  lemma {:induction false} PostWeightUpdate(posts: seq<Post>, p: nat, x: Post, i: nat)
    requires p < |posts|
    ensures PostWeight(posts[p := x], i) + Weight(posts[p], i) == PostWeight(posts, i) + Weight(x, i)
  {
    var n := |posts| - 1;
    if p < n {
      assert posts[p := x][..n] == posts[..n][p := x];
      PostWeightUpdate(posts[..n], p, x, i);
    } else {
      assert posts[p := x][..n] == posts[..n];
    }
  }

  /** No new POST can reach session i: it is closed or out of the map. */
  predicate Retired(s: State, i: nat)
    requires i < |s.sessions|
  {
    s.sessions[i].Done() || !s.sessions[i].inMap
  }

  /** A step that takes one message from the buffer of session i. */
  predicate Takes(step: Step, i: nat) {
    (step.Deliver? || step.Drain?) && step.i == i
  }

  /** Whether a step puts something into the buffer of session i. */
  predicate Puts(s: State, step: Step, i: nat)
    requires Enabled(s, step)
  {
    step.Send? && s.posts[step.p].session == i
  }

  lemma StaysRetired(s: State, step: Step, i: nat)
    requires SessionsOk(s) && i < |s.sessions| && Retired(s, i) && Enabled(s, step)
    ensures i < |Next(s, step).sessions| && Retired(Next(s, step), i)
  {
  }

  /** The sweep sends no notice to a retired session: what it visits is open and in the map. */
  lemma NoNotice(s: State, step: Step, i: nat)
    requires SessionsOk(s) && i < |s.sessions| && Retired(s, i) && Enabled(s, step)
    ensures !(step.SweepNotice? && step.i == i)
  {
    assert SweepOk(s.sweep, i, s.sessions[i]);
  }

  lemma BufferStep(s: State, step: Step, i: nat)
    requires i < |s.sessions| && Enabled(s, step) && !(step.SweepNotice? && step.i == i)
    ensures |Next(s, step).sessions[i].buffer| + (if Takes(step, i) then 1 else 0)
            == |s.sessions[i].buffer| + if Puts(s, step, i) then 1 else 0
  {
  }

  lemma PostsStep(s: State, step: Step, i: nat)
    requires SessionsOk(s) && i < |s.sessions| && Retired(s, i) && Enabled(s, step)
    ensures PostWeight(Next(s, step).posts, i) + (if Puts(s, step, i) then 1 else 0) <= PostWeight(s.posts, i)
  {
    assert SweepOk(s.sweep, i, s.sessions[i]);
    var posts := Next(s, step).posts;
    if step.LookUp? {
      assert posts[..|s.posts|] == s.posts;
    } else if step.Refuse? || step.Ready? || step.Send? || step.GiveUp? {
      PostWeightUpdate(s.posts, step.p, posts[step.p], i);
    }
  }

  lemma PotentialStep(s: State, step: Step, i: nat)
    requires SessionsOk(s) && i < |s.sessions| && Retired(s, i) && Enabled(s, step)
    ensures var s' := Next(s, step);
            && i < |s'.sessions| && Retired(s', i)
            && Potential(s', i) + (if Takes(step, i) then 1 else 0) <= Potential(s, i)
  {
    StaysRetired(s, step, i);
    NoNotice(s, step, i);
    BufferStep(s, step, i);
    PostsStep(s, step, i);
  }

  /** How many of the steps k, ..., k' - 1 take a message from the buffer of session i. */
  function TakeCount(steps: seq<Step>, k: nat, k': nat, i: nat): nat
    requires k <= k' <= |steps|
    decreases k'
  {
    if k == k' then 0 else TakeCount(steps, k, k' - 1, i) + if Takes(steps[k' - 1], i) then 1 else 0
  }

  lemma RetiredStep(states: seq<State>, steps: seq<Step>, k: nat, i: nat)
    requires IsRun(states, steps) && k < |steps| && i < |states[k].sessions| && Retired(states[k], i)
    ensures i < |states[k + 1].sessions| && Retired(states[k + 1], i)
    ensures Potential(states[k + 1], i) + (if Takes(steps[k], i) then 1 else 0) <= Potential(states[k], i)
  {
    assert Follows(states, steps, k);
    SessionsSafe(states, steps, k);
    PotentialStep(states[k], steps[k], i);
  }

  /**
   From the moment a session is closed or leaves the map, every run takes at most as many messages from its buffer
   as were buffered plus one for each POST that had looked the session up and was not yet answered; so the drain
   loop ends under every schedule.
   */
  lemma {:induction false} DrainEnds(states: seq<State>, steps: seq<Step>, k: nat, k': nat, i: nat)
    requires IsRun(states, steps) && k <= k' < |states|
    requires i < |states[k].sessions| && Retired(states[k], i)
    ensures i < |states[k'].sessions| && Retired(states[k'], i)
    ensures TakeCount(steps, k, k', i) + Potential(states[k'], i) <= Potential(states[k], i)
    decreases k'
  {
    if k < k' {
      DrainEnds(states, steps, k, k' - 1, i);
      RetiredStep(states, steps, k' - 1, i);
    }
  }

  /** When nothing is left to deliver, a draining handler can do nothing but leave. */
  lemma DrainedLeaves(s: State, i: nat)
    requires i < |s.sessions| && s.sessions[i].handler.Draining? && Potential(s, i) == 0
    ensures Enabled(s, DrainEnd(i)) && !Enabled(s, Drain(i))
    ensures forall p :: 0 <= p < |s.posts| && s.posts[p].session == i ==> !Enabled(s, Send(p)) && !Enabled(s, Ready(p))
  {
    forall p | 0 <= p < |s.posts|
      ensures Weight(s.posts[p], i) == 0
    {
      NoWeight(s.posts, p, i);
    }
  }

  lemma {:induction false} NoWeight(posts: seq<Post>, p: nat, i: nat)
    requires p < |posts|
    ensures Weight(posts[p], i) <= PostWeight(posts, i)
  {
    if p < |posts| - 1 {
      NoWeight(posts[..|posts| - 1], p, i);
    }
  }
}
