/**
 What `disconnect` silences. After it, frames should leave the screen alone until the user begins
 something again. They do, if and only if no run is just being started and no follower has been left
 behind with a controller that nobody can abort any more.
 */
module Disconnection {
  import opened Common
  import opened UiEvents
  import opened PlanGraph
  import opened PlanSession

  /** The call reaches the network to open a thread, start a run or follow one. */
  predicate Begins(s: Session, call: Call) {
    var t := Invoke(s, call).1;
    t.OpenRestore? || t.CreateThread? || t.CreateRun? || t.FollowFrame?
  }

  /** Until a call begins something, no frame changes what is on screen. */
  predicate FramesInert(c: Compiler, m: Machine, actions: seq<Action>)
    decreases |actions|
  {
    if actions == [] || !Enabled(m, actions[0]) then true
    else
      var a, next := actions[0], Next(c, m, actions[0]);
      || (a.Call? && Begins(m.session, a.call))
      || ((a.Deliver? && a.reply.Received? ==> next.session.snapshot == m.session.snapshot)
          && FramesInert(c, next, actions[1..]))
  }

  /** A live follower whose stream nobody has aborted. */
  predicate Follows(s: Session, t: Task) {
    t.FollowFrame? && t.token == s.epoch && t.controller !in s.aborted
  }

  /** A live call that may still go on to follow a run. */
  predicate MayFollow(s: Session, t: Task) {
    && ((t.OpenRestore? && !t.again) || t.OpenList? || t.CreateThread? || t.CreateRun?)
    && t.token == s.epoch
  }

  predicate Silent(m: Machine) {
    forall i :: 0 <= i < |m.tasks| ==> !Follows(m.session, m.tasks[i]) && !MayFollow(m.session, m.tasks[i])
  }

  // ----- silence lasts ----------------------------------------------------------------------

  /** A silent task stays silent, and what it does to the session is not a frame. */
  lemma SilentStep(c: Compiler, s: Session, t: Task, r: Reply)
    requires Fits(t, r) && Ready(s, t) && !Follows(s, t) && !MayFollow(s, t)
    ensures var (next, task) := Step(c, s, t, r);
            && !Follows(next, task) && !MayFollow(next, task)
            && next.epoch == s.epoch && next.aborted == s.aborted
            && (r.Received? ==> next == s)
  {
  }

  lemma SilentCall(s: Session, call: Call, t: Task)
    requires TaskOk(s, t) && !Begins(s, call)
    ensures var (next, task) := Invoke(s, call);
            && !Follows(next, task) && !MayFollow(next, task)
            && (!Follows(s, t) && !MayFollow(s, t) ==> !Follows(next, t) && !MayFollow(next, t))
  {
  }

  lemma SilenceKept(c: Compiler, m: Machine, a: Action)
    requires Inv(c, m) && Enabled(m, a) && Silent(m)
    requires a.Call? ==> !Begins(m.session, a.call)
    ensures Silent(Next(c, m, a))
    ensures a.Deliver? && a.reply.Received? ==> Next(c, m, a).session == m.session
  {
    match a
    case Call(call) =>
      var next := Next(c, m, a);
      SilentCall(m.session, call, Finished);
      forall i | 0 <= i < |m.tasks| ensures !Follows(next.session, m.tasks[i]) && !MayFollow(next.session, m.tasks[i]) {
        SilentCall(m.session, call, m.tasks[i]);
      }
    case Deliver(index, reply) => SilentStep(c, m.session, m.tasks[index], reply);
  }

  lemma {:induction false} SilenceLasts(c: Compiler, m: Machine, actions: seq<Action>)
    requires Inv(c, m) && Silent(m)
    ensures FramesInert(c, m, actions)
    decreases |actions|
  {
    if actions != [] && Enabled(m, actions[0]) {
      var a := actions[0];
      if !(a.Call? && Begins(m.session, a.call)) {
        SilenceKept(c, m, a);
        NextKeepsInv(c, m, a);
        SilenceLasts(c, Next(c, m, a), actions[1..]);
      }
    }
  }

  // ----- and nothing less is silent ---------------------------------------------------------

  /** Controllers are numbered in the order they are made. */
  predicate NumberedSession(s: Session) {
    && (forall k :: k in s.aborted ==> k < s.controllers)
    && (s.observation.Some? && s.observation.value.controller.Some? ==>
          s.observation.value.controller.value < s.controllers)
  }

  predicate NumberedTask(s: Session, t: Task) {
    t.FollowFrame? ==> t.controller < s.controllers
  }

  predicate Numbered(m: Machine) {
    NumberedSession(m.session) && forall i :: 0 <= i < |m.tasks| ==> NumberedTask(m.session, m.tasks[i])
  }

  lemma NumberedCall(s: Session, call: Call)
    requires NumberedSession(s)
    ensures var (next, task) := Invoke(s, call);
            NumberedSession(next) && NumberedTask(next, task) && s.controllers <= next.controllers
  {
  }

  lemma NumberedStep(c: Compiler, s: Session, t: Task, r: Reply)
    requires NumberedSession(s) && NumberedTask(s, t) && Fits(t, r) && Ready(s, t)
    ensures var (next, task) := Step(c, s, t, r);
            NumberedSession(next) && NumberedTask(next, task) && s.controllers <= next.controllers
  {
  }

  lemma NumberedKept(c: Compiler, m: Machine, a: Action)
    requires Numbered(m) && Enabled(m, a)
    ensures Numbered(Next(c, m, a))
  {
    match a
    case Call(call) => NumberedCall(m.session, call);
    case Deliver(index, reply) => NumberedStep(c, m.session, m.tasks[index], reply);
  }

  lemma {:induction false} NumberedRun(c: Compiler, m: Machine, actions: seq<Action>)
    requires Numbered(m)
    ensures Run(c, m, actions).Some? ==> Numbered(Run(c, m, actions).value)
    decreases |actions|
  {
    if actions != [] && Enabled(m, actions[0]) {
      NumberedKept(c, m, actions[0]);
      NumberedRun(c, Next(c, m, actions[0]), actions[1..]);
    }
  }

  const BAD := Received(Malformed, None, None)

  /** A malformed frame makes a live follower announce missing updates. */
  lemma FollowerSpeaks(c: Compiler, m: Machine, i: nat)
    requires Inv(c, m) && i < |m.tasks| && Follows(m.session, m.tasks[i])
    requires m.session.snapshot.recovery != Some(UpdatesMissing)
    ensures !FramesInert(c, m, [Deliver(i, BAD)])
  {
    assert TaskOk(m.session, m.tasks[i]);
    var a := Deliver(i, BAD);
    assert Next(c, m, a).session.snapshot.recovery == Some(UpdatesMissing);
  }

  /** The reply that takes a call that may follow a run one step closer to it. */
  function Closer(t: Task): Reply {
    match t
    case OpenRestore(_, _, _) => State(ThreadState(None, None, None))
    case OpenList(_, _) => Runs(Some("t"), None)
    case CreateThread(_, _) => ThreadCreated("t")
    case _ => RunCreated("t")
  }

  function Distance(t: Task): nat {
    if t.OpenRestore? || t.CreateThread? then 2 else 1
  }

  lemma OneCloser(c: Compiler, s: Session, t: Task)
    requires MayFollow(s, t) && NumberedSession(s)
    requires s.snapshot.recovery != Some(UpdatesMissing)
    ensures Fits(t, Closer(t)) && Ready(s, t)
    ensures var (next, task) := Step(c, s, t, Closer(t));
            && (Follows(next, task) || (MayFollow(next, task) && Distance(task) < Distance(t)))
            && next.snapshot.recovery != Some(UpdatesMissing)
  {
  }

  lemma {:induction false} Speaks(c: Compiler, m: Machine, i: nat) returns (actions: seq<Action>)
    requires Inv(c, m) && Numbered(m) && i < |m.tasks|
    requires Follows(m.session, m.tasks[i]) || MayFollow(m.session, m.tasks[i])
    requires m.session.snapshot.recovery != Some(UpdatesMissing)
    ensures !FramesInert(c, m, actions)
    decreases if MayFollow(m.session, m.tasks[i]) then Distance(m.tasks[i]) else 0
  {
    if Follows(m.session, m.tasks[i]) {
      FollowerSpeaks(c, m, i);
      actions := [Deliver(i, BAD)];
    } else {
      var a := Deliver(i, Closer(m.tasks[i]));
      OneCloser(c, m.session, m.tasks[i]);
      NextKeepsInv(c, m, a);
      NumberedKept(c, m, a);
      var rest := Speaks(c, Next(c, m, a), i);
      actions := [a] + rest;
      assert actions[1..] == rest;
    }
  }

  /** No schedule shows a frame before something is begun, if and only if the machine is silent. */
  lemma SilenceExactly(c: Compiler, m: Machine)
    requires Inv(c, m) && Numbered(m) && m.session.snapshot.recovery != Some(UpdatesMissing)
    ensures (forall actions :: FramesInert(c, m, actions)) <==> Silent(m)
  {
    if Silent(m) {
      forall actions ensures FramesInert(c, m, actions) {
        SilenceLasts(c, m, actions);
      }
    } else {
      var i :| 0 <= i < |m.tasks| && (Follows(m.session, m.tasks[i]) || MayFollow(m.session, m.tasks[i]));
      var actions := Speaks(c, m, i);
    }
  }

  // ----- disconnecting ----------------------------------------------------------------------

  /** A live follower other than the one `disconnect` would abort. */
  predicate Orphan(s: Session, t: Task) {
    Follows(s, t) && !(s.observation.Some? && s.observation.value.controller == Some(t.controller))
  }

  predicate NoOrphan(m: Machine) {
    forall i :: 0 <= i < |m.tasks| ==> !Orphan(m.session, m.tasks[i])
  }

  predicate NothingStarting(m: Machine) {
    forall i :: 0 <= i < |m.tasks| ==> !MayFollow(m.session, m.tasks[i])
  }

  /**
   For every reachable session: after `disconnect`, no frame changes the screen before a call begins
   something, if and only if there was no orphaned follower and nothing was being started.
   */
  lemma DisconnectSilencesExactly(c: Compiler, before: seq<Action>)
    requires Run(c, START, before).Some?
    ensures var m := Run(c, START, before).value;
            (forall actions :: FramesInert(c, Next(c, m, Action.Call(Disconnect)), actions)) <==>
              NoOrphan(m) && NothingStarting(m)
  {
    var m := Run(c, START, before).value;
    var a := Action.Call(Disconnect);
    var next := Next(c, m, a);
    RunKeepsInv(c, START, before);
    NumberedRun(c, START, before);
    NextKeepsInv(c, m, a);
    NumberedKept(c, m, a);
    SilenceExactly(c, next);
    forall i | 0 <= i < |m.tasks|
      ensures Follows(next.session, next.tasks[i]) <==> Orphan(m.session, m.tasks[i])
      ensures MayFollow(next.session, next.tasks[i]) <==> MayFollow(m.session, m.tasks[i])
    {
      assert next.tasks[i] == m.tasks[i];
    }
  }

  // ----- where orphans come from ------------------------------------------------------------

  /** A reply orphans nobody. */
  lemma StepOrphansNobody(c: Compiler, s: Session, t: Task, r: Reply, other: Task)
    requires TaskOk(s, t) && TaskOk(s, other) && Fits(t, r) && Ready(s, t)
    requires !Orphan(s, t) && !Orphan(s, other)
    ensures var (next, task) := Step(c, s, t, r);
            !Orphan(next, task) && !Orphan(next, other)
  {
  }

  /** A call orphans the live follower, if it begins to follow the same run once more. */
  lemma CallOrphans(s: Session, call: Call, t: Task)
    requires TaskOk(s, t) && NumberedSession(s) && NumberedTask(s, t) && !Orphan(s, t)
    ensures var (next, task) := Invoke(s, call);
            && !Orphan(next, task)
            && (Orphan(next, t) <==> Follows(s, t) && call == Reconnect && Begins(s, call))
  {
  }

  /** An orphan comes about exactly by a `reconnect` that goes through while another follower is live. */
  lemma OrphanedExactlyByReconnect(c: Compiler, m: Machine, a: Action)
    requires Inv(c, m) && Numbered(m) && Enabled(m, a) && NoOrphan(m)
    ensures NoOrphan(Next(c, m, a)) <==>
              (a == Action.Call(Reconnect) && Begins(m.session, Reconnect) ==>
                 forall i :: 0 <= i < |m.tasks| ==> !Follows(m.session, m.tasks[i]))
  {
    var next := Next(c, m, a);
    match a
    case Call(call) =>
      CallOrphans(m.session, call, Finished);
      forall i | 0 <= i < |m.tasks|
        ensures Orphan(next.session, next.tasks[i]) <==>
                  Follows(m.session, m.tasks[i]) && call == Reconnect && Begins(m.session, call)
      {
        assert next.tasks[i] == m.tasks[i];
        CallOrphans(m.session, call, m.tasks[i]);
      }
    case Deliver(index, reply) =>
      forall i | 0 <= i < |m.tasks| ensures !Orphan(next.session, next.tasks[i]) {
        StepOrphansNobody(c, m.session, m.tasks[index], reply, m.tasks[i]);
      }
  }

  // ----- an orphan --------------------------------------------------------------------------

  lemma RunCons(c: Compiler, m: Machine, a: Action, rest: seq<Action>)
    requires Enabled(m, a)
    ensures Run(c, m, [a] + rest) == Run(c, Next(c, m, a), rest)
  {
    assert ([a] + rest)[1..] == rest;
  }

  /** The session observes run "r" of thread "t". */
  predicate Following(s: Session, epoch: nat) {
    && s.epoch == epoch && s.snapshot.busy && s.observation.Some?
    && s.observation.value.threadId == "t" && s.observation.value.runId == "r"
  }

  /** A run is started, and its stream ends; its follower waits for the run's status. */
  lemma StreamHasEnded(c: Compiler) returns (actions: seq<Action>, m: Machine)
    ensures Run(c, START, actions) == Some(m)
    ensures Following(m.session, 1) && m.session.snapshot.connected && m.session.aborted == {}
    ensures m.session.controllers == 1 && m.session.observation.value.controller == Some(0)
    ensures m.session.observation.value.cursor == None
    ensures m.tasks == [FollowStatus(1, "t", "r", None)]
  {
    var a1, a2, a3, a4 := Action.Call(Generate(true, "x")), Deliver(0, ThreadCreated("t")), Deliver(0, RunCreated("r")),
                          Deliver(0, StreamEnded);
    var m1 := Next(c, START, a1);
    var m2 := Next(c, m1, a2);
    var m3 := Next(c, m2, a3);
    m := Next(c, m3, a4);
    actions := [a1] + ([a2] + ([a3] + ([a4] + [])));
    RunCons(c, START, a1, [a2] + ([a3] + ([a4] + [])));
    RunCons(c, m1, a2, [a3] + ([a4] + []));
    RunCons(c, m2, a3, [a4] + []);
    RunCons(c, m3, a4, []);
  }

  /** The user reconnects twice: the old follower's status reply in between has hidden the second one. */
  lemma ReconnectedTwice(c: Compiler, m: Machine) returns (actions: seq<Action>, end: Machine)
    requires Following(m.session, 1) && m.session.snapshot.connected && m.session.aborted == {}
    requires m.session.controllers == 1 && m.session.observation.value.controller == Some(0)
    requires m.session.observation.value.cursor == None
    requires m.tasks == [FollowStatus(1, "t", "r", None)]
    ensures Run(c, m, actions) == Some(end)
    ensures Following(end.session, 1) && end.session.aborted == {0}
    ensures end.session.controllers == 3 && end.session.observation.value.controller == Some(2)
    ensures end.tasks == [Finished, Finished, FollowFrame(1, "t", "r", 1, None, None),
                          FollowFrame(1, "t", "r", 2, None, None)]
  {
    var a1, a2, a3, a4 := Action.Call(Disconnect), Action.Call(Reconnect), Deliver(0, Status(Running)),
                          Action.Call(Reconnect);
    var m1 := Next(c, m, a1);
    var m2 := Next(c, m1, a2);
    var m3 := Next(c, m2, a3);
    end := Next(c, m3, a4);
    actions := [a1] + ([a2] + ([a3] + ([a4] + [])));
    RunCons(c, m, a1, [a2] + ([a3] + ([a4] + [])));
    RunCons(c, m1, a2, [a3] + ([a4] + []));
    RunCons(c, m2, a3, [a4] + []);
    RunCons(c, m3, a4, []);
  }

  lemma {:induction false} RunAppend(c: Compiler, m: Machine, actions: seq<Action>, more: seq<Action>)
    requires Run(c, m, actions).Some?
    ensures Run(c, m, actions + more) == Run(c, Run(c, m, actions).value, more)
    decreases |actions|
  {
    if actions == [] {
      assert actions + more == more;
    } else {
      assert (actions + more)[1..] == actions[1..] + more;
      RunAppend(c, Next(c, m, actions[0]), actions[1..], more);
    }
  }

  /** The condition can fail: a session that is disconnected, and whose screen the next frame changes. */
  lemma OrphanSpeaksAfterDisconnect(c: Compiler) returns (before: seq<Action>, i: nat)
    ensures Run(c, START, before).Some?
    ensures var m := Run(c, START, before).value;
            var off := Next(c, m, Action.Call(Disconnect));
            var a := Deliver(i, BAD);
            && !off.session.snapshot.connected && Enabled(off, a)
            && Next(c, off, a).session.snapshot != off.session.snapshot
            && !NoOrphan(m) && NothingStarting(m)
  {
    var started, m := StreamHasEnded(c);
    var reconnected, end := ReconnectedTwice(c, m);
    RunAppend(c, START, started, reconnected);
    before, i := started + reconnected, 2;
    assert Orphan(end.session, end.tasks[2]);
    var off := Next(c, end, Action.Call(Disconnect));
    assert off.tasks[2] == end.tasks[2] && off.session.aborted == {0, 2};
    assert off.session.snapshot.recovery == Some(Paused);
  }
}
