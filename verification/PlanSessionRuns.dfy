/**
 What a plan session brings about, over whole runs: the screen keeps up with what the server said, a run is
 let go only once it is over, and the user is never stuck.

 A `Watch` is what an observer of the calls and the replies remembers; it never looks at what the session
 does with them.
 */
module PlanSessionRuns {
  import opened Common
  import opened UiEvents
  import opened PlanGraph
  import opened PlanSession
  import opened Disconnection

  /** A state read for the open thread, and the runs that were known to be over when it was read. */
  datatype Served = Served(state: ThreadState, ended: set<(Id, Id)>)

  datatype Watch = Watch(latest: Option<Served>, ended: set<(Id, Id)>, disposed: bool)

  const UNWATCHED := Watch(None, {}, false)

  /** A pending review, if any, is of the plan beside it. */
  predicate Coherent(state: ThreadState) {
    state.review.Some? ==> state.ui.Some? && state.review.value.generationId == state.ui.value.generationId
  }

  predicate Over(status: RunStatus) {
    status in {Success, RunStatus.Error, Timeout, Interrupted}
  }

  function SeeCall(w: Watch, s: Session, call: Call): Watch {
    match call
    case Open(_) => w.(latest := None, disposed := false)
    case Dispose => w.(disposed := true)
    case _ => if Begins(s, call) && !call.Reconnect? then w.(disposed := false) else w
  }

  function SeeReply(w: Watch, s: Session, t: Task, r: Reply): Watch
    requires Fits(t, r)
  {
    if r.Status? && Over(r.status) then w.(ended := w.ended + {(t.threadId, t.runId)})
    else if r.State? && t.token == s.epoch && Coherent(r.state) then w.(latest := Some(Served(r.state, w.ended)))
    else w
  }

  function See(w: Watch, m: Machine, a: Action): Watch
    requires Enabled(m, a)
  {
    match a
    case Call(call) => SeeCall(w, m.session, call)
    case Deliver(index, reply) => SeeReply(w, m.session, m.tasks[index], reply)
  }

  function WatchRun(c: Compiler, m: Machine, w: Watch, actions: seq<Action>): Option<(Machine, Watch)>
    decreases |actions|
  {
    if actions == [] then Some((m, w))
    else if !Enabled(m, actions[0]) then None
    else WatchRun(c, Next(c, m, actions[0]), See(w, m, actions[0]), actions[1..])
  }

  // ----- the screen is the latest state -----------------------------------------------------

  function LatestUi(w: Watch): Option<CommittedUi> {
    if w.latest.Some? then w.latest.value.state.ui else None
  }

  predicate ReviewIsLatest(shot: Snapshot, w: Watch) {
    && shot.review == (if w.latest.Some? then w.latest.value.state.review else None)
    && shot.approved == (if w.latest.Some? then w.latest.value.state.approved else None)
  }

  predicate ReviewIsCleared(shot: Snapshot) {
    shot.busy && shot.review.None? && shot.approved.None?
  }

  /** The state on screen was read after the observed run was known to be over. */
  predicate ReadAfterEnd(o: Observation, w: Watch) {
    w.latest.Some? && (o.threadId, o.runId) in w.latest.value.ended
  }

  /** The plan on screen is the latest one read; review and approval too, unless a run has been started since. */
  predicate KeepsUp(s: Session, w: Watch) {
    && s.snapshot.ui == LatestUi(w)
    && (ReviewIsLatest(s.snapshot, w) || ReviewIsCleared(s.snapshot))
    && (!s.snapshot.busy ==> ReviewIsLatest(s.snapshot, w))
    && (s.observation.Some? && !s.snapshot.busy ==> ReadAfterEnd(s.observation.value, w))
    && (w.latest.Some? ==> w.latest.value.ended <= w.ended)
  }

  /** What a live suspended call knows about its run, and that the session is busy while one is being started. */
  predicate Knows(s: Session, w: Watch, t: Task) {
    !t.Finished? && t.token == s.epoch ==>
      && (Starter(t) ==> s.snapshot.busy && ReviewIsLatest(s.snapshot, w))
      && (t.FollowRestore? || t.StopRestore? ==>
            s.observation.Some? && (s.observation.value.threadId, s.observation.value.runId) in w.ended)
      && (t.FollowDone? || t.StopDone? ==>
            s.observation.Some? && ReadAfterEnd(s.observation.value, w) && ReviewIsLatest(s.snapshot, w))
  }

  predicate WatchInv(m: Machine, w: Watch) {
    KeepsUp(m.session, w) && forall i :: 0 <= i < |m.tasks| ==> Knows(m.session, w, m.tasks[i])
  }

  lemma CallKeepsUp(s: Session, w: Watch, call: Call)
    requires KeepsUp(s, w)
    ensures var (next, task) := Invoke(s, call);
            KeepsUp(next, SeeCall(w, s, call)) && Knows(next, SeeCall(w, s, call), task)
  {
  }

  lemma CallKeepsKnowledge(s: Session, w: Watch, call: Call, t: Task)
    requires TaskOk(s, t) && Knows(s, w, t)
    ensures Knows(Invoke(s, call).0, SeeCall(w, s, call), t)
  {
  }

  predicate Restores(t: Task) {
    t.OpenRestore? || t.FollowRestore? || t.StopRestore?
  }

  lemma RestoreKeepsUp(c: Compiler, s: Session, w: Watch, t: Task, r: Reply)
    requires TaskOk(s, t) && Fits(t, r) && Restores(t) && t.token == s.epoch
    requires KeepsUp(s, w) && Knows(s, w, t)
    ensures var (next, task) := Step(c, s, t, r);
            KeepsUp(next, SeeReply(w, s, t, r)) && Knows(next, SeeReply(w, s, t, r), task)
  {
  }

  lemma OtherReplyKeepsUp(c: Compiler, s: Session, w: Watch, t: Task, r: Reply)
    requires TaskOk(s, t) && Fits(t, r) && Ready(s, t) && !Restores(t) && t.token == s.epoch
    requires KeepsUp(s, w) && Knows(s, w, t)
    ensures var (next, task) := Step(c, s, t, r);
            KeepsUp(next, SeeReply(w, s, t, r)) && Knows(next, SeeReply(w, s, t, r), task)
  {
  }

  lemma ReplyKeepsUp(c: Compiler, s: Session, w: Watch, t: Task, r: Reply)
    requires TaskOk(s, t) && Fits(t, r) && Ready(s, t)
    requires KeepsUp(s, w) && Knows(s, w, t)
    ensures var (next, task) := Step(c, s, t, r);
            KeepsUp(next, SeeReply(w, s, t, r)) && Knows(next, SeeReply(w, s, t, r), task)
  {
    if t.token != s.epoch {
      StaleContinuationIsInert(c, s, t, r);
    } else if Restores(t) {
      RestoreKeepsUp(c, s, w, t, r);
    } else {
      OtherReplyKeepsUp(c, s, w, t, r);
    }
  }

  /** A reply to one call leaves the others what they know; a live restore leaves them the state it read. */
  lemma ReplyKeepsKnowledge(c: Compiler, s: Session, w: Watch, t: Task, r: Reply, other: Task)
    requires TaskOk(s, t) && Fits(t, r) && Ready(s, t) && TaskOk(s, other)
    requires KeepsUp(s, w) && Knows(s, w, t) && Knows(s, w, other)
    requires !(LiveStarter(s, t) && LiveStarter(s, other))
    ensures Knows(Step(c, s, t, r).0, SeeReply(w, s, t, r), other)
  {
    if t.token != s.epoch {
      StaleContinuationIsInert(c, s, t, r);
    } else if Restores(t) {
      RestoreKeepsKnowledge(c, s, w, t, r, other);
    } else {
      OtherKeepsKnowledge(c, s, w, t, r, other);
    }
  }

  lemma RestoreKeepsKnowledge(c: Compiler, s: Session, w: Watch, t: Task, r: Reply, other: Task)
    requires TaskOk(s, t) && Fits(t, r) && TaskOk(s, other) && Restores(t) && t.token == s.epoch
    requires KeepsUp(s, w) && Knows(s, w, t) && Knows(s, w, other)
    ensures Knows(Step(c, s, t, r).0, SeeReply(w, s, t, r), other)
  {
  }

  lemma OtherKeepsKnowledge(c: Compiler, s: Session, w: Watch, t: Task, r: Reply, other: Task)
    requires TaskOk(s, t) && Fits(t, r) && Ready(s, t) && TaskOk(s, other) && !Restores(t) && t.token == s.epoch
    requires KeepsUp(s, w) && Knows(s, w, t) && Knows(s, w, other)
    requires !(LiveStarter(s, t) && LiveStarter(s, other))
    ensures Knows(Step(c, s, t, r).0, SeeReply(w, s, t, r), other)
  {
  }

  // ----- nobody is stuck --------------------------------------------------------------------

  /** A live call that will clear `connected` unless something else does. */
  predicate Connector(s: Session, t: Task) {
    Follows(s, t)
    || ((t.FollowStatus? || t.FollowRestore? || t.FollowDone? || t.FollowCatch? || t.CreateThread? || t.CreateRun?)
        && t.token == s.epoch)
  }

  /** Something is behind every claim to be busy or connected. */
  predicate Backed(m: Machine, w: Watch) {
    && (m.session.snapshot.busy && !w.disposed ==>
          m.session.observation.Some? || exists i :: 0 <= i < |m.tasks| && LiveStarter(m.session, m.tasks[i]))
    && (m.session.snapshot.connected && !w.disposed ==>
          exists i :: 0 <= i < |m.tasks| && Connector(m.session, m.tasks[i]))
  }

  /** A call leaves its own task to back what it claims, or keeps the claims and the tasks behind them. */
  lemma CallBacked(s: Session, w: Watch, call: Call)
    requires NumberedSession(s)
    ensures var (next, task) := Invoke(s, call);
            var after := SeeCall(w, s, call);
            && (next.snapshot.busy && !after.disposed ==>
                  next.observation.Some? || LiveStarter(next, task)
                  || (s.snapshot.busy && next.epoch == s.epoch && s.observation.None? && !w.disposed))
            && (next.snapshot.connected && !after.disposed ==>
                  Connector(next, task)
                  || (s.snapshot.connected && next == s.(snapshot := next.snapshot) && !w.disposed))
  {
  }

  lemma ReplyBacked(c: Compiler, s: Session, w: Watch, t: Task, r: Reply)
    requires TaskOk(s, t) && Fits(t, r) && Ready(s, t) && NumberedSession(s)
    ensures var (next, task) := Step(c, s, t, r);
            && (next.snapshot.busy ==>
                  next.observation.Some? || LiveStarter(next, task) || (s.snapshot.busy && !LiveStarter(s, t)))
            && (next.snapshot.connected ==>
                  Connector(next, task) || (s.snapshot.connected && !Connector(s, t)))
            && next.epoch == s.epoch && next.aborted == s.aborted
            && (s.observation.Some? ==> next.observation.Some?)
  {
  }

  lemma BackedAfterCall(c: Compiler, m: Machine, w: Watch, call: Call)
    requires Inv(c, m) && Numbered(m) && Backed(m, w)
    ensures Backed(Next(c, m, Action.Call(call)), SeeCall(w, m.session, call))
  {
    var next := Next(c, m, Action.Call(call));
    CallBacked(m.session, w, call);
    assert next.tasks[|m.tasks|] == Invoke(m.session, call).1;
    assert forall i :: 0 <= i < |m.tasks| ==> next.tasks[i] == m.tasks[i];
  }

  lemma BackedAfterReply(c: Compiler, m: Machine, w: Watch, index: nat, r: Reply)
    requires Inv(c, m) && Numbered(m) && Backed(m, w) && Enabled(m, Deliver(index, r))
    ensures Backed(Next(c, m, Deliver(index, r)), SeeReply(w, m.session, m.tasks[index], r))
  {
    var next := Next(c, m, Deliver(index, r));
    ReplyBacked(c, m.session, w, m.tasks[index], r);
    assert forall i :: 0 <= i < |m.tasks| && i != index ==> next.tasks[i] == m.tasks[i];
    assert next.tasks[index] == Step(c, m.session, m.tasks[index], r).1;
  }

  lemma WatchKept(c: Compiler, m: Machine, w: Watch, a: Action)
    requires Inv(c, m) && WatchInv(m, w) && Enabled(m, a)
    ensures WatchInv(Next(c, m, a), See(w, m, a))
  {
    var next := Next(c, m, a);
    match a
    case Call(call) =>
      CallKeepsUp(m.session, w, call);
      forall i | 0 <= i < |m.tasks| ensures Knows(next.session, SeeCall(w, m.session, call), next.tasks[i]) {
        CallKeepsKnowledge(m.session, w, call, m.tasks[i]);
      }
    case Deliver(index, r) =>
      var t := m.tasks[index];
      ReplyKeepsUp(c, m.session, w, t, r);
      forall i | 0 <= i < |m.tasks| && i != index
        ensures Knows(next.session, SeeReply(w, m.session, t, r), next.tasks[i])
      {
        ReplyKeepsKnowledge(c, m.session, w, t, r, m.tasks[i]);
      }
  }

  ghost predicate AllInv(c: Compiler, m: Machine, w: Watch) {
    Inv(c, m) && Numbered(m) && WatchInv(m, w) && Backed(m, w)
  }

  lemma AllKept(c: Compiler, m: Machine, w: Watch, a: Action)
    requires AllInv(c, m, w) && Enabled(m, a)
    ensures AllInv(c, Next(c, m, a), See(w, m, a))
  {
    NextKeepsInv(c, m, a);
    NumberedKept(c, m, a);
    WatchKept(c, m, w, a);
    match a
    case Call(call) => BackedAfterCall(c, m, w, call);
    case Deliver(index, r) => BackedAfterReply(c, m, w, index, r);
  }

  lemma {:induction false} AllRun(c: Compiler, m: Machine, w: Watch, actions: seq<Action>)
    requires AllInv(c, m, w)
    ensures var end := WatchRun(c, m, w, actions);
            && (end.Some? <==> Run(c, m, actions).Some?)
            && (end.Some? ==> end.value.0 == Run(c, m, actions).value && AllInv(c, end.value.0, end.value.1))
    decreases |actions|
  {
    if actions != [] && Enabled(m, actions[0]) {
      AllKept(c, m, w, actions[0]);
      AllRun(c, Next(c, m, actions[0]), See(w, m, actions[0]), actions[1..]);
    }
  }

  /**
   For every interleaving: the plan on screen is that of the latest state read for the open thread; so are
   review and approval, unless a run has been started since; and the session lets go of a run only after the
   server has said that it is over, with a state on screen that was read after that.
   */
  lemma ScreenKeepsUp(c: Compiler, actions: seq<Action>)
    requires Run(c, START, actions).Some?
    ensures var end := WatchRun(c, START, UNWATCHED, actions);
            end.Some? && end.value.0 == Run(c, START, actions).value && KeepsUp(end.value.0.session, end.value.1)
  {
    AllRun(c, START, UNWATCHED, actions);
  }

  /** Nothing that was called is still under way. */
  predicate Settled(m: Machine) {
    forall i :: 0 <= i < |m.tasks| ==> m.tasks[i].Finished? || m.tasks[i].token < m.session.epoch
  }

  /**
   For every interleaving that has settled, on a session that has not been disposed: it is not connected, and
   some call gets through: `reconnect` if it is busy, `decide` if a review is pending, `generate` otherwise.
   */
  lemma NeverStuck(c: Compiler, actions: seq<Action>)
    requires var end := WatchRun(c, START, UNWATCHED, actions);
             end.Some? && Settled(end.value.0) && !end.value.1.disposed
    ensures var s := WatchRun(c, START, UNWATCHED, actions).value.0.session;
            && !s.snapshot.connected
            && Begins(s, if s.snapshot.busy then Reconnect
                         else if s.snapshot.review.Some? then Decide(true) else Generate(true, ""))
  {
    AllRun(c, START, UNWATCHED, actions);
  }

  // ----- what one call brings about ---------------------------------------------------------

  /** The replies to one suspended call, one after the other. */
  function Answer(c: Compiler, m: Machine, i: nat, replies: seq<Reply>): Option<Machine>
    decreases |replies|
  {
    if replies == [] then Some(m)
    else if !Enabled(m, Deliver(i, replies[0])) then None
    else Answer(c, Next(c, m, Deliver(i, replies[0])), i, replies[1..])
  }

  lemma {:induction false} AnswerAppend(c: Compiler, m: Machine, i: nat, replies: seq<Reply>, more: seq<Reply>)
    requires Answer(c, m, i, replies).Some?
    ensures Answer(c, m, i, replies + more) == Answer(c, Answer(c, m, i, replies).value, i, more)
    decreases |replies|
  {
    if replies == [] {
      assert replies + more == more;
    } else {
      assert (replies + more)[1..] == replies[1..] + more;
      AnswerAppend(c, Next(c, m, Deliver(i, replies[0])), i, replies[1..], more);
    }
  }

  lemma AnswerCons(c: Compiler, m: Machine, i: nat, r: Reply, more: seq<Reply>)
    requires Enabled(m, Deliver(i, r))
    ensures Answer(c, m, i, [r] + more) == Answer(c, Next(c, m, Deliver(i, r)), i, more)
  {
    assert ([r] + more)[1..] == more;
  }

  /** The screen after a state has been read. */
  function Restoring(shot: Snapshot, state: ThreadState): Snapshot {
    Snapshot(shot.threadId, shot.runId, state.ui, UiSpec(state.ui), false, shot.busy, shot.connected, state.review,
             state.approved, shot.error, None)
  }

  /** A live restore shows the state it reads; one that is out of date shows nothing. */
  lemma StateIsShown(c: Compiler, m: Machine, i: nat, state: ThreadState)
    requires Inv(c, m) && i < |m.tasks| && Restores(m.tasks[i]) && Coherent(state)
    ensures var next := Next(c, m, Deliver(i, State(state)));
            if m.tasks[i].token == m.session.epoch
            then next.session == m.session.(snapshot := Restoring(m.session.snapshot, state))
            else next.session == m.session
  {
  }

  /** How a state can fail to be read, and with what message. */
  datatype Trouble = Unreachable(message: Message) | Unreadable(message: Message) | Incoherent(state: ThreadState)

  function TroubleReply(t: Trouble): Reply {
    match t
    case Unreachable(message) => Failed(message)
    case Unreadable(message) => Unparsable(message)
    case Incoherent(state) => State(state)
  }

  function TroubleMessage(t: Trouble): Message {
    if t.Incoherent? then ReviewMismatch else t.message
  }

  /** A state that cannot be read is reported, and leaves plan, spec, review and approval as they were. */
  lemma TroubleIsReported(c: Compiler, m: Machine, i: nat, trouble: Trouble)
    requires Inv(c, m) && i < |m.tasks| && Restores(m.tasks[i]) && m.tasks[i].token == m.session.epoch
    requires trouble.Incoherent? ==> !Coherent(trouble.state)
    ensures var end := Answer(c, m, i, [TroubleReply(trouble), Turn]);
            var shot, said := m.session.snapshot, TroubleMessage(trouble);
            && end.Some? && end.value.tasks == m.tasks[i := Finished]
            && end.value.session == m.session.(snapshot :=
                 if m.tasks[i].OpenRestore? then shot.(busy := false, error := Some(said))
                 else if m.tasks[i].FollowRestore? then shot.(connected := false, error := Some(Unrecovered(said)))
                 else shot.(error := Some(said)))
  {
    AnswerCons(c, m, i, TroubleReply(trouble), [Turn]);
    var next := Next(c, m, Deliver(i, TroubleReply(trouble)));
    AnswerCons(c, next, i, Turn, []);
    assert [Turn] + [] == [Turn] && [TroubleReply(trouble)] + [Turn] == [TroubleReply(trouble), Turn];
    assert Next(c, next, Deliver(i, Turn)).tasks == m.tasks[i := Finished];
  }

  // ----- a run, followed to its end ---------------------------------------------------------

  predicate AllReceived(replies: seq<Reply>) {
    forall k :: 0 <= k < |replies| ==> replies[k].Received?
  }

  function FramesOf(replies: seq<Reply>): (r: seq<Frame>)
    requires AllReceived(replies)
    ensures |r| == |replies|
  {
    seq(|replies|, k requires 0 <= k < |replies| => replies[k].frame)
  }

  /** The last failure an error frame announced. */
  function LastFailure(replies: seq<Reply>, failure: Option<Message>): Option<Message>
    requires AllReceived(replies)
  {
    if replies == [] then failure
    else LastFailure(replies[1..], if replies[0].failure.Some? then replies[0].failure else failure)
  }

  /** The same follower, with what it will report. */
  function Reporting(t: Task, failure: Option<Message>): Task
    requires t.FollowFrame?
  {
    FollowFrame(t.token, t.threadId, t.runId, t.controller, t.from, failure)
  }

  /** Only the display of the running generation and its stream differ. */
  predicate OnlyDisplayMoved(s: Session, next: Session) {
    && s.observation.Some? && next.observation.Some?
    && next == s.(observation := next.observation,
                  snapshot := s.snapshot.(spec := next.snapshot.spec, preview := next.snapshot.preview,
                                          recovery := next.snapshot.recovery))
  }

  /** The display of a stream: its preview, or what was saved and a notice. */
  predicate Displayed(s: Session, stream: Stream) {
    stream.generationId.Some? || stream.gap ==>
      && s.snapshot.spec == stream.preview && s.snapshot.preview == !stream.gap
      && s.snapshot.recovery == if stream.gap then Some(UpdatesMissing) else None
  }

  lemma OneFrameIsFollowed(c: Compiler, m: Machine, i: nat, r: Reply)
    requires Inv(c, m) && i < |m.tasks| && Follows(m.session, m.tasks[i]) && r.Received?
    ensures m.session.observation.Some? && Enabled(m, Deliver(i, r))
    ensures var next, t := Next(c, m, Deliver(i, r)), m.tasks[i];
            var stream := Push(c, m.session.observation.value.stream, r.frame);
            && Inv(c, next) && OnlyDisplayMoved(m.session, next.session) && Follows(next.session, next.tasks[i])
            && next.tasks == m.tasks[i := Reporting(t, if r.failure.Some? then r.failure else t.failure)]
            && next.session.observation.value.stream == stream && Displayed(next.session, stream)
            && (stream.generationId.None? && !stream.gap ==> next.session.snapshot == m.session.snapshot)
  {
    assert TaskOk(m.session, m.tasks[i]);
    NextKeepsInv(c, m, Deliver(i, r));
  }

  /** Frames only move the display: to the preview of all of them, or back to what was saved. */
  lemma {:induction false} FramesAreFollowed(c: Compiler, m: Machine, i: nat, replies: seq<Reply>)
    requires Inv(c, m) && i < |m.tasks| && Follows(m.session, m.tasks[i]) && AllReceived(replies)
    requires m.session.observation.Some?
    ensures var end := Answer(c, m, i, replies);
            && end.Some? && Inv(c, end.value) && OnlyDisplayMoved(m.session, end.value.session)
            && end.value.tasks == m.tasks[i := Reporting(m.tasks[i], LastFailure(replies, m.tasks[i].failure))]
            && var stream := PushAll(c, m.session.observation.value.stream, FramesOf(replies));
               && end.value.session.observation.value.stream == stream
               && (replies != [] ==> Displayed(end.value.session, stream))
    decreases |replies|
  {
    if replies == [] {
      assert m.tasks[i := Reporting(m.tasks[i], m.tasks[i].failure)] == m.tasks;
    } else {
      var next := Next(c, m, Deliver(i, replies[0]));
      OneFrameIsFollowed(c, m, i, replies[0]);
      assert FramesOf(replies)[1..] == FramesOf(replies[1..]);
      FramesAreFollowed(c, next, i, replies[1..]);
    }
  }

  /** How a stream can end. */
  function EndMessage(end: Reply, failure: Option<Message>): Option<Message>
    requires end.StreamEnded? || end.Failed?
  {
    if end.Failed? then Some(end.message) else failure
  }

  /** What is reported of a run that is over. */
  function Verdict(failure: Option<Message>, status: RunStatus): Option<Message> {
    if failure.Some? then failure
    else if status == RunStatus.Error || status == Timeout then Some(GenerationFailed) else None
  }

  lemma RunIsOver(c: Compiler, m: Machine, i: nat, end: Reply, status: RunStatus)
    requires Inv(c, m) && i < |m.tasks| && Follows(m.session, m.tasks[i])
    requires (end.StreamEnded? || end.Failed?) && Over(status)
    ensures var t := m.tasks[i];
            var waiting := FollowRestore(t.token, t.threadId, EndMessage(end, t.failure), status);
            Answer(c, m, i, [end, Status(status)]) == Some(m.(tasks := m.tasks[i := waiting]))
  {
    assert TaskOk(m.session, m.tasks[i]);
    var m1 := Next(c, m, Deliver(i, end));
    var m2 := Next(c, m1, Deliver(i, Status(status)));
    AnswerCons(c, m, i, end, [Status(status)]);
    AnswerCons(c, m1, i, Status(status), []);
    assert [end] + [Status(status)] == [end, Status(status)] && [Status(status)] + [] == [Status(status)];
    assert m2.tasks == m.tasks[i := m2.tasks[i]];
  }

  lemma StateEndsFollowing(c: Compiler, m: Machine, i: nat, state: ThreadState)
    requires i < |m.tasks| && m.tasks[i].FollowRestore? && m.tasks[i].token == m.session.epoch && Coherent(state)
    ensures var last := Answer(c, m, i, [State(state), Turn]);
            && last.Some? && last.value.tasks == m.tasks[i := Finished]
            && last.value.session == m.session.(snapshot :=
                 Restoring(m.session.snapshot, state).(busy := false, connected := false,
                   error := Verdict(m.tasks[i].failure, m.tasks[i].status)))
  {
    var m1 := Next(c, m, Deliver(i, State(state)));
    AnswerCons(c, m, i, State(state), [Turn]);
    AnswerCons(c, m1, i, Turn, []);
    assert [State(state)] + [Turn] == [State(state), Turn] && [Turn] + [] == [Turn];
    assert Next(c, m1, Deliver(i, Turn)).tasks == m.tasks[i := Finished];
  }

  /** The stream ends and the run is over: the saved state is shown, and the session is free again. */
  lemma StreamEndsOver(c: Compiler, m: Machine, i: nat, end: Reply, status: RunStatus, state: ThreadState)
    requires Inv(c, m) && i < |m.tasks| && Follows(m.session, m.tasks[i])
    requires (end.StreamEnded? || end.Failed?) && Over(status) && Coherent(state)
    ensures var last := Answer(c, m, i, [end, Status(status), State(state), Turn]);
            && last.Some? && last.value.tasks == m.tasks[i := Finished]
            && last.value.session == m.session.(snapshot :=
                 Restoring(m.session.snapshot, state).(busy := false, connected := false,
                   error := Verdict(EndMessage(end, m.tasks[i].failure), status)))
  {
    RunIsOver(c, m, i, end, status);
    var m2 := Answer(c, m, i, [end, Status(status)]).value;
    AnswerAppend(c, m, i, [end, Status(status)], [State(state), Turn]);
    assert [end, Status(status)] + [State(state), Turn] == [end, Status(status), State(state), Turn];
    StateEndsFollowing(c, m2, i, state);
    assert m2.tasks[i := Finished] == m.tasks[i := Finished];
  }

  /** The stream ends while the run goes on, or its status cannot be read: the session stays busy, and says so. */
  lemma StreamEndsEarly(c: Compiler, m: Machine, i: nat, end: Reply, status: Reply)
    requires Inv(c, m) && i < |m.tasks| && Follows(m.session, m.tasks[i])
    requires (end.StreamEnded? || end.Failed?) && (status.Failed? || (status.Status? && !Over(status.status)))
    ensures var last := Answer(c, m, i, [end, status]);
            var failure := EndMessage(end, m.tasks[i].failure);
            && last.Some? && last.value.tasks == m.tasks[i := Finished]
            && last.value.session == m.session.(snapshot := m.session.snapshot.(connected := false,
                 error := if status.Failed? then Some(Unrecovered(status.message))
                          else if failure.Some? then failure else Some(Disconnected)))
  {
    assert TaskOk(m.session, m.tasks[i]);
    var m1 := Next(c, m, Deliver(i, end));
    AnswerCons(c, m, i, end, [status]);
    AnswerCons(c, m1, i, status, []);
    assert [end] + [status] == [end, status] && [status] + [] == [status];
    assert Next(c, m1, Deliver(i, status)).tasks == m.tasks[i := Finished];
  }

  /**
   A whole run: whatever frames arrive, once the stream has ended and the run is over, the screen is the state
   served last and the session is free; the error is the last one announced, or the stream's own, or the run's.
   */
  lemma RunIsFollowedToItsEnd(
    c: Compiler, m: Machine, i: nat, frames: seq<Reply>, end: Reply, status: RunStatus, state: ThreadState)
    requires Inv(c, m) && i < |m.tasks| && Follows(m.session, m.tasks[i]) && AllReceived(frames)
    requires (end.StreamEnded? || end.Failed?) && Over(status) && Coherent(state)
    ensures var last := Answer(c, m, i, frames + [end, Status(status), State(state), Turn]);
            var shot, failure := m.session.snapshot, LastFailure(frames, m.tasks[i].failure);
            && last.Some? && last.value.tasks == m.tasks[i := Finished]
            && last.value.session.snapshot ==
                 Snapshot(shot.threadId, shot.runId, state.ui, UiSpec(state.ui), false, false, false, state.review,
                          state.approved, Verdict(EndMessage(end, failure), status), None)
  {
    assert TaskOk(m.session, m.tasks[i]);
    FramesAreFollowed(c, m, i, frames);
    AnswerAppend(c, m, i, frames, [end, Status(status), State(state), Turn]);
    StreamEndsOver(c, Answer(c, m, i, frames).value, i, end, status, state);
  }

  // ----- opening ----------------------------------------------------------------------------

  /** Nothing on screen but this thread's name. */
  function Blank(threadId: Option<Id>): Snapshot {
    Snapshot(threadId, None, None, None, false, false, false, None, None, None, None)
  }

  /** Opening a thread clears the screen, abandons the run that was followed, and asks for the thread's state. */
  lemma OpenAsks(c: Compiler, m: Machine, threadId: Option<Id>)
    requires Inv(c, m)
    ensures var next := Next(c, m, Action.Call(Open(threadId)));
            && next.session.epoch == m.session.epoch + 1 && next.session.observation.None?
            && next.session.snapshot == Blank(threadId).(busy := threadId.Some?)
            && next.tasks[|m.tasks|] ==
                 (if threadId.Some? then OpenRestore(next.session.epoch, threadId.value, false) else Finished)
            && (m.session.observation.Some? && m.session.observation.value.controller.Some? ==>
                  m.session.observation.value.controller.value in next.session.aborted)
  {
  }

  /** A thread without an active run: the second state read is what stays on screen, and the session is free. */
  lemma OpenShowsThread(c: Compiler, m: Machine, threadId: Id, first: ThreadState, second: ThreadState)
    requires Inv(c, m) && Coherent(first) && Coherent(second)
    ensures var end := Answer(c, Next(c, m, Action.Call(Open(Some(threadId)))), |m.tasks|,
                              [State(first), Runs(None, None), State(second), Turn]);
            && end.Some? && end.value.tasks == m.tasks + [Finished]
            && end.value.session.observation.None?
            && end.value.session.snapshot ==
                 Blank(Some(threadId)).(ui := second.ui, spec := UiSpec(second.ui), review := second.review,
                                        approved := second.approved)
  {
    var i, m0 := |m.tasks|, Next(c, m, Action.Call(Open(Some(threadId))));
    var m1 := Next(c, m0, Deliver(i, State(first)));
    var m2 := Next(c, m1, Deliver(i, Runs(None, None)));
    var m3 := Next(c, m2, Deliver(i, State(second)));
    var m4 := Next(c, m3, Deliver(i, Turn));
    AnswerCons(c, m0, i, State(first), [Runs(None, None), State(second), Turn]);
    AnswerCons(c, m1, i, Runs(None, None), [State(second), Turn]);
    AnswerCons(c, m2, i, State(second), [Turn]);
    AnswerCons(c, m3, i, Turn, []);
    assert [State(first)] + [Runs(None, None), State(second), Turn]
        == [State(first), Runs(None, None), State(second), Turn];
    assert [Runs(None, None)] + [State(second), Turn] == [Runs(None, None), State(second), Turn];
    assert [State(second)] + [Turn] == [State(second), Turn] && [Turn] + [] == [Turn];
    assert m4.tasks == m.tasks + [Finished];
  }

  /** The call follows this run, with a controller of its own, from this event on, over the plan on screen. */
  predicate NowFollows(m: Machine, i: nat, threadId: Id, runId: Id, from: Option<string>) {
    && i < |m.tasks| && Follows(m.session, m.tasks[i]) && m.tasks[i].failure.None?
    && m.tasks[i].threadId == threadId && m.tasks[i].runId == runId && m.tasks[i].from == from
    && m.session.observation.Some? && m.session.observation.value.controller == Some(m.tasks[i].controller)
    && m.session.observation.value.threadId == threadId && m.session.observation.value.runId == runId
  }

  /** A stream that has received nothing, over the plan on screen. */
  predicate FreshStream(s: Session) {
    s.observation.Some? && s.observation.value.stream == Init(s.snapshot.ui)
  }

  /** A thread with an active run, a running one first: its saved state is shown and the run is followed. */
  lemma OpenFollowsRun(
    c: Compiler, m: Machine, threadId: Id, state: ThreadState, running: Option<Id>, pending: Option<Id>)
    requires Inv(c, m) && Numbered(m) && Coherent(state) && (running.Some? || pending.Some?)
    ensures var end := Answer(c, Next(c, m, Action.Call(Open(Some(threadId)))), |m.tasks|,
                              [State(state), Runs(running, pending)]);
            var runId := if running.Some? then running.value else pending.value;
            && end.Some? && NowFollows(end.value, |m.tasks|, threadId, runId, None) && FreshStream(end.value.session)
            && end.value.session.snapshot ==
                 Blank(Some(threadId)).(runId := Some(runId), busy := true, connected := true, ui := state.ui,
                                        spec := UiSpec(state.ui), review := state.review, approved := state.approved)
  {
    var i, m0 := |m.tasks|, Next(c, m, Action.Call(Open(Some(threadId))));
    NumberedKept(c, m, Action.Call(Open(Some(threadId))));
    var m1 := Next(c, m0, Deliver(i, State(state)));
    AnswerCons(c, m0, i, State(state), [Runs(running, pending)]);
    AnswerCons(c, m1, i, Runs(running, pending), []);
    assert [State(state)] + [Runs(running, pending)] == [State(state), Runs(running, pending)];
    assert [Runs(running, pending)] + [] == [Runs(running, pending)];
  }

  /** The list of runs cannot be read: that is reported, and the session is free. */
  lemma OpenListFails(c: Compiler, m: Machine, i: nat, message: Message)
    requires i < |m.tasks| && m.tasks[i].OpenList? && m.tasks[i].token == m.session.epoch
    ensures var next := Next(c, m, Deliver(i, Failed(message)));
            && next.tasks == m.tasks[i := Finished]
            && next.session == m.session.(snapshot := m.session.snapshot.(busy := false, error := Some(message)))
  {
  }

  // ----- starting a run ---------------------------------------------------------------------

  /** What a call that goes through asks the graph to do. */
  function Asks(s: Session, call: Call): Payload
    requires call.Generate? || (call.Decide? && s.snapshot.review.Some? && s.snapshot.ui.Some?)
  {
    if call.Generate? then Input(call.request)
    else Resume(s.snapshot.review.value.id, Decision(s.snapshot.ui.value.generationId, call.approved))
  }

  predicate MayStart(s: Session, call: Call) {
    && !s.snapshot.busy
    && (|| (call.Generate? && call.valid && s.snapshot.review.None?)
        || (call.Decide? && s.snapshot.review.Some? && s.snapshot.ui.Some?))
  }

  /** Exactly these calls start a run; every other `generate` or `decide` leaves all but a notice alone. */
  lemma StartsExactly(c: Compiler, m: Machine, call: Call)
    requires call.Generate? || call.Decide?
    ensures var next := Next(c, m, Action.Call(call));
            var shot, task := m.session.snapshot, next.tasks[|m.tasks|];
            if MayStart(m.session, call) then
              && next.session.epoch == m.session.epoch + 1 && next.session.observation.None?
              && task == (if shot.threadId.None? then CreateThread(next.session.epoch, Asks(m.session, call))
                          else CreateRun(next.session.epoch, shot.threadId.value, Asks(m.session, call)))
              && next.session.snapshot == Snapshot(shot.threadId, None, shot.ui, UiSpec(shot.ui), false, true,
                                                   shot.connected, shot.review, shot.approved, None, None)
              && (m.session.observation.Some? && m.session.observation.value.controller.Some? ==>
                    m.session.observation.value.controller.value in next.session.aborted)
            else
              && task.Finished?
              && next.session == m.session.(snapshot := shot.(error :=
                   if call.Generate? && !call.valid && !shot.busy && shot.review.None? then Some(InvalidRequest)
                   else shot.error))
  {
  }

  /** A thread is created first where there is none; the request is the same. */
  lemma ThreadIsCreated(c: Compiler, m: Machine, i: nat, threadId: Id)
    requires Inv(c, m) && i < |m.tasks| && m.tasks[i].CreateThread? && m.tasks[i].token == m.session.epoch
    ensures var next := Next(c, m, Deliver(i, ThreadCreated(threadId)));
            && next.tasks == m.tasks[i := CreateRun(m.session.epoch, threadId, m.tasks[i].payload)]
            && next.session == m.session.(snapshot := m.session.snapshot.(threadId := Some(threadId)))
  {
  }

  /** The run has been created: it is followed from its first event, and the review it answered is gone. */
  lemma RunIsCreated(c: Compiler, m: Machine, i: nat, runId: Id)
    requires Inv(c, m) && Numbered(m)
    requires i < |m.tasks| && m.tasks[i].CreateRun? && m.tasks[i].token == m.session.epoch
    ensures var next := Next(c, m, Deliver(i, RunCreated(runId)));
            && NowFollows(next, i, m.tasks[i].threadId, runId, None) && FreshStream(next.session)
            && next.session.snapshot == m.session.snapshot.(runId := Some(runId), connected := true, review := None,
                                                            approved := None, error := None)
  {
  }

  /** Thread or run could not be created: the session is free, and says that the request may have arrived. */
  lemma StartFails(c: Compiler, m: Machine, i: nat, message: Message)
    requires i < |m.tasks| && (m.tasks[i].CreateThread? || m.tasks[i].CreateRun?) && m.tasks[i].token == m.session.epoch
    ensures var next := Next(c, m, Deliver(i, Failed(message)));
            && next.tasks == m.tasks[i := Finished]
            && next.session == m.session.(snapshot :=
                 m.session.snapshot.(busy := false, connected := false, error := Some(Uncertain(message))))
  {
  }

  // ----- disconnecting, reconnecting and stopping -------------------------------------------

  /** Disconnecting aborts the stream; reconnecting follows the same run from the last event that came. */
  lemma ReconnectResumes(c: Compiler, m: Machine)
    requires Inv(c, m) && Numbered(m) && m.session.observation.Some? && m.session.snapshot.busy
    ensures var off := Next(c, m, Action.Call(Disconnect));
            var on := Next(c, off, Action.Call(Reconnect));
            var o := m.session.observation.value;
            && off.session == m.session.(aborted := off.session.aborted,
                 snapshot := m.session.snapshot.(connected := false, recovery := Some(Paused)))
            && (o.controller.Some? ==> off.session.aborted == m.session.aborted + {o.controller.value})
            && NowFollows(on, |m.tasks| + 1, o.threadId, o.runId, LastId(o.ids))
            && on.session.observation.value.stream == o.stream
            && on.session.snapshot == m.session.snapshot.(connected := true, error := None, recovery := Some(Paused))
  {
  }

  /** Without a run to follow, or while one is being watched, `reconnect` does nothing. */
  lemma ReconnectRefused(c: Compiler, m: Machine)
    requires m.session.observation.None? || !m.session.snapshot.busy || m.session.snapshot.connected
    ensures var next := Next(c, m, Action.Call(Reconnect));
            next.session == m.session && next.tasks == m.tasks + [Finished]
  {
  }

  /** Stopping aborts the stream and asks for the run to be cancelled, if there is one to stop. */
  lemma StopAsks(c: Compiler, m: Machine)
    ensures var next := Next(c, m, Action.Call(Stop));
            if m.session.observation.Some? && m.session.snapshot.busy then
              var o := m.session.observation.value;
              && next.tasks == m.tasks + [StopCancel(m.session.epoch, o.threadId, o.runId)]
              && next.session == m.session.(aborted := next.session.aborted,
                                            snapshot := m.session.snapshot.(connected := false))
              && next.session.aborted == m.session.aborted + (if o.controller.Some? then {o.controller.value} else {})
            else next.session == m.session && next.tasks == m.tasks + [Finished]
  {
  }

  /** The run is cancelled and over: the saved state is shown, and the session is free. */
  lemma StopShowsSaved(c: Compiler, m: Machine, i: nat, status: RunStatus, state: ThreadState)
    requires i < |m.tasks| && m.tasks[i].StopCancel? && m.tasks[i].token == m.session.epoch
    requires Over(status) && Coherent(state)
    ensures var end := Answer(c, m, i, [Acknowledged, Status(status), State(state), Turn]);
            && end.Some? && end.value.tasks == m.tasks[i := Finished]
            && end.value.session == m.session.(snapshot :=
                 Restoring(m.session.snapshot, state).(busy := false, error := None, recovery := Some(Stopped)))
  {
    var m1 := Next(c, m, Deliver(i, Acknowledged));
    var m2 := Next(c, m1, Deliver(i, Status(status)));
    var m3 := Next(c, m2, Deliver(i, State(state)));
    var m4 := Next(c, m3, Deliver(i, Turn));
    AnswerCons(c, m, i, Acknowledged, [Status(status), State(state), Turn]);
    AnswerCons(c, m1, i, Status(status), [State(state), Turn]);
    AnswerCons(c, m2, i, State(state), [Turn]);
    AnswerCons(c, m3, i, Turn, []);
    assert [Acknowledged] + [Status(status), State(state), Turn] == [Acknowledged, Status(status), State(state), Turn];
    assert [Status(status)] + [State(state), Turn] == [Status(status), State(state), Turn];
    assert [State(state)] + [Turn] == [State(state), Turn] && [Turn] + [] == [Turn];
    assert m4.tasks == m.tasks[i := Finished];
  }

  /** Stopping fails, or the run is still going: only that is reported, and the session stays busy. */
  lemma StopFails(c: Compiler, m: Machine, i: nat, r: Reply)
    requires i < |m.tasks| && (m.tasks[i].StopCancel? || m.tasks[i].StopStatus?) && m.tasks[i].token == m.session.epoch
    requires r.Failed? || (m.tasks[i].StopStatus? && r.Status? && !Over(r.status))
    ensures var next := Next(c, m, Deliver(i, r));
            && next.tasks == m.tasks[i := Finished]
            && next.session == m.session.(snapshot :=
                 m.session.snapshot.(error := Some(if r.Failed? then r.message else CancellationPending)))
  {
  }

  /** Disposing aborts the stream and leaves every suspended call stale; the screen stays as it is. */
  lemma DisposeSilences(c: Compiler, m: Machine)
    requires Inv(c, m)
    ensures var next := Next(c, m, Action.Call(Dispose));
            && Silent(next) && Settled(next) && next.session.observation.None?
            && next.session.snapshot == m.session.snapshot
            && (m.session.observation.Some? && m.session.observation.value.controller.Some? ==>
                  m.session.observation.value.controller.value in next.session.aborted)
  {
    var next := Next(c, m, Action.Call(Dispose));
    forall i | 0 <= i < |m.tasks| ensures next.tasks[i].Finished? || next.tasks[i].token < next.session.epoch {
      assert TaskOk(m.session, m.tasks[i]);
    }
  }
}
