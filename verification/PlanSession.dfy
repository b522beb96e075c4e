/**
 The plan session client as a step machine. Every `await` is a step boundary: a pending asynchronous
 call is a `Task` holding the locals it captured, a user call runs up to its first `await`, and a
 network reply (chosen by an adversary) runs one task up to its next one.
 */
module PlanSession {
  import opened Common
  import opened UiEvents
  import opened PlanGraph

  type Id = s: string | s != "" witness "t"

  datatype Review = Review(generationId: string, id: Option<Id>)

  datatype ThreadState = ThreadState(ui: Option<CommittedUi>, approved: Option<bool>, review: Option<Review>)

  /** The texts shown to the user; `Text` is whatever an exception or an error frame said. */
  datatype Message =
    | Text(text: string)
    | InvalidRequest
    | ReviewMismatch
    | UpdatesMissing
    | Disconnected
    | GenerationFailed
    | Paused
    | Stopped
    | CancellationPending
    | Uncertain(cause: Message)
    | Unrecovered(cause: Message)

  datatype Snapshot = Snapshot(
    threadId: Option<Id>,
    runId: Option<Id>,
    ui: Option<CommittedUi>,
    spec: Option<Spec>,
    preview: bool,
    busy: bool,
    connected: bool,
    review: Option<Review>,
    approved: Option<bool>,
    error: Option<Message>,
    recovery: Option<Message>)

  const INITIAL := Snapshot(None, None, None, None, false, false, false, None, None, None, None)

  /** `seen` and `ids` are history variables: the frames pushed into `stream`, in order, and their event ids. */
  datatype Observation = Observation(
    threadId: Id,
    runId: Id,
    stream: Stream,
    cursor: Option<string>,
    controller: Option<nat>,
    seen: seq<Frame>,
    ids: seq<Option<string>>)

  /** The closure's variables, with abort controllers named by number. */
  datatype Session = Session(
    snapshot: Snapshot,
    epoch: nat,
    observation: Option<Observation>,
    aborted: set<nat>,
    controllers: nat)

  const FRESH := Session(INITIAL, 0, None, {}, 0)

  datatype Payload = Input(request: string) | Resume(reviewId: Option<Id>, decision: Decision)

  datatype RunStatus = Pending | Running | Success | Error | Timeout | Interrupted

  predicate IsActive(status: RunStatus) {
    status.Running? || status.Pending?
  }

  /** A suspended call and what it waits for. `...Done` and `...Catch` wait only for their turn. */
  datatype Task =
    | Finished
    | OpenRestore(token: nat, threadId: Id, again: bool)
    | OpenList(token: nat, threadId: Id)
    | OpenDone(token: nat)
    | OpenCatch(token: nat, message: Message)
    | CreateThread(token: nat, payload: Payload)
    | CreateRun(token: nat, threadId: Id, payload: Payload)
    | FollowFrame(
        token: nat, threadId: Id, runId: Id, controller: nat, from: Option<string>, failure: Option<Message>)
    | FollowStatus(token: nat, threadId: Id, runId: Id, failure: Option<Message>)
    | FollowRestore(token: nat, threadId: Id, failure: Option<Message>, status: RunStatus)
    | FollowDone(token: nat, failure: Option<Message>, status: RunStatus)
    | FollowCatch(token: nat, message: Message)
    | StopCancel(token: nat, threadId: Id, runId: Id)
    | StopStatus(token: nat, threadId: Id, runId: Id)
    | StopRestore(token: nat, threadId: Id)
    | StopDone(token: nat)
    | StopCatch(token: nat, message: Message)

  datatype Reply =
    | State(state: ThreadState)
    | Unparsable(message: Message)
    | Runs(running: Option<Id>, pending: Option<Id>)
    | ThreadCreated(threadId: Id)
    | RunCreated(runId: Id)
    | Received(frame: Frame, cursor: Option<string>, failure: Option<Message>)
    | StreamEnded
    | Status(status: RunStatus)
    | Acknowledged
    | Failed(message: Message)
    | Turn

  /** The replies a task can be resumed with. */
  predicate Fits(t: Task, r: Reply) {
    match t
    case Finished => false
    case OpenRestore(_, _, _) => r.State? || r.Unparsable? || r.Failed?
    case OpenList(_, _) => r.Runs? || r.Failed?
    case CreateThread(_, _) => r.ThreadCreated? || r.Failed?
    case CreateRun(_, _, _) => r.RunCreated? || r.Failed?
    case FollowFrame(_, _, _, _, _, _) => r.Received? || r.StreamEnded? || r.Failed?
    case FollowStatus(_, _, _, _) => r.Status? || r.Failed?
    case FollowRestore(_, _, _, _) => r.State? || r.Unparsable? || r.Failed?
    case StopCancel(_, _, _) => r.Acknowledged? || r.Failed?
    case StopStatus(_, _, _) => r.Status? || r.Failed?
    case StopRestore(_, _) => r.State? || r.Unparsable? || r.Failed?
    case _ => r.Turn?
  }

  // ----- the synchronous pieces -------------------------------------------------------------

  function Leave(s: Session): Session {
    Session(s.snapshot, s.epoch + 1, None, AbortCurrent(s), s.controllers)
  }

  function AbortCurrent(s: Session): set<nat> {
    if s.observation.Some? && s.observation.value.controller.Some?
    then s.aborted + {s.observation.value.controller.value} else s.aborted
  }

  /** The part of `restore` after its `await`: the new session, or the message it throws. */
  function Restored(s: Session, token: nat, r: Reply): (Session, Option<Message>)
    requires r.State? || r.Unparsable? || r.Failed?
  {
    if r.Failed? then (s, Some(r.message))
    else if token != s.epoch then (s, None)
    else if r.Unparsable? then (s, Some(r.message))
    else if r.state.review.Some?
            && (r.state.ui.None? || r.state.review.value.generationId != r.state.ui.value.generationId)
    then (s, Some(ReviewMismatch))
    else (s.(snapshot := s.snapshot.(ui := r.state.ui, spec := UiSpec(r.state.ui), preview := false,
                                     review := r.state.review, approved := r.state.approved, recovery := None)), None)
  }

  /** `follow` up to its first `await`. */
  function BeginFollow(s: Session, token: nat): (Session, Task)
    requires s.observation.Some?
  {
    if token != s.epoch then (s, Finished)
    else
      var current := s.observation.value.(controller := Some(s.controllers));
      (s.(observation := Some(current), controllers := s.controllers + 1,
          snapshot := s.snapshot.(connected := true, error := None)),
       FollowFrame(token, current.threadId, current.runId, s.controllers, current.cursor, None))
  }

  /** One frame inside the `for await` loop of `follow`. */
  function Follow(c: Compiler, s: Session, r: Reply): Session
    requires s.observation.Some? && r.Received?
  {
    var current := s.observation.value;
    var stream := Push(c, current.stream, r.frame);
    var next := current.(stream := stream, seen := current.seen + [r.frame], ids := current.ids + [r.cursor],
                         cursor := if r.cursor.Some? then r.cursor else current.cursor);
    s.(observation := Some(next),
       snapshot := if stream.generationId.None? && !stream.gap then s.snapshot
                   else s.snapshot.(spec := stream.preview, preview := !stream.gap,
                                    recovery := if stream.gap then Some(UpdatesMissing) else None))
  }

  function Observe(s: Session, threadId: Id, runId: Id): Session {
    s.(observation := Some(Observation(threadId, runId, Init(s.snapshot.ui), None, None, [], [])))
  }

  function StartRun(s: Session, payload: Payload): (Session, Task) {
    var left := Leave(s);
    var next := left.(snapshot := s.snapshot.(busy := true, runId := None, error := None, recovery := None,
                                              spec := UiSpec(s.snapshot.ui), preview := false));
    (next, if s.snapshot.threadId.None? then CreateThread(left.epoch, payload)
           else CreateRun(left.epoch, s.snapshot.threadId.value, payload))
  }

  function StartFailed(s: Session, token: nat, message: Message): Session {
    if token != s.epoch then s
    else s.(snapshot := s.snapshot.(busy := false, connected := false,
                                    error := Some(Uncertain(message))))
  }

  // ----- user calls -------------------------------------------------------------------------

  datatype Call =
    | Open(threadId: Option<Id>)
    | Generate(valid: bool, request: string)
    | Decide(approved: bool)
    | Disconnect
    | Reconnect
    | Stop
    | Dispose

  predicate Decides(s: Session, call: Call) {
    call.Decide? && !s.snapshot.busy && s.snapshot.review.Some? && s.snapshot.ui.Some?
  }

  function Invoke(s: Session, call: Call): (Session, Task) {
    match call
    case Open(threadId) =>
      var left := Leave(s);
      (left.(snapshot := INITIAL.(threadId := threadId, busy := threadId.Some?)),
       if threadId.Some? then OpenRestore(left.epoch, threadId.value, false) else Finished)
    case Generate(valid, request) =>
      if s.snapshot.busy || s.snapshot.review.Some? then (s, Finished)
      else if !valid then
        (s.(snapshot := s.snapshot.(error := Some(InvalidRequest))), Finished)
      else StartRun(s, Input(request))
    case Decide(approved) =>
      if Decides(s, call) then
        StartRun(s, Resume(s.snapshot.review.value.id, Decision(s.snapshot.ui.value.generationId, approved)))
      else (s, Finished)
    case Disconnect =>
      (s.(aborted := AbortCurrent(s),
          snapshot := s.snapshot.(connected := false,
                                  recovery := if s.snapshot.busy then Some(Paused) else None)),
       Finished)
    case Reconnect =>
      if s.observation.Some? && s.snapshot.busy && !s.snapshot.connected then BeginFollow(s, s.epoch)
      else (s, Finished)
    case Stop =>
      if s.observation.None? || !s.snapshot.busy then (s, Finished)
      else (s.(aborted := AbortCurrent(s), snapshot := s.snapshot.(connected := false)),
            StopCancel(s.epoch, s.observation.value.threadId, s.observation.value.runId))
    case Dispose => (Leave(s), Finished)
  }

  // ----- replies ----------------------------------------------------------------------------

  /** The observation a live continuation works on is the session's own; see `TaskOk`. */
  predicate Ready(s: Session, t: Task) {
    t.FollowFrame? && t.token == s.epoch ==> s.observation.Some?
  }

  function Step(c: Compiler, s: Session, t: Task, r: Reply): (Session, Task)
    requires Fits(t, r) && Ready(s, t)
  {
    match t
    case OpenRestore(token, threadId, again) =>
      var (next, thrown) := Restored(s, token, r);
      (next, if thrown.Some? then OpenCatch(token, thrown.value)
             else if again then OpenDone(token) else OpenList(token, threadId))
    case OpenList(token, threadId) =>
      if r.Failed? then (Announce(s, token, Some(false), r.message), Finished)
      else if token != s.epoch then (s, Finished)
      else if r.running.None? && r.pending.None? then (s, OpenRestore(token, threadId, true))
      else
        var runId := if r.running.Some? then r.running.value else r.pending.value;
        var observing := Observe(s, threadId, runId);
        BeginFollow(observing.(snapshot := s.snapshot.(runId := Some(runId), busy := true)), token)
    case OpenDone(token) => (if token == s.epoch then s.(snapshot := s.snapshot.(busy := false)) else s, Finished)
    case OpenCatch(token, message) => (Announce(s, token, Some(false), message), Finished)
    case CreateThread(token, payload) =>
      if r.Failed? then (StartFailed(s, token, r.message), Finished)
      else if token != s.epoch then (s, Finished)
      else (s.(snapshot := s.snapshot.(threadId := Some(r.threadId))), CreateRun(token, r.threadId, payload))
    case CreateRun(token, threadId, payload) =>
      if r.Failed? then (StartFailed(s, token, r.message), Finished)
      else if token != s.epoch then (s, Finished)
      else
        var observing := Observe(s, threadId, r.runId);
        var shot := s.snapshot.(runId := Some(r.runId), review := None, approved := None);
        BeginFollow(observing.(snapshot := shot), token)
    case FollowFrame(token, threadId, runId, controller, from, failure) =>
      if token != s.epoch || controller in s.aborted then (s, Finished)
      else if r.Received? then
        (Follow(c, s, r),
         FollowFrame(token, threadId, runId, controller, from, if r.failure.Some? then r.failure else failure))
      else (s, FollowStatus(token, threadId, runId, if r.Failed? then Some(r.message) else failure))
    case FollowStatus(token, threadId, runId, failure) =>
      if r.Failed? then (FollowFailed(s, token, r.message), Finished)
      else if token != s.epoch then (s, Finished)
      else if IsActive(r.status) then
        (s.(snapshot := s.snapshot.(connected := false,
                                    error := if failure.Some? then failure else Some(Disconnected))),
         Finished)
      else (s, FollowRestore(token, threadId, failure, r.status))
    case FollowRestore(token, threadId, failure, status) =>
      var (next, thrown) := Restored(s, token, r);
      (next, if thrown.Some? then FollowCatch(token, thrown.value) else FollowDone(token, failure, status))
    case FollowDone(token, failure, status) =>
      (if token != s.epoch then s
       else s.(snapshot := s.snapshot.(busy := false, connected := false,
                                       error := if failure.Some? then failure
                                                else if status.Error? || status.Timeout? then Some(GenerationFailed)
                                                else None)),
       Finished)
    case FollowCatch(token, message) => (FollowFailed(s, token, message), Finished)
    case StopCancel(token, threadId, runId) =>
      if r.Failed? then (Announce(s, token, None, r.message), Finished)
      else (s, StopStatus(token, threadId, runId))
    case StopStatus(token, threadId, runId) =>
      if r.Failed? then (Announce(s, token, None, r.message), Finished)
      else if token != s.epoch then (s, Finished)
      else if IsActive(r.status) then (Announce(s, token, None, CancellationPending), Finished)
      else (s, StopRestore(token, threadId))
    case StopRestore(token, threadId) =>
      var (next, thrown) := Restored(s, token, r);
      (next, if thrown.Some? then StopCatch(token, thrown.value) else StopDone(token))
    case StopDone(token) =>
      (if token != s.epoch then s
       else s.(snapshot := s.snapshot.(busy := false, error := None, recovery := Some(Stopped))),
       Finished)
    case StopCatch(token, message) => (Announce(s, token, None, message), Finished)
  }

  /** The catch blocks of `open` (which also clears `busy`) and `stop`. */
  function Announce(s: Session, token: nat, busy: Option<bool>, message: Message): Session {
    if token != s.epoch then s
    else s.(snapshot := s.snapshot.(busy := if busy.Some? then busy.value else s.snapshot.busy, error := Some(message)))
  }

  function FollowFailed(s: Session, token: nat, message: Message): Session {
    if token != s.epoch then s
    else s.(snapshot := s.snapshot.(connected := false, error := Some(Unrecovered(message))))
  }

  /** A continuation whose token is not the current epoch changes nothing at all. */
  lemma StaleContinuationIsInert(c: Compiler, s: Session, t: Task, r: Reply)
    requires Fits(t, r)
    requires t.token != s.epoch
    ensures Step(c, s, t, r).0 == s
    ensures Step(c, s, t, r).1.Finished? || Step(c, s, t, r).1.token == t.token
  {
  }

  // ----- whole runs -------------------------------------------------------------------------

  /** What a `decide` call that went through was looking at. */
  datatype Ticket = Ticket(threadId: Id, shown: CommittedUi, reviewId: Option<Id>, decision: Decision)

  /** What the network has told the session: thread states and stream frames, by thread and run. */
  datatype History = History(served: set<(Id, ThreadState)>, delivered: set<(Id, Id, Frame)>)

  /**
   A session with its pending calls, and three history variables: what it was told, the decisions it
   sent, and the observation behind the last preview it displayed.
   */
  datatype Machine = Machine(
    session: Session,
    tasks: seq<Task>,
    history: History,
    sent: seq<Ticket>,
    shown: Option<Observation>)

  datatype Action = Call(call: Call) | Deliver(index: nat, reply: Reply)

  const START := Machine(FRESH, [], History({}, {}), [], None)

  predicate Enabled(m: Machine, a: Action) {
    a.Deliver? ==> a.index < |m.tasks| && Fits(m.tasks[a.index], a.reply) && Ready(m.session, m.tasks[a.index])
  }

  function Told(h: History, t: Task, r: Reply): History
    requires Fits(t, r)
  {
    if r.State? then h.(served := h.served + {(t.threadId, r.state)})
    else if r.Received? then h.(delivered := h.delivered + {(t.threadId, t.runId, r.frame)})
    else h
  }

  predicate Displays(before: Session, after: Session, r: Reply) {
    && r.Received? && before != after && after.observation.Some?
    && (after.observation.value.stream.generationId.Some? || after.observation.value.stream.gap)
  }

  function Next(c: Compiler, m: Machine, a: Action): Machine
    requires Enabled(m, a)
  {
    match a
    case Call(call) =>
      var (session, task) := Invoke(m.session, call);
      var shot := m.session.snapshot;
      m.(session := session, tasks := m.tasks + [task],
         sent := if Decides(m.session, call) && shot.threadId.Some?
                 then m.sent + [Ticket(shot.threadId.value, shot.ui.value, shot.review.value.id,
                                       Decision(shot.ui.value.generationId, call.approved))]
                 else m.sent)
    case Deliver(index, reply) =>
      var task := m.tasks[index];
      var (session, next) := Step(c, m.session, task, reply);
      m.(session := session, tasks := m.tasks[index := next], history := Told(m.history, task, reply),
         shown := if Displays(m.session, session, reply) then session.observation else m.shown)
  }

  /** The machine after a schedule chosen by the adversary; `None` if it asked for an impossible step. */
  function Run(c: Compiler, m: Machine, actions: seq<Action>): Option<Machine>
    decreases |actions|
  {
    if actions == [] then Some(m)
    else if !Enabled(m, actions[0]) then None
    else Run(c, Next(c, m, actions[0]), actions[1..])
  }

  // ----- what is on screen ------------------------------------------------------------------

  /** `ui` was read from this thread, in a state that also carried `review` and `approved` where they are set. */
  ghost predicate ReadTogether(
    h: History, threadId: Id, ui: Option<CommittedUi>, review: Option<Review>, approved: Option<bool>)
  {
    ui.Some? || approved.Some? ==>
      exists state: ThreadState ::
        && (threadId, state) in h.served && state.ui == ui
        && (review.Some? ==> state.review == review) && (approved.Some? ==> state.approved == approved)
  }

  /** The last event id among these. */
  function LastId(ids: seq<Option<string>>): Option<string> {
    if ids == [] then None
    else if ids[|ids| - 1].Some? then ids[|ids| - 1]
    else LastId(ids[..|ids| - 1])
  }

  /** The stream is the fold of frames delivered for this very run, over a plan of this very thread. */
  ghost predicate Faithful(c: Compiler, h: History, o: Observation) {
    && o.stream == PushAll(c, Init(o.stream.baseline), o.seen)
    && |o.ids| == |o.seen| && o.cursor == LastId(o.ids)
    && (forall f :: f in o.seen ==> (o.threadId, o.runId, f) in h.delivered)
    && ReadTogether(h, o.threadId, o.stream.baseline, None, None)
  }

  /** The displayed spec is the preview of the observed run. */
  ghost predicate FromRun(c: Compiler, h: History, shot: Snapshot, o: Option<Observation>) {
    && o.Some?
    && Some(o.value.threadId) == shot.threadId
    && Some(o.value.runId) == shot.runId
    && Faithful(c, h, o.value)
    && shot.spec == o.value.stream.preview
  }

  /** Plan, spec, review, approval and observation all belong to the thread that the snapshot names. */
  ghost predicate OnThisThread(c: Compiler, s: Session, h: History, shown: Option<Observation>) {
    var shot := s.snapshot;
    && (shot.threadId.None? ==>
          shot.ui.None? && shot.spec.None? && shot.review.None? && shot.approved.None? && s.observation.None?)
    && (shot.threadId.Some? ==> ReadTogether(h, shot.threadId.value, shot.ui, shot.review, shot.approved))
    && (shot.review.Some? ==> shot.ui.Some? && shot.review.value.generationId == shot.ui.value.generationId)
    && (shot.spec == UiSpec(shot.ui) || FromRun(c, h, shot, shown))
    && (shot.preview ==> FromRun(c, h, shot, shown) && shown.value.stream.generationId.Some? && !shown.value.stream.gap)
    && (s.observation.Some? ==>
          && shot.threadId == Some(s.observation.value.threadId)
          && shot.runId == Some(s.observation.value.runId)
          && Faithful(c, h, s.observation.value))
  }

  // ----- the invariant ----------------------------------------------------------------------

  /** Tasks that run before the session observes a run. */
  predicate Starter(t: Task) {
    t.OpenRestore? || t.OpenList? || t.OpenDone? || t.OpenCatch? || t.CreateThread? || t.CreateRun?
  }

  /** What a task with the current token may rely on. */
  predicate Current(s: Session, t: Task)
    requires !t.Finished?
  {
    var shot := s.snapshot;
    && (Starter(t) <==> s.observation.None?)
    && (Starter(t) ==> !shot.preview && shot.spec == UiSpec(shot.ui))
    && (t.CreateThread? <==> shot.threadId.None?)
    && (t.OpenRestore? || t.OpenList? || t.CreateRun? || t.FollowRestore? || t.StopRestore?
        ==> shot.threadId == Some(t.threadId))
    && (t.FollowFrame? || t.FollowStatus? || t.StopCancel? || t.StopStatus?
        ==> s.observation.Some? && s.observation.value.threadId == t.threadId && s.observation.value.runId == t.runId)
  }

  predicate TaskOk(s: Session, t: Task) {
    t.Finished? || t.token < s.epoch || (t.token == s.epoch && Current(s, t))
  }

  predicate LiveStarter(s: Session, t: Task) {
    Starter(t) && t.token == s.epoch
  }

  predicate OneStarter(s: Session, tasks: seq<Task>) {
    forall i, j :: 0 <= i < j < |tasks| ==> !(LiveStarter(s, tasks[i]) && LiveStarter(s, tasks[j]))
  }

  /** A decision names the plan that was on screen, and that plan was read from its thread. */
  ghost predicate TicketOk(h: History, ticket: Ticket) {
    && ticket.decision.generationId == ticket.shown.generationId
    && ReadTogether(h, ticket.threadId, Some(ticket.shown), None, None)
  }

  ghost predicate Inv(c: Compiler, m: Machine) {
    && OnThisThread(c, m.session, m.history, m.shown)
    && (forall i :: 0 <= i < |m.tasks| ==> TaskOk(m.session, m.tasks[i]))
    && OneStarter(m.session, m.tasks)
    && (forall i :: 0 <= i < |m.sent| ==> TicketOk(m.history, m.sent[i]))
  }

  /** Being told more invalidates nothing. */
  lemma HistoryGrows(c: Compiler, s: Session, h: History, more: History, shown: Option<Observation>)
    requires OnThisThread(c, s, h, shown)
    requires h.served <= more.served && h.delivered <= more.delivered
    ensures OnThisThread(c, s, more, shown)
  {
  }

  /** Only `busy`, `connected`, messages and controllers differ. */
  predicate Cosmetic(s: Session, next: Session) {
    && next.epoch == s.epoch
    && next.snapshot == s.snapshot.(busy := next.snapshot.busy, connected := next.snapshot.connected,
                                    error := next.snapshot.error, recovery := next.snapshot.recovery)
    && (s.observation.None? <==> next.observation.None?)
    && (s.observation.Some? ==>
          next.observation.value == s.observation.value.(controller := next.observation.value.controller))
  }

  lemma CosmeticKeeps(c: Compiler, s: Session, next: Session, h: History, shown: Option<Observation>)
    requires OnThisThread(c, s, h, shown)
    requires Cosmetic(s, next)
    ensures OnThisThread(c, next, h, shown)
    ensures SameFooting(s, next)
  {
  }

  /** Every task of `s` may go on relying on `next`. */
  predicate SameFooting(s: Session, next: Session) {
    s.epoch < next.epoch ||
    (&& s.epoch == next.epoch
     && next.snapshot.threadId == s.snapshot.threadId
     && (s.observation.None? <==> next.observation.None?)
     && (s.observation.Some? ==>
           && next.observation.value.threadId == s.observation.value.threadId
           && next.observation.value.runId == s.observation.value.runId)
     && (s.observation.None? && !s.snapshot.preview && s.snapshot.spec == UiSpec(s.snapshot.ui)
         ==> !next.snapshot.preview && next.snapshot.spec == UiSpec(next.snapshot.ui)))
  }

  lemma FootingKeepsTask(s: Session, next: Session, t: Task)
    requires SameFooting(s, next) && TaskOk(s, t)
    ensures TaskOk(next, t)
    ensures LiveStarter(next, t) ==> LiveStarter(s, t)
  {
  }

  lemma LeaveKeeps(c: Compiler, s: Session, h: History, shown: Option<Observation>)
    requires OnThisThread(c, s, h, shown)
    ensures OnThisThread(c, Leave(s), h, shown)
  {
  }

  lemma StartRunKeeps(c: Compiler, s: Session, h: History, shown: Option<Observation>, payload: Payload)
    requires OnThisThread(c, s, h, shown)
    ensures var (next, task) := StartRun(s, payload);
            OnThisThread(c, next, h, shown) && TaskOk(next, task) && next.epoch == s.epoch + 1
  {
  }

  lemma InvokeKeeps(c: Compiler, s: Session, h: History, shown: Option<Observation>, call: Call)
    requires OnThisThread(c, s, h, shown)
    ensures var (next, task) := Invoke(s, call);
            && OnThisThread(c, next, h, shown)
            && SameFooting(s, next)
            && TaskOk(next, task)
            && (LiveStarter(next, task) ==> s.epoch < next.epoch)
  {
    var (next, task) := Invoke(s, call);
    match call
    case Open(_) =>
    case Generate(valid, request) =>
      if next.epoch == s.epoch { CosmeticKeeps(c, s, next, h, shown); }
      else { StartRunKeeps(c, s, h, shown, Input(request)); }
    case Decide(approved) =>
      if Decides(s, call) {
        StartRunKeeps(c, s, h, shown,
                      Resume(s.snapshot.review.value.id, Decision(s.snapshot.ui.value.generationId, approved)));
      }
    case Disconnect => CosmeticKeeps(c, s, next, h, shown);
    case Reconnect => CosmeticKeeps(c, s, next, h, shown);
    case Stop => CosmeticKeeps(c, s, next, h, shown);
    case Dispose => LeaveKeeps(c, s, h, shown);
  }

  /** A state read from the session's own thread may replace what is on screen. */
  lemma RestoredKeeps(
    c: Compiler, s: Session, h: History, shown: Option<Observation>, token: nat, threadId: Id, r: Reply)
    requires r.State? || r.Unparsable? || r.Failed?
    requires OnThisThread(c, s, h, shown)
    requires token == s.epoch ==> s.snapshot.threadId == Some(threadId)
    requires r.State? ==> (threadId, r.state) in h.served
    ensures var next := Restored(s, token, r).0;
            OnThisThread(c, next, h, shown) && SameFooting(s, next)
  {
    var next := Restored(s, token, r).0;
    if next != s {
      assert ReadTogether(h, threadId, r.state.ui, r.state.review, r.state.approved);
    }
  }

  /** One more delivered frame extends the fold, and moves the cursor if it has an id. */
  lemma FaithfulGrows(c: Compiler, h: History, o: Observation, frame: Frame, id: Option<string>)
    requires Faithful(c, h, o)
    requires (o.threadId, o.runId, frame) in h.delivered
    ensures Faithful(c, h, o.(stream := Push(c, o.stream, frame), seen := o.seen + [frame], ids := o.ids + [id],
                              cursor := if id.Some? then id else o.cursor))
  {
    PushAllAppend(c, Init(o.stream.baseline), o.seen, [frame]);
    assert PushAll(c, o.stream, [frame]) == Push(c, o.stream, frame);
    GapAndIdentityPersist(c, o.stream, [frame]);
    assert (o.ids + [id])[..|o.ids|] == o.ids;
  }

  /** A live frame: the preview shown, if any, is the new stream's. */
  lemma FollowKeeps(c: Compiler, s: Session, h: History, shown: Option<Observation>, r: Reply)
    requires OnThisThread(c, s, h, shown)
    requires r.Received? && s.observation.Some?
    requires (s.observation.value.threadId, s.observation.value.runId, r.frame) in h.delivered
    ensures var next := Follow(c, s, r);
            && OnThisThread(c, next, h, if Displays(s, next, r) then next.observation else shown)
            && SameFooting(s, next)
  {
    var o := s.observation.value;
    var next := Follow(c, s, r);
    FaithfulGrows(c, h, o, r.frame, r.cursor);
    assert |next.observation.value.seen| != |o.seen|;
    FollowedKeeps(c, s, next, h, shown);
  }

  lemma FollowedKeeps(c: Compiler, s: Session, next: Session, h: History, shown: Option<Observation>)
    requires OnThisThread(c, s, h, shown) && s.observation.Some? && next.observation.Some?
    requires Faithful(c, h, next.observation.value)
    requires next.observation.value.threadId == s.observation.value.threadId
    requires next.observation.value.runId == s.observation.value.runId
    requires next == s.(observation := next.observation, snapshot := next.snapshot)
    requires var stream := next.observation.value.stream;
             next.snapshot == if stream.generationId.None? && !stream.gap then s.snapshot
                              else s.snapshot.(spec := stream.preview, preview := !stream.gap,
                                               recovery := next.snapshot.recovery)
    ensures var stream := next.observation.value.stream;
            OnThisThread(c, next, h, if stream.generationId.Some? || stream.gap then next.observation else shown)
    ensures SameFooting(s, next)
  {
  }

  /** Starting to observe a run: the stream is empty and its baseline is the plan on screen. */
  lemma ObserveKeeps(
    c: Compiler, s: Session, next: Session, h: History, shown: Option<Observation>, threadId: Id, runId: Id)
    requires OnThisThread(c, s, h, shown)
    requires s.snapshot.threadId == Some(threadId) && !s.snapshot.preview && s.snapshot.spec == UiSpec(s.snapshot.ui)
    requires var shot := s.snapshot.(runId := Some(runId), review := next.snapshot.review,
                                             approved := next.snapshot.approved);
             Cosmetic(Observe(s, threadId, runId).(snapshot := shot), next)
    requires next.snapshot.review == s.snapshot.review || next.snapshot.review.None?
    requires next.snapshot.approved == s.snapshot.approved || next.snapshot.approved.None?
    ensures OnThisThread(c, next, h, shown)
  {
    assert Faithful(c, h, next.observation.value);
  }

  /** One reply, one task: the screen stays on its thread and the task stays well-founded. */
  ghost predicate Kept(c: Compiler, s: Session, h: History, shown: Option<Observation>, t: Task, r: Reply)
    requires Fits(t, r) && Ready(s, t)
  {
    var (next, task) := Step(c, s, t, r);
    && OnThisThread(c, next, Told(h, t, r), if Displays(s, next, r) then next.observation else shown)
    && Hands(s, t, next, task)
  }

  /** `t` leaves its successor, and every other task, something to stand on. */
  predicate Hands(s: Session, t: Task, next: Session, task: Task) {
    && TaskOk(next, task)
    && (SameFooting(s, next) || (LiveStarter(s, t) && next.epoch == s.epoch))
    && (LiveStarter(next, task) ==> LiveStarter(s, t))
  }

  /** `restore` never moves the session to another thread, run or epoch, and always ends on the saved spec. */
  lemma RestoredInPlace(s: Session, token: nat, r: Reply)
    requires r.State? || r.Unparsable? || r.Failed?
    ensures var next := Restored(s, token, r).0;
            && next == s.(snapshot := next.snapshot)
            && next.snapshot.threadId == s.snapshot.threadId
            && (next.snapshot == s.snapshot
                || (!next.snapshot.preview && next.snapshot.spec == UiSpec(next.snapshot.ui)))
  {
  }

  lemma RestoringHands(c: Compiler, s: Session, t: Task, r: Reply)
    requires TaskOk(s, t) && Fits(t, r) && t.token == s.epoch
    requires t.OpenRestore? || t.FollowRestore? || t.StopRestore?
    ensures Step(c, s, t, r).0 == Restored(s, t.token, r).0
    ensures Hands(s, t, Step(c, s, t, r).0, Step(c, s, t, r).1)
  {
    var next := Restored(s, t.token, r).0;
    RestoredInPlace(s, t.token, r);
    assert SameFooting(s, next);
    FootingKeepsTask(s, next, t);
  }

  lemma RestoringKeeps(c: Compiler, s: Session, h: History, shown: Option<Observation>, t: Task, r: Reply)
    requires OnThisThread(c, s, h, shown) && TaskOk(s, t) && Fits(t, r) && t.token == s.epoch
    requires t.OpenRestore? || t.FollowRestore? || t.StopRestore?
    ensures Kept(c, s, h, shown, t, r)
  {
    HistoryGrows(c, s, h, Told(h, t, r), shown);
    RestoredKeeps(c, s, Told(h, t, r), shown, t.token, t.threadId, r);
    RestoringHands(c, s, t, r);
  }

  lemma StartingKeeps(c: Compiler, s: Session, h: History, shown: Option<Observation>, t: Task, r: Reply)
    requires OnThisThread(c, s, h, shown) && TaskOk(s, t) && Fits(t, r) && t.token == s.epoch
    requires t.OpenList? || t.CreateRun?
    requires Step(c, s, t, r).0.observation.Some?
    ensures Kept(c, s, h, shown, t, r)
  {
    var next := Step(c, s, t, r).0;
    ObserveKeeps(c, s, next, h, shown, t.threadId, next.observation.value.runId);
  }

  lemma CreatingThreadKeeps(c: Compiler, s: Session, h: History, shown: Option<Observation>, t: Task, r: Reply)
    requires OnThisThread(c, s, h, shown) && TaskOk(s, t) && Fits(t, r) && t.token == s.epoch
    requires t.CreateThread? && r.ThreadCreated?
    ensures Kept(c, s, h, shown, t, r)
  {
  }

  lemma FrameKeeps(c: Compiler, s: Session, h: History, shown: Option<Observation>, t: Task, r: Reply)
    requires OnThisThread(c, s, h, shown) && TaskOk(s, t) && Fits(t, r) && Ready(s, t) && t.token == s.epoch
    requires t.FollowFrame? && r.Received? && t.controller !in s.aborted
    ensures Kept(c, s, h, shown, t, r)
  {
    HistoryGrows(c, s, h, Told(h, t, r), shown);
    FollowKeeps(c, s, Told(h, t, r), shown, r);
    FootingKeepsTask(s, Follow(c, s, r), t);
  }

  /** Resumptions that neither read a thread, show a frame nor begin to observe change only messages and flags. */
  predicate Plain(c: Compiler, s: Session, t: Task, r: Reply)
    requires Fits(t, r) && Ready(s, t)
  {
    && t.token == s.epoch
    && !t.OpenRestore? && !t.FollowRestore? && !t.StopRestore?
    && (t.FollowFrame? && r.Received? ==> t.controller in s.aborted)
    && (t.OpenList? || t.CreateRun? ==> Step(c, s, t, r).0.observation.None?)
    && !(t.CreateThread? && r.ThreadCreated?)
  }

  lemma PlainStepIsCosmetic(c: Compiler, s: Session, t: Task, r: Reply)
    requires TaskOk(s, t) && Fits(t, r) && Ready(s, t) && Plain(c, s, t, r)
    requires s.observation.Some? ==> s.snapshot.threadId == Some(s.observation.value.threadId)
    ensures Cosmetic(s, Step(c, s, t, r).0)
    ensures Hands(s, t, Step(c, s, t, r).0, Step(c, s, t, r).1)
    ensures !Displays(s, Step(c, s, t, r).0, r)
  {
  }

  lemma PlainStepKeeps(c: Compiler, s: Session, h: History, shown: Option<Observation>, t: Task, r: Reply)
    requires OnThisThread(c, s, h, shown) && TaskOk(s, t) && Fits(t, r) && Ready(s, t) && Plain(c, s, t, r)
    ensures Kept(c, s, h, shown, t, r)
  {
    HistoryGrows(c, s, h, Told(h, t, r), shown);
    PlainStepIsCosmetic(c, s, t, r);
    CosmeticKeeps(c, s, Step(c, s, t, r).0, Told(h, t, r), shown);
  }

  lemma StaleStepHands(c: Compiler, s: Session, t: Task, r: Reply)
    requires TaskOk(s, t) && Fits(t, r) && t.token != s.epoch
    ensures Step(c, s, t, r).0 == s && !Displays(s, s, r) && Hands(s, t, s, Step(c, s, t, r).1)
  {
    StaleContinuationIsInert(c, s, t, r);
  }

  lemma StaleStepKeeps(c: Compiler, s: Session, h: History, shown: Option<Observation>, t: Task, r: Reply)
    requires OnThisThread(c, s, h, shown) && TaskOk(s, t) && Fits(t, r) && t.token != s.epoch
    ensures Kept(c, s, h, shown, t, r)
  {
    HistoryGrows(c, s, h, Told(h, t, r), shown);
    StaleStepHands(c, s, t, r);
  }

  lemma StepKeeps(c: Compiler, s: Session, h: History, shown: Option<Observation>, t: Task, r: Reply)
    requires OnThisThread(c, s, h, shown) && TaskOk(s, t) && Fits(t, r) && Ready(s, t)
    ensures Kept(c, s, h, shown, t, r)
  {
    if t.token != s.epoch {
      StaleStepKeeps(c, s, h, shown, t, r);
    } else if t.OpenRestore? || t.FollowRestore? || t.StopRestore? {
      RestoringKeeps(c, s, h, shown, t, r);
    } else if t.FollowFrame? && r.Received? && t.controller !in s.aborted {
      FrameKeeps(c, s, h, shown, t, r);
    } else if t.CreateThread? && r.ThreadCreated? {
      CreatingThreadKeeps(c, s, h, shown, t, r);
    } else if Plain(c, s, t, r) {
      PlainStepKeeps(c, s, h, shown, t, r);
    } else {
      StartingKeeps(c, s, h, shown, t, r);
    }
  }

  lemma TasksKept(s: Session, next: Session, tasks: seq<Task>, index: nat, task: Task)
    requires index < |tasks| && Hands(s, tasks[index], next, task)
    requires forall i :: 0 <= i < |tasks| ==> TaskOk(s, tasks[i])
    requires OneStarter(s, tasks)
    ensures var after := tasks[index := task];
            (forall i :: 0 <= i < |after| ==> TaskOk(next, after[i])) && OneStarter(next, after)
  {
    var t := tasks[index];
    forall i | 0 <= i < |tasks| && i != index
      ensures TaskOk(next, tasks[i]) && (LiveStarter(next, tasks[i]) ==> LiveStarter(s, tasks[i]) && !LiveStarter(s, t))
    {
      if SameFooting(s, next) {
        FootingKeepsTask(s, next, tasks[i]);
      } else {
        assert LiveStarter(s, t) && !LiveStarter(s, tasks[i]);
      }
    }
  }

  /** Every step of every schedule keeps the invariant. */
  lemma NextKeepsInv(c: Compiler, m: Machine, a: Action)
    requires Inv(c, m) && Enabled(m, a)
    ensures Inv(c, Next(c, m, a))
  {
    var next := Next(c, m, a);
    match a
    case Call(call) =>
      InvokeKeeps(c, m.session, m.history, m.shown, call);
      forall i | 0 <= i < |m.tasks|
        ensures TaskOk(next.session, m.tasks[i])
        ensures LiveStarter(next.session, m.tasks[i]) ==> LiveStarter(m.session, m.tasks[i])
      {
        FootingKeepsTask(m.session, next.session, m.tasks[i]);
      }
    case Deliver(index, reply) =>
      var t := m.tasks[index];
      StepKeeps(c, m.session, m.history, m.shown, t, reply);
      TasksKept(m.session, next.session, m.tasks, index, next.tasks[index]);
      assert next.tasks == m.tasks[index := next.tasks[index]];
  }

  /** For every interleaving of calls and replies, the invariant holds at the end. */
  lemma {:induction false} RunKeepsInv(c: Compiler, m: Machine, actions: seq<Action>)
    requires Inv(c, m)
    ensures Run(c, m, actions).Some? ==> Inv(c, Run(c, m, actions).value)
    decreases |actions|
  {
    if actions != [] && Enabled(m, actions[0]) {
      NextKeepsInv(c, m, actions[0]);
      RunKeepsInv(c, Next(c, m, actions[0]), actions[1..]);
    }
  }

  /**
   For every interleaving: plan, spec, review, approval and observation come from the thread the snapshot
   names, every decision names the plan that was on screen, and no live continuation is left without
   the observation it works on (so `Ready` never restricts the adversary).
   */
  lemma EveryReachableSession(c: Compiler, actions: seq<Action>)
    requires Run(c, START, actions).Some?
    ensures var end := Run(c, START, actions).value;
            && OnThisThread(c, end.session, end.history, end.shown)
            && (forall i :: 0 <= i < |end.sent| ==> TicketOk(end.history, end.sent[i]))
            && (forall i :: 0 <= i < |end.tasks| ==> Ready(end.session, end.tasks[i]))
  {
    RunKeepsInv(c, START, actions);
  }

  /**
   Whenever a preview is on screen, it is the in-order compile of events 0..k of one generation, all
   of them delivered for the run and thread that the snapshot names.
   */
  lemma EveryPreview(c: Compiler, actions: seq<Action>)
    requires Run(c, START, actions).Some? && Run(c, START, actions).value.session.snapshot.preview
    ensures var end := Run(c, START, actions).value;
            var shot := end.session.snapshot;
            && end.shown.Some? && shot.threadId.Some? && shot.runId.Some?
            && var stream := end.shown.value.stream;
               var accepted := ReadAll(c, end.shown.value.seen).events;
               && stream.generationId.Some?
               && accepted != [] && Contiguous(accepted) && AllCompile(c, ChunkTexts(accepted))
               && stream.generationId == Some(accepted[0].generationId)
               && shot.spec == Shown(c, stream.baseline, accepted)
               && (forall e :: e in accepted ==>
                     (shot.threadId.value, shot.runId.value, Event(e)) in end.history.delivered)
  {
    RunKeepsInv(c, START, actions);
    var o := Run(c, START, actions).value.shown.value;
    EveryFrameSequence(c, o.stream.baseline, o.seen);
  }
}
