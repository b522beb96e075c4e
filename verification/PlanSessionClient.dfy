/**
 The object `createPlanSession` returns, with its closure variables as fields. A method is the code
 between two `await`s: it changes the fields in place and returns the task it suspends as. Each is
 proved equal to the step it has in the machine, so the machine's theorems are about this code.
 */
module PlanSessionClient {
  import opened Common
  import opened UiEvents
  import opened PlanGraph
  import opened PlanSession
  import opened Disconnection
  import opened PlanSessionRuns

  class Client {
    const compiler: Compiler
    var snapshot: Snapshot
    var epoch: nat
    var observation: Option<Observation>
    var aborted: set<nat>
    var controllers: nat

    function Session(): PlanSession.Session
      reads this
    {
      PlanSession.Session(snapshot, epoch, observation, aborted, controllers)
    }

    constructor (compiler: Compiler)
      ensures this.compiler == compiler && Session() == FRESH
    {
      this.compiler := compiler;
      snapshot, epoch, observation, aborted, controllers := INITIAL, 0, None, {}, 0;
    }

    method Abort()
      modifies this`aborted
      ensures aborted == AbortCurrent(old(Session()))
    {
      if observation.Some? && observation.value.controller.Some? {
        aborted := aborted + {observation.value.controller.value};
      }
    }

    method LeaveThread() returns (token: nat)
      modifies this
      ensures Session() == Leave(old(Session())) && token == epoch
    {
      epoch := epoch + 1;
      Abort();
      observation := None;
      token := epoch;
    }

    method Restore(token: nat, r: Reply) returns (thrown: Option<Message>)
      requires r.State? || r.Unparsable? || r.Failed?
      modifies this`snapshot
      ensures (Session(), thrown) == Restored(old(Session()), token, r)
    {
      if r.Failed? {
        return Some(r.message);
      }
      if token != epoch {
        return None;
      }
      if r.Unparsable? {
        return Some(r.message);
      }
      var ui, review := r.state.ui, r.state.review;
      if review.Some? && (ui.None? || review.value.generationId != ui.value.generationId) {
        return Some(ReviewMismatch);
      }
      snapshot := snapshot.(ui := ui, spec := UiSpec(ui), preview := false, review := review,
                            approved := r.state.approved, recovery := None);
      thrown := None;
    }

    method BeginFollowing(token: nat) returns (task: Task)
      requires observation.Some?
      modifies this
      ensures (Session(), task) == BeginFollow(old(Session()), token)
    {
      if token != epoch {
        return Finished;
      }
      var controller := controllers;
      controllers := controllers + 1;
      observation := Some(observation.value.(controller := Some(controller)));
      snapshot := snapshot.(connected := true, error := None);
      task := FollowFrame(token, observation.value.threadId, observation.value.runId, controller,
                          observation.value.cursor, None);
    }

    /** The body of the `for await` loop. */
    method ReceiveFrame(t: Task, r: Reply) returns (task: Task)
      requires t.FollowFrame? && Fits(t, r) && Ready(Session(), t)
      modifies this`observation, this`snapshot
      ensures (Session(), task) == Step(compiler, old(Session()), t, r)
    {
      if t.token != epoch || t.controller in aborted {
        return Finished;
      }
      if !r.Received? {
        return FollowStatus(t.token, t.threadId, t.runId, if r.Failed? then Some(r.message) else t.failure);
      }
      var current := observation.value;
      if r.cursor.Some? {
        current := current.(cursor := r.cursor);
      }
      task := FollowFrame(t.token, t.threadId, t.runId, t.controller, t.from,
                          if r.failure.Some? then r.failure else t.failure);
      var stream := Push(compiler, current.stream, r.frame);
      observation := Some(current.(stream := stream, seen := current.seen + [r.frame],
                                       ids := current.ids + [r.cursor]));
      if stream.generationId.Some? || stream.gap {
        snapshot := snapshot.(spec := stream.preview, preview := !stream.gap,
                              recovery := if stream.gap then Some(UpdatesMissing) else None);
      }
    }

    method BeginRun(payload: Payload) returns (task: Task)
      modifies this
      ensures (Session(), task) == StartRun(old(Session()), payload)
    {
      var token := LeaveThread();
      snapshot := snapshot.(busy := true, runId := None, error := None, recovery := None,
                            spec := UiSpec(snapshot.ui), preview := false);
      if snapshot.threadId.None? {
        task := CreateThread(token, payload);
      } else {
        task := CreateRun(token, snapshot.threadId.value, payload);
      }
    }

    method OpenThread(threadId: Option<Id>) returns (task: Task)
      modifies this
      ensures (Session(), task) == Invoke(old(Session()), Open(threadId))
    {
      var token := LeaveThread();
      snapshot := INITIAL.(threadId := threadId, busy := threadId.Some?);
      if threadId.None? {
        return Finished;
      }
      task := OpenRestore(token, threadId.value, false);
    }

    method GeneratePlan(valid: bool, request: string) returns (task: Task)
      modifies this
      ensures (Session(), task) == Invoke(old(Session()), Generate(valid, request))
    {
      if snapshot.busy || snapshot.review.Some? {
        return Finished;
      }
      if !valid {
        snapshot := snapshot.(error := Some(InvalidRequest));
        return Finished;
      }
      task := BeginRun(Input(request));
    }

    method DecidePlan(approved: bool) returns (task: Task)
      modifies this
      ensures (Session(), task) == Invoke(old(Session()), Decide(approved))
    {
      if snapshot.busy || snapshot.review.None? || snapshot.ui.None? {
        return Finished;
      }
      var decision := Decision(snapshot.ui.value.generationId, approved);
      task := BeginRun(Resume(snapshot.review.value.id, decision));
    }

    method DisconnectStream()
      modifies this
      ensures (Session(), Finished) == Invoke(old(Session()), Disconnect)
    {
      Abort();
      snapshot := snapshot.(connected := false, recovery := if snapshot.busy then Some(Paused) else None);
    }

    method ReconnectStream() returns (task: Task)
      modifies this
      ensures (Session(), task) == Invoke(old(Session()), Reconnect)
    {
      if observation.Some? && snapshot.busy && !snapshot.connected {
        task := BeginFollowing(epoch);
      } else {
        task := Finished;
      }
    }

    method StopRun() returns (task: Task)
      modifies this
      ensures (Session(), task) == Invoke(old(Session()), Stop)
    {
      if observation.None? || !snapshot.busy {
        return Finished;
      }
      var current := observation.value;
      Abort();
      snapshot := snapshot.(connected := false);
      task := StopCancel(epoch, current.threadId, current.runId);
    }

    /** The continuations of `open`. */
    method ContinueOpen(t: Task, r: Reply) returns (task: Task)
      requires Fits(t, r) && (t.OpenRestore? || t.OpenList? || t.OpenDone? || t.OpenCatch?)
      modifies this
      ensures (Session(), task) == Step(compiler, old(Session()), t, r)
    {
      match t
      case OpenRestore(token, threadId, again) =>
        var thrown := Restore(token, r);
        task := if thrown.Some? then OpenCatch(token, thrown.value)
                else if again then OpenDone(token) else OpenList(token, threadId);
      case OpenList(token, threadId) =>
        if token != epoch {
          return Finished;
        }
        if r.Failed? {
          snapshot := snapshot.(busy := false, error := Some(r.message));
          return Finished;
        }
        var active := if r.running.Some? then r.running else r.pending;
        if active.None? {
          return OpenRestore(token, threadId, true);
        }
        observation := Some(Observation(threadId, active.value, Init(snapshot.ui), None, None, [], []));
        snapshot := snapshot.(runId := active, busy := true);
        task := BeginFollowing(token);
      case OpenDone(token) =>
        if token == epoch {
          snapshot := snapshot.(busy := false);
        }
        task := Finished;
      case OpenCatch(token, message) =>
        if token == epoch {
          snapshot := snapshot.(busy := false, error := Some(message));
        }
        task := Finished;
    }

    /** The continuations of `startRun`. */
    method ContinueRun(t: Task, r: Reply) returns (task: Task)
      requires Fits(t, r) && (t.CreateThread? || t.CreateRun?)
      modifies this
      ensures (Session(), task) == Step(compiler, old(Session()), t, r)
    {
      if t.token != epoch {
        return Finished;
      }
      if r.Failed? {
        snapshot := snapshot.(busy := false, connected := false, error := Some(Uncertain(r.message)));
        return Finished;
      }
      match t
      case CreateThread(token, payload) =>
        snapshot := snapshot.(threadId := Some(r.threadId));
        task := CreateRun(token, r.threadId, payload);
      case CreateRun(token, threadId, _) =>
        observation := Some(Observation(threadId, r.runId, Init(snapshot.ui), None, None, [], []));
        snapshot := snapshot.(runId := Some(r.runId), review := None, approved := None);
        task := BeginFollowing(token);
    }

    /** The continuations of `follow` after its stream has ended. */
    method ContinueFollow(t: Task, r: Reply) returns (task: Task)
      requires Fits(t, r) && (t.FollowStatus? || t.FollowRestore? || t.FollowDone? || t.FollowCatch?)
      modifies this`snapshot
      ensures (Session(), task) == Step(compiler, old(Session()), t, r)
    {
      match t
      case FollowStatus(token, threadId, runId, failure) =>
        if token != epoch {
          return Finished;
        }
        if r.Failed? {
          snapshot := snapshot.(connected := false, error := Some(Unrecovered(r.message)));
          return Finished;
        }
        if IsActive(r.status) {
          snapshot := snapshot.(connected := false, error := if failure.Some? then failure else Some(Disconnected));
          return Finished;
        }
        task := FollowRestore(token, threadId, failure, r.status);
      case FollowRestore(token, threadId, failure, status) =>
        var thrown := Restore(token, r);
        task := if thrown.Some? then FollowCatch(token, thrown.value) else FollowDone(token, failure, status);
      case FollowDone(token, failure, status) =>
        if token == epoch {
          snapshot := snapshot.(busy := false, connected := false,
                                error := if failure.Some? then failure
                                         else if status.Error? || status.Timeout? then Some(GenerationFailed)
                                         else None);
        }
        task := Finished;
      case FollowCatch(token, message) =>
        if token == epoch {
          snapshot := snapshot.(connected := false, error := Some(Unrecovered(message)));
        }
        task := Finished;
    }

    /** The continuations of `stop`. */
    method ContinueStop(t: Task, r: Reply) returns (task: Task)
      requires Fits(t, r)
      requires t.StopCancel? || t.StopStatus? || t.StopRestore? || t.StopDone? || t.StopCatch?
      modifies this`snapshot
      ensures (Session(), task) == Step(compiler, old(Session()), t, r)
    {
      match t
      case StopCancel(token, threadId, runId) =>
        if r.Failed? {
          ReportStop(token, r.message);
          return Finished;
        }
        task := StopStatus(token, threadId, runId);
      case StopStatus(token, threadId, _) =>
        if r.Failed? {
          ReportStop(token, r.message);
          return Finished;
        }
        if token != epoch {
          return Finished;
        }
        if IsActive(r.status) {
          ReportStop(token, CancellationPending);
          return Finished;
        }
        task := StopRestore(token, threadId);
      case StopRestore(token, _) =>
        var thrown := Restore(token, r);
        task := if thrown.Some? then StopCatch(token, thrown.value) else StopDone(token);
      case StopDone(token) =>
        if token == epoch {
          snapshot := snapshot.(busy := false, error := None, recovery := Some(Stopped));
        }
        task := Finished;
      case StopCatch(token, message) =>
        ReportStop(token, message);
        task := Finished;
    }

    method ReportStop(token: nat, message: Message)
      modifies this`snapshot
      ensures Session() == Announce(old(Session()), token, None, message)
    {
      if token == epoch {
        snapshot := snapshot.(error := Some(message));
      }
    }

    method DisposeSession()
      modifies this
      ensures (Session(), Finished) == Invoke(old(Session()), Dispose)
    {
      var _ := LeaveThread();
    }

    // ----- whole runs -----------------------------------------------------------------------

    /** A user call, up to its first `await`. */
    method Perform(call: Call) returns (task: Task)
      modifies this
      ensures (Session(), task) == Invoke(old(Session()), call)
    {
      match call
      case Open(threadId) => task := OpenThread(threadId);
      case Generate(valid, request) => task := GeneratePlan(valid, request);
      case Decide(approved) => task := DecidePlan(approved);
      case Disconnect =>
        DisconnectStream();
        task := Finished;
      case Reconnect => task := ReconnectStream();
      case Stop => task := StopRun();
      case Dispose =>
        DisposeSession();
        task := Finished;
    }

    /** A reply resumes the call that waited for it, up to its next `await`. */
    method ResumeWith(t: Task, r: Reply) returns (task: Task)
      requires Fits(t, r) && Ready(Session(), t)
      modifies this
      ensures (Session(), task) == Step(compiler, old(Session()), t, r)
    {
      if t.OpenRestore? || t.OpenList? || t.OpenDone? || t.OpenCatch? {
        task := ContinueOpen(t, r);
      } else if t.CreateThread? || t.CreateRun? {
        task := ContinueRun(t, r);
      } else if t.FollowFrame? {
        task := ReceiveFrame(t, r);
      } else if t.FollowStatus? || t.FollowRestore? || t.FollowDone? || t.FollowCatch? {
        task := ContinueFollow(t, r);
      } else {
        task := ContinueStop(t, r);
      }
    }

    /**
     Any schedule of calls and replies on a new session, until it asks for an impossible step: what the
     object's own fields show then belongs to the thread they name and keeps up with what the server said,
     and every call that is still suspended can be resumed.
     */
    method Replay(actions: seq<Action>) returns (ok: bool, tasks: seq<Task>, ghost m: Machine, ghost w: Watch)
      requires Session() == FRESH
      modifies this
      ensures WatchRun(compiler, START, UNWATCHED, actions) == if ok then Some((m, w)) else None
      ensures m.session == Session() && m.tasks == tasks
      ensures OnThisThread(compiler, Session(), m.history, m.shown) && KeepsUp(Session(), w)
      ensures forall i :: 0 <= i < |tasks| ==> TaskOk(Session(), tasks[i]) && Ready(Session(), tasks[i])
      ensures forall i :: 0 <= i < |m.sent| ==> TicketOk(m.history, m.sent[i])
    {
      tasks, m, w, ok := [], START, UNWATCHED, true;
      for i := 0 to |actions|
        invariant AllInv(compiler, m, w) && m.session == Session() && m.tasks == tasks
        invariant WatchRun(compiler, m, w, actions[i..]) == WatchRun(compiler, START, UNWATCHED, actions)
      {
        var a := actions[i];
        assert actions[i..][0] == a && actions[i..][1..] == actions[i + 1..];
        if a.Deliver? && (a.index >= |tasks| || !Fits(tasks[a.index], a.reply) || !Ready(Session(), tasks[a.index])) {
          return false, tasks, m, w;
        }
        AllKept(compiler, m, w, a);
        m, w := Next(compiler, m, a), See(w, m, a);
        match a {
          case Call(call) =>
            var task := Perform(call);
            tasks := tasks + [task];
          case Deliver(index, reply) =>
            var task := ResumeWith(tasks[index], reply);
            tasks := tasks[index := task];
        }
      }
    }
  }
}
