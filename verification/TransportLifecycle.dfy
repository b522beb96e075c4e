/**
 `start` and `stop` of the BullMQ transport under every interleaving of calls.

 Continuations are jobs in one first-in-first-out queue (section 9.5.5 of ECMA-262): when a promise
 settles, its reactions are queued in registration order (section 27.2.1.8), and awaiting a settled promise (or
 `undefined`) queues the continuation at once. Calls to `start` and `stop`, and the completion of
 worker I/O, may happen between any two jobs. A `close()` that fails leaves its worker open; `leaked` holds
 the open workers whose `close()` has failed.
 */
module TransportLifecycle {
  import opened Common

  datatype StartPhase = Readying | Reacting | Discarding | Discarded | Started(ok: bool)

  /** The promise in `starting`, which owns the worker numbered `id`. */
  datatype Starting = Starting(id: nat, phase: StartPhase)

  datatype StopPhase = AwaitingStart | Entering | Closing(worker: nat) | Closed | AwaitingRun | Ran | Stopped(ok: bool)

  /** The promise in `stopping`, with the number of `start` calls waiting for it. */
  datatype Stopping = Stopping(phase: StopPhase, waiters: nat)

  datatype Job =
    | AfterReady(ok: bool)
    | AfterDiscard
    | StartFinally
    | AfterStart(ok: bool)
    | AfterClose(ok: bool)
    | AfterRun
    | StopFinally
    | StartAgain(ok: bool)

  datatype Transport = Transport(
    worker: Option<nat>,
    starting: Option<Starting>,
    stopping: Option<Stopping>,
    running: Option<nat>,
    open: set<nat>,
    leaked: set<nat>,
    created: nat,
    jobs: seq<Job>)

  const IDLE := Transport(None, None, None, None, {}, {}, 0, [])

  // ----- the synchronous pieces -------------------------------------------------------------

  /** `start` from `if (starting)` on; the worker's constructor may throw. */
  function Begin(s: Transport, constructs: bool): Transport {
    if s.starting.Some? || s.worker.Some? then s
    else if constructs then
      s.(starting := Some(Starting(s.created, Readying)), worker := Some(s.created),
         open := s.open + {s.created}, created := s.created + 1)
    else
      s.(starting := Some(Starting(s.created, Started(false))), created := s.created + 1,
         jobs := s.jobs + [StartFinally])
  }

  function SettleStart(s: Transport, ok: bool): Transport
    requires s.starting.Some?
  {
    var settled := s.(starting := Some(Starting(s.starting.value.id, Started(ok))), jobs := s.jobs + [StartFinally]);
    if s.stopping.Some? && s.stopping.value.phase.AwaitingStart? then
      settled.(stopping := Some(s.stopping.value.(phase := Entering)), jobs := settled.jobs + [AfterStart(ok)])
    else settled
  }

  function Repeat(job: Job, n: nat): (r: seq<Job>)
    ensures |r| == n && forall i :: 0 <= i < n ==> r[i] == job
  {
    seq(n, _ => job)
  }

  function SettleStop(s: Transport, ok: bool): Transport
    requires s.stopping.Some?
  {
    s.(stopping := Some(Stopping(Stopped(ok), 0)),
       jobs := s.jobs + [StopFinally] + Repeat(StartAgain(ok), s.stopping.value.waiters))
  }

  function CallStart(s: Transport, constructs: bool): Transport {
    if s.stopping.None? then Begin(s, constructs)
    else match s.stopping.value.phase
      case Stopped(ok) => s.(jobs := s.jobs + [StartAgain(ok)])
      case _ => s.(stopping := Some(s.stopping.value.(waiters := s.stopping.value.waiters + 1)))
  }

  function CallStop(s: Transport): Transport {
    if s.stopping.Some? then s
    else if s.starting.None? then s.(stopping := Some(Stopping(Entering, 0)), jobs := s.jobs + [AfterStart(true)])
    else if s.starting.value.phase.Started? then
      s.(stopping := Some(Stopping(Entering, 0)), jobs := s.jobs + [AfterStart(s.starting.value.phase.ok)])
    else s.(stopping := Some(Stopping(AwaitingStart, 0)))
  }

  function InPhase(s: Transport, phase: StopPhase): Transport
    requires s.stopping.Some?
  {
    s.(stopping := Some(s.stopping.value.(phase := phase)))
  }

  /** The job at the head of the queue, already taken off it. */
  function RunJob(s: Transport, job: Job, constructs: bool): Transport
    requires StartJob(job) ==> s.starting.Some?
    requires StopJob(job) ==> s.stopping.Some?
  {
    match job
    case AfterReady(ok) =>
      if ok then SettleStart(s.(running := Some(s.starting.value.id)), true)
      else s.(worker := None, starting := Some(Starting(s.starting.value.id, Discarding)))
    case AfterDiscard => SettleStart(s, false)
    case StartFinally => s.(starting := None)
    case AfterStart(ok) =>
      if !ok then SettleStop(s, false)
      else if s.worker.Some? then InPhase(s.(worker := None), Closing(s.worker.value))
      else InPhase(s, Closed).(jobs := s.jobs + [AfterClose(true)])
    case AfterClose(ok) =>
      if !ok then SettleStop(s, false)
      else if s.running.Some? then InPhase(s, AwaitingRun)
      else InPhase(s, Ran).(jobs := s.jobs + [AfterRun])
    case AfterRun => SettleStop(s.(running := None), true)
    case StopFinally => s.(stopping := None)
    case StartAgain(ok) => if ok then Begin(s, constructs) else s
  }

  // ----- the machine ------------------------------------------------------------------------

  datatype Action =
    | Start(constructs: bool)
    | Stop
    | Tick(constructs: bool)
    | Ready(ok: bool)
    | DiscardDone(ok: bool)
    | CloseDone(ok: bool)
    | RunDone

  predicate StartJob(job: Job) {
    job.AfterReady? || job.AfterDiscard? || job.StartFinally?
  }

  predicate StopJob(job: Job) {
    job.AfterStart? || job.AfterClose? || job.AfterRun? || job.StopFinally?
  }

  predicate Enabled(s: Transport, a: Action) {
    match a
    case Start(_) => true
    case Stop => true
    case Tick(_) =>
      s.jobs != [] && (StartJob(s.jobs[0]) ==> s.starting.Some?) && (StopJob(s.jobs[0]) ==> s.stopping.Some?)
    case Ready(_) => s.starting.Some? && s.starting.value.phase.Readying?
    case DiscardDone(_) => s.starting.Some? && s.starting.value.phase.Discarding?
    case CloseDone(_) => s.stopping.Some? && s.stopping.value.phase.Closing?
    case RunDone => s.stopping.Some? && s.stopping.value.phase.AwaitingRun?
  }

  /** A worker that `start` and `stop` are both closing may see one of them fail and the other succeed. */
  function FinishClose(s: Transport, worker: nat, ok: bool): Transport {
    if ok then s.(open := s.open - {worker}, leaked := s.leaked - {worker})
    else if worker in s.open then s.(leaked := s.leaked + {worker})
    else s
  }

  function Next(s: Transport, a: Action): Transport
    requires Enabled(s, a)
  {
    match a
    case Start(constructs) => CallStart(s, constructs)
    case Stop => CallStop(s)
    case Tick(constructs) => RunJob(s.(jobs := s.jobs[1..]), s.jobs[0], constructs)
    case Ready(ok) => s.(starting := Some(s.starting.value.(phase := Reacting)), jobs := s.jobs + [AfterReady(ok)])
    case DiscardDone(ok) =>
      FinishClose(s, s.starting.value.id, ok)
      .(starting := Some(s.starting.value.(phase := Discarded)), jobs := s.jobs + [AfterDiscard])
    case CloseDone(ok) =>
      InPhase(FinishClose(s, s.stopping.value.phase.worker, ok), Closed).(jobs := s.jobs + [AfterClose(ok)])
    case RunDone => InPhase(s, Ran).(jobs := s.jobs + [AfterRun])
  }

  function Run(s: Transport, actions: seq<Action>): Option<Transport>
    decreases |actions|
  {
    if actions == [] then Some(s)
    else if !Enabled(s, actions[0]) then None
    else Run(Next(s, actions[0]), actions[1..])
  }

  // ----- the invariant ----------------------------------------------------------------------

  /** The phase of `starting` in which this job is queued. */
  predicate StartMatches(s: Transport, job: Job)
    requires StartJob(job)
  {
    s.starting.Some? &&
    match job
    case AfterReady(_) => s.starting.value.phase.Reacting?
    case AfterDiscard => s.starting.value.phase.Discarded?
    case _ => s.starting.value.phase.Started?
  }

  predicate StopMatches(s: Transport, job: Job)
    requires StopJob(job)
  {
    s.stopping.Some? &&
    match job
    case AfterStart(_) => s.stopping.value.phase.Entering?
    case AfterClose(_) => s.stopping.value.phase.Closed?
    case AfterRun => s.stopping.value.phase.Ran?
    case _ => s.stopping.value.phase.Stopped?
  }

  /** `stop` has taken the worker and is not finished with it. */
  predicate Tearing(s: Transport) {
    s.stopping.Some? && (s.stopping.value.phase.Closing? || s.stopping.value.phase.Closed?
                         || s.stopping.value.phase.AwaitingRun? || s.stopping.value.phase.Ran?)
  }

  predicate JobOk(s: Transport, job: Job) {
    && (StartJob(job) ==> StartMatches(s, job))
    && (StopJob(job) ==> StopMatches(s, job))
    && (job.StartAgain? ==> !Tearing(s))
  }

  /** Each promise has one continuation of its own queued, and no resumed `start` queues
      behind a `stop` that is entering. */
  predicate Ordered(jobs: seq<Job>) {
    forall i, j :: 0 <= i < j < |jobs| ==>
      && !(StartJob(jobs[i]) && StartJob(jobs[j]))
      && !(StopJob(jobs[i]) && StopJob(jobs[j]))
      && !(jobs[i].AfterStart? && jobs[j].StartAgain?)
  }

  predicate QueueOk(s: Transport) {
    && (forall i :: 0 <= i < |s.jobs| ==> JobOk(s, s.jobs[i]))
    && Ordered(s.jobs)
  }

  /** Every open worker is accounted for. */
  predicate WorkersOk(s: Transport) {
    && (forall w :: w in s.open ==> w < s.created)
    && (s.worker.Some? ==> s.worker.value in s.open && s.worker.value !in s.leaked)
    && s.leaked <= s.open
    && (s.starting.Some? ==>
          && s.starting.value.id < s.created
          && (forall w :: w in s.open && w !in s.leaked ==> w == s.starting.value.id)
          && (s.starting.value.phase.Discarding? || s.starting.value.phase.Discarded? ==> s.worker.None?))
    && (s.stopping.Some? && s.stopping.value.phase.Closing? ==>
          s.worker.None? && s.stopping.value.phase.worker < s.created)
    && (forall w :: w in s.open && w !in s.leaked ==> Held(s, w))
  }

  predicate Held(s: Transport, w: nat) {
    || s.worker == Some(w)
    || (s.starting.Some? && s.starting.value == Starting(w, Discarding))
    || (s.stopping.Some? && s.stopping.value.phase == Closing(w))
  }

  predicate Inv(s: Transport) {
    QueueOk(s) && WorkersOk(s)
  }

  lemma BeginKeeps(s: Transport, constructs: bool)
    requires Inv(s) && !Tearing(s)
    ensures Inv(Begin(s, constructs))
  {
  }

  lemma SettleStartKeeps(s: Transport, ok: bool)
    requires Inv(s) && s.starting.Some?
    requires forall i :: 0 <= i < |s.jobs| ==> !StartJob(s.jobs[i])
    requires forall w :: w in s.open && w !in s.leaked ==> Held(s.(starting := None), w)
    ensures Inv(SettleStart(s, ok))
  {
  }

  lemma SettleStopKeeps(s: Transport, ok: bool)
    requires Inv(s) && s.stopping.Some? && !s.stopping.value.phase.Closing?
    requires forall i :: 0 <= i < |s.jobs| ==> !StopJob(s.jobs[i])
    ensures Inv(SettleStop(s, ok))
  {
  }

  /** Taking the head off the queue; its kind does not occur again. */
  lemma PopKeeps(s: Transport)
    requires Inv(s) && s.jobs != []
    ensures var popped := s.(jobs := s.jobs[1..]);
            && Inv(popped) && JobOk(popped, s.jobs[0])
            && (StartJob(s.jobs[0]) ==> forall i :: 0 <= i < |popped.jobs| ==> !StartJob(popped.jobs[i]))
            && (StopJob(s.jobs[0]) ==> forall i :: 0 <= i < |popped.jobs| ==> !StopJob(popped.jobs[i]))
            && (s.jobs[0].AfterStart? ==> forall i :: 0 <= i < |popped.jobs| ==> !popped.jobs[i].StartAgain?)
  {
  }

  lemma StartJobKeeps(s: Transport, job: Job, constructs: bool)
    requires Inv(s) && StartJob(job) && StartMatches(s, job)
    requires forall i :: 0 <= i < |s.jobs| ==> !StartJob(s.jobs[i])
    ensures Inv(RunJob(s, job, constructs))
  {
    match job
    case AfterReady(ok) => if ok { SettleStartKeeps(s.(running := Some(s.starting.value.id)), true); }
    case AfterDiscard => SettleStartKeeps(s, false);
    case StartFinally =>
  }

  /** `stop` takes the worker; no resumed `start` is left that could make another one. */
  lemma TakeWorkerKeeps(s: Transport, constructs: bool)
    requires Inv(s) && StopMatches(s, AfterStart(true))
    requires forall i :: 0 <= i < |s.jobs| ==> !StopJob(s.jobs[i]) && !s.jobs[i].StartAgain?
    ensures Inv(RunJob(s, AfterStart(true), constructs))
  {
  }

  lemma StopJobKeeps(s: Transport, job: Job, constructs: bool)
    requires Inv(s) && StopJob(job) && StopMatches(s, job)
    requires forall i :: 0 <= i < |s.jobs| ==> !StopJob(s.jobs[i])
    requires job.AfterStart? ==> forall i :: 0 <= i < |s.jobs| ==> !s.jobs[i].StartAgain?
    ensures Inv(RunJob(s, job, constructs))
  {
    match job
    case AfterStart(ok) => if ok { TakeWorkerKeeps(s, constructs); } else { SettleStopKeeps(s, false); }
    case AfterClose(ok) => if !ok { SettleStopKeeps(s, false); }
    case AfterRun => SettleStopKeeps(s.(running := None), true);
    case StopFinally =>
  }

  lemma TickKeeps(s: Transport, constructs: bool)
    requires Inv(s) && Enabled(s, Tick(constructs))
    ensures Inv(Next(s, Tick(constructs)))
  {
    PopKeeps(s);
    var popped := s.(jobs := s.jobs[1..]);
    if StartJob(s.jobs[0]) {
      StartJobKeeps(popped, s.jobs[0], constructs);
    } else if StopJob(s.jobs[0]) {
      StopJobKeeps(popped, s.jobs[0], constructs);
    } else if s.jobs[0].ok {
      BeginKeeps(popped, constructs);
    }
  }

  lemma CallStartKeeps(s: Transport, constructs: bool)
    requires Inv(s)
    ensures Inv(CallStart(s, constructs))
  {
    if s.stopping.None? {
      BeginKeeps(s, constructs);
    }
  }

  lemma CallStopKeeps(s: Transport)
    requires Inv(s)
    ensures Inv(CallStop(s))
  {
  }

  lemma StartCompletionKeeps(s: Transport, a: Action)
    requires Inv(s) && Enabled(s, a) && (a.Ready? || a.DiscardDone?)
    ensures Inv(Next(s, a))
  {
  }

  lemma StopCompletionKeeps(s: Transport, a: Action)
    requires Inv(s) && Enabled(s, a) && (a.CloseDone? || a.RunDone?)
    ensures Inv(Next(s, a))
  {
  }

  lemma NextKeepsInv(s: Transport, a: Action)
    requires Inv(s) && Enabled(s, a)
    ensures Inv(Next(s, a))
  {
    match a
    case Start(constructs) => CallStartKeeps(s, constructs);
    case Stop => CallStopKeeps(s);
    case Tick(constructs) => TickKeeps(s, constructs);
    case Ready(_) => StartCompletionKeeps(s, a);
    case DiscardDone(_) => StartCompletionKeeps(s, a);
    case CloseDone(_) => StopCompletionKeeps(s, a);
    case RunDone => StopCompletionKeeps(s, a);
  }

  lemma {:induction false} RunKeepsInv(s: Transport, actions: seq<Action>)
    requires Inv(s)
    ensures Run(s, actions).Some? ==> Inv(Run(s, actions).value)
    decreases |actions|
  {
    if actions != [] && Enabled(s, actions[0]) {
      NextKeepsInv(s, actions[0]);
      RunKeepsInv(Next(s, actions[0]), actions[1..]);
    }
  }

  // ----- which workers are open -------------------------------------------------------------

  /** `close()` of this action fails. */
  predicate FailsToClose(a: Action) {
    (a.CloseDone? || a.DiscardDone?) && !a.ok
  }

  lemma {:induction false} OnlyFailedClosesLeak(s: Transport, actions: seq<Action>)
    requires s.leaked == {}
    requires forall i :: 0 <= i < |actions| ==> !FailsToClose(actions[i])
    ensures Run(s, actions).Some? ==> Run(s, actions).value.leaked == {}
    decreases |actions|
  {
    if actions != [] && Enabled(s, actions[0]) {
      OnlyFailedClosesLeak(Next(s, actions[0]), actions[1..]);
    }
  }

  predicate AtRest(s: Transport) {
    s.starting.None? && s.stopping.None?
  }

  /** What `worker` says is open. */
  function Owned(s: Transport): set<nat> {
    if s.worker.Some? then {s.worker.value} else {}
  }

  /**
   For every interleaving: of the workers whose `close()` has not failed, at most one is open; when
   neither a start nor a stop is under way, it is exactly the one in `worker`, so that `worker` tells
   the truth if and only if no worker has been leaked; and the queue never holds a job that has lost
   its promise (so `Enabled` never restricts a tick).
   */
  lemma AtMostOneWorker(actions: seq<Action>)
    requires Run(IDLE, actions).Some?
    ensures var end := Run(IDLE, actions).value;
            && |end.open - end.leaked| <= 1
            && (AtRest(end) ==> end.open - end.leaked == Owned(end))
            && (AtRest(end) ==> (end.open == Owned(end) <==> end.leaked == {}))
            && (end.jobs != [] ==> Enabled(end, Tick(true)))
  {
    RunKeepsInv(IDLE, actions);
    var end := Run(IDLE, actions).value;
    Singleton(end.open - end.leaked);
    if AtRest(end) && end.leaked != {} {
      var w :| w in end.leaked;
      assert w in end.open && w !in Owned(end);
    }
  }

  /** The steps that construct a worker: a `start` that goes through at once, or after the `stop` it waited for. */
  predicate Opens(s: Transport, a: Action) {
    && s.starting.None? && s.worker.None?
    && (|| (a == Start(true) && s.stopping.None?)
        || (a == Tick(true) && s.jobs != [] && s.jobs[0] == StartAgain(true)))
  }

  function Max(a: nat, b: nat): nat {
    if a < b then b else a
  }

  /** The largest number of workers open at once, over all states of the run. */
  function MostOpen(s: Transport, actions: seq<Action>): nat
    decreases |actions|
  {
    Max(|s.open|, if actions != [] && Enabled(s, actions[0]) then MostOpen(Next(s, actions[0]), actions[1..]) else 0)
  }

  /** No worker is constructed while one whose `close()` failed is still open. */
  predicate NeverOpensBesideLeaked(s: Transport, actions: seq<Action>)
    decreases |actions|
  {
    actions != [] && Enabled(s, actions[0]) ==>
      && !(Opens(s, actions[0]) && s.leaked != {})
      && NeverOpensBesideLeaked(Next(s, actions[0]), actions[1..])
  }

  /** A step that opens a worker does so when only leaked ones are open; no other step adds one. */
  lemma OpeningStep(s: Transport, a: Action)
    requires Inv(s) && Enabled(s, a)
    ensures if Opens(s, a) then s.open == s.leaked && Next(s, a).open == s.open + {s.created} && s.created !in s.open
            else Next(s, a).open <= s.open
  {
    if Opens(s, a) {
      forall w | w in s.open ensures w in s.leaked {
        assert w !in s.leaked ==> Held(s, w);
      }
    }
  }

  lemma Subsets(s: set<nat>, t: set<nat>)
    requires s <= t
    ensures |s| <= |t|
  {
    assert t == s + (t - s);
  }

  /** One worker at a time, if and only if none is constructed beside one that failed to close. */
  lemma {:induction false} OneOpenExactly(s: Transport, actions: seq<Action>)
    requires Inv(s) && |s.open| <= 1
    ensures MostOpen(s, actions) <= 1 <==> NeverOpensBesideLeaked(s, actions)
    decreases |actions|
  {
    if actions != [] && Enabled(s, actions[0]) {
      var next := Next(s, actions[0]);
      NextKeepsInv(s, actions[0]);
      OpeningStep(s, actions[0]);
      if Opens(s, actions[0]) {
        assert |next.open| == |s.open| + 1;
        assert |s.open| == 0 <==> s.leaked == {};
      } else {
        Subsets(next.open, s.open);
      }
      if |next.open| <= 1 {
        OneOpenExactly(next, actions[1..]);
      }
    }
  }

  /**
   From the start, for every interleaving: at most one worker is ever open if and only if no worker is
   constructed while one whose `close()` failed is still open. A run without a failing `close()` is
   such a run.
   */
  lemma AtMostOneWorkerExactly(actions: seq<Action>)
    ensures MostOpen(IDLE, actions) <= 1 <==> NeverOpensBesideLeaked(IDLE, actions)
    ensures (forall i :: 0 <= i < |actions| ==> !FailsToClose(actions[i])) ==> MostOpen(IDLE, actions) <= 1
  {
    OneOpenExactly(IDLE, actions);
    if forall i :: 0 <= i < |actions| ==> !FailsToClose(actions[i]) {
      NothingLeaked(IDLE, actions);
    }
  }

  lemma {:induction false} NothingLeaked(s: Transport, actions: seq<Action>)
    requires s.leaked == {} && forall i :: 0 <= i < |actions| ==> !FailsToClose(actions[i])
    ensures NeverOpensBesideLeaked(s, actions)
    decreases |actions|
  {
    if actions != [] && Enabled(s, actions[0]) {
      NothingLeaked(Next(s, actions[0]), actions[1..]);
    }
  }

  /** With no failing `close()`: at most one open worker, and at rest it is the one in `worker`. */
  lemma AtMostOneWorkerIfCloseSucceeds(actions: seq<Action>)
    requires Run(IDLE, actions).Some?
    requires forall i :: 0 <= i < |actions| ==> !FailsToClose(actions[i])
    ensures var end := Run(IDLE, actions).value;
            |end.open| <= 1 && (AtRest(end) ==> end.open == Owned(end))
  {
    AtMostOneWorker(actions);
    OnlyFailedClosesLeak(IDLE, actions);
    var end := Run(IDLE, actions).value;
    assert end.open - end.leaked == end.open;
  }

  lemma Singleton(s: set<nat>)
    requires forall v, w :: v in s && w in s ==> v == w
    ensures |s| <= 1
  {
    if s != {} {
      var v :| v in s;
      assert s == {v};
    }
  }

  /** The condition can fail: after one failed `close()` a restart leaves two workers open. */
  lemma FailedCloseCanLeaveTwoOpen() returns (actions: seq<Action>)
    ensures Run(IDLE, actions).Some? && {0, 1} <= Run(IDLE, actions).value.open
  {
    var up := [Start(true), Ready(true), Tick(true), Tick(true)];
    var down := [Stop, Tick(true), CloseDone(false), Tick(true), Tick(true), Start(true)];
    var started := Transport(Some(0), None, None, Some(0), {0}, {}, 1, []);
    assert Run(IDLE, up) == Some(started) by {
      assert up[1..][1..][1..] == [Tick(true)];
      assert up[1..][1..] == [Tick(true), Tick(true)];
      var s2 := Next(Next(IDLE, Start(true)), Ready(true));
      assert s2.jobs == [AfterReady(true)];
      var s3 := Next(s2, Tick(true));
      assert s3.jobs == [StartFinally];
      assert Next(s3, Tick(true)) == started;
      assert Run(s3, [Tick(true)]) == Some(started);
      assert Run(s2, [Tick(true), Tick(true)]) == Some(started);
    }
    var end := StopsBadly(started, down);
    RunAppend(IDLE, up, down);
    actions := up + down;
  }

  lemma StopsBadly(started: Transport, down: seq<Action>) returns (end: Transport)
    requires started == Transport(Some(0), None, None, Some(0), {0}, {}, 1, [])
    requires down == [Stop, Tick(true), CloseDone(false), Tick(true), Tick(true), Start(true)]
    ensures Run(started, down) == Some(end) && {0, 1} <= end.open
  {
    var s1 := Next(started, Stop);
    var s2 := Next(s1, Tick(true));
    var s3 := Next(s2, CloseDone(false));
    var s4 := Next(s3, Tick(true));
    var s5 := Next(s4, Tick(true));
    end := Next(s5, Start(true));
    assert s3.jobs == [AfterClose(false)] && s4.jobs == [StopFinally];
    assert down[1..][1..][1..] == [Tick(true), Tick(true), Start(true)];
    assert down[1..][1..] == [CloseDone(false), Tick(true), Tick(true), Start(true)];
    assert Run(s5, [Start(true)]) == Some(end);
    assert Run(s4, [Tick(true), Start(true)]) == Some(end);
    assert Run(s3, [Tick(true), Tick(true), Start(true)]) == Some(end);
    assert Run(s2, [CloseDone(false), Tick(true), Tick(true), Start(true)]) == Some(end);
  }

  lemma {:induction false} RunAppend(s: Transport, actions: seq<Action>, more: seq<Action>)
    requires Run(s, actions).Some?
    ensures Run(s, actions + more) == Run(Run(s, actions).value, more)
    decreases |actions|
  {
    if actions == [] {
      assert actions + more == more;
    } else {
      assert (actions + more)[1..] == actions[1..] + more;
      RunAppend(Next(s, actions[0]), actions[1..], more);
    }
  }

  // ----- the transport object ---------------------------------------------------------------

  /** The closure variables of `createBullMqTransport` (`worker` to `running`) and the world they run in. */
  class BullMqTransport {
    var worker: Option<nat>
    var starting: Option<Starting>
    var stopping: Option<Stopping>
    var running: Option<nat>
    var open: set<nat>
    var leaked: set<nat>
    var created: nat
    var jobs: seq<Job>

    function State(): Transport
      reads this
    {
      Transport(worker, starting, stopping, running, open, leaked, created, jobs)
    }

    constructor ()
      ensures State() == IDLE
    {
      worker, starting, stopping, running := None, None, None, None;
      open, leaked, created, jobs := {}, {}, 0, [];
    }

    method BeginStart(constructs: bool)
      modifies this
      ensures State() == Begin(old(State()), constructs)
    {
      if starting.Some? || worker.Some? {
        return;
      }
      var id := created;
      created := created + 1;
      if constructs {
        open := open + {id};
        worker := Some(id);
        starting := Some(Starting(id, Readying));
      } else {
        starting := Some(Starting(id, Started(false)));
        jobs := jobs + [StartFinally];
      }
    }

    method StartWorker(constructs: bool)
      modifies this
      ensures State() == Next(old(State()), Start(constructs))
    {
      if stopping.None? {
        BeginStart(constructs);
      } else if stopping.value.phase.Stopped? {
        jobs := jobs + [StartAgain(stopping.value.phase.ok)];
      } else {
        stopping := Some(stopping.value.(waiters := stopping.value.waiters + 1));
      }
    }

    method StopWorker()
      modifies this
      ensures State() == Next(old(State()), Stop)
    {
      if stopping.Some? {
        return;
      }
      if starting.Some? && !starting.value.phase.Started? {
        stopping := Some(Stopping(AwaitingStart, 0));
      } else {
        stopping := Some(Stopping(Entering, 0));
        jobs := jobs + [AfterStart(if starting.Some? then starting.value.phase.ok else true)];
      }
    }

    method Settle(ok: bool)
      requires starting.Some?
      modifies this`starting, this`stopping, this`jobs
      ensures State() == SettleStart(old(State()), ok)
    {
      starting := Some(starting.value.(phase := Started(ok)));
      jobs := jobs + [StartFinally];
      if stopping.Some? && stopping.value.phase.AwaitingStart? {
        stopping := Some(stopping.value.(phase := Entering));
        jobs := jobs + [AfterStart(ok)];
      }
    }

    method SettleStopped(ok: bool)
      requires stopping.Some?
      modifies this`stopping, this`jobs
      ensures State() == SettleStop(old(State()), ok)
    {
      jobs := jobs + [StopFinally] + Repeat(StartAgain(ok), stopping.value.waiters);
      stopping := Some(Stopping(Stopped(ok), 0));
    }

    method RunNextJob(constructs: bool)
      requires Enabled(State(), Tick(constructs))
      modifies this
      ensures State() == Next(old(State()), Tick(constructs))
    {
      var job := jobs[0];
      jobs := jobs[1..];
      match job
      case AfterReady(ok) =>
        if ok {
          running := Some(starting.value.id);
          Settle(true);
        } else {
          worker := None;
          starting := Some(starting.value.(phase := Discarding));
        }
      case AfterDiscard => Settle(false);
      case StartFinally => starting := None;
      case AfterStart(ok) =>
        if !ok {
          SettleStopped(false);
        } else {
          var owned := worker;
          worker := None;
          if owned.Some? {
            stopping := Some(stopping.value.(phase := Closing(owned.value)));
          } else {
            stopping := Some(stopping.value.(phase := Closed));
            jobs := jobs + [AfterClose(true)];
          }
        }
      case AfterClose(ok) =>
        if !ok {
          SettleStopped(false);
        } else if running.Some? {
          stopping := Some(stopping.value.(phase := AwaitingRun));
        } else {
          stopping := Some(stopping.value.(phase := Ran));
          jobs := jobs + [AfterRun];
        }
      case AfterRun =>
        running := None;
        SettleStopped(true);
      case StopFinally => stopping := None;
      case StartAgain(ok) =>
        if ok {
          BeginStart(constructs);
        }
    }

    /** A `close()` settles. */
    method FinishClosing(closing: nat, ok: bool)
      modifies this`open, this`leaked
      ensures State() == FinishClose(old(State()), closing, ok)
    {
      if ok {
        open, leaked := open - {closing}, leaked - {closing};
      } else if closing in open {
        leaked := leaked + {closing};
      }
    }

    /** Worker I/O completes: the continuation that awaits it is queued. */
    method Complete(a: Action)
      requires Enabled(State(), a) && (a.Ready? || a.DiscardDone? || a.CloseDone? || a.RunDone?)
      modifies this
      ensures State() == Next(old(State()), a)
    {
      match a
      case Ready(ok) =>
        starting := Some(starting.value.(phase := Reacting));
        jobs := jobs + [AfterReady(ok)];
      case DiscardDone(ok) =>
        FinishClosing(starting.value.id, ok);
        starting := Some(starting.value.(phase := Discarded));
        jobs := jobs + [AfterDiscard];
      case CloseDone(ok) =>
        FinishClosing(stopping.value.phase.worker, ok);
        stopping := Some(stopping.value.(phase := Closed));
        jobs := jobs + [AfterClose(ok)];
      case RunDone =>
        stopping := Some(stopping.value.(phase := Ran));
        jobs := jobs + [AfterRun];
    }

    method Perform(a: Action)
      requires Enabled(State(), a)
      modifies this
      ensures State() == Next(old(State()), a)
    {
      match a
      case Start(constructs) => StartWorker(constructs);
      case Stop => StopWorker();
      case Tick(constructs) => RunNextJob(constructs);
      case _ => Complete(a);
    }

    /**
     Any schedule on a new transport, until it asks for an impossible step. `most` is the largest
     number of workers that were open at once: at most one exactly when none was constructed beside a
     leaked one.
     */
    method Replay(actions: seq<Action>) returns (ok: bool, most: nat)
      requires State() == IDLE
      modifies this
      ensures Run(IDLE, actions) == if ok then Some(State()) else None
      ensures most == MostOpen(IDLE, actions)
      ensures most <= 1 <==> NeverOpensBesideLeaked(IDLE, actions)
      ensures ok ==> |open - leaked| <= 1
      ensures ok && starting.None? && stopping.None? ==>
                open - leaked == if worker.Some? then {worker.value} else {}
    {
      most := 0;
      for i := 0 to |actions|
        invariant Run(State(), actions[i..]) == Run(IDLE, actions)
        invariant |open| <= most
        invariant Max(most, MostOpen(State(), actions[i..])) == MostOpen(IDLE, actions)
      {
        assert actions[i..][0] == actions[i] && actions[i..][1..] == actions[i + 1..];
        if !Enabled(State(), actions[i]) {
          AtMostOneWorkerExactly(actions);
          return false, most;
        }
        Perform(actions[i]);
        most := if |open| > most then |open| else most;
      }
      AtMostOneWorkerExactly(actions);
      AtMostOneWorker(actions);
      ok := true;
    }
  }
}
