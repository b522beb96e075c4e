/**
 What `start` and `stop` bring about, over whole runs: a start settles well exactly when its worker became
 ready, a stop waits for the worker it took and for that worker's run, and every call settles.

 A `Log` is what an observer of the calls and of the worker's I/O remembers.
 */
module TransportProgress {
  import opened Common
  import opened TransportLifecycle

  /**
   Workers by what has happened to them: `ready`, `closed`, `failed` to close, run `ended`, and `taken` by a stop
   while they were running. Of the stop under way: the start it waits for, the worker it took, the run it waits
   for, and whether its `close()` failed. `waiting` counts the starts that wait for a stop.
   */
  datatype Log = Log(
    ready: set<nat>,
    closed: set<nat>,
    failed: set<nat>,
    ended: set<nat>,
    taken: set<nat>,
    awaited: Option<nat>,
    last: Option<nat>,
    awaitedRun: Option<nat>,
    closeFailed: bool,
    waiting: nat)

  const NOTHING := Log({}, {}, {}, {}, {}, None, None, None, false, 0)

  function SeeTick(l: Log, s: Transport): Log
    requires s.jobs != []
  {
    match s.jobs[0]
    case AfterStart(ok) =>
      if !ok then l
      else
        var taken := if s.worker.Some? && s.running == s.worker then {s.worker.value} else {};
        l.(last := s.worker, taken := l.taken + taken)
    case AfterClose(ok) => if ok then l.(awaitedRun := s.running) else l
    case StartAgain(_) => if l.waiting > 0 then l.(waiting := l.waiting - 1) else l
    case _ => l
  }

  function See(l: Log, s: Transport, a: Action): Log
    requires Enabled(s, a)
  {
    match a
    case Start(_) => if s.stopping.Some? then l.(waiting := l.waiting + 1) else l
    case Stop =>
      if s.stopping.Some? then l
      else
        l.(awaited := if s.starting.Some? then Some(s.starting.value.id) else None, last := None, closeFailed := false)
    case Tick(_) => SeeTick(l, s)
    case Ready(ok) => if ok then l.(ready := l.ready + {s.starting.value.id}) else l
    case DiscardDone(ok) =>
      if ok then l.(closed := l.closed + {s.starting.value.id}) else l.(failed := l.failed + {s.starting.value.id})
    case CloseDone(ok) =>
      var w := s.stopping.value.phase.worker;
      if ok then l.(closed := l.closed + {w}) else l.(failed := l.failed + {w}, closeFailed := true)
    case RunDone => if l.awaitedRun.Some? then l.(ended := l.ended + {l.awaitedRun.value}) else l
  }

  function LogRun(s: Transport, l: Log, actions: seq<Action>): Option<(Transport, Log)>
    decreases |actions|
  {
    if actions == [] then Some((s, l))
    else if !Enabled(s, actions[0]) then None
    else LogRun(Next(s, actions[0]), See(l, s, actions[0]), actions[1..])
  }

  // ----- starts -----------------------------------------------------------------------------

  /** What is known of the start under way, and of its queued reaction. */
  predicate StartKnown(s: Transport, l: Log) {
    && (forall w :: w in l.ready ==> w < s.created)
    && (s.starting.Some? ==>
          var id, phase := s.starting.value.id, s.starting.value.phase;
          && id < s.created
          && (phase.Readying? || phase.Discarding? || phase.Discarded? ==> id !in l.ready)
          && (phase.Started? ==> (phase.ok <==> id in l.ready))
          && (forall i :: 0 <= i < |s.jobs| && s.jobs[i].AfterReady? ==> (s.jobs[i].ok <==> id in l.ready)))
    && (s.running.Some? ==>
          && s.running.value < s.created
          && (s.starting.Some? && s.starting.value.id == s.running.value ==> s.starting.value.phase.Started?))
  }

  /** The reactions queued so far, and nothing else, say how the start went. */
  lemma BeginKnown(s: Transport, l: Log, constructs: bool)
    requires TransportLifecycle.Inv(s) && StartKnown(s, l)
    ensures StartKnown(Begin(s, constructs), l)
  {
  }

  lemma StartJobKnown(s: Transport, l: Log, constructs: bool)
    requires TransportLifecycle.Inv(s) && StartKnown(s, l) && Enabled(s, Tick(constructs)) && StartJob(s.jobs[0])
    ensures StartKnown(Next(s, Tick(constructs)), SeeTick(l, s))
  {
    PopKeeps(s);
  }

  lemma StopJobKnown(s: Transport, l: Log, constructs: bool)
    requires TransportLifecycle.Inv(s) && StartKnown(s, l) && Enabled(s, Tick(constructs)) && StopJob(s.jobs[0])
    ensures StartKnown(Next(s, Tick(constructs)), SeeTick(l, s))
  {
    PopKeeps(s);
  }

  lemma AgainJobKnown(s: Transport, l: Log, constructs: bool)
    requires TransportLifecycle.Inv(s) && StartKnown(s, l) && Enabled(s, Tick(constructs)) && s.jobs[0].StartAgain?
    ensures StartKnown(Next(s, Tick(constructs)), SeeTick(l, s))
  {
    PopKeeps(s);
    BeginKnown(s.(jobs := s.jobs[1..]), l, constructs);
  }

  lemma CompletionKnown(s: Transport, l: Log, a: Action)
    requires TransportLifecycle.Inv(s) && StartKnown(s, l) && Enabled(s, a) && !a.Start? && !a.Stop? && !a.Tick?
    ensures StartKnown(Next(s, a), See(l, s, a))
  {
  }

  lemma CallKnown(s: Transport, l: Log, a: Action)
    requires TransportLifecycle.Inv(s) && StartKnown(s, l) && (a.Start? || a.Stop?)
    ensures StartKnown(Next(s, a), See(l, s, a))
  {
    if a.Start? {
      BeginKnown(s, l, a.constructs);
    }
  }

  lemma StartKnownKept(s: Transport, l: Log, a: Action)
    requires TransportLifecycle.Inv(s) && Enabled(s, a) && StartKnown(s, l)
    ensures StartKnown(Next(s, a), See(l, s, a))
  {
    if a.Start? || a.Stop? {
      CallKnown(s, l, a);
    } else if !a.Tick? {
      CompletionKnown(s, l, a);
    } else if StartJob(s.jobs[0]) {
      StartJobKnown(s, l, a.constructs);
    } else if StopJob(s.jobs[0]) {
      StopJobKnown(s, l, a.constructs);
    } else {
      AgainJobKnown(s, l, a.constructs);
    }
  }

  // ----- stops ------------------------------------------------------------------------------

  /** The start the stop waited for went well, if there was one. */
  predicate AwaitedWell(l: Log) {
    l.awaited.Some? ==> l.awaited.value in l.ready
  }

  /** The worker the stop took, if any, is closed. */
  predicate LastClosed(l: Log) {
    l.last.Some? ==> l.last.value in l.closed
  }

  /** It took a worker that was running. */
  predicate TookRunning(l: Log) {
    l.last.Some? && l.last.value in l.taken
  }

  /** What is known of the stop in each of its phases. */
  predicate PhaseKnown(s: Transport, l: Log, phase: StopPhase) {
    match phase
    case AwaitingStart =>
      && s.starting.Some? && !s.starting.value.phase.Started? && l.awaited == Some(s.starting.value.id)
      && l.last.None? && !l.closeFailed
    case Entering => l.last.None? && !l.closeFailed
    case Closing(w) => l.last == Some(w) && !l.closeFailed && AwaitedWell(l)
    case Closed => AwaitedWell(l) && (!l.closeFailed ==> LastClosed(l))
    case AwaitingRun =>
      AwaitedWell(l) && !l.closeFailed && LastClosed(l) && (TookRunning(l) ==> l.awaitedRun == l.last)
    case Ran =>
      AwaitedWell(l) && !l.closeFailed && LastClosed(l) && (TookRunning(l) ==> l.last.value in l.ended)
    case Stopped(ok) =>
      && (ok <==> AwaitedWell(l) && !l.closeFailed)
      && (ok ==> LastClosed(l) && (TookRunning(l) ==> l.last.value in l.ended))
  }

  predicate JobKnown(l: Log, job: Job) {
    && (job.AfterStart? ==> (job.ok <==> AwaitedWell(l)))
    && (job.AfterClose? ==> (job.ok <==> !l.closeFailed))
  }

  /** The start that was waited for cannot turn out differently any more. */
  predicate AwaitedSettled(s: Transport, l: Log) {
    l.awaited.Some? ==>
      && l.awaited.value < s.created
      && (s.stopping.Some? && !s.stopping.value.phase.AwaitingStart? ==>
            (s.starting.Some? && s.starting.value.id == l.awaited.value ==> s.starting.value.phase.Started?))
  }

  /** While a running worker is torn down, it stays the running one, and no start is under way but a settled one. */
  predicate TeardownKnown(s: Transport, l: Log) {
    Tearing(s) && TookRunning(l) ==>
      && (s.starting.Some? ==> s.starting.value.phase.Started?)
      && (s.stopping.value.phase.Closing? || s.stopping.value.phase.Closed? ==> s.running == l.last)
  }

  /** Every worker that a stop took while it was running failed to close, is closed and over, or is being torn down. */
  predicate TakenKnown(s: Transport, l: Log) {
    forall w :: w in l.taken ==>
      w < s.created && s.worker != Some(w)
      && (w in l.failed || (w in l.closed && w in l.ended) || (Tearing(s) && l.last == Some(w)))
  }

  predicate StopKnown(s: Transport, l: Log) {
    && (s.stopping.Some? ==> PhaseKnown(s, l, s.stopping.value.phase))
    && (forall i :: 0 <= i < |s.jobs| ==> JobKnown(l, s.jobs[i]))
    && AwaitedSettled(s, l) && TeardownKnown(s, l) && TakenKnown(s, l)
    && (l.closeFailed && l.last.Some? ==> l.last.value in l.failed)
  }

  lemma BeginKeepsStop(s: Transport, l: Log, constructs: bool)
    requires TransportLifecycle.Inv(s) && StartKnown(s, l) && StopKnown(s, l) && !Tearing(s)
    ensures StopKnown(Begin(s, constructs), l)
  {
  }

  lemma CallStopKnown(s: Transport, l: Log, a: Action)
    requires TransportLifecycle.Inv(s) && StartKnown(s, l) && StopKnown(s, l) && (a.Start? || a.Stop?)
    ensures StopKnown(Next(s, a), See(l, s, a))
  {
    if a.Start? && s.stopping.None? {
      BeginKeepsStop(s, l, a.constructs);
    }
  }

  /** A job whose effect on the stop is only that it is gone from the queue. */
  lemma PoppedKnown(s: Transport, l: Log)
    requires StopKnown(s, l) && s.jobs != []
    ensures StopKnown(s.(jobs := s.jobs[1..]), l)
    ensures JobKnown(l, s.jobs[0])
  {
  }

  lemma SettleStartKnown(s: Transport, l: Log, ok: bool)
    requires StopKnown(s, l) && s.starting.Some? && !s.starting.value.phase.Started?
    requires ok <==> s.starting.value.id in l.ready
    ensures StopKnown(SettleStart(s, ok), l)
  {
  }

  lemma StartJobStopKnown(s: Transport, l: Log, constructs: bool)
    requires TransportLifecycle.Inv(s) && StartKnown(s, l) && StopKnown(s, l)
    requires Enabled(s, Tick(constructs)) && StartJob(s.jobs[0])
    ensures StopKnown(Next(s, Tick(constructs)), SeeTick(l, s))
  {
    PopKeeps(s);
    PoppedKnown(s, l);
    var popped := s.(jobs := s.jobs[1..]);
    match s.jobs[0]
    case AfterReady(ok) =>
      if ok {
        RunsNow(popped, l);
        SettleStartKnown(popped.(running := Some(s.starting.value.id)), l, true);
      }
    case AfterDiscard => SettleStartKnown(popped, l, false);
    case StartFinally =>
  }

  /** A worker that begins to run is not one that a stop has taken. */
  lemma RunsNow(s: Transport, l: Log)
    requires StopKnown(s, l) && s.starting.Some? && !s.starting.value.phase.Started?
    ensures StopKnown(s.(running := Some(s.starting.value.id)), l)
  {
  }

  lemma AfterStartKnown(s: Transport, l: Log, constructs: bool)
    requires TransportLifecycle.Inv(s) && StartKnown(s, l) && StopKnown(s, l)
    requires Enabled(s, Tick(constructs)) && s.jobs[0].AfterStart?
    ensures StopKnown(Next(s, Tick(constructs)), SeeTick(l, s))
  {
    PopKeeps(s);
    PoppedKnown(s, l);
  }

  lemma OtherStopJobKnown(s: Transport, l: Log, constructs: bool)
    requires TransportLifecycle.Inv(s) && StartKnown(s, l) && StopKnown(s, l)
    requires Enabled(s, Tick(constructs)) && StopJob(s.jobs[0]) && !s.jobs[0].AfterStart?
    ensures StopKnown(Next(s, Tick(constructs)), SeeTick(l, s))
  {
    PopKeeps(s);
    PoppedKnown(s, l);
  }

  lemma AgainStopKnown(s: Transport, l: Log, constructs: bool)
    requires TransportLifecycle.Inv(s) && StartKnown(s, l) && StopKnown(s, l)
    requires Enabled(s, Tick(constructs)) && s.jobs[0].StartAgain?
    ensures StopKnown(Next(s, Tick(constructs)), SeeTick(l, s))
  {
    PopKeeps(s);
    PoppedKnown(s, l);
    BeginKeepsStop(s.(jobs := s.jobs[1..]), l, constructs);
  }

  lemma StartCompletionStopKnown(s: Transport, l: Log, a: Action)
    requires QueueOk(s) && StopKnown(s, l) && Enabled(s, a) && (a.Ready? || a.DiscardDone?)
    ensures StopKnown(Next(s, a), See(l, s, a))
  {
  }

  lemma StopCompletionStopKnown(s: Transport, l: Log, a: Action)
    requires QueueOk(s) && StopKnown(s, l) && Enabled(s, a) && (a.CloseDone? || a.RunDone?)
    ensures StopKnown(Next(s, a), See(l, s, a))
  {
  }

  lemma CompletionStopKnown(s: Transport, l: Log, a: Action)
    requires QueueOk(s) && StopKnown(s, l) && Enabled(s, a) && !a.Start? && !a.Stop? && !a.Tick?
    ensures StopKnown(Next(s, a), See(l, s, a))
  {
    if a.Ready? || a.DiscardDone? {
      StartCompletionStopKnown(s, l, a);
    } else {
      StopCompletionStopKnown(s, l, a);
    }
  }

  lemma StopKnownKept(s: Transport, l: Log, a: Action)
    requires TransportLifecycle.Inv(s) && StartKnown(s, l) && StopKnown(s, l) && Enabled(s, a)
    ensures StopKnown(Next(s, a), See(l, s, a))
  {
    if a.Start? || a.Stop? {
      CallStopKnown(s, l, a);
    } else if !a.Tick? {
      CompletionStopKnown(s, l, a);
    } else if StartJob(s.jobs[0]) {
      StartJobStopKnown(s, l, a.constructs);
    } else if s.jobs[0].AfterStart? {
      AfterStartKnown(s, l, a.constructs);
    } else if StopJob(s.jobs[0]) {
      OtherStopJobKnown(s, l, a.constructs);
    } else {
      AgainStopKnown(s, l, a.constructs);
    }
  }

  // ----- nothing is lost --------------------------------------------------------------------

  predicate HasStartJob(jobs: seq<Job>) {
    exists i :: 0 <= i < |jobs| && StartJob(jobs[i])
  }

  predicate HasStopJob(jobs: seq<Job>) {
    exists i :: 0 <= i < |jobs| && StopJob(jobs[i])
  }

  /** The starts whose turn has come, after the stop they waited for. */
  function Resumed(jobs: seq<Job>): nat {
    if jobs == [] then 0 else (if jobs[0].StartAgain? then 1 else 0) + Resumed(jobs[1..])
  }

  lemma {:induction false} ResumedAppend(jobs: seq<Job>, more: seq<Job>)
    ensures Resumed(jobs + more) == Resumed(jobs) + Resumed(more)
    decreases |jobs|
  {
    if jobs == [] {
      assert jobs + more == more;
    } else {
      assert (jobs + more)[1..] == jobs[1..] + more;
      ResumedAppend(jobs[1..], more);
    }
  }

  lemma {:induction false} ResumedRepeat(ok: bool, n: nat)
    ensures Resumed(Repeat(StartAgain(ok), n)) == n
    decreases n
  {
    if n > 0 {
      assert Repeat(StartAgain(ok), n)[1..] == Repeat(StartAgain(ok), n - 1);
      ResumedRepeat(ok, n - 1);
    }
  }

  /** Every promise that has not settled waits for I/O, for the other promise, or for a job in the queue. */
  predicate Waits(s: Transport) {
    && (s.starting.Some? ==>
          s.starting.value.phase.Readying? || s.starting.value.phase.Discarding? || HasStartJob(s.jobs))
    && (s.stopping.Some? ==>
          || (s.stopping.value.phase.AwaitingStart? && s.starting.Some? && !s.starting.value.phase.Started?)
          || s.stopping.value.phase.Closing? || s.stopping.value.phase.AwaitingRun? || HasStopJob(s.jobs))
    && (s.stopping.Some? && s.stopping.value.phase.Stopped? ==> s.stopping.value.waiters == 0)
  }

  /** No start that waits for a stop is forgotten, or counted twice. */
  predicate Counted(s: Transport, l: Log) {
    l.waiting == Resumed(s.jobs) + if s.stopping.Some? then s.stopping.value.waiters else 0
  }

  lemma AppendKeepsJobs(jobs: seq<Job>, more: seq<Job>)
    ensures HasStartJob(jobs) || HasStartJob(more) ==> HasStartJob(jobs + more)
    ensures HasStopJob(jobs) || HasStopJob(more) ==> HasStopJob(jobs + more)
  {
    if i :| 0 <= i < |jobs| && StartJob(jobs[i]) {
      assert (jobs + more)[i] == jobs[i];
    }
    if i :| 0 <= i < |more| && StartJob(more[i]) {
      assert (jobs + more)[|jobs| + i] == more[i];
    }
    if i :| 0 <= i < |jobs| && StopJob(jobs[i]) {
      assert (jobs + more)[i] == jobs[i];
    }
    if i :| 0 <= i < |more| && StopJob(more[i]) {
      assert (jobs + more)[|jobs| + i] == more[i];
    }
  }

  lemma PopKeepsJobs(jobs: seq<Job>)
    requires jobs != []
    ensures HasStartJob(jobs) && !StartJob(jobs[0]) ==> HasStartJob(jobs[1..])
    ensures HasStopJob(jobs) && !StopJob(jobs[0]) ==> HasStopJob(jobs[1..])
  {
    if HasStartJob(jobs) && !StartJob(jobs[0]) {
      var i :| 0 <= i < |jobs| && StartJob(jobs[i]);
      assert jobs[1..][i - 1] == jobs[i];
    }
    if HasStopJob(jobs) && !StopJob(jobs[0]) {
      var i :| 0 <= i < |jobs| && StopJob(jobs[i]);
      assert jobs[1..][i - 1] == jobs[i];
    }
  }

  lemma SettleStartWaits(s: Transport, ok: bool)
    requires s.starting.Some? && !s.starting.value.phase.Started?
    requires s.stopping.Some? ==> s.stopping.value.phase.AwaitingStart? || s.stopping.value.phase.Closing?
                                  || s.stopping.value.phase.AwaitingRun? || HasStopJob(s.jobs)
    requires s.stopping.Some? && s.stopping.value.phase.Stopped? ==> s.stopping.value.waiters == 0
    ensures Waits(SettleStart(s, ok)) && Resumed(SettleStart(s, ok).jobs) == Resumed(s.jobs)
  {
    var settled := s.jobs + [StartFinally];
    assert [StartFinally][0].StartFinally? && [AfterStart(ok)][0].AfterStart?;
    AppendKeepsJobs(s.jobs, [StartFinally]);
    AppendKeepsJobs(settled, [AfterStart(ok)]);
    ResumedAppend(s.jobs, [StartFinally]);
    ResumedAppend(settled, [AfterStart(ok)]);
  }

  lemma SettleStopWaits(s: Transport, ok: bool)
    requires s.stopping.Some?
    requires s.starting.Some? ==>
               s.starting.value.phase.Readying? || s.starting.value.phase.Discarding? || HasStartJob(s.jobs)
    ensures Waits(SettleStop(s, ok))
    ensures Resumed(SettleStop(s, ok).jobs) == Resumed(s.jobs) + s.stopping.value.waiters
  {
    var again := Repeat(StartAgain(ok), s.stopping.value.waiters);
    assert [StopFinally][0].StopFinally?;
    AppendKeepsJobs(s.jobs, [StopFinally]);
    AppendKeepsJobs(s.jobs + [StopFinally], again);
    ResumedAppend(s.jobs, [StopFinally]);
    ResumedAppend(s.jobs + [StopFinally], again);
    ResumedRepeat(ok, s.stopping.value.waiters);
  }

  lemma PushWaits(jobs: seq<Job>, job: Job)
    ensures HasStartJob(jobs + [job]) <==> HasStartJob(jobs) || StartJob(job)
    ensures HasStopJob(jobs + [job]) <==> HasStopJob(jobs) || StopJob(job)
    ensures Resumed(jobs + [job]) == Resumed(jobs) + if job.StartAgain? then 1 else 0
  {
    assert [job][0] == job && [job][1..] == [];
    AppendKeepsJobs(jobs, [job]);
    ResumedAppend(jobs, [job]);
    if i :| 0 <= i < |jobs + [job]| && StartJob((jobs + [job])[i]) {
      assert i < |jobs| ==> StartJob(jobs[i]);
    }
    if i :| 0 <= i < |jobs + [job]| && StopJob((jobs + [job])[i]) {
      assert i < |jobs| ==> StopJob(jobs[i]);
    }
  }

  lemma BeginWaits(s: Transport, constructs: bool)
    requires Waits(s)
    ensures Waits(Begin(s, constructs)) && Resumed(Begin(s, constructs).jobs) == Resumed(s.jobs)
  {
    PushWaits(s.jobs, StartFinally);
  }

  lemma CallWaits(s: Transport, l: Log, a: Action)
    requires Waits(s) && Counted(s, l) && (a.Start? || a.Stop?)
    ensures Waits(Next(s, a)) && Counted(Next(s, a), See(l, s, a))
  {
    if a.Start? {
      BeginWaits(s, a.constructs);
    }
    PushWaits(s.jobs, AfterStart(true));
    PushWaits(s.jobs, AfterStart(false));
    PushWaits(s.jobs, StartAgain(true));
    PushWaits(s.jobs, StartAgain(false));
  }

  lemma CompletionWaits(s: Transport, l: Log, a: Action)
    requires Waits(s) && Counted(s, l) && Enabled(s, a) && !a.Start? && !a.Stop? && !a.Tick?
    ensures Waits(Next(s, a)) && Counted(Next(s, a), See(l, s, a))
  {
    var job := match a
      case Ready(ok) => AfterReady(ok)
      case DiscardDone(_) => AfterDiscard
      case CloseDone(ok) => AfterClose(ok)
      case _ => AfterRun;
    PushWaits(s.jobs, job);
  }

  lemma PoppedStartJob(s: Transport)
    requires QueueOk(s) && Waits(s) && s.jobs != [] && StartJob(s.jobs[0])
    ensures s.starting.Some? && StartMatches(s, s.jobs[0]) && Resumed(s.jobs[1..]) == Resumed(s.jobs)
    ensures HasStopJob(s.jobs) ==> HasStopJob(s.jobs[1..])
  {
    assert JobOk(s, s.jobs[0]);
    PopKeepsJobs(s.jobs);
  }

  lemma StartJobWaits(s: Transport, l: Log, constructs: bool)
    requires QueueOk(s) && Waits(s) && Counted(s, l) && Enabled(s, Tick(constructs)) && StartJob(s.jobs[0])
    ensures Waits(Next(s, Tick(constructs))) && Counted(Next(s, Tick(constructs)), SeeTick(l, s))
  {
    PoppedStartJob(s);
    var popped := s.(jobs := s.jobs[1..]);
    match s.jobs[0]
    case AfterReady(ok) =>
      if ok { SettleStartWaits(popped.(running := Some(s.starting.value.id)), true); }
    case AfterDiscard => SettleStartWaits(popped, false);
    case StartFinally =>
  }

  lemma PoppedStopJob(s: Transport)
    requires QueueOk(s) && Waits(s) && s.jobs != [] && StopJob(s.jobs[0])
    ensures s.stopping.Some? && StopMatches(s, s.jobs[0]) && Resumed(s.jobs[1..]) == Resumed(s.jobs)
    ensures s.starting.Some? ==>
              s.starting.value.phase.Readying? || s.starting.value.phase.Discarding? || HasStartJob(s.jobs[1..])
  {
    assert JobOk(s, s.jobs[0]);
    PopKeepsJobs(s.jobs);
  }

  predicate StopJobReady(s: Transport, l: Log, constructs: bool) {
    QueueOk(s) && Waits(s) && Counted(s, l) && Enabled(s, Tick(constructs)) && StopJob(s.jobs[0])
  }

  lemma AfterStartWaits(s: Transport, l: Log, constructs: bool)
    requires StopJobReady(s, l, constructs) && s.jobs[0].AfterStart?
    ensures Waits(Next(s, Tick(constructs))) && Counted(Next(s, Tick(constructs)), SeeTick(l, s))
  {
    PoppedStopJob(s);
    var popped := s.(jobs := s.jobs[1..]);
    if s.jobs[0].ok {
      PushWaits(popped.jobs, AfterClose(true));
    } else {
      SettleStopWaits(popped, false);
    }
  }

  lemma AfterCloseWaits(s: Transport, l: Log, constructs: bool)
    requires StopJobReady(s, l, constructs) && s.jobs[0].AfterClose?
    ensures Waits(Next(s, Tick(constructs))) && Counted(Next(s, Tick(constructs)), SeeTick(l, s))
  {
    PoppedStopJob(s);
    var popped := s.(jobs := s.jobs[1..]);
    if s.jobs[0].ok {
      PushWaits(popped.jobs, AfterRun);
    } else {
      SettleStopWaits(popped, false);
    }
  }

  lemma LastStopJobWaits(s: Transport, l: Log, constructs: bool)
    requires StopJobReady(s, l, constructs) && (s.jobs[0].AfterRun? || s.jobs[0].StopFinally?)
    ensures Waits(Next(s, Tick(constructs))) && Counted(Next(s, Tick(constructs)), SeeTick(l, s))
  {
    PoppedStopJob(s);
    if s.jobs[0].AfterRun? {
      SettleStopWaits(s.(jobs := s.jobs[1..], running := None), true);
    }
  }

  lemma StopJobWaits(s: Transport, l: Log, constructs: bool)
    requires StopJobReady(s, l, constructs)
    ensures Waits(Next(s, Tick(constructs))) && Counted(Next(s, Tick(constructs)), SeeTick(l, s))
  {
    if s.jobs[0].AfterStart? {
      AfterStartWaits(s, l, constructs);
    } else if s.jobs[0].AfterClose? {
      AfterCloseWaits(s, l, constructs);
    } else {
      LastStopJobWaits(s, l, constructs);
    }
  }

  lemma AgainWaits(s: Transport, l: Log, constructs: bool)
    requires Waits(s) && Counted(s, l) && Enabled(s, Tick(constructs)) && s.jobs[0].StartAgain?
    ensures Waits(Next(s, Tick(constructs))) && Counted(Next(s, Tick(constructs)), SeeTick(l, s))
  {
    PopKeepsJobs(s.jobs);
    BeginWaits(s.(jobs := s.jobs[1..]), constructs);
  }

  lemma WaitsKept(s: Transport, l: Log, a: Action)
    requires TransportLifecycle.Inv(s) && Waits(s) && Counted(s, l) && Enabled(s, a)
    ensures Waits(Next(s, a)) && Counted(Next(s, a), See(l, s, a))
  {
    if a.Start? || a.Stop? {
      CallWaits(s, l, a);
    } else if !a.Tick? {
      CompletionWaits(s, l, a);
    } else if StartJob(s.jobs[0]) {
      StartJobWaits(s, l, a.constructs);
    } else if StopJob(s.jobs[0]) {
      StopJobWaits(s, l, a.constructs);
    } else {
      AgainWaits(s, l, a.constructs);
    }
  }

  // ----- a finished stop leaves nothing -----------------------------------------------------

  /**
   From the moment a stop takes the worker until it has settled well, there is none; and the starts that waited
   for it go on exactly if it settled well.
   */
  predicate Emptied(s: Transport) {
    && (Tearing(s) || (s.stopping.Some? && s.stopping.value.phase == Stopped(true)) ==> s.worker.None?)
    && (forall i, j :: 0 <= i < j < |s.jobs| ==> !(s.jobs[i].StartAgain? && s.jobs[j].StopFinally?))
    && (s.stopping.Some? && s.stopping.value.phase.Stopped? ==>
          forall i :: 0 <= i < |s.jobs| && s.jobs[i].StartAgain? ==> s.jobs[i].ok == s.stopping.value.phase.ok)
  }

  lemma EmptiedByStart(s: Transport, constructs: bool)
    requires QueueOk(s) && Emptied(s) && Enabled(s, Tick(constructs)) && StartJob(s.jobs[0])
    ensures Emptied(Next(s, Tick(constructs)))
  {
  }

  lemma EmptiedByStop(s: Transport, constructs: bool)
    requires QueueOk(s) && Emptied(s) && Enabled(s, Tick(constructs)) && StopJob(s.jobs[0])
    ensures Emptied(Next(s, Tick(constructs)))
  {
    PopQueue(s);
  }

  /** A start is not resumed while its stop is still settling. */
  lemma EmptiedByAgain(s: Transport, constructs: bool)
    requires QueueOk(s) && Waits(s) && Emptied(s) && Enabled(s, Tick(constructs)) && s.jobs[0].StartAgain?
    ensures Emptied(Next(s, Tick(constructs)))
  {
    assert JobOk(s, s.jobs[0]);
  }

  lemma PopQueue(s: Transport)
    requires QueueOk(s) && s.jobs != []
    ensures JobOk(s, s.jobs[0])
    ensures s.jobs[0].AfterStart? ==> forall i :: 1 <= i < |s.jobs| ==> !s.jobs[i].StartAgain?
    ensures Tearing(s) ==> forall i :: 0 <= i < |s.jobs| ==> !s.jobs[i].StartAgain?
    ensures StopJob(s.jobs[0]) ==> forall i :: 1 <= i < |s.jobs| ==> !StopJob(s.jobs[i])
  {
    forall i | 0 <= i < |s.jobs| ensures JobOk(s, s.jobs[i]) {
    }
  }

  lemma EmptiedKept(s: Transport, a: Action)
    requires QueueOk(s) && Waits(s) && Emptied(s) && Enabled(s, a)
    ensures Emptied(Next(s, a))
  {
    if a.Tick? {
      if StartJob(s.jobs[0]) {
        EmptiedByStart(s, a.constructs);
      } else if StopJob(s.jobs[0]) {
        EmptiedByStop(s, a.constructs);
      } else {
        EmptiedByAgain(s, a.constructs);
      }
    } else {
      EmptiedByOthers(s, a);
    }
  }

  lemma EmptiedByOthers(s: Transport, a: Action)
    requires Emptied(s) && Enabled(s, a) && !a.Tick?
    ensures Emptied(Next(s, a))
  {
  }

  // ----- every run --------------------------------------------------------------------------

  predicate AllInv(s: Transport, l: Log) {
    TransportLifecycle.Inv(s) && StartKnown(s, l) && StopKnown(s, l) && Waits(s) && Counted(s, l) && Emptied(s)
  }

  lemma {:induction false} AllRun(s: Transport, l: Log, actions: seq<Action>)
    requires AllInv(s, l)
    ensures var end := LogRun(s, l, actions);
            && (end.Some? <==> Run(s, actions).Some?)
            && (end.Some? ==> end.value.0 == Run(s, actions).value && AllInv(end.value.0, end.value.1))
    decreases |actions|
  {
    if actions != [] && Enabled(s, actions[0]) {
      var a := actions[0];
      TransportLifecycle.NextKeepsInv(s, a);
      StartKnownKept(s, l, a);
      StopKnownKept(s, l, a);
      WaitsKept(s, l, a);
      EmptiedKept(s, a);
      AllRun(Next(s, a), See(l, s, a), actions[1..]);
    }
  }

  /** For every interleaving: a start settles well exactly when its own worker became ready. */
  lemma StartSettlesExactly(actions: seq<Action>)
    requires Run(IDLE, actions).Some?
    ensures var end := LogRun(IDLE, NOTHING, actions);
            end.Some? && end.value.0 == Run(IDLE, actions).value &&
            var (s, l) := end.value;
            s.starting.Some? && s.starting.value.phase.Started? ==>
              (s.starting.value.phase.ok <==> s.starting.value.id in l.ready)
  {
    AllRun(IDLE, NOTHING, actions);
  }

  /**
   For every interleaving: a stop settles well exactly when the start it waited for did and its `close()` did not
   fail. It has then closed the worker it took, waited for the end of its run if it was running, and left no
   worker open but one that a failed start is still discarding, or ones that failed to close; and the starts
   that waited for it go on exactly if it settled well.
   */
  lemma StopSettlesExactly(actions: seq<Action>)
    requires Run(IDLE, actions).Some?
    ensures var end := LogRun(IDLE, NOTHING, actions);
            end.Some? && end.value.0 == Run(IDLE, actions).value &&
            var (s, l) := end.value;
            s.stopping.Some? && s.stopping.value.phase.Stopped? ==>
              var ok := s.stopping.value.phase.ok;
              && (ok <==> AwaitedWell(l) && !l.closeFailed)
              && (ok ==> LastClosed(l) && (TookRunning(l) ==> l.last.value in l.ended))
              && (ok ==> s.worker.None? && forall w :: w in s.open && w !in s.leaked ==>
                    s.starting == Some(Starting(w, Discarding)))
              && (forall i :: 0 <= i < |s.jobs| && s.jobs[i].StartAgain? ==> s.jobs[i].ok == ok)
  {
    AllRun(IDLE, NOTHING, actions);
  }

  /**
   For every interleaving: a worker is constructed only after every running worker that a stop has taken was
   closed and its run has ended, or has failed to close.
   */
  lemma NothingOpensBeforeTheRunEnds(actions: seq<Action>, a: Action)
    requires Run(IDLE, actions).Some?
    requires Enabled(Run(IDLE, actions).value, a) && Opens(Run(IDLE, actions).value, a)
    ensures var end := LogRun(IDLE, NOTHING, actions);
            end.Some? && end.value.0 == Run(IDLE, actions).value &&
            var l := end.value.1;
            forall w :: w in l.taken ==> w in l.failed || (w in l.closed && w in l.ended)
  {
    AllRun(IDLE, NOTHING, actions);
    var s := Run(IDLE, actions).value;
    assert !Tearing(s) by {
      if a.Tick? {
        assert JobOk(s, s.jobs[0]);
      }
    }
  }

  // ----- every call settles -----------------------------------------------------------------

  function StartRank(s: Transport): nat {
    if s.starting.None? then 0
    else match s.starting.value.phase
      case Readying => 5
      case Reacting => 4
      case Discarding => 3
      case Discarded => 2
      case Started(_) => 1
  }

  function StopRank(s: Transport): nat {
    if s.stopping.None? then 0
    else match s.stopping.value.phase
      case AwaitingStart => 7
      case Entering => 6
      case Closing(_) => 5
      case Closed => 4
      case AwaitingRun => 3
      case Ran => 2
      case Stopped(_) => 1
  }

  /** How many steps are left if nobody calls again. */
  function Left(s: Transport, l: Log): nat {
    6 * l.waiting + StartRank(s) + StopRank(s)
  }

  predicate IsCall(a: Action) {
    a.Start? || a.Stop?
  }

  lemma StartJobIsLeft(s: Transport, l: Log, constructs: bool)
    requires Enabled(s, Tick(constructs)) && StartJob(s.jobs[0]) && StartMatches(s, s.jobs[0])
    ensures Left(Next(s, Tick(constructs)), SeeTick(l, s)) < Left(s, l)
  {
  }

  lemma StopJobIsLeft(s: Transport, l: Log, constructs: bool)
    requires Enabled(s, Tick(constructs)) && StopJob(s.jobs[0]) && StopMatches(s, s.jobs[0])
    ensures Left(Next(s, Tick(constructs)), SeeTick(l, s)) < Left(s, l)
  {
  }

  lemma AgainIsLeft(s: Transport, l: Log, constructs: bool)
    requires Enabled(s, Tick(constructs)) && s.jobs[0].StartAgain? && Counted(s, l)
    ensures Left(Next(s, Tick(constructs)), SeeTick(l, s)) < Left(s, l)
  {
  }

  lemma JobIsLeft(s: Transport, l: Log, constructs: bool)
    requires QueueOk(s) && Counted(s, l) && Enabled(s, Tick(constructs))
    ensures Left(Next(s, Tick(constructs)), SeeTick(l, s)) < Left(s, l)
  {
    assert JobOk(s, s.jobs[0]);
    if StartJob(s.jobs[0]) {
      StartJobIsLeft(s, l, constructs);
    } else if StopJob(s.jobs[0]) {
      StopJobIsLeft(s, l, constructs);
    } else {
      AgainIsLeft(s, l, constructs);
    }
  }

  lemma StepsAreLeft(s: Transport, l: Log, a: Action)
    requires AllInv(s, l) && Enabled(s, a) && !IsCall(a)
    ensures Left(Next(s, a), See(l, s, a)) < Left(s, l)
  {
    if a.Tick? {
      JobIsLeft(s, l, a.constructs);
    }
  }

  /** Without new calls, as long as anything is under way, some step is possible; when nothing is, nothing waits. */
  lemma SomethingMoves(s: Transport, l: Log)
    requires AllInv(s, l)
    ensures if AtRest(s) && s.jobs == [] then Left(s, l) == 0
            else exists a :: Enabled(s, a) && !IsCall(a)
  {
    if s.jobs != [] {
      assert JobOk(s, s.jobs[0]);
      assert Enabled(s, Tick(true));
    } else if s.starting.Some? {
      assert Enabled(s, Action.Ready(true)) || Enabled(s, DiscardDone(true));
    } else if s.stopping.Some? {
      assert Enabled(s, CloseDone(true)) || Enabled(s, RunDone);
    }
  }

  /**
   For every interleaving, and every way it goes on without new calls: it takes no more than `Left` steps, and if
   no step is possible any more, every start and every stop has settled and no start still waits.
   */
  lemma {:induction false} EveryCallSettles(s: Transport, l: Log, more: seq<Action>)
    requires AllInv(s, l) && LogRun(s, l, more).Some?
    requires forall i :: 0 <= i < |more| ==> !IsCall(more[i])
    ensures |more| <= Left(s, l)
    ensures var (end, log) := LogRun(s, l, more).value;
            (forall a :: Enabled(end, a) ==> IsCall(a)) ==> AtRest(end) && end.jobs == [] && log.waiting == 0
    decreases |more|
  {
    if more == [] {
      SomethingMoves(s, l);
    } else {
      var a := more[0];
      StepsAreLeft(s, l, a);
      AllRun(s, l, [a]);
      assert LogRun(s, l, [a]) == Some((Next(s, a), See(l, s, a)));
      EveryCallSettles(Next(s, a), See(l, s, a), more[1..]);
    }
  }

  // ----- what one call brings about ---------------------------------------------------------

  lemma RunCons(s: Transport, a: Action, more: seq<Action>)
    requires Enabled(s, a)
    ensures Run(s, [a] + more) == Run(Next(s, a), more)
  {
    assert ([a] + more)[1..] == more;
  }

  /** The reactions of one start, and nothing else, are run. */
  lemma StartBringsWorker(s: Transport)
    requires AtRest(s) && s.jobs == [] && s.worker.None?
    ensures Run(s, [Start(true), Action.Ready(true), Tick(true), Tick(true)]) ==
              Some(s.(worker := Some(s.created), running := Some(s.created), open := s.open + {s.created},
                      created := s.created + 1))
  {
    var s1 := Next(s, Start(true));
    var s2 := Next(s1, Action.Ready(true));
    assert s2.jobs == [AfterReady(true)];
    var s3 := Next(s2, Tick(true));
    assert s3.jobs == [StartFinally];
    var s4 := Next(s3, Tick(true));
    var r3: seq<Action> := [Tick(true)] + [];
    var r2 := [Tick(true)] + r3;
    var r1 := [Action.Ready(true)] + r2;
    RunCons(s, Start(true), r1);
    RunCons(s1, Action.Ready(true), r2);
    RunCons(s2, Tick(true), r3);
    RunCons(s3, Tick(true), []);
    assert [Start(true)] + r1 == [Start(true), Action.Ready(true), Tick(true), Tick(true)];
  }

  /** A start whose worker cannot be constructed has failed already; the next one may try again. */
  lemma ConstructionFails(s: Transport)
    requires AtRest(s) && s.jobs == [] && s.worker.None?
    ensures var failed := Next(s, Start(false));
            && failed.starting.Some? && failed.starting.value.phase == Started(false)
            && Enabled(failed, Tick(true)) && Next(failed, Tick(true)) == s.(created := s.created + 1)
  {
  }

  /** A worker that does not become ready is closed again; it stays open only if that fails. */
  lemma UnreadyIsDiscarded(s: Transport, ok: bool)
    requires AtRest(s) && s.jobs == [] && s.worker.None? && s.created !in s.open && s.created !in s.leaked
    ensures Run(s, [Start(true), Action.Ready(false), Tick(true), DiscardDone(ok), Tick(true), Tick(true)]) ==
              Some(s.(open := if ok then s.open else s.open + {s.created},
                      leaked := if ok then s.leaked else s.leaked + {s.created}, created := s.created + 1))
  {
    var s1 := Next(s, Start(true));
    var s2 := Next(s1, Action.Ready(false));
    assert s2.jobs == [AfterReady(false)];
    var s3 := Next(s2, Tick(true));
    var s4 := Next(s3, DiscardDone(ok));
    assert s4.jobs == [AfterDiscard];
    var s5 := Next(s4, Tick(true));
    assert s5.jobs == [StartFinally];
    var s6 := Next(s5, Tick(true));
    assert s6.open == if ok then s.open else s.open + {s.created};
    assert s6.leaked == if ok then s.leaked else s.leaked + {s.created};
    var r5: seq<Action> := [Tick(true)] + [];
    var r4 := [Tick(true)] + r5;
    var r3 := [DiscardDone(ok)] + r4;
    var r2 := [Tick(true)] + r3;
    var r1 := [Action.Ready(false)] + r2;
    RunCons(s, Start(true), r1);
    RunCons(s1, Action.Ready(false), r2);
    RunCons(s2, Tick(true), r3);
    RunCons(s3, DiscardDone(ok), r4);
    RunCons(s4, Tick(true), r5);
    RunCons(s5, Tick(true), []);
    assert [Start(true)] + r1
        == [Start(true), Action.Ready(false), Tick(true), DiscardDone(ok), Tick(true), Tick(true)];
  }

  /** Stopping a running worker closes it, waits for its run, and leaves nothing. */
  lemma StopTakesWorker(s: Transport)
    requires AtRest(s) && s.jobs == [] && s.worker.Some? && s.running.Some?
    ensures Run(s, [Stop, Tick(true), CloseDone(true), Tick(true), RunDone, Tick(true), Tick(true)]) ==
              Some(s.(worker := None, running := None, open := s.open - {s.worker.value},
                      leaked := s.leaked - {s.worker.value}))
  {
    var s1 := Next(s, Stop);
    assert s1.jobs == [AfterStart(true)];
    var s2 := Next(s1, Tick(true));
    var s3 := Next(s2, CloseDone(true));
    assert s3.jobs == [AfterClose(true)];
    var s4 := Next(s3, Tick(true));
    var s5 := Next(s4, RunDone);
    assert s5.jobs == [AfterRun];
    var s6 := Next(s5, Tick(true));
    assert s6.jobs == [StopFinally];
    var r6: seq<Action> := [Tick(true)] + [];
    var r5 := [Tick(true)] + r6;
    var r4 := [RunDone] + r5;
    var r3 := [Tick(true)] + r4;
    var r2 := [CloseDone(true)] + r3;
    var r1 := [Tick(true)] + r2;
    RunCons(s, Stop, r1);
    RunCons(s1, Tick(true), r2);
    RunCons(s2, CloseDone(true), r3);
    RunCons(s3, Tick(true), r4);
    RunCons(s4, RunDone, r5);
    RunCons(s5, Tick(true), r6);
    RunCons(s6, Tick(true), []);
    assert [Stop] + r1 == [Stop, Tick(true), CloseDone(true), Tick(true), RunDone, Tick(true), Tick(true)];
  }

  /** A start joins the one under way, or does nothing beside a worker; a stop is always under way after its call. */
  lemma CallsJoin(s: Transport, constructs: bool)
    ensures s.stopping.None? && (s.starting.Some? || s.worker.Some?) ==> Next(s, Start(constructs)) == s
    ensures s.stopping.Some? ==> Next(s, Stop) == s
    ensures Next(s, Stop).stopping.Some? && Next(s, Stop).starting == s.starting && Next(s, Stop).worker == s.worker
  {
  }
}
