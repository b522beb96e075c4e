/**
 The approval protocol end to end: one plan session, the graph's persisted threads, and an adversary
 that generates plans on any thread at any time, answers with any state a thread ever had, resumes
 reviews with foreign decisions, and executes the session's own requests late or repeatedly.
 */
module ApprovalFlow {
  import opened Common
  import opened UiEvents
  import opened PlanGraph
  import opened PlanSession

  /** A review run recorded `approved` for `plan`; `own` if it executed a request of this session. */
  datatype Record = Record(threadId: Id, plan: CommittedUi, approved: bool, own: bool)

  datatype World = World(
    machine: Machine,
    threads: map<Id, PlanState>,
    past: set<(Id, PlanState)>,
    plans: map<string, CommittedUi>,
    requests: set<(Id, Payload)>,
    records: seq<Record>)

  const GENESIS := World(START, map[], {}, map[], {}, [])

  datatype Event =
    | Client(action: Action)
    | Generated(threadId: Id, g: string, texts: seq<string>)
    | Reviewed(threadId: Id, reviewId: Option<Id>, decision: Decision, own: bool)

  function StateOf(w: World, threadId: Id): PlanState {
    if threadId in w.threads then w.threads[threadId] else PlanState(None, None)
  }

  /** A saved plan as the client reads it back. */
  function Reread(c: Compiler, plan: CommittedUi): CommittedUi {
    plan.(spec := c.reread(plan.spec))
  }

  /** `state` is what the client makes of `saved`. */
  predicate ReadAs(c: Compiler, saved: PlanState, state: ThreadState) {
    && state.approved == saved.approved
    && state.ui == if saved.ui.Some? then Some(Reread(c, saved.ui.value)) else None
  }

  /** The thread has held this state, unless the state is the one of an empty thread. */
  ghost predicate Held(c: Compiler, past: set<(Id, PlanState)>, threadId: Id, state: ThreadState) {
    state.ui.Some? || state.approved.Some? ==> exists saved :: (threadId, saved) in past && ReadAs(c, saved, state)
  }

  /** Thread states are answered from the past, generation ids are fresh, own reviews were requested. */
  ghost predicate Possible(c: Compiler, w: World, e: Event) {
    match e
    case Client(a) =>
      && Enabled(w.machine, a)
      && (a.Deliver? && a.reply.State? ==> Held(c, w.past, w.machine.tasks[a.index].threadId, a.reply.state))
    case Generated(_, g, texts) => g !in w.plans && Committable(c, texts)
    case Reviewed(threadId, reviewId, decision, own) => own ==> (threadId, Resume(reviewId, decision)) in w.requests
  }

  function Requested(tasks: seq<Task>): set<(Id, Payload)> {
    set i | 0 <= i < |tasks| && tasks[i].CreateRun? :: (tasks[i].threadId, tasks[i].payload)
  }

  function Save(w: World, threadId: Id, state: PlanState): World {
    w.(threads := w.threads[threadId := state], past := w.past + {(threadId, state)})
  }

  ghost function Happen(c: Compiler, w: World, e: Event): World
    requires Possible(c, w, e)
  {
    match e
    case Client(a) =>
      var machine := Next(c, w.machine, a);
      w.(machine := machine, requests := w.requests + Requested(machine.tasks))
    case Generated(threadId, g, texts) =>
      var ui := Committed(c, g, texts);
      Save(w.(plans := w.plans[g := ui]), threadId, PlanState(Some(ui), None))
    case Reviewed(threadId, _, decision, own) =>
      var state := StateOf(w, threadId);
      match ReviewPlan(state, decision)
      case Err(_) => w
      case Ok(reviewed) =>
        Save(w.(records := w.records + [Record(threadId, state.ui.value, decision.approved, own)]), threadId, reviewed)
  }

  ghost function Play(c: Compiler, w: World, events: seq<Event>): Option<World>
    decreases |events|
  {
    if events == [] then Some(w)
    else if !Possible(c, w, events[0]) then None
    else Play(c, Happen(c, w, events[0]), events[1..])
  }

  // ----- invariants -------------------------------------------------------------------------

  predicate Names(plans: map<string, CommittedUi>, plan: CommittedUi) {
    plan.generationId in plans && plans[plan.generationId] == plan
  }

  /** A generation id names one plan, whichever thread or moment it is read from. */
  ghost predicate PlansAreUnique(c: Compiler, w: World) {
    && (forall p :: p in w.past && p.1.ui.Some? ==> Names(w.plans, p.1.ui.value))
    && (forall t :: t in w.threads ==> (t, w.threads[t]) in w.past)
    && (forall s :: s in w.machine.history.served ==> Held(c, w.past, s.0, s.1))
  }

  /** Some `decide` call of this session answered this review with exactly this. */
  predicate Asked(m: Machine, threadId: Id, payload: Payload) {
    exists i :: 0 <= i < |m.sent| && m.sent[i].threadId == threadId
                && payload == Resume(m.sent[i].reviewId, m.sent[i].decision)
  }

  predicate PayloadAsked(m: Machine, t: Task) {
    && (t.CreateThread? ==> t.payload.Input?)
    && (t.CreateRun? && t.payload.Resume? ==> Asked(m, t.threadId, t.payload))
  }

  ghost predicate RequestsAsked(w: World) {
    && (forall i :: 0 <= i < |w.machine.tasks| ==> PayloadAsked(w.machine, w.machine.tasks[i]))
    && (forall q :: q in w.requests && q.1.Resume? ==> Asked(w.machine, q.0, q.1))
  }

  /** The record is of the plan that was on screen when `decide` was called. */
  predicate Witnessed(c: Compiler, m: Machine, r: Record) {
    exists i :: 0 <= i < |m.sent| && m.sent[i].threadId == r.threadId && m.sent[i].shown == Reread(c, r.plan)
                && m.sent[i].decision.approved == r.approved
  }

  /** An approval in this state was recorded, on this thread, for the plan beside it. */
  predicate Recorded(records: seq<Record>, threadId: Id, state: PlanState) {
    state.approved.Some? ==>
      && state.ui.Some?
      && exists i :: 0 <= i < |records| && records[i].threadId == threadId && records[i].plan == state.ui.value
                     && records[i].approved == state.approved.value
  }

  ghost predicate Sound(c: Compiler, w: World) {
    && Inv(c, w.machine)
    && PlansAreUnique(c, w)
    && RequestsAsked(w)
    && (forall i :: 0 <= i < |w.records| ==> w.records[i].own ==> Witnessed(c, w.machine, w.records[i]))
    && (forall p :: p in w.past ==> Recorded(w.records, p.0, p.1))
  }

  lemma RecordedGrows(records: seq<Record>, more: seq<Record>, threadId: Id, state: PlanState)
    requires Recorded(records, threadId, state)
    ensures Recorded(records + more, threadId, state)
  {
    if state.approved.Some? {
      var i :| 0 <= i < |records| && records[i].threadId == threadId && records[i].plan == state.ui.value
               && records[i].approved == state.approved.value;
      assert (records + more)[i] == records[i];
    }
  }

  /** A ticket's plan is the one its generation id names on the server, as the client reads it. */
  lemma TicketNamesPlan(c: Compiler, w: World, i: nat)
    requires Inv(c, w.machine) && PlansAreUnique(c, w) && i < |w.machine.sent|
    ensures var ticket := w.machine.sent[i];
            ticket.decision.generationId in w.plans && Reread(c, w.plans[ticket.decision.generationId]) == ticket.shown
  {
    var ticket := w.machine.sent[i];
    assert TicketOk(w.machine.history, ticket);
    var state: ThreadState :| (ticket.threadId, state) in w.machine.history.served && state.ui == Some(ticket.shown);
    assert Held(c, w.past, ticket.threadId, state);
    var saved :| (ticket.threadId, saved) in w.past && ReadAs(c, saved, state);
    assert Names(w.plans, saved.ui.value);
  }

  lemma AskedGrows(m: Machine, next: Machine, threadId: Id, payload: Payload)
    requires Asked(m, threadId, payload) && m.sent <= next.sent
    ensures Asked(next, threadId, payload)
  {
    var i :| 0 <= i < |m.sent| && m.sent[i].threadId == threadId
             && payload == Resume(m.sent[i].reviewId, m.sent[i].decision);
    assert next.sent[i] == m.sent[i];
  }

  /** A resumed task asks for a run only with the payload it already had. */
  lemma StepPayload(c: Compiler, s: Session, t: Task, r: Reply)
    requires Fits(t, r) && Ready(s, t)
    ensures var next := Step(c, s, t, r).1;
            !next.CreateThread? && (next.CreateRun? ==> t.CreateThread? && next.payload == t.payload)
  {
  }

  /** A call asks for a run only with a request, or with the decision it is recorded as. */
  lemma InvokePayload(c: Compiler, m: Machine, call: Call)
    requires Inv(c, m)
    ensures PayloadAsked(Next(c, m, Call(call)), Invoke(m.session, call).1)
  {
    var next := Next(c, m, Action.Call(call));
    if Decides(m.session, call) {
      var shot := m.session.snapshot;
      assert next.sent[|m.sent|].reviewId == shot.review.value.id;
      assert next.sent[|m.sent|].decision == Decision(shot.ui.value.generationId, call.approved);
    }
  }

  /** Client steps only append to `sent`, and new requests carry what was asked. */
  lemma ClientKeepsRequests(c: Compiler, w: World, a: Action)
    requires Inv(c, w.machine) && RequestsAsked(w) && Possible(c, w, Client(a))
    ensures RequestsAsked(Happen(c, w, Client(a)))
    ensures w.machine.sent <= Happen(c, w, Client(a)).machine.sent
  {
    var m, next := w.machine, Happen(c, w, Client(a)).machine;
    match a {
      case Call(call) => InvokePayload(c, m, call);
      case Deliver(index, reply) => StepPayload(c, m.session, m.tasks[index], reply);
    }
    forall i | 0 <= i < |next.tasks| ensures PayloadAsked(next, next.tasks[i]) {
      var t := next.tasks[i];
      if i < |m.tasks| {
        assert PayloadAsked(m, m.tasks[i]);
        if t.CreateRun? && t.payload.Resume? {
          AskedGrows(m, next, t.threadId, t.payload);
        }
      }
    }
    forall q | q in w.requests && q.1.Resume? ensures Asked(next, q.0, q.1) {
      AskedGrows(m, next, q.0, q.1);
    }
  }

  lemma ClientKeepsSound(c: Compiler, w: World, a: Action)
    requires Sound(c, w) && Possible(c, w, Client(a))
    ensures Sound(c, Happen(c, w, Client(a)))
  {
    NextKeepsInv(c, w.machine, a);
    ClientKeepsRequests(c, w, a);
    var next := Happen(c, w, Client(a));
    forall i | 0 <= i < |next.records| && next.records[i].own ensures Witnessed(c, next.machine, next.records[i]) {
      assert Witnessed(c, w.machine, w.records[i]);
    }
  }

  lemma GeneratedKeepsSound(c: Compiler, w: World, threadId: Id, g: string, texts: seq<string>)
    requires Sound(c, w) && Possible(c, w, Generated(threadId, g, texts))
    ensures Sound(c, Happen(c, w, Generated(threadId, g, texts)))
  {
  }

  lemma ReviewedKeepsSound(c: Compiler, w: World, e: Event)
    requires Sound(c, w) && Possible(c, w, e) && e.Reviewed?
    ensures Sound(c, Happen(c, w, e))
  {
    var next := Happen(c, w, e);
    var state := StateOf(w, e.threadId);
    if next != w {
      var record := next.records[|w.records|];
      if e.own {
        assert Asked(w.machine, e.threadId, Resume(e.reviewId, e.decision));
        var i :| 0 <= i < |w.machine.sent| && w.machine.sent[i].threadId == e.threadId
                 && Resume(e.reviewId, e.decision) == Resume(w.machine.sent[i].reviewId, w.machine.sent[i].decision);
        TicketNamesPlan(c, w, i);
        assert (e.threadId, state) in w.past;
        assert Witnessed(c, next.machine, record);
      }
      assert next.records == w.records + [record];
      forall p | p in next.past ensures Recorded(next.records, p.0, p.1) {
        if p in w.past {
          RecordedGrows(w.records, [record], p.0, p.1);
        } else {
          assert next.records[|w.records|] == record;
        }
      }
    }
  }

  lemma {:induction false} PlayKeepsSound(c: Compiler, w: World, events: seq<Event>)
    requires Sound(c, w)
    ensures Play(c, w, events).Some? ==> Sound(c, Play(c, w, events).value)
    decreases |events|
  {
    if events != [] && Possible(c, w, events[0]) {
      match events[0] {
        case Client(a) => ClientKeepsSound(c, w, a);
        case Generated(threadId, g, texts) => GeneratedKeepsSound(c, w, threadId, g, texts);
        case Reviewed(_, _, _, _) => ReviewedKeepsSound(c, w, events[0]);
      }
      PlayKeepsSound(c, Happen(c, w, events[0]), events[1..]);
    }
  }

  /** The approval on screen was recorded, on the thread on screen, for the plan on screen. */
  predicate ShownApprovalRecorded(c: Compiler, w: World) {
    var shot := w.machine.session.snapshot;
    shot.approved.Some? ==>
      exists i :: 0 <= i < |w.records| && Some(w.records[i].threadId) == shot.threadId
                  && Some(Reread(c, w.records[i].plan)) == shot.ui && Some(w.records[i].approved) == shot.approved
  }

  lemma SoundScreen(c: Compiler, w: World)
    requires Sound(c, w)
    ensures ShownApprovalRecorded(c, w)
  {
    var shot := w.machine.session.snapshot;
    if shot.approved.Some? {
      var threadId := shot.threadId.value;
      assert ReadTogether(w.machine.history, threadId, shot.ui, shot.review, shot.approved);
      var state: ThreadState :|
        (threadId, state) in w.machine.history.served && state.ui == shot.ui && state.approved == shot.approved;
      assert Held(c, w.past, threadId, state);
      var saved :| (threadId, saved) in w.past && ReadAs(c, saved, state);
      assert Recorded(w.records, threadId, saved);
    }
  }

  /**
   In every history, an approval a thread ever stored was recorded for the plan stored beside it, the
   approval on screen was recorded for the plan on screen, and an approval recorded on behalf of this
   session is for the very plan that was on screen, on the very thread that was open, when `decide` was
   called with that answer. A plan is on screen as validation reads it back.
   */
  lemma ApprovalIsForThePlanShown(c: Compiler, events: seq<Event>)
    requires Play(c, GENESIS, events).Some?
    ensures var end := Play(c, GENESIS, events).value;
            && (forall i :: 0 <= i < |end.records| ==> end.records[i].own ==> Witnessed(c, end.machine, end.records[i]))
            && (forall p :: p in end.past ==> Recorded(end.records, p.0, p.1))
            && (forall t :: t in end.threads ==> Recorded(end.records, t, end.threads[t]))
            && ShownApprovalRecorded(c, end)
  {
    PlayKeepsSound(c, GENESIS, events);
    SoundScreen(c, Play(c, GENESIS, events).value);
  }

  // ----- the gate loses nothing -------------------------------------------------------------

  /** A review of the current plan stores its answer beside the plan and is recorded; any other changes nothing. */
  lemma ReviewedExactly(c: Compiler, w: World, threadId: Id, reviewId: Option<Id>, decision: Decision, own: bool)
    requires Possible(c, w, Reviewed(threadId, reviewId, decision, own))
    ensures var next := Happen(c, w, Reviewed(threadId, reviewId, decision, own));
            if threadId in w.threads && w.threads[threadId].ui.Some?
               && w.threads[threadId].ui.value.generationId == decision.generationId
            then
              var ui := w.threads[threadId].ui;
              && next.threads == w.threads[threadId := PlanState(ui, Some(decision.approved))]
              && next.records == w.records + [Record(threadId, ui.value, decision.approved, own)]
              && next.machine == w.machine && next.plans == w.plans && next.requests == w.requests
            else next == w
  {
  }

  /** The review run that a decision on screen asks for. */
  function AnswerTo(s: Session, approved: bool): Event
    requires s.snapshot.threadId.Some? && s.snapshot.ui.Some? && s.snapshot.review.Some?
  {
    Reviewed(s.snapshot.threadId.value, s.snapshot.review.value.id,
             Decision(s.snapshot.ui.value.generationId, approved), true)
  }

  /** A decision can be executed, and if the plan on screen is still the thread's, its answer is stored there. */
  lemma DecisionIsStored(c: Compiler, w: World, approved: bool)
    requires Sound(c, w) && Decides(w.machine.session, Decide(approved))
    ensures var shot := w.machine.session.snapshot;
            shot.threadId.Some? && shot.ui.Some? && shot.review.Some?
    ensures var s := w.machine.session;
            var asked := Happen(c, w, Client(Action.Call(Decide(approved))));
            && Possible(c, asked, AnswerTo(s, approved))
            && (var threadId, state := s.snapshot.threadId.value, StateOf(w, s.snapshot.threadId.value);
                state.ui.Some? && state.ui.value.generationId == s.snapshot.ui.value.generationId ==>
                  StateOf(Happen(c, asked, AnswerTo(s, approved)), threadId) == PlanState(state.ui, Some(approved)))
  {
    var m := w.machine;
    var next := Next(c, m, Action.Call(Decide(approved)));
    assert next.tasks[|m.tasks|].CreateRun?;
  }

  /** The last generation on this thread: its id, and the texts it compiled. */
  function CurrentPlan(events: seq<Event>, threadId: Id): Option<(string, seq<string>)> {
    if events == [] then None
    else
      var last := events[|events| - 1];
      if last.Generated? && last.threadId == threadId then Some((last.g, last.texts))
      else CurrentPlan(events[..|events| - 1], threadId)
  }

  /** The review names the plan that is current on its thread. */
  predicate NamesCurrent(events: seq<Event>, review: Event)
    requires review.Reviewed?
  {
    var plan := CurrentPlan(events, review.threadId);
    plan.Some? && plan.value.0 == review.decision.generationId
  }

  /** The answer of the last review that named the current plan, since that plan was generated. */
  function LastAnswer(events: seq<Event>, threadId: Id): Option<bool> {
    if events == [] then None
    else
      var earlier, last := events[..|events| - 1], events[|events| - 1];
      if last.Generated? && last.threadId == threadId then None
      else if last.Reviewed? && last.threadId == threadId && NamesCurrent(earlier, last) then
        Some(last.decision.approved)
      else LastAnswer(earlier, threadId)
  }

  /** The reviews that named the plan current at the time. */
  function GoodReviews(events: seq<Event>): seq<(Id, string, bool, bool)> {
    if events == [] then []
    else
      var earlier, last := events[..|events| - 1], events[|events| - 1];
      GoodReviews(earlier) +
      if last.Reviewed? && NamesCurrent(earlier, last)
      then [(last.threadId, last.decision.generationId, last.decision.approved, last.own)] else []
  }

  lemma {:induction false} PlayLast(c: Compiler, w: World, events: seq<Event>)
    requires events != [] && Play(c, w, events).Some?
    ensures var earlier, last := Play(c, w, events[..|events| - 1]), events[|events| - 1];
            && earlier.Some? && Possible(c, earlier.value, last)
            && Play(c, w, events) == Some(Happen(c, earlier.value, last))
    decreases |events|
  {
    var next := Happen(c, w, events[0]);
    if |events| == 1 {
      assert events[..0] == [] && events[1..] == [];
    } else {
      PlayLast(c, next, events[1..]);
      assert events[1..][..|events| - 2] == events[..|events| - 1][1..];
    }
  }

  /** The plan stored on a thread is the last one generated there, and beside it is the last answer it was given. */
  lemma {:induction false} StoredExactly(c: Compiler, events: seq<Event>, threadId: Id)
    requires Play(c, GENESIS, events).Some?
    ensures var state := StateOf(Play(c, GENESIS, events).value, threadId);
            var plan := CurrentPlan(events, threadId);
            && (state.ui.Some? <==> plan.Some?)
            && (plan.Some? ==>
                  && state.ui.value.generationId == plan.value.0 && state.ui.value.chunkCount == |plan.value.1|
                  && Some(state.ui.value.spec) == c.final(plan.value.1))
            && state.approved == LastAnswer(events, threadId)
    decreases |events|
  {
    if events != [] {
      var earlier, last := events[..|events| - 1], events[|events| - 1];
      PlayLast(c, GENESIS, events);
      StoredExactly(c, earlier, threadId);
    }
  }

  /** Every review that named the current plan is recorded, once and in order, and nothing else is. */
  lemma {:induction false} RecordedExactly(c: Compiler, events: seq<Event>)
    requires Play(c, GENESIS, events).Some?
    ensures var records := Play(c, GENESIS, events).value.records;
            && |records| == |GoodReviews(events)|
            && forall i :: 0 <= i < |records| ==>
                 GoodReviews(events)[i] ==
                   (records[i].threadId, records[i].plan.generationId, records[i].approved, records[i].own)
    decreases |events|
  {
    if events != [] {
      var earlier, last := events[..|events| - 1], events[|events| - 1];
      PlayLast(c, GENESIS, events);
      RecordedExactly(c, earlier);
      if last.Reviewed? {
        StoredExactly(c, earlier, last.threadId);
      }
    }
  }
}
