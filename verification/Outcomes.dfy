/**
 Publishing run outcomes over the broker: the dispatcher that fits an event under the message cap, a
 queue that deduplicates by job id only while the job exists, workers that may be given a job again,
 and the receiver's insert-if-absent inbox.
 */
module Outcomes {
  import opened Common

  /** What the outbox delivers; identities are `None` when the body does not hold a string there. */
  datatype Body = Body(
    runId: Option<string>,
    threadId: Option<string>,
    commandId: Option<string>,
    correlationId: Option<string>,
    status: string,
    payloadTruncated: bool)

  datatype Outcome = Outcome(
    eventId: string,
    commandId: string,
    correlationId: Option<string>,
    runId: string,
    threadId: string,
    status: string,
    truncated: bool,
    outcome: Option<string>)

  datatype PublishError = NoDeliveryId | InvalidOutcome | IdentityTooLarge

  /** The event before its size is looked at; `projected` is the payload or what `projectResult` made of it. */
  function EventOf(deliveryId: string, body: Body, projected: Option<string>): Outcome
    requires body.runId.Some? && body.threadId.Some? && body.commandId.Some?
  {
    Outcome(deliveryId, body.commandId.value, body.correlationId, body.runId.value, body.threadId.value, body.status,
            body.payloadTruncated, projected)
  }

  /** The event with its outcome dropped and marked as such. */
  function Stripped(event: Outcome): Outcome {
    event.(outcome := None, truncated := true)
  }

  /** The wrapped dispatcher, up to `outcomeQueue.add`; `size` measures an event's wire JSON. */
  function Publish(deliveryId: Option<string>, body: Body, projected: Option<string>, size: Outcome -> nat, cap: nat)
    : Result<Outcome, PublishError>
  {
    if deliveryId.None? || deliveryId.value == "" then Err(NoDeliveryId)
    else if body.runId.None? || body.threadId.None? || body.commandId.None? then Err(InvalidOutcome)
    else
      var event := EventOf(deliveryId.value, body, projected);
      var fitted := if size(event) > cap then Stripped(event) else event;
      if size(fitted) > cap then Err(IdentityTooLarge) else Ok(fitted)
  }

  /** The event speaks for this delivery. */
  predicate Identifies(event: Outcome, deliveryId: string, body: Body) {
    && event.eventId == deliveryId
    && Some(event.runId) == body.runId && Some(event.threadId) == body.threadId
    && Some(event.commandId) == body.commandId
    && event.correlationId == body.correlationId && event.status == body.status
  }

  /**
   A delivery without its identities is refused. The whole event is published if it fits the cap; if not, the
   event without its outcome and marked as truncated, if that fits; if not, nothing. What is published fits the
   cap and speaks for its delivery.
   */
  lemma PublishedFits(deliveryId: Option<string>, body: Body, projected: Option<string>, size: Outcome -> nat, cap: nat)
    ensures var r := Publish(deliveryId, body, projected, size, cap);
            && (deliveryId.None? || deliveryId == Some("") ==> r == Err(NoDeliveryId))
            && (deliveryId.Some? && deliveryId != Some("") ==>
                  if body.runId.None? || body.threadId.None? || body.commandId.None? then r == Err(InvalidOutcome)
                  else
                    var whole := Outcome(deliveryId.value, body.commandId.value, body.correlationId, body.runId.value,
                                         body.threadId.value, body.status, body.payloadTruncated, projected);
                    var bare := whole.(outcome := None, truncated := true);
                    r == if size(whole) <= cap then Ok(whole) else if size(bare) <= cap then Ok(bare)
                         else Err(IdentityTooLarge))
            && (r.Ok? ==> size(r.value) <= cap && Identifies(r.value, deliveryId.value, body))
  {
  }

  /** The dispatcher's own code, which edits its event. */
  method Dispatch(deliveryId: Option<string>, body: Body, projected: Option<string>, size: Outcome -> nat, cap: nat)
    returns (published: Result<Outcome, PublishError>)
    ensures published == Publish(deliveryId, body, projected, size, cap)
  {
    if deliveryId.None? || deliveryId.value == "" {
      return Err(NoDeliveryId);
    }
    if body.runId.None? || body.threadId.None? || body.commandId.None? {
      return Err(InvalidOutcome);
    }
    var event := EventOf(deliveryId.value, body, projected);
    if size(event) > cap {
      event := event.(outcome := None);
      event := event.(truncated := true);
    }
    if size(event) > cap {
      return Err(IdentityTooLarge);
    }
    published := Ok(event);
  }

  // ----- the broker and the inbox -----------------------------------------------------------

  datatype Row = Row(eventId: string, runId: string, event: Outcome)

  /**
   `jobs` is the outcome queue by job id, `working` the jobs handed to a worker whose insert has not
   happened yet, `inserted` those whose insert has happened but which are not acknowledged, and
   `acknowledged` is history.
   */
  datatype World = World(
    jobs: map<string, Outcome>,
    working: seq<Outcome>,
    inserted: seq<Outcome>,
    rows: seq<Row>,
    acknowledged: set<string>)

  const EMPTY := World(map[], [], [], [], {})

  datatype Action =
    | Attempt(deliveryId: string, projected: Option<string>)
    | Hand(jobId: string)
    | Insert(index: nat)
    | Acknowledge(index: nat)
    | Lose(index: nat)
    | Remove(jobId: string)

  /** Deliveries as the outbox holds them: one immutable body per delivery id. */
  type Outbox = map<string, Body>

  predicate Enabled(outbox: Outbox, w: World, a: Action) {
    match a
    case Attempt(deliveryId, _) => deliveryId in outbox
    case Hand(jobId) => jobId in w.jobs
    case Insert(index) => index < |w.working|
    case Acknowledge(index) => index < |w.inserted|
    case Lose(index) => index < |w.inserted|
    case Remove(jobId) => jobId in w.jobs
  }

  function Without(events: seq<Outcome>, index: nat): seq<Outcome>
    requires index < |events|
  {
    events[..index] + events[index + 1..]
  }

  predicate HasRow(rows: seq<Row>, eventId: string) {
    exists i :: 0 <= i < |rows| && rows[i].eventId == eventId
  }

  /** `INSERT ... ON CONFLICT(event_id) DO NOTHING`. */
  function InsertRow(rows: seq<Row>, event: Outcome): seq<Row> {
    if HasRow(rows, event.eventId) then rows
    else rows + [Row(event.eventId, event.runId, event)]
  }

  function Next(outbox: Outbox, size: Outcome -> nat, cap: nat, w: World, a: Action): World
    requires Enabled(outbox, w, a)
  {
    match a
    case Attempt(deliveryId, projected) =>
      var r := Publish(Some(deliveryId), outbox[deliveryId], projected, size, cap);
      if r.Err? || r.value.eventId in w.jobs then w else w.(jobs := w.jobs[r.value.eventId := r.value])
    case Hand(jobId) => w.(working := w.working + [w.jobs[jobId]])
    case Insert(index) =>
      var event := w.working[index];
      w.(working := Without(w.working, index), inserted := w.inserted + [event], rows := InsertRow(w.rows, event))
    case Acknowledge(index) =>
      w.(inserted := Without(w.inserted, index), acknowledged := w.acknowledged + {w.inserted[index].eventId})
    case Lose(index) => w.(inserted := Without(w.inserted, index))
    case Remove(jobId) => w.(jobs := w.jobs - {jobId})
  }

  function Run(outbox: Outbox, size: Outcome -> nat, cap: nat, w: World, actions: seq<Action>): Option<World>
    decreases |actions|
  {
    if actions == [] then Some(w)
    else if !Enabled(outbox, w, actions[0]) then None
    else Run(outbox, size, cap, Next(outbox, size, cap, w, actions[0]), actions[1..])
  }

  /** The event is one that an attempt at the delivery it names publishes: its identities, within the cap. */
  ghost predicate Genuine(outbox: Outbox, size: Outcome -> nat, cap: nat, event: Outcome) {
    && event.eventId in outbox && Identifies(event, event.eventId, outbox[event.eventId]) && size(event) <= cap
    && exists projected :: Publish(Some(event.eventId), outbox[event.eventId], projected, size, cap) == Ok(event)
  }

  ghost predicate Inv(outbox: Outbox, size: Outcome -> nat, cap: nat, w: World) {
    && (forall id :: id in w.jobs ==> w.jobs[id].eventId == id && Genuine(outbox, size, cap, w.jobs[id]))
    && (forall i :: 0 <= i < |w.working| ==> Genuine(outbox, size, cap, w.working[i]))
    && (forall i :: 0 <= i < |w.inserted| ==> HasRow(w.rows, w.inserted[i].eventId))
    && (forall id :: id in w.acknowledged ==> HasRow(w.rows, id))
    && (forall i :: 0 <= i < |w.rows| ==> RowOk(outbox, size, cap, w.rows[i]))
    && (forall i, j :: 0 <= i < j < |w.rows| ==> w.rows[i].eventId != w.rows[j].eventId)
  }

  ghost predicate RowOk(outbox: Outbox, size: Outcome -> nat, cap: nat, row: Row) {
    row.eventId == row.event.eventId && row.runId == row.event.runId && Genuine(outbox, size, cap, row.event)
  }

  lemma InsertKeepsRows(rows: seq<Row>, event: Outcome, id: string)
    ensures HasRow(InsertRow(rows, event), event.eventId)
    ensures HasRow(rows, id) ==> HasRow(InsertRow(rows, event), id)
  {
    var next := InsertRow(rows, event);
    if |next| > |rows| {
      assert next[|rows|].eventId == event.eventId;
    }
    if HasRow(rows, id) {
      var i :| 0 <= i < |rows| && rows[i].eventId == id;
      assert next[i] == rows[i];
    }
  }

  lemma InsertKeepsInv(outbox: Outbox, size: Outcome -> nat, cap: nat, w: World, index: nat)
    requires Inv(outbox, size, cap, w) && index < |w.working|
    ensures Inv(outbox, size, cap, Next(outbox, size, cap, w, Insert(index)))
  {
    var event := w.working[index];
    var next := Next(outbox, size, cap, w, Insert(index));
    forall id ensures HasRow(w.rows, id) ==> HasRow(next.rows, id) {
      InsertKeepsRows(w.rows, event, id);
    }
    InsertKeepsRows(w.rows, event, event.eventId);
  }

  lemma NextKeepsInv(outbox: Outbox, size: Outcome -> nat, cap: nat, w: World, a: Action)
    requires Inv(outbox, size, cap, w) && Enabled(outbox, w, a)
    ensures Inv(outbox, size, cap, Next(outbox, size, cap, w, a))
    ensures w.rows <= Next(outbox, size, cap, w, a).rows
  {
    match a
    case Attempt(deliveryId, projected) => PublishedFits(Some(deliveryId), outbox[deliveryId], projected, size, cap);
    case Insert(index) => InsertKeepsInv(outbox, size, cap, w, index);
    case _ =>
  }

  lemma {:induction false} RunKeepsInv(outbox: Outbox, size: Outcome -> nat, cap: nat, w: World, actions: seq<Action>)
    requires Inv(outbox, size, cap, w)
    ensures Run(outbox, size, cap, w, actions).Some? ==>
              Inv(outbox, size, cap, Run(outbox, size, cap, w, actions).value)
    decreases |actions|
  {
    if actions != [] && Enabled(outbox, w, actions[0]) {
      NextKeepsInv(outbox, size, cap, w, actions[0]);
      RunKeepsInv(outbox, size, cap, Next(outbox, size, cap, w, actions[0]), actions[1..]);
    }
  }

  /**
   For every run with repeated attempts, job removal, redelivery and lost acknowledgements: one row per
   event id at most, each with its own delivery's identities and within the cap, and a job is
   acknowledged only once its row exists.
   */
  lemma EveryRun(outbox: Outbox, size: Outcome -> nat, cap: nat, actions: seq<Action>)
    requires Run(outbox, size, cap, EMPTY, actions).Some?
    ensures var end := Run(outbox, size, cap, EMPTY, actions).value;
            && (forall i, j :: 0 <= i < j < |end.rows| ==> end.rows[i].eventId != end.rows[j].eventId)
            && (forall i :: 0 <= i < |end.rows| ==> RowOk(outbox, size, cap, end.rows[i]))
            && (forall id :: id in end.acknowledged ==> HasRow(end.rows, id))
  {
    RunKeepsInv(outbox, size, cap, EMPTY, actions);
  }

  /** An attempt queues its event under its delivery id, unless one is queued already; a refused one does nothing. */
  lemma AttemptQueues(outbox: Outbox, size: Outcome -> nat, cap: nat, w: World, id: string, projected: Option<string>)
    requires id in outbox
    ensures var r := Publish(Some(id), outbox[id], projected, size, cap);
            Next(outbox, size, cap, w, Attempt(id, projected)) ==
              if r.Ok? && id !in w.jobs then w.(jobs := w.jobs[id := r.value]) else w
  {
    PublishedFits(Some(id), outbox[id], projected, size, cap);
  }

  /** What becomes of a queued event: it is handed out, inserted unless its row exists, and acknowledged. */
  lemma OutcomeArrives(outbox: Outbox, size: Outcome -> nat, cap: nat, w: World, id: string)
    requires Inv(outbox, size, cap, w) && id in w.jobs
    ensures var actions := [Hand(id), Insert(|w.working|), Acknowledge(|w.inserted|)];
            var event := w.jobs[id];
            Run(outbox, size, cap, w, actions) ==
              Some(w.(rows := if HasRow(w.rows, id) then w.rows else w.rows + [Row(id, event.runId, event)],
                      acknowledged := w.acknowledged + {id}))
  {
    var a1, a2, a3 := Hand(id), Insert(|w.working|), Acknowledge(|w.inserted|);
    var w1 := Next(outbox, size, cap, w, a1);
    assert w1.working == w.working + [w.jobs[id]] && Without(w1.working, |w.working|) == w.working;
    var w2 := Next(outbox, size, cap, w1, a2);
    assert w2.inserted == w.inserted + [w.jobs[id]] && Without(w2.inserted, |w.inserted|) == w.inserted;
    var w3 := Next(outbox, size, cap, w2, a3);
    assert [a1, a2, a3][1..] == [a2, a3] && [a2, a3][1..] == [a3] && [a3][1..] == [];
    assert Run(outbox, size, cap, w2, [a3]) == Some(w3);
    assert Run(outbox, size, cap, w1, [a2, a3]) == Some(w3);
  }

  /** A job that is lost after its insert, or removed from the queue, leaves every row and every other job. */
  lemma LossKeepsRows(outbox: Outbox, size: Outcome -> nat, cap: nat, w: World, a: Action)
    requires Enabled(outbox, w, a) && (a.Lose? || a.Remove?)
    ensures var next := Next(outbox, size, cap, w, a);
            && next.rows == w.rows && next.acknowledged == w.acknowledged && next.working == w.working
            && (forall id :: id in w.jobs && !(a.Remove? && a.jobId == id) ==>
                  id in next.jobs && next.jobs[id] == w.jobs[id])
            && (a.Remove? ==> a.jobId !in next.jobs && next.inserted == w.inserted)
  {
  }
}
