/**
 The delivery recorder with its failure budgets, and the WhatsApp destination that sends a batch of
 approvals through it, may stop part-way, and is retried from the start, alone or among other deliveries.
 */
module DeliveryRecorder {
  import opened Common

  datatype Attempt = Attempt(destination: string, runId: string, idempotencyKey: Option<string>)

  /** `target` is the `to` field of the effect's target, if it has one. */
  datatype Effect = Effect(
    destination: string,
    runId: string,
    idempotencyKey: Option<string>,
    target: Option<string>,
    payload: string)

  datatype Recorder = Recorder(
    attempts: seq<Attempt>,
    effects: seq<Effect>,
    failures: map<string, int>,
    targetFailures: map<string, int>,
    completed: set<string>)

  const EMPTY := Recorder([], [], map[], map[], {})

  function KeyOf(e: Effect): string {
    if e.idempotencyKey.Some? then e.idempotencyKey.value else e.destination + [':'] + e.runId
  }

  function Remaining(budget: map<string, int>, name: string): nat {
    if name in budget && budget[name] > 0 then budget[name] else 0
  }

  /** An empty key is not recorded with the attempt, though it still identifies the delivery. */
  function Attempted(e: Effect): Attempt {
    Attempt(e.destination, e.runId, if e.idempotencyKey == Some("") then None else e.idempotencyKey)
  }

  function TargetOf(e: Effect): string {
    if e.target.Some? then e.target.value else ""
  }

  /** `recordDelivery`: the new state, and whether it returned normally. */
  function Record(s: Recorder, e: Effect): (Recorder, bool) {
    var seen := s.(attempts := s.attempts + [Attempted(e)]);
    if KeyOf(e) in s.completed then (seen, true)
    else if Remaining(s.failures, e.destination) > 0 then
      (seen.(failures := s.failures[e.destination := s.failures[e.destination] - 1]), false)
    else if Remaining(s.targetFailures, TargetOf(e)) > 0 then
      (seen.(targetFailures := s.targetFailures[TargetOf(e) := s.targetFailures[TargetOf(e)] - 1]), false)
    else (seen.(completed := s.completed + {KeyOf(e)}, effects := s.effects + [e]), true)
  }

  // ----- every run --------------------------------------------------------------------------

  datatype Operation =
    | Deliver(effect: Effect)
    | FailNext(destination: string, count: int)
    | FailNextTo(target: string, count: int)
    | Reset

  function Apply(s: Recorder, op: Operation): Recorder {
    match op
    case Deliver(e) => Record(s, e).0
    case FailNext(destination, count) => s.(failures := s.failures[destination := count])
    case FailNextTo(target, count) => s.(targetFailures := s.targetFailures[target := count])
    case Reset => EMPTY
  }

  function ApplyAll(s: Recorder, ops: seq<Operation>): Recorder
    decreases |ops|
  {
    if ops == [] then s else ApplyAll(Apply(s, ops[0]), ops[1..])
  }

  /** One effect per completed key. */
  predicate EffectsMatchKeys(s: Recorder) {
    && (forall i, j :: 0 <= i < j < |s.effects| ==> KeyOf(s.effects[i]) != KeyOf(s.effects[j]))
    && (forall i :: 0 <= i < |s.effects| ==> KeyOf(s.effects[i]) in s.completed)
    && (forall key :: key in s.completed ==> exists i :: 0 <= i < |s.effects| && KeyOf(s.effects[i]) == key)
  }

  lemma AppendKeepsKeys(s: Recorder, next: Recorder, e: Effect)
    requires EffectsMatchKeys(s) && KeyOf(e) !in s.completed
    requires next.effects == s.effects + [e] && next.completed == s.completed + {KeyOf(e)}
    ensures EffectsMatchKeys(next)
  {
    assert next.effects[|s.effects|] == e;
    forall key | key in next.completed ensures exists i :: 0 <= i < |next.effects| && KeyOf(next.effects[i]) == key {
      if key in s.completed {
        var i :| 0 <= i < |s.effects| && KeyOf(s.effects[i]) == key;
        assert next.effects[i] == s.effects[i];
      }
    }
  }

  lemma ApplyKeepsKeys(s: Recorder, op: Operation)
    requires EffectsMatchKeys(s)
    ensures EffectsMatchKeys(Apply(s, op))
  {
    if op.Deliver? && Apply(s, op).effects != s.effects {
      AppendKeepsKeys(s, Apply(s, op), op.effect);
    }
  }

  /** In every run, the effects' keys are distinct and are exactly the completed deliveries. */
  lemma {:induction false} EveryRunKeepsKeys(s: Recorder, ops: seq<Operation>)
    requires EffectsMatchKeys(s)
    ensures EffectsMatchKeys(ApplyAll(s, ops))
    decreases |ops|
  {
    if ops != [] {
      ApplyKeepsKeys(s, ops[0]);
      EveryRunKeepsKeys(Apply(s, ops[0]), ops[1..]);
    }
  }

  // ----- one delivery -----------------------------------------------------------------------

  /** The failures that stand between an effect and its delivery. */
  function Obstacles(s: Recorder, e: Effect): nat {
    if KeyOf(e) in s.completed then 0
    else Remaining(s.failures, e.destination) + Remaining(s.targetFailures, TargetOf(e))
  }

  /** After a reset nothing is recorded, and nothing stands in the way of any delivery. */
  lemma ResetForgets(s: Recorder, e: Effect)
    ensures var reset := Apply(s, Reset);
            && reset.attempts == [] && reset.effects == [] && reset.completed == {}
            && Obstacles(reset, e) == 0 && Record(reset, e).1
  {
  }

  /**
   Each delivery is one attempt. It fails exactly while something stands in the way, using up one failure of the
   destination, or else of the target; otherwise the effect is recorded unless its key is completed already.
   */
  lemma OneDelivery(s: Recorder, e: Effect)
    ensures var (next, ok) := Record(s, e);
            && next.attempts == s.attempts + [Attempt(e.destination, e.runId,
                                                      if e.idempotencyKey == Some("") then None else e.idempotencyKey)]
            && (ok <==> Obstacles(s, e) == 0)
            && next.effects == s.effects + (if ok && KeyOf(e) !in s.completed then [e] else [])
            && next.completed == s.completed + (if ok then {KeyOf(e)} else {})
            && (forall name :: Remaining(next.failures, name) == Remaining(s.failures, name) -
                  if !ok && name == e.destination && Remaining(s.failures, name) > 0 then 1 else 0)
            && (forall name :: Remaining(next.targetFailures, name) == Remaining(s.targetFailures, name) -
                  if !ok && name == (if e.target.Some? then e.target.value else "")
                     && Remaining(s.failures, e.destination) == 0 then 1 else 0)
  {
  }

  /** What the failure switches do: that many deliveries will fail, from then on, and nothing else changes. */
  lemma FailuresAreSet(s: Recorder, name: string, count: int, e: Effect)
    requires KeyOf(e) !in s.completed
    ensures var n := if count > 0 then count else 0;
            var d, t := Apply(s, FailNext(name, count)), Apply(s, FailNextTo(name, count));
            && Obstacles(d, e) == (if e.destination == name then n else Remaining(s.failures, e.destination))
                                  + Remaining(s.targetFailures, TargetOf(e))
            && Obstacles(t, e) == Remaining(s.failures, e.destination)
                                  + (if TargetOf(e) == name then n else Remaining(s.targetFailures, TargetOf(e)))
            && d == s.(failures := d.failures) && t == s.(targetFailures := t.targetFailures)
  {
  }

  /** Which attempts an operation adds, or forgets. */
  function AttemptsAfter(attempts: seq<Attempt>, ops: seq<Operation>): seq<Attempt> {
    if ops == [] then attempts
    else
      var earlier, last := AttemptsAfter(attempts, ops[..|ops| - 1]), ops[|ops| - 1];
      match last
      case Reset => []
      case Deliver(e) =>
        earlier + [Attempt(e.destination, e.runId, if e.idempotencyKey == Some("") then None else e.idempotencyKey)]
      case _ => earlier
  }

  lemma {:induction false} ApplyLast(s: Recorder, ops: seq<Operation>)
    requires ops != []
    ensures ApplyAll(s, ops) == Apply(ApplyAll(s, ops[..|ops| - 1]), ops[|ops| - 1])
    decreases |ops|
  {
    if |ops| == 1 {
      assert ops[1..] == [] && ops[..0] == [];
    } else {
      ApplyLast(Apply(s, ops[0]), ops[1..]);
      assert ops[1..][..|ops| - 2] == ops[..|ops| - 1][1..];
    }
  }

  /** In every run, the attempts are those made since the last reset, in order, and every effect was delivered. */
  lemma {:induction false} EveryRunKeepsAttempts(s: Recorder, ops: seq<Operation>)
    ensures ApplyAll(s, ops).attempts == AttemptsAfter(s.attempts, ops)
    ensures forall e :: e in ApplyAll(s, ops).effects ==> e in s.effects || Deliver(e) in ops
    decreases |ops|
  {
    if ops != [] {
      EveryRunKeepsAttempts(s, ops[..|ops| - 1]);
      ApplyLast(s, ops);
    }
  }

  lemma FirstColon(name: string, rest: string)
    requires ':' !in name
    ensures forall k :: 0 <= k <= |name| ==> ((name + [':'] + rest)[k] == ':' <==> k == |name|)
  {
  }

  /** Without keys, deliveries are the same for destination and run; with keys, for the key. */
  lemma SameDeliveryExactly(e: Effect, f: Effect)
    ensures e.idempotencyKey.Some? && f.idempotencyKey.Some? ==>
              (KeyOf(e) == KeyOf(f) <==> e.idempotencyKey == f.idempotencyKey)
    ensures e.idempotencyKey.None? && f.idempotencyKey.None? && ':' !in e.destination && ':' !in f.destination ==>
              (KeyOf(e) == KeyOf(f) <==> e.destination == f.destination && e.runId == f.runId)
  {
    if e.idempotencyKey.None? && f.idempotencyKey.None? && ':' !in e.destination && ':' !in f.destination
       && KeyOf(e) == KeyOf(f) {
      var m, n := |e.destination|, |f.destination|;
      FirstColon(e.destination, e.runId);
      FirstColon(f.destination, f.runId);
      assert KeyOf(e)[m] == ':' && KeyOf(f)[n] == ':';
      assert m == n;
      assert KeyOf(e)[..m] == e.destination && KeyOf(f)[..n] == f.destination;
      assert KeyOf(e)[m + 1..] == e.runId && KeyOf(f)[n + 1..] == f.runId;
    }
  }

  /** A destination with a colon can be taken for another one's run, and its delivery for done. */
  lemma ColonConfuses(payload: string)
    ensures var e := Effect("a:b", "c", None, None, payload);
            var f := Effect("a", "b:c", None, None, payload);
            Record(Record(EMPTY, e).0, f).0.effects == [e] && Record(Record(EMPTY, e).0, f).1
  {
    var e := Effect("a:b", "c", None, None, payload);
    var f := Effect("a", "b:c", None, None, payload);
    assert KeyOf(e) == "a:b:c" && KeyOf(f) == "a:b:c";
    assert EMPTY.effects + [e] == [e];
  }

  // ----- the batch --------------------------------------------------------------------------

  const WHATSAPP := "whatsapp"

  /** A pending interrupt: one that fails the schema, or an approval (whose id may be missing). */
  datatype Item = Malformed | Approval(interruptId: string, to: string, body: string)

  predicate Sendable(item: Item) {
    item.Approval? && item.interruptId != ""
  }

  function EffectOf(runId: string, item: Item): Effect
    requires item.Approval?
  {
    Effect(WHATSAPP, runId, Some(runId + [':'] + item.interruptId), Some(item.to), item.body)
  }

  function ItemKey(runId: string, item: Item): string
    requires item.Approval?
  {
    runId + [':'] + item.interruptId
  }

  /** `whatsappApprovalDestination`: stops at the first item that throws. */
  function Batch(s: Recorder, runId: string, items: seq<Item>): (Recorder, bool)
    decreases |items|
  {
    if items == [] then (s, true)
    else if !Sendable(items[0]) then (s, false)
    else
      var (next, ok) := Record(s, EffectOf(runId, items[0]));
      if ok then Batch(next, runId, items[1..]) else (next, false)
  }

  /** The items still to be delivered: the first of each key that is not completed. */
  function Pending(runId: string, items: seq<Item>, completed: set<string>): seq<Item>
    requires AllSendable(items)
    decreases |items|
  {
    if items == [] then []
    else if ItemKey(runId, items[0]) in completed then Pending(runId, items[1..], completed)
    else [items[0]] + Pending(runId, items[1..], completed + {ItemKey(runId, items[0])})
  }

  predicate AllSendable(items: seq<Item>) {
    forall i :: 0 <= i < |items| ==> Sendable(items[i])
  }

  /** The failures left for these targets, each target counted once. */
  function TargetCost(items: seq<Item>, budget: map<string, int>): nat
    requires forall i :: 0 <= i < |items| ==> items[i].Approval?
    decreases |items|
  {
    if items == [] then 0
    else Remaining(budget, items[0].to) + TargetCost(items[1..], budget[items[0].to := 0])
  }

  /** Pending items are approvals. */
  lemma {:induction false} PendingSendable(runId: string, items: seq<Item>, completed: set<string>)
    requires AllSendable(items)
    ensures AllSendable(Pending(runId, items, completed))
    decreases |items|
  {
    if items != [] {
      PendingSendable(runId, items[1..], completed);
      PendingSendable(runId, items[1..], completed + {ItemKey(runId, items[0])});
    }
  }

  /** The failures that stand between the recorder and the delivery of the whole batch. */
  function Cost(s: Recorder, runId: string, items: seq<Item>): nat
    requires AllSendable(items)
  {
    PendingSendable(runId, items, s.completed);
    var pending := Pending(runId, items, s.completed);
    if pending == [] then 0 else Remaining(s.failures, WHATSAPP) + TargetCost(pending, s.targetFailures)
  }

  function Effects(runId: string, items: seq<Item>): (r: seq<Effect>)
    requires forall i :: 0 <= i < |items| ==> items[i].Approval?
    ensures |r| == |items|
  {
    seq(|items|, i requires 0 <= i < |items| => EffectOf(runId, items[i]))
  }

  /** Delivered and still to be delivered, in order. */
  function Ledger(s: Recorder, runId: string, items: seq<Item>): seq<Effect>
    requires AllSendable(items)
  {
    PendingSendable(runId, items, s.completed);
    s.effects + Effects(runId, Pending(runId, items, s.completed))
  }

  ghost predicate SameBudget(a: map<string, int>, b: map<string, int>) {
    forall name :: Remaining(a, name) == Remaining(b, name)
  }

  lemma {:induction false} TargetCostDepends(items: seq<Item>, a: map<string, int>, b: map<string, int>)
    requires forall i :: 0 <= i < |items| ==> items[i].Approval?
    requires SameBudget(a, b)
    ensures TargetCost(items, a) == TargetCost(items, b)
    decreases |items|
  {
    if items != [] {
      var to := items[0].to;
      var a0, b0 := a[to := 0], b[to := 0];
      forall name ensures Remaining(a0, name) == Remaining(b0, name) {
        assert Remaining(a, name) == Remaining(b, name);
      }
      TargetCostDepends(items[1..], a0, b0);
    }
  }

  /** A delivered item leaves cost and ledger to the rest of the batch. */
  lemma HeadDelivered(s: Recorder, runId: string, items: seq<Item>)
    requires AllSendable(items) && items != [] && Record(s, EffectOf(runId, items[0])).1
    ensures var next := Record(s, EffectOf(runId, items[0])).0;
            && ItemKey(runId, items[0]) in next.completed
            && Cost(s, runId, items) == Cost(next, runId, items[1..])
            && Ledger(s, runId, items) == Ledger(next, runId, items[1..])
  {
    var next := Record(s, EffectOf(runId, items[0])).0;
    if ItemKey(runId, items[0]) !in s.completed {
      var rest := Pending(runId, items[1..], next.completed);
      PendingSendable(runId, items[1..], next.completed);
      assert Pending(runId, items, s.completed) == [items[0]] + rest;
      assert ([items[0]] + rest)[1..] == rest;
      assert SameBudget(s.targetFailures, s.targetFailures[items[0].to := 0]);
      TargetCostDepends(rest, s.targetFailures, s.targetFailures[items[0].to := 0]);
      assert Effects(runId, [items[0]] + rest) == [EffectOf(runId, items[0])] + Effects(runId, rest);
    }
  }

  /** A failing item costs one unit and delivers nothing. */
  lemma HeadFailed(s: Recorder, runId: string, items: seq<Item>)
    requires AllSendable(items) && items != [] && !Record(s, EffectOf(runId, items[0])).1
    ensures var next := Record(s, EffectOf(runId, items[0])).0;
            Cost(s, runId, items) == Cost(next, runId, items) + 1
            && Ledger(next, runId, items) == Ledger(s, runId, items)
  {
    var next := Record(s, EffectOf(runId, items[0])).0;
    var to := items[0].to;
    var pending := Pending(runId, items, s.completed);
    PendingSendable(runId, items, s.completed);
    assert pending[0] == items[0];
    assert next.targetFailures[to := 0] == s.targetFailures[to := 0];
  }

  lemma {:induction false} BatchStep(s: Recorder, runId: string, items: seq<Item>)
    requires AllSendable(items)
    ensures var (next, ok) := Batch(s, runId, items);
            && s.completed <= next.completed
            && Ledger(next, runId, items) == Ledger(s, runId, items)
            && (ok <==> Cost(s, runId, items) == 0)
            && (ok ==> Pending(runId, items, next.completed) == [])
            && (!ok ==> Cost(next, runId, items) == Cost(s, runId, items) - 1)
    decreases |items|
  {
    if items != [] {
      var (first, ok) := Record(s, EffectOf(runId, items[0]));
      if ok {
        HeadDelivered(s, runId, items);
        BatchStep(first, runId, items[1..]);
        var next := Batch(first, runId, items[1..]).0;
        assert Pending(runId, items, next.completed) == Pending(runId, items[1..], next.completed);
      } else {
        HeadFailed(s, runId, items);
      }
    }
  }

  /** The recorder after `n` attempts at the whole batch. */
  function Retried(s: Recorder, runId: string, items: seq<Item>, n: nat): Recorder {
    if n == 0 then s else Batch(Retried(s, runId, items, n - 1), runId, items).0
  }

  lemma {:induction false} RetryStep(s: Recorder, runId: string, items: seq<Item>, n: nat)
    requires AllSendable(items) && n <= Cost(s, runId, items)
    ensures var now := Retried(s, runId, items, n);
            && Cost(now, runId, items) == Cost(s, runId, items) - n
            && Ledger(now, runId, items) == Ledger(s, runId, items)
  {
    if n > 0 {
      RetryStep(s, runId, items, n - 1);
      BatchStep(Retried(s, runId, items, n - 1), runId, items);
    }
  }

  /**
   Retrying the whole batch: each of the first `Cost` calls fails and uses one unit of budget, the next
   one succeeds, and exactly the pending effects have then been added, once each and in order.
   */
  lemma RetryDeliversOnce(s: Recorder, runId: string, items: seq<Item>)
    requires AllSendable(items)
    ensures var cost := Cost(s, runId, items);
            && (forall n :: 0 <= n < cost ==>
                  var now := Retried(s, runId, items, n);
                  !Batch(now, runId, items).1 && Cost(now, runId, items) == cost - n)
            && var last := Batch(Retried(s, runId, items, cost), runId, items);
               last.1 && last.0.effects == Ledger(s, runId, items)
  {
    var cost := Cost(s, runId, items);
    forall n | 0 <= n <= cost
      ensures var now := Retried(s, runId, items, n);
              (Batch(now, runId, items).1 <==> n == cost) && Cost(now, runId, items) == cost - n
    {
      RetryStep(s, runId, items, n);
      BatchStep(Retried(s, runId, items, n), runId, items);
    }
    RetryStep(s, runId, items, cost);
    BatchStep(Retried(s, runId, items, cost), runId, items);
  }

  /** With distinct, fresh ids, that is one effect for every interrupt. */
  lemma {:induction false} FreshItemsArePending(runId: string, items: seq<Item>, completed: set<string>)
    requires AllSendable(items)
    requires forall i, j :: 0 <= i < j < |items| ==> items[i].interruptId != items[j].interruptId
    requires forall i :: 0 <= i < |items| ==> ItemKey(runId, items[i]) !in completed
    ensures Pending(runId, items, completed) == items
    decreases |items|
  {
    if items != [] {
      forall i | 1 <= i < |items| ensures ItemKey(runId, items[i]) != ItemKey(runId, items[0]) {
        assert ItemKey(runId, items[i])[|runId| + 1..] == items[i].interruptId;
        assert ItemKey(runId, items[0])[|runId| + 1..] == items[0].interruptId;
      }
      FreshItemsArePending(runId, items[1..], completed + {ItemKey(runId, items[0])});
    }
  }

  lemma FreshBatchDeliversEach(s: Recorder, runId: string, items: seq<Item>)
    requires AllSendable(items)
    requires forall i, j :: 0 <= i < j < |items| ==> items[i].interruptId != items[j].interruptId
    requires forall i :: 0 <= i < |items| ==> ItemKey(runId, items[i]) !in s.completed
    ensures var effects := Batch(Retried(s, runId, items, Cost(s, runId, items)), runId, items).0.effects;
            && |effects| == |s.effects| + |items| && s.effects <= effects
            && forall i :: 0 <= i < |items| ==>
                 effects[|s.effects| + i] ==
                   Effect("whatsapp", runId, Some(runId + ":" + items[i].interruptId), Some(items[i].to), items[i].body)
  {
    FreshItemsArePending(runId, items, s.completed);
    RetryDeliversOnce(s, runId, items);
  }

  /** An item that fails the schema, or has no id, keeps every attempt from succeeding. */
  lemma {:induction false} UnsendableNeverSucceeds(s: Recorder, runId: string, items: seq<Item>)
    requires exists i :: 0 <= i < |items| && (items[i].Malformed? || items[i].interruptId == "")
    ensures !Batch(s, runId, items).1
    decreases |items|
  {
    if Sendable(items[0]) {
      var i :| 0 <= i < |items| && (items[i].Malformed? || items[i].interruptId == "");
      assert items[1..][i - 1] == items[i];
      UnsendableNeverSucceeds(Record(s, EffectOf(runId, items[0])).0, runId, items[1..]);
    }
  }

  // ----- the batch among other deliveries ---------------------------------------------------

  /**
   The batch again, with whatever other callers do at each `await`: `between[i]` happens between the
   delivery of item `i` and the next item.
   */
  function BatchAmong(s: Recorder, runId: string, items: seq<Item>, between: seq<seq<Operation>>): (Recorder, bool)
    requires |between| == |items|
    decreases |items|
  {
    if items == [] then (s, true)
    else if !Sendable(items[0]) then (s, false)
    else
      var (next, ok) := Record(s, EffectOf(runId, items[0]));
      if ok then BatchAmong(ApplyAll(next, between[0]), runId, items[1..], between[1..]) else (next, false)
  }

  /** Undisturbed, it is the batch. */
  lemma {:induction false} BatchAlone(s: Recorder, runId: string, items: seq<Item>, between: seq<seq<Operation>>)
    requires |between| == |items| && forall i :: 0 <= i < |between| ==> between[i] == []
    ensures BatchAmong(s, runId, items, between) == Batch(s, runId, items)
    decreases |items|
  {
    if items != [] && Sendable(items[0]) {
      BatchAlone(Record(s, EffectOf(runId, items[0])).0, runId, items[1..], between[1..]);
    }
  }

  predicate NoReset(ops: seq<Operation>) {
    Reset !in ops
  }

  /** Nothing that was delivered is undone. */
  predicate Extends(s: Recorder, next: Recorder) {
    s.completed <= next.completed && s.effects <= next.effects
  }

  lemma {:induction false} RunExtends(s: Recorder, ops: seq<Operation>)
    requires NoReset(ops)
    ensures Extends(s, ApplyAll(s, ops))
    decreases |ops|
  {
    if ops != [] {
      assert ops[0] in ops;
      RunExtends(Apply(s, ops[0]), ops[1..]);
    }
  }

  /** The only effect with this key. */
  predicate DeliveredOnce(s: Recorder, key: string) {
    exists i :: 0 <= i < |s.effects| && KeyOf(s.effects[i]) == key
                && forall j :: 0 <= j < |s.effects| && KeyOf(s.effects[j]) == key ==> j == i
  }

  lemma CompletedOnce(s: Recorder, key: string)
    requires EffectsMatchKeys(s) && key in s.completed
    ensures DeliveredOnce(s, key)
  {
    var i :| 0 <= i < |s.effects| && KeyOf(s.effects[i]) == key;
    assert forall j :: 0 <= j < |s.effects| && KeyOf(s.effects[j]) == key ==> !(i < j) && !(j < i);
  }

  /** Every item is one that can be sent, and its key is completed. */
  predicate AllCompleted(runId: string, items: seq<Item>, completed: set<string>) {
    forall i :: 0 <= i < |items| ==> Sendable(items[i]) && ItemKey(runId, items[i]) in completed
  }

  lemma {:induction false} BatchAmongExtends(s: Recorder, runId: string, items: seq<Item>, between: seq<seq<Operation>>)
    requires |between| == |items|
    requires forall i :: 0 <= i < |between| ==> NoReset(between[i])
    ensures var (end, ok) := BatchAmong(s, runId, items, between);
            Extends(s, end) && (ok ==> AllCompleted(runId, items, end.completed))
    decreases |items|
  {
    if items != [] && Sendable(items[0]) {
      var (next, ok) := Record(s, EffectOf(runId, items[0]));
      if ok {
        RunExtends(next, between[0]);
        var resumed := ApplyAll(next, between[0]);
        BatchAmongExtends(resumed, runId, items[1..], between[1..]);
        var (end, all) := BatchAmong(resumed, runId, items[1..], between[1..]);
        if all {
          AllCompletedCons(runId, items, end.completed);
        }
      }
    }
  }

  lemma {:induction false} BatchAmongKeepsKeys(
    s: Recorder, runId: string, items: seq<Item>, between: seq<seq<Operation>>)
    requires EffectsMatchKeys(s) && |between| == |items|
    ensures EffectsMatchKeys(BatchAmong(s, runId, items, between).0)
    decreases |items|
  {
    if items != [] && Sendable(items[0]) {
      var e := EffectOf(runId, items[0]);
      ApplyKeepsKeys(s, Deliver(e));
      EveryRunKeepsKeys(Record(s, e).0, between[0]);
      BatchAmongKeepsKeys(ApplyAll(Record(s, e).0, between[0]), runId, items[1..], between[1..]);
    }
  }

  lemma AllCompletedCons(runId: string, items: seq<Item>, completed: set<string>)
    requires items != [] && Sendable(items[0]) && ItemKey(runId, items[0]) in completed
    requires AllCompleted(runId, items[1..], completed)
    ensures AllCompleted(runId, items, completed)
  {
    assert items == [items[0]] + items[1..];
  }

  /**
   Whatever deliveries and budget changes happen in between: effects and completed keys keep matching,
   nothing delivered is undone, and a batch that returns has delivered every item, each exactly once.
   */
  lemma BatchAmongOthers(s: Recorder, runId: string, items: seq<Item>, between: seq<seq<Operation>>)
    requires EffectsMatchKeys(s) && |between| == |items|
    requires forall i :: 0 <= i < |between| ==> NoReset(between[i])
    ensures var (end, ok) := BatchAmong(s, runId, items, between);
            && EffectsMatchKeys(end) && Extends(s, end)
            && (ok ==> forall i :: 0 <= i < |items| ==>
                  Sendable(items[i]) && DeliveredOnce(end, ItemKey(runId, items[i])))
  {
    BatchAmongExtends(s, runId, items, between);
    BatchAmongKeepsKeys(s, runId, items, between);
    var (end, ok) := BatchAmong(s, runId, items, between);
    if ok {
      forall i | 0 <= i < |items| ensures DeliveredOnce(end, ItemKey(runId, items[i])) {
        CompletedOnce(end, ItemKey(runId, items[i]));
      }
    }
  }

  // ----- retries among other deliveries -----------------------------------------------------

  ghost predicate WithinBudget(a: map<string, int>, b: map<string, int>) {
    forall name :: Remaining(a, name) <= Remaining(b, name)
  }

  /** Forgetting one target's failures saves at most those. */
  lemma {:induction false} ForgetTarget(items: seq<Item>, budget: map<string, int>, to: string)
    requires forall i :: 0 <= i < |items| ==> items[i].Approval?
    ensures TargetCost(items, budget) <= Remaining(budget, to) + TargetCost(items, budget[to := 0])
    decreases |items|
  {
    if items != [] {
      var y := items[0].to;
      if y == to {
        assert budget[to := 0][y := 0] == budget[y := 0];
      } else {
        ForgetTarget(items[1..], budget[y := 0], to);
        assert budget[to := 0][y := 0] == budget[y := 0][to := 0];
      }
    }
  }

  /** Fewer items to deliver and smaller budgets never cost more. */
  lemma {:induction false} LessToPay(
    runId: string, items: seq<Item>, fewer: set<string>, more: set<string>, a: map<string, int>, b: map<string, int>)
    requires AllSendable(items) && fewer <= more && WithinBudget(a, b)
    ensures AllSendable(Pending(runId, items, fewer)) && AllSendable(Pending(runId, items, more))
    ensures Pending(runId, items, fewer) == [] ==> Pending(runId, items, more) == []
    ensures TargetCost(Pending(runId, items, more), a) <= TargetCost(Pending(runId, items, fewer), b)
    decreases |items|
  {
    PendingSendable(runId, items, fewer);
    PendingSendable(runId, items, more);
    if items != [] {
      var key, to, rest := ItemKey(runId, items[0]), items[0].to, items[1..];
      var a0, b0 := a[to := 0], b[to := 0];
      forall name ensures Remaining(a0, name) <= Remaining(b0, name) {
        assert Remaining(a, name) <= Remaining(b, name);
      }
      if key in fewer {
        LessToPay(runId, rest, fewer, more, a, b);
      } else {
        var pending := Pending(runId, rest, fewer + {key});
        assert ([items[0]] + pending)[1..] == pending;
        if key in more {
          LessToPay(runId, rest, fewer + {key}, more, a0, b0);
          ForgetTarget(Pending(runId, rest, more), a, to);
        } else {
          LessToPay(runId, rest, fewer + {key}, more + {key}, a0, b0);
          var left := Pending(runId, rest, more + {key});
          assert ([items[0]] + left)[1..] == left;
        }
      }
    }
  }

  /** The failures an operation asks for. */
  function Asked(op: Operation): nat {
    if (op.FailNext? || op.FailNextTo?) && op.count > 0 then op.count else 0
  }

  function Added(ops: seq<Operation>): nat {
    if ops == [] then 0 else Asked(ops[0]) + Added(ops[1..])
  }

  function AddedBetween(between: seq<seq<Operation>>): nat {
    if between == [] then 0 else Added(between[0]) + AddedBetween(between[1..])
  }

  /** Setting one target's budget costs at most the new budget. */
  lemma BudgetSet(runId: string, items: seq<Item>, completed: set<string>, budget: map<string, int>, to: string, n: int)
    requires AllSendable(items)
    ensures AllSendable(Pending(runId, items, completed))
    ensures TargetCost(Pending(runId, items, completed), budget[to := n]) <=
              TargetCost(Pending(runId, items, completed), budget) + if n > 0 then n else 0
  {
    PendingSendable(runId, items, completed);
    ForgetTarget(Pending(runId, items, completed), budget[to := n], to);
    assert budget[to := n][to := 0] == budget[to := 0];
    LessToPay(runId, items, completed, completed, budget[to := 0], budget);
  }

  /** Any operation but a reset: the batch gets dearer by no more than the failures it asks for. */
  lemma OneOtherOperation(s: Recorder, op: Operation, runId: string, items: seq<Item>)
    requires AllSendable(items) && !op.Reset?
    ensures Cost(Apply(s, op), runId, items) <= Cost(s, runId, items) + Asked(op)
    ensures s.completed <= Apply(s, op).completed
  {
    var next := Apply(s, op);
    match op
    case Deliver(_) => LessToPay(runId, items, s.completed, next.completed, next.targetFailures, s.targetFailures);
    case FailNext(_, _) =>
    case FailNextTo(target, count) => BudgetSet(runId, items, s.completed, s.targetFailures, target, count);
  }

  lemma {:induction false} OthersAddAtMost(s: Recorder, ops: seq<Operation>, runId: string, items: seq<Item>)
    requires AllSendable(items) && NoReset(ops)
    ensures Cost(ApplyAll(s, ops), runId, items) <= Cost(s, runId, items) + Added(ops)
    ensures s.completed <= ApplyAll(s, ops).completed
    decreases |ops|
  {
    if ops != [] {
      assert ops[0] in ops;
      OneOtherOperation(s, ops[0], runId, items);
      OthersAddAtMost(Apply(s, ops[0]), ops[1..], runId, items);
    }
  }

  /** Each attempt succeeds, or uses at least one unit of the failures in its way, old or newly asked for. */
  lemma {:induction false} AttemptAmong(s: Recorder, runId: string, items: seq<Item>, between: seq<seq<Operation>>)
    requires AllSendable(items) && |between| == |items|
    requires forall i :: 0 <= i < |between| ==> NoReset(between[i])
    ensures var (end, ok) := BatchAmong(s, runId, items, between);
            && s.completed <= end.completed
            && Cost(end, runId, items) <= Cost(s, runId, items) + AddedBetween(between)
            && (!ok ==> Cost(end, runId, items) < Cost(s, runId, items) + AddedBetween(between))
    decreases |items|
  {
    if items != [] {
      var (next, ok) := Record(s, EffectOf(runId, items[0]));
      if ok {
        HeadDelivered(s, runId, items);
        OthersAddAtMost(next, between[0], runId, items[1..]);
        var resumed := ApplyAll(next, between[0]);
        AttemptAmong(resumed, runId, items[1..], between[1..]);
        var end := BatchAmong(resumed, runId, items[1..], between[1..]).0;
        assert Pending(runId, items, end.completed) == Pending(runId, items[1..], end.completed);
      } else {
        HeadFailed(s, runId, items);
      }
    }
  }

  /** One attempt, what others do during it, and what they do before the next one. */
  datatype Round = Round(between: seq<seq<Operation>>, after: seq<Operation>)

  /** Attempts until one returns. */
  function RetriedAmong(s: Recorder, runId: string, items: seq<Item>, rounds: seq<Round>): (Recorder, bool)
    requires forall i :: 0 <= i < |rounds| ==> |rounds[i].between| == |items|
    decreases |rounds|
  {
    if rounds == [] then (s, false)
    else
      var (end, ok) := BatchAmong(s, runId, items, rounds[0].between);
      if ok then (end, true) else RetriedAmong(ApplyAll(end, rounds[0].after), runId, items, rounds[1..])
  }

  function AddedInRounds(rounds: seq<Round>): nat {
    if rounds == [] then 0 else AddedBetween(rounds[0].between) + Added(rounds[0].after) + AddedInRounds(rounds[1..])
  }

  /**
   Whatever others deliver, and whatever failures they ask for, during and between the attempts: one
   attempt more than the failures that stood in the way plus those asked for is enough, and every item
   has then been delivered exactly once.
   */
  lemma {:induction false} RetrySucceedsAmongOthers(s: Recorder, runId: string, items: seq<Item>, rounds: seq<Round>)
    requires AllSendable(items) && EffectsMatchKeys(s)
    requires forall i :: 0 <= i < |rounds| ==>
               |rounds[i].between| == |items| && NoReset(rounds[i].after)
               && forall j :: 0 <= j < |items| ==> NoReset(rounds[i].between[j])
    requires |rounds| > Cost(s, runId, items) + AddedInRounds(rounds)
    ensures var (end, ok) := RetriedAmong(s, runId, items, rounds);
            ok && Extends(s, end) && forall i :: 0 <= i < |items| ==> DeliveredOnce(end, ItemKey(runId, items[i]))
    decreases |rounds|
  {
    var between, after := rounds[0].between, rounds[0].after;
    BatchAmongOthers(s, runId, items, between);
    AttemptAmong(s, runId, items, between);
    var (end, ok) := BatchAmong(s, runId, items, between);
    if !ok {
      RunExtends(end, after);
      EveryRunKeepsKeys(end, after);
      OthersAddAtMost(end, after, runId, items);
      RetrySucceedsAmongOthers(ApplyAll(end, after), runId, items, rounds[1..]);
    }
  }

  // ----- the module's own state -------------------------------------------------------------

  class Deliveries {
    var attempts: seq<Attempt>
    var effects: seq<Effect>
    var failures: map<string, int>
    var targetFailures: map<string, int>
    var completed: set<string>

    function State(): Recorder
      reads this
    {
      Recorder(attempts, effects, failures, targetFailures, completed)
    }

    constructor ()
      ensures State() == EMPTY
    {
      attempts, effects, failures, targetFailures, completed := [], [], map[], map[], {};
    }

    method ResetDeliveries()
      modifies this
      ensures State() == Apply(old(State()), Reset)
    {
      attempts, effects, failures, targetFailures, completed := [], [], map[], map[], {};
    }

    method FailNextDeliveries(destination: string, count: int)
      modifies this`failures
      ensures State() == Apply(old(State()), FailNext(destination, count))
    {
      failures := failures[destination := count];
    }

    method FailNextDeliveriesTo(target: string, count: int)
      modifies this`targetFailures
      ensures State() == Apply(old(State()), FailNextTo(target, count))
    {
      targetFailures := targetFailures[target := count];
    }

    method RecordDelivery(effect: Effect) returns (ok: bool)
      modifies this
      ensures (State(), ok) == Record(old(State()), effect)
    {
      attempts := attempts + [Attempted(effect)];
      var key := KeyOf(effect);
      if key in completed {
        return true;
      }
      if Remaining(failures, effect.destination) > 0 {
        failures := failures[effect.destination := failures[effect.destination] - 1];
        return false;
      }
      var target := TargetOf(effect);
      if Remaining(targetFailures, target) > 0 {
        targetFailures := targetFailures[target := targetFailures[target] - 1];
        return false;
      }
      completed := completed + {key};
      effects := effects + [effect];
      ok := true;
    }

    /** What other callers do, in order. */
    method Perform(ops: seq<Operation>)
      modifies this
      ensures State() == ApplyAll(old(State()), ops)
    {
      for i := 0 to |ops|
        invariant ApplyAll(State(), ops[i..]) == ApplyAll(old(State()), ops)
      {
        assert ops[i..][0] == ops[i] && ops[i..][1..] == ops[i + 1..];
        match ops[i]
        case Deliver(effect) => var _ := RecordDelivery(effect);
        case FailNext(destination, count) => FailNextDeliveries(destination, count);
        case FailNextTo(target, count) => FailNextDeliveriesTo(target, count);
        case Reset => ResetDeliveries();
      }
    }

    /**
     The destination's loop, with what others do at each of its `await`s; an item that throws ends it
     with the earlier items delivered. If it returns, every item has been delivered exactly once.
     */
    method DeliverApprovals(runId: string, items: seq<Item>, between: seq<seq<Operation>>) returns (ok: bool)
      requires |between| == |items|
      modifies this
      ensures (State(), ok) == BatchAmong(old(State()), runId, items, between)
      ensures ok && old(EffectsMatchKeys(State())) && (forall i :: 0 <= i < |between| ==> NoReset(between[i])) ==>
                forall i :: 0 <= i < |items| ==>
                  Sendable(items[i]) && DeliveredOnce(State(), ItemKey(runId, items[i]))
    {
      if EffectsMatchKeys(State()) && forall i :: 0 <= i < |between| ==> NoReset(between[i]) {
        BatchAmongOthers(State(), runId, items, between);
      }
      var i := 0;
      while i < |items|
        invariant 0 <= i <= |items|
        invariant BatchAmong(State(), runId, items[i..], between[i..])
                  == BatchAmong(old(State()), runId, items, between)
      {
        assert items[i..][1..] == items[i + 1..] && between[i..][1..] == between[i + 1..];
        if !Sendable(items[i]) {
          return false;
        }
        ok := RecordDelivery(EffectOf(runId, items[i]));
        if !ok {
          return false;
        }
        Perform(between[i]);
        i := i + 1;
      }
      ok := true;
    }

    /** Any history of a new recorder: the effects' keys are distinct and are the completed deliveries. */
    method Replay(ops: seq<Operation>)
      requires State() == EMPTY
      modifies this
      ensures State() == ApplyAll(EMPTY, ops) && EffectsMatchKeys(State())
    {
      EveryRunKeepsKeys(EMPTY, ops);
      Perform(ops);
    }
  }
}
