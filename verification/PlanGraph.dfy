/**
 The plan graph: the node that writes the UI events and commits a plan, and the node that records an
 approval only for the plan it was asked about.
 */
module PlanGraph {
  import opened Common
  import opened UiEvents

  /**
   `generateUi`. `texts` is what the model yields, `abortAt` the number of chunks after which the
   abort signal is raised (if at all). The run commits exactly when it is never aborted and the texts
   compile and validate; it then has written the whole generation. Otherwise it has written a prefix
   that stops short of the complete event, so no consumer can take it for finished.
   */
  method GenerateUi(c: Compiler, g: string, texts: seq<string>, abortAt: Option<nat>)
    returns (written: seq<UiEvent>, ui: Option<CommittedUi>)
    ensures ui.Some? <==> !(abortAt.Some? && abortAt.value <= |texts|) && Committable(c, texts)
    ensures ui.Some? ==> ui.value == Committed(c, g, texts) && written == GenerationEvents(g, texts)
    ensures ui.None? ==> |written| <= |texts| + 1 && written == GenerationEvents(g, texts)[..|written|]
  {
    var pushed: seq<string> := [];
    var sequence := 0;
    written := [RawEvent(g, 0, Start)];
    ghost var events := GenerationEvents(g, texts);
    while sequence < |texts|
      invariant 0 <= sequence <= |texts|
      invariant pushed == texts[..sequence]
      invariant written == events[..sequence + 1]
      invariant forall i :: 0 < i <= sequence ==> c.preview(texts[..i]).Some?
      invariant abortAt.Some? ==> sequence <= abortAt.value
    {
      if abortAt == Some(sequence) {
        return written, None;
      }
      var text := texts[sequence];
      pushed := pushed + [text];
      if c.preview(pushed).None? {
        assert pushed == texts[..sequence + 1];
        return written, None;
      }
      sequence := sequence + 1;
      written := written + [RawEvent(g, sequence, Chunk(text))];
    }
    assert pushed == texts;
    if abortAt == Some(sequence) {
      return written, None;
    }
    var spec := c.final(pushed);
    if spec.None? {
      return written, None;
    }
    ui := Some(CommittedUi(g, spec.value, sequence));
    written := written + [RawEvent(g, sequence + 1, Complete)];
  }

  /** An uncommitted run never makes a consumer report completion, however its events are delivered. */
  lemma UncommittedNeverCompletes(
    c: Compiler, baseline: Option<CommittedUi>, g: string, texts: seq<string>, written: nat, d: Delivery)
    requires written <= |texts| + 1
    requires Within(d, written)
    ensures !PushAll(c, Init(baseline), Frames(d, GenerationEvents(g, texts)[..written])).complete
  {
    var events := GenerationEvents(g, texts)[..written];
    assert forall i :: 0 <= i < |events| ==> !events[i].phase.Complete?;
    WithoutCompleteEvent(c, Init(baseline), Frames(d, events));
  }

  lemma {:induction false} WithoutCompleteEvent(c: Compiler, s: Stream, frames: seq<Frame>)
    requires !s.complete
    requires forall i :: 0 <= i < |frames| ==> frames[i].Event? ==> !frames[i].event.phase.Complete?
    ensures !PushAll(c, s, frames).complete
    decreases |frames|
  {
    if frames != [] {
      WithoutCompleteEvent(c, Push(c, s, frames[0]), frames[1..]);
    }
  }

  datatype Decision = Decision(generationId: string, approved: bool)

  /** The graph's persisted channels. */
  datatype PlanState = PlanState(ui: Option<CommittedUi>, approved: Option<bool>)

  /** `reviewPlan`: both errors leave the state as it was. */
  function ReviewPlan(state: PlanState, decision: Decision): Result<PlanState, string> {
    if state.ui.None? then Err("Generate a plan before reviewing it")
    else if decision.generationId != state.ui.value.generationId then Err("This approval belongs to an older plan")
    else Ok(state.(approved := Some(decision.approved)))
  }

  /** A review succeeds exactly for the current plan; it then stores the answer, and otherwise says what is wrong. */
  lemma ReviewsCurrentPlan(state: PlanState, decision: Decision)
    ensures var current := if state.ui.Some? then Some(state.ui.value.generationId) else None;
            && (current == Some(decision.generationId) ==>
                  ReviewPlan(state, decision) == Ok(PlanState(state.ui, Some(decision.approved))))
            && (current == None ==> ReviewPlan(state, decision) == Err("Generate a plan before reviewing it"))
            && (current.Some? && current.value != decision.generationId ==>
                  ReviewPlan(state, decision) == Err("This approval belongs to an older plan"))
  {
  }
}
