/**
 The preview stream of the json-render example: one consumer of sequenced UI events that must
 survive drops, duplicates and reordering.

 The spec compiler is a parameter. A compiler instance is determined by the chunk texts pushed into
 it so far, so `preview(texts)` is the result of the last push and `final(texts)` the validated
 result; `None` stands for an exception. `reread` is what validation makes of a saved spec when it is read
 back from a thread.
 */
module UiEvents {
  import opened Common

  type Spec = string

  datatype CommittedUi = CommittedUi(generationId: string, spec: Spec, chunkCount: nat)

  datatype Compiler = Compiler(
    preview: seq<string> -> Option<Spec>,
    final: seq<string> -> Option<Spec>,
    reread: Spec -> Spec)

  datatype Phase = Start | Chunk(text: string) | Complete

  datatype RawEvent = RawEvent(generationId: string, sequence: nat, phase: Phase)

  /** An event that passed the schema: a start event has sequence 0. */
  type UiEvent = e: RawEvent | e.phase.Start? ==> e.sequence == 0 witness RawEvent("", 0, Start)

  /** `Foreign`: not a json-render custom frame. `Malformed`: one that fails the schema. */
  datatype Frame = Foreign | Malformed | Event(event: UiEvent)

  datatype Stream = Stream(
    baseline: Option<CommittedUi>,
    generationId: Option<string>,
    lastSequence: int,
    complete: bool,
    gap: bool,
    preview: Option<Spec>,
    texts: seq<string>)

  function UiSpec(ui: Option<CommittedUi>): (r: Option<Spec>) {
    if ui.Some? then Some(ui.value.spec) else None
  }

  function Init(baseline: Option<CommittedUi>): Stream {
    Stream(baseline, None, -1, false, false, UiSpec(baseline), [])
  }

  function LosePreview(s: Stream): Stream {
    s.(gap := true, preview := UiSpec(s.baseline))
  }

  /** The effect of an event that continues the sequence, once it has been accepted. */
  function Absorb(c: Compiler, s: Stream, phase: Phase): Stream {
    match phase
    case Start => s
    case Chunk(text) =>
      var pushed := s.(texts := s.texts + [text]);
      if c.preview(pushed.texts).Some? then pushed.(preview := c.preview(pushed.texts)) else LosePreview(pushed)
    case Complete =>
      if c.final(s.texts).Some? then s.(preview := c.final(s.texts), complete := true) else LosePreview(s)
  }

  function Push(c: Compiler, s: Stream, frame: Frame): Stream {
    match frame
    case Foreign => s
    case Malformed => LosePreview(s)
    case Event(e) =>
      if s.generationId.Some? && e.generationId != s.generationId.value then s
      else if e.sequence <= s.lastSequence then s
      else
        var t := if s.generationId.None? && e.phase.Start? then s.(generationId := Some(e.generationId)) else s;
        if t.generationId.None? || e.sequence != t.lastSequence + 1 || t.complete then LosePreview(t)
        else
          var accepted := t.(lastSequence := e.sequence);
          if t.gap then accepted else Absorb(c, accepted, e.phase)
  }

  function PushAll(c: Compiler, s: Stream, frames: seq<Frame>): Stream
    decreases |frames|
  {
    if frames == [] then s else PushAll(c, Push(c, s, frames[0]), frames[1..])
  }

  lemma {:induction false} PushAllAppend(c: Compiler, s: Stream, frames: seq<Frame>, more: seq<Frame>)
    ensures PushAll(c, s, frames + more) == PushAll(c, PushAll(c, s, frames), more)
    decreases |frames|
  {
    if frames == [] {
      assert frames + more == more;
    } else {
      assert (frames + more)[1..] == frames[1..] + more;
      PushAllAppend(c, Push(c, s, frames[0]), frames[1..], more);
    }
  }

  // ----- every frame sequence ---------------------------------------------------------------

  /** What frames amount to, in terms of the events taken from them: no sequence counter, compiler state or preview. */
  datatype Reading = Reading(events: seq<UiEvent>, gap: bool, complete: bool)

  function ChunkTexts(events: seq<UiEvent>): seq<string> {
    if events == [] then []
    else
      var last := events[|events| - 1];
      ChunkTexts(events[..|events| - 1]) + (if last.phase.Chunk? then [last.phase.text] else [])
  }

  /** Of another generation, or already taken. */
  predicate Passed(events: seq<UiEvent>, e: UiEvent) {
    events != [] && (e.generationId != events[0].generationId || e.sequence < |events|)
  }

  /** The start of a generation, or the next event of the one being read. */
  predicate NextOf(events: seq<UiEvent>, e: UiEvent) {
    if events == [] then e.phase.Start? else e.generationId == events[0].generationId && e.sequence == |events|
  }

  /** The texts compile with this chunk, or validate at this end. */
  predicate Compiles(c: Compiler, events: seq<UiEvent>, e: UiEvent) {
    match e.phase
    case Start => true
    case Chunk(text) => c.preview(ChunkTexts(events) + [text]).Some?
    case Complete => c.final(ChunkTexts(events)).Some?
  }

  predicate Takes(r: Reading, frame: Frame) {
    frame.Event? && NextOf(r.events, frame.event) && !r.complete
  }

  /** A malformed frame, a skipped or premature event, one after completion, or a failing compile or validation. */
  predicate Breaks(c: Compiler, r: Reading, frame: Frame) {
    || frame.Malformed?
    || (&& frame.Event? && !Passed(r.events, frame.event)
        && (r.complete || !NextOf(r.events, frame.event) || !Compiles(c, r.events, frame.event)))
  }

  function ReadOne(c: Compiler, r: Reading, frame: Frame): Reading {
    Reading(
      if Takes(r, frame) then r.events + [frame.event] else r.events,
      r.gap || Breaks(c, r, frame),
      r.complete || (Takes(r, frame) && !r.gap && frame.event.phase.Complete? && Compiles(c, r.events, frame.event)))
  }

  function ReadAll(c: Compiler, frames: seq<Frame>): Reading {
    if frames == [] then Reading([], false, false)
    else ReadOne(c, ReadAll(c, frames[..|frames| - 1]), frames[|frames| - 1])
  }

  /** What a stream that has no gap must show. */
  function Shown(c: Compiler, baseline: Option<CommittedUi>, events: seq<UiEvent>): Option<Spec> {
    if events != [] && events[|events| - 1].phase.Complete? then c.final(ChunkTexts(events))
    else if ChunkTexts(events) == [] then UiSpec(baseline)
    else c.preview(ChunkTexts(events))
  }

  /** `events` is 0, 1, 2, ... of one generation: a start, then chunks, then possibly a complete. */
  predicate Contiguous(events: seq<UiEvent>) {
    && (forall i :: 0 <= i < |events| ==> events[i].sequence == i && events[i].generationId == events[0].generationId)
    && (events != [] ==> events[0].phase.Start?)
  }

  predicate OnlyLastCompletes(events: seq<UiEvent>) {
    forall i :: 0 <= i < |events| - 1 ==> !events[i].phase.Complete?
  }

  predicate Completed(events: seq<UiEvent>) {
    events != [] && events[|events| - 1].phase.Complete?
  }

  /** Every one of the texts compiled when it came. */
  predicate AllCompile(c: Compiler, texts: seq<string>) {
    forall i :: 0 < i <= |texts| ==> c.preview(texts[..i]).Some?
  }

  /** What is taken is 0, 1, 2, ... of one generation; without a gap all of it compiles, and its end validates. */
  predicate Sound(c: Compiler, r: Reading) {
    && Contiguous(r.events)
    && (r.complete ==> Completed(r.events) && c.final(ChunkTexts(r.events)).Some?)
    && (!r.gap || r.complete ==>
          OnlyLastCompletes(r.events) && AllCompile(c, ChunkTexts(r.events)))
    && (!r.gap ==> (r.complete <==> Completed(r.events)))
  }

  /** The stream's state, as the reading determines it. */
  predicate Describes(c: Compiler, s: Stream, r: Reading) {
    && s.generationId == (if r.events == [] then None else Some(r.events[0].generationId))
    && s.lastSequence == |r.events| - 1
    && s.gap == r.gap && s.complete == r.complete
    && (!s.gap || s.complete ==> s.texts == ChunkTexts(r.events))
    && s.preview == if r.gap then UiSpec(s.baseline) else Shown(c, s.baseline, r.events)
  }

  lemma GrownTexts(events: seq<UiEvent>, e: UiEvent)
    ensures ChunkTexts(events + [e]) == ChunkTexts(events) + (if e.phase.Chunk? then [e.phase.text] else [])
  {
    assert (events + [e])[..|events|] == events;
  }

  lemma TakenIsContiguous(r: Reading, e: UiEvent)
    requires Contiguous(r.events) && NextOf(r.events, e)
    ensures Contiguous(r.events + [e])
  {
  }

  lemma {:induction false} GrownCompiles(c: Compiler, texts: seq<string>, text: string)
    requires AllCompile(c, texts) && c.preview(texts + [text]).Some?
    ensures AllCompile(c, texts + [text])
  {
    forall i | 0 < i <= |texts| + 1 ensures c.preview((texts + [text])[..i]).Some? {
      if i <= |texts| {
        assert (texts + [text])[..i] == texts[..i];
      } else {
        assert (texts + [text])[..i] == texts + [text];
      }
    }
  }

  lemma TakenIsGood(c: Compiler, r: Reading, e: UiEvent)
    requires Sound(c, r) && !r.gap && !r.complete && NextOf(r.events, e) && Compiles(c, r.events, e)
    ensures Sound(c, Reading(r.events + [e], false, e.phase.Complete?))
  {
    TakenIsContiguous(r, e);
    GrownTexts(r.events, e);
    var texts := ChunkTexts(r.events);
    assert texts + [] == texts;
    if e.phase.Chunk? {
      GrownCompiles(c, texts, e.phase.text);
    }
  }

  lemma ReadOneTakes(c: Compiler, r: Reading, e: UiEvent)
    requires Takes(r, Event(e))
    ensures var good := !r.gap && Compiles(c, r.events, e);
            ReadOne(c, r, Event(e)) == Reading(r.events + [e], !good, good && e.phase.Complete?)
  {
  }

  /** Taking an event keeps the reading sound. */
  lemma ReadOneIsSound(c: Compiler, r: Reading, frame: Frame)
    requires Sound(c, r)
    ensures Sound(c, ReadOne(c, r, frame))
  {
    if Takes(r, frame) {
      ReadOneTakes(c, r, frame.event);
      if !r.gap && Compiles(c, r.events, frame.event) {
        TakenIsGood(c, r, frame.event);
      } else {
        TakenIsContiguous(r, frame.event);
      }
    }
  }

  /** An event of another generation, or one already taken, changes nothing. */
  lemma PassedIsIgnored(c: Compiler, s: Stream, r: Reading, e: UiEvent)
    requires Describes(c, s, r) && Passed(r.events, e)
    ensures Push(c, s, Event(e)) == s && ReadOne(c, r, Event(e)) == r
  {
  }

  /** One that cannot be taken loses the preview, and nothing else. */
  lemma RefusedIsLost(c: Compiler, s: Stream, r: Reading, e: UiEvent)
    requires Describes(c, s, r) && Sound(c, r) && !Passed(r.events, e) && !Takes(r, Event(e))
    ensures Push(c, s, Event(e)) == LosePreview(s) && ReadOne(c, r, Event(e)) == r.(gap := true)
  {
  }

  lemma TakenIsAbsorbed(c: Compiler, s: Stream, r: Reading, e: UiEvent)
    requires Describes(c, s, r) && Sound(c, r) && Takes(r, Event(e))
    ensures var accepted := s.(generationId := Some(e.generationId), lastSequence := e.sequence);
            Push(c, s, Event(e)) == if s.gap then accepted else Absorb(c, accepted, e.phase)
  {
  }

  /** Without a gap so far, a taken event is compiled, or loses the preview. */
  lemma AbsorbReads(c: Compiler, s: Stream, r: Reading, e: UiEvent)
    requires Describes(c, s, r) && Sound(c, r) && Takes(r, Event(e)) && !s.gap
    ensures var accepted := s.(generationId := Some(e.generationId), lastSequence := e.sequence);
            Describes(c, Absorb(c, accepted, e.phase), ReadOne(c, r, Event(e)))
  {
    GrownTexts(r.events, e);
    var next := ReadOne(c, r, Event(e));
    assert next.events[|next.events| - 1] == e && next.events[0].generationId == e.generationId;
    ReadOneTakes(c, r, e);
  }

  /** The stream does with each frame what the reading says. */
  lemma PushReads(c: Compiler, s: Stream, r: Reading, frame: Frame)
    requires Describes(c, s, r) && Sound(c, r)
    ensures Push(c, s, frame).baseline == s.baseline
    ensures Describes(c, Push(c, s, frame), ReadOne(c, r, frame))
  {
    if frame.Event? {
      var e := frame.event;
      if Passed(r.events, e) {
        PassedIsIgnored(c, s, r, e);
      } else if !Takes(r, frame) {
        RefusedIsLost(c, s, r, e);
      } else {
        TakenIsAbsorbed(c, s, r, e);
        if !s.gap {
          AbsorbReads(c, s, r, e);
        } else {
          assert ReadOne(c, r, frame).events[0].generationId == e.generationId;
        }
      }
    }
  }

  lemma PushAllLast(c: Compiler, s: Stream, frames: seq<Frame>)
    requires frames != []
    ensures PushAll(c, s, frames) == Push(c, PushAll(c, s, frames[..|frames| - 1]), frames[|frames| - 1])
  {
    var earlier, last := frames[..|frames| - 1], frames[|frames| - 1];
    assert frames == earlier + [last];
    PushAllAppend(c, s, earlier, [last]);
    var before := PushAll(c, s, earlier);
    assert PushAll(c, before, [last]) == PushAll(c, Push(c, before, last), []);
  }

  /**
   For every frame sequence: the stream is the one the reading describes; the events taken are delivered
   events numbered 0..lastSequence of one generation; without a gap the preview is the in-order compile of
   their texts, every one of which compiled; with one it is the baseline; and a complete stream has validated.
   */
  lemma {:induction false} EveryFrameSequence(c: Compiler, baseline: Option<CommittedUi>, frames: seq<Frame>)
    ensures var s, r := PushAll(c, Init(baseline), frames), ReadAll(c, frames);
            s.baseline == baseline && Describes(c, s, r) && Sound(c, r)
    ensures forall e :: e in ReadAll(c, frames).events ==> Event(e) in frames
    decreases |frames|
  {
    if frames != [] {
      var earlier, last := frames[..|frames| - 1], frames[|frames| - 1];
      EveryFrameSequence(c, baseline, earlier);
      PushAllLast(c, Init(baseline), frames);
      PushReads(c, PushAll(c, Init(baseline), earlier), ReadAll(c, earlier), last);
      ReadOneIsSound(c, ReadAll(c, earlier), last);
    }
  }

  /** This frame breaks what was read before it. */
  predicate BreaksAt(c: Compiler, frames: seq<Frame>, k: int) {
    0 <= k < |frames| && Breaks(c, ReadAll(c, frames[..k]), frames[k])
  }

  lemma BreaksEarlier(c: Compiler, frames: seq<Frame>, k: int)
    requires 0 <= k < |frames| - 1
    ensures BreaksAt(c, frames, k) <==> BreaksAt(c, frames[..|frames| - 1], k)
  {
    assert frames[..|frames| - 1][..k] == frames[..k];
  }

  lemma {:induction false} GapIsBreak(c: Compiler, frames: seq<Frame>)
    ensures ReadAll(c, frames).gap <==> exists k :: BreaksAt(c, frames, k)
    decreases |frames|
  {
    if frames != [] {
      var n, earlier := |frames| - 1, frames[..|frames| - 1];
      GapIsBreak(c, earlier);
      assert ReadAll(c, frames).gap <==> ReadAll(c, earlier).gap || BreaksAt(c, frames, n);
      forall k | 0 <= k < n ensures BreaksAt(c, frames, k) <==> BreaksAt(c, earlier, k) {
        BreaksEarlier(c, frames, k);
      }
      if k :| BreaksAt(c, earlier, k) {
        assert BreaksAt(c, frames, k);
      }
      if k :| BreaksAt(c, frames, k) {
        assert k == n || BreaksAt(c, earlier, k);
      }
    }
  }

  /** Exactly when the preview is lost: some frame breaks what was read before it. */
  lemma GapExactly(c: Compiler, baseline: Option<CommittedUi>, frames: seq<Frame>)
    ensures PushAll(c, Init(baseline), frames).gap <==> exists k :: BreaksAt(c, frames, k)
  {
    EveryFrameSequence(c, baseline, frames);
    GapIsBreak(c, frames);
  }

  /** A plan that does not validate: the stream is never complete, and shows what was saved before. */
  lemma InvalidPlanIsLost(c: Compiler, baseline: Option<CommittedUi>, frames: seq<Frame>, e: UiEvent)
    requires var r := ReadAll(c, frames);
             !r.gap && !r.complete && NextOf(r.events, e) && e.phase.Complete? && c.final(ChunkTexts(r.events)).None?
    ensures var s := PushAll(c, Init(baseline), frames + [Event(e)]);
            s.gap && !s.complete && s.preview == UiSpec(baseline)
  {
    assert (frames + [Event(e)])[..|frames|] == frames;
    EveryFrameSequence(c, baseline, frames + [Event(e)]);
  }

  /** A gap is absorbing, and an identity never changes once it is set. */
  lemma {:induction false} GapAndIdentityPersist(c: Compiler, s: Stream, frames: seq<Frame>)
    ensures var end := PushAll(c, s, frames);
            && (s.gap ==> end.gap)
            && (s.gap && s.preview == UiSpec(s.baseline) ==> end.preview == UiSpec(s.baseline))
            && (s.generationId.Some? ==> end.generationId == s.generationId)
            && (s.complete ==> end.complete)
            && end.baseline == s.baseline
    decreases |frames|
  {
    if frames != [] {
      GapAndIdentityPersist(c, Push(c, s, frames[0]), frames[1..]);
    }
  }

  // ----- what the chunk count counts --------------------------------------------------------

  /** Sequence numbers count compiled texts: up to a gap, and for good once the stream is complete. */
  predicate Counted(s: Stream) {
    && (s.generationId.Some? <==> s.lastSequence >= 0) && s.lastSequence >= -1
    && (!s.gap && !s.complete ==> |s.texts| == if s.lastSequence < 0 then 0 else s.lastSequence)
    && (s.complete ==> |s.texts| == s.lastSequence - 1)
  }

  lemma PushKeepsCount(c: Compiler, s: Stream, frame: Frame)
    requires Counted(s)
    ensures Counted(Push(c, s, frame))
  {
  }

  /**
   For every frame sequence, with or without a gap: a complete stream reports as its chunk count the number
   of texts it compiled, which are those of the chunks it took.
   */
  lemma {:induction false} CountIsCompiledTexts(c: Compiler, baseline: Option<CommittedUi>, frames: seq<Frame>)
    ensures var s := PushAll(c, Init(baseline), frames);
            && Counted(s)
            && (s.complete ==>
                  s.texts == ChunkTexts(ReadAll(c, frames).events) && s.lastSequence - 1 == |s.texts|
                  && c.final(s.texts).Some?)
            && (s.complete && !s.gap ==> s.preview == c.final(s.texts))
    decreases |frames|
  {
    if frames != [] {
      var earlier, last := frames[..|frames| - 1], frames[|frames| - 1];
      CountIsCompiledTexts(c, baseline, earlier);
      PushAllLast(c, Init(baseline), frames);
      PushKeepsCount(c, PushAll(c, Init(baseline), earlier), last);
    }
    EveryFrameSequence(c, baseline, frames);
  }

  // ----- deliveries of one generation -------------------------------------------------------

  /** The events one finished generation writes. */
  function GenerationEvents(g: string, texts: seq<string>): (r: seq<UiEvent>)
    ensures |r| == |texts| + 2
  {
    [RawEvent(g, 0, Start)] + Chunks(g, texts) + [RawEvent(g, |texts| + 1, Complete)]
  }

  function Chunks(g: string, texts: seq<string>): (r: seq<UiEvent>)
    ensures |r| == |texts|
    ensures forall i :: 0 <= i < |r| ==> r[i] == RawEvent(g, i + 1, Chunk(texts[i]))
  {
    seq(|texts|, i requires 0 <= i < |texts| => RawEvent(g, i + 1, Chunk(texts[i])))
  }

  /** The texts compile at every step and validate at the end, so a run that is not aborted commits. */
  ghost predicate Committable(c: Compiler, texts: seq<string>) {
    AllCompile(c, texts) && c.final(texts).Some?
  }

  ghost function Committed(c: Compiler, g: string, texts: seq<string>): CommittedUi
    requires Committable(c, texts)
  {
    CommittedUi(g, c.final(texts).value, |texts|)
  }

  /** A delivery names, frame by frame, which event arrives; `None` is an unrelated frame. */
  type Delivery = seq<Option<nat>>

  predicate Within(d: Delivery, n: nat) {
    forall i :: 0 <= i < |d| ==> d[i].Some? ==> d[i].value < n
  }

  function Frames(d: Delivery, events: seq<UiEvent>): (r: seq<Frame>)
    requires Within(d, |events|)
    ensures |r| == |d|
  {
    seq(|d|, i requires 0 <= i < |d| => if d[i].None? then Foreign else Event(events[d[i].value]))
  }

  /** One more than the highest event seen, after one more frame. */
  function Advance(arrived: Option<nat>, next: nat): nat {
    if arrived.Some? && arrived.value >= next then arrived.value + 1 else next
  }

  /** One more than the highest event seen, after a whole delivery. */
  function Reach(d: Delivery, next: nat): nat {
    if d == [] then next else Reach(d[1..], Advance(d[0], next))
  }

  /** No event arrives before all earlier ones, `next` of which have arrived already. */
  predicate NeverSkips(d: Delivery, next: nat) {
    d == [] || ((d[0].Some? ==> d[0].value <= next) && NeverSkips(d[1..], Advance(d[0], next)))
  }

  /** The state after exactly the first `k` events, once each, in order. */
  ghost function InOrder(c: Compiler, baseline: Option<CommittedUi>, g: string, texts: seq<string>, k: nat): Stream
    requires k <= |texts| + 2
  {
    var pushed := if k == 0 then [] else if k <= |texts| + 1 then texts[..k - 1] else texts;
    Stream(baseline, if k == 0 then None else Some(g), k - 1, k == |texts| + 2, false,
           if k == |texts| + 2 then c.final(texts) else if pushed == [] then UiSpec(baseline) else c.preview(pushed),
           pushed)
  }

  /** From the in-order state, a known event changes nothing, the next one advances, a later one opens a gap. */
  lemma DeliverOne(c: Compiler, baseline: Option<CommittedUi>, g: string, texts: seq<string>, k: nat, index: nat)
    requires Committable(c, texts) && k <= |texts| + 2 && index < |texts| + 2
    ensures var next := Push(c, InOrder(c, baseline, g, texts, k), Event(GenerationEvents(g, texts)[index]));
            && (index < k ==> next == InOrder(c, baseline, g, texts, k))
            && (index == k ==> next == InOrder(c, baseline, g, texts, k + 1))
            && (index > k ==> next.gap)
  {
    var e := GenerationEvents(g, texts)[index];
    assert e.sequence == index && e.generationId == g;
    if index == k && 0 < k <= |texts| {
      assert texts[..k - 1] + [texts[k - 1]] == texts[..k];
    } else if index == k == |texts| + 1 {
      assert texts[..k - 1] == texts;
    }
  }

  lemma {:induction false} DeliverFrom(
    c: Compiler, baseline: Option<CommittedUi>, g: string, texts: seq<string>, d: Delivery, k: nat)
    requires Committable(c, texts) && k <= |texts| + 2
    requires Within(d, |texts| + 2)
    ensures Reach(d, k) <= |texts| + 2
    ensures var end := PushAll(c, InOrder(c, baseline, g, texts, k), Frames(d, GenerationEvents(g, texts)));
            && (NeverSkips(d, k) ==> end == InOrder(c, baseline, g, texts, Reach(d, k)))
            && (!NeverSkips(d, k) ==> end.gap)
    decreases |d|
  {
    if d != [] {
      var events := GenerationEvents(g, texts);
      var frames := Frames(d, events);
      assert frames[1..] == Frames(d[1..], events);
      var s := InOrder(c, baseline, g, texts, k);
      var next := Push(c, s, frames[0]);
      if d[0].Some? {
        DeliverOne(c, baseline, g, texts, k, d[0].value);
      }
      if d[0].Some? && d[0].value > k {
        GapAndIdentityPersist(c, next, frames[1..]);
      }
      DeliverFrom(c, baseline, g, texts, d[1..], Advance(d[0], k));
    }
  }

  /**
   For every delivery of one committed generation, with drops, duplicates and reordering: the stream
   ends complete and without a gap if and only if no event arrived ahead of an earlier one and the last
   event arrived. It then equals exactly-once, in-order delivery and shows the committed plan.
   */
  lemma DeliveryIsExactlyOnce(c: Compiler, baseline: Option<CommittedUi>, g: string, texts: seq<string>, d: Delivery)
    requires Committable(c, texts)
    requires Within(d, |texts| + 2)
    ensures var events := GenerationEvents(g, texts);
            var end := PushAll(c, Init(baseline), Frames(d, events));
            && (end.gap <==> !NeverSkips(d, 0))
            && (end.complete && !end.gap <==> NeverSkips(d, 0) && Reach(d, 0) == |texts| + 2)
            && (end.complete && !end.gap ==>
                  && end == PushAll(c, Init(baseline), Frames(Straight(|texts| + 2), events))
                  && end.generationId == Some(Committed(c, g, texts).generationId)
                  && end.preview == Some(Committed(c, g, texts).spec)
                  && end.lastSequence - 1 == Committed(c, g, texts).chunkCount)
  {
    assert InOrder(c, baseline, g, texts, 0) == Init(baseline);
    DeliverFrom(c, baseline, g, texts, d, 0);
    StraightNeverSkips(|texts| + 2, 0);
    assert Straight(|texts| + 2)[0..] == Straight(|texts| + 2);
    DeliverFrom(c, baseline, g, texts, Straight(|texts| + 2), 0);
  }

  /** 0, 1, ..., n-1, once each. */
  function Straight(n: nat): (d: Delivery)
    ensures |d| == n && Within(d, n)
  {
    seq(n, i requires 0 <= i < n => Some(i))
  }

  lemma {:induction false} StraightNeverSkips(n: nat, k: nat)
    requires k <= n
    ensures NeverSkips(Straight(n)[k..], k) && Reach(Straight(n)[k..], k) == n
    decreases n - k
  {
    if k < n {
      var rest := Straight(n)[k..];
      assert rest[0] == Some(k) && rest[1..] == Straight(n)[k + 1..];
      StraightNeverSkips(n, k + 1);
    }
  }

  // ----- the stream object ------------------------------------------------------------------

  /** `createUiStream`: fields updated in place, one compiler per object. */
  class UiStream {
    const compiler: Compiler
    const baseline: Option<CommittedUi>
    var generationId: Option<string>
    var lastSequence: int
    var complete: bool
    var gap: bool
    var preview: Option<Spec>
    var texts: seq<string>

    function State(): Stream
      reads this
    {
      Stream(baseline, generationId, lastSequence, complete, gap, preview, texts)
    }

    ghost predicate Valid()
      reads this
    {
      Counted(State())
    }

    constructor (compiler: Compiler, baseline: Option<CommittedUi>)
      ensures this.compiler == compiler && State() == Init(baseline) && Valid()
    {
      this.compiler := compiler;
      this.baseline := baseline;
      generationId, lastSequence, complete, gap := None, -1, false, false;
      preview := UiSpec(baseline);
      texts := [];
    }

    method DropPreview()
      modifies this
      ensures State() == LosePreview(old(State()))
    {
      gap := true;
      preview := UiSpec(baseline);
    }

    method Receive(frame: Frame)
      requires Valid()
      modifies this
      ensures Valid() && State() == Push(compiler, old(State()), frame)
    {
      PushKeepsCount(compiler, State(), frame);
      if frame.Foreign? {
        return;
      }
      if frame.Malformed? {
        DropPreview();
        return;
      }
      var event := frame.event;
      if generationId.Some? && event.generationId != generationId.value {
        return;
      }
      if event.sequence <= lastSequence {
        return;
      }
      if generationId.None? && event.phase.Start? {
        generationId := Some(event.generationId);
      }
      if generationId.None? || event.sequence != lastSequence + 1 || complete {
        DropPreview();
        return;
      }
      lastSequence := event.sequence;
      if gap {
        return;
      }
      if event.phase.Chunk? {
        texts := texts + [event.phase.text];
        var result := compiler.preview(texts);
        if result.Some? {
          preview := result;
        } else {
          DropPreview();
        }
      }
      if event.phase.Complete? {
        var result := compiler.final(texts);
        if result.Some? {
          preview := result;
          complete := true;
        } else {
          DropPreview();
        }
      }
    }

    /** Reported only once the stream is complete: how many texts were compiled. */
    method ChunkCount() returns (count: Option<int>)
      requires Valid()
      ensures count == if complete then Some(|texts|) else None
    {
      count := if complete then Some(lastSequence - 1) else None;
    }

    /** Everything a run's stream delivers to a new object. */
    method ReceiveAll(frames: seq<Frame>) returns (count: Option<int>)
      requires State() == Init(baseline)
      modifies this
      ensures Valid() && Describes(compiler, State(), ReadAll(compiler, frames))
      ensures complete && !gap ==>
                var chunks := ChunkTexts(ReadAll(compiler, frames).events);
                count == Some(|chunks|) && preview == compiler.final(chunks)
      ensures count.None? <==> !complete
    {
      for i := 0 to |frames|
        invariant Valid()
        invariant PushAll(compiler, State(), frames[i..]) == PushAll(compiler, Init(baseline), frames)
      {
        assert frames[i..][0] == frames[i] && frames[i..][1..] == frames[i + 1..];
        Receive(frames[i]);
      }
      EveryFrameSequence(compiler, baseline, frames);
      CountIsCompiledTexts(compiler, baseline, frames);
      count := ChunkCount();
    }
  }
}
