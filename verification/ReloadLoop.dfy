/**
 Reload coalescing of the dev server: debounced file events, one reload at a time, and changes that
 arrive during a reload remembered for another one.
 */
module ReloadLoop {
  import opened Common

  /**
   `pending` to `dirty` are the source's variables. `timers` are the timeouts that have not fired,
   `active` the reload bodies that have not finished; the rest is history, on a clock that ticks with
   every step.
   */
  datatype Loop = Loop(
    pending: Option<nat>,
    reloading: bool,
    dirty: bool,
    timers: set<nat>,
    active: nat,
    created: nat,
    fires: nat,
    starts: nat,
    now: nat,
    lastEvent: Option<nat>,
    lastStart: Option<nat>)

  const IDLE := Loop(None, false, false, {}, 0, 0, 0, 0, 0, None, None)

  /** `reload` up to its first `await`. */
  function Reload(s: Loop): Loop {
    if s.reloading then s.(dirty := true)
    else s.(reloading := true, active := s.active + 1, starts := s.starts + 1, lastStart := Some(s.now))
  }

  /** The `finally` block; it runs whether or not the reload failed. */
  function Finish(s: Loop): Loop
    requires s.active > 0
  {
    var idle := s.(reloading := false, active := s.active - 1);
    if s.dirty then Reload(idle.(dirty := false)) else idle
  }

  /** `onFileEvent`; changes to the server's own files are not relevant. */
  function FileEvent(s: Loop, relevant: bool): Loop {
    if !relevant then s
    else
      s.(timers := (if s.pending.Some? then s.timers - {s.pending.value} else s.timers) + {s.created},
         pending := Some(s.created), created := s.created + 1, lastEvent := Some(s.now))
  }

  datatype Action = Changed(relevant: bool) | Fires(timer: nat) | Finishes

  predicate Enabled(s: Loop, a: Action) {
    match a
    case Changed(_) => true
    case Fires(timer) => timer in s.timers
    case Finishes => s.active > 0
  }

  function Next(s: Loop, a: Action): Loop
    requires Enabled(s, a)
  {
    var tick := s.(now := s.now + 1);
    match a
    case Changed(relevant) => FileEvent(tick, relevant)
    case Fires(timer) => Reload(tick.(timers := s.timers - {timer}, fires := s.fires + 1))
    case Finishes => Finish(tick)
  }

  function Run(s: Loop, actions: seq<Action>): Option<Loop>
    decreases |actions|
  {
    if actions == [] then Some(s)
    else if !Enabled(s, actions[0]) then None
    else Run(Next(s, actions[0]), actions[1..])
  }

  /** The last reload started after the last relevant change. */
  predicate UpToDate(s: Loop) {
    s.lastEvent.Some? ==> s.lastStart.Some? && s.lastStart.value > s.lastEvent.value
  }

  predicate Inv(s: Loop) {
    && s.active == (if s.reloading then 1 else 0)
    && (s.dirty ==> s.reloading)
    && s.starts + (if s.dirty then 1 else 0) <= s.fires
    && (forall t :: t in s.timers ==> s.pending == Some(t))
    && (s.pending.Some? ==> s.pending.value < s.created)
    && (s.lastEvent.Some? ==> s.lastEvent.value <= s.now)
    && (s.timers == {} && !s.dirty ==> UpToDate(s))
  }

  lemma NextKeepsInv(s: Loop, a: Action)
    requires Inv(s) && Enabled(s, a)
    ensures Inv(Next(s, a))
  {
    if a.Fires? {
      assert s.timers == {a.timer};
    } else if a.Changed? && a.relevant {
      assert s.created in Next(s, a).timers;
    }
  }

  lemma {:induction false} RunKeepsInv(s: Loop, actions: seq<Action>)
    requires Inv(s)
    ensures Run(s, actions).Some? ==> Inv(Run(s, actions).value)
    decreases |actions|
  {
    if actions != [] && Enabled(s, actions[0]) {
      NextKeepsInv(s, actions[0]);
      RunKeepsInv(Next(s, actions[0]), actions[1..]);
    }
  }

  /**
   For every interleaving of changes, timers and (possibly failing) reloads: at most one reload runs,
   there are never more reloads than timer firings, at most one timer is waiting, and once nothing is
   waiting or running the last reload started after the last relevant change.
   */
  lemma EveryInterleaving(actions: seq<Action>)
    requires Run(IDLE, actions).Some?
    ensures var end := Run(IDLE, actions).value;
            && end.active <= 1
            && end.starts <= end.fires
            && (forall t, u :: t in end.timers && u in end.timers ==> t == u)
            && (end.timers == {} && !end.reloading ==> UpToDate(end))
  {
    RunKeepsInv(IDLE, actions);
  }

  /** How many of these are changes that matter. */
  function Relevant(actions: seq<Action>): nat {
    if actions == [] then 0
    else (if actions[0].Changed? && actions[0].relevant then 1 else 0) + Relevant(actions[1..])
  }

  lemma OneTimer(s: Loop, relevant: bool)
    requires Inv(s)
    ensures var next := Next(s, Changed(relevant));
            next.timers == (if relevant then {s.created} else s.timers)
            && next.created == s.created + (if relevant then 1 else 0) && next.fires == s.fires
  {
    var others := if s.pending.Some? then s.timers - {s.pending.value} else s.timers;
    assert others == {};
  }

  lemma TimerSpent(s: Loop, a: Action)
    requires Enabled(s, a) && !a.Changed?
    ensures var next := Next(s, a);
            next.fires + |next.timers| == s.fires + |s.timers| && next.created == s.created
  {
  }

  /** Every timer that waits or has fired comes from one relevant change; an irrelevant one sets none. */
  lemma {:induction false} TimersAreChanges(s: Loop, actions: seq<Action>)
    requires Inv(s) && Run(s, actions).Some?
    requires s.fires + |s.timers| <= s.created
    ensures var end := Run(s, actions).value;
            end.created == s.created + Relevant(actions) && end.fires + |end.timers| <= end.created
    decreases |actions|
  {
    if actions != [] {
      var a := actions[0];
      NextKeepsInv(s, a);
      if a.Changed? {
        OneTimer(s, a.relevant);
      } else {
        TimerSpent(s, a);
      }
      TimersAreChanges(Next(s, a), actions[1..]);
    }
  }

  /** There are never more reloads than relevant changes, and none at all without one. */
  lemma NoReloadWithoutChange(actions: seq<Action>)
    requires Run(IDLE, actions).Some?
    ensures var end := Run(IDLE, actions).value;
            && end.starts <= end.fires <= Relevant(actions)
            && (Relevant(actions) == 0 ==> end.timers == {} && !end.reloading)
  {
    RunKeepsInv(IDLE, actions);
    TimersAreChanges(IDLE, actions);
    if Relevant(actions) == 0 {
      NeverReloads(IDLE, actions);
    }
  }

  lemma {:induction false} NeverReloads(s: Loop, actions: seq<Action>)
    requires s.timers == {} && !s.reloading && s.active == 0 && Run(s, actions).Some? && Relevant(actions) == 0
    ensures var end := Run(s, actions).value;
            end.timers == {} && !end.reloading && end.active == 0
    decreases |actions|
  {
    if actions != [] {
      NeverReloads(Next(s, actions[0]), actions[1..]);
    }
  }

  /** A change puts off the reload that was waiting; its timer, when it fires, starts one or asks for another. */
  lemma ChangeIsReloaded(s: Loop)
    requires Inv(s)
    ensures var changed := Next(s, Changed(true));
            && changed.timers == {s.created} && changed.reloading == s.reloading && changed.starts == s.starts
            && var fired := Next(changed, Fires(s.created));
               && fired.timers == {}
               && (if s.reloading then fired.dirty && fired.starts == s.starts
                   else fired.reloading && !fired.dirty && fired.starts == s.starts + 1)
  {
    OneTimer(s, true);
  }

  /** The closure variables and callbacks. */
  class Reloader {
    var pending: Option<nat>
    var reloading: bool
    var dirty: bool
    var timers: set<nat>
    var active: nat
    var created: nat
    ghost var fires: nat
    ghost var starts: nat
    ghost var now: nat
    ghost var lastEvent: Option<nat>
    ghost var lastStart: Option<nat>

    ghost function State(): Loop
      reads this
    {
      Loop(pending, reloading, dirty, timers, active, created, fires, starts, now, lastEvent, lastStart)
    }

    constructor ()
      ensures State() == IDLE
    {
      pending, reloading, dirty, timers, active, created := None, false, false, {}, 0, 0;
      fires, starts, now, lastEvent, lastStart := 0, 0, 0, None, None;
    }

    method BeginReload()
      modifies this
      ensures State() == Reload(old(State()))
    {
      if reloading {
        dirty := true;
        return;
      }
      reloading := true;
      active, starts, lastStart := active + 1, starts + 1, Some(now);
    }

    method OnFileEvent(relevant: bool)
      modifies this
      ensures State() == Next(old(State()), Changed(relevant))
    {
      now := now + 1;
      if !relevant {
        return;
      }
      if pending.Some? {
        timers := timers - {pending.value};
      }
      pending, timers, created := Some(created), timers + {created}, created + 1;
      lastEvent := Some(now);
    }

    method OnTimer(timer: nat)
      requires timer in timers
      modifies this
      ensures State() == Next(old(State()), Fires(timer))
    {
      now, timers, fires := now + 1, timers - {timer}, fires + 1;
      BeginReload();
    }

    method OnReloadSettled()
      requires active > 0
      modifies this
      ensures State() == Next(old(State()), Finishes)
    {
      now, active := now + 1, active - 1;
      reloading := false;
      if dirty {
        dirty := false;
        BeginReload();
      }
    }

    /**
     Any schedule on a new server, until it asks for an impossible step: at most one reload and one
     timer at any time, and the last reload is later than the last change once nothing is left to do.
     */
    method Replay(actions: seq<Action>) returns (ok: bool)
      requires State() == IDLE
      modifies this
      ensures Run(IDLE, actions) == if ok then Some(State()) else None
      ensures active == (if reloading then 1 else 0) && starts <= fires
      ensures forall t :: t in timers ==> pending == Some(t)
      ensures timers == {} && !reloading ==> UpToDate(State())
    {
      for i := 0 to |actions|
        invariant Inv(State())
        invariant Run(State(), actions[i..]) == Run(IDLE, actions)
      {
        assert actions[i..][0] == actions[i] && actions[i..][1..] == actions[i + 1..];
        if Enabled(State(), actions[i]) {
          NextKeepsInv(State(), actions[i]);
        }
        match actions[i]
        case Changed(relevant) => OnFileEvent(relevant);
        case Fires(timer) =>
          if timer !in timers {
            return false;
          }
          OnTimer(timer);
        case Finishes =>
          if active == 0 {
            return false;
          }
          OnReloadSettled();
      }
      ok := true;
    }
  }
}
