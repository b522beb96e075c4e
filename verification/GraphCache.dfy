/** The registry's promise cache: concurrent requests share a load, and a failed load is evicted. */
module GraphCache {
  import opened Common

  /** `Rejected`: the work failed and its `catch` handler has not run yet. `Failed`: it has. */
  datatype Status = Loading | Rejected | Failed | Loaded

  datatype Load = Load(graphId: string, status: Status)

  /** `cache` maps a graph id to the number of the load whose promise it holds. */
  datatype Registry = Registry(cache: map<string, nat>, loads: seq<Load>)

  const EMPTY := Registry(map[], [])

  /** `memoize`: the new state, and the load whose promise is returned. */
  function Memoize(s: Registry, graphId: string): (Registry, nat) {
    if graphId in s.cache then (s, s.cache[graphId])
    else (Registry(s.cache[graphId := |s.loads|], s.loads + [Load(graphId, Loading)]), |s.loads|)
  }

  datatype Action = Request(graphId: string) | Settle(load: nat, ok: bool) | Catch(load: nat)

  predicate Enabled(s: Registry, a: Action) {
    match a
    case Request(_) => true
    case Settle(load, _) => load < |s.loads| && s.loads[load].status.Loading?
    case Catch(load) => load < |s.loads| && s.loads[load].status.Rejected?
  }

  function Next(s: Registry, a: Action): Registry
    requires Enabled(s, a)
  {
    match a
    case Request(graphId) => Memoize(s, graphId).0
    case Settle(load, ok) => s.(loads := s.loads[load := s.loads[load].(status := if ok then Loaded else Rejected)])
    case Catch(load) =>
      Registry(s.cache - {s.loads[load].graphId}, s.loads[load := s.loads[load].(status := Failed)])
  }

  function Run(s: Registry, actions: seq<Action>): Option<Registry>
    decreases |actions|
  {
    if actions == [] then Some(s)
    else if !Enabled(s, actions[0]) then None
    else Run(Next(s, actions[0]), actions[1..])
  }

  /** A load that has not failed for good is the one in the cache, and the cache holds nothing else. */
  predicate Inv(s: Registry) {
    && (forall i :: 0 <= i < |s.loads| && !s.loads[i].status.Failed? ==>
          s.loads[i].graphId in s.cache && s.cache[s.loads[i].graphId] == i)
    && (forall g :: g in s.cache ==>
          s.cache[g] < |s.loads| && s.loads[s.cache[g]].graphId == g && !s.loads[s.cache[g]].status.Failed?)
  }

  lemma NextKeepsInv(s: Registry, a: Action)
    requires Inv(s) && Enabled(s, a)
    ensures Inv(Next(s, a))
  {
  }

  lemma {:induction false} RunKeepsInv(s: Registry, actions: seq<Action>)
    requires Inv(s)
    ensures Run(s, actions).Some? ==> Inv(Run(s, actions).value)
    decreases |actions|
  {
    if actions != [] && Enabled(s, actions[0]) {
      NextKeepsInv(s, actions[0]);
      RunKeepsInv(Next(s, actions[0]), actions[1..]);
    }
  }

  /**
   For every interleaving of requests and settlements: two loads of one graph that have not failed are
   the same load; a request joins it if there is one and starts a new load if there is none; and a
   `catch` handler evicts its own load, never a newer one.
   */
  lemma EveryInterleaving(actions: seq<Action>)
    requires Run(EMPTY, actions).Some?
    ensures var end := Run(EMPTY, actions).value;
            && (forall i, j :: 0 <= i < j < |end.loads| && end.loads[i].graphId == end.loads[j].graphId ==>
                  end.loads[i].status.Failed? || end.loads[j].status.Failed?)
            && (forall i :: 0 <= i < |end.loads| && !end.loads[i].status.Failed? ==>
                  Memoize(end, end.loads[i].graphId) == (end, i))
            && (forall g ::
                  (forall i :: 0 <= i < |end.loads| && end.loads[i].graphId == g ==> end.loads[i].status.Failed?) ==>
                  Memoize(end, g).1 == |end.loads| && |Memoize(end, g).0.loads| == |end.loads| + 1)
            && (forall g :: g !in end.cache ==> Memoize(end, g).0.loads == end.loads + [Load(g, Loading)])
            && (forall i :: 0 <= i < |end.loads| && end.loads[i].status.Rejected? ==>
                  end.cache[end.loads[i].graphId] == i)
  {
    RunKeepsInv(EMPTY, actions);
  }

  /** A load that succeeded is served for ever: no schedule evicts it or loads its graph again. */
  lemma {:induction false} SuccessIsKept(s: Registry, actions: seq<Action>, load: nat)
    requires Inv(s) && load < |s.loads| && s.loads[load].status.Loaded?
    requires Run(s, actions).Some?
    ensures var end := Run(s, actions).value;
            && Inv(end) && |s.loads| <= |end.loads| && end.loads[load] == s.loads[load]
            && Memoize(end, s.loads[load].graphId) == (end, load)
            && (forall i :: 0 <= i < |s.loads| ==> end.loads[i].graphId == s.loads[i].graphId)
            && (forall i :: |s.loads| <= i < |end.loads| ==> end.loads[i].graphId != s.loads[load].graphId)
    decreases |actions|
  {
    if actions != [] {
      NextKeepsInv(s, actions[0]);
      var next := Next(s, actions[0]);
      SuccessIsKept(next, actions[1..], load);
      assert |next.loads| > |s.loads| ==> next.loads[|s.loads|].graphId != s.loads[load].graphId;
    }
  }

  lemma {:induction false} RunAppend(s: Registry, actions: seq<Action>, more: seq<Action>)
    requires Run(s, actions).Some?
    ensures Run(s, actions + more) == Run(Run(s, actions).value, more)
    decreases |actions|
  {
    if actions == [] {
      assert actions + more == more;
    } else {
      assert (actions + more)[1..] == actions[1..] + more;
      RunAppend(Next(s, actions[0]), actions[1..], more);
    }
  }

  /** Once the work behind a load succeeds, every later request for its graph gets that load. */
  lemma SettledWellIsServed(before: seq<Action>, load: nat, after: seq<Action>)
    requires Run(EMPTY, before + [Settle(load, true)] + after).Some?
    ensures Run(EMPTY, before).Some? && load < |Run(EMPTY, before).value.loads|
    ensures var graphId := Run(EMPTY, before).value.loads[load].graphId;
            var end := Run(EMPTY, before + [Settle(load, true)] + after).value;
            Memoize(end, graphId) == (end, load)
  {
    assert before + [Settle(load, true)] + after == before + ([Settle(load, true)] + after);
    RunPrefix(EMPTY, before, [Settle(load, true)] + after);
    RunAppend(EMPTY, before, [Settle(load, true)] + after);
    RunKeepsInv(EMPTY, before);
    var s := Run(EMPTY, before).value;
    assert ([Settle(load, true)] + after)[1..] == after;
    NextKeepsInv(s, Settle(load, true));
    SuccessIsKept(Next(s, Settle(load, true)), after, load);
  }

  lemma {:induction false} RunPrefix(s: Registry, actions: seq<Action>, more: seq<Action>)
    requires Run(s, actions + more).Some?
    ensures Run(s, actions).Some?
    decreases |actions|
  {
    if actions != [] {
      assert (actions + more)[1..] == actions[1..] + more;
      RunPrefix(Next(s, actions[0]), actions[1..], more);
    }
  }

  /** Once it fails and the failure has been handled, the next request starts the graph's work again. */
  lemma SettledBadlyIsRetried(actions: seq<Action>, load: nat)
    requires Run(EMPTY, actions).Some? && Enabled(Run(EMPTY, actions).value, Settle(load, false))
    ensures var s := Run(EMPTY, actions).value;
            var failed := Next(s, Settle(load, false));
            && Memoize(failed, s.loads[load].graphId) == (failed, load)
            && Enabled(failed, Catch(load))
            && var handled := Next(failed, Catch(load));
               var (retried, next) := Memoize(handled, s.loads[load].graphId);
               next == |s.loads| && retried.loads == handled.loads + [Load(s.loads[load].graphId, Loading)]
  {
    RunKeepsInv(EMPTY, actions);
  }

  /** The cache object. */
  class PromiseCache {
    var cache: map<string, nat>
    var loads: seq<Load>

    function State(): Registry
      reads this
    {
      Registry(cache, loads)
    }

    constructor ()
      ensures State() == EMPTY
    {
      cache, loads := map[], [];
    }

    method Get(graphId: string) returns (load: nat)
      modifies this
      ensures (State(), load) == Memoize(old(State()), graphId)
    {
      if graphId in cache {
        return cache[graphId];
      }
      load := |loads|;
      loads := loads + [Load(graphId, Loading)];
      cache := cache[graphId := load];
    }

    /** The handler attached to the work: an unconditional delete. */
    method OnRejected(load: nat)
      requires Enabled(State(), Catch(load))
      modifies this
      ensures State() == Next(old(State()), Catch(load))
    {
      cache := cache - {loads[load].graphId};
      loads := loads[load := loads[load].(status := Failed)];
    }

    /** The work behind a load finishes. */
    method OnSettled(load: nat, ok: bool)
      requires Enabled(State(), Settle(load, ok))
      modifies this`loads
      ensures State() == Next(old(State()), Settle(load, ok))
    {
      loads := loads[load := loads[load].(status := if ok then Loaded else Rejected)];
    }

    /**
     Any schedule on a new cache, until it asks for an impossible step. Each graph then has at most one
     load that has not failed, and that is the one the cache hands out.
     */
    method Replay(actions: seq<Action>) returns (ok: bool)
      requires State() == EMPTY
      modifies this
      ensures Run(EMPTY, actions) == if ok then Some(State()) else None
      ensures forall i :: 0 <= i < |loads| && !loads[i].status.Failed? ==>
                loads[i].graphId in cache && cache[loads[i].graphId] == i
      ensures forall g :: g in cache ==>
                cache[g] < |loads| && loads[cache[g]].graphId == g && !loads[cache[g]].status.Failed?
    {
      for i := 0 to |actions|
        invariant Inv(State())
        invariant Run(State(), actions[i..]) == Run(EMPTY, actions)
      {
        assert actions[i..][0] == actions[i] && actions[i..][1..] == actions[i + 1..];
        if !Enabled(State(), actions[i]) {
          return false;
        }
        NextKeepsInv(State(), actions[i]);
        match actions[i]
        case Request(graphId) => var _ := Get(graphId);
        case Settle(load, ok) => OnSettled(load, ok);
        case Catch(load) => OnRejected(load);
      }
      ok := true;
    }
  }
}
