/** Applying resolved environments to the process, again on every reload. */
module ProjectEnv {
  import opened Common

  type Vars = map<string, string>

  /** `Object.entries` of a resolved environment. */
  type Entries = seq<(string, string)>

  /** `process.env`, and the keys this module has put there itself. */
  datatype Process = Process(env: Vars, applied: set<string>)

  function SetOne(s: Process, key: string, value: string): Process {
    if key !in s.env || key in s.applied then Process(s.env[key := value], s.applied + {key}) else s
  }

  /** `applyEnv`: fill holes and update own values, never clobber. */
  function Apply(s: Process, resolved: Entries): Process
    decreases |resolved|
  {
    if resolved == [] then s else Apply(SetOne(s, resolved[0].0, resolved[0].1), resolved[1..])
  }

  /** One application at start-up and one on every reload. */
  function ApplyAll(s: Process, all: seq<Entries>): Process {
    if all == [] then s else Apply(ApplyAll(s, all[..|all| - 1]), all[|all| - 1])
  }

  function Lookup(vars: Vars, key: string): Option<string> {
    if key in vars then Some(vars[key]) else None
  }

  /** The value of `key` in one resolved environment. */
  function ValueIn(resolved: Entries, key: string): Option<string> {
    if resolved == [] then None
    else if resolved[|resolved| - 1].0 == key then Some(resolved[|resolved| - 1].1)
    else ValueIn(resolved[..|resolved| - 1], key)
  }

  /** The value of `key` in the last resolved environment that has one. */
  function LastValue(all: seq<Entries>, key: string): Option<string> {
    if all == [] then None
    else if ValueIn(all[|all| - 1], key).Some? then ValueIn(all[|all| - 1], key)
    else LastValue(all[..|all| - 1], key)
  }

  /** What this module has set is what the process did not start with. */
  predicate Owns(s: Process, ambient: Vars, key: string) {
    key in s.applied <==> key !in ambient && key in s.env
  }

  lemma {:induction false} ApplyAppend(s: Process, resolved: Entries, last: (string, string))
    ensures Apply(s, resolved + [last]) == SetOne(Apply(s, resolved), last.0, last.1)
    decreases |resolved|
  {
    if resolved == [] {
      assert (resolved + [last])[1..] == [];
    } else {
      assert (resolved + [last])[1..] == resolved[1..] + [last];
      ApplyAppend(SetOne(s, resolved[0].0, resolved[0].1), resolved[1..], last);
    }
  }

  lemma {:induction false} OneApplication(s: Process, ambient: Vars, resolved: Entries, key: string)
    requires Owns(s, ambient, key) && (key in ambient ==> key in s.env)
    ensures var next := Apply(s, resolved);
            && Owns(next, ambient, key) && (key in ambient ==> key in next.env)
            && Lookup(next.env, key) ==
                 (if key !in ambient && ValueIn(resolved, key).Some? then ValueIn(resolved, key)
                  else Lookup(s.env, key))
    decreases |resolved|
  {
    if resolved != [] {
      var init, last := resolved[..|resolved| - 1], resolved[|resolved| - 1];
      assert resolved == init + [last];
      OneApplication(s, ambient, init, key);
      ApplyAppend(s, init, last);
    }
  }

  /**
   For every sequence of applications: a key the process started with keeps its value; any other key
   has the value of the last environment that contains it, and is set only by this module.
   */
  lemma {:induction false} EverySequenceOfApplications(ambient: Vars, all: seq<Entries>, key: string)
    ensures var end := ApplyAll(Process(ambient, {}), all);
            && Lookup(end.env, key) == (if key in ambient then Some(ambient[key]) else LastValue(all, key))
            && Owns(end, ambient, key)
    decreases |all|
  {
    if all != [] {
      var init := all[..|all| - 1];
      EverySequenceOfApplications(ambient, init, key);
      OneApplication(ApplyAll(Process(ambient, {}), init), ambient, all[|all| - 1], key);
    }
  }

  /** The module with its state; `env` stands for `process.env`. */
  class Environment {
    var env: Vars
    var appliedKeys: set<string>

    function State(): Process
      reads this
    {
      Process(env, appliedKeys)
    }

    constructor (ambient: Vars)
      ensures State() == Process(ambient, {})
    {
      env, appliedKeys := ambient, {};
    }

    method ApplyEnv(resolved: Entries)
      modifies this
      ensures State() == Apply(old(State()), resolved)
    {
      for i := 0 to |resolved|
        invariant Apply(State(), resolved[i..]) == Apply(old(State()), resolved)
      {
        var (key, value) := resolved[i];
        assert resolved[i..][1..] == resolved[i + 1..];
        if key !in env || key in appliedKeys {
          env := env[key := value];
          appliedKeys := appliedKeys + {key};
        }
      }
    }

    /** Start-up and every reload after it, in a process that has not applied anything yet. */
    method ApplyEach(all: seq<Entries>)
      requires appliedKeys == {}
      modifies this
      ensures forall key :: Lookup(env, key) == if key in old(env) then Some(old(env)[key]) else LastValue(all, key)
    {
      ghost var ambient := env;
      for i := 0 to |all|
        invariant State() == ApplyAll(Process(ambient, {}), all[..i])
      {
        assert all[..i + 1][..i] == all[..i];
        ApplyEnv(all[i]);
      }
      assert all[..|all|] == all;
      forall key ensures Lookup(env, key) == if key in ambient then Some(ambient[key]) else LastValue(all, key) {
        EverySequenceOfApplications(ambient, all, key);
      }
    }
  }
}
