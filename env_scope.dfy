/**
 * The environment scope guard `setenvs` of provider.go: the process
 * environment table, the package mutex `setenvMux` that guards it, and the
 * reset closure that puts the table back.
 *
 * The environment is a `map<string, string>`; a name absent from the map is
 * unset.  An override set is `Option<map<string, string>>`, where `None` is
 * Go's nil map and `Some(map[])` an empty but non-nil one.
 */
module EnvScope {
  import opened Wrappers

  /** `os.Getenv`: the value of `name`, or "" when it is unset. */
  function Getenv(vars: map<string, string>, name: string): (v: string)
    ensures name !in vars ==> v == ""
    ensures name in vars ==> v == vars[name]
  {
    if name in vars then vars[name] else ""
  }

  /** The overrides as a plain map; Go reads a nil map as an empty one. */
  function Entries(envs: Option<map<string, string>>): (m: map<string, string>)
    ensures envs.Some? ==> m == envs.value
    ensures envs.None? ==> m == map[]
  {
    match envs
    case None => map[]
    case Some(m) => m
  }

  /** The table while a scope for `envs` is open: every override written over `vars`. */
  function ScopeEnv(vars: map<string, string>, envs: Option<map<string, string>>): (r: map<string, string>)
    ensures r.Keys == vars.Keys + Entries(envs).Keys
    ensures forall k :: k in Entries(envs) ==> r[k] == Entries(envs)[k]
    ensures forall k :: k in vars && k !in Entries(envs) ==> r[k] == vars[k]
  {
    vars + Entries(envs)
  }

  /** `origEnvs`: the value `os.Getenv` gave for each overridden name before it was written. */
  function Saved(vars: map<string, string>, envs: map<string, string>): (orig: map<string, string>)
    ensures orig.Keys == envs.Keys
    ensures forall k :: k in orig ==> orig[k] == Getenv(vars, k)
  {
    map k | k in envs :: Getenv(vars, k)
  }

  /**
   * What the reset closure leaves: every saved name whose saved value is ""
   * is unset, every other saved name gets its saved value back, and every
   * name that was not saved keeps what `vars` has.
   */
  function Restored(vars: map<string, string>, orig: map<string, string>): (r: map<string, string>)
    ensures forall k :: k in orig && orig[k] == "" ==> k !in r
    ensures forall k :: k in orig && orig[k] != "" ==> k in r && r[k] == orig[k]
    ensures forall k :: k !in orig ==> (k in r <==> k in vars)
    ensures forall k :: k !in orig && k in vars ==> r[k] == vars[k]
  {
    (vars - (set k | k in orig && orig[k] == "")) + (map k | k in orig && orig[k] != "" :: orig[k])
  }

  /** The table after a whole scope: enter with `envs`, then run the reset closure. */
  function AfterScope(vars: map<string, string>, envs: Option<map<string, string>>): map<string, string>
  {
    match envs
    case None => vars
    case Some(e) => Restored(ScopeEnv(vars, envs), Saved(vars, e))
  }

  /** A name whose value is set but empty: the one kind of value a scope cannot give back. */
  predicate SetToEmpty(vars: map<string, string>, k: string)
  {
    k in vars && vars[k] == ""
  }

  /**
   * The restoration rule.  Outside the override keys nothing changes.  An
   * overridden name comes back with its old value when that value was
   * non-empty, and comes back unset when it was unset or set to "".
   */
  lemma ScopeRestoration(vars: map<string, string>, envs: Option<map<string, string>>)
    ensures forall k :: k !in Entries(envs) ==> (k in AfterScope(vars, envs) <==> k in vars)
    ensures forall k :: k !in Entries(envs) && k in vars ==> AfterScope(vars, envs)[k] == vars[k]
    ensures forall k :: k in Entries(envs) ==>
      (k in AfterScope(vars, envs) <==> k in vars && vars[k] != "")
    ensures forall k :: k in Entries(envs) && k in vars && vars[k] != "" ==>
      AfterScope(vars, envs)[k] == vars[k]
  {
    if envs.Some? {
      var e := envs.value;
      var inside, orig := ScopeEnv(vars, envs), Saved(vars, e);
      forall k | k !in e
        ensures (k in Restored(inside, orig) <==> k in vars)
        ensures k in vars ==> Restored(inside, orig)[k] == vars[k]
      {
        assert k !in orig;
      }
      forall k | k in e
        ensures (k in Restored(inside, orig) <==> k in vars && vars[k] != "")
        ensures k in vars && vars[k] != "" ==> Restored(inside, orig)[k] == vars[k]
      {
        assert orig[k] == Getenv(vars, k);
      }
    }
  }

  /** When no overridden name was set to "", a scope leaves the table exactly as it found it. */
  lemma ScopeIsTransparent(vars: map<string, string>, envs: Option<map<string, string>>)
    requires forall k :: k in Entries(envs) ==> !SetToEmpty(vars, k)
    ensures AfterScope(vars, envs) == vars
  {
    ScopeRestoration(vars, envs);
    var r := AfterScope(vars, envs);
    assert r.Keys == vars.Keys;
  }

  /** A scope never leaves an overridden name set to "", so a second scope changes nothing more. */
  lemma ScopeIsIdempotent(vars: map<string, string>, envs: Option<map<string, string>>)
    ensures AfterScope(AfterScope(vars, envs), envs) == AfterScope(vars, envs)
  {
    var once := AfterScope(vars, envs);
    ScopeRestoration(vars, envs);
    assert forall k :: k in Entries(envs) ==> !SetToEmpty(once, k);
    ScopeIsTransparent(once, envs);
  }

  /** A variable set to the empty string comes back unset, not empty. */
  lemma EmptyValueComesBackUnset()
    ensures AfterScope(map["X" := ""], Some(map["X" := "v"])) == map[]
  {
    var vars := map["X" := ""];
    ScopeRestoration(vars, Some(map["X" := "v"]));
    assert AfterScope(vars, Some(map["X" := "v"])).Keys == {};
  }

  /** The reset closure `setenvs` returns. */
  datatype Reset =
    | NoOp                                      // the nil fast path: `func() {}`
    | RestoreSaved(orig: map<string, string>)   // restore `origEnvs`, then unlock

  /**
   * The process environment together with `setenvMux`: `vars` is the table
   * `os.Getenv`/`os.Setenv`/`os.Unsetenv` act on, `held` says whether the
   * mutex is locked.
   */
  class Environment {
    var vars: map<string, string>
    var held: bool

    constructor (vars: map<string, string>)
      ensures this.vars == vars && !held
    {
      this.vars := vars;
      held := false;
    }

    /**
     * `setenvs(envs)`.  A nil map returns the no-op reset and touches
     * nothing.  Otherwise it takes the mutex (which must be free: `Lock`
     * would block), saves each overridden name's current value and writes
     * the override.
     */
    method Setenvs(envs: Option<map<string, string>>) returns (reset: Reset)
      requires envs.Some? ==> !held
      modifies this
      ensures envs.None? ==> reset == NoOp && vars == old(vars) && held == old(held)
      ensures envs.Some? ==> reset == RestoreSaved(Saved(old(vars), envs.value))
      ensures envs.Some? ==> held
      ensures vars == ScopeEnv(old(vars), envs)
    {
      if envs.None? {
        return NoOp;
      }
      var e := envs.value;
      ghost var before := vars;
      held := true;
      var orig: map<string, string> := map[];
      var todo := e.Keys;
      while todo != {}
        invariant todo <= e.Keys
        invariant held
        invariant orig.Keys == e.Keys - todo
        invariant forall k :: k in orig ==> orig[k] == Getenv(before, k)
        invariant vars.Keys == before.Keys + (e.Keys - todo)
        invariant forall k :: k in vars ==> vars[k] == if k in e && k !in todo then e[k] else before[k]
        decreases todo
      {
        var name :| name in todo;
        orig := orig[name := Getenv(vars, name)];
        vars := vars[name := e[name]];
        todo := todo - {name};
      }
      assert orig == Saved(before, e);
      assert vars == ScopeEnv(before, envs);
      reset := RestoreSaved(orig);
    }

    /**
     * Runs a reset closure.  The no-op one does nothing.  The other writes
     * back every saved value (unsetting the names whose saved value is "")
     * while the mutex is still held, and unlocks it last.  It unlocks once:
     * running it on a free mutex is Go's fatal "unlock of unlocked mutex".
     */
    method Reset(reset: Reset)
      requires reset.RestoreSaved? ==> held
      modifies this
      ensures reset.NoOp? ==> vars == old(vars) && held == old(held)
      ensures reset.RestoreSaved? ==> vars == Restored(old(vars), reset.orig) && !held
    {
      if reset.NoOp? {
        return;
      }
      var orig := reset.orig;
      ghost var before := vars;
      var todo := orig.Keys;
      while todo != {}
        invariant todo <= orig.Keys
        invariant held
        invariant forall k :: k in orig && k !in todo && orig[k] == "" ==> k !in vars
        invariant forall k :: k in orig && k !in todo && orig[k] != "" ==> k in vars && vars[k] == orig[k]
        invariant forall k :: (k !in orig || k in todo) ==> (k in vars <==> k in before)
        invariant forall k :: (k !in orig || k in todo) && k in before ==> vars[k] == before[k]
        decreases todo
      {
        var name :| name in todo;
        var value := orig[name];
        if value == "" {
          vars := vars - {name};
        } else {
          vars := vars[name := value];
        }
        todo := todo - {name};
      }
      assert vars == Restored(before, orig);
      held := false;
    }
  }
}
