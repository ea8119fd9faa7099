/**
 * `newProvider` and the `providerWrapper` of provider.go: a DNS-01
 * provider built, and later driven, inside an environment scope for its
 * own override map.
 *
 * The provider factory (`dns.NewDNSChallengeProviderByName`), the option
 * decorator (`challenge.NewDNS01Provider`) and the providers' own `Present`
 * and `CleanUp` are foreign code, so they are parameters: total functions
 * of their arguments and of the environment table they observe when called.
 */
module Provider {
  import opened Wrappers
  import opened EnvScope
  import opened DnsOptions

  /** A Go `error` passed through this layer untouched. */
  datatype Error = Error(message: string)

  /** The factory: a provider name and the environment it reads its settings from. */
  type Factory<P> = (string, map<string, string>) -> Result<P, Error>

  /** The decorator that applies dns01 options to a provider, under the environment it sees. */
  type Decorator<!P> = (P, seq<ChallengeOption>, map<string, string>) -> Result<P, Error>

  /** A provider's `Present` or `CleanUp`: domain, token, key authorisation and the environment; `None` is nil. */
  type Delegate<-P> = (P, string, string, string, map<string, string>) -> Option<Error>

  /** dns01's FQDN cache, which this layer only ever clears. */
  class FqdnCache {
    /** How many times `dns01.ClearFqdnCache` has run. */
    var clears: nat
    /** The environment table at each clear, oldest first. */
    ghost var clearedUnder: seq<map<string, string>>

    constructor ()
      ensures clears == 0 && clearedUnder == []
    {
      clears := 0;
      clearedUnder := [];
    }

    /** `dns01.ClearFqdnCache()`, run while the table holds `vars`. */
    method Clear(ghost vars: map<string, string>)
      modifies this
      ensures clears == old(clears) + 1
      ensures clearedUnder == old(clearedUnder) + [vars]
    {
      clears := clears + 1;
      clearedUnder := clearedUnder + [vars];
    }
  }

  /** `providerWrapper`: the provider, possibly decorated, and the override map it was built with. */
  datatype ProviderWrapper<P> = ProviderWrapper(provider: P, envs: Option<map<string, string>>)
  {
    /**
     * `Present`: the delegate runs inside the wrapper's scope and sees its
     * overrides; a failure clears the FQDN cache once, before the scope is
     * closed, and is returned unchanged; the table is restored on both paths.
     */
    method Present(domain: string, token: string, keyAuth: string, present: Delegate<P>,
                   env: Environment, cache: FqdnCache) returns (err: Option<Error>)
      requires envs.Some? ==> !env.held
      modifies env, cache
      ensures err == present(provider, domain, token, keyAuth, ScopeEnv(old(env.vars), envs))
      ensures cache.clears == old(cache.clears) + (if err.Some? then 1 else 0)
      ensures cache.clearedUnder ==
        old(cache.clearedUnder) + (if err.Some? then [ScopeEnv(old(env.vars), envs)] else [])
      ensures env.vars == AfterScope(old(env.vars), envs) && env.held == old(env.held)
    {
      var reset := env.Setenvs(envs);
      err := present(provider, domain, token, keyAuth, env.vars);
      if err.Some? {
        cache.Clear(env.vars);
      }
      env.Reset(reset);
    }

    /** `CleanUp`: the same discipline around the delegate's `CleanUp`. */
    method CleanUp(domain: string, token: string, keyAuth: string, cleanUp: Delegate<P>,
                   env: Environment, cache: FqdnCache) returns (err: Option<Error>)
      requires envs.Some? ==> !env.held
      modifies env, cache
      ensures err == cleanUp(provider, domain, token, keyAuth, ScopeEnv(old(env.vars), envs))
      ensures cache.clears == old(cache.clears) + (if err.Some? then 1 else 0)
      ensures cache.clearedUnder ==
        old(cache.clearedUnder) + (if err.Some? then [ScopeEnv(old(env.vars), envs)] else [])
      ensures env.vars == AfterScope(old(env.vars), envs) && env.held == old(env.held)
    {
      var reset := env.Setenvs(envs);
      err := cleanUp(provider, domain, token, keyAuth, env.vars);
      if err.Some? {
        cache.Clear(env.vars);
      }
      env.Reset(reset);
    }
  }

  /**
   * `newProvider(name, envs)`.  Inside the scope for `envs` it asks the
   * factory for the provider; a factory error is returned as it is.  It then
   * collects the options the overrides ask for; with none the provider is
   * used as it is, otherwise it is decorated, and a decorator error is
   * returned as it is.  The table is restored and the mutex released on
   * every path.
   */
  method NewProvider<P>(name: string, envs: Option<map<string, string>>,
                        factory: Factory<P>, decorate: Decorator<P>, env: Environment)
    returns (r: Result<ProviderWrapper<P>, Error>)
    requires envs.Some? ==> !env.held
    modifies env
    ensures env.vars == AfterScope(old(env.vars), envs) && env.held == old(env.held)
    ensures factory(name, ScopeEnv(old(env.vars), envs)).Failure? ==>
      r == Failure(factory(name, ScopeEnv(old(env.vars), envs)).error)
    ensures factory(name, ScopeEnv(old(env.vars), envs)).Success? ==>
      var inside := ScopeEnv(old(env.vars), envs);
      var base := factory(name, inside).value;
      var opts := ChallengeOptions(Entries(envs));
      if opts == [] then r == Success(ProviderWrapper(base, envs))
      else if decorate(base, opts, inside).Failure? then r == Failure(decorate(base, opts, inside).error)
      else r == Success(ProviderWrapper(decorate(base, opts, inside).value, envs))
  {
    var reset := env.Setenvs(envs);
    var created := factory(name, env.vars);
    if created.Failure? {
      env.Reset(reset);
      return Failure(created.error);
    }
    var opts := ChallengeOptions(Entries(envs));
    var finalProvider := created.value;
    if |opts| > 0 {
      var decorated := decorate(created.value, opts, env.vars);
      if decorated.Failure? {
        env.Reset(reset);
        return Failure(decorated.error);
      }
      finalProvider := decorated.value;
    }
    env.Reset(reset);
    r := Success(ProviderWrapper(finalProvider, envs));
  }

  /**
   * A caller with a stub factory (provider 0), a stub decorator (adds one)
   * and a provider whose `Present` always succeeds: building with
   * `LEGO_DISABLE_CP=1` succeeds with the decorated provider, presenting
   * succeeds without clearing the cache, and afterwards `LEGO_DISABLE_CP` is
   * unset again if it was unset before.
   */
  method StubScenario(env: Environment, cache: FqdnCache)
    returns (built: Result<ProviderWrapper<int>, Error>, err: Option<Error>)
    requires !env.held && DisableCPKey !in env.vars
    modifies env, cache
    ensures built == Success(ProviderWrapper(1, Some(map[DisableCPKey := "1"])))
    ensures err == None && cache.clears == old(cache.clears)
    ensures DisableCPKey !in env.vars && !env.held
  {
    var envs := Some(map[DisableCPKey := "1"]);
    built := NewProvider("stub", envs, (name, vars) => Success(0),
                         (p: int, opts, vars) => Success(p + 1), env);
    assert ChallengeOptions(map[DisableCPKey := "1"]) == [DisableCompletePropagation];
    assert built == Success(ProviderWrapper(1, envs));
    ScopeRestoration(old(env.vars), envs);
    var w := built.value;
    err := w.Present("example.com", "tok", "key", (p, d, t, k, vars) => None, env, cache);
  }
}
