# Environment-scoped DNS-01 provider wrapper

A Dafny model of `provider.go` of the cert-manager lego webhook. The file wraps a
lego DNS-01 challenge provider so that the provider is built, and later asked to
present and clean up TXT records, while a per-provider set of environment
variables is in force. Process environment variables are global. So every
override scope takes one package-wide mutex, saves the overridden values, writes
the overrides, and later puts the saved values back and unlocks.

The model has four modules:

- `Wrappers` (wrappers.dfy): `Option` and `Result`. `Option` also stands for a
  Go map that may be nil, and for an `error` that may be nil.
- `EnvScope` (env_scope.dfy): `setenvs` and its reset closure. The process
  environment is a `map<string, string>`, and an absent name is unset. The
  mutex `setenvMux` is a `held` flag. Both live in the class `Environment`.
  `Setenvs` and `Reset` are methods, each with a loop over the key set of its
  map. Go's map iteration order is an arbitrary choice (`:|`) here. The pure
  functions `ScopeEnv`, `Saved`, `Restored` and `AfterScope` specify the
  methods, and the lemmas about scopes are stated over them.
- `DnsOptions` (options.dfy): how `newProvider` turns `LEGO_DISABLE_CP` and
  `LEGO_DNS_RESOLVERS` into dns01 challenge options. It holds ASCII
  lower-casing, `strings.Split(s, ",")`, `strings.Join` and the option list.
- `Provider` (provider.dfy): `newProvider`, the `providerWrapper` with its
  `Present` and `CleanUp`, and the FQDN cache as a clear counter.

The provider factory, the option decorator and the providers' own
`Present`/`CleanUp` are foreign code. They are function-typed parameters. Each
one is a total function of its arguments and of the environment table it sees
when called. This lets the contracts say that the factory, the decorator and the delegates
see the override values.

Two behaviours of the code differ from what a reader might expect. The model
follows the code in both.

- A scope might be expected to restore the environment exactly. The code saves
  values with `os.Getenv`, which gives `""` for an unset name, and it unsets
  every name whose saved value is `""` (provider.go:87, 94-95). So a variable
  that was set to the empty string comes back unset. `ScopeRestoration` states
  the rule as the code has it. `EmptyValueComesBackUnset` shows the case.
  `ScopeIsTransparent` gives the condition under which restoration is exact.
- An empty override map might be expected to skip the lock. The code
  skips it only for a nil map (provider.go:79). An empty non-nil map
  (`Some(map[])`) takes and releases the mutex.

## Model

| member | source | states |
|---|---|---|
| `EnvScope.ScopeEnv` | provider.go:86-89 | Inside a scope every override key holds the override value and every other name keeps its value. A nil map overrides nothing: `Entries` reads a nil map as empty, as Go's map reads do (provider.go:56, 61). |
| `EnvScope.Restored` | provider.go:93-99 | A saved `""` leaves the name unset; any other saved value is written back; names that were not saved keep their current value. |
| `EnvScope.ScopeRestoration` | provider.go:78-99 | `AfterScope` is a whole scope: `setenvs` followed by its deferred reset, as at provider.go:20-21, 32-33 and 44-45. After it, names outside the overrides are as before; an overridden name holds its old value if that value was non-empty, and is unset if it was unset or set to `""`. |
| `EnvScope.ScopeIsTransparent` | provider.go:86-99 | When no overridden name was set to `""`, a scope leaves the environment exactly as it was. |
| `EnvScope.ScopeIsIdempotent` | provider.go:78-101 | A second scope with the same overrides changes nothing more than the first, so repeated `Present`/`CleanUp` calls leave one fixed environment. |
| `EnvScope.EmptyValueComesBackUnset` | provider.go:94-95 | `X=""` overridden by `X=v` comes back as an environment without `X`. |
| `EnvScope.Environment.Setenvs` | provider.go:78-89 | Nil map: no-op reset, nothing changed, lock untouched. Otherwise the lock must be free and is held afterwards, the environment is the overrides written over the old one, and the reset carries the saved values. Those are `Saved`: each override key with the value `Getenv` gave before the scope, and `Getenv` yields `""` for an unset name (provider.go:87). |
| `EnvScope.Environment.Reset` | provider.go:91-100 | The no-op reset changes nothing. The restoring reset needs the lock held; afterwards the environment is `Restored` of the one it found and the lock is free. The contract gives only this final state; that the lock stays held through the loop and is released last shows in the loop invariant and the body's order, not in the contract. |
| `DnsOptions.ToLower` | provider.go:56 | Same length as the input; each character is lowered if it is an ASCII capital and otherwise kept. |
| `DnsOptions.DisablesCPIff` | provider.go:56 | `DisablesCP` is the test on the value (lowered value is `"true"`, or value is `"1"`). The value passes exactly when it is `"1"` or it is the four letters t, r, u, e, each in either case. |
| `DnsOptions.DisablesCPAccepts` | provider.go:56 | `"TRUE"`, `"true"`, `"tRuE"` and `"1"` pass. |
| `DnsOptions.DisablesCPRejects` | provider.go:56 | `"false"`, `"yes"`, `"01"` and `""` do not pass. |
| `DnsOptions.Split` | provider.go:62 | There is always at least one piece, and no piece contains a comma. |
| `DnsOptions.SplitCount` | provider.go:62 | The number of pieces is the number of commas plus one, so empty pieces are kept. |
| `DnsOptions.JoinSplit` | provider.go:62 | Joining the pieces with `","` gives the original value back. |
| `DnsOptions.SplitJoin` | provider.go:62 | Splitting the join of a non-empty list of comma-free pieces gives the list back. |
| `DnsOptions.SplitExamples` | provider.go:62 | `"1.1.1.1,8.8.8.8"` splits into the two addresses, a trailing comma gives a final `""`, and `""` gives `[""]`. |
| `DnsOptions.ChallengeOptions` | provider.go:52-64 | The disable option is in the list exactly when `DisableCPRequested` holds, that is, when `LEGO_DISABLE_CP` is present and its value passes `DisablesCP`. A resolver option is in the list exactly when `LEGO_DNS_RESOLVERS` is present, and it carries the split value. With two options the disable option comes first. The list is empty exactly when neither key asks for an option. |
| `Provider.FqdnCache.Clear` | provider.go:24 | One more clear is counted, and the environment at that moment is recorded. |
| `Provider.ProviderWrapper.Present` | provider.go:19-29 | The delegate sees the environment with the wrapper's overrides in force, and its result is returned unchanged. An error means exactly one cache clear, made while the overrides are still in force; success means none. Afterwards the environment is `AfterScope` of the old one, and the lock is as before. |
| `Provider.ProviderWrapper.CleanUp` | provider.go:31-41 | The same as `Present`, for the delegate's `CleanUp`. |
| `Provider.NewProvider` | provider.go:43-76 | The factory sees the overrides in force. A factory error is returned unchanged. With no options the base provider is kept undecorated. Otherwise the decorator, which also sees the overrides in force, is applied; the decorated provider is kept, and a decorator error is returned unchanged. The wrapper keeps the original override map. On every path the environment is restored and the lock is as before. |
| `Provider.StubScenario` | provider.go:43-76 | With a stub factory, a stub decorator and an always-successful `Present`, building with `LEGO_DISABLE_CP=1` succeeds with the decorated provider, and presenting then returns nil. It clears nothing, and it leaves `LEGO_DISABLE_CP` unset if it was unset before. |

## Left out

- Concurrency: `sync.Mutex` is a `held` flag. `Lock` on a held mutex would block, so `Setenvs` requires the flag to be clear. Mutual exclusion between goroutines is not modelled.
- `os.Getenv`, `os.Setenv` and `os.Unsetenv` act on an in-model map. The platform rejects a name that is empty or contains `=` or NUL, and a value that contains NUL. The source ignores that error, and the model does not have the failure: every write succeeds.
- `dns.NewDNSChallengeProviderByName`, `challenge.NewDNS01Provider`, `dns01.DisableCompletePropagationRequirement`, `dns01.AddRecursiveNameservers` and the DNS providers are foreign code. They appear as function parameters and as the `ChallengeOption` datatype. Their effects are not modelled, and the model assumes they do not write to the environment.
- `dns01.ClearFqdnCache` is a counter increment. What the cache holds is not modelled.
- `DnsOptions.ToLower`: lowers ASCII letters only, where `strings.ToLower` applies Unicode case mapping. The option test only compares the result with `"true"`, and no non-ASCII code point lowercases to one of the letters t, r, u, e. So the test decides the same way.
- Panics inside a delegate: a deferred reset would still run. The model's delegates are total functions, so it has no panic path.
- The `strings` package is used (provider.go:56, 62), but the import block (provider.go:3-10) does not import it. That is a build defect and is not modelled.
