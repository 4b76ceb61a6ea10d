# Fixed watchdog provider

A watchdog is the monitor that cancels streaming calls which stop making
progress. Framework code gets its watchdog from a *watchdog provider*. The
provider says which configuration it still needs (a check interval, a clock,
an executor), takes those through `with...` calls, hands out the watchdog,
and says whether it owns the watchdog's shutdown (auto-close).

This project models the *fixed* provider. It is bound at `create` to one
watchdog that already exists, or to `null` for "no monitoring". It asks for
no configuration, never auto-closes, and rejects every reconfiguration with
an unsupported-operation error. The source of the provider class itself is
not available; the datatype `FixedWatchdogProvider` models that class, with
the behaviour its unit test asserts and nothing beyond it.

- `collaborators.dfy`: the opaque collaborators. `Watchdog`, `ApiClock`,
  `ScheduledExecutorService` and `Duration` are empty classes, so `==` on
  them is reference identity (Java's `isSameInstanceAs`) and `Watchdog?` has
  Java's `null`. The same file holds the `Result` type that stands for
  "returns normally or throws".
- `fixed_watchdog_provider.dfy`: the provider as an immutable datatype with
  one field, its queries as functions, and the `with...` calls as functions
  that always return `Failure(Unsupported)`. `Attempts` models the test's
  pattern of trying reconfigurations one after another on the same provider
  and catching each error.

## Model

| member | source | states |
|---|---|---|
| `WatchdogProviders.FixedWatchdogProvider.Create` | gax/src/test/java/com/google/api/gax/rpc/FixedWatchdogProviderTest.java:45-55 | the provider that `create(w)` builds hands `w` back from `getWatchdog()`, for a watchdog and for `null` alike |
| `WatchdogProviders.FixedWatchdogProvider.GetWatchdog` | gax/src/test/java/com/google/api/gax/rpc/FixedWatchdogProviderTest.java:51-55 | the returned reference is everything the provider holds: the provider bound to it is this provider, so no copy or other hidden state exists |
| `WatchdogProviders.FixedWatchdogProvider.NeedsCheckInterval` | gax/src/test/java/com/google/api/gax/rpc/FixedWatchdogProviderTest.java:61 | a fixed provider never asks for a check interval |
| `WatchdogProviders.FixedWatchdogProvider.NeedsClock` | gax/src/test/java/com/google/api/gax/rpc/FixedWatchdogProviderTest.java:62 | a fixed provider never asks for a clock |
| `WatchdogProviders.FixedWatchdogProvider.NeedsExecutor` | gax/src/test/java/com/google/api/gax/rpc/FixedWatchdogProviderTest.java:63 | a fixed provider never asks for an executor |
| `WatchdogProviders.FixedWatchdogProvider.ShouldAutoClose` | gax/src/test/java/com/google/api/gax/rpc/FixedWatchdogProviderTest.java:64 | a fixed provider never claims the watchdog's shutdown |
| `WatchdogProviders.FixedWatchdogProvider.WithCheckInterval` | gax/src/test/java/com/google/api/gax/rpc/FixedWatchdogProviderTest.java:66-72 | for every interval, the call fails with the unsupported-operation error and returns no provider |
| `WatchdogProviders.FixedWatchdogProvider.WithClock` | gax/src/test/java/com/google/api/gax/rpc/FixedWatchdogProviderTest.java:74-80 | for every clock, the call fails with the unsupported-operation error and returns no provider |
| `WatchdogProviders.FixedWatchdogProvider.WithExecutor` | gax/src/test/java/com/google/api/gax/rpc/FixedWatchdogProviderTest.java:82-88 | for every executor, the call fails with the unsupported-operation error and returns no provider |
| `WatchdogProviders.Attempts` | gax/src/test/java/com/google/api/gax/rpc/FixedWatchdogProviderTest.java:59-88 | for any provider and any list of reconfiguration attempts, each made on that same provider and each caught: there is one outcome per attempt, and every outcome is the unsupported-operation error |
| `WatchdogProviders.CreateNull` | gax/src/test/java/com/google/api/gax/rpc/FixedWatchdogProviderTest.java:45-48 | `create(null).getWatchdog()` is `null` |
| `WatchdogProviders.CreateSameInstance` | gax/src/test/java/com/google/api/gax/rpc/FixedWatchdogProviderTest.java:50-55 | for every watchdog `w`, `create(w).getWatchdog()` is `w` itself |
| `WatchdogProviders.NoModifications` | gax/src/test/java/com/google/api/gax/rpc/FixedWatchdogProviderTest.java:57-89 | for every watchdog, interval, clock and executor: the provider created from the watchdog needs nothing, does not auto-close, and the three reconfigurations tried in turn all fail with the unsupported-operation error |

## Left out

- The `Watchdog` monitor itself (registering streams, progress updates, the periodic check, cancellation, shutdown). It is not in the modelled code and is driven by a scheduled executor and a clock. It stays an empty class.
- `ApiClock`, `ScheduledExecutorService` and `Duration` are library types that appear only as arguments to rejected calls. They are empty classes with no behaviour.
- `null` arguments to `withCheckInterval`, `withClock` and `withExecutor` are not modelled: the parameters have non-null types, and the test passes only non-null values.
- Providers are values, not objects. Two providers created from the same watchdog are equal, while Java's `create` returns objects compared by reference. A failed reconfiguration leaves the provider unchanged because a value cannot change; there is no mutable state to speak about.
- The configurable (default) provider and the negotiation loop of the framework code that consumes a provider. Neither is in the modelled code.
- The unsupported-operation error carries no message. The test checks only the error's type, and Java's exception hierarchy is reduced to one error value.
- Mockito mocks stand for arbitrary values. The lemmas quantify over all non-null watchdogs, clocks, executors and intervals instead.
