/** The fixed watchdog provider: a watchdog provider pinned, at creation, to
    one already-built watchdog or to none at all.

    A watchdog provider tells the framework code that holds it which pieces
    of configuration it still needs (a check interval, a clock, an executor),
    accepts them through `with...` calls, hands out the watchdog, and says
    whether it owns that watchdog's shutdown.  The fixed variant needs
    nothing, owns nothing, and rejects every reconfiguration with an
    unsupported-operation error. */
module WatchdogProviders {
  import opened Collaborators
  import opened Results

  /** What a rejected provider call fails with: Java's
      `UnsupportedOperationException`. */
  datatype ProviderError = Unsupported

  /** One reconfiguration call a caller may try on a provider, with its argument. */
  datatype Reconfiguration =
    | SetCheckInterval(interval: Duration)
    | SetClock(clock: ApiClock)
    | SetExecutor(executor: ScheduledExecutorService)

  /** The provider holds its one bound reference and nothing else; `null`
      means that no monitoring is wanted. */
  datatype FixedWatchdogProvider = FixedWatchdogProvider(bound: Watchdog?) {

    /** `create(w)`: a provider permanently bound to `w`, whether `w` is a
        watchdog or `null`. */
    static function Create(w: Watchdog?): (p: FixedWatchdogProvider)
      ensures p.GetWatchdog() == w
    {
      FixedWatchdogProvider(w)
    }

    /** `getWatchdog()`: the very reference the provider was created with.
        It is all the provider holds: a provider bound to what
        `getWatchdog()` returns is this provider. */
    function GetWatchdog(): (w: Watchdog?)
      ensures FixedWatchdogProvider(w) == this
    {
      bound
    }

    /** `needsCheckInterval()`: a fixed provider never asks for a check interval. */
    function NeedsCheckInterval(): (b: bool)
      ensures !b
    {
      false
    }

    /** `needsClock()`: a fixed provider never asks for a clock. */
    function NeedsClock(): (b: bool)
      ensures !b
    {
      false
    }

    /** `needsExecutor()`: a fixed provider never asks for an executor. */
    function NeedsExecutor(): (b: bool)
      ensures !b
    {
      false
    }

    /** `shouldAutoClose()`: the provider never stops a watchdog it did not
        build; whoever supplied the watchdog keeps that duty. */
    function ShouldAutoClose(): (b: bool)
      ensures !b
    {
      false
    }

    /** `withCheckInterval(d)`: rejected, whatever the interval. */
    function WithCheckInterval(interval: Duration): (r: Result<FixedWatchdogProvider, ProviderError>)
      ensures !r.Success? && r.error == Unsupported
    {
      Failure(Unsupported)
    }

    /** `withClock(c)`: rejected, whatever the clock. */
    function WithClock(clock: ApiClock): (r: Result<FixedWatchdogProvider, ProviderError>)
      ensures !r.Success? && r.error == Unsupported
    {
      Failure(Unsupported)
    }

    /** `withExecutor(e)`: rejected, whatever the executor. */
    function WithExecutor(executor: ScheduledExecutorService): (r: Result<FixedWatchdogProvider, ProviderError>)
      ensures !r.Success? && r.error == Unsupported
    {
      Failure(Unsupported)
    }

    /** The `with...` call that `req` names, applied to this provider. */
    function Reconfigure(req: Reconfiguration): (r: Result<FixedWatchdogProvider, ProviderError>)
    {
      match req
      case SetCheckInterval(d) => WithCheckInterval(d)
      case SetClock(c) => WithClock(c)
      case SetExecutor(e) => WithExecutor(e)
    }
  }

  /** The outcomes of trying every reconfiguration in `reqs`, in turn, on
      the same provider `p`, catching the error of each: one outcome per
      attempt, and every one of them the unsupported-operation error. */
  function Attempts(p: FixedWatchdogProvider, reqs: seq<Reconfiguration>)
    : (outcomes: seq<Result<FixedWatchdogProvider, ProviderError>>)
    ensures |outcomes| == |reqs|
    ensures forall i :: 0 <= i < |reqs| ==> outcomes[i] == Failure(Unsupported)
    decreases |reqs|
  {
    if reqs == [] then
      []
    else
      [p.Reconfigure(reqs[0])] + Attempts(p, reqs[1..])
  }

  /** A provider created with `null` hands back `null`. */
  lemma CreateNull()
    ensures FixedWatchdogProvider.Create(null).GetWatchdog() == null
  {
  }

  /** A provider created with a watchdog hands back that same instance, on
      every call. */
  lemma CreateSameInstance(w: Watchdog)
    ensures FixedWatchdogProvider.Create(w).GetWatchdog() == w
  {
  }

  /** A provider created with any watchdog needs no configuration, does not
      auto-close, and rejects a check interval, a clock and an executor, one
      after another, with the unsupported-operation error. */
  lemma NoModifications(w: Watchdog, d: Duration, c: ApiClock, e: ScheduledExecutorService)
    ensures var p := FixedWatchdogProvider.Create(w);
      && !p.NeedsCheckInterval() && !p.NeedsClock() && !p.NeedsExecutor()
      && !p.ShouldAutoClose()
      && Attempts(p, [SetCheckInterval(d), SetClock(c), SetExecutor(e)])
         == [Failure(Unsupported), Failure(Unsupported), Failure(Unsupported)]
  {
  }
}
