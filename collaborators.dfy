/** The collaborators of a watchdog provider, kept opaque.

    The provider never looks inside any of them: a watchdog is only handed
    back, and a clock, an executor or a check interval is only ever passed
    to a reconfiguration call that rejects it.  Classes without fields give
    the reference identity that Java's `isSameInstanceAs` compares, and the
    nullable type `Watchdog?` gives the `null` that `create` accepts. */
module Collaborators {

  /** The stream monitor.  Its registration, progress tracking, periodic
      check and shutdown are not part of this model. */
  class Watchdog { }

  /** The clock abstraction a configurable provider would hand to its watchdog. */
  class ApiClock { }

  /** The scheduling executor on which a watchdog runs its periodic check. */
  class ScheduledExecutorService { }

  /** A span of time, such as the check interval a configurable provider
      would be given. */
  class Duration { }
}

/** A value-or-error result, standing in for a Java call that either returns
    normally or throws. */
module Results {

  datatype Result<+R, +E> = Success(value: R) | Failure(error: E)
}
