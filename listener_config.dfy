/** `MongoListenerConfig`: the listener's settings, their defaults and their clamping. */
module ListenerConfig {
  import opened Numbers

  /** The interval setters as written: `seconds * 1000` is computed in 32-bit `int`
      arithmetic, so it wraps around before the clamp sees it. */
  function WrappedMillis(seconds: int): (r: int)
    requires IsInt(seconds)
    ensures 0 <= r <= INT_MAX
  {
    Clamp(WrapInt(seconds * 1000), 0, INT_MAX)
  }

  /** The interval setters as evidently intended: the product clamped to `[0, INT_MAX]`. */
  function SaturatedMillis(seconds: int): (r: int)
    requires IsInt(seconds)
    ensures 0 <= r <= INT_MAX
    ensures 0 <= seconds * 1000 <= INT_MAX ==> r == seconds * 1000
    ensures INT_MAX < seconds * 1000 ==> r == INT_MAX
    ensures seconds <= 0 ==> r == 0
  {
    Clamp(seconds * 1000, 0, INT_MAX)
  }

  /** The two agree wherever the product fits in an `int`. */
  lemma WrappedAgreesWhenNoOverflow(seconds: int)
    requires -2147483 <= seconds <= 2147483
    ensures WrappedMillis(seconds) == SaturatedMillis(seconds)
  {
    assert IsInt(seconds * 1000);
  }

  /** A longer interval in seconds never gives a shorter interval in milliseconds. */
  lemma {:induction false} SaturatedMonotone(s: int, t: int)
    requires IsInt(s) && IsInt(t) && s <= t
    ensures SaturatedMillis(s) <= SaturatedMillis(t)
  {
    assert s * 1000 <= t * 1000;
  }

  /** The counterexamples: 2147484 s (about 25 days) becomes 0 ms, a larger value
      becomes a smaller one, and a negative one becomes about 15 days. */
  lemma WrappedMillisOverflows()
    ensures WrappedMillis(2147483) == 2147483000
    ensures WrappedMillis(2147484) == 0
    ensures WrappedMillis(-3000000) == 1294967296
    ensures SaturatedMillis(2147484) == INT_MAX && SaturatedMillis(-3000000) == 0
  {
    assert WrapInt(2147484000) == -2147483296;
    assert WrapInt(-3000000000) == 1294967296;
  }

  /** True of every value the setters can store. */
  predicate ValidSettings(pollInterval: int, fetchSize: int, batchSize: int, threads: int,
                          retryInterval: int, refreshInterval: int, recoverInterval: int)
  {
    && 0 <= pollInterval <= INT_MAX
    && 1 <= fetchSize <= INT_MAX
    && 1 <= batchSize <= INT_MAX
    && 1 <= threads <= INT_MAX
    && 0 <= retryInterval <= INT_MAX
    && 0 <= refreshInterval <= INT_MAX
    && 0 <= recoverInterval <= INT_MAX
  }

  /** The settings; the interval fields hold milliseconds. A getter of the source is a
      read of the field here. */
  class MongoListenerConfig {
    var pollInterval: int
    var fetchSize: int
    var batchSize: int
    var threads: int
    var retryInterval: int
    var refreshInterval: int
    var recoverInterval: int

    ghost predicate Valid()
      reads this
    {
      ValidSettings(pollInterval, fetchSize, batchSize, threads, retryInterval, refreshInterval, recoverInterval)
    }

    /** The defaults: poll 1 s, fetch 10000, batch 100, 1 thread, retry 60 s,
        refresh 5 s, recover 60 s. */
    constructor ()
      ensures Valid()
      ensures pollInterval == 1000 && fetchSize == 10000 && batchSize == 100 && threads == 1
      ensures retryInterval == 60000 && refreshInterval == 5000 && recoverInterval == 60000
    {
      pollInterval := 1 * 1000;
      fetchSize := 10000;
      batchSize := 100;
      threads := 1;
      retryInterval := 60 * 1000;
      refreshInterval := 5 * 1000;
      recoverInterval := 60 * 1000;
    }

    /** The interval setters keep the source's 32-bit product: the stored value is
        always in `[0, INT_MAX]`, and it is the intended saturated value whenever
        `seconds * 1000` fits in an `int`. */
    method SetPollInterval(seconds: int)
      requires Valid() && IsInt(seconds)
      modifies this`pollInterval
      ensures Valid() && pollInterval == WrappedMillis(seconds)
      ensures -2147483 <= seconds <= 2147483 ==> pollInterval == SaturatedMillis(seconds)
    {
      pollInterval := WrappedMillis(seconds);
      if -2147483 <= seconds <= 2147483 {
        WrappedAgreesWhenNoOverflow(seconds);
      }
    }

    method SetFetchSize(fetchSize: int)
      requires Valid() && IsInt(fetchSize)
      modifies this`fetchSize
      ensures Valid() && this.fetchSize == Clamp(fetchSize, 1, INT_MAX)
    {
      this.fetchSize := Clamp(fetchSize, 1, INT_MAX);
    }

    method SetBatchSize(batchSize: int)
      requires Valid() && IsInt(batchSize)
      modifies this`batchSize
      ensures Valid() && this.batchSize == Clamp(batchSize, 1, INT_MAX)
    {
      this.batchSize := Clamp(batchSize, 1, INT_MAX);
    }

    method SetThreads(threads: int)
      requires Valid() && IsInt(threads)
      modifies this`threads
      ensures Valid() && this.threads == Clamp(threads, 1, INT_MAX)
    {
      this.threads := Clamp(threads, 1, INT_MAX);
    }

    method SetRetryInterval(seconds: int)
      requires Valid() && IsInt(seconds)
      modifies this`retryInterval
      ensures Valid() && retryInterval == WrappedMillis(seconds)
      ensures -2147483 <= seconds <= 2147483 ==> retryInterval == SaturatedMillis(seconds)
    {
      retryInterval := WrappedMillis(seconds);
      if -2147483 <= seconds <= 2147483 {
        WrappedAgreesWhenNoOverflow(seconds);
      }
    }

    method SetRefreshInterval(seconds: int)
      requires Valid() && IsInt(seconds)
      modifies this`refreshInterval
      ensures Valid() && refreshInterval == WrappedMillis(seconds)
      ensures -2147483 <= seconds <= 2147483 ==> refreshInterval == SaturatedMillis(seconds)
    {
      refreshInterval := WrappedMillis(seconds);
      if -2147483 <= seconds <= 2147483 {
        WrappedAgreesWhenNoOverflow(seconds);
      }
    }

    method SetRecoverInterval(seconds: int)
      requires Valid() && IsInt(seconds)
      modifies this`recoverInterval
      ensures Valid() && recoverInterval == WrappedMillis(seconds)
      ensures -2147483 <= seconds <= 2147483 ==> recoverInterval == SaturatedMillis(seconds)
    {
      recoverInterval := WrappedMillis(seconds);
      if -2147483 <= seconds <= 2147483 {
        WrappedAgreesWhenNoOverflow(seconds);
      }
    }
  }
}
