/**
 * The resolved configuration and the readiness rule of the `_bufferReady`
 * getter: a batch is flushed when it is large enough, or when it has waited
 * longer than `maxDelay` milliseconds.
 */
module FlushPolicy {
  import opened Wrappers

  /**
   * The settings after defaulting. `tlsOptions` is left out: it is handed to
   * the TLS connect call unchanged and nothing in the model reads it.
   */
  datatype Settings = Settings(
    threshold: int,
    maxDelay: int,
    maxRetries: int,
    retryInterval: int,
    tls: bool)

  /** The defaults every unspecified option takes. */
  const DEFAULTS: Settings := Settings(20, 0, 3, 10000, false)

  /**
   * Whether a batch start time has been recorded, read as JavaScript reads
   * `this._bufferStart`: `undefined`, `null` and `0` are all falsy.
   */
  predicate Started(start: Option<int>)
  {
    start.Some? && start.value != 0
  }

  /** The `_bufferReady` getter, for a buffer of `size` entries at clock `now`. */
  predicate Ready(s: Settings, size: int, start: Option<int>, now: int)
  {
    if size >= s.threshold then
      true      // buffer is full
    else if s.maxDelay > 0 && Started(start) && now - start.value > s.maxDelay then
      true      // max wait time exceeded
    else
      false
  }

  /** Size readiness: a buffer holding at least `threshold` entries is always ready. */
  lemma SizeReady(s: Settings, size: int, start: Option<int>, now: int)
    requires size >= s.threshold
    ensures Ready(s, size, start, now)
  {
  }

  /** With threshold 0 (or below), every non-empty buffer is ready. */
  lemma ZeroThresholdReady(s: Settings, size: int, start: Option<int>, now: int)
    requires s.threshold <= 0 && size >= 1
    ensures Ready(s, size, start, now)
  {
  }

  /**
   * Time readiness: below the threshold, the buffer is ready exactly when the
   * delay rule is enabled, a start time is recorded, and strictly more than
   * `maxDelay` has elapsed since it.
   */
  lemma DelayRule(s: Settings, size: int, start: Option<int>, now: int)
    requires size < s.threshold
    ensures Ready(s, size, start, now) <==>
      s.maxDelay > 0 && Started(start) && now - start.value > s.maxDelay
  {
  }

  /** Below the threshold and inside the delay window no flush is due. */
  lemma WithinWindowNotReady(s: Settings, size: int, start: Option<int>, now: int)
    requires size < s.threshold
    requires Started(start) ==> now - start.value <= s.maxDelay
    ensures !Ready(s, size, start, now)
  {
  }

  /** Readiness is never lost by a larger buffer or a later clock. */
  lemma ReadyMonotone(s: Settings, size: int, size': int, start: Option<int>, now: int, now': int)
    requires Ready(s, size, start, now)
    requires size <= size' && now <= now'
    ensures Ready(s, size', start, now')
  {
  }
}
