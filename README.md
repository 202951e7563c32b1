# good-tcp: the batching TCP sink, modelled in Dafny

`GoodTcp` is a writable object stream that forwards log records to a remote
collector over TCP or TLS. Each record is serialized and pushed onto a buffer.
After every record the stream decides whether the buffer is ready: it is ready
when it holds `threshold` entries, or when `maxDelay` is positive and the first
buffered record has waited longer than `maxDelay` milliseconds. A ready buffer
is flushed: the stream dials the collector, writes the whole buffer as one
CRLF-joined payload, and then clears buffer and start time whatever the outcome.
Dialling is governed by a retry budget, `maxRetries`, that belongs to the
instance. Every connection error costs one unit. Redialling goes on only while
budget remains, and the budget is never restored, so once it is spent every
later batch is dropped without a dial. When the input ends, a non-empty buffer
is sent once more, whatever its readiness.

The model is split into modules:

- `Wrappers` holds `Option` and `Result`.
- `FlushPolicy` holds the resolved `Settings` with their defaults, and the
  readiness rule `Ready` of the `_bufferReady` getter, with lemmas about it.
- `Payload` holds `Join` (the `join('\r\n')` that builds the payload) and a
  reader's `Split` on CRLF, with the separator count and the round trip.
- `Retry` holds the retry walk of `_openClient` as a specification function.
  `Open(remaining, outcomes)` says how many dials are made, whether a client
  is obtained, and what budget is left.
- `Sink` holds the class `GoodTcp<R>` with the source's fields, and a ghost
  history of every flush and every submitted entry. `OpenClient` is a
  `while` loop over the dial outcomes, proved against `Retry.Open`.
  `SendMessages`, `Write` and `Finish` state the whole new state in terms of
  the old one. `Valid()` is the invariant between steps: no attempt is
  outstanding, a start time exists exactly when the buffer is non-empty, and
  the budget is bounded. `Accounted()` is the history invariant: every
  submitted entry is in a flush or still buffered, in submission order; the
  wire holds the payloads of the delivered flushes, in flush order; and every
  flush carries at least one entry and at most `threshold` entries (at most
  one when the threshold is 0 or below, `MaxBatch`).
- `Scenarios` holds client methods that run the stream against the contracts
  alone. Six of them follow the cases of `test/index.test.js`:
  - `CreateScenario`: creation without options and the invalid endpoint
    (test/index.test.js:67-83);
  - `ThresholdScenario`: threshold 3 and six records, giving two payloads of
    three lines that start with records 0 and 3 (test/index.test.js:86-131);
  - `ZeroThresholdScenario`: threshold 0, each record sent on its own
    (test/index.test.js:134-179);
  - `FinishScenario`: the drain sends the two buffered records
    (test/index.test.js:229-274);
  - `TlsScenario`: the same with `tls` set (test/index.test.js:277-326);
  - `MaxDelayScenario`: a third record 500 ms later flushes all three
    (test/index.test.js:329-373).

  The circular-reference case (test/index.test.js:182-226) concerns the
  serializer, which is a parameter here. `WithinDelayScenario`,
  `RetryExhaustionScenario`, `SharedBudgetScenario` and `HistoryScenario` go
  beyond the test file: it has no case for an unexpired delay, failing dials,
  the budget or the history.

The outside world enters as parameters:

- the clock is `now: int`;
- the outcome of each dial is one `Dial` (`Connected` or `Failed`), taken from
  a sequence `outcomes`;
- the serializer is the function `stringify: R -> string`, fixed at
  construction;
- the payloads handed to `client.write` are recorded in the field `wire`.

Every dial is assumed to settle, with a connection or with an error. This is
why the operations that may dial require `remainingAttempts <= |outcomes|`.

The retry budget belongs to the instance, not to a flush: the code sets
`_remainingAttempts` once, in the constructor (src/index.js:31), and never
restores it. `Scenarios.SharedBudgetScenario` shows it being spent across two
flushes.

## Model

| member | source | states |
|---|---|---|
| FlushPolicy.SizeReady | src/index.js:74-77 | a buffer holding at least `threshold` entries is ready, whatever the clock and start time |
| FlushPolicy.ZeroThresholdReady | src/index.js:74-77 | with a threshold of 0 or below, every non-empty buffer is ready, so every write flushes |
| FlushPolicy.DelayRule | src/index.js:79-86 | below the threshold, ready holds exactly when maxDelay > 0, a (truthy) start time is recorded, and `now - start` is strictly greater than maxDelay |
| FlushPolicy.WithinWindowNotReady | src/index.js:79-86 | below the threshold and inside the delay window (or with no start time), the buffer is not ready |
| FlushPolicy.ReadyMonotone | src/index.js:72-87 | readiness is kept by a larger buffer and a later clock |
| Payload.CountAroundSeparator | src/index.js:101 | putting CRLF between two strings adds exactly one CRLF pair to their counts |
| Payload.SeparatorCount | src/index.js:101 | the payload of N >= 1 CRLF-free entries contains exactly N - 1 CRLF pairs |
| Payload.JoinEndsWithLast | src/index.js:101 | the payload of a non-empty batch ends with its last entry: no trailing separator |
| Payload.SplitAfterEntry | src/index.js:101 | splitting a CRLF-free entry, CRLF, then the rest gives that entry followed by the split of the rest |
| Payload.SplitPlain | src/index.js:101 | a CRLF-free entry on its own splits into exactly itself |
| Payload.SplitJoin | src/index.js:101 | splitting the payload of a non-empty batch of CRLF-free entries on CRLF recovers exactly those entries, in order |
| Retry.Open | src/index.js:112-152 | an entry with budget <= 0 makes no dial and gets no client; otherwise the dials never exceed the starting budget, each failed dial costs exactly one unit, the budget left is never negative, a client comes from a dial whose outcome is Connected, every dial before it failed, and an attempt without a client stops only at budget 0 after exactly `remaining` dials |
| Retry.ConnectedIff | src/index.js:119-151 | a client is obtained exactly when one of the first `remaining` dials would connect |
| Retry.FirstConnection | src/index.js:119-141 | when dial j is the first that connects within the budget, the attempt gets a client after j + 1 dials and keeps `remaining - j` of the budget |
| Retry.Exhausted | src/index.js:140-151 | when every dial within a positive budget fails, the attempt makes `remaining` dials, gets no client and leaves the budget at 0 |
| Sink.AccountSubmit | src/index.js:51 | appending an entry to the submitted records and to the buffer keeps the history invariant |
| Sink.AccountFlush | src/index.js:55-59 | moving the whole buffer into one flush, delivered or dropped, keeps the history invariant, and a delivered flush adds its joined payload to the wire |
| Sink.GoodTcp.constructor | src/index.js:24-38 | a new stream has an empty buffer, no start time, a budget of `maxRetries`, no attempt outstanding, an empty wire and history, and satisfies both invariants |
| Sink.GoodTcp.Create | src/index.js:24-38 | construction fails exactly when the hostname or port is missing, with InvalidEndpoint; otherwise it gives a fresh stream in the constructor's initial state (the given endpoint, settings and serializer, empty buffer, no start time, a budget of `maxRetries`, not connecting, not finished, empty wire and history) satisfying both invariants |
| Sink.GoodTcp.OpenClient | src/index.js:112-152 | the loop's client flag, dial count and final budget are those of `Retry.Open` on the budget at entry, and the connecting flag is clear afterwards |
| Sink.GoodTcp.SendMessages | src/index.js:90-109 | with no budget it completes with no dial and no payload; otherwise the dials and the budget are those of `Retry.Open`, the payload is `Join(buffer)` exactly when a client was obtained, the wire gains exactly that payload, and the flush is recorded as delivered or dropped |
| Sink.GoodTcp.Write | src/index.js:49-69 | appends exactly one serialized entry after the earlier ones. It flushes exactly when the grown buffer is ready; a flushed buffer goes out as one joined payload (or is dropped when no client is obtained), and buffer and start time are reset whatever the outcome. Otherwise the start time is set only when none is recorded. The budget never grows, a spent budget sends nothing and dials nothing, and both invariants are kept |
| Sink.GoodTcp.Finish | src/index.js:40-45 | an empty buffer causes no send; a non-empty one is sent exactly once, as a whole, whatever its readiness. The buffer is left as it was, and both invariants are kept |

## Left out

- Network calls: `Net.connect`, `Tls.connect`, `client.write` and `client.end` are not modelled. A dial is one `Dial` outcome, and a write is an entry in `wire`.
- The `tls` flag chooses which connect call is made (src/index.js:129-138); the model cannot observe that choice. `tlsOptions` is not a field of `Settings`, because it is handed to the TLS connect call unchanged.
- Scheduling: `setImmediate`, the `setTimeout` of `retryInterval` between redials, and the `Stream.Writable` callback and backpressure machinery are not modelled. Each `_write` is one sequential step; the timed redial is the next loop iteration. `retryInterval` is kept as a setting but not otherwise used.
- The completion callbacks of `_write` (`cb`, `cb(err)`) carry no information in the source and are not modelled.
- The serializer (`fast-safe-stringify`) is the parameter `stringify`. The round trip needs its outputs to be CRLF-free: a serialized value escapes CR and LF, and the lemmas take that as a precondition.
- `Url.parse` and `Hoek.applyToDefaults` are not modelled: hostname, port and settings come in already parsed and resolved. `FlushPolicy.DEFAULTS` records the defaults (src/index.js:12-19).
- `console.warn` on a connection error is not modelled.
- Post-connect socket errors: the source keeps the `'error'` handler attached after the connection is made. An error at that point would re-enter the retry path and call the callback a second time. The model treats errors as occurring only before connecting.
- JavaScript numbers are modelled as unbounded integers: fractional settings, `NaN` and clock values beyond the safe-integer range are not modelled.
- Sink.GoodTcp.Write: the history invariant `Accounted()` is promised only when it held before (`old(Accounted()) ==> Accounted()`). Every stream starts with it, so every stream keeps it; it is kept out of `Valid()` so that callers who do not reason about the history need not carry it.
- Sink.GoodTcp.Finish: states the history invariant in the same conditional form as `Write`.
