/**
 * The `GoodTcp` writable stream: it buffers serialized records, decides after
 * each one whether to flush, and flushes by dialling the collector with a
 * retry budget that belongs to the instance.
 *
 * The outside world enters as parameters: the clock as `now`, the outcome of
 * each dial as a sequence of `Dial` values, the serializer as the function
 * `stringify`. The payloads handed to `client.write` are recorded in `wire`.
 */
module Sink {
  import opened Wrappers
  import opened FlushPolicy
  import opened Payload
  import opened Retry

  /** The parsed endpoint URL; an absent part is the empty string. */
  datatype Endpoint = Endpoint(hostname: string, port: string)

  datatype EndpointError = InvalidEndpoint

  /** The constructor's check: hostname and port must both be present. */
  predicate ValidEndpoint(e: Endpoint)
  {
    e.hostname != "" && e.port != ""
  }

  /** One flush of a batch: written to a client, or dropped for want of one. */
  datatype Flush = Delivered(entries: seq<string>) | Dropped(entries: seq<string>)

  /** The entries of a history of flushes, in flush order. */
  function Flatten(fs: seq<Flush>): (entries: seq<string>)
  {
    if fs == [] then [] else fs[0].entries + Flatten(fs[1..])
  }

  /** The payloads a history of flushes puts on the wire, in flush order. */
  function Wire(fs: seq<Flush>): (payloads: seq<string>)
  {
    if fs == [] then []
    else (if fs[0].Delivered? then [Join(fs[0].entries)] else []) + Wire(fs[1..])
  }

  /** The most entries one flush can carry: the threshold, or one when it is below one. */
  function MaxBatch(s: Settings): (limit: int)
  {
    if s.threshold >= 1 then s.threshold else 1
  }

  /** Every flush in `fs` carries at least one and at most `limit` entries. */
  predicate Bounded(fs: seq<Flush>, limit: int)
  {
    forall i :: 0 <= i < |fs| ==> 1 <= |fs[i].entries| <= limit
  }

  /** Appending one flush to a history extends its entries and its wire in order. */
  lemma {:induction false} FlushAppend(fs: seq<Flush>, f: Flush)
    ensures Flatten(fs + [f]) == Flatten(fs) + f.entries
    ensures Wire(fs + [f]) == Wire(fs) + if f.Delivered? then [Join(f.entries)] else []
  {
    if fs != [] {
      assert (fs + [f])[1..] == fs[1..] + [f];
      FlushAppend(fs[1..], f);
    }
  }

  lemma BoundedAppend(fs: seq<Flush>, f: Flush, limit: int)
    requires Bounded(fs, limit) && 1 <= |f.entries| <= limit
    ensures Bounded(fs + [f], limit)
  {
  }

  /**
   * The history accounts for everything: every submitted entry is in a flush
   * or still pending, in submission order, and the wire holds the payloads of
   * the delivered flushes, in flush order.
   */
  ghost predicate AccountsFor(submitted: seq<string>, batches: seq<Flush>, pending: seq<string>, wire: seq<string>)
  {
    submitted == Flatten(batches) + pending && wire == Wire(batches)
  }

  /** Submitting an entry adds it to the pending ones. */
  lemma AccountSubmit(submitted: seq<string>, batches: seq<Flush>, pending: seq<string>, wire: seq<string>, e: string)
    requires AccountsFor(submitted, batches, pending, wire)
    ensures AccountsFor(submitted + [e], batches, pending + [e], wire)
  {
    assert submitted + [e] == Flatten(batches) + (pending + [e]);
  }

  /** Flushing the pending entries moves them into the history. */
  lemma AccountFlush(submitted: seq<string>, batches: seq<Flush>, pending: seq<string>, wire: seq<string>, f: Flush)
    requires AccountsFor(submitted, batches, pending, wire) && f.entries == pending
    ensures AccountsFor(submitted, batches + [f], [], wire + if f.Delivered? then [Join(pending)] else [])
  {
    FlushAppend(batches, f);
  }

  class GoodTcp<R> {
    const settings: Settings
    const endpoint: Endpoint
    const stringify: R -> string

    var buffer: seq<string>
    var bufferStart: Option<int>
    var remainingAttempts: int
    var connecting: bool
    /** Set once the 'finish' handler has run; Writable accepts no writes after it. */
    var finished: bool
    /** The payloads written to clients, in order. */
    var wire: seq<string>

    /** Every entry ever buffered, in submission order. */
    ghost var submitted: seq<string>
    /** Every flush so far, in order. */
    ghost var batches: seq<Flush>

    /**
     * The invariant between two steps of the stream: no connection attempt is
     * outstanding; a start time is recorded exactly when the buffer is
     * non-empty; a buffer left behind is below the threshold; and the budget
     * never exceeds `maxRetries` (nor drops below zero when that is not
     * negative).
     */
    ghost predicate Valid()
      reads this
    {
      && !connecting
      && (buffer == [] <==> bufferStart.None?)
      && (buffer == [] || |buffer| < settings.threshold)
      && remainingAttempts <= settings.maxRetries
      && (settings.maxRetries >= 0 ==> remainingAttempts >= 0)
    }

    /**
     * The history invariant: every submitted entry is either in a flush or
     * still buffered, in submission order; the wire holds the delivered
     * flushes' payloads, in flush order; and every flush carries between one
     * and `MaxBatch` entries. Kept apart from `Valid` so that a client that
     * does not reason about the history need not carry it.
     */
    ghost predicate Accounted()
      reads this
    {
      && AccountsFor(submitted, batches, if finished then [] else buffer, wire)
      && Bounded(batches, MaxBatch(settings))
    }

    /** The getter `_bufferReady` at clock `now`. */
    predicate BufferReady(now: int)
      reads this
    {
      Ready(settings, |buffer|, bufferStart, now)
    }

    constructor (endpoint: Endpoint, settings: Settings, stringify: R -> string)
      requires ValidEndpoint(endpoint)
      ensures Valid() && Accounted()
      ensures this.endpoint == endpoint && this.settings == settings && this.stringify == stringify
      ensures buffer == [] && bufferStart == None && wire == []
      ensures remainingAttempts == settings.maxRetries && !connecting && !finished
      ensures submitted == [] && batches == []
    {
      this.endpoint := endpoint;
      this.settings := settings;
      this.stringify := stringify;
      remainingAttempts := settings.maxRetries;
      connecting := false;
      buffer := [];
      bufferStart := None;
      finished := false;
      wire := [];
      submitted := [];
      batches := [];
    }

    /** `new GoodTcp(endpoint, config)`: throws on an endpoint without hostname or port. */
    static method Create(endpoint: Endpoint, settings: Settings, stringify: R -> string)
      returns (r: Result<GoodTcp<R>, EndpointError>)
      ensures r.Failure? <==> !ValidEndpoint(endpoint)
      ensures r.Failure? ==> r.error == InvalidEndpoint
      ensures r.Success? ==> fresh(r.value) && r.value.Valid() && r.value.Accounted()
      ensures r.Success? ==> r.value.settings == settings && r.value.endpoint == endpoint
      ensures r.Success? ==> r.value.stringify == stringify
      ensures r.Success? ==> r.value.buffer == [] && r.value.bufferStart == None && r.value.wire == []
      ensures r.Success? ==> r.value.remainingAttempts == settings.maxRetries
      ensures r.Success? ==> !r.value.connecting && !r.value.finished
      ensures r.Success? ==> r.value.submitted == [] && r.value.batches == []
    {
      if !ValidEndpoint(endpoint) {
        return Failure(InvalidEndpoint);
      }
      var sink := new GoodTcp(endpoint, settings, stringify);
      r := Success(sink);
    }

    /**
     * `_openClient`: dials the collector, one outcome per dial, until a dial
     * connects or the budget runs out. The timed redial after an error is the
     * next loop iteration; `connecting` is set for the whole attempt.
     */
    method OpenClient(outcomes: seq<Dial>) returns (client: bool, dials: nat)
      requires remainingAttempts <= |outcomes|
      modifies this`remainingAttempts, this`connecting
      ensures var a := Open(old(remainingAttempts), outcomes);
        client == a.connected && dials == a.dials && remainingAttempts == a.remaining
      ensures !connecting
    {
      ghost var budget := remainingAttempts;
      connecting := true;
      client, dials := false, 0;
      while remainingAttempts > 0
        invariant connecting && !client
        invariant budget > 0 ==> dials + remainingAttempts == budget && remainingAttempts >= 0
        invariant budget <= 0 ==> dials == 0 && remainingAttempts == budget
        invariant Open(budget, outcomes) ==
          var rest := Open(remainingAttempts, outcomes[dials..]);
          Attempt(rest.connected, rest.dials + dials, rest.remaining)
        decreases remainingAttempts
      {
        // Net.connect / Tls.connect
        var outcome := outcomes[dials];
        dials := dials + 1;
        if outcome == Connected {
          // the connect listener
          client := true;
          break;
        }
        // the 'error' handler
        remainingAttempts := remainingAttempts - 1;
      }
      connecting := false;
    }

    /**
     * `_sendMessages`: with budget left, obtains a client and writes the whole
     * buffer to it as one CRLF-joined payload; with none, completes at once.
     */
    method SendMessages(outcomes: seq<Dial>) returns (payload: Option<string>, dials: nat)
      requires !connecting && remainingAttempts <= |outcomes|
      modifies this`remainingAttempts, this`connecting, this`wire, this`batches
      ensures var a := Open(old(remainingAttempts), outcomes);
        dials == a.dials && remainingAttempts == a.remaining
        && payload == (if a.connected then Some(Join(buffer)) else None)
        && batches == old(batches) + [if a.connected then Delivered(buffer) else Dropped(buffer)]
      ensures wire == old(wire) + if payload.Some? then [payload.value] else []
      ensures !connecting
    {
      if remainingAttempts <= 0 {
        batches := batches + [Dropped(buffer)];
        return None, 0;
      }
      var client;
      client, dials := OpenClient(outcomes);
      if !client {
        payload := None;
        batches := batches + [Dropped(buffer)];
      } else {
        var message := Join(buffer);
        wire := wire + [message];
        payload := Some(message);
        batches := batches + [Delivered(buffer)];
      }
    }

    /**
     * `_write`: appends the serialized record; if the buffer is then ready
     * (and no attempt is outstanding) flushes it and clears buffer and start
     * time whatever the outcome, otherwise records the start time when none
     * is recorded.
     */
    method Write(record: R, now: int, outcomes: seq<Dial>) returns (flushed: bool, payload: Option<string>, dials: nat)
      requires Valid() && !finished
      requires remainingAttempts <= |outcomes|
      modifies this
      ensures Valid() && !finished
      ensures old(Accounted()) ==> Accounted()
      ensures submitted == old(submitted) + [stringify(record)]
      ensures flushed == Ready(settings, |old(buffer)| + 1, old(bufferStart), now)
      ensures flushed ==>
        var batch := old(buffer) + [stringify(record)];
        var a := Open(old(remainingAttempts), outcomes);
        && buffer == [] && bufferStart == None
        && dials == a.dials && remainingAttempts == a.remaining
        && payload == (if a.connected then Some(Join(batch)) else None)
        && batches == old(batches) + [if a.connected then Delivered(batch) else Dropped(batch)]
      ensures !flushed ==>
        && buffer == old(buffer) + [stringify(record)]
        && bufferStart == (if Started(old(bufferStart)) then old(bufferStart) else Some(now))
        && payload == None && dials == 0
        && remainingAttempts == old(remainingAttempts) && batches == old(batches)
      ensures wire == old(wire) + if payload.Some? then [payload.value] else []
      ensures remainingAttempts <= old(remainingAttempts)
      ensures old(remainingAttempts) <= 0 ==> payload == None && dials == 0 && remainingAttempts == old(remainingAttempts)
      ensures settings.threshold <= 1 ==> flushed && old(buffer) == []
    {
      ghost var accounted := Accounted();
      var entry := stringify(record);
      if accounted {
        AccountSubmit(submitted, batches, buffer, wire, entry);
      }
      buffer := buffer + [entry];
      submitted := submitted + [entry];
      if BufferReady(now) && !connecting {
        ghost var a := Open(remainingAttempts, outcomes);
        ghost var flush := if a.connected then Delivered(buffer) else Dropped(buffer);
        if accounted {
          AccountFlush(submitted, batches, buffer, wire, flush);
          BoundedAppend(batches, flush, MaxBatch(settings));
        }
        payload, dials := SendMessages(outcomes);
        bufferStart := None;
        buffer := [];
        flushed := true;
      } else {
        if !Started(bufferStart) {
          bufferStart := Some(now);
        }
        payload, dials, flushed := None, 0, false;
      }
    }

    /**
     * The 'finish' handler: a non-empty buffer is sent once more, whatever
     * its readiness; the completion callback does nothing, so the buffer is
     * left as it was.
     */
    method Finish(outcomes: seq<Dial>) returns (payload: Option<string>, dials: nat)
      requires Valid() && !finished
      requires remainingAttempts <= |outcomes|
      modifies this
      ensures Valid() && finished
      ensures old(Accounted()) ==> Accounted()
      ensures buffer == old(buffer) && bufferStart == old(bufferStart) && submitted == old(submitted)
      ensures old(buffer) == [] ==>
        payload == None && dials == 0 && remainingAttempts == old(remainingAttempts) && batches == old(batches)
      ensures old(buffer) != [] ==>
        var a := Open(old(remainingAttempts), outcomes);
        && dials == a.dials && remainingAttempts == a.remaining
        && payload == (if a.connected then Some(Join(old(buffer))) else None)
        && batches == old(batches) + [if a.connected then Delivered(old(buffer)) else Dropped(old(buffer))]
      ensures wire == old(wire) + if payload.Some? then [payload.value] else []
    {
      ghost var accounted := Accounted();
      if |buffer| > 0 {
        ghost var a := Open(remainingAttempts, outcomes);
        ghost var flush := if a.connected then Delivered(buffer) else Dropped(buffer);
        if accounted {
          AccountFlush(submitted, batches, buffer, wire, flush);
          BoundedAppend(batches, flush, MaxBatch(settings));
        }
        payload, dials := SendMessages(outcomes);
      } else {
        payload, dials := None, 0;
      }
      finished := true;
    }
  }
}
