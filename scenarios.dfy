/**
 * Client methods that replay the behaviour of the stream against the
 * contracts alone: the records are numbered, `f` is the serializer, and a
 * serialized record never contains CRLF (JSON escapes CR and LF). The outcome
 * sequences are parameters, constrained only in the dials that matter.
 */
module Scenarios {
  import opened Wrappers
  import opened FlushPolicy
  import opened Payload
  import opened Retry
  import opened Sink

  const LOCAL: Endpoint := Endpoint("localhost", "54545")

  /**
   * One `_write` on a stream whose next dial connects: the budget stays as it
   * was, and the buffer is either sent whole or kept with the new entry.
   */
  method WriteConnected(sink: GoodTcp<int>, i: int, now: int, ok: seq<Dial>) returns (payload: Option<string>)
    requires sink.Valid() && !sink.finished
    requires 0 < sink.remainingAttempts <= |ok| && ok[0] == Connected
    modifies sink
    ensures sink.Valid() && !sink.finished && sink.remainingAttempts == old(sink.remainingAttempts)
    ensures var batch := old(sink.buffer) + [sink.stringify(i)];
      if Ready(sink.settings, |batch|, old(sink.bufferStart), now) then
        && sink.buffer == [] && sink.bufferStart == None
        && payload == Some(Join(batch)) && sink.wire == old(sink.wire) + [Join(batch)]
      else
        && sink.buffer == batch && payload == None && sink.wire == old(sink.wire)
        && sink.bufferStart == if Started(old(sink.bufferStart)) then old(sink.bufferStart) else Some(now)
  {
    FirstConnection(sink.remainingAttempts, ok, 0);
    var flushed, dials;
    flushed, payload, dials := sink.Write(i, now, ok);
  }

  /** Records i, i + 1 and i + 2 into an empty buffer with threshold 3: one payload of those three, in order. */
  method WriteThree(sink: GoodTcp<int>, i: int, now: int, ok: seq<Dial>)
    requires sink.Valid() && !sink.finished && sink.settings.threshold == 3 && sink.settings.maxDelay == 0
    requires 0 < sink.remainingAttempts <= |ok| && ok[0] == Connected
    requires sink.buffer == []
    modifies sink
    ensures sink.Valid() && !sink.finished && sink.remainingAttempts == old(sink.remainingAttempts)
    ensures sink.buffer == []
    ensures sink.wire == old(sink.wire) + [Join([sink.stringify(i), sink.stringify(i + 1), sink.stringify(i + 2)])]
  {
    var p := WriteConnected(sink, i, now, ok);
    p := WriteConnected(sink, i + 1, now + 1, ok);
    p := WriteConnected(sink, i + 2, now + 2, ok);
  }

  /**
   * test/index.test.js:67-83: the stream is created from a complete endpoint
   * with the defaults and accepts a record; an endpoint without hostname and
   * port is refused.
   */
  method CreateScenario(f: int -> string, ok: seq<Dial>)
    requires |ok| >= 3
  {
    var r := GoodTcp.Create(Endpoint("", ""), DEFAULTS, f);
    assert r == Failure(InvalidEndpoint);
    var created := GoodTcp.Create(LOCAL, DEFAULTS, f);
    assert created.Success?;
    var sink := created.value;
    assert sink.settings.threshold == 20;
    var flushed, payload, dials := sink.Write(0, 1000, ok);
    assert !flushed && sink.buffer == [f(0)] && sink.wire == [];
  }

  /**
   * test/index.test.js:86-131: threshold 3, records 0..5, then end of input:
   * two payloads of three lines each, starting with records 0 and 3, and
   * nothing left for the drain.
   */
  method ThresholdScenario(f: int -> string, ok: seq<Dial>)
    requires forall i :: NoCRLF(f(i))
    requires |ok| >= 3 && ok[0] == Connected
  {
    var sink := new GoodTcp(LOCAL, DEFAULTS.(threshold := 3), f);
    WriteThree(sink, 0, 1000, ok);
    WriteThree(sink, 3, 1003, ok);
    var last, lastDials := sink.Finish(ok);
    assert last == None && lastDials == 0;
    ghost var first, second := [f(0), f(1), f(2)], [f(3), f(4), f(5)];
    assert sink.wire == [Join(first), Join(second)];
    SplitJoin(first);
    SplitJoin(second);
    assert |Split(sink.wire[0])| == 3 && Split(sink.wire[0])[0] == f(0);
    assert |Split(sink.wire[1])| == 3 && Split(sink.wire[1])[0] == f(3);
  }

  /**
   * test/index.test.js:134-179: threshold 0, records 0 and 1: each is sent on
   * its own as a one-line payload, and the drain then has nothing to send.
   */
  method ZeroThresholdScenario(f: int -> string, ok: seq<Dial>)
    requires NoCRLF(f(0)) && NoCRLF(f(1))
    requires |ok| >= 3 && ok[0] == Connected
  {
    var sink := new GoodTcp(LOCAL, DEFAULTS.(threshold := 0), f);
    var p := WriteConnected(sink, 0, 1000, ok);
    assert p == Some(f(0));
    SplitPlain(f(0));
    assert Split(p.value) == [f(0)];
    p := WriteConnected(sink, 1, 1001, ok);
    assert p == Some(f(1));
    SplitPlain(f(1));
    assert Split(p.value) == [f(1)];
    assert sink.buffer == [] && sink.wire == [f(0), f(1)];
    var last, lastDials := sink.Finish(ok);
    assert last == None && lastDials == 0;
  }

  /**
   * test/index.test.js:229-274: threshold 5, records 0 and 1, then end of
   * input: the drain sends both in one payload of two lines.
   */
  method FinishScenario(f: int -> string, ok: seq<Dial>)
    requires forall i :: NoCRLF(f(i))
    requires |ok| >= 3 && ok[0] == Connected
  {
    var sink := new GoodTcp(LOCAL, DEFAULTS.(threshold := 5), f);
    var p := WriteConnected(sink, 0, 1000, ok);
    p := WriteConnected(sink, 1, 1001, ok);
    assert sink.wire == [];
    ghost var batch := sink.buffer;
    assert batch == [f(0), f(1)];
    FirstConnection(3, ok, 0);
    var last, lastDials := sink.Finish(ok);
    assert last == Some(Join(batch));
    SplitJoin(batch);
    assert |Split(last.value)| == 2 && Split(last.value)[0] == f(0);
  }

  /**
   * test/index.test.js:277-326: with `tls` set, threshold 0 and records 0 and
   * 1, each record is still sent on its own; the connect call chosen is not
   * observable in the model.
   */
  method TlsScenario(f: int -> string, ok: seq<Dial>)
    requires |ok| >= 3 && ok[0] == Connected
  {
    var sink := new GoodTcp(LOCAL, DEFAULTS.(threshold := 0, tls := true), f);
    var p := WriteConnected(sink, 0, 1000, ok);
    p := WriteConnected(sink, 1, 1001, ok);
    assert sink.wire == [Join([f(0)]), Join([f(1)])];
  }

  /**
   * test/index.test.js:329-373: threshold 100, maxDelay 200, records 0 and 1,
   * then record 2 500 ms later: the third write flushes all three in one
   * payload that starts with record 0.
   */
  method MaxDelayScenario(f: int -> string, ok: seq<Dial>)
    requires forall i :: NoCRLF(f(i))
    requires |ok| >= 3 && ok[0] == Connected
  {
    var sink := new GoodTcp(LOCAL, DEFAULTS.(threshold := 100, maxDelay := 200), f);
    var p := WriteConnected(sink, 0, 1000, ok);
    p := WriteConnected(sink, 1, 1001, ok);
    assert p == None && sink.bufferStart == Some(1000);
    ghost var batch := sink.buffer + [f(2)];
    assert batch == [f(0), f(1), f(2)];
    p := WriteConnected(sink, 2, 1500, ok);
    assert p == Some(Join(batch));
    SplitJoin(batch);
    assert |Split(p.value)| == 3 && Split(p.value)[0] == f(0);
  }

  /** maxDelay 200: a record 100 ms after the first waits, and the start time stays that of the first. */
  method WithinDelayScenario(f: int -> string, ok: seq<Dial>)
    requires |ok| >= 3 && ok[0] == Connected
  {
    var sink := new GoodTcp(LOCAL, DEFAULTS.(threshold := 100, maxDelay := 200), f);
    var p := WriteConnected(sink, 0, 1000, ok);
    p := WriteConnected(sink, 1, 1100, ok);
    assert p == None;
    assert sink.buffer == [f(0), f(1)] && sink.bufferStart == Some(1000);
  }

  /** maxRetries 3, every dial fails: three dials, the record is dropped, and no later flush dials. */
  method RetryExhaustionScenario(f: int -> string, failing: seq<Dial>)
    requires |failing| >= 3 && forall k :: 0 <= k < 3 ==> failing[k] == Failed
  {
    var sink := new GoodTcp(LOCAL, DEFAULTS.(threshold := 0), f);
    Exhausted(3, failing);
    var flushed, payload, dials := sink.Write(0, 1000, failing);
    assert flushed && payload == None && dials == 3;
    assert sink.remainingAttempts == 0 && sink.buffer == [];
    flushed, payload, dials := sink.Write(1, 1001, [Connected]);
    assert flushed && payload == None && dials == 0;
    assert sink.wire == [];
  }

  /** The budget is spent across flushes: a delivery does not restore it. */
  method SharedBudgetScenario(f: int -> string, first: seq<Dial>, second: seq<Dial>)
    requires |first| >= 3 && first[0] == Failed && first[1] == Connected
    requires |second| >= 2 && forall k :: 0 <= k < 2 ==> second[k] == Failed
  {
    var sink := new GoodTcp(LOCAL, DEFAULTS.(threshold := 0), f);
    FirstConnection(3, first, 1);
    var flushed, payload, dials := sink.Write(0, 1000, first);
    assert payload == Some(f(0)) && dials == 2 && sink.remainingAttempts == 2;
    Exhausted(2, second);
    flushed, payload, dials := sink.Write(1, 1001, second);
    assert payload == None && dials == 2 && sink.remainingAttempts == 0;
    assert sink.wire == [f(0)];
  }

  /** The history invariant carried through a flush and the drain: nothing submitted is lost or reordered. */
  method HistoryScenario(f: int -> string, ok: seq<Dial>)
    requires |ok| >= 3 && ok[0] == Connected
  {
    var sink := new GoodTcp(LOCAL, DEFAULTS.(threshold := 2), f);
    var flushed, payload, dials := sink.Write(0, 1000, ok);
    flushed, payload, dials := sink.Write(1, 1001, ok);
    var last, lastDials := sink.Finish(ok);
    assert sink.Accounted();
    assert sink.submitted == [f(0), f(1)];
    assert Flatten(sink.batches) == sink.submitted;
  }
}
