/**
 * The wire payload of one flush: the batch joined with CRLF, as
 * `Array.prototype.join('\r\n')` builds it, together with the
 * `String.prototype.split('\r\n')` a reader uses to take it apart.
 */
module Payload {

  const CRLF: string := "\r\n"

  /** `entries.join('\r\n')`: separators between entries, none after the last. */
  function Join(entries: seq<string>): (payload: string)
  {
    if |entries| == 0 then ""
    else if |entries| == 1 then entries[0]
    else entries[0] + CRLF + Join(entries[1..])
  }

  /** `s.split('\r\n')`: scans left to right for non-overlapping CRLF pairs. */
  function Split(s: string): (parts: seq<string>)
    ensures |parts| >= 1
    decreases |s|
  {
    if |s| == 0 then [""]
    else if |s| >= 2 && s[0] == '\r' && s[1] == '\n' then [""] + Split(s[2..])
    else
      var rest := Split(s[1..]);
      [[s[0]] + rest[0]] + rest[1..]
  }

  /** The number of positions at which a CRLF pair starts in `s`. */
  function CountCRLF(s: string): (n: nat)
  {
    if |s| < 2 then 0
    else (if s[0] == '\r' && s[1] == '\n' then 1 else 0) + CountCRLF(s[1..])
  }

  /** `s` contains no CRLF pair (a serialized JSON value never does). */
  predicate NoCRLF(s: string)
  {
    CountCRLF(s) == 0
  }

  /** Putting a separator between two strings adds exactly one CRLF pair. */
  lemma {:induction false} CountAroundSeparator(a: string, b: string)
    ensures CountCRLF(a + CRLF + b) == CountCRLF(a) + 1 + CountCRLF(b)
  {
    if |a| == 0 {
      assert (a + CRLF + b)[1..] == "\n" + b;
      if |b| > 0 {
        assert ("\n" + b)[1..] == b;
      }
    } else {
      assert (a + CRLF + b)[1..] == a[1..] + CRLF + b;
      CountAroundSeparator(a[1..], b);
    }
  }

  /** A payload of N CRLF-free entries holds exactly N - 1 separators. */
  lemma {:induction false} SeparatorCount(entries: seq<string>)
    requires |entries| >= 1
    requires forall i :: 0 <= i < |entries| ==> NoCRLF(entries[i])
    ensures CountCRLF(Join(entries)) == |entries| - 1
  {
    if |entries| > 1 {
      SeparatorCount(entries[1..]);
      CountAroundSeparator(entries[0], Join(entries[1..]));
    }
  }

  /** No trailing separator: the payload of a non-empty batch ends with its last entry. */
  lemma {:induction false} JoinEndsWithLast(entries: seq<string>)
    requires |entries| >= 1
    ensures var j, last := Join(entries), entries[|entries| - 1];
      |last| <= |j| && j[|j| - |last|..] == last
  {
    if |entries| > 1 {
      var rest := Join(entries[1..]);
      JoinEndsWithLast(entries[1..]);
      var prefix := entries[0] + CRLF;
      assert Join(entries) == prefix + rest;
      var last := entries[|entries| - 1];
      assert (prefix + rest)[|prefix + rest| - |last|..] == rest[|rest| - |last|..];
    }
  }

  /** Splitting a CRLF-free entry followed by a separator peels off that entry. */
  lemma {:induction false} SplitAfterEntry(e: string, t: string)
    requires NoCRLF(e)
    ensures Split(e + CRLF + t) == [e] + Split(t)
  {
    var s := e + CRLF + t;
    if |e| == 0 {
      assert s[2..] == t;
    } else {
      assert s[1..] == e[1..] + CRLF + t;
      assert NoCRLF(e[1..]);
      SplitAfterEntry(e[1..], t);
      assert [e[0]] + e[1..] == e;
    }
  }

  /** A CRLF-free string splits into itself alone. */
  lemma {:induction false} SplitPlain(e: string)
    requires NoCRLF(e)
    ensures Split(e) == [e]
  {
    if |e| > 0 {
      assert NoCRLF(e[1..]);
      SplitPlain(e[1..]);
      assert [e[0]] + e[1..] == e;
    }
  }

  /**
   * Round trip: splitting the payload of a non-empty batch of CRLF-free
   * entries on CRLF recovers exactly those entries, in order.
   */
  lemma {:induction false} SplitJoin(entries: seq<string>)
    requires |entries| >= 1
    requires forall i :: 0 <= i < |entries| ==> NoCRLF(entries[i])
    ensures Split(Join(entries)) == entries
  {
    if |entries| == 1 {
      SplitPlain(entries[0]);
    } else {
      SplitJoin(entries[1..]);
      SplitAfterEntry(entries[0], Join(entries[1..]));
      assert [entries[0]] + entries[1..] == entries;
    }
  }
}
