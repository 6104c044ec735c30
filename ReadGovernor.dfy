/** The read governor: a sliding one-minute window of file reads with a running
    byte total, classified into a throttle state. Time is `DateTime` ticks
    (100 ns) passed in by the caller instead of read from the clock. */
module ReadGovernor {
  import opened Seqs

  datatype ThrottleState = Off | Slow | SustainedSweep

  /** One queued read: when, which path, how many bytes. */
  datatype ReadEvent = ReadEvent(ts: int, path: string, bytes: int)

  /** `TimeSpan.FromSeconds(60)` in ticks. */
  const Window: int := 600_000_000

  /** The constructor's default thresholds. */
  const DefaultFilesPerMinute: int := 120
  const DefaultBytesPerMinute: int := 1_610_612_736
  const DefaultDistinctThreshold: int := 200

  /** Total bytes of the queued reads. */
  function SumBytes(s: seq<ReadEvent>): int
  {
    if s == [] then 0 else s[0].bytes + SumBytes(s[1..])
  }

  /** The distinct paths (ordinal) of the queued reads. */
  function Paths(s: seq<ReadEvent>): set<string>
  {
    if s == [] then {} else Paths(s[..|s| - 1]) + {s[|s| - 1].path}
  }

  /** Timestamps never decrease along the queue. */
  predicate Chronological(s: seq<ReadEvent>)
  {
    forall i, j :: 0 <= i < j < |s| ==> s[i].ts <= s[j].ts
  }

  /** `Trim(now)`: drop reads from the front while the front one is older than
      the window. What is left is a suffix whose head is inside the window, and
      everything dropped was outside it. */
  function Trimmed(s: seq<ReadEvent>, now: int): (r: seq<ReadEvent>)
    ensures |r| <= |s| && r == s[|s| - |r|..]
    ensures r != [] ==> now - r[0].ts <= Window
    ensures forall i :: 0 <= i < |s| - |r| ==> now - s[i].ts > Window
  {
    if s != [] && now - s[0].ts > Window then Trimmed(s[1..], now) else s
  }

  /** The classification `State` makes of the trimmed queue and its byte total:
      too many reads or bytes is `Slow`; otherwise more distinct paths than the
      threshold is a sweep, though an empty queue never is, whatever the threshold. */
  function Classify(s: seq<ReadEvent>, bytes: int, filesPerMinute: int, bytesPerMinute: int,
                    distinctThreshold: int): (r: ThrottleState)
    ensures r == Slow <==> |s| > filesPerMinute || bytes > bytesPerMinute
    ensures r == Off <==> |s| <= filesPerMinute && bytes <= bytesPerMinute && (s == [] || |Paths(s)| <= distinctThreshold)
  {
    if |s| > filesPerMinute || bytes > bytesPerMinute then Slow
    else if s != [] && |Paths(s)| > distinctThreshold then SustainedSweep
    else Off
  }

  lemma {:induction false} SumBytesAppend(s: seq<ReadEvent>, e: ReadEvent)
    ensures SumBytes(s + [e]) == SumBytes(s) + e.bytes
  {
    if s != [] {
      assert (s + [e])[1..] == s[1..] + [e];
      SumBytesAppend(s[1..], e);
    } else {
      assert s + [e] == [e];
    }
  }

  /** There are never more distinct paths than reads. */
  lemma {:induction false} PathsBound(s: seq<ReadEvent>)
    ensures |Paths(s)| <= |s|
  {
    if s != [] {
      PathsBound(s[..|s| - 1]);
    }
  }

  /** A path is among `Paths(s)` exactly when some read has it. */
  lemma {:induction false} PathsMembership(s: seq<ReadEvent>, p: string)
    ensures p in Paths(s) <==> exists i :: 0 <= i < |s| && s[i].path == p
  {
    if s != [] {
      var t := s[..|s| - 1];
      PathsMembership(t, p);
      if p in Paths(t) {
        var i :| 0 <= i < |t| && t[i].path == p;
        assert s[i].path == p;
      }
      if exists i :: 0 <= i < |s| && s[i].path == p {
        var i :| 0 <= i < |s| && s[i].path == p;
        if i < |t| {
          assert t[i].path == p;
        }
      }
    }
  }

  /** A prefix of the queue has no more distinct paths than the whole queue. */
  lemma {:induction false} PathsPrefix(s: seq<ReadEvent>, i: nat)
    requires i <= |s|
    ensures |Paths(s[..i])| <= |Paths(s)|
    decreases |s| - i
  {
    if i < |s| {
      var t := s[..|s| - 1];
      assert s[..i] == t[..i];
      PathsPrefix(t, i);
      assert Paths(t) <= Paths(s);
      SubsetCardinality(Paths(t), Paths(s));
    } else {
      assert s[..i] == s;
    }
  }

  /** With chronological reads, every read left by `Trim` is inside the window. */
  lemma {:induction false} TrimmedWithinWindow(s: seq<ReadEvent>, now: int)
    requires Chronological(s)
    ensures forall i :: 0 <= i < |Trimmed(s, now)| ==> now - Trimmed(s, now)[i].ts <= Window
  {
    var r := Trimmed(s, now);
    forall i | 0 <= i < |r| ensures now - r[i].ts <= Window {
      assert r[0] == s[|s| - |r|] && r[i] == s[|s| - |r| + i];
    }
  }

  /** A read stamped no earlier than the queued ones keeps the queue chronological. */
  lemma {:induction false} NoteKeepsChronological(s: seq<ReadEvent>, e: ReadEvent, now: int)
    requires Chronological(s) && forall i :: 0 <= i < |s| ==> s[i].ts <= e.ts
    ensures Chronological(Trimmed(s + [e], now))
  {
    var t := s + [e];
    assert Chronological(t) by {
      forall i, j | 0 <= i < j < |t| ensures t[i].ts <= t[j].ts {
        if j == |s| {
          assert t[i] == s[i];
        }
      }
    }
    var r := Trimmed(t, now);
    var k := |t| - |r|;
    forall i, j | 0 <= i < j < |r| ensures r[i].ts <= r[j].ts {
      assert r[i] == t[k + i] && r[j] == t[k + j];
    }
  }

  /** A sweep needs more distinct paths than the threshold and no more reads than
      the file limit, so it is reachable only when the threshold is below that
      limit. */
  lemma {:induction false} SweepNeedsLowThreshold(s: seq<ReadEvent>, bytes: int, files: int, bpm: int, distinct: int)
    requires Classify(s, bytes, files, bpm, distinct) == SustainedSweep
    ensures distinct < |Paths(s)| <= |s| <= files
  {
    PathsBound(s);
  }

  /** With the default thresholds (120 reads, 200 distinct paths) no queue is a sweep. */
  lemma {:induction false} DefaultsNeverSweep(s: seq<ReadEvent>, bytes: int)
    ensures Classify(s, bytes, DefaultFilesPerMinute, DefaultBytesPerMinute, DefaultDistinctThreshold) != SustainedSweep
  {
    if Classify(s, bytes, DefaultFilesPerMinute, DefaultBytesPerMinute, DefaultDistinctThreshold) == SustainedSweep {
      SweepNeedsLowThreshold(s, bytes, DefaultFilesPerMinute, DefaultBytesPerMinute, DefaultDistinctThreshold);
    }
  }

  /** The distinct check of `State`: count first occurrences of paths and stop as
      soon as the count exceeds the threshold. */
  method DistinctExceeds(events: seq<ReadEvent>, distinctThreshold: int) returns (sweep: bool)
    ensures sweep <==> events != [] && |Paths(events)| > distinctThreshold
  {
    var seen := 0;
    var paths: set<string> := {};
    var i := 0;
    while i < |events|
      invariant 0 <= i <= |events|
      invariant paths == Paths(events[..i]) && seen == |paths|
      invariant seen == 0 || seen <= distinctThreshold
    {
      assert events[..i + 1][..i] == events[..i];
      assert Paths(events[..i + 1]) == paths + {events[i].path};
      if events[i].path !in paths {
        paths := paths + {events[i].path};
        seen := seen + 1;
        if seen > distinctThreshold {
          PathsPrefix(events, i + 1);
          return true;
        }
      }
      i := i + 1;
    }
    assert events[..i] == events;
    if events != [] {
      assert events[|events| - 1].path in paths;
    }
    return false;
  }

  class Governor {
    const filesPerMinute: int
    const bytesPerMinute: int
    const distinctThreshold: int
    var events: seq<ReadEvent>
    var bytes: int

    /** The running total is the bytes of the queued reads. */
    ghost predicate Valid()
      reads this
    {
      bytes == SumBytes(events)
    }

    constructor (files: int, bpm: int, distinct: int)
      ensures Valid() && events == [] && bytes == 0
      ensures filesPerMinute == files && bytesPerMinute == bpm && distinctThreshold == distinct
    {
      filesPerMinute, bytesPerMinute, distinctThreshold := files, bpm, distinct;
      events, bytes := [], 0;
    }

    /** The constructor called with its default arguments. */
    constructor Default()
      ensures Valid() && events == [] && bytes == 0
      ensures filesPerMinute == DefaultFilesPerMinute && bytesPerMinute == DefaultBytesPerMinute
      ensures distinctThreshold == DefaultDistinctThreshold
    {
      filesPerMinute, bytesPerMinute := DefaultFilesPerMinute, DefaultBytesPerMinute;
      distinctThreshold := DefaultDistinctThreshold;
      events, bytes := [], 0;
    }

    /** `Note`: enqueue the read at the back, add its bytes, then trim. The new
        read itself is never trimmed. */
    method Note(path: string, b: int, now: int)
      requires Valid()
      modifies this`events, this`bytes
      ensures Valid()
      ensures events == Trimmed(old(events) + [ReadEvent(now, path, b)], now)
      ensures events != [] && events[|events| - 1] == ReadEvent(now, path, b)
    {
      SumBytesAppend(events, ReadEvent(now, path, b));
      events := events + [ReadEvent(now, path, b)];
      bytes := bytes + b;
      ghost var queued := events;
      Trim(now);
      // the new read is inside the window, so it is not among the dropped ones
      assert now - queued[|queued| - 1].ts <= Window;
      assert |events| >= 1;
      assert events[|events| - 1] == queued[|queued| - 1];
    }

    /** `Trim`: dequeue from the front while the front read is outside the window,
        taking its bytes off the total. */
    method Trim(now: int)
      requires Valid()
      modifies this`events, this`bytes
      ensures Valid()
      ensures events == Trimmed(old(events), now)
    {
      while events != [] && now - events[0].ts > Window
        invariant Valid()
        invariant Trimmed(events, now) == Trimmed(old(events), now)
        decreases |events|
      {
        bytes := bytes - events[0].bytes;
        events := events[1..];
      }
    }

    /** `State`: trim, then classify; the distinct-path count stops as soon as it
        exceeds the threshold. */
    method State(now: int) returns (st: ThrottleState)
      requires Valid()
      modifies this`events, this`bytes
      ensures Valid()
      ensures events == Trimmed(old(events), now)
      ensures st == Classify(events, bytes, filesPerMinute, bytesPerMinute, distinctThreshold)
    {
      Trim(now);
      if |events| > filesPerMinute || bytes > bytesPerMinute {
        return Slow;
      }
      var sweep := DistinctExceeds(events, distinctThreshold);
      st := if sweep then SustainedSweep else Off;
    }
  }
}
