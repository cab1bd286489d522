/** The append-only event log: one numbered stream per run. */
module EventLog {
  import opened Wrappers
  import opened RunDomain

  /** The event types the stores emit, and those of executors, which reuse none of these names. */
  datatype EventKind =
    | RunCreated(user: string)
    | RunEnqueued
    | RunClaimed(worker: WorkerId)
    | ClaimExpired
    | ClaimLost(worker: WorkerId)
    | CancelAsked
    | RunCancelled
    | RunSucceeded
    | RunFailed(fault: Fault)
    | ExecutorEvent(name: string)

  datatype RunEvent = RunEvent(runId: RunId, sequenceNr: int, kind: EventKind)

  type Stream = seq<RunEvent>

  datatype LogError = StreamNotFound(id: RunId)

  /** Sequence numbers are exactly 1..n. */
  predicate Numbered(id: RunId, stream: Stream) {
    forall i | 0 <= i < |stream| :: stream[i].runId == id && stream[i].sequenceNr == i + 1
  }

  function Appended(id: RunId, stream: Stream, kind: EventKind): Stream {
    stream + [RunEvent(id, |stream| + 1, kind)]
  }

  /** The events numbered above a cursor; without one, all of them. */
  function ListAfter(stream: Stream, after: Option<int>): Stream {
    if stream == [] then []
    else
      var n := |stream| - 1;
      var rest := ListAfter(stream[..n], after);
      if after.None? || stream[n].sequenceNr > after.value then rest + [stream[n]] else rest
  }

  lemma {:induction false} ListAll(id: RunId, stream: Stream, after: Option<int>)
    requires Numbered(id, stream) && (after.Some? ==> after.value <= 0)
    ensures ListAfter(stream, after) == stream
    decreases |stream|
  {
    if stream != [] {
      var n := |stream| - 1;
      ListAll(id, stream[..n], after);
      assert stream[..n] + [stream[n]] == stream;
    }
  }

  lemma {:induction false} ListNothing(id: RunId, stream: Stream, after: int)
    requires Numbered(id, stream) && after >= |stream|
    ensures ListAfter(stream, Some(after)) == []
    decreases |stream|
  {
    if stream != [] {
      ListNothing(id, stream[..|stream| - 1], after);
    }
  }

  lemma {:induction false} ListSuffix(id: RunId, stream: Stream, k: nat)
    requires Numbered(id, stream) && k <= |stream|
    ensures ListAfter(stream, Some(k)) == stream[k..]
    decreases |stream|
  {
    if k == |stream| {
      ListNothing(id, stream, k);
    } else {
      var n := |stream| - 1;
      ListSuffix(id, stream[..n], k);
      assert stream[..n][k..] + [stream[n]] == stream[k..];
    }
  }

  /** On a numbered stream a cursor cuts off exactly that many leading events. */
  lemma ListAfterIsSuffix(id: RunId, stream: Stream, after: Option<int>)
    requires Numbered(id, stream)
    ensures after.None? ==> ListAfter(stream, after) == stream
    ensures after.Some? && after.value < 0 ==> ListAfter(stream, after) == stream
    ensures after.Some? && 0 <= after.value <= |stream| ==> ListAfter(stream, after) == stream[after.value..]
    ensures after.Some? && after.value > |stream| ==> ListAfter(stream, after) == []
  {
    if after.None? || after.value < 0 {
      ListAll(id, stream, after);
    } else if after.value <= |stream| {
      ListSuffix(id, stream, after.value);
    } else {
      ListNothing(id, stream, after.value);
    }
  }

  class InMemoryRunEventLog {
    var streams: map<RunId, Stream>
    var nextSequenceNr: map<RunId, int>

    ghost predicate Valid()
      reads this
    {
      && streams.Keys == nextSequenceNr.Keys
      && forall id | id in streams :: Numbered(id, streams[id]) && nextSequenceNr[id] == |streams[id]| + 1
    }

    constructor ()
      ensures Valid() && streams == map[]
    {
      streams, nextSequenceNr := map[], map[];
    }

    method InitRunStream(id: RunId)
      requires Valid()
      modifies this
      ensures Valid()
      ensures streams == if id in old(streams) then old(streams) else old(streams)[id := []]
    {
      if id in streams {
        return;
      }
      streams := streams[id := []];
      nextSequenceNr := nextSequenceNr[id := 1];
    }

    method Append(id: RunId, kind: EventKind) returns (r: Result<RunEvent, LogError>)
      requires Valid()
      modifies this
      ensures Valid()
      ensures r.Failure? <==> id !in old(streams)
      ensures r.Failure? ==> r.error == StreamNotFound(id) && streams == old(streams)
      ensures r.Success? ==> r.value == RunEvent(id, |old(streams)[id]| + 1, kind)
      ensures r.Success? ==> streams == old(streams)[id := Appended(id, old(streams)[id], kind)]
      ensures r.Success? ==> streams[id] == old(streams)[id] + [r.value]
    {
      if id !in streams {
        return Failure(StreamNotFound(id));
      }
      var sequenceNr := nextSequenceNr[id];
      nextSequenceNr := nextSequenceNr[id := nextSequenceNr[id] + 1];
      var event := RunEvent(id, sequenceNr, kind);
      streams := streams[id := streams[id] + [event]];
      return Success(event);
    }

    method List(id: RunId, after: Option<int>) returns (r: Result<Stream, LogError>)
      requires Valid()
      ensures r.Failure? <==> id !in streams
      ensures r.Success? ==> r.value == ListAfter(streams[id], after)
      ensures r.Success? && after.Some? && 0 <= after.value <= |streams[id]| ==> r.value == streams[id][after.value..]
    {
      if id !in streams {
        return Failure(StreamNotFound(id));
      }
      var stream := streams[id];
      ListAfterIsSuffix(id, stream, after);
      if after.None? {
        return Success(stream);
      }
      var found := [];
      for i := 0 to |stream|
        invariant found == ListAfter(stream[..i], after)
      {
        assert stream[..i + 1][..i] == stream[..i];
        if stream[i].sequenceNr > after.value {
          found := found + [stream[i]];
        }
      }
      assert stream[..|stream|] == stream;
      return Success(found);
    }
  }

  // ----- reading with a cursor

  /** The cursor of a client: the last number it has seen. */
  function Cursor(seen: Stream): Option<int> {
    if seen == [] then None else Some(seen[|seen| - 1].sequenceNr)
  }

  /** What a client holds after listing each snapshot in turn from its own cursor. */
  function Polled(snapshots: seq<Stream>): Stream {
    if snapshots == [] then []
    else
      var n := |snapshots| - 1;
      var seen := Polled(snapshots[..n]);
      seen + ListAfter(snapshots[n], Cursor(seen))
  }

  ghost predicate Growing(id: RunId, snapshots: seq<Stream>) {
    && (forall i | 0 <= i < |snapshots| :: Numbered(id, snapshots[i]))
    && (forall i | 0 <= i < |snapshots| - 1 :: snapshots[i] <= snapshots[i + 1])
  }

  /** One poll: a client holding a prefix of the stream ends up with all of it. */
  lemma PollCatchesUp(id: RunId, seen: Stream, stream: Stream)
    requires Numbered(id, stream) && seen <= stream
    ensures seen + ListAfter(stream, Cursor(seen)) == stream
  {
    if seen != [] {
      assert seen[|seen| - 1] == stream[|seen| - 1];
      assert Cursor(seen) == Some(|seen|);
    }
    ListAfterIsSuffix(id, stream, Cursor(seen));
  }

  /** However appends interleave, the client holds exactly the stream as it was at its last poll. */
  lemma {:induction false} PollingLosesNothing(id: RunId, snapshots: seq<Stream>)
    requires Growing(id, snapshots)
    ensures snapshots == [] ==> Polled(snapshots) == []
    ensures snapshots != [] ==> Polled(snapshots) == snapshots[|snapshots| - 1]
    decreases |snapshots|
  {
    if snapshots != [] {
      var n := |snapshots| - 1;
      var earlier := snapshots[..n];
      PollingLosesNothing(id, earlier);
      if n > 0 {
        assert earlier[n - 1] == snapshots[n - 1];
        assert snapshots[n - 1] <= snapshots[n];
      }
      PollCatchesUp(id, Polled(earlier), snapshots[n]);
    }
  }
}
