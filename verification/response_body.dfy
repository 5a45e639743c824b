/** Collecting a handler's response frame by frame, and replaying it from the cache. */
module ResponseBody {
  import opened Options
  import opened DedupTable

  /** One frame of an HTTP body; `Other` is neither DATA nor trailing HEADERS. */
  datatype Frame = Data(bytes: seq<byte>) | Trailers(headers: Headers) | Other

  /** What polling the handler's body yields before it ends. */
  datatype Poll = Yielded(frame: Frame) | Failed

  const SuccessTrailers: Headers := [("grpc-status", "0")]

  /** The frames before the first stream error. */
  function Received(polls: seq<Poll>): seq<Frame> {
    if polls == [] || polls[0].Failed? then [] else [polls[0].frame] + Received(polls[1..])
  }

  function DataOf(frames: seq<Frame>): seq<byte> {
    if frames == [] then []
    else if frames[0].Data? then frames[0].bytes + DataOf(frames[1..])
    else DataOf(frames[1..])
  }

  function LastTrailers(frames: seq<Frame>): Option<Headers> {
    if frames == [] then None else
    var rest := LastTrailers(frames[1..]);
    if rest.Some? then rest else if frames[0].Trailers? then Some(frames[0].headers) else None
  }

  lemma {:induction false} DataOfAppend(frames: seq<Frame>, f: Frame)
    ensures DataOf(frames + [f]) == if f.Data? then DataOf(frames) + f.bytes else DataOf(frames)
    ensures LastTrailers(frames + [f]) == (if f.Trailers? then Some(f.headers) else LastTrailers(frames))
  {
    if frames == [] {
      assert frames + [f] == [f];
      assert [f][1..] == [];
    } else {
      assert (frames + [f])[1..] == frames[1..] + [f];
      DataOfAppend(frames[1..], f);
    }
  }

  lemma {:induction false} ReceivedUpTo(polls: seq<Poll>, n: nat)
    requires n <= |polls| && forall i | 0 <= i < n :: polls[i].Yielded?
    ensures n == |polls| || polls[n].Failed? ==> Received(polls[..n]) == Received(polls)
    ensures n < |polls| && polls[n].Yielded? ==> Received(polls[..n + 1]) == Received(polls[..n]) + [polls[n].frame]
  {
    if n > 0 {
      assert polls[..n][1..] == polls[1..][..n - 1];
      if n < |polls| {
        assert polls[..n + 1][1..] == polls[1..][..n];
      }
      ReceivedUpTo(polls[1..], n - 1);
    } else if |polls| > 0 {
      assert polls[..1][1..] == [];
    }
  }

  /** Body and trailers of the response that is cached, broadcast and returned. */
  function Collected(polls: seq<Poll>): (seq<byte>, Headers) {
    var t := LastTrailers(Received(polls));
    (DataOf(Received(polls)), if t.Some? then t.value else SuccessTrailers)
  }

  /** The middleware's frame loop: data concatenated, trailers overwritten, errors end it. */
  method CollectFrames(polls: seq<Poll>) returns (data: seq<byte>, trailers: Headers)
    ensures (data, trailers) == Collected(polls)
  {
    data := [];
    var last: Option<Headers> := None;
    var i := 0;
    while i < |polls|
      invariant i <= |polls|
      invariant forall j | 0 <= j < i :: polls[j].Yielded?
      invariant data == DataOf(Received(polls[..i]))
      invariant last == LastTrailers(Received(polls[..i]))
    {
      ReceivedUpTo(polls, i);
      if polls[i].Failed? {
        break;
      }
      var frame := polls[i].frame;
      DataOfAppend(Received(polls[..i]), frame);
      if frame.Data? {
        data := data + frame.bytes;
      } else if frame.Trailers? {
        last := Some(frame.headers);
      }
      i := i + 1;
    }
    ReceivedUpTo(polls, i);
    trailers := if last.Some? then last.value else SuccessTrailers;
  }

  /** The frames a cached response is replayed as. */
  function Replay(data: seq<byte>, trailers: Option<Headers>): seq<Frame> {
    (if data != [] then [Data(data)] else []) + (if trailers.Some? then [Trailers(trailers.value)] else [])
  }

  /** A body that gives up its DATA frame, then its trailers. */
  class TraileredBody {
    var data: Option<seq<byte>>
    var trailers: Option<Headers>

    function Pending(): seq<Frame>
      reads this
    {
      Replay(if data.Some? then data.value else [], trailers)
    }

    constructor (d: seq<byte>, t: Option<Headers>)
      ensures Pending() == Replay(d, t)
    {
      data, trailers := Some(d), t;
    }

    method PollFrame() returns (frame: Option<Frame>)
      modifies this
      ensures frame.None? <==> old(Pending()) == []
      ensures frame.Some? ==> [frame.value] + Pending() == old(Pending())
      ensures frame.None? ==> Pending() == []
    {
      if data.Some? {
        var d := data.value;
        data := None;
        if d != [] {
          return Some(Data(d));
        }
      }
      if trailers.Some? {
        var t := trailers.value;
        trailers := None;
        return Some(Trailers(t));
      }
      return None;
    }

    /** Polls the body to its end. */
    method Drain() returns (frames: seq<Frame>)
      modifies this
      ensures frames == old(Pending()) && Pending() == []
    {
      frames := [];
      var frame := PollFrame();
      while frame.Some?
        invariant frames + (if frame.Some? then [frame.value] else []) + Pending() == old(Pending())
        invariant frame.None? ==> Pending() == []
        decreases |Pending()|, if frame.Some? then 1 else 0
      {
        frames := frames + [frame.value];
        frame := PollFrame();
      }
    }
  }

  function Polls(frames: seq<Frame>): seq<Poll> {
    seq(|frames|, i requires 0 <= i < |frames| => Yielded(frames[i]))
  }

  lemma {:induction false} ReceivedPolls(frames: seq<Frame>)
    ensures Received(Polls(frames)) == frames
  {
    if frames != [] {
      assert Polls(frames)[1..] == Polls(frames[1..]);
      ReceivedPolls(frames[1..]);
    }
  }

  lemma {:induction false} ReceivedUntilFailure(before: seq<Frame>, rest: seq<Poll>)
    ensures Received(Polls(before) + [Failed] + rest) == before
  {
    var polls := Polls(before) + [Failed] + rest;
    if before != [] {
      assert polls[1..] == Polls(before[1..]) + [Failed] + rest;
      ReceivedUntilFailure(before[1..], rest);
    }
  }

  /**
   A stream error is not reported.  The response is exactly what the frames before
   it give, the same as if the stream had ended there: their data, and their last
   trailers, or synthesised success trailers if they brought none.
   */
  lemma FailureLooksLikeEnd(before: seq<Frame>, rest: seq<Poll>)
    ensures
      var (data, trailers) := Collected(Polls(before) + [Failed] + rest);
      && (data, trailers) == Collected(Polls(before))
      && data == DataOf(before)
      && trailers == (if LastTrailers(before).Some? then LastTrailers(before).value else SuccessTrailers)
  {
    ReceivedUntilFailure(before, rest);
    ReceivedPolls(before);
  }

  ghost predicate HasTrailers(frames: seq<Frame>) {
    exists i :: 0 <= i < |frames| && frames[i].Trailers?
  }

  lemma {:induction false} LastTrailersIff(frames: seq<Frame>)
    ensures LastTrailers(frames).Some? <==> HasTrailers(frames)
  {
    if frames != [] {
      LastTrailersIff(frames[1..]);
      if i :| 0 <= i < |frames| && frames[i].Trailers? {
        if i > 0 { assert frames[1..][i - 1].Trailers?; }
      }
      if i :| 0 <= i < |frames[1..]| && frames[1..][i].Trailers? {
        assert frames[i + 1].Trailers?;
      }
    }
  }

  /** Trailers that report gRPC success, among whatever else they carry. */
  predicate ReportSuccess(trailers: Headers) {
    ("grpc-status", "0") in trailers
  }

  /** A failed stream is passed on as a success exactly when it failed before any trailers came, or the
      last that came report success. */
  lemma FailureBecomesSuccessIff(before: seq<Frame>, rest: seq<Poll>)
    ensures ReportSuccess(Collected(Polls(before) + [Failed] + rest).1) <==>
              (HasTrailers(before) ==> LastTrailers(before).Some? && ReportSuccess(LastTrailers(before).value))
  {
    FailureLooksLikeEnd(before, rest);
    LastTrailersIff(before);
  }

  /**
   Replaying a cached response and collecting it again gives the same body and
   the same trailers, so a response may pass through the middleware any number
   of times.
   */
  lemma ReplayThenCollect(data: seq<byte>, trailers: Headers)
    ensures Collected(Polls(Replay(data, Some(trailers)))) == (data, trailers)
  {
    var frames := Replay(data, Some(trailers));
    ReceivedPolls(frames);
    var head := if data != [] then [Data(data)] else [];
    assert DataOf(head) == data;
    DataOfAppend(head, Trailers(trailers));
  }

  /** The same through the body itself: rebuilt, polled to its end and collected. */
  method PassThrough(data: seq<byte>, trailers: Headers) returns (again: seq<byte>, itsTrailers: Headers)
    ensures again == data && itsTrailers == trailers
  {
    var body := new TraileredBody(data, Some(trailers));
    var frames := body.Drain();
    ReplayThenCollect(data, trailers);
    again, itsTrailers := CollectFrames(Polls(frames));
  }
}
