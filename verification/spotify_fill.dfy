/**
 Copying librespot's PCM pipe into the current track's buffer.

 One reader takes chunks of any size off the pipe; a track switch may happen
 between any two of them.  The kept bytes must start on a 4-byte frame boundary
 of the pipe, however the pipe happens to be split.
 */
module SpotifyFill {
  import opened Options
  import opened Wav

  const FRAME := 4

  /** `pipe` and `switchedAt` are history: every byte read, and how many at the switch. */
  datatype Fill = Fill(pipe: seq<byte>, switchedAt: nat, open: bool, buffer: seq<byte>, expected: nat, done: bool)

  const Nothing := Fill([], 0, false, [], 0, false)

  function Min(a: nat, b: nat): nat {
    if a < b then a else b
  }

  /** Bytes to drop so that the next kept byte sits on a frame boundary. */
  function Skip(pipeTotal: nat): nat {
    (FRAME - pipeTotal % FRAME) % FRAME
  }

  function ReadChunk(f: Fill, chunk: seq<byte>): Fill {
    var f' := f.(pipe := f.pipe + chunk);
    if !f.open || f.done || |f.buffer| >= f.expected then f' else
    var off := if f.buffer == [] then Min(Skip(|f.pipe|), |chunk|) else 0;
    var take := Min(|chunk| - off, f.expected - |f.buffer|);
    var kept := f.buffer + chunk[off..off + take];
    f'.(buffer := kept, done := |kept| >= f.expected)
  }

  function SwitchTrack(f: Fill, expected: nat): Fill {
    Fill(f.pipe, |f.pipe|, true, [], expected, false)
  }

  // ---------------------------------------------------------------------------
  // The object
  // ---------------------------------------------------------------------------

  /** What the Spotify service answers: credentials are there, the device is online, the track plays. */
  datatype Service = Service(configured: bool, online: bool, plays: bool)

  predicate Switches(current: Option<string>, isOpen: bool, uri: string, service: Service) {
    !(isOpen && current == Some(uri)) && service.configured && service.online && service.plays
  }

  class TrackBuffer {
    var currentUri: Option<string>
    var pipeTotal: nat
    var file: seq<byte>        // after the header
    var isOpen: bool
    var expectedPcm: nat
    var fillDone: bool
    ghost var pipe: seq<byte>
    ghost var switchedAt: nat

    ghost predicate Valid()
      reads this
    {
      pipeTotal == |pipe|
    }

    ghost function View(): Fill
      reads this
    {
      Fill(pipe, switchedAt, isOpen, file, expectedPcm, fillDone)
    }

    constructor ()
      ensures Valid() && View() == Nothing && currentUri == None
    {
      currentUri := None;
      pipeTotal, file, isOpen, expectedPcm, fillDone := 0, [], false, 0, false;
      pipe, switchedAt := [], 0;
    }

    method OnRead(chunk: seq<byte>)
      requires Valid()
      modifies this
      ensures Valid() && View() == ReadChunk(old(View()), chunk) && currentUri == old(currentUri)
    {
      if isOpen && !fillDone && |file| < expectedPcm {
        var off := if |file| == 0 then Min((FRAME - pipeTotal % FRAME) % FRAME, |chunk|) else 0;
        var take := Min(|chunk| - off, expectedPcm - |file|);
        assert take == 0 ==> file + chunk[off..off + take] == file;
        if take > 0 {
          file := file + chunk[off..off + take];
        }
        if |file| >= expectedPcm {
          fillDone := true;
        }
      }
      pipeTotal := pipeTotal + |chunk|;
      pipe := pipe + chunk;
    }

    /** Reopening the current track keeps its buffer; so does a switch that the service refuses. */
    method EnsureTrack(uri: string, ms: nat, service: Service) returns (ready: bool)
      requires Valid()
      modifies this
      ensures Valid()
      ensures var switches := Switches(old(currentUri), old(isOpen), uri, service);
              && View() == (if switches then SwitchTrack(old(View()), PcmBytes(ms)) else old(View()))
              && currentUri == (if switches then Some(uri) else old(currentUri))
              && (ready <==> switches || (old(isOpen) && old(currentUri) == Some(uri)))
    {
      if currentUri == Some(uri) && isOpen {
        return true;
      }
      if !service.configured || !service.online || !service.plays {
        return false;
      }
      isOpen, file, fillDone, expectedPcm, currentUri := true, [], false, PcmBytes(ms), Some(uri);
      switchedAt := |pipe|;
      return true;
    }
  }

  // ---------------------------------------------------------------------------
  // Runs
  // ---------------------------------------------------------------------------

  datatype Event = Chunk(bytes: seq<byte>) | Switch(ms: nat)

  function Next(f: Fill, e: Event): Fill {
    match e
    case Chunk(bytes) => ReadChunk(f, bytes)
    case Switch(ms) => SwitchTrack(f, PcmBytes(ms))
  }

  function Run(f: Fill, events: seq<Event>): Fill
    decreases events
  {
    if events == [] then f else Run(Next(f, events[0]), events[1..])
  }

  /** The first frame boundary of the pipe at or after `n`. */
  function Aligned(n: nat): nat {
    n + Skip(n)
  }

  /** The stretch of the pipe the current track should consist of so far. */
  function Window(pipe: seq<byte>, switchedAt: nat, expected: nat): seq<byte> {
    var s := Aligned(switchedAt);
    pipe[Min(s, |pipe|)..Min(s + expected, |pipe|)]
  }

  predicate Inv(f: Fill) {
    f.open ==>
      && f.switchedAt <= |f.pipe| && f.expected > 0
      && f.buffer == Window(f.pipe, f.switchedAt, f.expected)
      && (f.done <==> |f.buffer| == f.expected)
  }

  lemma SkipIsLeast(n: nat)
    ensures Aligned(n) % FRAME == 0 && n <= Aligned(n) < n + FRAME
  {
  }

  lemma SkipFromAnyPoint(switchedAt: nat, total: nat)
    requires switchedAt <= total <= Aligned(switchedAt)
    ensures total + Skip(total) == Aligned(switchedAt)
  {
    var a, b := switchedAt % FRAME, total % FRAME;
    assert total - switchedAt < FRAME;
  }

  lemma ReadKeepsInv(f: Fill, chunk: seq<byte>)
    requires Inv(f)
    ensures Inv(ReadChunk(f, chunk))
  {
    if f.open {
      if |f.buffer| >= f.expected {
        WindowIsFull(f.pipe, chunk, f.switchedAt, f.expected);
      } else if f.buffer == [] {
        WindowBegins(f.pipe, chunk, f.switchedAt, f.expected);
      } else {
        WindowGrows(f.pipe, chunk, f.switchedAt, f.expected);
      }
    }
  }

  lemma WindowIsFull(pipe: seq<byte>, chunk: seq<byte>, switchedAt: nat, expected: nat)
    requires |Window(pipe, switchedAt, expected)| >= expected
    ensures Window(pipe + chunk, switchedAt, expected) == Window(pipe, switchedAt, expected)
  {
    var s := Aligned(switchedAt);
    if expected > 0 {
      assert s + expected <= |pipe|;
      assert (pipe + chunk)[s..s + expected] == pipe[s..s + expected];
    }
  }

  /** Nothing was kept yet: the pipe has not passed the boundary, and the skip leads to it. */
  lemma WindowBegins(pipe: seq<byte>, chunk: seq<byte>, switchedAt: nat, expected: nat)
    requires switchedAt <= |pipe| && expected > 0 && Window(pipe, switchedAt, expected) == []
    ensures var off := Min(Skip(|pipe|), |chunk|);
            Window(pipe + chunk, switchedAt, expected) == chunk[off..off + Min(|chunk| - off, expected)]
  {
    var s := Aligned(switchedAt);
    assert |pipe| <= s;
    SkipFromAnyPoint(switchedAt, |pipe|);
    var off := Min(Skip(|pipe|), |chunk|);
    var take := Min(|chunk| - off, expected);
    assert Min(s, |pipe + chunk|) == |pipe| + off;
    assert (pipe + chunk)[|pipe| + off..|pipe| + off + take] == chunk[off..off + take];
  }

  lemma WindowGrows(pipe: seq<byte>, chunk: seq<byte>, switchedAt: nat, expected: nat)
    requires var w := Window(pipe, switchedAt, expected); w != [] && |w| < expected
    ensures var w := Window(pipe, switchedAt, expected);
            Window(pipe + chunk, switchedAt, expected) == w + chunk[..Min(|chunk|, expected - |w|)]
  {
    var s := Aligned(switchedAt);
    var take := Min(|chunk|, expected - |Window(pipe, switchedAt, expected)|);
    assert Window(pipe, switchedAt, expected) == pipe[s..];
    assert (pipe + chunk)[s..|pipe| + take] == pipe[s..] + chunk[..take];
  }

  lemma SwitchKeepsInv(f: Fill, ms: nat)
    ensures Inv(SwitchTrack(f, PcmBytes(ms)))
  {
    SkipIsLeast(|f.pipe|);
  }

  lemma {:induction false} InvRun(f: Fill, events: seq<Event>)
    requires Inv(f)
    ensures Inv(Run(f, events))
    decreases events
  {
    if events != [] {
      match events[0] {
        case Chunk(bytes) => ReadKeepsInv(f, bytes);
        case Switch(ms) => SwitchKeepsInv(f, ms);
      }
      InvRun(Next(f, events[0]), events[1..]);
    }
  }

  /**
   However the pipe is split into reads and whenever the track is switched, the
   buffer is the contiguous stretch of the pipe that starts at the first frame
   boundary after the switch and is cut off at the expected size, and the fill is
   done exactly when that size is reached.
   */
  lemma BufferIsAlignedWindow(events: seq<Event>)
    ensures
      var f := Run(Nothing, events);
      f.open ==>
        && f.buffer == Window(f.pipe, f.switchedAt, f.expected)
        && Aligned(f.switchedAt) % FRAME == 0
        && f.switchedAt <= Aligned(f.switchedAt) < f.switchedAt + FRAME
        && |f.buffer| <= f.expected
        && (f.done <==> |f.buffer| == f.expected)
        && (forall i | 0 <= i < |f.buffer| ::
              Aligned(f.switchedAt) + i < |f.pipe| && f.buffer[i] == f.pipe[Aligned(f.switchedAt) + i])
  {
    InvRun(Nothing, events);
    SkipIsLeast(Run(Nothing, events).switchedAt);
  }

  function Joined(chunks: seq<seq<byte>>): seq<byte> {
    if chunks == [] then [] else chunks[0] + Joined(chunks[1..])
  }

  function Chunks(chunks: seq<seq<byte>>): seq<Event> {
    if chunks == [] then [] else [Chunk(chunks[0])] + Chunks(chunks[1..])
  }

  /** `g` is `f` after `bytes` more came down the pipe, without a switch. */
  predicate SameTrack(f: Fill, g: Fill, bytes: seq<byte>) {
    && g.pipe == f.pipe + bytes
    && g.switchedAt == f.switchedAt && g.open == f.open && g.expected == f.expected
  }

  lemma RunCons(f: Fill, e: Event, rest: seq<Event>)
    ensures Run(f, [e] + rest) == Run(Next(f, e), rest)
  {
    assert ([e] + rest)[1..] == rest;
  }

  /** A read appends to the pipe and leaves the track alone. */
  lemma ReadFrame(f: Fill, chunk: seq<byte>)
    ensures SameTrack(f, ReadChunk(f, chunk), chunk)
  {
  }

  lemma {:induction false} ChunksExtendPipe(f: Fill, chunks: seq<seq<byte>>)
    ensures SameTrack(f, Run(f, Chunks(chunks)), Joined(chunks))
    decreases chunks
  {
    if chunks == [] {
      assert f.pipe + [] == f.pipe;
    } else {
      var m := Next(f, Chunk(chunks[0]));
      ReadFrame(f, chunks[0]);
      RunCons(f, Chunk(chunks[0]), Chunks(chunks[1..]));
      ChunksExtendPipe(m, chunks[1..]);
      assert (f.pipe + chunks[0]) + Joined(chunks[1..]) == f.pipe + Joined(chunks);
    }
  }

  /** Two ways of splitting the same bytes into reads leave exactly the same state. */
  lemma SplitDoesNotMatter(events: seq<Event>, a: seq<seq<byte>>, b: seq<seq<byte>>)
    requires Run(Nothing, events).open && Joined(a) == Joined(b)
    ensures Run(Run(Nothing, events), Chunks(a)) == Run(Run(Nothing, events), Chunks(b))
  {
    var f := Run(Nothing, events);
    InvRun(Nothing, events);
    ChunksExtendPipe(f, a);
    ChunksExtendPipe(f, b);
    InvRun(f, Chunks(a));
    InvRun(f, Chunks(b));
  }

  /** Between switches the buffer only ever grows at its end. */
  lemma BufferOnlyGrows(f: Fill, chunk: seq<byte>)
    ensures f.buffer <= ReadChunk(f, chunk).buffer
  {
  }
}
