/**
 Serving byte ranges out of a WAV file that is still being filled.

 The handler reads the fill counter and, only if it has nothing left to copy,
 the done flag; the writer may run between those two reads.  Everything here is
 about one track: no switch happens.
 */
module SpotifyServe {
  import opened Options
  import opened Wav

  const BUFFER_SIZE := 32768

  // ---------------------------------------------------------------------------
  // What a response announces
  // ---------------------------------------------------------------------------

  datatype ContentRange = ContentRange(first: nat, last: nat, total: nat)

  datatype Plan = Plan(status: nat, contentLength: nat, contentRange: Option<ContentRange>, start: nat)

  /** `rangeStart` is the first-pos of a `Range: bytes=N-` header, 0 when there is none. */
  function PlanResponse(rangeStart: nat, expectedPcm: nat): Plan {
    var total := HEADER_SIZE + expectedPcm;
    if 1 <= rangeStart < total then
      Plan(206, total - rangeStart, Some(ContentRange(rangeStart, total - 1, total)), rangeStart)
    else
      Plan(200, total, None, 0)
  }

  /**
   The announced range always ends at the last byte of the file, its length is
   the announced Content-Length, and a request past the end gets the whole file.
   */
  lemma PlanIsConsistent(rangeStart: nat, expectedPcm: nat)
    ensures
      var p := PlanResponse(rangeStart, expectedPcm);
      && p.start + p.contentLength == HEADER_SIZE + expectedPcm
      && p.start < HEADER_SIZE + expectedPcm
      && (p.status == 206 <==> p.contentRange.Some?)
      && (p.contentRange.Some? ==>
            var r := p.contentRange.value;
            r.first == p.start == rangeStart && r.last - r.first + 1 == p.contentLength && r.total == r.last + 1)
      && (p.status == 200 ==> p.start == 0 && (rangeStart == 0 || rangeStart >= HEADER_SIZE + expectedPcm))
  {
  }

  /** A range that begins after the first byte and before the end of the file of 44 header bytes and the
      announced samples is served partially; every other request, one without a range too, gets it all. */
  lemma PartialIff(rangeStart: nat, expectedPcm: nat)
    ensures
      var p := PlanResponse(rangeStart, expectedPcm);
      && (p.status == 206 <==> 1 <= rangeStart < 44 + expectedPcm)
      && (p.status == 200 <==> rangeStart == 0 || 44 + expectedPcm <= rangeStart)
      && (p.status == 200 ==> p.start == 0 && p.contentLength == 44 + expectedPcm && p.contentRange == None)
      && (p.status == 206 ==>
            p.start == rangeStart && p.contentLength == 44 + expectedPcm - rangeStart
            && p.contentRange == Some(ContentRange(rangeStart, 43 + expectedPcm, 44 + expectedPcm)))
  {
  }

  // ---------------------------------------------------------------------------
  // Writer and handler
  // ---------------------------------------------------------------------------

  datatype Phase =
    | Head                  // top of the loop
    | Looked(avail: nat)    // has read the fill counter
    | Exited(avail: nat)    // left the loop; `avail` is the last counter it had read

  /** `wav` is the finished file; its first 44 + `fill` bytes have been written. */
  datatype Serve = Serve(wav: seq<byte>, fill: nat, done: bool, phase: Phase, pos: nat, sent: seq<byte>)

  function Start(wav: seq<byte>, fill: nat, done: bool, start: nat): Serve {
    Serve(wav, fill, done, Head, start, [])
  }

  function Min3(a: int, b: int, c: int): int {
    var m := if a < b then a else b;
    if m < c then m else c
  }

  datatype Action =
    | Write(n: nat)     // the writer appends n bytes and raises the counter
    | Mark              // ... and sets the done flag once the file is full
    | Look              // the handler reads the counter
    | Copy(n: nat)      // ... copies n available bytes
    | Check             // ... or, with none available, reads the done flag

  function Next(s: Serve, a: Action): Option<Serve> {
    match a
    case Write(n) =>
      if HEADER_SIZE + s.fill + n > |s.wav| then None else Some(s.(fill := s.fill + n))
    case Mark =>
      if HEADER_SIZE + s.fill != |s.wav| then None else Some(s.(done := true))
    case Look =>
      if !s.phase.Head? then None
      else if s.pos >= |s.wav| then Some(s.(phase := Exited(|s.wav|)))
      else Some(s.(phase := Looked(HEADER_SIZE + s.fill)))
    case Copy(n) =>
      if !s.phase.Looked? || s.pos >= s.phase.avail then None else
      var want := Min3(BUFFER_SIZE, s.phase.avail - s.pos, |s.wav| - s.pos);
      if !(1 <= n <= want) || s.pos + n > |s.wav| then None
      else Some(s.(phase := Head, pos := s.pos + n, sent := s.sent + s.wav[s.pos..s.pos + n]))
    case Check =>
      if !s.phase.Looked? || s.pos < s.phase.avail then None
      else Some(s.(phase := if s.done then Exited(s.phase.avail) else Head))
  }

  function Run(s: Serve, acts: seq<Action>): Option<Serve>
    decreases acts
  {
    if acts == [] then Some(s) else
    var n := Next(s, acts[0]);
    if n.None? then None else Run(n.value, acts[1..])
  }

  predicate Inv(s: Serve, start: nat) {
    && start <= s.pos <= |s.wav| && start < |s.wav|
    && HEADER_SIZE + s.fill <= |s.wav|
    && s.sent == s.wav[start..s.pos]
    && (s.pos <= HEADER_SIZE + s.fill || s.sent == [])
    && (s.done ==> HEADER_SIZE + s.fill == |s.wav|)
    && (s.phase.Looked? ==>
          s.phase.avail <= HEADER_SIZE + s.fill && (s.sent == [] || s.pos <= s.phase.avail))
    && (s.phase.Exited? ==>
          s.phase.avail <= HEADER_SIZE + s.fill == |s.wav| &&
          (if s.sent == [] then s.pos == start && s.phase.avail <= start else s.pos == s.phase.avail))
  }

  lemma InvStep(s: Serve, a: Action, start: nat)
    requires Inv(s, start) && Next(s, a).Some?
    ensures Inv(Next(s, a).value, start)
  {
    if a.Copy? {
      assert s.wav[start..s.pos] + s.wav[s.pos..s.pos + a.n] == s.wav[start..s.pos + a.n];
    }
  }

  lemma {:induction false} InvRun(s: Serve, acts: seq<Action>, start: nat)
    requires Inv(s, start) && Run(s, acts).Some?
    ensures Inv(Run(s, acts).value, start)
    ensures Run(s, acts).value.wav == s.wav
    decreases acts
  {
    if acts != [] {
      InvStep(s, acts[0], start);
      InvRun(Next(s, acts[0]).value, acts[1..], start);
    }
  }

  /**
   In every interleaving of writer and handler, what has been sent is the
   contiguous run of the finished file from `start`, never past what the writer
   has written.
   */
  lemma ServedIsContiguous(wav: seq<byte>, fill: nat, start: nat, acts: seq<Action>)
    requires HEADER_SIZE + fill <= |wav| && start < |wav|
    requires Run(Start(wav, fill, false, start), acts).Some?
    ensures
      var s := Run(Start(wav, fill, false, start), acts).value;
      && start + |s.sent| <= |wav| && s.sent == wav[start..start + |s.sent|]
      && (s.sent != [] ==> start + |s.sent| <= HEADER_SIZE + s.fill)
  {
    InvRun(Start(wav, fill, false, start), acts, start);
  }

  /**
   A handler that has left its loop sent exactly the announced bytes if and only
   if the last fill counter it read was already the final one.
   */
  lemma CompleteIffLastLookSawAll(wav: seq<byte>, fill: nat, start: nat, acts: seq<Action>)
    requires HEADER_SIZE + fill <= |wav| && start < |wav|
    requires Run(Start(wav, fill, false, start), acts).Some?
    requires Run(Start(wav, fill, false, start), acts).value.phase.Exited?
    ensures
      var s := Run(Start(wav, fill, false, start), acts).value;
      |s.sent| == |wav| - start <==> s.phase.avail == |wav|
  {
    InvRun(Start(wav, fill, false, start), acts, start);
  }

  /** The handler has not read a stale counter since the file was full. */
  predicate SeesAll(s: Serve) {
    && HEADER_SIZE + s.fill == |s.wav|
    && (!s.phase.Head? ==> s.phase.avail == |s.wav|)
  }

  lemma {:induction false} SeesAllRun(s: Serve, acts: seq<Action>, start: nat)
    requires Inv(s, start) && SeesAll(s) && Run(s, acts).Some?
    ensures SeesAll(Run(s, acts).value)
    decreases acts
  {
    if acts != [] {
      InvStep(s, acts[0], start);
      SeesAllRun(Next(s, acts[0]).value, acts[1..], start);
    }
  }

  /**
   A handler at the top of its loop once the file is full sends exactly the
   announced bytes before it leaves, in every schedule.
   */
  lemma CompleteOnceFilled(s: Serve, start: nat, acts: seq<Action>)
    requires Inv(s, start) && s.phase.Head? && HEADER_SIZE + s.fill == |s.wav|
    requires Run(s, acts).Some? && Run(s, acts).value.phase.Exited?
    ensures Run(s, acts).value.sent == s.wav[start..]
  {
    SeesAllRun(s, acts, start);
    InvRun(s, acts, start);
  }

  /** And it can always do so: with the file full the handler's own steps reach the end. */
  lemma {:induction false} HandlerFinishes(s: Serve, start: nat) returns (acts: seq<Action>)
    requires Inv(s, start) && s.phase.Head? && HEADER_SIZE + s.fill == |s.wav|
    ensures forall a | a in acts :: a.Look? || a.Copy?
    ensures Run(s, acts).Some? && Run(s, acts).value.phase.Exited?
    decreases |s.wav| - s.pos
  {
    var s1 := Next(s, Look).value;
    InvStep(s, Look, start);
    if s.pos >= |s.wav| {
      acts := [Look];
      assert Run(s1, acts[1..]) == Some(s1);
    } else {
      var n := Min3(BUFFER_SIZE, |s.wav| - s.pos, |s.wav| - s.pos);
      var s2 := Next(s1, Copy(n)).value;
      InvStep(s1, Copy(n), start);
      var rest := HandlerFinishes(s2, start);
      acts := [Look, Copy(n)] + rest;
      assert acts[1..] == [Copy(n)] + rest && acts[1..][1..] == rest;
      assert Run(s1, [Copy(n)] + rest) == Run(s2, rest);
      assert Run(s, acts) == Run(s1, acts[1..]);
    }
  }

  // ---------------------------------------------------------------------------
  // Exactly when a response can still end short
  // ---------------------------------------------------------------------------

  ghost predicate CanEndShort(s: Serve, start: nat) {
    exists acts :: Run(s, acts).Some? && EndedShort(Run(s, acts).value, start)
  }

  predicate EndedShort(s: Serve, start: nat) {
    s.phase.Exited? && |s.sent| < |s.wav| - start
  }

  /** The handler has already read a counter that the writer has outrun, and has nothing left to copy. */
  predicate StaleLook(s: Serve) {
    s.phase.Looked? && s.phase.avail <= s.pos && s.phase.avail < |s.wav|
  }

  predicate Full(s: Serve) {
    HEADER_SIZE + s.fill == |s.wav|
  }

  lemma RunOn(s: Serve, a: Action, rest: seq<Action>)
    requires Next(s, a).Some?
    ensures Run(s, [a] + rest) == Run(Next(s, a).value, rest)
  {
    assert ([a] + rest)[1..] == rest;
  }

  lemma ShortAfter(s: Serve, a: Action, start: nat)
    requires Next(s, a).Some?
    requires CanEndShort(Next(s, a).value, start)
    ensures CanEndShort(s, start)
  {
    var m := Next(s, a).value;
    var acts :| Run(m, acts).Some? && EndedShort(Run(m, acts).value, start);
    RunOn(s, a, acts);
    assert EndedShort(Run(s, [a] + acts).value, start);
  }

  /** With the look gone stale the writer finishes and the handler sees the flag. */
  lemma StaleEndsShort(s: Serve, start: nat)
    requires Inv(s, start) && StaleLook(s)
    ensures CanEndShort(s, start)
  {
    var w := Next(s, Write(|s.wav| - HEADER_SIZE - s.fill)).value;
    var m := Next(w, Mark).value;
    var e := Next(m, Check).value;
    assert Run(e, []) == Some(e) && EndedShort(e, start);
    ShortAfter(m, Check, start);
    ShortAfter(w, Mark, start);
    ShortAfter(s, Write(|s.wav| - HEADER_SIZE - s.fill), start);
  }

  /** While the file is not full the handler can catch up with the writer, and then its look is stale. */
  lemma {:induction false} UnfilledEndsShort(s: Serve, start: nat)
    requires Inv(s, start) && !s.phase.Exited? && !Full(s)
    ensures CanEndShort(s, start)
    decreases |s.wav| - s.pos, if s.phase.Head? then 1 else 0
  {
    if s.phase.Head? {
      UnfilledPosition(s, start);
      InvStep(s, Look, start);
      UnfilledEndsShort(Next(s, Look).value, start);
      ShortAfter(s, Look, start);
    } else if s.pos < s.phase.avail {
      InvStep(s, Copy(1), start);
      UnfilledEndsShort(Next(s, Copy(1)).value, start);
      ShortAfter(s, Copy(1), start);
    } else {
      StaleEndsShort(s, start);
    }
  }

  lemma UnfilledPosition(s: Serve, start: nat)
    requires Inv(s, start) && !Full(s)
    ensures s.pos < |s.wav|
  {
    if s.sent == [] {
      assert |s.wav[start..s.pos]| == s.pos - start;
    }
  }

  /** The file is full and the handler will look once more before it gives up, or has seen it all. */
  predicate OnTrack(s: Serve) {
    Full(s) && !StaleLook(s) && (s.phase.Exited? ==> s.phase.avail == |s.wav|)
  }

  lemma {:induction false} OnTrackRun(s: Serve, acts: seq<Action>, start: nat)
    requires Inv(s, start) && OnTrack(s) && Run(s, acts).Some?
    ensures !EndedShort(Run(s, acts).value, start) && Run(s, acts).value.wav == s.wav
    decreases acts
  {
    if acts != [] {
      InvStep(s, acts[0], start);
      OnTrackRun(Next(s, acts[0]).value, acts[1..], start);
    }
  }

  /**
   From any state of a handler that has not left its loop, some schedule makes it
   send less than it announced exactly when the file is not yet full or its last
   look has gone stale with nothing left to copy.
   */
  lemma CanEndShortIff(s: Serve, start: nat)
    requires Inv(s, start) && !s.phase.Exited?
    ensures CanEndShort(s, start) <==> !Full(s) || StaleLook(s)
  {
    if StaleLook(s) {
      StaleEndsShort(s, start);
    } else if !Full(s) {
      UnfilledEndsShort(s, start);
    } else if acts :| Run(s, acts).Some? && EndedShort(Run(s, acts).value, start) {
      OnTrackRun(s, acts, start);
    }
  }

  /** For a request: its response can end short exactly when it begins before the file is full. */
  lemma RequestCanEndShortIff(wav: seq<byte>, fill: nat, start: nat)
    requires HEADER_SIZE + fill <= |wav| && start < |wav|
    ensures CanEndShort(Start(wav, fill, false, start), start) <==> HEADER_SIZE + fill < |wav|
  {
    CanEndShortIff(Start(wav, fill, false, start), start);
  }

  /**
   The counter and the flag are read separately, so a handler can leave early:
   the writer finishes between the two reads and the handler stops short of the
   length it announced.
   */
  lemma ShortResponseRace(wav: seq<byte>)
    requires |wav| == HEADER_SIZE + 4
    ensures
      var s := Run(Start(wav, 0, false, HEADER_SIZE), [Look, Write(4), Mark, Check]);
      && s.Some? && s.value.phase.Exited? && s.value.sent == []
      && PlanResponse(HEADER_SIZE, 4).contentLength == 4
  {
    var s0 := Start(wav, 0, false, HEADER_SIZE);
    var s1 := Next(s0, Look).value;
    var s2 := Next(s1, Write(4)).value;
    var s3 := Next(s2, Mark).value;
    var s4 := Next(s3, Check).value;
    var l1, l2, l3 := [Write(4), Mark, Check], [Mark, Check], [Check];
    assert [Look, Write(4), Mark, Check][1..] == l1 && l1[1..] == l2 && l2[1..] == l3 && l3[1..] == [];
    assert Run(s3, l3) == Run(s4, []) == Some(s4);
    assert Run(s2, l2) == Run(s3, l3);
    assert Run(s1, l1) == Run(s2, l2);
  }
}
