/**
 The timeout callback as two steps: its three checks, and the call that stops the
 session.  Hooks run on the threads of their callers, so some may come between.
 The looper runs one callback at a time and takes no other meanwhile.
 */
module HandTrackingSplit {
  import opened Options
  import opened HandTracking

  /** `stopping`: a callback has passed its checks and not yet stopped the session; `hooks` and `touched`
      say how many hooks, and whether a touch, came since. */
  datatype Split = Split(s: Session, stopping: bool, hooks: nat, touched: bool)

  const Resting := Split(Idle, false, 0, false)

  datatype SplitAction =
    | Hook(a: Action)
    | Wait(d: nat)
    | Take(i: nat)             // the looper takes a due callback
    | Check                    // ... and checks it
    | StopNow(lockOk: bool)    // ... and, if it passed, stops the session

  predicate IsHook(a: Action) {
    a.Update? || a.Transcription? || a.ClearInteractive? || a.Stop?
  }

  predicate IsTouch(a: Action) {
    a.Update? && a.reason.Touchpad?
  }

  /** The three checks. */
  predicate Passes(s: Session) {
    InFlight(s) && s.armed && !ActiveHold(s)
  }

  function SplitNext(x: Split, a: SplitAction): Option<Split> {
    match a
    case Hook(h) =>
      if !IsHook(h) || Next(x.s, h).None? then None
      else Some(Split(Next(x.s, h).value, x.stopping, x.hooks + 1, x.touched || IsTouch(h)))
    case Wait(d) => Some(x.(s := Next(x.s, Tick(d)).value))
    case Take(i) =>
      if x.stopping || Next(x.s, Dequeue(i)).None? then None else Some(x.(s := Next(x.s, Dequeue(i)).value))
    case Check =>
      if x.stopping || x.s.flight.None? then None
      else Some(Split(x.s.(flight := None), Passes(x.s), 0, false))
    case StopNow(lockOk) =>
      if !x.stopping then None else Some(x.(s := Reset(x.s, lockOk), stopping := false))
  }

  function SplitRun(x: Split, acts: seq<SplitAction>): Option<Split>
    decreases acts
  {
    if acts == [] then Some(x) else
    var n := SplitNext(x, acts[0]);
    if n.None? then None else SplitRun(n.value, acts[1..])
  }

  predicate SplitStartsOk(a: SplitAction) {
    a.Hook? ==> StartsOk(a.a)
  }

  // ---- What every run keeps ----

  /** The last touch is long enough ago to stop the session. */
  predicate LongAgo(s: Session) {
    s.now - s.lastTouch >= MIN_TIMEOUT_MS
  }

  ghost predicate SplitInv(x: Split) {
    && Inv(x.s) && AfterTouch(x.s)
    && (x.stopping ==> x.s.flight.None?)
    && (!x.stopping ==> NoLeak(x.s))
    && (x.stopping && !x.touched ==> LongAgo(x.s))
    && (x.stopping && x.hooks == 0 ==> x.s.armed && !ActiveHold(x.s))
  }

  lemma OnlyTouchesTouch(s: Session, a: Action)
    requires IsHook(a) && Next(s, a).Some? && !IsTouch(a)
    ensures Next(s, a).value.lastTouch == s.lastTouch && Next(s, a).value.now == s.now
  {
    if a.Update? {
      OnlyTouchpadTouches(s, a.reason, a.env);
    }
  }

  lemma OnlyTouchpadTouches(s: Session, reason: Reason, env: Env)
    requires !reason.Touchpad?
    ensures HandleUpdate(s, reason, env).lastTouch == s.lastTouch && HandleUpdate(s, reason, env).now == s.now
  {
    var e := EffectOf(s, reason, env);
    assert !e.Nothing? ==> e.base.lastTouch == s.lastTouch && e.base.now == s.now;
  }

  lemma HooksLeaveTheLooper(s: Session, a: Action)
    requires IsHook(a) && Next(s, a).Some?
    ensures Next(s, a).value.flight == s.flight
  {
    if a.Update? {
      EffectKeepsTimer(s, a.reason, a.env);
    }
  }

  lemma SplitHook(x: Split, a: Action)
    requires SplitInv(x) && SplitNext(x, Hook(a)).Some? && StartsOk(a)
    ensures SplitInv(SplitNext(x, Hook(a)).value)
  {
    InvStep(x.s, a);
    AfterTouchStep(x.s, a);
    HooksLeaveTheLooper(x.s, a);
    if !x.stopping {
      NoLeakStep(x.s, a);
    }
    if !IsTouch(a) {
      OnlyTouchesTouch(x.s, a);
    }
  }

  lemma SplitCheck(x: Split)
    requires SplitInv(x) && SplitNext(x, Check).Some?
    ensures SplitInv(SplitNext(x, Check).value)
  {
  }

  lemma SplitStop(x: Split, lockOk: bool)
    requires SplitInv(x) && SplitNext(x, StopNow(lockOk)).Some?
    ensures SplitInv(SplitNext(x, StopNow(lockOk)).value) && !SplitNext(x, StopNow(lockOk)).value.s.armed
  {
    InvStep(x.s, Stop(lockOk));
    AfterTouchStep(x.s, Stop(lockOk));
  }

  lemma SplitTake(x: Split, i: nat)
    requires SplitInv(x) && SplitNext(x, Take(i)).Some?
    ensures SplitInv(SplitNext(x, Take(i)).value)
  {
    InvStep(x.s, Dequeue(i));
    AfterTouchStep(x.s, Dequeue(i));
    NoLeakStep(x.s, Dequeue(i));
  }

  lemma SplitStep(x: Split, a: SplitAction)
    requires SplitInv(x) && SplitNext(x, a).Some? && SplitStartsOk(a)
    ensures SplitInv(SplitNext(x, a).value)
  {
    match a
    case Hook(h) => SplitHook(x, h);
    case Wait(d) => InvStep(x.s, Tick(d));
    case Take(i) => SplitTake(x, i);
    case Check => SplitCheck(x);
    case StopNow(lockOk) => SplitStop(x, lockOk);
  }

  lemma {:induction false} SplitInvRun(x: Split, acts: seq<SplitAction>)
    requires SplitInv(x) && SplitRun(x, acts).Some? && forall a | a in acts :: SplitStartsOk(a)
    ensures SplitInv(SplitRun(x, acts).value)
    decreases acts
  {
    if acts != [] {
      SplitStep(x, acts[0]);
      SplitInvRun(SplitNext(x, acts[0]).value, acts[1..]);
    }
  }

  // ---- What it gives ----

  /** As long as `startIfNeeded` returns, a reachable session without a hold has its timer, except while
      a callback that passed its checks is about to stop it. */
  lemma SplitNeverLeaks(acts: seq<SplitAction>)
    requires SplitRun(Resting, acts).Some? && forall a | a in acts :: SplitStartsOk(a)
    ensures var x := SplitRun(Resting, acts).value;
            Unheld(x.s) && !x.stopping ==> LiveCallbacks(x.s) == 1
  {
    SplitInvRun(Resting, acts);
  }

  /**
   In every run, a stop comes too early after a touch exactly when a touch came
   between the checks and the stop and the minimum timeout has not passed since.
   With no hook in between at all, it stops an armed session that nothing holds.
   */
  lemma StopIsEarlyIff(acts: seq<SplitAction>)
    requires SplitRun(Resting, acts).Some? && forall a | a in acts :: SplitStartsOk(a)
    requires SplitRun(Resting, acts).value.stopping
    ensures
      var x := SplitRun(Resting, acts).value;
      && (!LongAgo(x.s) <==> x.touched && x.s.now - x.s.lastTouch < MIN_TIMEOUT_MS)
      && (x.hooks == 0 ==> x.s.armed && !ActiveHold(x.s) && LongAgo(x.s))
  {
    SplitInvRun(Resting, acts);
    HooklessIsUntouched(Resting, acts);
  }

  lemma {:induction false} HooklessIsUntouched(x: Split, acts: seq<SplitAction>)
    requires SplitRun(x, acts).Some? && (x.touched ==> x.hooks > 0)
    ensures var y := SplitRun(x, acts).value; y.touched ==> y.hooks > 0
    decreases acts
  {
    if acts != [] {
      HooklessIsUntouched(SplitNext(x, acts[0]).value, acts[1..]);
    }
  }

  /** No other callback is checked on the way. */
  predicate SameCallback(acts: seq<SplitAction>) {
    forall a | a in acts :: !a.Check? && !a.StopNow?
  }

  ghost predicate CanStopEarly(x: Split) {
    exists acts ::
      && SameCallback(acts) && (forall a | a in acts :: SplitStartsOk(a))
      && SplitRun(x, acts).Some? && SplitRun(x, acts).value.stopping && !LongAgo(SplitRun(x, acts).value.s)
  }

  lemma {:induction false} StoppingStays(x: Split, acts: seq<SplitAction>)
    requires SameCallback(acts) && SplitRun(x, acts).Some?
    ensures SplitRun(x, acts).value.stopping == x.stopping
    decreases acts
  {
    if acts != [] {
      StoppingStays(SplitNext(x, acts[0]).value, acts[1..]);
    }
  }

  /**
   The window: a callback can still stop a session that has just been touched
   exactly when it has passed its checks and not yet called stop.  While it has
   not been checked, a touch makes it stale.
   */
  lemma CanStopEarlyIff(x: Split)
    requires SplitInv(x)
    ensures CanStopEarly(x) <==> x.stopping
  {
    if x.stopping {
      var a := Hook(Update(Touchpad, Env(true, true, true, 0)));
      var y := SplitNext(x, a).value;
      TouchIsNow(x.s, Env(true, true, true, 0));
      assert SplitRun(y, [a][1..]) == Some(y);
      assert SplitRun(x, [a]) == Some(y);
      assert SameCallback([a]) && !LongAgo(y.s);
    }
    if acts :| SameCallback(acts) && SplitRun(x, acts).Some? && SplitRun(x, acts).value.stopping {
      StoppingStays(x, acts);
    }
  }

  lemma TouchIsNow(s: Session, env: Env)
    ensures var t := HandleUpdate(s, Touchpad, env); t.lastTouch == t.now == s.now && t.armed
  {
  }

  /** A touch makes every callback taken before it stale. */
  lemma TouchedIsStale(s: Session, env: Env)
    requires Inv(s) && env.startOk
    ensures !Passes(HandleUpdate(s, Touchpad, env))
  {
    EffectKeepsTimer(s, Touchpad, env);
  }

  /** With nothing but time between its two steps, the callback does what it does in one. */
  lemma UninterruptedIsFire(x: Split, d: nat, lockOk: bool)
    requires !x.stopping && x.s.flight.Some? && Passes(x.s)
    ensures
      var y := SplitRun(x, [Check, Wait(d), StopNow(lockOk)]);
      && y.Some?
      && y.value.s == Next(Next(x.s, Tick(d)).value, Fire(lockOk)).value
  {
    var x1 := SplitNext(x, Check).value;
    var x2 := SplitNext(x1, Wait(d)).value;
    var x3 := SplitNext(x2, StopNow(lockOk)).value;
    var l1, l2 := [Wait(d), StopNow(lockOk)], [StopNow(lockOk)];
    assert [Check, Wait(d), StopNow(lockOk)][1..] == l1 && l1[1..] == l2 && l2[1..] == [];
    assert SplitRun(x2, l2) == SplitRun(x3, []) == Some(x3);
    assert SplitRun(x1, l1) == SplitRun(x2, l2);
  }
}
