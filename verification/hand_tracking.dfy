/**
 The replacement lifetime policy for low-power hand tracking.

 A touch arms a session; narration, an active AI response and a projected hand
 hold it; otherwise a generation-stamped timer stops it.  Hook bodies run to
 completion, but a timer callback may already have been taken off the message
 queue (`flight`) when a hook cancels it.
 */
module HandTracking {
  import opened Options

  const MIN_TIMEOUT_MS := 1_000
  const MAX_TIMEOUT_MS := 60_000

  datatype Callback = Callback(gen: nat, posted: nat, due: nat)

  datatype Reason =
    | Touchpad | NarrationStart | NarrationEnd | LaserStart | LaserEnd
    | Alert | Sound | Ignored

  /**
   What the platform answers while a hook runs: whether `startIfNeeded` returns,
   whether the lock service performs the call, whether settings let an alert or
   sound start a session, and the configured timeout.
   */
  datatype Env = Env(startOk: bool, lockOk: bool, allowed: bool, configured: int)

  /**
   The hook's fields, its message queue and the clock.  The last four fields are
   history: lock service calls that succeeded, releases that were lost, and the
   time of the last touch.
   */
  datatype Session = Session(
    armed: bool, ai: bool, narration: bool, projection: bool,
    token: bool, gen: nat, queue: seq<Callback>, flight: Option<Callback>, now: nat,
    acquired: nat, released: nat, lost: nat, lastTouch: nat)

  const Idle := Session(false, false, false, false, false, 0, [], None, 0, 0, 0, 0, 0)

  function Clamp(ms: int): nat {
    if ms < MIN_TIMEOUT_MS then MIN_TIMEOUT_MS else if ms > MAX_TIMEOUT_MS then MAX_TIMEOUT_MS else ms
  }

  /** A response or narration in progress; projection is deliberately not part of it. */
  predicate ActiveHold(s: Session) {
    s.ai || s.narration
  }

  function CancelTimer(s: Session): Session {
    s.(gen := s.gen + 1, queue := [])
  }

  function ScheduleTimeout(s: Session, configured: int): Session {
    var c := CancelTimer(s);
    var g := c.gen + 1;
    c.(gen := g, queue := c.queue + [Callback(g, s.now, s.now + Clamp(configured))])
  }

  function AcquireLock(s: Session, ok: bool): Session {
    if !s.armed || s.token || !ok then s else s.(token := true, acquired := s.acquired + 1)
  }

  function ReleaseLock(s: Session, ok: bool): Session {
    if !s.token then s
    else if ok then s.(token := false, released := s.released + 1)
    else s.(token := false, lost := s.lost + 1)
  }

  function Reset(s: Session, lockOk: bool): Session {
    ReleaseLock(s, lockOk).(armed := false, ai := false, narration := false, projection := false,
                            gen := s.gen + 1, queue := [])
  }

  /** The fields a hook sets before it touches the timer, and what it then does to the timer. */
  datatype Effect = Nothing | Cancels(base: Session) | Schedules(base: Session, configured: int) | Keeps(base: Session)

  function EffectOf(s: Session, reason: Reason, env: Env): Effect {
    match reason
    case Touchpad =>
      var t := ReleaseLock(s, env.lockOk).(armed := true, ai := false, narration := false, projection := false,
                                           lastTouch := s.now);
      if env.startOk then Schedules(t, env.configured) else Keeps(t)
    case NarrationStart =>
      if !s.armed then Nothing
      else if env.startOk then Cancels(AcquireLock(s.(narration := true), env.lockOk))
      else Keeps(s.(narration := true))
    case NarrationEnd =>
      if !s.armed then Nothing else
      var t := ReleaseLock(s, env.lockOk).(ai := false, narration := false);
      if t.projection then Cancels(t) else Schedules(t, env.configured)
    case LaserStart =>
      if !s.armed then Nothing
      else if env.startOk then Cancels(s.(projection := true)) else Keeps(s.(projection := true))
    case LaserEnd =>
      if !s.armed then Nothing
      else if ActiveHold(s) then Keeps(s.(projection := false))
      else Schedules(s.(projection := false), env.configured)
    case Ignored => Nothing
    case Alert => StartEffect(s, env)
    case Sound => StartEffect(s, env)
  }

  function StartEffect(s: Session, env: Env): Effect {
    if !env.allowed then Nothing
    else if env.startOk then Schedules(s.(armed := true), env.configured)
    else Keeps(s.(armed := true))
  }

  function Perform(s: Session, e: Effect): Session {
    match e
    case Nothing => s
    case Cancels(t) => CancelTimer(t)
    case Schedules(t, configured) => ScheduleTimeout(t, configured)
    case Keeps(t) => t
  }

  function HandleUpdate(s: Session, reason: Reason, env: Env): Session {
    Perform(s, EffectOf(s, reason, env))
  }

  function ResponseStarted(s: Session): Session {
    if !s.armed then s else
    var t := s.(ai := true);
    if ActiveHold(s) then t else CancelTimer(t)
  }

  function InteractionCleared(s: Session, configured: int): Session {
    if !s.armed then s else
    var t := s.(ai := false);
    if t.narration || t.projection then CancelTimer(t) else ScheduleTimeout(t, configured)
  }

  /** The body of a posted callback. */
  function RunCallback(s: Session, c: Callback, lockOk: bool): Session {
    if c.gen != s.gen || !s.armed || ActiveHold(s) then s else Reset(s, lockOk)
  }

  // ---------------------------------------------------------------------------
  // The object with these fields
  // ---------------------------------------------------------------------------

  class HandTrackingHooks {
    var sessionArmed: bool
    var aiResponseActive: bool
    var narrationActive: bool
    var projectionActive: bool
    var narrationHatsToken: bool
    var timerGeneration: nat
    var queue: seq<Callback>
    var flight: Option<Callback>
    var now: nat
    ghost var acquired: nat
    ghost var released: nat
    ghost var lost: nat
    ghost var lastTouch: nat

    ghost function View(): Session
      reads this
    {
      Session(sessionArmed, aiResponseActive, narrationActive, projectionActive, narrationHatsToken,
              timerGeneration, queue, flight, now, acquired, released, lost, lastTouch)
    }

    constructor ()
      ensures View() == Idle
    {
      sessionArmed, aiResponseActive, narrationActive, projectionActive := false, false, false, false;
      narrationHatsToken, timerGeneration, queue, flight, now := false, 0, [], None, 0;
      acquired, released, lost, lastTouch := 0, 0, 0, 0;
    }

    method DoCancelTimer()
      modifies this
      ensures View() == CancelTimer(old(View()))
    {
      timerGeneration := timerGeneration + 1;
      queue := [];
    }

    method DoScheduleTimeout(configured: int)
      modifies this
      ensures View() == ScheduleTimeout(old(View()), configured)
    {
      DoCancelTimer();
      var timeoutMs := Clamp(configured);
      timerGeneration := timerGeneration + 1;
      queue := queue + [Callback(timerGeneration, now, now + timeoutMs)];
    }

    method AcquireNarrationHatsLock(serviceOk: bool)
      modifies this
      ensures View() == AcquireLock(old(View()), serviceOk)
    {
      if !sessionArmed { return; }
      if narrationHatsToken { return; }
      if serviceOk {
        narrationHatsToken := true;
        acquired := acquired + 1;
      }
    }

    method ReleaseNarrationHatsLock(serviceOk: bool)
      modifies this
      ensures View() == ReleaseLock(old(View()), serviceOk)
    {
      if !narrationHatsToken { return; }
      narrationHatsToken := false;
      if serviceOk { released := released + 1; } else { lost := lost + 1; }
    }

    method ResetHookState(serviceOk: bool)
      modifies this
      ensures View() == Reset(old(View()), serviceOk)
    {
      ReleaseNarrationHatsLock(serviceOk);
      sessionArmed, aiResponseActive, narrationActive, projectionActive := false, false, false, false;
      timerGeneration := timerGeneration + 1;
      queue := [];
    }

    /** Returns early wherever `startIfNeeded` throws. */
    method DoHandleUpdate(reason: Reason, env: Env)
      modifies this
      ensures View() == HandleUpdate(old(View()), reason, env)
    {
      match reason
      case Touchpad => Touch(env);
      case NarrationStart => StartNarration(env);
      case NarrationEnd => EndNarration(env);
      case LaserStart =>
        if !sessionArmed { return; }
        projectionActive := true;
        if !env.startOk { return; }
        DoCancelTimer();
      case LaserEnd =>
        if !sessionArmed { return; }
        projectionActive := false;
        if !(aiResponseActive || narrationActive) { DoScheduleTimeout(env.configured); }
      case Alert => StartSession(env);
      case Sound => StartSession(env);
      case Ignored =>
    }

    method Touch(env: Env)
      modifies this
      ensures View() == HandleUpdate(old(View()), Touchpad, env)
    {
      ReleaseNarrationHatsLock(env.lockOk);
      sessionArmed := true;
      aiResponseActive, narrationActive, projectionActive := false, false, false;
      lastTouch := now;
      if !env.startOk { return; }
      DoScheduleTimeout(env.configured);
    }

    method StartNarration(env: Env)
      modifies this
      ensures View() == HandleUpdate(old(View()), NarrationStart, env)
    {
      if !sessionArmed { return; }
      narrationActive := true;
      if !env.startOk { return; }
      AcquireNarrationHatsLock(env.lockOk);
      DoCancelTimer();
    }

    method EndNarration(env: Env)
      modifies this
      ensures View() == HandleUpdate(old(View()), NarrationEnd, env)
    {
      if !sessionArmed { return; }
      ReleaseNarrationHatsLock(env.lockOk);
      aiResponseActive, narrationActive := false, false;
      if projectionActive { DoCancelTimer(); } else { DoScheduleTimeout(env.configured); }
    }

    method StartSession(env: Env)
      modifies this
      ensures View() == Perform(old(View()), StartEffect(old(View()), env))
    {
      if env.allowed {
        sessionArmed := true;
        if !env.startOk { return; }
        DoScheduleTimeout(env.configured);
      }
    }

    method EventForTranscription()
      modifies this
      ensures View() == ResponseStarted(old(View()))
    {
      if !sessionArmed { return; }
      var wasHeld := aiResponseActive || narrationActive;
      aiResponseActive := true;
      if !wasHeld { DoCancelTimer(); }
    }

    method ClearInteractiveSession(configured: int)
      modifies this
      ensures View() == InteractionCleared(old(View()), configured)
    {
      if !sessionArmed { return; }
      aiResponseActive := false;
      if narrationActive {
        DoCancelTimer();
        return;
      }
      if projectionActive {
        DoCancelTimer();
        return;
      }
      DoScheduleTimeout(configured);
    }

    method TimerCallback(c: Callback, serviceOk: bool)
      modifies this
      ensures View() == RunCallback(old(View()), c, serviceOk)
    {
      if c.gen != timerGeneration { return; }
      if !sessionArmed { return; }
      if aiResponseActive || narrationActive { return; }
      ResetHookState(serviceOk);
    }
  }

  // ---------------------------------------------------------------------------
  // Runs
  // ---------------------------------------------------------------------------

  datatype Action =
    | Update(reason: Reason, env: Env)
    | Transcription
    | ClearInteractive(configured: int)
    | Stop(lockOk: bool)            // somebody else stops the manager
    | Dequeue(i: nat)               // the looper takes a due callback
    | Fire(lockOk: bool)            // ... and runs it
    | Tick(d: nat)

  function Next(s: Session, a: Action): Option<Session> {
    match a
    case Update(reason, env) => Some(HandleUpdate(s, reason, env))
    case Transcription => Some(ResponseStarted(s))
    case ClearInteractive(configured) => Some(InteractionCleared(s, configured))
    case Stop(lockOk) => Some(Reset(s, lockOk))
    case Dequeue(i) =>
      if s.flight.Some? || i >= |s.queue| || s.queue[i].due > s.now then None
      else Some(s.(flight := Some(s.queue[i]), queue := s.queue[..i] + s.queue[i + 1..]))
    case Fire(lockOk) =>
      if s.flight.None? then None else Some(RunCallback(s.(flight := None), s.flight.value, lockOk))
    case Tick(d) => Some(s.(now := s.now + d))
  }

  /** `startIfNeeded` never throws. */
  predicate StartsOk(a: Action) {
    a.Update? ==> a.env.startOk
  }

  /** Alerts and sounds are not configured to start sessions. */
  predicate NoAlertStart(a: Action) {
    a.Update? && (a.reason.Alert? || a.reason.Sound?) ==> !a.env.allowed
  }

  predicate LockServiceOk(a: Action) {
    && (a.Update? ==> a.env.lockOk)
    && (a.Stop? || a.Fire? ==> a.lockOk)
  }

  function Run(s: Session, acts: seq<Action>): Option<Session>
    decreases acts
  {
    if acts == [] then Some(s) else
    var n := Next(s, acts[0]);
    if n.None? then None else Run(n.value, acts[1..])
  }

  predicate InFlight(s: Session) {
    s.flight.Some? && s.flight.value.gen == s.gen
  }

  /** Callbacks stamped with the current generation, posted or already dequeued. */
  function LiveCallbacks(s: Session): nat {
    |s.queue| + (if InFlight(s) then 1 else 0)
  }

  predicate Held(s: Session) {
    ActiveHold(s) || s.projection
  }

  predicate Unheld(s: Session) {
    s.armed && !Held(s)
  }

  predicate CallbackOk(s: Session, c: Callback) {
    && c.gen <= s.gen && c.posted <= s.now
    && c.posted + MIN_TIMEOUT_MS <= c.due <= c.posted + MAX_TIMEOUT_MS
  }

  /** At most one live callback, well stamped. */
  predicate TimerOk(s: Session) {
    && |s.queue| <= 1
    && (|s.queue| == 1 ==> CallbackOk(s, s.queue[0]) && s.queue[0].gen == s.gen)
    && (s.flight.Some? ==> CallbackOk(s, s.flight.value) && s.flight.value.due <= s.now)
    && LiveCallbacks(s) <= 1
    && s.lastTouch <= s.now
  }

  /** The lock is held only by a narrating session, and its calls add up. */
  predicate LockOk(s: Session) {
    && (s.token ==> s.armed && s.narration)
    && s.acquired == s.released + s.lost + (if s.token then 1 else 0)
  }

  /** Holds in every run. */
  predicate Inv(s: Session) {
    TimerOk(s) && LockOk(s)
  }

  /** An armed session without a hold has its timer. */
  predicate NoLeak(s: Session) {
    Unheld(s) ==> LiveCallbacks(s) == 1
  }

  /** The timer runs exactly while the session is armed and nothing holds it. */
  predicate Exact(s: Session) {
    LiveCallbacks(s) == if Unheld(s) then 1 else 0
  }

  /** The live callback was posted no earlier than the last touch. */
  predicate AfterTouch(s: Session) {
    && (|s.queue| == 1 ==> s.queue[0].posted >= s.lastTouch)
    && (InFlight(s) ==> s.flight.value.posted >= s.lastTouch)
  }

  lemma CancelTimerEffect(s: Session)
    requires TimerOk(s)
    ensures TimerOk(CancelTimer(s)) && LiveCallbacks(CancelTimer(s)) == 0
  {
  }

  lemma ScheduleTimeoutEffect(s: Session, configured: int)
    requires TimerOk(s)
    ensures var t := ScheduleTimeout(s, configured);
            TimerOk(t) && LiveCallbacks(t) == 1 && |t.queue| == 1 && t.queue[0].posted == s.now
  {
  }

  /** `t` differs from `s` in nothing the timer depends on. */
  predicate SameTimer(s: Session, t: Session) {
    t.gen == s.gen && t.queue == s.queue && t.flight == s.flight && t.now == s.now
    && (t.lastTouch == s.lastTouch || t.lastTouch == t.now)
  }

  lemma SameTimerOk(s: Session, t: Session)
    requires TimerOk(s) && SameTimer(s, t)
    ensures TimerOk(t) && LiveCallbacks(t) == LiveCallbacks(s)
  {
  }

  /** Every hook sets flags and then leaves, cancels or restarts the timer. */
  lemma EffectKeepsTimer(s: Session, reason: Reason, env: Env)
    ensures var e := EffectOf(s, reason, env); !e.Nothing? ==> SameTimer(s, e.base)
  {
  }

  lemma PerformOk(s: Session, e: Effect)
    requires TimerOk(s) && (!e.Nothing? ==> SameTimer(s, e.base))
    ensures TimerOk(Perform(s, e))
    ensures LiveCallbacks(Perform(s, e)) ==
            match e case Cancels(_) => 0 case Schedules(_, _) => 1 case _ => LiveCallbacks(s)
  {
    if !e.Nothing? {
      SameTimerOk(s, e.base);
      CancelTimerEffect(e.base);
      ScheduleTimeoutEffect(e.base, if e.Schedules? then e.configured else 0);
    }
  }

  lemma TimerOkUpdate(s: Session, reason: Reason, env: Env)
    requires TimerOk(s)
    ensures TimerOk(HandleUpdate(s, reason, env))
  {
    EffectKeepsTimer(s, reason, env);
    PerformOk(s, EffectOf(s, reason, env));
  }

  lemma TimerOkStep(s: Session, a: Action)
    requires TimerOk(s) && Next(s, a).Some?
    ensures TimerOk(Next(s, a).value)
  {
    match a
    case Update(reason, env) => TimerOkUpdate(s, reason, env);
    case Transcription => CancelTimerEffect(s.(ai := true));
    case ClearInteractive(configured) =>
      CancelTimerEffect(s.(ai := false));
      ScheduleTimeoutEffect(s.(ai := false), configured);
    case Dequeue(i) => TimerOkDequeue(s, i);
    case Fire(lockOk) => TimerOkFire(s, lockOk);
    case Stop(lockOk) => TimerOkStop(s, lockOk);
    case Tick(d) =>
  }

  lemma TimerOkDequeue(s: Session, i: nat)
    requires TimerOk(s) && Next(s, Dequeue(i)).Some?
    ensures TimerOk(Next(s, Dequeue(i)).value)
  {
    assert s.queue[..i] + s.queue[i + 1..] == [];
  }

  lemma TimerOkStop(s: Session, lockOk: bool)
    requires TimerOk(s)
    ensures TimerOk(Reset(s, lockOk))
  {
  }

  lemma TimerOkFire(s: Session, lockOk: bool)
    requires TimerOk(s) && Next(s, Fire(lockOk)).Some?
    ensures TimerOk(Next(s, Fire(lockOk)).value)
  {
  }

  lemma LockOkUpdate(s: Session, reason: Reason, env: Env)
    requires LockOk(s)
    ensures LockOk(HandleUpdate(s, reason, env))
  {
    EffectKeepsTimer(s, reason, env);
    var e := EffectOf(s, reason, env);
    assert !e.Nothing? ==> LockOk(e.base);
  }

  lemma LockOkStep(s: Session, a: Action)
    requires LockOk(s) && Next(s, a).Some?
    ensures LockOk(Next(s, a).value)
  {
    if a.Update? {
      LockOkUpdate(s, a.reason, a.env);
    }
  }

  lemma InvStep(s: Session, a: Action)
    requires Inv(s) && Next(s, a).Some?
    ensures Inv(Next(s, a).value)
  {
    TimerOkStep(s, a);
    LockOkStep(s, a);
  }

  lemma NoLeakStep(s: Session, a: Action)
    requires Inv(s) && NoLeak(s) && StartsOk(a) && Next(s, a).Some?
    ensures NoLeak(Next(s, a).value)
  {
    match a
    case Update(reason, env) => NoLeakUpdate(s, reason, env);
    case ClearInteractive(configured) => NoLeakCleared(s, configured);
    case Dequeue(i) => assert s.queue[..i] + s.queue[i + 1..] == [];
    case _ =>
  }

  lemma NoLeakUpdate(s: Session, reason: Reason, env: Env)
    requires Inv(s) && NoLeak(s) && env.startOk
    ensures NoLeak(HandleUpdate(s, reason, env))
  {
    EffectKeepsTimer(s, reason, env);
    PerformOk(s, EffectOf(s, reason, env));
  }

  lemma NoLeakCleared(s: Session, configured: int)
    requires Inv(s) && NoLeak(s)
    ensures NoLeak(InteractionCleared(s, configured))
  {
  }

  lemma ExactUpdate(s: Session, reason: Reason, env: Env)
    requires Inv(s) && Exact(s) && env.startOk && (reason.Alert? || reason.Sound? ==> !env.allowed)
    ensures Exact(HandleUpdate(s, reason, env))
  {
  }

  lemma ExactStep(s: Session, a: Action)
    requires Inv(s) && Exact(s) && StartsOk(a) && NoAlertStart(a) && Next(s, a).Some?
    ensures Exact(Next(s, a).value)
  {
    match a
    case Update(reason, env) => ExactUpdate(s, reason, env);
    case Dequeue(i) => assert s.queue[..i] + s.queue[i + 1..] == [];
    case _ =>
  }

  lemma AfterTouchUpdate(s: Session, reason: Reason, env: Env)
    requires Inv(s) && AfterTouch(s) && env.startOk
    ensures AfterTouch(HandleUpdate(s, reason, env))
  {
    EffectKeepsTimer(s, reason, env);
    var e := EffectOf(s, reason, env);
    if e.Schedules? {
      SameTimerOk(s, e.base);
      ScheduleTimeoutEffect(e.base, e.configured);
    } else if !e.Nothing? {
      assert e.base.lastTouch == s.lastTouch;
    }
  }

  lemma AfterTouchStep(s: Session, a: Action)
    requires Inv(s) && AfterTouch(s) && StartsOk(a) && Next(s, a).Some?
    ensures AfterTouch(Next(s, a).value)
  {
    match a
    case Update(reason, env) => AfterTouchUpdate(s, reason, env);
    case Dequeue(i) => assert s.queue[..i] + s.queue[i + 1..] == [];
    case _ =>
  }

  // ---------------------------------------------------------------------------
  // Whole runs
  // ---------------------------------------------------------------------------

  lemma {:induction false} InvRun(s: Session, acts: seq<Action>)
    requires Inv(s) && Run(s, acts).Some?
    ensures Inv(Run(s, acts).value)
    decreases acts
  {
    if acts != [] {
      InvStep(s, acts[0]);
      InvRun(Next(s, acts[0]).value, acts[1..]);
    }
  }

  lemma {:induction false} StartsOkRun(s: Session, acts: seq<Action>)
    requires Inv(s) && NoLeak(s) && AfterTouch(s) && Run(s, acts).Some?
    requires forall a | a in acts :: StartsOk(a)
    ensures NoLeak(Run(s, acts).value) && AfterTouch(Run(s, acts).value)
    decreases acts
  {
    if acts != [] {
      InvStep(s, acts[0]);
      NoLeakStep(s, acts[0]);
      AfterTouchStep(s, acts[0]);
      StartsOkRun(Next(s, acts[0]).value, acts[1..]);
    }
  }

  lemma {:induction false} ExactRun(s: Session, acts: seq<Action>)
    requires Inv(s) && Exact(s) && Run(s, acts).Some?
    requires forall a | a in acts :: StartsOk(a) && NoAlertStart(a)
    ensures Exact(Run(s, acts).value)
    decreases acts
  {
    if acts != [] {
      InvStep(s, acts[0]);
      ExactStep(s, acts[0]);
      ExactRun(Next(s, acts[0]).value, acts[1..]);
    }
  }

  /** The live callback of a session, wherever it currently is. */
  function LiveCallback(s: Session): Callback
    requires Inv(s) && LiveCallbacks(s) == 1
  {
    if InFlight(s) then s.flight.value else s.queue[0]
  }

  /**
   As long as `startIfNeeded` returns, no reachable session is armed and unheld
   without exactly one callback that carries the current generation and falls
   due within the clamp.
   */
  lemma SessionNeverLeaks(acts: seq<Action>)
    requires Run(Idle, acts).Some? && forall a | a in acts :: StartsOk(a)
    ensures
      var s := Run(Idle, acts).value;
      Inv(s) && (Unheld(s) ==>
        LiveCallbacks(s) == 1 &&
        var c := LiveCallback(s);
        && c.gen == s.gen && s.lastTouch <= c.posted <= s.now
        && MIN_TIMEOUT_MS <= c.due - c.posted <= MAX_TIMEOUT_MS)
  {
    InvRun(Idle, acts);
    StartsOkRun(Idle, acts);
  }

  /**
   With alert and sound starts off as well, the timer runs exactly while the
   session is armed and nothing holds it; in particular never during projection.
   */
  lemma TimerRunsExactlyWhenUnheld(acts: seq<Action>)
    requires Run(Idle, acts).Some? && forall a | a in acts :: StartsOk(a) && NoAlertStart(a)
    ensures
      var s := Run(Idle, acts).value;
      && (LiveCallbacks(s) == 1 <==> Unheld(s))
      && (s.projection ==> LiveCallbacks(s) == 0)
  {
    ExactRun(Idle, acts);
    InvRun(Idle, acts);
  }

  /**
   Running a dequeued callback stops the session exactly when it is stamped with
   the current generation, the session is armed and no response or narration
   holds it.  Then at least a second has passed since the last touch, and with
   alert and sound starts off no hand is projected either.
   */
  lemma TimerStopsOnlyQuietSessions(acts: seq<Action>, lockOk: bool)
    requires Run(Idle, acts).Some? && forall a | a in acts :: StartsOk(a)
    requires Run(Idle, acts).value.flight.Some?
    ensures
      var s := Run(Idle, acts).value;
      var stopped := s.armed && !Next(s, Fire(lockOk)).value.armed;
      && (stopped <==> InFlight(s) && s.armed && !ActiveHold(s))
      && (stopped ==> s.now - s.lastTouch >= MIN_TIMEOUT_MS)
      && (stopped && (forall a | a in acts :: NoAlertStart(a)) ==> !s.projection)
  {
    InvRun(Idle, acts);
    StartsOkRun(Idle, acts);
    if forall a | a in acts :: NoAlertStart(a) {
      ExactRun(Idle, acts);
    }
  }

  /**
   In every run, successful acquires minus successful releases is the token plus
   the releases the service never saw, and the token implies an armed, narrating
   session.
   */
  lemma LockCallsBalance(acts: seq<Action>)
    requires Run(Idle, acts).Some?
    ensures
      var s := Run(Idle, acts).value;
      && s.acquired - s.released == s.lost + (if s.token then 1 else 0)
      && (s.token ==> s.armed && s.narration)
      && ((forall a | a in acts :: LockServiceOk(a)) ==> s.lost == 0)
  {
    InvRun(Idle, acts);
    if forall a | a in acts :: LockServiceOk(a) {
      NoReleaseLost(Idle, acts);
    }
  }

  lemma NoReleaseLostStep(s: Session, a: Action)
    requires Next(s, a).Some? && LockServiceOk(a)
    ensures Next(s, a).value.lost == s.lost
  {
    if a.Update? {
      EffectKeepsTimer(s, a.reason, a.env);
      var e := EffectOf(s, a.reason, a.env);
      assert ReleaseLock(s, true).lost == s.lost;
      assert !e.Nothing? ==> e.base.lost == s.lost;
    }
  }

  lemma {:induction false} NoReleaseLost(s: Session, acts: seq<Action>)
    requires Run(s, acts).Some? && forall a | a in acts :: LockServiceOk(a)
    ensures Run(s, acts).value.lost == s.lost
    decreases acts
  {
    if acts != [] {
      NoReleaseLostStep(s, acts[0]);
      NoReleaseLost(Next(s, acts[0]).value, acts[1..]);
    }
  }

  // ---------------------------------------------------------------------------
  // The session ends by itself
  // ---------------------------------------------------------------------------

  /** Steps of the message queue alone. */
  ghost predicate LooperOnly(acts: seq<Action>) {
    forall a | a in acts :: a.Tick? || a.Dequeue? || a.Fire?
  }

  /** Everything that is due has been run. */
  predicate CaughtUp(s: Session) {
    s.flight.None? && forall i | 0 <= i < |s.queue| :: s.queue[i].due > s.now
  }

  /** The session still waits for callback `c`, or has been stopped. */
  ghost predicate AwaitsOrStopped(s: Session, c: Callback) {
    s.armed ==> Inv(s) && !ActiveHold(s) && LiveCallbacks(s) == 1 && LiveCallback(s) == c
  }

  lemma LooperStep(s: Session, a: Action, c: Callback)
    requires AwaitsOrStopped(s, c) && (a.Tick? || a.Dequeue? || a.Fire?) && Next(s, a).Some?
    ensures AwaitsOrStopped(Next(s, a).value, c) && s.now <= Next(s, a).value.now
  {
    if s.armed {
      InvStep(s, a);
      if a.Dequeue? {
        assert s.queue[..a.i] + s.queue[a.i + 1..] == [];
      }
    }
  }

  lemma {:induction false} LooperRun(s: Session, acts: seq<Action>, c: Callback)
    requires AwaitsOrStopped(s, c) && LooperOnly(acts) && Run(s, acts).Some?
    ensures AwaitsOrStopped(Run(s, acts).value, c)
    decreases acts
  {
    if acts != [] {
      LooperStep(s, acts[0], c);
      LooperRun(Next(s, acts[0]).value, acts[1..], c);
    }
  }

  /**
   From an armed session that no response or narration holds, every schedule of
   the message queue has either stopped the session or not yet run its live
   callback; so once everything due has been run and the callback's time has
   come, which is within the maximum timeout, the session has stopped.
   */
  lemma SessionEndsByItself(s: Session, acts: seq<Action>)
    requires Inv(s) && s.armed && !ActiveHold(s) && LiveCallbacks(s) == 1
    requires LooperOnly(acts) && Run(s, acts).Some?
    ensures
      var c, e := LiveCallback(s), Run(s, acts).value;
      && c.due <= s.now + MAX_TIMEOUT_MS
      && (e.armed ==> LiveCallbacks(e) == 1 && Inv(e) && LiveCallback(e) == c)
      && (CaughtUp(e) && e.now >= c.due ==> !e.armed)
  {
    LooperRun(s, acts, LiveCallback(s));
  }

  /** What the looper still has to do for the live callback to run. */
  function Ending(s: Session): seq<Action>
    requires Inv(s) && LiveCallbacks(s) == 1
  {
    if InFlight(s) then [Fire(true)]
    else if s.flight.Some? then [Fire(true), Tick(MAX_TIMEOUT_MS), Dequeue(0), Fire(true)]
    else [Tick(MAX_TIMEOUT_MS), Dequeue(0), Fire(true)]
  }

  lemma RunThree(s: Session, a: Action, b: Action, c: Action, s1: Session, s2: Session, s3: Session)
    requires Next(s, a) == Some(s1) && Next(s1, b) == Some(s2) && Next(s2, c) == Some(s3)
    ensures Run(s, [a, b, c]) == Some(s3)
  {
    assert [a, b, c][1..] == [b, c] && [b, c][1..] == [c] && [c][1..] == [];
    assert Run(s3, []) == Some(s3);
    assert Run(s2, [c]) == Some(s3);
    assert Run(s1, [b, c]) == Some(s3);
  }

  lemma TailEnds(s: Session)
    requires Inv(s) && s.armed && !ActiveHold(s) && LiveCallbacks(s) == 1 && s.flight.None?
    ensures Run(s, [Tick(MAX_TIMEOUT_MS), Dequeue(0), Fire(true)]).Some?
    ensures !Run(s, [Tick(MAX_TIMEOUT_MS), Dequeue(0), Fire(true)]).value.armed
  {
    var s1 := Next(s, Tick(MAX_TIMEOUT_MS)).value;
    assert |s1.queue| == 1 && s1.queue[0].due <= s1.now;
    var s2 := Next(s1, Dequeue(0)).value;
    assert InFlight(s2) && !ActiveHold(s2);
    var s3 := Next(s2, Fire(true)).value;
    RunThree(s, Tick(MAX_TIMEOUT_MS), Dequeue(0), Fire(true), s1, s2, s3);
  }

  /** And there is always a schedule that does, whatever stale callback had been dequeued. */
  lemma EndingStops(s: Session)
    requires Inv(s) && s.armed && !ActiveHold(s) && LiveCallbacks(s) == 1
    ensures Run(s, Ending(s)).Some? && !Run(s, Ending(s)).value.armed
  {
    if InFlight(s) {
      var e := Next(s, Fire(true)).value;
      assert Run(e, [Fire(true)][1..]) == Some(e);
    } else if s.flight.None? {
      TailEnds(s);
    } else {
      var m := Next(s, Fire(true)).value;
      assert m == s.(flight := None);
      TailEnds(m);
      assert Ending(s)[1..] == [Tick(MAX_TIMEOUT_MS), Dequeue(0), Fire(true)];
    }
  }

  ghost predicate LooperCanStop(s: Session) {
    exists acts :: LooperOnly(acts) && Run(s, acts).Some? && !Run(s, acts).value.armed
  }

  lemma {:induction false} LooperLeavesAlone(s: Session, acts: seq<Action>)
    requires Inv(s) && s.armed && (LiveCallbacks(s) == 0 || ActiveHold(s))
    requires LooperOnly(acts) && Run(s, acts).Some?
    ensures Run(s, acts).value.armed
    decreases acts
  {
    if acts != [] {
      var a := acts[0];
      InvStep(s, a);
      if a.Dequeue? {
        assert s.queue[..a.i] + s.queue[a.i + 1..] == [];
      }
      LooperLeavesAlone(Next(s, a).value, acts[1..]);
    }
  }

  /** The message queue can stop an armed session exactly when a live callback is out and neither a
      response nor narration holds it; projection alone does not protect it. */
  lemma LooperCanStopIff(s: Session)
    requires Inv(s) && s.armed
    ensures LooperCanStop(s) <==> LiveCallbacks(s) == 1 && !ActiveHold(s)
  {
    if LiveCallbacks(s) == 1 && !ActiveHold(s) {
      EndingStops(s);
      assert LooperOnly(Ending(s));
    } else if acts :| LooperOnly(acts) && Run(s, acts).Some? && !Run(s, acts).value.armed {
      LooperLeavesAlone(s, acts);
    }
  }

  // ---------------------------------------------------------------------------
  // Where the guarantees stop
  // ---------------------------------------------------------------------------

  /**
   When `startIfNeeded` throws nothing happens to the timer.  So a touch, which
   drops every hold, leaks the session unless a timer was running; a projection or
   narration that begins leaves a timer running if there was one; and an allowed
   alert or sound leaks the session unless it is held or a timer was running.
   */
  lemma FailedStartIff(s: Session, env: Env)
    requires Inv(s) && !env.startOk
    ensures NoLeak(HandleUpdate(s, Touchpad, env)) <==> LiveCallbacks(s) == 1
    ensures Exact(HandleUpdate(s, Touchpad, env)) <==> LiveCallbacks(s) == 1
    ensures s.armed ==> (Exact(HandleUpdate(s, LaserStart, env)) <==> LiveCallbacks(s) == 0)
    ensures s.armed ==> (Exact(HandleUpdate(s, NarrationStart, env)) <==> LiveCallbacks(s) == 0)
    ensures env.allowed ==> (NoLeak(HandleUpdate(s, Alert, env)) <==> Held(s) || LiveCallbacks(s) == 1)
    ensures env.allowed ==> (NoLeak(HandleUpdate(s, Sound, env)) <==> Held(s) || LiveCallbacks(s) == 1)
    ensures env.allowed ==> (Exact(HandleUpdate(s, Alert, env)) <==> Held(s) == (LiveCallbacks(s) == 0))
    ensures env.allowed ==> (Exact(HandleUpdate(s, Sound, env)) <==> Held(s) == (LiveCallbacks(s) == 0))
  {
    forall reason: Reason
      ensures LiveCallbacks(HandleUpdate(s, reason, env)) ==
              match EffectOf(s, reason, env) case Cancels(_) => 0 case Schedules(_, _) => 1 case _ => LiveCallbacks(s)
    {
      EffectKeepsTimer(s, reason, env);
      PerformOk(s, EffectOf(s, reason, env));
    }
  }

  /** A touch whose `startIfNeeded` throws leaves an idle device armed with no timer at all. */
  lemma FailedTouchLeaks(env: Env)
    requires !env.startOk
    ensures var s := HandleUpdate(Idle, Touchpad, env); Unheld(s) && LiveCallbacks(s) == 0
  {
  }

  /** An allowed alert or sound whose start succeeds keeps the timer exact if and only if nothing holds
      the session: it starts a timer even under a hold. */
  lemma AllowedStartExactIff(s: Session, reason: Reason, env: Env)
    requires Inv(s) && env.startOk && env.allowed && (reason.Alert? || reason.Sound?)
    ensures Exact(HandleUpdate(s, reason, env)) <==> !Held(s)
  {
    ScheduleTimeoutEffect(s.(armed := true), env.configured);
  }

  /**
   The message queue cannot stop a projecting session whose timer is exact; after
   an allowed alert or sound it can stop a projecting session exactly when neither
   a response nor narration holds it.
   */
  lemma AlertCanEndProjection(s: Session, reason: Reason, env: Env)
    requires Inv(s) && s.armed && s.projection
    requires env.startOk && env.allowed && (reason.Alert? || reason.Sound?)
    ensures Exact(s) ==> !LooperCanStop(s)
    ensures var t := HandleUpdate(s, reason, env);
            t.projection && (LooperCanStop(t) <==> !ActiveHold(s))
  {
    LooperCanStopIff(s);
    var t := HandleUpdate(s, reason, env);
    InvStep(s, Update(reason, env));
    ScheduleTimeoutEffect(s.(armed := true), env.configured);
    LooperCanStopIff(t);
  }

  /** Such a session is reachable. */
  lemma ProjectingSessionIsReachable(env: Env)
    requires env.startOk
    ensures var s := HandleUpdate(HandleUpdate(Idle, Touchpad, env), LaserStart, env);
            Inv(s) && Exact(s) && s.armed && s.projection && !ActiveHold(s)
  {
  }
}
