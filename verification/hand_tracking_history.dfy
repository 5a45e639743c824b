/**
 The session read off the list of things that happened to it: every flag, the
 lock and the timer are what the last action that concerned them left behind.
 */
module HandTrackingHistory {
  import opened Options
  import opened HandTracking

  /** What can be asked about a session. */
  datatype Fact = Armed | Response | Narration | Projection | Lock | Timer

  predicate Holds(f: Fact, s: Session) {
    match f
    case Armed => s.armed
    case Response => s.ai
    case Narration => s.narration
    case Projection => s.projection
    case Lock => s.token
    case Timer => LiveCallbacks(s) == 1
  }

  predicate Starts(a: Action) {
    a.Update? && (a.reason.Touchpad? || ((a.reason.Alert? || a.reason.Sound?) && a.env.allowed))
  }

  predicate Updates(a: Action, reason: Reason) {
    a.Update? && a.reason == reason
  }

  /** Somebody stops the manager, or a current callback runs while no response or narration is going on. */
  predicate Stops(s: Session, a: Action) {
    a.Stop? || (a.Fire? && InFlight(s) && s.armed && !s.ai && !s.narration)
  }

  /** The action posts a new callback. */
  predicate Posts(s: Session, a: Action) {
    match a
    case Update(Touchpad, env) => env.startOk
    case Update(Alert, env) => env.allowed && env.startOk
    case Update(Sound, env) => env.allowed && env.startOk
    case Update(NarrationEnd, _) => s.armed && !s.projection
    case Update(LaserEnd, _) => s.armed && !s.ai && !s.narration
    case ClearInteractive(_) => s.armed && !s.narration && !s.projection
    case _ => false
  }

  /** The action takes the callback away, or uses it up. */
  predicate Removes(s: Session, a: Action) {
    match a
    case Update(NarrationStart, env) => s.armed && env.startOk
    case Update(LaserStart, env) => s.armed && env.startOk
    case Update(NarrationEnd, _) => s.armed && s.projection
    case Transcription => s.armed && !s.ai && !s.narration
    case ClearInteractive(_) => s.armed && (s.narration || s.projection)
    case Stop(_) => true
    case Fire(_) => InFlight(s)
    case _ => false
  }

  predicate Begins(f: Fact, s: Session, a: Action) {
    match f
    case Armed => Starts(a)
    case Response => a.Transcription? && s.armed
    case Narration => Updates(a, NarrationStart) && s.armed
    case Projection => Updates(a, LaserStart) && s.armed
    case Lock => Updates(a, NarrationStart) && s.armed && a.env.startOk && a.env.lockOk
    case Timer => Posts(s, a)
  }

  predicate Ends(f: Fact, s: Session, a: Action) {
    match f
    case Armed => Stops(s, a)
    case Response => Updates(a, Touchpad) || Updates(a, NarrationEnd) || a.ClearInteractive? || Stops(s, a)
    case Narration => Updates(a, Touchpad) || Updates(a, NarrationEnd) || Stops(s, a)
    case Projection => Updates(a, Touchpad) || Updates(a, LaserEnd) || Stops(s, a)
    case Lock => Updates(a, Touchpad) || Updates(a, NarrationEnd) || Stops(s, a)
    case Timer => Removes(s, a)
  }

  /** Nothing holds a session that is not armed. */
  predicate HoldsAreArmed(s: Session) {
    s.ai || s.narration || s.projection ==> s.armed
  }

  /** The flags after an update, by reason. */
  lemma FlagsAfterUpdate(s: Session, reason: Reason, env: Env)
    requires Inv(s) && HoldsAreArmed(s)
    ensures
      var a, t := Update(reason, env), HandleUpdate(s, reason, env);
      && (t.armed <==> Starts(a) || s.armed)
      && (t.ai <==> s.ai && !reason.Touchpad? && !reason.NarrationEnd?)
      && (t.narration <==>
            if reason.NarrationStart? then s.armed
            else s.narration && !reason.Touchpad? && !reason.NarrationEnd?)
      && (t.projection <==>
            if reason.LaserStart? then s.armed
            else s.projection && !reason.Touchpad? && !reason.LaserEnd?)
      && (t.token <==>
            if reason.NarrationStart? then s.token || (s.armed && env.startOk && env.lockOk)
            else s.token && !reason.Touchpad? && !reason.NarrationEnd?)
  {
  }

  lemma FlagStep(f: Fact, s: Session, a: Action)
    requires Inv(s) && HoldsAreArmed(s) && Next(s, a).Some? && !f.Timer?
    ensures HoldsAreArmed(Next(s, a).value)
    ensures Holds(f, Next(s, a).value) <==> Begins(f, s, a) || (Holds(f, s) && !Ends(f, s, a))
  {
    if a.Update? {
      FlagsAfterUpdate(s, a.reason, a.env);
    } else {
      FlagWithoutUpdate(f, s, a);
    }
  }

  lemma FlagWithoutUpdate(f: Fact, s: Session, a: Action)
    requires Inv(s) && HoldsAreArmed(s) && Next(s, a).Some? && !f.Timer? && !a.Update?
    ensures HoldsAreArmed(Next(s, a).value)
    ensures Holds(f, Next(s, a).value) <==> Begins(f, s, a) || (Holds(f, s) && !Ends(f, s, a))
  {
  }

  lemma ScheduledCallback(s: Session, ms: int)
    ensures
      var t := ScheduleTimeout(s, ms);
      && |t.queue| == 1 && t.gen > s.gen && t.now == s.now && t.flight == s.flight
      && t.queue[0] == Callback(t.gen, s.now, s.now + if ms < 1_000 then 1_000 else if ms > 60_000 then 60_000 else ms)
  {
  }

  /** The callback a posting action leaves: the only one, posted now, due after the configured time
      bounded to between one second and one minute. */
  lemma PostedCallback(s: Session, a: Action)
    requires Inv(s) && HoldsAreArmed(s) && Next(s, a).Some? && Posts(s, a)
    ensures
      var t, ms := Next(s, a).value, if a.Update? then a.env.configured else a.configured;
      && |t.queue| == 1 && t.gen > s.gen && t.now == s.now && t.flight == s.flight
      && t.queue[0] == Callback(t.gen, s.now, s.now + if ms < 1_000 then 1_000 else if ms > 60_000 then 60_000 else ms)
  {
    if a.Update? {
      EffectKeepsTimer(s, a.reason, a.env);
      var e := EffectOf(s, a.reason, a.env);
      assert e.Schedules? && e.configured == a.env.configured;
      ScheduledCallback(e.base, e.configured);
    } else {
      ScheduledCallback(s.(ai := false), a.configured);
    }
  }

  lemma TimerUpdateStep(s: Session, reason: Reason, env: Env)
    requires Inv(s)
    ensures
      var a := Update(reason, env);
      LiveCallbacks(HandleUpdate(s, reason, env)) ==
      if Posts(s, a) then 1 else if Removes(s, a) then 0 else LiveCallbacks(s)
  {
    EffectKeepsTimer(s, reason, env);
    PerformOk(s, EffectOf(s, reason, env));
    var e := EffectOf(s, reason, env);
    assert Posts(s, Update(reason, env)) <==> e.Schedules?;
    assert Removes(s, Update(reason, env)) <==> e.Cancels?;
  }

  lemma TimerStep(s: Session, a: Action)
    requires Inv(s) && Next(s, a).Some?
    ensures LiveCallbacks(Next(s, a).value) == if Posts(s, a) then 1 else if Removes(s, a) then 0 else LiveCallbacks(s)
  {
    match a
    case Update(reason, env) => TimerUpdateStep(s, reason, env);
    case Dequeue(i) => assert s.queue[..i] + s.queue[i + 1..] == [];
    case _ =>
  }

  lemma FactStep(f: Fact, s: Session, a: Action)
    requires Inv(s) && HoldsAreArmed(s) && Next(s, a).Some?
    ensures HoldsAreArmed(Next(s, a).value)
    ensures Holds(f, Next(s, a).value) <==> Begins(f, s, a) || (Holds(f, s) && !Ends(f, s, a))
  {
    if f.Timer? {
      FlagStep(Armed, s, a);
      TimerStep(s, a);
    } else {
      FlagStep(f, s, a);
    }
  }

  /** The end of a narration on an armed session: no response and no narration any more, no lock, and one
      callback unless a hand is projected. */
  lemma NarrationEndDoes(s: Session, env: Env)
    requires Inv(s) && HoldsAreArmed(s) && s.armed
    ensures
      var t := HandleUpdate(s, NarrationEnd, env);
      && t.armed && !t.ai && !t.narration && !t.token && t.projection == s.projection
      && LiveCallbacks(t) == if s.projection then 0 else 1
  {
    FlagsAfterUpdate(s, NarrationEnd, env);
    TimerUpdateStep(s, NarrationEnd, env);
  }

  /** The end of a projection on an armed session: one callback unless a response or narration goes on. */
  lemma LaserEndDoes(s: Session, env: Env)
    requires Inv(s) && HoldsAreArmed(s) && s.armed
    ensures
      var t := HandleUpdate(s, LaserEnd, env);
      && t.armed && !t.projection && t.ai == s.ai && t.narration == s.narration && t.token == s.token
      && LiveCallbacks(t) == if s.ai || s.narration then LiveCallbacks(s) else 1
  {
    FlagsAfterUpdate(s, LaserEnd, env);
    TimerUpdateStep(s, LaserEnd, env);
  }

  /** A response that begins on an armed session takes the callback away unless the session was held. */
  lemma ResponseStartedDoes(s: Session)
    requires Inv(s) && HoldsAreArmed(s) && s.armed
    ensures
      var t := ResponseStarted(s);
      && t.armed && t.ai && t.narration == s.narration && t.projection == s.projection && t.token == s.token
      && LiveCallbacks(t) == if s.ai || s.narration then LiveCallbacks(s) else 0
  {
    TimerStep(s, Transcription);
  }

  /** A response that ends on an armed session leaves one callback unless narration or projection goes on. */
  lemma InteractionClearedDoes(s: Session, configured: int)
    requires Inv(s) && HoldsAreArmed(s) && s.armed
    ensures
      var t := InteractionCleared(s, configured);
      && t.armed && !t.ai && t.narration == s.narration && t.projection == s.projection && t.token == s.token
      && LiveCallbacks(t) == if s.narration || s.projection then 0 else 1
  {
    TimerStep(s, ClearInteractive(configured));
  }

  // ---------------------------------------------------------------------------
  // Whole runs
  // ---------------------------------------------------------------------------

  lemma {:induction false} RunSnoc(s: Session, acts: seq<Action>, a: Action)
    ensures Run(s, acts + [a]) == (var m := Run(s, acts); if m.None? then None else Next(m.value, a))
    decreases acts
  {
    if acts == [] {
      assert acts + [a] == [a] && [a][1..] == [];
    } else {
      assert (acts + [a])[0] == acts[0] && (acts + [a])[1..] == acts[1..] + [a];
      var n := Next(s, acts[0]);
      if n.Some? {
        RunSnoc(n.value, acts[1..], a);
      }
    }
  }

  /** The `i`-th action began the fact. */
  predicate BeganAt(f: Fact, acts: seq<Action>, i: nat)
    requires i < |acts|
  {
    var s := Run(Idle, acts[..i]); s.Some? && Begins(f, s.value, acts[i])
  }

  predicate EndedAt(f: Fact, acts: seq<Action>, i: nat)
    requires i < |acts|
  {
    var s := Run(Idle, acts[..i]); s.Some? && Ends(f, s.value, acts[i])
  }

  /** Some action began the fact and no later one ended it. */
  predicate BegunAndNotEnded(f: Fact, acts: seq<Action>) {
    exists i | 0 <= i < |acts| :: BeganAt(f, acts, i) && forall j | i < j < |acts| :: !EndedAt(f, acts, j)
  }

  lemma BegunSnoc(f: Fact, acts: seq<Action>, a: Action)
    requires Run(Idle, acts).Some?
    ensures
      var s := Run(Idle, acts).value;
      BegunAndNotEnded(f, acts + [a]) <==> Begins(f, s, a) || (BegunAndNotEnded(f, acts) && !Ends(f, s, a))
  {
    var all := acts + [a];
    assert forall i | 0 <= i <= |acts| :: all[..i] == acts[..i];
    assert acts[..|acts|] == acts;
    assert forall i | 0 <= i < |acts| :: BeganAt(f, all, i) == BeganAt(f, acts, i);
    assert forall i | 0 <= i < |acts| :: EndedAt(f, all, i) == EndedAt(f, acts, i);
    assert BeganAt(f, all, |acts|) == Begins(f, Run(Idle, acts).value, a);
    assert EndedAt(f, all, |acts|) == Ends(f, Run(Idle, acts).value, a);
  }

  /**
   In every run the session is armed, answering, narrating, projecting, locked or
   waiting for its callback exactly when some action began that and no later
   action ended it.
   */
  lemma {:induction false} FactsFromHistory(f: Fact, acts: seq<Action>)
    requires Run(Idle, acts).Some?
    ensures HoldsAreArmed(Run(Idle, acts).value)
    ensures Holds(f, Run(Idle, acts).value) <==> BegunAndNotEnded(f, acts)
    decreases |acts|
  {
    if acts != [] {
      var before, a := acts[..|acts| - 1], acts[|acts| - 1];
      assert acts == before + [a];
      RunSnoc(Idle, before, a);
      FactsFromHistory(f, before);
      InvRun(Idle, before);
      FactStep(f, Run(Idle, before).value, a);
      BegunSnoc(f, before, a);
    }
  }
}
