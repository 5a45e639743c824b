/**
 The settings update as the steps between its awaits.

 The future of an update is dropped when its client disconnects.  It holds the
 configuration lock from the first edit on, and dropping it releases the lock
 and undoes nothing.  `Serve` is whatever requests do to the response table
 meanwhile.
 */
module SettingsSteps {
  import opened Options
  import opened DedupTable
  import opened Settings

  /** Where the lock holder is suspended. */
  datatype Stage =
    | Opening      // the memory store is being opened
    | Building     // the agent is being built
    | Replacing    // waiting to replace the live handlers
    | Clearing     // waiting to clear the response table

  datatype Task = Task(q: Request, w: World, original: Config, stage: Stage)

  datatype Shared = Shared(config: Config, handlers: Config, table: Table, holder: Option<Task>)

  datatype Action =
    | Begin(q: Request, w: World)   // checks, takes the lock and edits the configuration in place
    | Advance                       // the holder's next step
    | Drop                          // the holder's future is dropped
    | Serve(table: Table)

  /** Nothing is rejected before the first await after the edit. */
  predicate Passes(q: Request, w: World) {
    && !q.storage
    && (q.server.Some? ==>
          && !q.server.value.readOnly
          && PromptOk(q.server.value.systemPrompt, w) && PromptOk(q.server.value.statusPrompt, w))
    && MemoryPathOk(q)
  }

  function BeginStep(s: Shared, q: Request, w: World): Shared {
    if !Passes(q, w) then s
    else
      var next := Applied(q, s.config, w);
      var stage := if next.llm.memory.enabled then Opening else Building;
      s.(config := next, holder := Some(Task(q, w, s.config, stage)))
  }

  function RolledBack(s: Shared, t: Task): Shared {
    s.(config := t.original, holder := None)
  }

  function AdvanceStep(s: Shared, t: Task): Shared {
    match t.stage
    case Opening =>
      if t.w.opensMemory(s.config.llm.memory) then s.(holder := Some(t.(stage := Building))) else RolledBack(s, t)
    case Building =>
      if t.w.buildsAgent(s.config) then s.(holder := Some(t.(stage := Replacing))) else RolledBack(s, t)
    case Replacing =>
      s.(handlers := s.config, holder := Some(t.(stage := Clearing)))
    case Clearing =>
      s.(table := Clear(s.table), holder := None)
  }

  function Next(s: Shared, a: Action): Option<Shared> {
    match a
    case Begin(q, w) => if s.holder.Some? then None else Some(BeginStep(s, q, w))
    case Advance => if s.holder.None? then None else Some(AdvanceStep(s, s.holder.value))
    case Drop => if s.holder.None? then None else Some(s.(holder := None))
    case Serve(table) => Some(s.(table := table))
  }

  function Run(s: Shared, acts: seq<Action>): Option<Shared>
    decreases acts
  {
    if acts == [] then Some(s)
    else if Next(s, acts[0]).None? then None
    else Run(Next(s, acts[0]).value, acts[1..])
  }

  // ---- What every run keeps ----

  predicate Agree(s: Shared) {
    s.config == s.handlers
  }

  /** The holder has written what its request asks for, and got only as far as that allows. */
  ghost predicate Inv(s: Shared) {
    s.holder.Some? ==>
      var t := s.holder.value;
      && Passes(t.q, t.w) && s.config == Applied(t.q, t.original, t.w)
      && (t.stage.Opening? ==> s.config.llm.memory.enabled)
      && (!t.stage.Opening? && s.config.llm.memory.enabled ==> t.w.opensMemory(s.config.llm.memory))
      && (t.stage.Replacing? || t.stage.Clearing? ==> t.w.buildsAgent(s.config))
      && (t.stage.Clearing? ==> Agree(s))
  }

  lemma InvStep(s: Shared, a: Action)
    requires Inv(s) && Next(s, a).Some?
    ensures Inv(Next(s, a).value)
  {
  }

  /** The handlers are replaced only by an acceptable request. */
  lemma OnlyAcceptableSwaps(s: Shared)
    requires Inv(s) && s.holder.Some? && (s.holder.value.stage.Replacing? || s.holder.value.stage.Clearing?)
    ensures Acceptable(s.holder.value.q, s.holder.value.original, s.holder.value.w)
  {
  }

  lemma RunOn(s: Shared, a: Action, rest: seq<Action>)
    requires Next(s, a).Some?
    ensures Run(s, [a] + rest) == Run(Next(s, a).value, rest)
  {
    assert ([a] + rest)[1..] == rest;
  }

  /** The holder's remaining steps, if it is not dropped. */
  function Rest(t: Task, config: Config): seq<Action>
    decreases match t.stage case Opening => 3 case Building => 2 case Replacing => 1 case Clearing => 0
  {
    match t.stage
    case Opening =>
      [Advance] + (if t.w.opensMemory(config.llm.memory) then Rest(t.(stage := Building), config) else [])
    case Building =>
      [Advance] + (if t.w.buildsAgent(config) then Rest(t.(stage := Replacing), config) else [])
    case Replacing => [Advance] + Rest(t.(stage := Clearing), config)
    case Clearing => [Advance]
  }

  lemma {:induction false} RestCompletes(s: Shared)
    requires Inv(s) && s.holder.Some?
    ensures
      var t := s.holder.value;
      var end := Run(s, Rest(t, s.config));
      && end.Some?
      && (if Acceptable(t.q, t.original, t.w)
          then end.value == Shared(s.config, s.config, Clear(s.table), None)
          else end.value == s.(config := t.original, holder := None))
    decreases |Rest(s.holder.value, s.config)|
  {
    var t := s.holder.value;
    var m := Next(s, Advance).value;
    InvStep(s, Advance);
    if m.holder.Some? {
      RunOn(s, Advance, Rest(m.holder.value, m.config));
      RestCompletes(m);
    } else {
      RunOn(s, Advance, []);
      assert [Advance] + [] == [Advance];
    }
  }

  /** An update that is not dropped is the atomic update: it commits, swaps and clears, or leaves no trace. */
  lemma UndroppedUpdate(s: Shared, q: Request, w: World)
    requires s.holder.None?
    ensures
      var begun := Next(s, Begin(q, w)).value;
      var rest := if begun.holder.Some? then Rest(begun.holder.value, begun.config) else [];
      var end := Run(s, [Begin(q, w)] + rest);
      && end.Some? && end.value.holder.None?
      && State(end.value.config, end.value.handlers) == UpdateState(State(s.config, s.handlers), q, w)
      && end.value.table == (if Acceptable(q, s.config, w) then Clear(s.table) else s.table)
  {
    var begun := Next(s, Begin(q, w)).value;
    InvStep(s, Begin(q, w));
    if begun.holder.Some? {
      RunOn(s, Begin(q, w), Rest(begun.holder.value, begun.config));
      RestCompletes(begun);
    } else {
      RunOn(s, Begin(q, w), []);
    }
  }

  // ---- Dropped updates ----

  /** A drop now would leave the edited configuration behind handlers that were not built from it. */
  predicate Tears(s: Shared) {
    s.holder.Some? && !s.holder.value.stage.Clearing?
    && Applied(s.holder.value.q, s.holder.value.original, s.holder.value.w) != s.holder.value.original
  }

  /** Outside an update the two agree; during one the handlers are still those of the original. */
  ghost predicate Whole(s: Shared) {
    && Inv(s)
    && (s.holder.None? ==> Agree(s))
    && (s.holder.Some? && !s.holder.value.stage.Clearing? ==> s.holder.value.original == s.handlers)
  }

  lemma WholeStep(s: Shared, a: Action)
    requires Whole(s) && Next(s, a).Some?
    ensures Whole(Next(s, a).value) <==> !(a.Drop? && Tears(s))
  {
    InvStep(s, a);
  }

  /**
   Dropping an update leaves configuration and handlers in agreement exactly
   when the handlers were already replaced or the request changes nothing.
   */
  lemma DropAgreesIff(s: Shared)
    requires Whole(s) && s.holder.Some?
    ensures
      var t := s.holder.value;
      Agree(Next(s, Drop).value) <==> t.stage.Clearing? || Applied(t.q, t.original, t.w) == t.original
  {
  }

  predicate TornBy(s: Shared, acts: seq<Action>, i: nat)
    requires i < |acts|
  {
    acts[i].Drop? && Run(s, acts[..i]).Some? && Tears(Run(s, acts[..i]).value)
  }

  /** In every run without such a drop, at any number of updates, the live handlers are those of the
      committed configuration whenever nobody holds the lock. */
  lemma {:induction false} AgreeUnlessTorn(s: Shared, acts: seq<Action>)
    requires Whole(s) && Run(s, acts).Some?
    requires forall i: nat | i < |acts| :: !TornBy(s, acts, i)
    ensures Whole(Run(s, acts).value)
    decreases acts
  {
    if acts != [] {
      assert acts[..0] == [];
      assert !TornBy(s, acts, 0);
      WholeStep(s, acts[0]);
      var m := Next(s, acts[0]).value;
      forall i: nat | i < |acts[1..]| ensures !TornBy(m, acts[1..], i) {
        assert !TornBy(s, acts, i + 1);
        assert acts[..i + 1][1..] == acts[1..][..i];
      }
      AgreeUnlessTorn(m, acts[1..]);
    }
  }

  /** Only the holder's own steps and what requests do to the table meanwhile. */
  ghost predicate Undropped(acts: seq<Action>) {
    forall a | a in acts :: a.Advance? || a.Serve?
  }

  /** While an update has not ended, its lock holder carries its request and the configuration it found. */
  lemma {:induction false} HolderRun(s: Shared, acts: seq<Action>, q: Request, w: World, original: Config)
    requires Whole(s) && Undropped(acts) && Run(s, acts).Some?
    requires s.holder.Some? ==>
               s.holder.value.q == q && s.holder.value.w == w && s.holder.value.original == original
    ensures var e := Run(s, acts).value;
            Whole(e) && (e.holder.Some? ==>
              e.holder.value.q == q && e.holder.value.w == w && e.holder.value.original == original)
    decreases acts
  {
    if acts != [] {
      WholeStep(s, acts[0]);
      HolderRun(Next(s, acts[0]).value, acts[1..], q, w, original);
    }
  }

  /**
   The whole life of a dropped update: begun where configuration and handlers
   agree and dropped after any of its steps, it leaves them in agreement exactly
   when the swap was already done or the request asks for what was there before.
   */
  lemma DroppedUpdateAgreesIff(s: Shared, q: Request, w: World, acts: seq<Action>)
    requires s.holder.None? && Agree(s) && Undropped(acts)
    requires Run(Next(s, Begin(q, w)).value, acts).Some?
    requires Run(Next(s, Begin(q, w)).value, acts).value.holder.Some?
    ensures
      var m := Run(Next(s, Begin(q, w)).value, acts).value;
      var dropped := Next(m, Drop).value;
      && (Agree(dropped) <==> m.holder.value.stage.Clearing? || Applied(q, s.config, w) == s.config)
      && dropped.config == Applied(q, s.config, w)
      && (!m.holder.value.stage.Clearing? ==> dropped.handlers == s.handlers)
  {
    var begun := Next(s, Begin(q, w)).value;
    WholeStep(s, Begin(q, w));
    HolderRun(begun, acts, q, w, s.config);
    DropAgreesIff(Run(begun, acts).value);
  }

  /**
   After a drop the disagreement lasts until an update is accepted: an undropped
   update ends in agreement exactly when it is acceptable or there was agreement.
   */
  lemma HealedIff(s: Shared, q: Request, w: World)
    requires s.holder.None?
    ensures
      var begun := Next(s, Begin(q, w)).value;
      var rest := if begun.holder.Some? then Rest(begun.holder.value, begun.config) else [];
      var end := Run(s, [Begin(q, w)] + rest);
      end.Some? && (Agree(end.value) <==> Acceptable(q, s.config, w) || Agree(s))
  {
    UndroppedUpdate(s, q, w);
  }

  const NoMemoryChange := MemoryUpdate(None, None, None, None, None, None, None)

  const EnableMemory := Request(
    Some(LlmUpdate(None, None, None, None, None, None, Some(NoMemoryChange.(enabled := Some(true))))),
    None, None, None, None, None, false)

  /**
   Enabling memory and going away while the store opens commits the change
   without ever building handlers for it, even if the store could not be opened
   and the request would have been rejected.
   */
  lemma DroppedWhileOpening(s: Shared, w: World)
    requires s.holder.None? && Agree(s) && !s.config.llm.memory.enabled
    ensures
      var end := Run(s, [Begin(EnableMemory, w), Drop]);
      && end.Some? && end.value.holder.None? && !Agree(end.value)
      && end.value.config == s.config.(llm := s.config.llm.(memory := s.config.llm.memory.(enabled := true)))
      && end.value.handlers == s.handlers
  {
    var m := Next(s, Begin(EnableMemory, w)).value;
    assert m.config.llm.memory == s.config.llm.memory.(enabled := true);
    assert m.config.llm == s.config.llm.(memory := m.config.llm.memory);
    RunOn(s, Begin(EnableMemory, w), [Drop]);
    RunOn(m, Drop, []);
    assert [Begin(EnableMemory, w)] + [Drop] == [Begin(EnableMemory, w), Drop];
    assert [Drop] + [] == [Drop];
  }

  /**
   Dropped between the swap and the clear, the update is committed and live but
   the table is not cleared: it keeps whatever it held.
   */
  lemma SwappedButNotCleared(s: Shared)
    requires Inv(s) && s.holder.Some? && s.holder.value.stage.Clearing?
    ensures
      var dropped, finished := Next(s, Drop).value, Next(s, Advance).value;
      && Agree(dropped) && dropped == finished.(table := s.table)
      && (dropped.table == finished.table <==> s.table.inflight == map[] && s.table.cache == map[])
  {
    assert Clear(s.table).inflight == map[] && Clear(s.table).cache == map[];
  }
}
