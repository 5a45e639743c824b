/**
 Updating the shared configuration, rolling it back when a change is rejected,
 and hot-swapping the handler tree that was built from it.

 The configuration lock is held for the whole of `Update`, so a call that is
 carried through is one step; SettingsSteps cuts it at its awaits, where it may
 be dropped.  What other programs decide (whether a prompt template parses, whether
 the memory store opens, whether an agent can be built) comes in as `World`.
 */
module Settings {
  import opened Options
  import opened Text
  import opened DedupTable

  datatype Tools = Tools(enabled: bool, dynamicToolCount: nat, maxToolTurns: nat, toolConcurrency: nat)

  datatype Memory = Memory(
    enabled: bool, path: string, topK: nat, snippetChars: nat, maxContextChars: nat,
    autoRetrieve: bool, autoRemember: bool)

  datatype Llm = Llm(
    provider: string, model: string, apiKey: Option<string>, baseUrl: Option<string>,
    googleSearch: bool, tools: Tools, memory: Memory)

  datatype Server = Server(systemPrompt: Option<string>, statusPrompt: Option<string>, displayName: Option<string>)

  datatype Config = Config(
    llm: Llm, server: Server, weatherKey: Option<string>,
    trustAllContacts: bool, allowAllInbound: bool, apkInstallEnabled: bool)

  datatype ToolsUpdate = ToolsUpdate(
    enabled: Option<bool>, dynamicToolCount: Option<nat>, maxToolTurns: Option<nat>, toolConcurrency: Option<nat>)

  datatype MemoryUpdate = MemoryUpdate(
    enabled: Option<bool>, path: Option<string>, topK: Option<nat>, snippetChars: Option<nat>,
    maxContextChars: Option<nat>, autoRetrieve: Option<bool>, autoRemember: Option<bool>)

  datatype LlmUpdate = LlmUpdate(
    provider: Option<string>, model: Option<string>, apiKey: Option<string>, baseUrl: Option<string>,
    googleSearch: Option<bool>, tools: Option<ToolsUpdate>, memory: Option<MemoryUpdate>)

  datatype PromptUpdate = Unchanged | ClearPrompt | SetPrompt(text: string)

  /** `readOnly`: the request names an address, which only a restart can change. */
  datatype ServerUpdate = ServerUpdate(
    readOnly: bool, systemPrompt: PromptUpdate, statusPrompt: PromptUpdate, displayName: Option<string>)

  datatype Request = Request(
    llm: Option<LlmUpdate>, server: Option<ServerUpdate>, weatherKey: Option<string>,
    trustAllContacts: Option<bool>, allowAllInbound: Option<bool>, apkInstallEnabled: Option<bool>,
    storage: bool)

  datatype World = World(
    templateOk: string -> bool, opensMemory: Memory -> bool, buildsAgent: Config -> bool,
    defaultSystem: string, defaultStatus: string)

  datatype Status = Accepted | BadRequest

  function Or<T>(o: Option<T>, d: T): T {
    if o.Some? then o.value else d
  }

  /** An empty string clears an optional setting. */
  function NonEmpty(s: string): Option<string> {
    if s == [] then None else Some(s)
  }

  function AtLeastOne(n: nat): nat {
    if n == 0 then 1 else n
  }

  /** A prompt equal to the built-in default is stored as no prompt. */
  function ConfiguredPrompt(text: string, default: string): Option<string> {
    if Trim(text) == Trim(default) then None else Some(Trim(text))
  }

  function AppliedPrompt(u: PromptUpdate, current: Option<string>, default: string): Option<string> {
    match u
    case Unchanged => current
    case ClearPrompt => None
    case SetPrompt(text) => ConfiguredPrompt(text, default)
  }

  function AppliedTools(u: ToolsUpdate, t: Tools): Tools {
    Tools(Or(u.enabled, t.enabled), Or(u.dynamicToolCount, t.dynamicToolCount),
          Or(u.maxToolTurns, t.maxToolTurns), Or(u.toolConcurrency, t.toolConcurrency))
  }

  function AppliedMemory(u: MemoryUpdate, m: Memory): Memory {
    Memory(
      Or(u.enabled, m.enabled),
      if u.path.Some? then Trim(u.path.value) else m.path,
      if u.topK.Some? then AtLeastOne(u.topK.value) else m.topK,
      if u.snippetChars.Some? then AtLeastOne(u.snippetChars.value) else m.snippetChars,
      if u.maxContextChars.Some? then AtLeastOne(u.maxContextChars.value) else m.maxContextChars,
      Or(u.autoRetrieve, m.autoRetrieve),
      Or(u.autoRemember, m.autoRemember))
  }

  function AppliedLlm(u: LlmUpdate, l: Llm): Llm {
    Llm(
      Or(u.provider, l.provider), Or(u.model, l.model),
      if u.apiKey.Some? then NonEmpty(u.apiKey.value) else l.apiKey,
      if u.baseUrl.Some? then NonEmpty(u.baseUrl.value) else l.baseUrl,
      Or(u.googleSearch, l.googleSearch),
      if u.tools.Some? then AppliedTools(u.tools.value, l.tools) else l.tools,
      if u.memory.Some? then AppliedMemory(u.memory.value, l.memory) else l.memory)
  }

  function AppliedServer(u: ServerUpdate, s: Server, w: World): Server {
    Server(
      AppliedPrompt(u.systemPrompt, s.systemPrompt, w.defaultSystem),
      AppliedPrompt(u.statusPrompt, s.statusPrompt, w.defaultStatus),
      if u.displayName.Some? then NonEmpty(u.displayName.value) else s.displayName)
  }

  /** The configuration a request asks for. */
  function Applied(q: Request, c: Config, w: World): Config {
    Config(
      if q.llm.Some? then AppliedLlm(q.llm.value, c.llm) else c.llm,
      if q.server.Some? then AppliedServer(q.server.value, c.server, w) else c.server,
      if q.weatherKey.Some? then NonEmpty(q.weatherKey.value) else c.weatherKey,
      Or(q.trustAllContacts, c.trustAllContacts),
      Or(q.allowAllInbound, c.allowAllInbound),
      Or(q.apkInstallEnabled, c.apkInstallEnabled))
  }

  predicate PromptOk(u: PromptUpdate, w: World) {
    u.SetPrompt? ==> w.templateOk(u.text) && Trim(u.text) != []
  }

  predicate NoBlankPrompt(u: ServerUpdate) {
    && (u.systemPrompt.SetPrompt? ==> Trim(u.systemPrompt.text) != [])
    && (u.statusPrompt.SetPrompt? ==> Trim(u.statusPrompt.text) != [])
  }

  predicate MemoryPathOk(q: Request) {
    q.llm.Some? && q.llm.value.memory.Some? && q.llm.value.memory.value.path.Some? ==>
      Trim(q.llm.value.memory.value.path.value) != []
  }

  /** Exactly the requests the server accepts. */
  predicate Acceptable(q: Request, c: Config, w: World) {
    && !q.storage
    && (q.server.Some? ==>
          && !q.server.value.readOnly
          && PromptOk(q.server.value.systemPrompt, w) && PromptOk(q.server.value.statusPrompt, w))
    && MemoryPathOk(q)
    && var next := Applied(q, c, w);
       (next.llm.memory.enabled ==> w.opensMemory(next.llm.memory)) && w.buildsAgent(next)
  }

  // ---------------------------------------------------------------------------
  // What a request means, field by field
  // ---------------------------------------------------------------------------

  /** A field the request names takes the named value; any other keeps its own. */
  predicate Follows<T(==)>(named: Option<T>, before: T, after: T) {
    after == match named case Some(v) => v case None => before
  }

  /** Naming the empty string clears the field. */
  predicate FollowsOrClears(named: Option<string>, before: Option<string>, after: Option<string>) {
    && (named.None? ==> after == before)
    && (named == Some("") ==> after == None)
    && (named.Some? && named != Some("") ==> after == named)
  }

  /** Naming zero means one. */
  predicate FollowsFromOne(named: Option<nat>, before: nat, after: nat) {
    && (named.None? ==> after == before)
    && (named == Some(0) ==> after == 1)
    && (named.Some? && named != Some(0) ==> Some(after) == named)
  }

  /** The field takes the named text without its outer blanks, which must leave something. */
  predicate FollowsTrimmed(named: Option<string>, before: string, after: string) {
    && (named.None? ==> after == before)
    && (named.Some? ==> after == Trim(named.value) && after != "")
  }

  /** A prompt is left, cleared, or set to the trimmed text; the default text is stored as no prompt. */
  predicate FollowsPrompt(u: PromptUpdate, before: Option<string>, after: Option<string>, default: string) {
    && (u.Unchanged? ==> after == before)
    && (u.ClearPrompt? ==> after == None)
    && (u.SetPrompt? ==>
          && Trim(u.text) != ""
          && (after == None <==> Trim(u.text) == Trim(default))
          && (after.Some? ==> after.value == Trim(u.text)))
  }

  predicate ToolsFollow(u: ToolsUpdate, t: Tools, t': Tools) {
    && Follows(u.enabled, t.enabled, t'.enabled)
    && Follows(u.dynamicToolCount, t.dynamicToolCount, t'.dynamicToolCount)
    && Follows(u.maxToolTurns, t.maxToolTurns, t'.maxToolTurns)
    && Follows(u.toolConcurrency, t.toolConcurrency, t'.toolConcurrency)
  }

  predicate MemoryFollows(u: MemoryUpdate, m: Memory, m': Memory) {
    && Follows(u.enabled, m.enabled, m'.enabled)
    && FollowsTrimmed(u.path, m.path, m'.path)
    && FollowsFromOne(u.topK, m.topK, m'.topK)
    && FollowsFromOne(u.snippetChars, m.snippetChars, m'.snippetChars)
    && FollowsFromOne(u.maxContextChars, m.maxContextChars, m'.maxContextChars)
    && Follows(u.autoRetrieve, m.autoRetrieve, m'.autoRetrieve)
    && Follows(u.autoRemember, m.autoRemember, m'.autoRemember)
  }

  predicate LlmFollows(u: LlmUpdate, l: Llm, l': Llm) {
    && Follows(u.provider, l.provider, l'.provider)
    && Follows(u.model, l.model, l'.model)
    && FollowsOrClears(u.apiKey, l.apiKey, l'.apiKey)
    && FollowsOrClears(u.baseUrl, l.baseUrl, l'.baseUrl)
    && Follows(u.googleSearch, l.googleSearch, l'.googleSearch)
    && (match u.tools case None => l'.tools == l.tools case Some(t) => ToolsFollow(t, l.tools, l'.tools))
    && (match u.memory case None => l'.memory == l.memory case Some(m) => MemoryFollows(m, l.memory, l'.memory))
  }

  predicate ServerFollows(u: ServerUpdate, s: Server, s': Server, w: World) {
    && FollowsPrompt(u.systemPrompt, s.systemPrompt, s'.systemPrompt, w.defaultSystem)
    && FollowsPrompt(u.statusPrompt, s.statusPrompt, s'.statusPrompt, w.defaultStatus)
    && FollowsOrClears(u.displayName, s.displayName, s'.displayName)
  }

  /** `d` is `c` with every field the request names, and no other, changed as the request says. */
  predicate AsksFor(q: Request, c: Config, d: Config, w: World) {
    && (match q.llm case None => d.llm == c.llm case Some(u) => LlmFollows(u, c.llm, d.llm))
    && (match q.server case None => d.server == c.server case Some(u) => ServerFollows(u, c.server, d.server, w))
    && FollowsOrClears(q.weatherKey, c.weatherKey, d.weatherKey)
    && Follows(q.trustAllContacts, c.trustAllContacts, d.trustAllContacts)
    && Follows(q.allowAllInbound, c.allowAllInbound, d.allowAllInbound)
    && Follows(q.apkInstallEnabled, c.apkInstallEnabled, d.apkInstallEnabled)
  }

  /** The request asks for nothing that needs a restart, and its templates parse. */
  predicate WellFormed(q: Request, w: World) {
    && !q.storage
    && (q.server.Some? ==>
          var u := q.server.value;
          && !u.readOnly
          && (u.systemPrompt.SetPrompt? ==> w.templateOk(u.systemPrompt.text))
          && (u.statusPrompt.SetPrompt? ==> w.templateOk(u.statusPrompt.text)))
  }

  /** The memory store opens if it is enabled, and the agent can be built. */
  predicate Buildable(d: Config, w: World) {
    (d.llm.memory.enabled ==> w.opensMemory(d.llm.memory)) && w.buildsAgent(d)
  }

  lemma LlmIsAsked(u: LlmUpdate, l: Llm)
    requires u.memory.Some? && u.memory.value.path.Some? ==> Trim(u.memory.value.path.value) != []
    ensures LlmFollows(u, l, AppliedLlm(u, l))
  {
  }

  lemma ServerIsAsked(u: ServerUpdate, s: Server, w: World)
    requires NoBlankPrompt(u)
    ensures ServerFollows(u, s, AppliedServer(u, s, w), w)
  {
  }

  lemma AppliedIsAsked(q: Request, c: Config, w: World)
    requires MemoryPathOk(q) && (q.server.Some? ==> NoBlankPrompt(q.server.value))
    ensures AsksFor(q, c, Applied(q, c, w), w)
  {
    var d := Applied(q, c, w);
    assert match q.llm case None => d.llm == c.llm case Some(u) => LlmFollows(u, c.llm, d.llm) by {
      if q.llm.Some? { LlmIsAsked(q.llm.value, c.llm); }
    }
    assert match q.server case None => d.server == c.server case Some(u) => ServerFollows(u, c.server, d.server, w) by {
      if q.server.Some? { ServerIsAsked(q.server.value, c.server, w); }
    }
  }

  lemma MemoryDetermined(u: MemoryUpdate, m: Memory, m': Memory)
    requires MemoryFollows(u, m, m')
    ensures (u.path.Some? ==> Trim(u.path.value) != []) && m' == AppliedMemory(u, m)
  {
  }

  lemma LlmDetermined(u: LlmUpdate, l: Llm, l': Llm)
    requires LlmFollows(u, l, l')
    ensures u.memory.Some? && u.memory.value.path.Some? ==> Trim(u.memory.value.path.value) != []
    ensures l' == AppliedLlm(u, l)
  {
    if u.tools.Some? {
      assert l'.tools == AppliedTools(u.tools.value, l.tools);
    }
    if u.memory.Some? {
      MemoryDetermined(u.memory.value, l.memory, l'.memory);
    }
  }

  lemma ServerDetermined(u: ServerUpdate, s: Server, s': Server, w: World)
    requires ServerFollows(u, s, s', w)
    ensures NoBlankPrompt(u) && s' == AppliedServer(u, s, w)
  {
  }

  lemma ClearsDetermined(named: Option<string>, before: Option<string>, after: Option<string>)
    requires FollowsOrClears(named, before, after)
    ensures after == if named.Some? then NonEmpty(named.value) else before
  {
  }

  lemma LlmPartDetermined(q: Request, c: Config, d: Config, w: World)
    requires AsksFor(q, c, d, w)
    ensures MemoryPathOk(q) && d.llm == Applied(q, c, w).llm
  {
    if q.llm.Some? {
      LlmDetermined(q.llm.value, c.llm, d.llm);
    }
  }

  lemma ServerPartDetermined(q: Request, c: Config, d: Config, w: World)
    requires AsksFor(q, c, d, w)
    ensures (q.server.Some? ==> NoBlankPrompt(q.server.value)) && d.server == Applied(q, c, w).server
  {
    if q.server.Some? {
      ServerDetermined(q.server.value, c.server, d.server, w);
    }
  }

  /** A request asks for one configuration only. */
  lemma AskedIsApplied(q: Request, c: Config, d: Config, w: World)
    requires AsksFor(q, c, d, w)
    ensures MemoryPathOk(q) && (q.server.Some? ==> NoBlankPrompt(q.server.value)) && d == Applied(q, c, w)
  {
    LlmPartDetermined(q, c, d, w);
    ServerPartDetermined(q, c, d, w);
    ClearsDetermined(q.weatherKey, c.weatherKey, d.weatherKey);
  }

  /**
   A request is accepted exactly when it is well formed and asks for a
   configuration that can be built.  Then that configuration, in which every
   field named has its named value and every other its old one, is committed and
   behind the handlers; otherwise nothing changes.
   */
  lemma UpdateFollowsFields(s: State, q: Request, w: World)
    ensures Acceptable(q, s.config, w) <==>
            WellFormed(q, w) && exists d :: AsksFor(q, s.config, d, w) && Buildable(d, w)
    ensures forall d :: AsksFor(q, s.config, d, w) && WellFormed(q, w) && Buildable(d, w) ==>
            UpdateState(s, q, w) == State(d, d)
    ensures Acceptable(q, s.config, w) ==>
            var t := UpdateState(s, q, w); AsksFor(q, s.config, t.config, w) && t.handlers == t.config
    ensures !Acceptable(q, s.config, w) ==> UpdateState(s, q, w) == s
  {
    forall d | AsksFor(q, s.config, d, w)
      ensures MemoryPathOk(q) && (q.server.Some? ==> NoBlankPrompt(q.server.value)) && d == Applied(q, s.config, w)
    {
      AskedIsApplied(q, s.config, d, w);
    }
    if Acceptable(q, s.config, w) {
      AppliedIsAsked(q, s.config, w);
      assert Buildable(Applied(q, s.config, w), w);
    }
  }

  /** Committed configuration and configuration behind the live handlers. */
  datatype State = State(config: Config, handlers: Config)

  function UpdateState(s: State, q: Request, w: World): State {
    if Acceptable(q, s.config, w) then State(Applied(q, s.config, w), Applied(q, s.config, w)) else s
  }

  /** The shared configuration, the configuration behind the live handlers, and the response table. */
  class SettingsState {
    var config: Config
    var handlers: Config
    const table: SharedTable

    function View(): State
      reads this
    {
      State(config, handlers)
    }

    constructor (initial: Config, t: SharedTable)
      ensures config == initial && handlers == initial && table == t
    {
      config, handlers, table := initial, initial, t;
    }

    method ApplyTools(u: ToolsUpdate)
      modifies this`config
      ensures config == old(config).(llm := old(config).llm.(tools := AppliedTools(u, old(config).llm.tools)))
    {
      var t := config.llm.tools;
      if u.enabled.Some? { t := t.(enabled := u.enabled.value); }
      if u.dynamicToolCount.Some? { t := t.(dynamicToolCount := u.dynamicToolCount.value); }
      if u.maxToolTurns.Some? { t := t.(maxToolTurns := u.maxToolTurns.value); }
      if u.toolConcurrency.Some? { t := t.(toolConcurrency := u.toolConcurrency.value); }
      config := config.(llm := config.llm.(tools := t));
    }

    /** Stops at a blank path, leaving the fields before it already changed. */
    method ApplyMemory(u: MemoryUpdate) returns (ok: bool)
      modifies this`config
      ensures ok <==> (u.path.Some? ==> Trim(u.path.value) != [])
      ensures ok ==> config == old(config).(llm := old(config).llm.(memory := AppliedMemory(u, old(config).llm.memory)))
    {
      EnableMemory(u.enabled);
      if u.path.Some? {
        var trimmed := Trim(u.path.value);
        if trimmed == [] {
          return false;
        }
        config := config.(llm := config.llm.(memory := config.llm.memory.(path := trimmed)));
      }
      ApplyMemoryLimits(u);
      return true;
    }

    method EnableMemory(enabled: Option<bool>)
      modifies this`config
      ensures config == old(config).(llm := old(config).llm.(memory :=
                old(config).llm.memory.(enabled := Or(enabled, old(config).llm.memory.enabled))))
    {
      if enabled.Some? {
        config := config.(llm := config.llm.(memory := config.llm.memory.(enabled := enabled.value)));
      }
    }

    method ApplyMemoryLimits(u: MemoryUpdate)
      modifies this`config
      ensures var m := AppliedMemory(u, old(config).llm.memory);
              config == old(config).(llm := old(config).llm.(memory :=
                m.(enabled := old(config).llm.memory.enabled, path := old(config).llm.memory.path)))
    {
      var m := config.llm.memory;
      m := m.(topK := if u.topK.Some? then AtLeastOne(u.topK.value) else m.topK);
      m := m.(snippetChars := if u.snippetChars.Some? then AtLeastOne(u.snippetChars.value) else m.snippetChars);
      m := m.(maxContextChars :=
        if u.maxContextChars.Some? then AtLeastOne(u.maxContextChars.value) else m.maxContextChars);
      m := m.(autoRetrieve := Or(u.autoRetrieve, m.autoRetrieve), autoRemember := Or(u.autoRemember, m.autoRemember));
      config := config.(llm := config.llm.(memory := m));
    }

    method ApplyModel(u: LlmUpdate)
      modifies this`config
      ensures var l := AppliedLlm(u, old(config).llm);
              config == old(config).(llm := l.(tools := old(config).llm.tools, memory := old(config).llm.memory))
    {
      var l := config.llm;
      l := l.(provider := Or(u.provider, l.provider), model := Or(u.model, l.model));
      l := l.(apiKey := if u.apiKey.Some? then NonEmpty(u.apiKey.value) else l.apiKey);
      l := l.(baseUrl := if u.baseUrl.Some? then NonEmpty(u.baseUrl.value) else l.baseUrl);
      l := l.(googleSearch := Or(u.googleSearch, l.googleSearch));
      config := config.(llm := l);
    }

    method ApplyLlm(u: LlmUpdate) returns (ok: bool)
      modifies this`config
      ensures ok <==> (u.memory.Some? && u.memory.value.path.Some? ==> Trim(u.memory.value.path.value) != [])
      ensures ok ==> config == old(config).(llm := AppliedLlm(u, old(config).llm))
    {
      ApplyModel(u);
      if u.tools.Some? { ApplyTools(u.tools.value); }
      ok := true;
      if u.memory.Some? { ok := ApplyMemory(u.memory.value); }
    }

    /** False when a prompt is blank after trimming, with the prompt before it already changed. */
    method ApplyServer(u: ServerUpdate, w: World) returns (ok: bool)
      modifies this`config
      ensures ok <==> NoBlankPrompt(u)
      ensures ok ==> config == old(config).(server := AppliedServer(u, old(config).server, w))
    {
      if u.systemPrompt.SetPrompt? && Trim(u.systemPrompt.text) == [] {
        return false;
      }
      var system := AppliedPrompt(u.systemPrompt, config.server.systemPrompt, w.defaultSystem);
      config := config.(server := config.server.(systemPrompt := system));
      if u.statusPrompt.SetPrompt? && Trim(u.statusPrompt.text) == [] {
        return false;
      }
      var status := AppliedPrompt(u.statusPrompt, config.server.statusPrompt, w.defaultStatus);
      config := config.(server := config.server.(statusPrompt := status));
      if u.displayName.Some? {
        config := config.(server := config.server.(displayName := NonEmpty(u.displayName.value)));
      }
      return true;
    }

    method ApplySwitches(q: Request)
      modifies this`config
      ensures config == old(config).(
                weatherKey := if q.weatherKey.Some? then NonEmpty(q.weatherKey.value) else old(config).weatherKey,
                trustAllContacts := Or(q.trustAllContacts, old(config).trustAllContacts),
                allowAllInbound := Or(q.allowAllInbound, old(config).allowAllInbound),
                apkInstallEnabled := Or(q.apkInstallEnabled, old(config).apkInstallEnabled))
    {
      if q.weatherKey.Some? { config := config.(weatherKey := NonEmpty(q.weatherKey.value)); }
      if q.trustAllContacts.Some? { config := config.(trustAllContacts := q.trustAllContacts.value); }
      if q.allowAllInbound.Some? { config := config.(allowAllInbound := q.allowAllInbound.value); }
      if q.apkInstallEnabled.Some? { config := config.(apkInstallEnabled := q.apkInstallEnabled.value); }
    }

    /** Applies every field in order; stops, with the earlier ones changed, at a blank path or prompt. */
    method ApplyRequest(q: Request, w: World) returns (ok: bool)
      modifies this`config
      ensures ok <==> (MemoryPathOk(q) && (q.server.Some? ==> NoBlankPrompt(q.server.value)))
      ensures ok ==> config == Applied(q, old(config), w)
    {
      ghost var before := config;
      if q.llm.Some? {
        ok := ApplyLlm(q.llm.value);
        if !ok { return; }
      }
      assert config == before.(llm := Applied(q, before, w).llm);
      if q.server.Some? {
        ok := ApplyServer(q.server.value, w);
        if !ok { return; }
      }
      assert config == before.(llm := Applied(q, before, w).llm, server := Applied(q, before, w).server);
      ApplySwitches(q);
      return true;
    }

    /**
     Accepts exactly the acceptable requests.  An accepted request commits what
     it asked for, swaps in handlers built from it and clears the response
     table; a rejected one leaves configuration, handlers and table as they were.
     */
    method Update(q: Request, w: World) returns (status: Status)
      modifies this, table
      ensures status == Accepted <==> Acceptable(q, old(config), w)
      ensures View() == UpdateState(old(View()), q, w)
      ensures status == Accepted ==> AsksFor(q, old(config), config, w) && handlers == config
      ensures table.View() == if status == Accepted then Clear(old(table.View())) else old(table.View())
    {
      if q.server.Some? && q.server.value.readOnly { return BadRequest; }
      if q.storage { return BadRequest; }
      if q.server.Some? {
        var s := q.server.value;
        if s.systemPrompt.SetPrompt? && !w.templateOk(s.systemPrompt.text) { return BadRequest; }
        if s.statusPrompt.SetPrompt? && !w.templateOk(s.statusPrompt.text) { return BadRequest; }
      }

      var original := config;
      var ok := ApplyRequest(q, w);
      if !ok {
        config := original;
        return BadRequest;
      }
      if config.llm.memory.enabled && !w.opensMemory(config.llm.memory) {
        config := original;
        return BadRequest;
      }
      if !w.buildsAgent(config) {
        config := original;
        return BadRequest;
      }
      handlers := config;
      AppliedIsAsked(q, original, w);
      table.ClearAll();
      return Accepted;
    }
  }

  // ---------------------------------------------------------------------------
  // Sequences of updates
  // ---------------------------------------------------------------------------

  function UpdateAll(s: State, qs: seq<(Request, World)>): State
    decreases qs
  {
    if qs == [] then s else UpdateAll(UpdateState(s, qs[0].0, qs[0].1), qs[1..])
  }

  /** The requests of `qs` that were accepted when their turn came. */
  function AcceptedOnly(c: Config, qs: seq<(Request, World)>): seq<(Request, World)>
    decreases qs
  {
    if qs == [] then []
    else if Acceptable(qs[0].0, c, qs[0].1) then [qs[0]] + AcceptedOnly(Applied(qs[0].0, c, qs[0].1), qs[1..])
    else AcceptedOnly(c, qs[1..])
  }

  /**
   After any sequence of updates the live handlers were built from the committed
   configuration, and rejected requests have left no trace at all.
   */
  lemma {:induction false} HandlersMatchCommittedConfig(s: State, qs: seq<(Request, World)>)
    requires s.config == s.handlers
    ensures var e := UpdateAll(s, qs);
            e.config == e.handlers && e == UpdateAll(s, AcceptedOnly(s.config, qs))
    decreases qs
  {
    if qs != [] {
      HandlersMatchCommittedConfig(UpdateState(s, qs[0].0, qs[0].1), qs[1..]);
      if Acceptable(qs[0].0, s.config, qs[0].1) {
        var rest := AcceptedOnly(Applied(qs[0].0, s.config, qs[0].1), qs[1..]);
        assert ([qs[0]] + rest)[1..] == rest;
      }
    }
  }

  lemma MemoryTwice(u: MemoryUpdate, m: Memory)
    ensures AppliedMemory(u, AppliedMemory(u, m)) == AppliedMemory(u, m)
  {
  }

  lemma LlmTwice(u: LlmUpdate, l: Llm)
    ensures AppliedLlm(u, AppliedLlm(u, l)) == AppliedLlm(u, l)
  {
    if u.memory.Some? {
      MemoryTwice(u.memory.value, l.memory);
    }
  }

  lemma ServerTwice(u: ServerUpdate, s: Server, w: World)
    ensures AppliedServer(u, AppliedServer(u, s, w), w) == AppliedServer(u, s, w)
  {
  }

  /** An accepted request is accepted again when repeated, and no repetition changes anything. */
  lemma UpdateTwice(s: State, q: Request, w: World)
    ensures Acceptable(q, s.config, w) ==> Acceptable(q, Applied(q, s.config, w), w)
    ensures UpdateState(UpdateState(s, q, w), q, w) == UpdateState(s, q, w)
  {
    if q.llm.Some? {
      LlmTwice(q.llm.value, s.config.llm);
    }
    if q.server.Some? {
      ServerTwice(q.server.value, s.config.server, w);
    }
    assert Applied(q, Applied(q, s.config, w), w) == Applied(q, s.config, w);
  }
}
