/** The data-access layer of src/lib/database.ts (`DatabaseService`):
    cache keys, the cache invalidation each create, update and delete
    performs, the read-through path, and the encoding of list-valued
    fields at the storage boundary. Storage calls are abstract: each one is
    given as the outcome the request gate settles it to. JSON text is an
    abstract codec whose round trip is a stated assumption. */
module DatabaseService {
  import opened Wrappers
  import opened Text
  import opened ResultCache
  import RequestGate

  type Failure = RequestGate.Failure

  // ---------------------------------------------------------------------
  // Cache keys

  const AgentsOp: string := "agents"
  const WorkflowsOp: string := "workflows"
  const SystemPromptsOp: string := "systemPrompts"
  const ProjectsOp: string := "projects"
  const ChatMessagesOp: string := "chatMessages"
  const InitializedOp: string := "initialized"

  /** The only parameter object the layer passes: `{ limit }`. */
  datatype Params = LimitParams(limit: int)

  function ParamsJson(p: Params): string {
    "{\"limit\":" + IntToString(p.limit) + "}"
  }

  /** `getCacheKey`: operation, user and the JSON of the parameters (empty
      when there are none), separated by colons. */
  function CacheKey(operation: string, userId: string, params: Option<Params>): (key: string)
    ensures StartsWith(key, operation + ":")
  {
    var head, rest := operation + ":", userId + ":" + ParamsSuffix(params);
    assert (head + rest)[..|head|] == head;
    head + rest
  }

  function ParamsSuffix(params: Option<Params>): string {
    if params.Some? then ParamsJson(params.value) else ""
  }

  /** A key splits after the operation's colon into the user part. */
  lemma CacheKeyAfterOperation(operation: string, userId: string, params: Option<Params>)
    ensures CacheKey(operation, userId, params) == operation + ":" + (userId + ":" + ParamsSuffix(params))
    ensures StartsWith(CacheKey(operation, userId, params), operation + ":")
  {
    var head, rest := operation + ":", userId + ":" + ParamsSuffix(params);
    assert (head + rest)[..|head|] == head;
  }

  /** The marker key of `initializeDefaultData`, built without getCacheKey. */
  function InitializedKey(userId: string): string {
    InitializedOp + ":" + userId
  }

  predicate NoColon(s: string) {
    forall i :: 0 <= i < |s| ==> s[i] != ':'
  }

  /** In `a + ":" + x` with a colon-free `a`, the first colon is at |a|. */
  lemma FirstColonAt(a: string, x: string)
    requires NoColon(a)
    ensures (a + ":" + x)[|a|] == ':'
    ensures forall i :: 0 <= i < |a| ==> (a + ":" + x)[i] != ':'
  {
  }

  /** A colon-free name followed by a colon is found again as the text up
      to the first colon. */
  lemma FirstColonSplit(a: string, x: string, b: string, y: string)
    requires NoColon(a) && NoColon(b)
    requires a + ":" + x == b + ":" + y
    ensures a == b && x == y
  {
    var s := a + ":" + x;
    FirstColonAt(a, x);
    FirstColonAt(b, y);
    assert |a| == |b|;
    assert a == s[..|a|] == b;
    assert x == s[|a| + 1..] == y;
  }

  /** Keys of different colon-free names never share the `name:` prefix. */
  lemma PrefixSeparatesNames(a: string, b: string, x: string)
    requires NoColon(a) && NoColon(b) && a != b
    ensures !StartsWith(b + ":" + x, a + ":")
  {
    if StartsWith(b + ":" + x, a + ":") {
      var s := b + ":" + x;
      var rest := s[|a| + 1..];
      assert s == a + ":" + rest;
      FirstColonSplit(a, rest, b, x);
    }
  }

  /** Distinct operations or distinct (colon-free) users give distinct keys. */
  lemma CacheKeySeparatesUsers(op1: string, u1: string, p1: Option<Params>, op2: string, u2: string, p2: Option<Params>)
    requires NoColon(op1) && NoColon(op2) && NoColon(u1) && NoColon(u2)
    requires CacheKey(op1, u1, p1) == CacheKey(op2, u2, p2)
    ensures op1 == op2 && u1 == u2
  {
    var r1 := ParamsSuffix(p1);
    var r2 := ParamsSuffix(p2);
    CacheKeyAfterOperation(op1, u1, p1);
    CacheKeyAfterOperation(op2, u2, p2);
    FirstColonSplit(op1, u1 + ":" + r1, op2, u2 + ":" + r2);
    FirstColonSplit(u1, r1, u2, r2);
  }

  // ---------------------------------------------------------------------
  // Entities and their storage rows

  /** A list-valued column as it comes back from storage. */
  datatype Column = Missing | Null | Text(text: string)

  /** `JSON.stringify` / `JSON.parse` for one list type. */
  datatype Codec<!T> = Codec(encode: seq<T> -> string, decode: string -> seq<T>)

  /** What the layer relies on of JSON: parsing undoes printing, printing
      an array never yields the empty string, and `"[]"` parses to []. */
  ghost predicate Lossless<T(!new)>(c: Codec<T>) {
    && (forall xs :: c.decode(c.encode(xs)) == xs)
    && (forall xs :: c.encode(xs) != "")
    && c.decode("[]") == []
  }

  /** Write path: the column written for a list. */
  function EncodeList<T>(c: Codec<T>, xs: seq<T>): (col: Column)
    ensures col.Text?
  {
    Text(c.encode(xs))
  }

  /** Read path: `JSON.parse(field || '[]')`. */
  function DecodeList<T>(c: Codec<T>, col: Column): (xs: seq<T>)
    ensures !(col.Text? && col.text != "") ==> xs == c.decode("[]")
    ensures col.Text? && col.text != "" ==> xs == c.decode(col.text)
  {
    if col.Text? && col.text != "" then c.decode(col.text) else c.decode("[]")
  }

  /** A missing, null or empty column reads as the empty list. */
  lemma AbsentColumnDecodesEmpty<T(!new)>(c: Codec<T>, col: Column)
    requires Lossless(c)
    requires !(col.Text? && col.text != "")
    ensures DecodeList(c, col) == []
  {
  }

  /** Every list written is read back unchanged, the empty list included. */
  lemma ListRoundTrip<T(!new)>(c: Codec<T>, xs: seq<T>)
    requires Lossless(c)
    ensures DecodeList(c, EncodeList(c, xs)) == xs
  {
  }

  /** `updates.<list>` is encoded when supplied (an empty array is truthy)
      and left out of the update otherwise. */
  function EncodeListUpdate<T>(c: Codec<T>, update: Option<seq<T>>): (r: Option<Column>)
    ensures r.Some? <==> update.Some?
  {
    if update.Some? then Some(EncodeList(c, update.value)) else None
  }

  lemma ListUpdateRoundTrip<T(!new)>(c: Codec<T>, xs: seq<T>)
    requires Lossless(c)
    ensures EncodeListUpdate(c, Some(xs)).Some?
    ensures DecodeList(c, EncodeListUpdate(c, Some(xs)).value) == xs
  {
  }

  datatype AgentStatus = Connected | Available | Errored

  datatype Agent = Agent(
    id: string, name: string, provider: string, model: string, status: AgentStatus,
    accuracy: real, speed: real, context: string, capabilities: seq<string>,
    cost: real, reliability: real, userId: string, createdAt: string, updatedAt: string)

  datatype AgentRow = AgentRow(
    id: string, name: string, provider: string, model: string, status: AgentStatus,
    accuracy: real, speed: real, context: string, capabilities: Column,
    cost: real, reliability: real, userId: string, createdAt: string, updatedAt: string)

  function WriteAgent(c: Codec<string>, a: Agent): AgentRow {
    AgentRow(a.id, a.name, a.provider, a.model, a.status, a.accuracy, a.speed, a.context,
             EncodeList(c, a.capabilities), a.cost, a.reliability, a.userId, a.createdAt, a.updatedAt)
  }

  function ReadAgent(c: Codec<string>, r: AgentRow): Agent {
    Agent(r.id, r.name, r.provider, r.model, r.status, r.accuracy, r.speed, r.context,
          DecodeList(c, r.capabilities), r.cost, r.reliability, r.userId, r.createdAt, r.updatedAt)
  }

  lemma AgentRoundTrip(c: Codec<string>, a: Agent)
    requires Lossless(c)
    ensures ReadAgent(c, WriteAgent(c, a)) == a
  {
    ListRoundTrip(c, a.capabilities);
  }

  datatype StepType = PromptStep | AgentCall | Condition | Merge

  datatype WorkflowStep = WorkflowStep(
    id: string, stepType: StepType, agentId: Option<string>, prompt: Option<string>, x: int, y: int)

  datatype WorkflowStatus = Draft | Active | Paused

  datatype Workflow = Workflow(
    id: string, name: string, description: string, agents: seq<string>, steps: seq<WorkflowStep>,
    status: WorkflowStatus, userId: string, createdAt: string, updatedAt: string)

  datatype WorkflowRow = WorkflowRow(
    id: string, name: string, description: string, agents: Column, steps: Column,
    status: WorkflowStatus, userId: string, createdAt: string, updatedAt: string)

  function WriteWorkflow(ids: Codec<string>, steps: Codec<WorkflowStep>, w: Workflow): WorkflowRow {
    WorkflowRow(w.id, w.name, w.description, EncodeList(ids, w.agents), EncodeList(steps, w.steps),
                w.status, w.userId, w.createdAt, w.updatedAt)
  }

  function ReadWorkflow(ids: Codec<string>, steps: Codec<WorkflowStep>, r: WorkflowRow): Workflow {
    Workflow(r.id, r.name, r.description, DecodeList(ids, r.agents), DecodeList(steps, r.steps),
             r.status, r.userId, r.createdAt, r.updatedAt)
  }

  lemma WorkflowRoundTrip(ids: Codec<string>, steps: Codec<WorkflowStep>, w: Workflow)
    requires Lossless(ids) && Lossless(steps)
    ensures ReadWorkflow(ids, steps, WriteWorkflow(ids, steps, w)) == w
  {
    ListRoundTrip(ids, w.agents);
    ListRoundTrip(steps, w.steps);
  }

  datatype SystemPrompt = SystemPrompt(
    id: string, name: string, description: string, template: string, category: string,
    tags: seq<string>, userId: string, createdAt: string, updatedAt: string)

  datatype SystemPromptRow = SystemPromptRow(
    id: string, name: string, description: string, template: string, category: string,
    tags: Column, userId: string, createdAt: string, updatedAt: string)

  function WriteSystemPrompt(c: Codec<string>, p: SystemPrompt): SystemPromptRow {
    SystemPromptRow(p.id, p.name, p.description, p.template, p.category, EncodeList(c, p.tags),
                    p.userId, p.createdAt, p.updatedAt)
  }

  function ReadSystemPrompt(c: Codec<string>, r: SystemPromptRow): SystemPrompt {
    SystemPrompt(r.id, r.name, r.description, r.template, r.category, DecodeList(c, r.tags),
                 r.userId, r.createdAt, r.updatedAt)
  }

  lemma SystemPromptRoundTrip(c: Codec<string>, p: SystemPrompt)
    requires Lossless(c)
    ensures ReadSystemPrompt(c, WriteSystemPrompt(c, p)) == p
  {
    ListRoundTrip(c, p.tags);
  }

  datatype ProjectType = WebApp | Api | Chatbot | Automation
  datatype ProjectStatus = Planning | Development | Testing | Deployed

  datatype Project = Project(
    id: string, name: string, description: string, projectType: ProjectType, agents: seq<string>,
    workflows: seq<string>, status: ProjectStatus, userId: string, createdAt: string, updatedAt: string)

  datatype ProjectRow = ProjectRow(
    id: string, name: string, description: string, projectType: ProjectType, agents: Column,
    workflows: Column, status: ProjectStatus, userId: string, createdAt: string, updatedAt: string)

  function WriteProject(c: Codec<string>, p: Project): ProjectRow {
    ProjectRow(p.id, p.name, p.description, p.projectType, EncodeList(c, p.agents),
               EncodeList(c, p.workflows), p.status, p.userId, p.createdAt, p.updatedAt)
  }

  function ReadProject(c: Codec<string>, r: ProjectRow): Project {
    Project(r.id, r.name, r.description, r.projectType, DecodeList(c, r.agents),
            DecodeList(c, r.workflows), r.status, r.userId, r.createdAt, r.updatedAt)
  }

  lemma ProjectRoundTrip(c: Codec<string>, p: Project)
    requires Lossless(c)
    ensures ReadProject(c, WriteProject(c, p)) == p
  {
    ListRoundTrip(c, p.agents);
    ListRoundTrip(c, p.workflows);
  }

  datatype Role = User | Assistant | System

  /** A chat message; its ISO timestamp is represented by the clock value. */
  datatype ChatMessage = ChatMessage(
    id: string, role: Role, content: string, agentId: Option<string>, timestamp: int, userId: string)

  /** What a list read caches and returns. */
  datatype Payload =
    | Agents(agents: seq<Agent>)
    | Workflows(workflows: seq<Workflow>)
    | SystemPrompts(prompts: seq<SystemPrompt>)
    | Projects(projects: seq<Project>)
    | Messages(messages: seq<ChatMessage>)
    | Initialized

  // ---------------------------------------------------------------------
  // Write paths: cache invalidation after the storage call succeeds.
  // A failed storage call throws before the invalidation line is reached.

  /** `createX`: remove the parameterless key of the record's user. */
  method Create(cache: ResultCache<Payload>, operation: string, userId: string, stored: Result<(), Failure>)
    returns (r: Result<(), Failure>)
    modifies cache
    ensures r == stored
    ensures stored.Err? ==> cache.entries == old(cache.entries)
    ensures stored.Ok? ==> cache.entries == old(cache.entries) - {CacheKey(operation, userId, None)}
  {
    if stored.Err? {
      return stored;
    }
    var cacheKey := CacheKey(operation, userId, None);
    cache.Delete(cacheKey);
    return stored;
  }

  /** `updateX`: invalidate only when the update carries a (truthy) userId. */
  method Update(cache: ResultCache<Payload>, operation: string, updatesUserId: Option<string>, stored: Result<(), Failure>)
    returns (r: Result<(), Failure>)
    modifies cache
    ensures r == stored
    ensures stored.Ok? && updatesUserId.Some? && updatesUserId.value != "" ==>
              cache.entries == old(cache.entries) - {CacheKey(operation, updatesUserId.value, None)}
    ensures stored.Err? || updatesUserId.None? || updatesUserId.value == "" ==>
              cache.entries == old(cache.entries)
  {
    if stored.Err? {
      return stored;
    }
    if updatesUserId.Some? && updatesUserId.value != "" {
      var cacheKey := CacheKey(operation, updatesUserId.value, None);
      cache.Delete(cacheKey);
    }
    return stored;
  }

  /** `deleteX`: the owner is unknown, so every key of the operation, for
      every user, is swept. */
  method Delete(cache: ResultCache<Payload>, operation: string, stored: Result<(), Failure>)
    returns (r: Result<(), Failure>)
    modifies cache
    ensures r == stored
    ensures stored.Err? ==> cache.entries == old(cache.entries)
    ensures stored.Ok? ==> cache.entries == WithoutPrefix(old(cache.entries), operation + ":")
  {
    if stored.Err? {
      return stored;
    }
    cache.DeleteWithPrefix(operation + ":");
    return stored;
  }

  /** A delete sweep removes the operation's key for every user and every
      parameter set, and keeps the keys of every other operation and the
      initialisation markers. */
  lemma DeleteSweepScope<V>(entries: map<string, Entry<V>>, operation: string, other: string, userId: string, params: Option<Params>)
    requires NoColon(operation) && NoColon(other) && operation != other && other != InitializedOp
    requires operation != InitializedOp
    ensures CacheKey(operation, userId, params) !in WithoutPrefix(entries, operation + ":")
    ensures CacheKey(other, userId, params) in entries ==>
              CacheKey(other, userId, params) in WithoutPrefix(entries, operation + ":")
    ensures InitializedKey(userId) in entries ==> InitializedKey(userId) in WithoutPrefix(entries, operation + ":")
  {
    CacheKeyAfterOperation(operation, userId, params);
    CacheKeyAfterOperation(other, userId, params);
    PrefixSeparatesNames(operation, other, userId + ":" + ParamsSuffix(params));
    PrefixSeparatesNames(operation, InitializedOp, userId);
  }

  /** Creating a chat message removes `chatMessages:<user>:`, but histories
      are cached under `chatMessages:<user>:{"limit":N}`: a fresh cached
      history is still served, unchanged, after the create. */
  lemma ChatCreateKeepsCachedHistory<V>(entries: map<string, Entry<V>>, userId: string, limit: int, now: int)
    ensures var history := CacheKey(ChatMessagesOp, userId, Some(LimitParams(limit)));
            var after := entries - {CacheKey(ChatMessagesOp, userId, None)};
            && (Fresh(after, history, now) <==> Fresh(entries, history, now))
            && (history in entries ==> history in after && after[history] == entries[history])
  {
    var history := CacheKey(ChatMessagesOp, userId, Some(LimitParams(limit)));
    assert |history| > |CacheKey(ChatMessagesOp, userId, None)|;
  }

  // ---------------------------------------------------------------------
  // Read paths

  /** `getX`: a fresh cached value is returned without calling storage;
      otherwise the stale key is dropped, storage is read (`fetched`, its
      outcome after the gate) and a success is cached at `doneAt`. */
  method ReadThrough(cache: ResultCache<Payload>, key: string, now: int, doneAt: int, fetched: Result<Payload, Failure>)
    returns (r: Result<Payload, Failure>)
    modifies cache
    ensures Fresh(old(cache.entries), key, now) ==>
              r == Ok(old(cache.entries)[key].data) && cache.entries == old(cache.entries)
    ensures !Fresh(old(cache.entries), key, now) ==>
              && r == fetched
              && cache.entries == if fetched.Ok? then old(cache.entries)[key := Entry(fetched.value, doneAt)]
                                  else old(cache.entries) - {key}
  {
    var cached := cache.Get(key, now);
    if cached.Some? {
      return Ok(cached.value);
    }
    match fetched {
      case Err(e) =>
        return Err(e);
      case Ok(result) =>
        cache.Set(key, result, doneAt);
        return Ok(result);
    }
  }

  /** Decode every row of a storage read, in storage order. */
  function DecodeAll<R, T>(read: R -> T, rows: seq<R>): (items: seq<T>)
    ensures |items| == |rows|
    ensures forall i :: 0 <= i < |rows| ==> items[i] == read(rows[i])
  {
    seq(|rows|, i requires 0 <= i < |rows| => read(rows[i]))
  }

  function ReadAgents(c: Codec<string>, rows: seq<AgentRow>): seq<Agent> {
    DecodeAll(r => ReadAgent(c, r), rows)
  }

  /** The cache state after a read through `key`. */
  ghost function AfterRead(entries: map<string, Entry<Payload>>, key: string, now: int, doneAt: int,
                           decoded: Result<Payload, Failure>): map<string, Entry<Payload>> {
    if Fresh(entries, key, now) then entries
    else if decoded.Ok? then entries[key := Entry(decoded.value, doneAt)]
    else entries - {key}
  }

  /** A storage read of agent rows, decoded. */
  function DecodedAgents(c: Codec<string>, fetched: Result<seq<AgentRow>, Failure>): Result<Payload, Failure> {
    if fetched.Ok? then Ok(Agents(ReadAgents(c, fetched.value))) else Err(fetched.error)
  }

  /** `getAgents`: read through `agents:<user>:`, decoding capabilities. */
  method GetAgents(cache: ResultCache<Payload>, c: Codec<string>, userId: string, now: int, doneAt: int,
                   fetched: Result<seq<AgentRow>, Failure>)
    returns (r: Result<Payload, Failure>)
    modifies cache
    ensures var key := CacheKey(AgentsOp, userId, None);
            && (Fresh(old(cache.entries), key, now) ==> r == Ok(old(cache.entries)[key].data))
            && (!Fresh(old(cache.entries), key, now) && fetched.Ok? ==> r == Ok(Agents(ReadAgents(c, fetched.value))))
            && (!Fresh(old(cache.entries), key, now) && fetched.Err? ==> r == Err(fetched.error))
            && cache.entries == AfterRead(old(cache.entries), key, now, doneAt, DecodedAgents(c, fetched))
  {
    r := ReadThrough(cache, CacheKey(AgentsOp, userId, None), now, doneAt, DecodedAgents(c, fetched));
  }

  /** `getWorkflows`: read through `workflows:<user>:`, decoding agents and steps. */
  method GetWorkflows(cache: ResultCache<Payload>, ids: Codec<string>, steps: Codec<WorkflowStep>, userId: string,
                      now: int, doneAt: int, fetched: Result<seq<WorkflowRow>, Failure>)
    returns (r: Result<Payload, Failure>)
    modifies cache
    ensures var key := CacheKey(WorkflowsOp, userId, None);
            var decoded := if fetched.Ok? then Ok(Workflows(DecodeAll(w => ReadWorkflow(ids, steps, w), fetched.value)))
                           else Err(fetched.error);
            && r == (if Fresh(old(cache.entries), key, now) then Ok(old(cache.entries)[key].data) else decoded)
            && cache.entries == AfterRead(old(cache.entries), key, now, doneAt, decoded)
  {
    var decoded := if fetched.Ok? then Ok(Workflows(DecodeAll(w => ReadWorkflow(ids, steps, w), fetched.value)))
                   else Err(fetched.error);
    r := ReadThrough(cache, CacheKey(WorkflowsOp, userId, None), now, doneAt, decoded);
  }

  /** `getSystemPrompts`: read through `systemPrompts:<user>:`, decoding tags. */
  method GetSystemPrompts(cache: ResultCache<Payload>, c: Codec<string>, userId: string,
                          now: int, doneAt: int, fetched: Result<seq<SystemPromptRow>, Failure>)
    returns (r: Result<Payload, Failure>)
    modifies cache
    ensures var key := CacheKey(SystemPromptsOp, userId, None);
            var decoded := if fetched.Ok? then Ok(SystemPrompts(DecodeAll(p => ReadSystemPrompt(c, p), fetched.value)))
                           else Err(fetched.error);
            && r == (if Fresh(old(cache.entries), key, now) then Ok(old(cache.entries)[key].data) else decoded)
            && cache.entries == AfterRead(old(cache.entries), key, now, doneAt, decoded)
  {
    var decoded := if fetched.Ok? then Ok(SystemPrompts(DecodeAll(p => ReadSystemPrompt(c, p), fetched.value)))
                   else Err(fetched.error);
    r := ReadThrough(cache, CacheKey(SystemPromptsOp, userId, None), now, doneAt, decoded);
  }

  /** `getProjects`: read through `projects:<user>:`, decoding agents and workflows. */
  method GetProjects(cache: ResultCache<Payload>, c: Codec<string>, userId: string,
                     now: int, doneAt: int, fetched: Result<seq<ProjectRow>, Failure>)
    returns (r: Result<Payload, Failure>)
    modifies cache
    ensures var key := CacheKey(ProjectsOp, userId, None);
            var decoded := if fetched.Ok? then Ok(Projects(DecodeAll(p => ReadProject(c, p), fetched.value)))
                           else Err(fetched.error);
            && r == (if Fresh(old(cache.entries), key, now) then Ok(old(cache.entries)[key].data) else decoded)
            && cache.entries == AfterRead(old(cache.entries), key, now, doneAt, decoded)
  {
    var decoded := if fetched.Ok? then Ok(Projects(DecodeAll(p => ReadProject(c, p), fetched.value)))
                   else Err(fetched.error);
    r := ReadThrough(cache, CacheKey(ProjectsOp, userId, None), now, doneAt, decoded);
  }

  /** `createChatMessage` stores `agentId || null`: an empty id is stored as null. */
  function StoredAgentId(agentId: Option<string>): (stored: Option<string>)
    ensures stored.Some? <==> agentId.Some? && agentId.value != ""
    ensures stored.Some? ==> stored == agentId
  {
    if agentId.Some? && agentId.value != "" then agentId else None
  }

  function Reverse<T>(s: seq<T>): (r: seq<T>)
    ensures |r| == |s|
    ensures forall i :: 0 <= i < |s| ==> r[i] == s[|s| - 1 - i]
  {
    if s == [] then [] else Reverse(s[1..]) + [s[0]]
  }

  predicate NewestFirst(ms: seq<ChatMessage>) {
    forall i, j :: 0 <= i < j < |ms| ==> ms[i].timestamp >= ms[j].timestamp
  }

  predicate OldestFirst(ms: seq<ChatMessage>) {
    forall i, j :: 0 <= i < j < |ms| ==> ms[i].timestamp <= ms[j].timestamp
  }

  /** Storage returns the newest `limit` messages newest first; reversing
      them yields the same messages, oldest first. */
  lemma ReversedHistoryIsChronological(ms: seq<ChatMessage>)
    requires NewestFirst(ms)
    ensures OldestFirst(Reverse(ms))
    ensures multiset(Reverse(ms)) == multiset(ms)
  {
    ReverseKeepsElements(ms);
  }

  lemma {:induction false} ReverseKeepsElements<T>(s: seq<T>)
    ensures multiset(Reverse(s)) == multiset(s)
  {
    if s != [] {
      ReverseKeepsElements(s[1..]);
      assert s == [s[0]] + s[1..];
    }
  }

  /** `getChatMessages`: read through the key with `{limit}`; on a miss
      the newest-first page from storage is returned oldest first. A caller
      that leaves `limit` out gets the source's default, 50. */
  method GetChatMessages(cache: ResultCache<Payload>, userId: string, limit: int, now: int, doneAt: int,
                         fetched: Result<seq<ChatMessage>, Failure>)
    returns (r: Result<Payload, Failure>)
    modifies cache
    ensures var key := CacheKey(ChatMessagesOp, userId, Some(LimitParams(limit)));
            && (Fresh(old(cache.entries), key, now) ==> r == Ok(old(cache.entries)[key].data))
            && (!Fresh(old(cache.entries), key, now) && fetched.Ok? ==> r == Ok(Messages(Reverse(fetched.value))))
            && (!Fresh(old(cache.entries), key, now) && fetched.Err? ==> r == Err(fetched.error))
            && cache.entries == AfterRead(old(cache.entries), key, now, doneAt,
                                          if fetched.Ok? then Ok(Messages(Reverse(fetched.value))) else Err(fetched.error))
  {
    var decoded := if fetched.Ok? then Ok(Messages(Reverse(fetched.value))) else Err(fetched.error);
    r := ReadThrough(cache, CacheKey(ChatMessagesOp, userId, Some(LimitParams(limit))), now, doneAt, decoded);
  }

  // ---------------------------------------------------------------------
  // initializeDefaultData

  /** One default record seeded for a new user: the operation it is created
      through and its name. */
  datatype Seed = Seed(operation: string, name: string)

  /** Four agents, then three system prompts, created one at a time. */
  const DefaultSeeds: seq<Seed> := [
    Seed(AgentsOp, "GPT-4 Turbo"), Seed(AgentsOp, "Claude 3.5 Sonnet"),
    Seed(AgentsOp, "Gemini Pro"), Seed(AgentsOp, "KIMI K2"),
    Seed(SystemPromptsOp, "Code Assistant"), Seed(SystemPromptsOp, "Creative Writer"),
    Seed(SystemPromptsOp, "Data Analyst")]

  /** The number of leading creates that succeeded. */
  function Completed(outcomes: seq<Result<(), Failure>>): (k: nat)
    ensures k <= |outcomes|
    ensures forall i :: 0 <= i < k ==> outcomes[i].Ok?
    ensures k < |outcomes| ==> outcomes[k].Err?
  {
    if outcomes == [] || outcomes[0].Err? then 0 else 1 + Completed(outcomes[1..])
  }

  /** The catch block: a rate-limited failure ends initialisation quietly,
      any other failure propagates. */
  function GiveUpOrThrow(e: Failure): (r: Result<(), Failure>)
    ensures r.Ok? <==> e.status == RequestGate.TooManyRequests
    ensures r.Err? ==> r.error == e
  {
    if e.status == RequestGate.TooManyRequests then Ok(()) else Err(e)
  }

  /** What `getAgents` yields for the guard: the fresh cached list, or the
      decoded storage read. */
  ghost function AgentsRead(entries: map<string, Entry<Payload>>, c: Codec<string>, userId: string, now: int,
                            fetched: Result<seq<AgentRow>, Failure>): Result<Payload, Failure> {
    var key := CacheKey(AgentsOp, userId, None);
    if Fresh(entries, key, now) then Ok(entries[key].data) else DecodedAgents(c, fetched)
  }

  /** The agent and prompt keys never collide with an initialisation marker. */
  lemma KeysAreNotMarkers(op: string, userId: string, params: Option<Params>, other: string)
    requires op == AgentsOp || op == SystemPromptsOp
    ensures CacheKey(op, userId, params) != InitializedKey(other)
  {
    assert CacheKey(op, userId, params)[0] == op[0];
    assert InitializedKey(other)[0] == 'i';
  }

  /** The keys evicted by the first `k` default creates: the user's agent
      list once an agent is created, the prompt list once a prompt is. */
  function SeedEvicted(userId: string, k: nat): (keys: set<string>)
    ensures k >= 1 <==> CacheKey(AgentsOp, userId, None) in keys
    ensures k >= 5 <==> CacheKey(SystemPromptsOp, userId, None) in keys
  {
    var agents := CacheKey(AgentsOp, userId, None);
    var prompts := CacheKey(SystemPromptsOp, userId, None);
    (if k >= 1 then {agents} else {}) + (if k >= 5 then {prompts} else {})
  }

  /** The explicit eviction set is exactly the parameterless keys of the
      seeds created so far. */
  lemma {:induction false} SeedEvictedAreCreatedKeys(userId: string, k: nat)
    requires k <= |DefaultSeeds|
    ensures SeedEvicted(userId, k) == set i | 0 <= i < k :: CacheKey(DefaultSeeds[i].operation, userId, None)
  {
    var created := set i | 0 <= i < k :: CacheKey(DefaultSeeds[i].operation, userId, None);
    assert forall i :: 0 <= i < |DefaultSeeds| ==>
      DefaultSeeds[i].operation == if i < 4 then AgentsOp else SystemPromptsOp;
    if k >= 1 {
      assert CacheKey(DefaultSeeds[0].operation, userId, None) in created;
    }
    if k >= 5 {
      assert CacheKey(DefaultSeeds[4].operation, userId, None) in created;
    }
  }

  /** `initializeDefaultData`: skip when the marker is fresh; mark and stop
      when the user already has agents; otherwise create the default
      records in order (`seeded` holds each create's outcome) and mark only
      when all succeeded. A rate-limited failure anywhere ends quietly. */
  method InitializeDefaultData(cache: ResultCache<Payload>, c: Codec<string>, userId: string, now: int, doneAt: int,
                               fetched: Result<seq<AgentRow>, Failure>, seeded: seq<Result<(), Failure>>, finishedAt: int)
    returns (r: Result<(), Failure>, created: seq<Seed>)
    requires |seeded| == |DefaultSeeds|
    modifies cache
    ensures var marker := InitializedKey(userId);
            var existing := AgentsRead(old(cache.entries) - {marker}, c, userId, now, fetched);
            var read := AfterRead(old(cache.entries) - {marker}, CacheKey(AgentsOp, userId, None), now, doneAt,
                                  DecodedAgents(c, fetched));
            var k := Completed(seeded);
            if Fresh(old(cache.entries), marker, now) then
              r == Ok(()) && created == [] && cache.entries == old(cache.entries)
            else if existing.Err? then
              r == GiveUpOrThrow(existing.error) && created == [] && cache.entries == read
            else if existing.value.Agents? && |existing.value.agents| > 0 then
              r == Ok(()) && created == [] && cache.entries == read[marker := Entry(Initialized, doneAt)]
            else
              && created == DefaultSeeds[..k]
              && (k == |DefaultSeeds| ==> r == Ok(()) && cache.entries == (read - SeedEvicted(userId, k))[marker := Entry(Initialized, finishedAt)])
              && (k < |DefaultSeeds| ==> r == GiveUpOrThrow(seeded[k].error) && cache.entries == read - SeedEvicted(userId, k)
                                         && marker !in cache.entries)
  {
    var marker := InitializedKey(userId);
    created := [];
    var wasMarked := cache.Get(marker, now);
    if wasMarked.Some? {
      return Ok(()), created;
    }
    KeysAreNotMarkers(AgentsOp, userId, None, userId);
    var existing := GetAgents(cache, c, userId, now, doneAt, fetched);
    if existing.Err? {
      return GiveUpOrThrow(existing.error), created;
    }
    if existing.value.Agents? && |existing.value.agents| > 0 {
      cache.Set(marker, Initialized, doneAt);
      return Ok(()), created;
    }
    r, created := SeedDefaults(cache, userId, seeded, finishedAt);
  }

  /** Each default create evicts its own operation's parameterless key. */
  lemma SeedEvictedStep(userId: string, k: nat)
    requires k < |DefaultSeeds|
    ensures SeedEvicted(userId, k + 1) == SeedEvicted(userId, k) + {CacheKey(DefaultSeeds[k].operation, userId, None)}
  {
    assert DefaultSeeds[k].operation == if k < 4 then AgentsOp else SystemPromptsOp;
  }

  /** The seeding part of `initializeDefaultData`: create the default
      records in order, stop at the first failure, and set the marker only
      when every create succeeded. */
  method SeedDefaults(cache: ResultCache<Payload>, userId: string, seeded: seq<Result<(), Failure>>, finishedAt: int)
    returns (r: Result<(), Failure>, created: seq<Seed>)
    requires |seeded| == |DefaultSeeds|
    requires InitializedKey(userId) !in cache.entries
    modifies cache
    ensures var k := Completed(seeded);
            && created == DefaultSeeds[..k]
            && (k == |DefaultSeeds| ==>
                  r == Ok(()) && cache.entries == (old(cache.entries) - SeedEvicted(userId, k))[InitializedKey(userId) := Entry(Initialized, finishedAt)])
            && (k < |DefaultSeeds| ==>
                  r == GiveUpOrThrow(seeded[k].error) && cache.entries == old(cache.entries) - SeedEvicted(userId, k))
  {
    created := [];
    var k := 0;
    while k < |DefaultSeeds|
      invariant 0 <= k <= Completed(seeded)
      invariant created == DefaultSeeds[..k]
      invariant cache.entries == old(cache.entries) - SeedEvicted(userId, k)
    {
      if seeded[k].Err? {
        return GiveUpOrThrow(seeded[k].error), created;
      }
      var done := Create(cache, DefaultSeeds[k].operation, userId, seeded[k]);
      SeedEvictedStep(userId, k);
      created := created + [DefaultSeeds[k]];
      k := k + 1;
    }
    cache.Set(InitializedKey(userId), Initialized, finishedAt);
    r := Ok(());
  }
}