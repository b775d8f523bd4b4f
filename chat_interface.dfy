/** The chat panel of src/components/ui/chat-interface.tsx: the visible
    transcript, the input box, the selected agent and the loading flag,
    around the awaited calls of a send. Persisting a message and the
    provider's answer are inputs; what was persisted is kept as a log. */
module ChatInterface {
  import opened Wrappers
  import opened Text
  import AIServices
  import DatabaseService

  type ChatMessage = DatabaseService.ChatMessage

  const Apology: string := "Sorry, I encountered an error processing your request. Please try again."
  const NoResponse: string := "No response received"

  datatype AgentEntry = AgentEntry(id: string, name: string, provider: string)

  const AvailableAgents: seq<AgentEntry> := [
    AgentEntry("gpt-4", "GPT-4 Turbo", "OpenAI"), AgentEntry("claude", "Claude 3.5 Sonnet", "Anthropic"),
    AgentEntry("gemini", "Gemini Pro", "Google"), AgentEntry("kimi", "KIMI K2", "Moonshot AI"),
    AgentEntry("llama", "Llama 3 70B", "Meta"), AgentEntry("deepseek", "DeepSeek Coder", "DeepSeek")]

  /** Every agent offered in the picker is routed by `callAgent`. */
  lemma OfferedAgentsAreRouted()
    ensures forall i :: 0 <= i < |AvailableAgents| ==> AIServices.Route(AvailableAgents[i].id).Some?
  {
    assert ToLower("gpt-4") == "gpt-4";
    assert ToLower("claude") == "claude";
    assert ToLower("gemini") == "gemini";
    assert ToLower("kimi") == "kimi";
    assert ToLower("llama") == "llama";
    assert ToLower("deepseek") == "deepseek";
  }

  /** `response.content || response.error || 'No response received'`. */
  function AssistantText(r: AIServices.AIResponse): (text: string)
    ensures text != ""
    ensures r.content != "" ==> text == r.content
    ensures r.content == "" && r.error.Some? && r.error.value != "" ==> text == r.error.value
    ensures r.content == "" && (r.error.None? || r.error.value == "") ==> text == NoResponse
  {
    if r.content != "" then r.content
    else if r.error.Some? && r.error.value != "" then r.error.value
    else NoResponse
  }

  function UserMessage(userId: string, text: string, now: int): ChatMessage {
    DatabaseService.ChatMessage("msg_" + IntToString(now) + "_user", DatabaseService.User, text, None, now, userId)
  }

  function AssistantMessage(userId: string, agent: string, text: string, now: int): ChatMessage {
    DatabaseService.ChatMessage("msg_" + IntToString(now) + "_assistant", DatabaseService.Assistant, text,
                                Some(agent), now, userId)
  }

  function ApologyMessage(userId: string, agent: string, now: int): ChatMessage {
    DatabaseService.ChatMessage("msg_" + IntToString(now) + "_error", DatabaseService.Assistant, Apology,
                                Some(agent), now, userId)
  }

  /** The environment of one send: the clock at each message, whether each
      persist succeeded, and the provider's answer. */
  datatype SendEnv = SendEnv(
    userTime: int, persistUser: bool, outcome: AIServices.FetchOutcome,
    replyTime: int, persistReply: bool, errorTime: int)

  /** The messages a send appends after the user's: the reply, the apology,
      or both when only the reply's persist failed. */
  function Followers(userId: string, agent: string, env: SendEnv): (tail: seq<ChatMessage>)
    ensures 1 <= |tail| <= 2
    ensures forall k :: 0 <= k < |tail| ==> tail[k].role == DatabaseService.Assistant && tail[k].agentId == Some(agent)
  {
    if !env.persistUser then [ApologyMessage(userId, agent, env.errorTime)]
    else match AIServices.CallAgent(agent, env.outcome)
      case Err(_) => [ApologyMessage(userId, agent, env.errorTime)]
      case Ok(response) =>
        var reply := AssistantMessage(userId, agent, AssistantText(response), env.replyTime);
        if env.persistReply then [reply] else [reply, ApologyMessage(userId, agent, env.errorTime)]
  }

  /** The messages a send stores: the user's when its persist succeeds, and
      the reply when the agent answered and the reply's persist succeeds.
      The apology is never stored. */
  function Stored(user: ChatMessage, agent: string, env: SendEnv): (saved: seq<ChatMessage>)
    ensures saved == [] <==> !env.persistUser
    ensures |saved| > 0 ==> saved[0] == user && |saved| <= 2
    ensures |saved| == 2 ==> saved[1].id == "msg_" + IntToString(env.replyTime) + "_assistant"
  {
    if !env.persistUser then []
    else match AIServices.CallAgent(agent, env.outcome)
      case Err(_) => [user]
      case Ok(response) =>
        var reply := AssistantMessage(user.userId, agent, AssistantText(response), env.replyTime);
        [user] + (if env.persistReply then [reply] else [])
  }

  class ChatSession {
    const userId: string
    var messages: seq<ChatMessage>
    var input: string
    var selectedAgent: string
    var isLoading: bool
    /** The messages stored so far, in order. */
    var persisted: seq<ChatMessage>

    constructor (userId: string)
      ensures this.userId == userId && messages == [] && input == "" && selectedAgent == "gpt-4"
      ensures !isLoading && persisted == []
    {
      this.userId := userId;
      messages := [];
      input := "";
      selectedAgent := "gpt-4";
      isLoading := false;
      persisted := [];
    }

    /** `db.createChatMessage`: awaited only while a send is in flight, with
        the input cleared and the message already on screen. */
    method Persist(m: ChatMessage, succeeds: bool) returns (ok: bool)
      requires isLoading && input == "" && m in messages
      modifies this
      ensures ok == succeeds
      ensures persisted == old(persisted) + (if succeeds then [m] else [])
      ensures messages == old(messages) && input == old(input) && isLoading == old(isLoading)
      ensures selectedAgent == old(selectedAgent)
    {
      if succeeds {
        persisted := persisted + [m];
      }
      return succeeds;
    }

    /** `AIService.callAgent`: awaited only while a send is in flight. */
    method AskAgent(text: string, outcome: AIServices.FetchOutcome) returns (r: Result<AIServices.AIResponse, string>)
      requires isLoading && input == ""
      ensures r == AIServices.CallAgent(selectedAgent, outcome)
    {
      r := AIServices.CallAgent(selectedAgent, outcome);
    }

    /** `sendMessage`. Nothing happens for a blank input or while a send is
        in flight. Otherwise the trimmed input is shown as the user's
        message and the input is cleared; then the rest of the send runs.
        The loading flag is cleared on every path. */
    method SendMessage(env: SendEnv)
      modifies this
      ensures selectedAgent == old(selectedAgent)
      ensures AllSpace(old(input)) || old(isLoading) ==>
                messages == old(messages) && input == old(input) && isLoading == old(isLoading)
                && persisted == old(persisted)
      ensures !AllSpace(old(input)) && !old(isLoading) ==>
                var user := UserMessage(userId, Trim(old(input)), env.userTime);
                && messages == old(messages) + [user] + Followers(userId, selectedAgent, env)
                && persisted == old(persisted) + Stored(user, selectedAgent, env)
                && input == "" && !isLoading
    {
      TrimEmptyIffAllSpace(input);
      if Trim(input) == "" || isLoading {
        return;
      }
      var user := UserMessage(userId, Trim(input), env.userTime);
      messages := messages + [user];
      input := "";
      isLoading := true;
      Respond(user, env);
      isLoading := false;
    }

    /** The awaited part of a send, with the loading flag set: persist the
        user message, ask the agent, show and persist its reply. A failing
        step appends the apology and ends the send. */
    method Respond(user: ChatMessage, env: SendEnv)
      requires isLoading && input == "" && user in messages && user.userId == userId
      modifies this
      ensures messages == old(messages) + Followers(userId, selectedAgent, env)
      ensures persisted == old(persisted) + Stored(user, selectedAgent, env)
      ensures input == old(input) && isLoading == old(isLoading) && selectedAgent == old(selectedAgent)
    {
      var saved := Persist(user, env.persistUser);
      if !saved {
        messages := messages + [ApologyMessage(userId, selectedAgent, env.errorTime)];
        return;
      }
      var response := AskAgent(user.content, env.outcome);
      if response.Err? {
        messages := messages + [ApologyMessage(userId, selectedAgent, env.errorTime)];
        return;
      }
      var reply := AssistantMessage(userId, selectedAgent, AssistantText(response.value), env.replyTime);
      messages := messages + [reply];
      saved := Persist(reply, env.persistReply);
      if !saved {
        messages := messages + [ApologyMessage(userId, selectedAgent, env.errorTime)];
      }
    }

    /** `clearChat`: the visible transcript only. */
    method ClearChat()
      modifies this
      ensures messages == [] && persisted == old(persisted)
      ensures input == old(input) && isLoading == old(isLoading) && selectedAgent == old(selectedAgent)
    {
      messages := [];
    }
  }

  /** How a send ends. A failed user persist or an unknown agent shows
      only the apology; otherwise the agent's reply is shown, and stored
      exactly when the apology does not follow it. */
  lemma {:induction false} SendOutcomes(user: ChatMessage, agent: string, env: SendEnv)
    ensures var tail := Followers(user.userId, agent, env);
            var saved := Stored(user, agent, env);
            && (!env.persistUser ==>
                  tail == [ApologyMessage(user.userId, agent, env.errorTime)] && saved == [])
            && (env.persistUser && AIServices.Route(agent).None? ==>
                  tail == [ApologyMessage(user.userId, agent, env.errorTime)] && saved == [user])
            && (env.persistUser && AIServices.Route(agent).Some? ==>
                  && tail[0].content
                     == AssistantText(AIServices.CallProvider(AIServices.Route(agent).value, None, env.outcome))
                  && tail[0].id == "msg_" + IntToString(env.replyTime) + "_assistant"
                  && (env.persistReply ==> |tail| == 1 && saved == [user, tail[0]])
                  && (!env.persistReply ==>
                        tail == [tail[0], ApologyMessage(user.userId, agent, env.errorTime)] && saved == [user]))
  {
  }

  /** A provider that answers with an error status still produces a reply
      bubble: the in-band error text, not the apology. */
  lemma ProviderErrorIsShownAsReply(user: ChatMessage, env: SendEnv)
    requires env.persistUser && env.persistReply
    requires env.outcome.Responded? && env.outcome.status == 500
    ensures Followers(user.userId, "claude", env)[0].content == "Claude API error: 500"
  {
    ClaudeRoute();
    ClaudeErrorText(env.outcome);
    var r := AIServices.CallAgent("claude", env.outcome);
    assert r == Ok(AIServices.CallProvider(AIServices.Claude, None, env.outcome));
    assert Followers(user.userId, "claude", env)[0].content == AssistantText(r.value);
  }

  lemma ClaudeRoute()
    ensures AIServices.Route("claude") == Some(AIServices.Claude)
  {
    assert ToLower("claude") == "claude";
  }

  lemma ClaudeErrorText(outcome: AIServices.FetchOutcome)
    requires outcome.Responded? && outcome.status == 500
    ensures AssistantText(AIServices.CallProvider(AIServices.Claude, None, outcome)) == "Claude API error: 500"
  {
    assert NatToString(5) == "5";
    assert NatToString(50) == "50";
    assert IntToString(500) == "500";
    assert AIServices.Label(AIServices.Claude) + " API error: " + "500" == "Claude API error: 500";
  }
}
