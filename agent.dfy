/**
 * The LLM agent (agent/main_agent.py): choosing the chat model from the
 * settings, turning a stored chat history into prompt messages, and asking
 * the model for a reply. The model call and the role-description file are
 * parameters: `Invoke` gives the content of the model's answer to a message
 * list, and the role description is passed in as text.
 */
module Agent {
  import opened Wrappers
  import opened Text

  /** The three LangChain message classes a history entry can become. */
  datatype Kind = Human | Ai | System

  datatype Message = Message(kind: Kind, content: string)

  /** `ValueError("Unknown role: …")`, naming the lower-cased role that had no entry in the table. */
  datatype AgentError = UnknownRole(key: string)

  /** `role_message_map[key]`, or `None` where the lookup raises `KeyError`. */
  function RoleKind(key: string): (r: Option<Kind>)
    ensures r.Some? <==> key in {"user", "agent", "system"}
    ensures r == Some(Human) <==> key == "user"
    ensures r == Some(Ai) <==> key == "agent"
    ensures r == Some(System) <==> key == "system"
  {
    if key == "user" then Some(Human)
    else if key == "agent" then Some(Ai)
    else if key == "system" then Some(System)
    else None
  }

  /** A role the conversion accepts: its lower-cased form is a key of the table. */
  predicate KnownRole(role: string) {
    RoleKind(Lower(role)).Some?
  }

  /**
   * `messages_to_prompt`: each `(role, content)` entry becomes one message of the
   * kind its lower-cased role names, in order; the first unknown role fails the
   * whole conversion.
   */
  function MessagesToPrompt(history: seq<(string, string)>): (r: Result<seq<Message>, AgentError>)
    ensures r.Ok? <==> forall i :: 0 <= i < |history| ==> KnownRole(history[i].0)
    ensures r.Ok? ==> |r.value| == |history|
    ensures r.Ok? ==> forall i :: 0 <= i < |history| ==>
              r.value[i].content == history[i].1 &&
              RoleKind(Lower(history[i].0)) == Some(r.value[i].kind)
    ensures r.Err? ==>
              exists i :: 0 <= i < |history| && !KnownRole(history[i].0) &&
                          r.error == UnknownRole(Lower(history[i].0)) &&
                          forall j :: 0 <= j < i ==> KnownRole(history[j].0)
  {
    if history == [] then Ok([])
    else
      var role := history[0].0;
      match RoleKind(Lower(role))
      case None => Err(UnknownRole(Lower(role)))
      case Some(kind) =>
        var rest := MessagesToPrompt(history[1..]);
        if rest.Err? then
          ghost var i :| 0 <= i < |history[1..]| && !KnownRole(history[1..][i].0) &&
                        rest.error == UnknownRole(Lower(history[1..][i].0)) &&
                        forall j :: 0 <= j < i ==> KnownRole(history[1..][j].0);
          assert !KnownRole(history[i + 1].0);
          rest
        else
          Ok([Message(kind, history[0].1)] + rest.value)
  }

  /** Roles are matched without regard to case: histories whose roles differ only in letter case convert alike. */
  lemma {:induction false} RolesCaseInsensitive(h1: seq<(string, string)>, h2: seq<(string, string)>)
    requires |h1| == |h2|
    requires forall i :: 0 <= i < |h1| ==> SameUpToCase(h1[i].0, h2[i].0) && h1[i].1 == h2[i].1
    ensures MessagesToPrompt(h1) == MessagesToPrompt(h2)
  {
    if h1 != [] {
      LowerEqual(h1[0].0, h2[0].0);
      RolesCaseInsensitive(h1[1..], h2[1..]);
    }
  }

  /** The roles the conversion accepts are `user`, `agent` and `system`, in any letter case. */
  lemma KnownRoleAnyCase(role: string)
    ensures KnownRole(role) <==>
              SameUpToCase(role, "user") || SameUpToCase(role, "agent") || SameUpToCase(role, "system")
  {
    LowerEqual(role, "user");
    LowerEqual(role, "agent");
    LowerEqual(role, "system");
    assert Lower("user") == "user";
    assert Lower("agent") == "agent";
    assert Lower("system") == "system";
  }

  /** The role `"Agent"` that the chat endpoint stores with each reply maps to an AI message. */
  lemma AgentRoleKnown()
    ensures RoleKind(Lower("Agent")) == Some(Ai)
  {
    assert Lower("Agent") == "agent";
  }

  /** The application settings that choose the chat model. */
  datatype Settings = Settings(
    llmName: string,
    ollamaModel: string,
    ollamaUrl: string,
    openAiModel: string,
    openAiApiKey: string)

  datatype ChatModel =
    | Ollama(model: string, baseUrl: string)
    | OpenAi(modelName: string, apiKey: string)

  /** `MainAgent()`: the agent holds the model its constructor selects. */
  datatype MainAgent = MainAgent(model: ChatModel)

  /** The model selection in `MainAgent.__init__`: Ollama exactly when `LLM_NAME` is `"ollama"`. */
  function NewMainAgent(settings: Settings): (agent: MainAgent)
    ensures agent.model.Ollama? <==> settings.llmName == "ollama"
    ensures agent.model.Ollama? ==> agent.model == Ollama(settings.ollamaModel, settings.ollamaUrl)
    ensures agent.model.OpenAi? ==> agent.model == OpenAi(settings.openAiModel, settings.openAiApiKey)
  {
    if settings.llmName == "ollama" then MainAgent(Ollama(settings.ollamaModel, settings.ollamaUrl))
    else MainAgent(OpenAi(settings.openAiModel, settings.openAiApiKey))
  }

  /** The content of the answer a chat model gives to a message list. */
  type Invoke = (ChatModel, seq<Message>) -> string

  /** The message list `generate_response` sends: the role description as a system message, then the history. */
  function PromptMessages(rolePrompt: string, history: seq<(string, string)>): (r: Result<seq<Message>, AgentError>)
    ensures r.Ok? <==> MessagesToPrompt(history).Ok?
    ensures r.Err? ==> r.error == MessagesToPrompt(history).error
    ensures r.Ok? ==> |r.value| == |history| + 1 && r.value[0] == Message(System, rolePrompt)
    ensures r.Ok? ==> r.value[1..] == MessagesToPrompt(history).value
    ensures r.Ok? ==> forall i :: 0 <= i < |history| ==> r.value[i + 1].content == history[i].1
  {
    match MessagesToPrompt(history)
    case Err(e) => Err(e)
    case Ok(messages) =>
      var r := [Message(System, rolePrompt)] + messages;
      assert forall i :: 0 <= i < |messages| ==> r[i + 1] == messages[i];
      Ok(r)
  }

  /** `generate_response`: the model's answer to the prompt messages, its content returned unchanged. */
  function GenerateResponse(agent: MainAgent, rolePrompt: string, history: seq<(string, string)>, invoke: Invoke)
    : (r: Result<string, AgentError>)
    ensures r.Ok? <==> forall i :: 0 <= i < |history| ==> KnownRole(history[i].0)
    ensures r.Ok? ==> r.value == invoke(agent.model, PromptMessages(rolePrompt, history).value)
    ensures r.Err? ==> r.error == MessagesToPrompt(history).error
  {
    match PromptMessages(rolePrompt, history)
    case Err(e) => Err(e)
    case Ok(messages) => Ok(invoke(agent.model, messages))
  }
}
