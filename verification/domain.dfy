/** The records the routes read and write through the data store. */
module Domain {
  import opened Wrappers

  /** Timestamps are opaque instants supplied by the store. */
  type Timestamp = int

  /** The agent kinds that own an editable role prompt. */
  datatype AgentKind = COACH | OVERSEER | REPORT

  /** The current prompt text of one agent kind and when it was last written. */
  datatype PromptRecord = PromptRecord(content: string, updatedAt: Timestamp)

  /** The fields a new client profile is created with. */
  datatype ClientInput = ClientInput(
    name: string,
    focusArea: string,
    summary: string,
    goals: seq<string>,
    avatarUrl: Option<string>)

  /** A stored client profile; `id` is assigned by the store. */
  datatype Client = Client(
    id: string,
    name: string,
    focusArea: string,
    summary: string,
    goals: seq<string>,
    avatarUrl: Option<string>)

  function ClientFrom(id: string, input: ClientInput): Client {
    Client(id, input.name, input.focusArea, input.summary, input.goals, input.avatarUrl)
  }

  /** A critique of one agent message, kept per agent kind. */
  datatype AgentFeedback = AgentFeedback(
    id: string,
    agentType: AgentKind,
    feedback: string,
    messageContent: string)

  /** One entry of the overseer conversation thread. */
  datatype ThreadMessage = ThreadMessage(role: string, content: string)

  /** Token usage reported by the language model. */
  datatype Usage = Usage(inputTokens: nat, outputTokens: nat)

  /**
   * The compiled-in role prompts DEFAULT_COACH_ROLE_PROMPT,
   * DEFAULT_OVERSEER_ROLE_PROMPT and DEFAULT_REPORT_ROLE_PROMPT. Their text
   * lives in lib/agents/prompts.ts, which is not part of this model; the
   * stand-ins only keep the three apart.
   */
  function DefaultRolePrompt(kind: AgentKind): string {
    match kind
    case COACH => "DEFAULT_COACH_ROLE_PROMPT"
    case OVERSEER => "DEFAULT_OVERSEER_ROLE_PROMPT"
    case REPORT => "DEFAULT_REPORT_ROLE_PROMPT"
  }

  /** The stored prompt record of `kind`, or `None` when none was ever saved. */
  function Lookup(prompts: map<AgentKind, PromptRecord>, kind: AgentKind): Option<PromptRecord> {
    if kind in prompts then Some(prompts[kind]) else None
  }

  /** `record?.content ?? DEFAULT_<KIND>_ROLE_PROMPT`: the prompt text in effect for `kind`. */
  function EffectivePrompt(prompts: map<AgentKind, PromptRecord>, kind: AgentKind): string {
    match Lookup(prompts, kind)
    case Some(record) => record.content
    case None => DefaultRolePrompt(kind)
  }

  /** The feedback entries of `kind`, in the order they were recorded. */
  function FeedbackOfKind(log: seq<AgentFeedback>, kind: AgentKind): (r: seq<AgentFeedback>)
    ensures |r| <= |log|
    ensures forall f | f in r :: f in log && f.agentType == kind
    ensures forall f | f in log && f.agentType == kind :: f in r
  {
    if log == [] then []
    else
      var last := log[|log| - 1];
      var prefix := FeedbackOfKind(log[..|log| - 1], kind);
      assert log == log[..|log| - 1] + [last];
      prefix + (if last.agentType == kind then [last] else [])
  }

  /**
   * `listAgentFeedback(kind, limit)`: at most `limit` of the most recently
   * recorded feedback entries of `kind`. It is empty exactly when there is no
   * feedback of that kind (for a positive limit).
   */
  function RecentFeedback(log: seq<AgentFeedback>, kind: AgentKind, limit: nat): (r: seq<AgentFeedback>)
    ensures |r| <= limit
    ensures forall f | f in r :: f in log && f.agentType == kind
    ensures limit > 0 ==> (r == [] <==> forall f | f in log :: f.agentType != kind)
  {
    var all := FeedbackOfKind(log, kind);
    assert all != [] ==> all[0] in all;
    if |all| <= limit then all
    else
      assert limit > 0 ==> all[|all| - limit] in all;
      all[|all| - limit..]
  }
}
