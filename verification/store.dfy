/**
 * The data store the routes call (lib/data/store), reduced to the state they
 * touch: client profiles, one prompt record per agent kind, the feedback
 * log and the overseer conversation thread.
 */
module DataStore {
  import opened Wrappers
  import opened Domain

  class Store {
    var clients: seq<Client>
    var prompts: map<AgentKind, PromptRecord>
    var feedback: seq<AgentFeedback>
    var overseerThread: seq<ThreadMessage>

    constructor ()
      ensures clients == [] && prompts == map[] && feedback == [] && overseerThread == []
    {
      clients := [];
      prompts := map[];
      feedback := [];
      overseerThread := [];
    }

    /** The stored record of `kind`, if any. */
    function PromptOf(kind: AgentKind): Option<PromptRecord>
      reads this
    {
      Lookup(prompts, kind)
    }

    /** `getClients()`. */
    method GetClients() returns (cs: seq<Client>)
      ensures cs == clients
    {
      cs := clients;
    }

    /** `createClient(input)`: appends one profile with the identifier the store assigns. */
    method CreateClient(id: string, input: ClientInput) returns (c: Client)
      modifies this
      ensures c == ClientFrom(id, input)
      ensures clients == old(clients) + [c]
      ensures prompts == old(prompts) && feedback == old(feedback) && overseerThread == old(overseerThread)
    {
      c := ClientFrom(id, input);
      clients := clients + [c];
    }

    /** `getCoachPrompt()`, `getOverseerPrompt()`, `getReportPrompt()`. */
    method GetPrompt(kind: AgentKind) returns (record: Option<PromptRecord>)
      ensures record == PromptOf(kind)
    {
      record := Lookup(prompts, kind);
    }

    /** `updateCoachPrompt(text)` and its siblings: overwrite the record of one kind. */
    method UpdatePrompt(kind: AgentKind, content: string, now: Timestamp) returns (saved: PromptRecord)
      modifies this
      ensures saved == PromptRecord(content, now)
      ensures prompts == old(prompts)[kind := saved]
      ensures clients == old(clients) && feedback == old(feedback) && overseerThread == old(overseerThread)
    {
      saved := PromptRecord(content, now);
      prompts := prompts[kind := saved];
    }

    /** `listAgentFeedback(kind, limit)`. */
    method ListAgentFeedback(kind: AgentKind, limit: nat) returns (items: seq<AgentFeedback>)
      ensures items == RecentFeedback(feedback, kind, limit)
    {
      items := RecentFeedback(feedback, kind, limit);
    }

    /** `getOverseerThread()`. */
    method GetOverseerThread() returns (thread: seq<ThreadMessage>)
      ensures thread == overseerThread
    {
      thread := overseerThread;
    }

    /** The thread as the overseer agent leaves it after a run. */
    method SetOverseerThread(thread: seq<ThreadMessage>)
      modifies this
      ensures overseerThread == thread
      ensures clients == old(clients) && prompts == old(prompts) && feedback == old(feedback)
    {
      overseerThread := thread;
    }
  }
}
