/**
 * app/api/overseer/route.ts: administrators read the overseer conversation
 * thread and send it messages. A missing session is told 401, a
 * non-administrator 403, always before any request body is read.
 */
module OverseerRoute {
  import opened Wrappers
  import opened Json
  import opened Domain
  import opened Http
  import opened DataStore

  const MessageRequired := "Bericht is verplicht."
  const Unavailable := "Overzichtscoach is tijdelijk niet bereikbaar."

  /**
   * The two checks both handlers run first: no session is 401, a session
   * whose role is not ADMIN is 403, and only an administrator passes.
   */
  function AuthGate(session: Option<Session>): (rejection: Option<Response>)
    ensures rejection.None? <==> IsAdmin(session)
    ensures session.None? ==> rejection == Some(ErrorResponse(401, NotAuthorized))
    ensures session.Some? && !IsAdmin(session) ==> rejection == Some(ErrorResponse(403, NotAuthorized))
  {
    if session.None? then Some(ErrorResponse(401, NotAuthorized))
    else if session.value.role != "ADMIN" then Some(ErrorResponse(403, NotAuthorized))
    else None
  }

  /** GET's answer: the whole thread for an administrator, otherwise the gate's rejection. */
  function GetResponse(session: Option<Session>, thread: seq<ThreadMessage>): (r: Response)
    ensures r.status == 200 <==> IsAdmin(session)
    ensures IsAdmin(session) ==> r.body == ThreadBody(thread)
    ensures session.None? ==> r == ErrorResponse(401, NotAuthorized)
    ensures session.Some? && !IsAdmin(session) ==> r == ErrorResponse(403, NotAuthorized)
  {
    match AuthGate(session)
    case Some(rejection) => rejection
    case None => Response(200, ThreadBody(thread))
  }

  method Get(store: Store, session: Option<Session>) returns (r: Response)
    ensures r == GetResponse(session, store.overseerThread)
  {
    var rejection := AuthGate(session);
    if rejection.Some? {
      return rejection.value;
    }
    var thread := store.GetOverseerThread();
    r := Response(200, ThreadBody(thread));
  }

  /**
   * `runOverseerAgent(message)`, a language-model call that also records the
   * exchange in the stored thread. Either it throws, or it returns the reply;
   * both ways it leaves the thread as it wrote it (a failure may have
   * recorded part of the exchange first), and the handler reads that thread
   * back after a reply.
   */
  datatype AgentRun =
    | AgentFailed(threadAfter: seq<ThreadMessage>)
    | AgentReplied(reply: string, responseId: string, usage: Usage, threadAfter: seq<ThreadMessage>)

  type Agent = string -> AgentRun

  /**
   * POST, given the thread and the agent. Authorisation answers 401/403
   * before the try block, so it never turns into 500; inside it, an
   * unparseable body, a message whose `toString` throws or a failing agent
   * is 500, and a blank message 400. Only the agent changes the thread:
   * every answer given before it runs leaves the thread alone.
   */
  function PostStep(session: Option<Session>, body: Body, thread: seq<ThreadMessage>, agent: Agent)
    : (out: Outcome<seq<ThreadMessage>>)
    ensures out.response.status in {200, 400, 401, 403, 500}
    ensures out.response.status == 401 <==> session.None?
    ensures out.response.status == 403 <==> session.Some? && !IsAdmin(session)
    ensures session.None? ==> out == Outcome(ErrorResponse(401, NotAuthorized), thread)
    ensures session.Some? && !IsAdmin(session) ==> out == Outcome(ErrorResponse(403, NotAuthorized), thread)
    ensures (IsAdmin(session) && TrimmedFieldText(body, "message").None?)
              ==> out == Outcome(ErrorResponse(500, Unavailable), thread)
    ensures (IsAdmin(session) && TrimmedFieldText(body, "message") == Some(""))
              ==> out == Outcome(ErrorResponse(400, MessageRequired), thread)
    ensures (IsAdmin(session) && ValidMessage(body) && agent(TrimmedFieldText(body, "message").value).AgentFailed?)
              ==> out == Outcome(ErrorResponse(500, Unavailable), agent(TrimmedFieldText(body, "message").value).threadAfter)
    ensures out.response.status == 500 <==>
              IsAdmin(session)
              && (TrimmedFieldText(body, "message").None?
                  || (ValidMessage(body) && agent(TrimmedFieldText(body, "message").value).AgentFailed?))
    ensures out.response.status == 500 ==> out.response == ErrorResponse(500, Unavailable)
    ensures !(IsAdmin(session) && ValidMessage(body)) ==> out.state == thread
    ensures out.response.status == 200 <==>
              IsAdmin(session) && ValidMessage(body) && agent(TrimmedFieldText(body, "message").value).AgentReplied?
    ensures out.response.status == 200 ==>
              var run := agent(TrimmedFieldText(body, "message").value);
              && out.state == run.threadAfter
              && out.response.body == ReplyBody(run.reply, run.responseId, run.usage, run.threadAfter)
  {
    match AuthGate(session)
    case Some(rejection) => Outcome(rejection, thread)
    case None =>
      match TrimmedFieldText(body, "message")
      case None => Outcome(ErrorResponse(500, Unavailable), thread)
      case Some(message) =>
        if message == "" then
          Outcome(ErrorResponse(400, MessageRequired), thread)
        else
          match agent(message)
          case AgentFailed(after) => Outcome(ErrorResponse(500, Unavailable), after)
          case AgentReplied(reply, responseId, usage, after) =>
            Outcome(Response(200, ReplyBody(reply, responseId, usage, after)), after)
  }

  /** The body could be read and its trimmed `message` is not empty: the agent will run. */
  predicate ValidMessage(body: Body) {
    var message := TrimmedFieldText(body, "message");
    message.Some? && message.value != ""
  }

  /** The agent is never run unless an administrator sent a non-blank message. */
  lemma AgentRunsOnlyForValidMessages(session: Option<Session>, body: Body, thread: seq<ThreadMessage>,
                                      agent1: Agent, agent2: Agent)
    requires !(IsAdmin(session) && ValidMessage(body))
    ensures PostStep(session, body, thread, agent1) == PostStep(session, body, thread, agent2)
  {
  }

  /**
   * POST /api/overseer against the store. The agent's writes to the thread
   * are applied to the store whether it replies or fails.
   */
  method Post(store: Store, session: Option<Session>, body: Body, agent: Agent) returns (r: Response)
    modifies store
    ensures Outcome(r, store.overseerThread) == PostStep(session, body, old(store.overseerThread), agent)
    ensures store.clients == old(store.clients) && store.prompts == old(store.prompts)
    ensures store.feedback == old(store.feedback)
  {
    var rejection := AuthGate(session);
    if rejection.Some? {
      return rejection.value;
    }
    var message := TrimmedFieldText(body, "message");
    if message.None? {
      return ErrorResponse(500, Unavailable);
    }
    if message.value == "" {
      return ErrorResponse(400, MessageRequired);
    }
    var run := agent(message.value);
    store.SetOverseerThread(run.threadAfter);
    if run.AgentFailed? {
      return ErrorResponse(500, Unavailable);
    }
    var thread := store.GetOverseerThread();
    r := Response(200, ReplyBody(run.reply, run.responseId, run.usage, thread));
  }
}
