/** Sessions, responses and the authorisation test shared by the route handlers. */
module Http {
  import opened Wrappers
  import opened Domain

  /** The signed-in user as the authentication provider reports it. */
  datatype Session = Session(userId: string, role: string)

  /** `session && session.user.role === "ADMIN"`. */
  predicate IsAdmin(session: Option<Session>) {
    session.Some? && session.value.role == "ADMIN"
  }

  /** The JSON bodies the routes answer with. */
  datatype ResponseBody =
    | ErrorBody(error: string)
    | ClientsBody(clients: seq<Client>)
    | ClientBody(client: Client)
    | PromptBody(prompt: string, updatedAt: Option<Timestamp>, isCustom: bool)
    // `savedAt` is sent under the key `updatedAt`.
    | RefinedBody(agentType: AgentKind, prompt: string, savedAt: Timestamp, usedFeedback: seq<AgentFeedback>)
    | ThreadBody(thread: seq<ThreadMessage>)
    | ReplyBody(reply: string, responseId: string, usage: Usage, thread: seq<ThreadMessage>)

  /** `NextResponse.json(body, { status })`; the status defaults to 200. */
  datatype Response = Response(status: int, body: ResponseBody)

  function ErrorResponse(status: int, message: string): Response {
    Response(status, ErrorBody(message))
  }

  /** What a handler answers together with the store state it leaves behind. */
  datatype Outcome<S> = Outcome(response: Response, state: S)

  const NotAuthorized := "Niet geautoriseerd"
}
