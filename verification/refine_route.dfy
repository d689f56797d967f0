/**
 * app/api/prompts/refine/route.ts: an administrator asks for the coach or
 * overseer prompt to be rewritten from the latest feedback on that agent;
 * the rewritten text replaces the stored prompt of that kind.
 */
module RefineRoute {
  import opened Wrappers
  import opened Json
  import opened Domain
  import opened Http
  import opened DataStore

  const FeedbackLimit: nat := 10
  const AgentTypeMissing := "Agenttype ontbreekt."
  const NoFeedback := "Er is nog geen feedback beschikbaar voor dit agenttype."
  const RefineFailed := "Prompt herschrijven is mislukt."

  /**
   * `normalizeAgentType`: the strings "COACH" and "OVERSEER" name their
   * kinds; anything else, `undefined` and "REPORT" included, names none.
   */
  function NormalizeAgentType(input: Option<Json>): (kind: Option<AgentKind>)
    ensures kind == Some(COACH) <==> input == Some(JStr("COACH"))
    ensures kind == Some(OVERSEER) <==> input == Some(JStr("OVERSEER"))
    ensures kind != Some(REPORT)
  {
    if input == Some(JStr("COACH")) then Some(COACH)
    else if input == Some(JStr("OVERSEER")) then Some(OVERSEER)
    else None
  }

  /** `(payload as { agentType?: string })?.agentType`, an unparseable body having become null. */
  function AgentTypeField(payload: Body): Option<Json> {
    if payload.Malformed? then None else Field(payload.value, "agentType")
  }

  /**
   * `getBasePrompt`: for the coach and overseer kinds, the prompt in effect
   * (stored text or default), which is also what GET /api/prompts/<kind>
   * shows. Any other kind falls through to the overseer branch.
   */
  function BasePrompt(agentType: AgentKind, prompts: map<AgentKind, PromptRecord>): (base: string)
    ensures agentType != REPORT ==> base == EffectivePrompt(prompts, agentType)
    ensures agentType == REPORT ==> base == EffectivePrompt(prompts, OVERSEER)
  {
    if agentType == COACH then
      (if COACH in prompts then prompts[COACH].content else DefaultRolePrompt(COACH))
    else
      assert agentType != REPORT ==> agentType == OVERSEER;
      (if OVERSEER in prompts then prompts[OVERSEER].content else DefaultRolePrompt(OVERSEER))
  }

  /**
   * `refinePromptWithFeedback`, a language-model call: from the kind, the
   * base prompt and the feedback it returns rewritten text, or `None` when
   * it throws.
   */
  type Refiner = (AgentKind, string, seq<AgentFeedback>) -> Option<string>

  /**
   * POST, given the store's prompts and feedback log, the refiner and
   * whether the prompt update succeeds. Non-administrators get 403; an
   * unparseable body or an unknown agent type 400; no feedback of that kind
   * 400; a failed rewrite or save 500. Only a 200 changes the prompts, and
   * then only the requested kind's entry, to the rewritten text; the
   * report prompt is never touched.
   */
  function RefineStep(session: Option<Session>, payload: Body, prompts: map<AgentKind, PromptRecord>,
                      log: seq<AgentFeedback>, refine: Refiner, saveOk: bool, now: Timestamp)
    : (out: Outcome<map<AgentKind, PromptRecord>>)
    ensures out.response.status in {200, 400, 403, 500}
    ensures out.response.status == 403 <==> !IsAdmin(session)
    ensures !IsAdmin(session) ==> out == Outcome(ErrorResponse(403, NotAuthorized), prompts)
    ensures out.response.status != 200 ==> out.state == prompts
    ensures (IsAdmin(session) && AgentTypeField(payload) !in {Some(JStr("COACH")), Some(JStr("OVERSEER"))})
              ==> out.response == ErrorResponse(400, AgentTypeMissing)
    ensures (IsAdmin(session) && payload.Malformed?) ==> out.response == ErrorResponse(400, AgentTypeMissing)
    ensures (IsAdmin(session) && NormalizeAgentType(AgentTypeField(payload)).Some?
             && (forall f | f in log :: f.agentType != NormalizeAgentType(AgentTypeField(payload)).value))
              ==> out.response == ErrorResponse(400, NoFeedback)
    ensures out.response.status == 500 ==> out.response == ErrorResponse(500, RefineFailed)
    ensures out.response.status == 200 <==>
              && IsAdmin(session)
              && NormalizeAgentType(AgentTypeField(payload)).Some?
              && var kind := NormalizeAgentType(AgentTypeField(payload)).value;
              && var used := RecentFeedback(log, kind, FeedbackLimit);
              && used != []
              && refine(kind, EffectivePrompt(prompts, kind), used).Some?
              && saveOk
    ensures (&& IsAdmin(session)
             && NormalizeAgentType(AgentTypeField(payload)).Some?
             && var kind := NormalizeAgentType(AgentTypeField(payload)).value;
             && var used := RecentFeedback(log, kind, FeedbackLimit);
             && used != []
             && (refine(kind, EffectivePrompt(prompts, kind), used).None? || !saveOk))
              ==> out == Outcome(ErrorResponse(500, RefineFailed), prompts)
    ensures out.response.status == 200 ==>
              && out.response.body.RefinedBody?
              && var kind := out.response.body.agentType;
              && var used := out.response.body.usedFeedback;
              && var text := out.response.body.prompt;
              && kind != REPORT
              && AgentTypeField(payload) == Some(JStr(if kind == COACH then "COACH" else "OVERSEER"))
              && used == RecentFeedback(log, kind, FeedbackLimit)
              && 0 < |used| <= FeedbackLimit
              && refine(kind, EffectivePrompt(prompts, kind), used) == Some(text)
              && saveOk
              && out.response.body.savedAt == now
              && out.state == prompts[kind := PromptRecord(text, now)]
    ensures Lookup(out.state, REPORT) == Lookup(prompts, REPORT)
  {
    if !IsAdmin(session) then
      Outcome(ErrorResponse(403, NotAuthorized), prompts)
    else
      var agentType := NormalizeAgentType(AgentTypeField(payload));
      if agentType.None? then
        Outcome(ErrorResponse(400, AgentTypeMissing), prompts)
      else
        var kind := agentType.value;
        var feedback := RecentFeedback(log, kind, FeedbackLimit);
        if feedback == [] then
          Outcome(ErrorResponse(400, NoFeedback), prompts)
        else
          var refined := refine(kind, BasePrompt(kind, prompts), feedback);
          if refined.None? || !saveOk then
            Outcome(ErrorResponse(500, RefineFailed), prompts)
          else
            var saved := PromptRecord(refined.value, now);
            Outcome(Response(200, RefinedBody(kind, saved.content, saved.updatedAt, feedback)),
                    prompts[kind := saved])
  }

  /** The refiner is never consulted when the request is turned away before the rewrite. */
  lemma RejectedBeforeRefining(session: Option<Session>, payload: Body, prompts: map<AgentKind, PromptRecord>,
                               log: seq<AgentFeedback>, refine1: Refiner, refine2: Refiner, saveOk: bool, now: Timestamp)
    requires RefineStep(session, payload, prompts, log, refine1, saveOk, now).response.status in {400, 403}
    ensures RefineStep(session, payload, prompts, log, refine1, saveOk, now)
            == RefineStep(session, payload, prompts, log, refine2, saveOk, now)
  {
  }

  /** `getBasePrompt` as a store read. */
  method GetBasePrompt(store: Store, agentType: AgentKind) returns (base: string)
    ensures base == BasePrompt(agentType, store.prompts)
  {
    if agentType == COACH {
      var record := store.GetPrompt(COACH);
      base := if record.Some? then record.value.content else DefaultRolePrompt(COACH);
    } else {
      var record := store.GetPrompt(OVERSEER);
      base := if record.Some? then record.value.content else DefaultRolePrompt(OVERSEER);
    }
  }

  /** POST /api/prompts/refine against the store. */
  method Post(store: Store, session: Option<Session>, payload: Body, refine: Refiner, saveOk: bool, now: Timestamp)
    returns (r: Response)
    modifies store
    ensures Outcome(r, store.prompts)
            == RefineStep(session, payload, old(store.prompts), old(store.feedback), refine, saveOk, now)
    ensures store.clients == old(store.clients) && store.feedback == old(store.feedback)
    ensures store.overseerThread == old(store.overseerThread)
  {
    if !IsAdmin(session) {
      return ErrorResponse(403, NotAuthorized);
    }
    var agentType := NormalizeAgentType(AgentTypeField(payload));
    if agentType.None? {
      return ErrorResponse(400, AgentTypeMissing);
    }
    var kind := agentType.value;
    var feedback := store.ListAgentFeedback(kind, FeedbackLimit);
    if feedback == [] {
      return ErrorResponse(400, NoFeedback);
    }
    var basePrompt := GetBasePrompt(store, kind);
    var refined := refine(kind, basePrompt, feedback);
    if refined.None? || !saveOk {
      return ErrorResponse(500, RefineFailed);
    }
    var saved := store.UpdatePrompt(kind, refined.value, now);
    r := Response(200, RefinedBody(kind, saved.content, saved.updatedAt, feedback));
  }
}
