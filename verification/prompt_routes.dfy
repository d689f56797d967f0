/**
 * app/api/prompts/coach/route.ts, app/api/prompts/overseer/route.ts and
 * app/api/prompts/report/route.ts: three copies of one handler pair, each
 * bound to one agent kind. GET reads the stored prompt or the kind's
 * default; POST overwrites the stored prompt with trimmed, non-empty text.
 * None of the three consults a session.
 */
module PromptRoutes {
  import opened Wrappers
  import opened Json
  import opened Domain
  import opened Http
  import opened DataStore

  const PromptEmpty := "Prompt mag niet leeg zijn."
  const SaveFailed := "Prompt opslaan is mislukt."

  /**
   * GET's answer for `kind`: the stored text or the default, `updatedAt`
   * null exactly when nothing is stored, and `isCustom` true exactly when
   * a record exists.
   */
  function View(prompts: map<AgentKind, PromptRecord>, kind: AgentKind): (body: ResponseBody)
    ensures body.PromptBody?
    ensures body.prompt == EffectivePrompt(prompts, kind)
    ensures body.isCustom <==> kind in prompts
    ensures body.updatedAt == (if kind in prompts then Some(prompts[kind].updatedAt) else None)
  {
    var record := Lookup(prompts, kind);
    PromptBody(
      if record.Some? then record.value.content else DefaultRolePrompt(kind),
      if record.Some? then Some(record.value.updatedAt) else None,
      record.Some?)
  }

  /**
   * POST for `kind`, given whether the store write succeeds: an
   * unparseable body, a prompt whose `toString` throws or a failed write
   * answers 500, text that is blank after trimming answers 400, and only
   * those leave the prompts as they were. Success stores the trimmed text
   * under `kind` alone and echoes it with `isCustom: true`.
   */
  function PostStep(kind: AgentKind, body: Body, prompts: map<AgentKind, PromptRecord>, saveOk: bool, now: Timestamp)
    : (out: Outcome<map<AgentKind, PromptRecord>>)
    ensures out.response.status in {200, 400, 500}
    ensures body.Malformed? ==> out == Outcome(ErrorResponse(500, SaveFailed), prompts)
    ensures TrimmedFieldText(body, "prompt").None? ==> out == Outcome(ErrorResponse(500, SaveFailed), prompts)
    ensures TrimmedFieldText(body, "prompt") == Some("") ==> out == Outcome(ErrorResponse(400, PromptEmpty), prompts)
    ensures out.response.status == 200 <==> ValidPrompt(body) && saveOk
    ensures out.response.status == 500 <==> TrimmedFieldText(body, "prompt").None? || (ValidPrompt(body) && !saveOk)
    ensures out.response.status == 500 ==> out.response == ErrorResponse(500, SaveFailed)
    ensures out.response.status != 200 ==> out.state == prompts
    ensures out.response.status == 200 ==>
              var text := TrimmedFieldText(body, "prompt").value;
              && text != ""
              && out.state == prompts[kind := PromptRecord(text, now)]
              && out.response.body == PromptBody(text, Some(now), true)
  {
    match TrimmedFieldText(body, "prompt")
    case None => Outcome(ErrorResponse(500, SaveFailed), prompts)
    case Some(text) =>
      if text == "" then
        Outcome(ErrorResponse(400, PromptEmpty), prompts)
      else if !saveOk then
        Outcome(ErrorResponse(500, SaveFailed), prompts)
      else
        var saved := PromptRecord(text, now);
        Outcome(Response(200, PromptBody(saved.content, Some(saved.updatedAt), true)), prompts[kind := saved])
  }

  /** The body could be read and its trimmed `prompt` is not empty: the store is asked to save it. */
  predicate ValidPrompt(body: Body) {
    var text := TrimmedFieldText(body, "prompt");
    text.Some? && text.value != ""
  }

  /** POST for one kind never changes what GET answers for another kind. */
  lemma PostStepTouchesOnlyKind(kind: AgentKind, other: AgentKind, body: Body,
                                prompts: map<AgentKind, PromptRecord>, saveOk: bool, now: Timestamp)
    requires other != kind
    ensures Lookup(PostStep(kind, body, prompts, saveOk, now).state, other) == Lookup(prompts, other)
    ensures View(PostStep(kind, body, prompts, saveOk, now).state, other) == View(prompts, other)
  {
  }

  /** A successful POST is what the next GET reads back, marked custom. */
  lemma PostThenGet(kind: AgentKind, body: Body, prompts: map<AgentKind, PromptRecord>, now: Timestamp)
    requires ValidPrompt(body)
    ensures View(PostStep(kind, body, prompts, true, now).state, kind)
            == PromptBody(TrimmedFieldText(body, "prompt").value, Some(now), true)
  {
  }

  /** GET for `kind`. */
  method Get(store: Store, kind: AgentKind) returns (r: Response)
    ensures r == Response(200, View(store.prompts, kind))
  {
    var record := store.GetPrompt(kind);
    r := Response(200, PromptBody(
      if record.Some? then record.value.content else DefaultRolePrompt(kind),
      if record.Some? then Some(record.value.updatedAt) else None,
      record.Some?));
  }

  /** POST for `kind`; `saveOk` is whether the store's update call succeeds. */
  method Post(store: Store, kind: AgentKind, body: Body, saveOk: bool, now: Timestamp) returns (r: Response)
    modifies store
    ensures Outcome(r, store.prompts) == PostStep(kind, body, old(store.prompts), saveOk, now)
    ensures store.clients == old(store.clients) && store.feedback == old(store.feedback)
    ensures store.overseerThread == old(store.overseerThread)
  {
    var prompt := TrimmedFieldText(body, "prompt");
    if prompt.None? {
      return ErrorResponse(500, SaveFailed);
    }
    var text := prompt.value;
    if text == "" {
      return ErrorResponse(400, PromptEmpty);
    }
    if !saveOk {
      return ErrorResponse(500, SaveFailed);
    }
    var saved := store.UpdatePrompt(kind, text, now);
    r := Response(200, PromptBody(saved.content, Some(saved.updatedAt), true));
  }

  /** GET /api/prompts/coach. */
  method GetCoachPrompt(store: Store) returns (r: Response)
    ensures r.status == 200 && r.body == View(store.prompts, COACH)
  {
    r := Get(store, COACH);
  }

  /** POST /api/prompts/coach: only the coach prompt can change. */
  method PostCoachPrompt(store: Store, body: Body, saveOk: bool, now: Timestamp) returns (r: Response)
    modifies store
    ensures Outcome(r, store.prompts) == PostStep(COACH, body, old(store.prompts), saveOk, now)
    ensures store.clients == old(store.clients) && store.feedback == old(store.feedback)
    ensures store.overseerThread == old(store.overseerThread)
  {
    r := Post(store, COACH, body, saveOk, now);
  }

  /** GET /api/prompts/overseer. */
  method GetOverseerPrompt(store: Store) returns (r: Response)
    ensures r.status == 200 && r.body == View(store.prompts, OVERSEER)
  {
    r := Get(store, OVERSEER);
  }

  /** POST /api/prompts/overseer: only the overseer prompt can change. */
  method PostOverseerPrompt(store: Store, body: Body, saveOk: bool, now: Timestamp) returns (r: Response)
    modifies store
    ensures Outcome(r, store.prompts) == PostStep(OVERSEER, body, old(store.prompts), saveOk, now)
    ensures store.clients == old(store.clients) && store.feedback == old(store.feedback)
    ensures store.overseerThread == old(store.overseerThread)
  {
    r := Post(store, OVERSEER, body, saveOk, now);
  }

  /** GET /api/prompts/report. */
  method GetReportPrompt(store: Store) returns (r: Response)
    ensures r.status == 200 && r.body == View(store.prompts, REPORT)
  {
    r := Get(store, REPORT);
  }

  /** POST /api/prompts/report: only the report prompt can change. */
  method PostReportPrompt(store: Store, body: Body, saveOk: bool, now: Timestamp) returns (r: Response)
    modifies store
    ensures Outcome(r, store.prompts) == PostStep(REPORT, body, old(store.prompts), saveOk, now)
    ensures store.clients == old(store.clients) && store.feedback == old(store.feedback)
    ensures store.overseerThread == old(store.overseerThread)
  {
    r := Post(store, REPORT, body, saveOk, now);
  }
}
