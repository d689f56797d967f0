/**
 * app/api/clients/route.ts: listing client profiles, and creating one from
 * an administrator's request after validating the payload, filtering the
 * goal list and defaulting the optional fields.
 */
module ClientsRoute {
  import opened Wrappers
  import opened Text
  import opened Json
  import opened Domain
  import opened Http
  import opened DataStore

  const InvalidRequest := "Ongeldig verzoek"
  const NameRequired := "Naam is verplicht"

  /** GET: every stored client, in store order; no session is consulted. */
  method Get(store: Store) returns (r: Response)
    ensures r == Response(200, ClientsBody(store.clients))
  {
    var clients := store.GetClients();
    r := Response(200, ClientsBody(clients));
  }

  /** `!payload || typeof payload !== "object"`. */
  predicate PayloadRejected(payload: Json) {
    !Truthy(payload) || TypeOf(payload) != "object"
  }

  /** `!name || typeof name !== "string" || !name.trim()`. */
  predicate NameRejected(name: Option<Json>) {
    || name.None?
    || !Truthy(name.value)
    || TypeOf(name.value) != "string"
    || Trim(name.value.s) == ""
  }

  /** The filter's test: `typeof goal === "string" && goal.trim().length > 0`. */
  predicate IsGoal(goal: Json) {
    TypeOf(goal) == "string" && |Trim(goal.s)| > 0
  }

  /**
   * `goals.filter(IsGoal)`: keeps exactly the string elements that are not
   * blank, unchanged (not trimmed).
   */
  function FilterGoals(goals: seq<Json>): (kept: seq<string>)
    ensures |kept| <= |goals|
    ensures forall g :: g in kept <==> JStr(g) in goals && !IsBlank(g)
  {
    if goals == [] then []
    else
      var rest := FilterGoals(goals[1..]);
      assert goals == [goals[0]] + goals[1..];
      (if IsGoal(goals[0]) then [goals[0].s] else []) + rest
  }

  /** Filtering distributes over concatenation, so the kept goals keep their relative order. */
  lemma {:induction false} FilterGoalsAppend(a: seq<Json>, b: seq<Json>)
    ensures FilterGoals(a + b) == FilterGoals(a) + FilterGoals(b)
  {
    if a == [] {
      assert a + b == b;
    } else {
      assert (a + b)[1..] == a[1..] + b;
      FilterGoalsAppend(a[1..], b);
    }
  }

  /** The goals as the JSON strings they were received as. */
  function AsJson(goals: seq<string>): (js: seq<Json>)
    ensures |js| == |goals|
    ensures forall i | 0 <= i < |goals| :: js[i] == JStr(goals[i])
  {
    if goals == [] then [] else [JStr(goals[0])] + AsJson(goals[1..])
  }

  /** Normalising already normalised goals gives them back unchanged. */
  lemma {:induction false} FilterGoalsIdempotent(goals: seq<Json>)
    ensures FilterGoals(AsJson(FilterGoals(goals))) == FilterGoals(goals)
  {
    KeptGoalsSurvive(FilterGoals(goals));
  }

  lemma {:induction false} KeptGoalsSurvive(goals: seq<string>)
    requires forall g | g in goals :: !IsBlank(g)
    ensures FilterGoals(AsJson(goals)) == goals
  {
    if goals != [] {
      var js := AsJson(goals);
      assert js[1..] == AsJson(goals[1..]);
      KeptGoalsSurvive(goals[1..]);
      assert goals[0] in goals;
    }
  }

  /** `Array.isArray(goals) ? goals.filter(...) : []`. */
  function NormalizeGoals(goals: Option<Json>): (normalized: seq<string>)
    ensures !(goals.Some? && goals.value.JArr?) ==> normalized == []
    ensures goals.Some? && goals.value.JArr? ==> normalized == FilterGoals(goals.value.items)
    ensures forall g | g in normalized :: !IsBlank(g) && JStr(g) in goals.value.items
  {
    if goals.Some? && goals.value.JArr? then FilterGoals(goals.value.items) else []
  }

  /** `typeof field === "string" ? field : fallback`. */
  function TextOr(field: Option<Json>, fallback: string): string {
    if field.Some? && field.value.JStr? then field.value.s else fallback
  }

  /** `typeof field === "string" ? field : undefined`. */
  function OptionalText(field: Option<Json>): Option<string> {
    if field.Some? && field.value.JStr? then Some(field.value.s) else None
  }

  /** The payload has a string `name` that is not blank. */
  predicate HasName(payload: Json) {
    var name := Field(payload, "name");
    name.Some? && name.value.JStr? && !IsBlank(name.value.s)
  }

  /**
   * The validation of POST, up to the `createClient` call: either the
   * profile to create or the rejection to answer with. Only an
   * administrator gets past 403; only a JSON object with a non-blank string
   * name yields a profile; the name is kept as sent, goals are normalised,
   * and the optional fields fall back to "" or undefined.
   */
  function Validate(session: Option<Session>, payload: Body): (r: Result<ClientInput, Response>)
    ensures !IsAdmin(session) ==> r == Failure(ErrorResponse(403, NotAuthorized))
    ensures (IsAdmin(session) && !(payload.Parsed? && (payload.value.JObj? || payload.value.JArr?)))
              ==> r == Failure(ErrorResponse(400, InvalidRequest))
    ensures (IsAdmin(session) && payload.Parsed? && (payload.value.JObj? || payload.value.JArr?) && !HasName(payload.value))
              ==> r == Failure(ErrorResponse(400, NameRequired))
    ensures r.Success? <==> IsAdmin(session) && payload.Parsed? && payload.value.JObj? && HasName(payload.value)
    ensures r.Success? ==>
              var fields := payload.value.fields;
              && r.value.name == fields["name"].s
              && r.value.goals == NormalizeGoals(Field(payload.value, "goals"))
              && r.value.focusArea == (if "focusArea" in fields && fields["focusArea"].JStr? then fields["focusArea"].s else "")
              && r.value.summary == (if "summary" in fields && fields["summary"].JStr? then fields["summary"].s else "")
              && r.value.avatarUrl == (if "avatarUrl" in fields && fields["avatarUrl"].JStr? then Some(fields["avatarUrl"].s) else None)
  {
    if !IsAdmin(session) then
      Failure(ErrorResponse(403, NotAuthorized))
    else
      // `request.json().catch(() => null)`
      var value := if payload.Malformed? then JNull else payload.value;
      if PayloadRejected(value) then
        Failure(ErrorResponse(400, InvalidRequest))
      else if NameRejected(Field(value, "name")) then
        Failure(ErrorResponse(400, NameRequired))
      else
        Success(ClientInput(
          Field(value, "name").value.s,
          TextOr(Field(value, "focusArea"), ""),
          TextOr(Field(value, "summary"), ""),
          NormalizeGoals(Field(value, "goals")),
          OptionalText(Field(value, "avatarUrl"))))
  }

  /**
   * POST: a rejection leaves the client list as it was; an accepted payload
   * appends exactly one client, built from the validated fields, and
   * answers 201 with it. Nothing else in the store changes.
   */
  method Post(store: Store, session: Option<Session>, payload: Body, newId: string) returns (r: Response)
    modifies store
    ensures match Validate(session, payload)
      case Failure(rejection) => r == rejection && store.clients == old(store.clients)
      case Success(input) =>
        && r == Response(201, ClientBody(ClientFrom(newId, input)))
        && store.clients == old(store.clients) + [ClientFrom(newId, input)]
    ensures store.prompts == old(store.prompts) && store.feedback == old(store.feedback)
    ensures store.overseerThread == old(store.overseerThread)
  {
    match Validate(session, payload)
    case Failure(rejection) =>
      r := rejection;
    case Success(input) =>
      var client := store.CreateClient(newId, input);
      r := Response(201, ClientBody(client));
  }
}
