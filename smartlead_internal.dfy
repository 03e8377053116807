/**
 * clients/smartlead/internal/index.py: the bearer-token client of the
 * platform's internal REST and GraphQL endpoints. The token is the value
 * of the `SMARTLEAD_INTERNAL_API_TOKEN` environment variable, an input
 * here; a request is modelled as the value that would be handed to
 * `requests.request`, and the HTTP outcome as an input.
 */
module SmartleadInternal {
  import opened Wrappers
  import opened Text
  import opened Http

  const InternalRestBase: string := "https://server.smartlead.ai/api/"
  const InternalGraphQLUrl: string := "https://fe-gql.smartlead.ai/v1/graphql"
  const DeleteLeadsEndpoint: string := "email-campaigns/delete-email-campaign-multiple-leads"
  const RequestTimeout: nat := 30

  type Headers = map<string, string>

  /** A request as handed to `requests.request`. */
  datatype HttpRequest<B> = HttpRequest(verb: string, url: string, headers: Headers, body: Option<B>, timeout: nat)

  /** The headers every internal call starts from. */
  function DefaultHeaders(token: string): Headers
  {
    map["Authorization" := "Bearer " + token, "Content-Type" := "application/json"]
  }

  /**
   * `final_headers.update(headers)` (REST) and `{**base, **(headers or {})}`
   * (GraphQL): the caller's headers win over the defaults, and the defaults
   * the caller did not name are kept.
   */
  function MergeHeaders(base: Headers, extra: Option<Headers>): (r: Headers)
    ensures extra.None? ==> r == base
    ensures extra.Some? ==> r.Keys == base.Keys + extra.value.Keys
    ensures extra.Some? ==> forall k :: k in extra.value ==> r[k] == extra.value[k]
    ensures forall k :: k in base && (extra.None? || k !in extra.value) ==> r[k] == base[k]
  {
    if extra.Some? then base + extra.value else base
  }

  /**
   * `query_smartlead_internal_rest_endpoint` up to the call: a missing or
   * empty token raises before anything is sent; otherwise the request
   * goes to the REST base plus the endpoint, with the merged headers, the
   * body as given and the fixed timeout.
   */
  function PrepareRestRequest<B>(token: Option<string>, endpoint: string, verb: string, body: Option<B>,
                                 headers: Option<Headers>): (r: Result<HttpRequest<B>, PyError>)
    ensures r.Ok? <==> Truthy(token)
    ensures r.Err? ==> r.error == PyError(RuntimeError, "Missing SMARTLEAD_INTERNAL_API_TOKEN")
    ensures r.Ok? ==> && r.value.url == InternalRestBase + endpoint
                      && r.value.verb == Upper(verb)
                      && r.value.body == body
                      && r.value.timeout == RequestTimeout
                      && r.value.headers == MergeHeaders(DefaultHeaders(token.value), headers)
  {
    if !Truthy(token) then Err(PyError(RuntimeError, "Missing SMARTLEAD_INTERNAL_API_TOKEN"))
    else Ok(HttpRequest(Upper(verb), InternalRestBase + endpoint,
                        MergeHeaders(DefaultHeaders(token.value), headers), body, RequestTimeout))
  }

  /**
   * The internal REST helper after the call. On any request exception it
   * tries `response.json()`; an unparsable body, a body that is not an
   * object, and a transport failure (where `response` was never bound)
   * all fall back to `str(e)` and an empty detail.
   */
  function InternalRestCall<J>(endpoint: string, outcome: Outcome<J>): (r: Result<J, PyError>)
    ensures r.Ok? <==> outcome.Success?
    ensures outcome.Success? ==> r.value == outcome.json
    ensures r.Err? ==> r.error.kind == RuntimeError
    ensures outcome.HttpFailure? && outcome.body.JsonObject? ==>
      var f := outcome.body.fields;
      r.error.message == ServerErrorText(endpoint,
        if "error" in f then f["error"] else outcome.exceptionText,
        if "message" in f then f["message"] else "")
    ensures !outcome.Success? && !(outcome.HttpFailure? && outcome.body.JsonObject?) ==>
      r.error.message == ServerErrorText(endpoint, outcome.exceptionText, "")
  {
    match outcome
    case Success(j) => Ok(j)
    case HttpFailure(JsonObject(f), _, e) =>
      Err(PyError(RuntimeError, ServerErrorText(endpoint, FieldOr(f, "error", e), FieldOr(f, "message", ""))))
    case HttpFailure(_, _, e) => Err(PyError(RuntimeError, ServerErrorText(endpoint, e, "")))
    case TransportFailure(_, e) => Err(PyError(RuntimeError, ServerErrorText(endpoint, e, "")))
  }

  // ---------------------------------------------------------------- lead deletion

  /** The JSON body of the bulk delete. */
  datatype DeleteLeadsBody = DeleteLeadsBody(campaignId: string, emailLeadIds: seq<int>, emailLeadMapIds: seq<int>)

  const LengthMismatch: PyError := PyError(ValueError, "emailLeadIds and emailLeadMapIds must have the same length")

  /**
   * `remove_multiple_leads_from_campaign` up to the call: unequal id lists
   * raise a ValueError before the token is even looked at; otherwise the
   * POST carries the campaign id and both lists exactly as passed.
   */
  function RemoveMultipleLeadsRequest(token: Option<string>, campaignId: string, leadIds: seq<int>, leadMapIds: seq<int>)
    : (r: Result<HttpRequest<DeleteLeadsBody>, PyError>)
    ensures |leadIds| != |leadMapIds| ==> r == Err(LengthMismatch)
    ensures r.Ok? <==> |leadIds| == |leadMapIds| && Truthy(token)
    ensures |leadIds| == |leadMapIds| && !Truthy(token) ==> r.Err? && r.error.kind == RuntimeError
    ensures r.Ok? ==> && r.value.verb == "POST"
                      && r.value.url == InternalRestBase + DeleteLeadsEndpoint
                      && r.value.body == Some(DeleteLeadsBody(campaignId, leadIds, leadMapIds))
  {
    if |leadIds| != |leadMapIds| then Err(LengthMismatch)
    else PrepareRestRequest(token, DeleteLeadsEndpoint, "POST", Some(DeleteLeadsBody(campaignId, leadIds, leadMapIds)), None)
  }

  /** The whole deletion: build the request, send it through `send`, interpret the outcome. */
  function RemoveMultipleLeadsFromCampaign<J>(token: Option<string>, campaignId: string, leadIds: seq<int>,
                                              leadMapIds: seq<int>, send: HttpRequest<DeleteLeadsBody> -> Outcome<J>)
    : Result<J, PyError>
  {
    match RemoveMultipleLeadsRequest(token, campaignId, leadIds, leadMapIds)
    case Err(e) => Err(e)
    case Ok(req) => InternalRestCall(DeleteLeadsEndpoint, send(req))
  }

  /**
   * Unequal id lists fail the same way whatever the platform would have
   * answered: nothing is sent.
   */
  lemma LengthMismatchSendsNothing<J>(token: Option<string>, campaignId: string, leadIds: seq<int>, leadMapIds: seq<int>,
                                      send: HttpRequest<DeleteLeadsBody> -> Outcome<J>,
                                      send': HttpRequest<DeleteLeadsBody> -> Outcome<J>)
    requires |leadIds| != |leadMapIds|
    ensures RemoveMultipleLeadsFromCampaign(token, campaignId, leadIds, leadMapIds, send) == Err(LengthMismatch)
    ensures RemoveMultipleLeadsFromCampaign(token, campaignId, leadIds, leadMapIds, send)
         == RemoveMultipleLeadsFromCampaign(token, campaignId, leadIds, leadMapIds, send')
  {
  }

  // ---------------------------------------------------------------- GraphQL

  const GraphQLErrorPrefix: string := "Email Server Error with GraphQL - "
  const MissingGraphQLToken: PyError := PyError(GraphQLError, "Missing SMARTLEAD_INTERNAL_API_TOKEN env var")

  /** `query_smartlead_internal_graphql_endpoint` up to the call. */
  function PrepareGraphQLRequest<B>(token: Option<string>, verb: string, headers: Option<Headers>, body: Option<B>,
                                    timeout: nat): (r: Result<HttpRequest<B>, PyError>)
    ensures r.Ok? <==> Truthy(token)
    ensures r.Err? ==> r.error == MissingGraphQLToken
    ensures r.Ok? ==> && r.value.url == InternalGraphQLUrl
                      && r.value.verb == Upper(verb)
                      && r.value.body == body
                      && r.value.timeout == timeout
                      && r.value.headers == MergeHeaders(DefaultHeaders(token.value), headers)
  {
    if !Truthy(token) then Err(MissingGraphQLToken)
    else Ok(HttpRequest(Upper(verb), InternalGraphQLUrl, MergeHeaders(DefaultHeaders(token.value), headers), body, timeout))
  }

  predicate StartsWithGraphQLPrefix(m: string)
  {
    |GraphQLErrorPrefix| <= |m| && m[..|GraphQLErrorPrefix|] == GraphQLErrorPrefix
  }

  /**
   * The text of the error raised for an HTTP error: with an `error` key in
   * a JSON object body, that error, followed by `" : "` and the message
   * only when a `message` key is present; otherwise the response text, or
   * `str(e)` when the text is empty.
   */
  function GraphQLHttpErrorText(body: ErrorBody, responseText: string, exceptionText: string): (r: string)
    ensures body.JsonObject? && "error" in body.fields && "message" !in body.fields ==>
      r == GraphQLErrorPrefix + body.fields["error"]
    ensures body.JsonObject? && "error" in body.fields && "message" in body.fields ==>
      r == GraphQLErrorPrefix + body.fields["error"] + " : " + body.fields["message"]
    ensures !(body.JsonObject? && "error" in body.fields) ==>
      r == GraphQLErrorPrefix + (if responseText != "" then responseText else exceptionText)
    ensures StartsWithGraphQLPrefix(r)
  {
    match body
    case JsonObject(f) =>
      if "error" in f then
        GraphQLErrorPrefix + f["error"] + (if "message" in f then " : " + f["message"] else "")
      else GraphQLErrorPrefix + (if responseText != "" then responseText else exceptionText)
    case _ => GraphQLErrorPrefix + (if responseText != "" then responseText else exceptionText)
  }

  /** The GraphQL helper after the call: the JSON body, or a GraphQL error with the text above. */
  function GraphQLCall<J>(outcome: Outcome<J>): (r: Result<J, PyError>)
    ensures r.Ok? <==> outcome.Success?
    ensures outcome.Success? ==> r.value == outcome.json
    ensures r.Err? ==> r.error.kind == GraphQLError && StartsWithGraphQLPrefix(r.error.message)
    ensures outcome.TransportFailure? ==>
      var t := outcome.carriedText;
      r.error.message == GraphQLErrorPrefix + (if t.Some? && t.value != "" then t.value else outcome.exceptionText)
  {
    match outcome
    case Success(j) => Ok(j)
    case HttpFailure(body, text, e) => Err(PyError(GraphQLError, GraphQLHttpErrorText(body, text, e)))
    case TransportFailure(t, e) =>
      var m := GraphQLErrorPrefix + (if t.Some? && t.value != "" then t.value else e);
      assert StartsWithGraphQLPrefix(m) by { assert m[..|GraphQLErrorPrefix|] == GraphQLErrorPrefix; }
      Err(PyError(GraphQLError, m))
  }

  // ---------------------------------------------------------------- follow-up percentage

  datatype FollowUpChanges = FollowUpChanges(followUpPercentage: int)

  /** The mutation's variables: `{id, changes: {follow_up_percentage}}`. */
  datatype FollowUpVariables = FollowUpVariables(id: int, changes: FollowUpChanges)

  /** A GraphQL request body. */
  datatype GraphQLBody = GraphQLBody(query: string, variables: FollowUpVariables, operationName: string)

  const UpdateCampaignMutation: string :=
    "mutation updateCampaignById($id: Int!, $changes: email_campaigns_set_input!) { "
    + "update_email_campaigns_by_pk(pk_columns: {id: $id}, _set: $changes) { id __typename } }"

  /**
   * `update_smartlead_campaign_follow_up_percentage` as written: it calls
   * the GraphQL helper with keyword arguments `query`, `variables` and
   * `operation_name`, which that helper does not accept (and without the
   * `method` it requires), so every call raises a TypeError before any
   * token check or request.
   */
  function UpdateFollowUpPercentageAsWritten(token: Option<string>, campaignId: int, percentage: int): (r: Result<(), PyError>)
  {
    Err(PyError(TypeError, "query_smartlead_internal_graphql_endpoint() got an unexpected keyword argument 'query'"))
  }

  /**
   * The evident intent: POST the mutation, with its variables and its
   * operation name, through the GraphQL helper. The percentage is sent as
   * given; nothing checks it lies in 0..100.
   */
  function UpdateFollowUpPercentage(token: Option<string>, campaignId: int, percentage: int)
    : (r: Result<HttpRequest<GraphQLBody>, PyError>)
    ensures r.Ok? <==> Truthy(token)
    ensures r.Err? ==> r.error == MissingGraphQLToken
    ensures r.Ok? ==> && r.value.url == InternalGraphQLUrl && r.value.verb == "POST"
                      && "Authorization" in r.value.headers && r.value.headers["Authorization"] == "Bearer " + token.value
                      && r.value.body.Some?
                      && r.value.body.value.variables.id == campaignId
                      && r.value.body.value.variables.changes.followUpPercentage == percentage
                      && r.value.body.value.operationName == "updateCampaignById"
  {
    var body := GraphQLBody(UpdateCampaignMutation, FollowUpVariables(campaignId, FollowUpChanges(percentage)),
                            "updateCampaignById");
    PrepareGraphQLRequest(token, "POST", None, Some(body), RequestTimeout)
  }

  /**
   * The discrepancy: with a valid token, the call as written fails with a
   * TypeError for every campaign and percentage, where the intended call
   * builds the mutation request.
   */
  lemma UpdateFollowUpAsWrittenAlwaysFails(token: Option<string>, campaignId: int, percentage: int)
    requires Truthy(token)
    ensures UpdateFollowUpPercentageAsWritten(token, campaignId, percentage).Err?
    ensures UpdateFollowUpPercentageAsWritten(token, campaignId, percentage).error.kind == TypeError
    ensures UpdateFollowUpPercentage(token, campaignId, percentage).Ok?
  {
  }
}
