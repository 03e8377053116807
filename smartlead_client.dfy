/**
 * clients/smartlead/index.py: the public REST client of the campaign
 * platform. Each call's HTTP outcome (and, where the source validates a
 * payload, the validation verdict) is an input; the functions model what
 * the client does with it.
 */
module SmartleadClient {
  import opened Wrappers
  import opened Text
  import opened Schema
  import opened Http

  const SmartleadApi: string := "https://server.smartlead.ai/api/v1/"

  /** A query-string value. */
  datatype Param = IntParam(i: int) | StrParam(s: string)

  type Params = map<string, Param>

  // ---------------------------------------------------------------- query_smartlead

  /** The parameters `query_smartlead` sends: the caller's, with `api_key` always set to the configured key. */
  function WithApiKey(params: Params, apiKey: string): (r: Params)
    ensures r.Keys == params.Keys + {"api_key"}
    ensures r["api_key"] == StrParam(apiKey)
    ensures forall k :: k in params && k != "api_key" ==> r[k] == params[k]
  {
    params["api_key" := StrParam(apiKey)]
  }

  /** A Python dict of query parameters, which `query_smartlead` may update in place. */
  class ParamDict {
    var entries: Params

    constructor (entries: Params)
      ensures this.entries == entries
    {
      this.entries := entries;
    }
  }

  /**
   * `params = query_params or {}; params["api_key"] = ...`: a non-empty
   * caller dict is itself updated (the caller sees the key afterwards); a
   * missing or empty one is replaced by a fresh dict and left as it was.
   */
  method PrepareQueryParams(caller: ParamDict?, apiKey: string) returns (p: ParamDict)
    modifies caller
    ensures caller != null && old(caller.entries) != map[] ==> p == caller
    ensures caller == null || old(caller.entries) == map[] ==> fresh(p)
    ensures p.entries == WithApiKey(if caller != null then old(caller.entries) else map[], apiKey)
    ensures caller != null && p != caller ==> caller.entries == old(caller.entries)
  {
    if caller != null && caller.entries != map[] {
      p := caller;
    } else {
      p := new ParamDict(map[]);
    }
    p.entries := p.entries["api_key" := StrParam(apiKey)];
  }

  /**
   * `query_smartlead` after the transport: the JSON body on success;
   * otherwise the exception it raises. An HTTP error folds the body's
   * `error` (default `str(e)`) and `message` (default `""`) into one text;
   * a body that is JSON but not an object makes `.get` raise an
   * AttributeError that escapes unwrapped; a transport error gives the
   * endpoint and `str(e)` only.
   */
  function QuerySmartlead<J>(endpoint: string, outcome: Outcome<J>): (r: Result<J, PyError>)
    ensures r.Ok? <==> outcome.Success?
    ensures outcome.Success? ==> r.value == outcome.json
    ensures outcome.HttpFailure? && outcome.body.NotJson? ==>
      r.error == PyError(Exception, ServerErrorText(endpoint, outcome.exceptionText, ""))
    ensures outcome.HttpFailure? && outcome.body.JsonObject? ==>
      var f := outcome.body.fields;
      && r.error.kind == Exception
      && r.error.message == ServerErrorText(endpoint,
           if "error" in f then f["error"] else outcome.exceptionText,
           if "message" in f then f["message"] else "")
    ensures outcome.HttpFailure? && outcome.body.JsonOther? ==> r.error.kind == AttributeError
    ensures outcome.TransportFailure? ==>
      r.error == PyError(Exception, ServerErrorPrefix + endpoint + " - " + outcome.exceptionText)
  {
    match outcome
    case Success(j) => Ok(j)
    case HttpFailure(NotJson, _, e) => Err(PyError(Exception, ServerErrorText(endpoint, e, "")))
    case HttpFailure(JsonObject(f), _, e) =>
      Err(PyError(Exception, ServerErrorText(endpoint, FieldOr(f, "error", e), FieldOr(f, "message", ""))))
    case HttpFailure(JsonOther(t), _, _) =>
      Err(PyError(AttributeError, "'" + t + "' object has no attribute 'get'"))
    case TransportFailure(_, e) => Err(PyError(Exception, ServerErrorPrefix + endpoint + " - " + e))
  }

  // ---------------------------------------------------------------- payload validation

  /** The verdict of `Model.model_validate` on one JSON value. */
  datatype Validated<T> = Valid(value: T) | Invalid(details: string)

  /** A JSON response that should be a list: either it is not (its `type()` and text), or its items. */
  datatype ListPayload<T> = NotAList(typeText: string, text: string) | Items(items: seq<Validated<T>>)

  /**
   * `[Model.model_validate(item) for item in result]`: all values when every
   * item validates, otherwise the details of the first item that does not
   * (the comprehension stops there).
   */
  function ValidateAll<T>(items: seq<Validated<T>>): (r: Result<seq<T>, string>)
    ensures r.Ok? <==> forall i :: 0 <= i < |items| ==> items[i].Valid?
    ensures r.Ok? ==> |r.value| == |items| && forall i :: 0 <= i < |items| ==> r.value[i] == items[i].value
    ensures r.Err? ==> exists i :: 0 <= i < |items| && items[i] == Invalid(r.error)
                                   && forall j :: 0 <= j < i ==> items[j].Valid?
  {
    if items == [] then Ok([])
    else match items[0]
      case Invalid(d) => Err(d)
      case Valid(v) =>
        match ValidateAll(items[1..])
        case Ok(vs) => Ok([v] + vs)
        case Err(d) =>
          ghost var i :| 0 <= i < |items[1..]| && items[1..][i] == Invalid(d)
                         && forall j :: 0 <= j < i ==> items[1..][j].Valid?;
          assert items[i + 1] == Invalid(d);
          Err(d)
  }

  function ValidateListResponse<T>(response: Result<ListPayload<T>, PyError>, notListText: string, invalidText: string)
    : Result<seq<T>, PyError>
  {
    match response
    case Err(e) => Err(e)
    case Ok(NotAList(ty, text)) => Err(PyError(RuntimeError, notListText + ty + "): " + text))
    case Ok(Items(items)) =>
      match ValidateAll(items)
      case Ok(vs) => Ok(vs)
      case Err(d) => Err(PyError(RuntimeError, invalidText + d))
  }

  /**
   * `get_campaigns()`: the transport's error propagates; a response that is
   * not a list is a RuntimeError; otherwise every item must validate, and
   * the campaigns come back in response order.
   */
  function GetCampaigns(response: Result<ListPayload<Campaign>, PyError>): (r: Result<seq<Campaign>, PyError>)
    ensures response.Err? ==> r == Err(response.error)
    ensures response.Ok? && response.value.NotAList? ==>
      r == Err(PyError(RuntimeError, "Unexpected Smartlead response (expected list, got "
                                     + response.value.typeText + "): " + response.value.text))
    ensures r.Ok? <==> response.Ok? && response.value.Items?
                       && forall i :: 0 <= i < |response.value.items| ==> response.value.items[i].Valid?
    ensures r.Ok? ==> |r.value| == |response.value.items|
                      && forall i :: 0 <= i < |r.value| ==> r.value[i] == response.value.items[i].value
    ensures r.Err? && response.Ok? ==> r.error.kind == RuntimeError
  {
    ValidateListResponse(response, "Unexpected Smartlead response (expected list, got ",
                         "Smartlead campaign schema validation failed:\n")
  }

  /** `get_campaign_sequences(campaign_id)`: the same list check, with its own texts. */
  function GetCampaignSequences(campaignId: int, response: Result<ListPayload<CampaignSequence>, PyError>)
    : (r: Result<seq<CampaignSequence>, PyError>)
    ensures response.Err? ==> r == Err(response.error)
    ensures response.Ok? && response.value.NotAList? ==>
      r == Err(PyError(RuntimeError, "Unexpected Smartlead response for sequences (expected list, got "
                                     + response.value.typeText + "): " + response.value.text))
    ensures r.Ok? <==> response.Ok? && response.value.Items?
                       && forall i :: 0 <= i < |response.value.items| ==> response.value.items[i].Valid?
    ensures r.Ok? ==> |r.value| == |response.value.items|
                      && forall i :: 0 <= i < |r.value| ==> r.value[i] == response.value.items[i].value
    ensures r.Err? && response.Ok? ==> r.error.kind == RuntimeError
  {
    ValidateListResponse(response, "Unexpected Smartlead response for sequences (expected list, got ",
                         "Smartlead campaign sequences schema validation failed for campaign "
                         + IntToString(campaignId) + ":\n")
  }

  /**
   * `get_campaign_statistics(campaign_id)`: a failed query and a failed
   * validation each become a RuntimeError naming the campaign.
   */
  function GetCampaignStatistics(campaignId: int, response: Result<Validated<CampaignStatistics>, PyError>)
    : (r: Result<CampaignStatistics, PyError>)
    ensures r.Ok? <==> response.Ok? && response.value.Valid?
    ensures r.Ok? ==> r.value == response.value.value
    ensures r.Err? ==> r.error.kind == RuntimeError
    ensures response.Err? ==> r.error.message == "Failed to get campaign statistics for campaign "
                                                 + IntToString(campaignId) + ": " + response.error.message
  {
    match response
    case Err(e) =>
      Err(PyError(RuntimeError, "Failed to get campaign statistics for campaign " + IntToString(campaignId) + ": " + e.message))
    case Ok(Invalid(d)) =>
      Err(PyError(RuntimeError, "Smartlead campaign statistics schema validation failed for "
                                + IntToString(campaignId) + ":\n" + d))
    case Ok(Valid(s)) => Ok(s)
  }

  /** `add_sequences_to_campaign`: a failed POST is re-raised as a RuntimeError naming the campaign. */
  function AddSequencesToCampaign(campaignId: int, response: Result<(), PyError>): (r: Result<(), PyError>)
    ensures r.Ok? <==> response.Ok?
    ensures response.Err? ==> r.error == PyError(RuntimeError, "Error adding sequences to campaign "
                                                 + IntToString(campaignId) + ": " + response.error.message)
  {
    match response
    case Ok(_) => Ok(())
    case Err(e) => Err(PyError(RuntimeError, "Error adding sequences to campaign " + IntToString(campaignId) + ": " + e.message))
  }

  // ---------------------------------------------------------------- lead pagination

  function LeadsEndpoint(campaignId: int): string
  {
    "campaigns/" + IntToString(campaignId) + "/leads"
  }

  /**
   * The parameters of the first page request: `event_time_gt` when the
   * event time is truthy, `lead_category_id` when the category is truthy
   * (so a category of 0 is not sent), and no offset.
   */
  function FirstPageParams(leadCategoryId: Option<int>, eventTime: Option<string>): (p: Params)
    ensures "offset" !in p
    ensures "event_time_gt" in p <==> Truthy(eventTime)
    ensures Truthy(eventTime) ==> p["event_time_gt"] == StrParam(eventTime.value)
    ensures "lead_category_id" in p <==> leadCategoryId.Some? && leadCategoryId.value != 0
    ensures "lead_category_id" in p ==> p["lead_category_id"] == IntParam(leadCategoryId.value)
  {
    var p: Params := if Truthy(eventTime) then map["event_time_gt" := StrParam(eventTime.value)] else map[];
    if leadCategoryId.Some? && leadCategoryId.value != 0 then p["lead_category_id" := IntParam(leadCategoryId.value)] else p
  }

  /** The parameters of every later page request: the offset and the event time only, never the category. */
  function PageParams(offset: nat, eventTime: Option<string>): (p: Params)
    ensures p.Keys <= {"offset", "event_time_gt"}
    ensures "offset" in p && p["offset"] == IntParam(offset)
    ensures "event_time_gt" in p <==> Truthy(eventTime)
    ensures Truthy(eventTime) ==> p["event_time_gt"] == StrParam(eventTime.value)
  {
    var p: Params := map["offset" := IntParam(offset)];
    if Truthy(eventTime) then p["event_time_gt" := StrParam(eventTime.value)] else p
  }

  /** A GET of the lead listing, as it reaches the platform (the API key already added). */
  datatype LeadsRequest = LeadsRequest(endpoint: string, params: Params)

  function FirstPageRequest(campaignId: int, leadCategoryId: Option<int>, eventTime: Option<string>, apiKey: string): LeadsRequest
  {
    LeadsRequest(LeadsEndpoint(campaignId), WithApiKey(FirstPageParams(leadCategoryId, eventTime), apiKey))
  }

  function PageRequest(campaignId: int, offset: nat, eventTime: Option<string>, apiKey: string): LeadsRequest
  {
    LeadsRequest(LeadsEndpoint(campaignId), WithApiKey(PageParams(offset, eventTime), apiKey))
  }

  /**
   * The platform as the pagination loop sees it: the validated page that
   * answers the `n`-th request (counting the first page as 0), or `None`
   * when the request raised or the payload did not validate. The request
   * number lets a retried request see a different answer.
   */
  type PageSource = (LeadsRequest, nat) -> Option<LeadsPage>

  /**
   * The state the loop ends in: the leads collected, whether the loop
   * exited (`finished`) or was still running when the request budget ran
   * out, and the offset of every page request made, in order.
   */
  datatype Fetch = Fetch(leads: seq<CampaignLead>, finished: bool, offsets: seq<nat>)

  /** One step of the loop: a successful page's data is appended, a failed page leaves the leads as they were. */
  function PaginateNext(source: PageSource, campaignId: int, eventTime: Option<string>, apiKey: string,
                        leads: seq<CampaignLead>, attempt: nat): seq<CampaignLead>
  {
    match source(PageRequest(campaignId, |leads|, eventTime, apiKey), attempt)
    case None => leads
    case Some(page) => leads + page.data
  }

  /**
   * The `while len(leads) < total_leads` loop, run for at most `fuel` more
   * requests from the given state. A successful page appends its data; a
   * failed one leaves the leads as they were, and the next request uses
   * the same offset.
   */
  function Paginate(source: PageSource, campaignId: int, eventTime: Option<string>, apiKey: string,
                    total: int, leads: seq<CampaignLead>, attempt: nat, fuel: nat): Fetch
    decreases fuel
  {
    if |leads| >= total then Fetch(leads, true, [])
    else if fuel == 0 then Fetch(leads, false, [])
    else
      var next := PaginateNext(source, campaignId, eventTime, apiKey, leads, attempt);
      var rest := Paginate(source, campaignId, eventTime, apiKey, total, next, attempt + 1, fuel - 1);
      Fetch(rest.leads, rest.finished, [|leads|] + rest.offsets)
  }

  /**
   * `get_leads_by_campaign_id_with_pagination`, with at most `maxRequests`
   * page requests after the first. A failed first page yields no leads;
   * otherwise its `total_leads` is the target of the loop.
   */
  function GetLeads(source: PageSource, campaignId: int, leadCategoryId: Option<int>, eventTime: Option<string>,
                    apiKey: string, maxRequests: nat): (f: Fetch)
    ensures source(FirstPageRequest(campaignId, leadCategoryId, eventTime, apiKey), 0).None? ==> f == Fetch([], true, [])
  {
    match source(FirstPageRequest(campaignId, leadCategoryId, eventTime, apiKey), 0)
    case None => Fetch([], true, [])
    case Some(first) => Paginate(source, campaignId, eventTime, apiKey, first.totalLeads, first.data, 1, maxRequests)
  }

  /** The loop itself, over a growing list; what it returns is what `GetLeads` describes. */
  method GetLeadsByCampaignIdWithPagination(source: PageSource, campaignId: int, leadCategoryId: Option<int>,
                                            eventTime: Option<string>, apiKey: string, maxRequests: nat)
    returns (leads: seq<CampaignLead>, finished: bool)
    ensures leads == GetLeads(source, campaignId, leadCategoryId, eventTime, apiKey, maxRequests).leads
    ensures finished == GetLeads(source, campaignId, leadCategoryId, eventTime, apiKey, maxRequests).finished
  {
    leads := [];
    var first := source(FirstPageRequest(campaignId, leadCategoryId, eventTime, apiKey), 0);
    if first.None? {
      return leads, true;
    }
    var total := first.value.totalLeads;
    leads := leads + first.value.data;
    assert leads == first.value.data;
    ghost var spec := GetLeads(source, campaignId, leadCategoryId, eventTime, apiKey, maxRequests);
    var attempt: nat := 1;
    var budget: nat := maxRequests;
    while |leads| < total && budget > 0
      invariant Paginate(source, campaignId, eventTime, apiKey, total, leads, attempt, budget).leads == spec.leads
      invariant Paginate(source, campaignId, eventTime, apiKey, total, leads, attempt, budget).finished == spec.finished
      decreases budget
    {
      var page := source(PageRequest(campaignId, |leads|, eventTime, apiKey), attempt);
      if page.Some? {
        leads := leads + page.value.data;
      }
      attempt := attempt + 1;
      budget := budget - 1;
    }
    finished := |leads| >= total;
  }

  // ---------------------------------------------------------------- properties of the loop

  /** The accumulator only grows: what was collected stays, in place, at the front. */
  lemma {:induction false} PaginateAppendOnly(source: PageSource, campaignId: int, eventTime: Option<string>,
                                              apiKey: string, total: int, leads: seq<CampaignLead>, attempt: nat, fuel: nat)
    ensures var f := Paginate(source, campaignId, eventTime, apiKey, total, leads, attempt, fuel);
      |leads| <= |f.leads| && f.leads[..|leads|] == leads
    decreases fuel
  {
    if |leads| < total && fuel > 0 {
      var next := PaginateNext(source, campaignId, eventTime, apiKey, leads, attempt);
      PaginateAppendOnly(source, campaignId, eventTime, apiKey, total, next, attempt + 1, fuel - 1);
      assert next[..|leads|] == leads;
    }
  }

  /** The loop exits exactly when the count has reached the first page's total. */
  lemma {:induction false} PaginateExit(source: PageSource, campaignId: int, eventTime: Option<string>,
                                        apiKey: string, total: int, leads: seq<CampaignLead>, attempt: nat, fuel: nat)
    ensures var f := Paginate(source, campaignId, eventTime, apiKey, total, leads, attempt, fuel);
      f.finished <==> |f.leads| >= total
    decreases fuel
  {
    if |leads| < total && fuel > 0 {
      var next := PaginateNext(source, campaignId, eventTime, apiKey, leads, attempt);
      PaginateExit(source, campaignId, eventTime, apiKey, total, next, attempt + 1, fuel - 1);
    }
  }

  /**
   * Every page request used an offset equal to the number of leads held
   * at that moment: the first one the count the loop began with, each
   * one below the total and within what was finally collected, and none
   * smaller than the one before. At most `fuel` requests are made.
   */
  lemma PaginateOffsets(source: PageSource, campaignId: int, eventTime: Option<string>,
                        apiKey: string, total: int, leads: seq<CampaignLead>, attempt: nat, fuel: nat)
    ensures var f := Paginate(source, campaignId, eventTime, apiKey, total, leads, attempt, fuel);
      && |f.offsets| <= fuel
      && (f.offsets != [] ==> f.offsets[0] == |leads|)
      && (forall i :: 0 <= i < |f.offsets| ==> |leads| <= f.offsets[i] < total && f.offsets[i] <= |f.leads|)
      && (forall i :: 0 < i < |f.offsets| ==> f.offsets[i - 1] <= f.offsets[i])
  {
    PaginateOffsetCount(source, campaignId, eventTime, apiKey, total, leads, attempt, fuel);
    PaginateOffsetsBounded(source, campaignId, eventTime, apiKey, total, leads, attempt, fuel);
    PaginateOffsetsGrow(source, campaignId, eventTime, apiKey, total, leads, attempt, fuel);
  }

  /** Each request asks from the count collected before it: request `i` starts where `i` requests left the leads. */
  lemma {:induction false} PaginateOffsetIsCount(source: PageSource, campaignId: int, eventTime: Option<string>,
                                                 apiKey: string, total: int, leads: seq<CampaignLead>, attempt: nat, fuel: nat)
    ensures forall i :: 0 <= i < |Paginate(source, campaignId, eventTime, apiKey, total, leads, attempt, fuel).offsets| ==>
      Paginate(source, campaignId, eventTime, apiKey, total, leads, attempt, fuel).offsets[i]
      == |Paginate(source, campaignId, eventTime, apiKey, total, leads, attempt, i).leads|
    decreases fuel
  {
    if |leads| < total && fuel > 0 {
      PaginateStep(source, campaignId, eventTime, apiKey, total, leads, attempt, fuel);
      var next := PaginateNext(source, campaignId, eventTime, apiKey, leads, attempt);
      var f := Paginate(source, campaignId, eventTime, apiKey, total, leads, attempt, fuel);
      var rest := Paginate(source, campaignId, eventTime, apiKey, total, next, attempt + 1, fuel - 1);
      PaginateOffsetIsCount(source, campaignId, eventTime, apiKey, total, next, attempt + 1, fuel - 1);
      forall i | 0 <= i < |f.offsets|
        ensures f.offsets[i] == |Paginate(source, campaignId, eventTime, apiKey, total, leads, attempt, i).leads|
      {
        if i > 0 {
          assert f.offsets[i] == rest.offsets[i - 1];
          PaginateStep(source, campaignId, eventTime, apiKey, total, leads, attempt, i);
        } else {
          assert Paginate(source, campaignId, eventTime, apiKey, total, leads, attempt, 0).leads == leads;
        }
      }
    }
  }

  lemma PaginateStep(source: PageSource, campaignId: int, eventTime: Option<string>,
                     apiKey: string, total: int, leads: seq<CampaignLead>, attempt: nat, fuel: nat)
    requires |leads| < total && fuel > 0
    ensures var f := Paginate(source, campaignId, eventTime, apiKey, total, leads, attempt, fuel);
      var rest := Paginate(source, campaignId, eventTime, apiKey, total,
                           PaginateNext(source, campaignId, eventTime, apiKey, leads, attempt), attempt + 1, fuel - 1);
      && f.offsets == [|leads|] + rest.offsets && f.leads == rest.leads && f.finished == rest.finished
      && |leads| <= |PaginateNext(source, campaignId, eventTime, apiKey, leads, attempt)|
  {
  }

  lemma {:induction false} PaginateOffsetCount(source: PageSource, campaignId: int, eventTime: Option<string>,
                                               apiKey: string, total: int, leads: seq<CampaignLead>, attempt: nat, fuel: nat)
    ensures var f := Paginate(source, campaignId, eventTime, apiKey, total, leads, attempt, fuel);
      |f.offsets| <= fuel && (f.offsets != [] ==> f.offsets[0] == |leads|)
    decreases fuel
  {
    if |leads| < total && fuel > 0 {
      PaginateStep(source, campaignId, eventTime, apiKey, total, leads, attempt, fuel);
      var next := PaginateNext(source, campaignId, eventTime, apiKey, leads, attempt);
      PaginateOffsetCount(source, campaignId, eventTime, apiKey, total, next, attempt + 1, fuel - 1);
    }
  }

  lemma {:induction false} PaginateOffsetsBounded(source: PageSource, campaignId: int, eventTime: Option<string>,
                                                  apiKey: string, total: int, leads: seq<CampaignLead>, attempt: nat, fuel: nat)
    ensures var f := Paginate(source, campaignId, eventTime, apiKey, total, leads, attempt, fuel);
      forall i :: 0 <= i < |f.offsets| ==> |leads| <= f.offsets[i] < total && f.offsets[i] <= |f.leads|
    decreases fuel
  {
    if |leads| < total && fuel > 0 {
      PaginateStep(source, campaignId, eventTime, apiKey, total, leads, attempt, fuel);
      var next := PaginateNext(source, campaignId, eventTime, apiKey, leads, attempt);
      var f := Paginate(source, campaignId, eventTime, apiKey, total, leads, attempt, fuel);
      var rest := Paginate(source, campaignId, eventTime, apiKey, total, next, attempt + 1, fuel - 1);
      PaginateOffsetsBounded(source, campaignId, eventTime, apiKey, total, next, attempt + 1, fuel - 1);
      PaginateAppendOnly(source, campaignId, eventTime, apiKey, total, next, attempt + 1, fuel - 1);
      forall i | 0 <= i < |f.offsets|
        ensures |leads| <= f.offsets[i] < total && f.offsets[i] <= |f.leads|
      {
        if i > 0 {
          assert f.offsets[i] == rest.offsets[i - 1];
        }
      }
    }
  }

  lemma {:induction false} PaginateOffsetsGrow(source: PageSource, campaignId: int, eventTime: Option<string>,
                                               apiKey: string, total: int, leads: seq<CampaignLead>, attempt: nat, fuel: nat)
    ensures var f := Paginate(source, campaignId, eventTime, apiKey, total, leads, attempt, fuel);
      forall i :: 0 < i < |f.offsets| ==> f.offsets[i - 1] <= f.offsets[i]
    decreases fuel
  {
    if |leads| < total && fuel > 0 {
      PaginateStep(source, campaignId, eventTime, apiKey, total, leads, attempt, fuel);
      var next := PaginateNext(source, campaignId, eventTime, apiKey, leads, attempt);
      var f := Paginate(source, campaignId, eventTime, apiKey, total, leads, attempt, fuel);
      var rest := Paginate(source, campaignId, eventTime, apiKey, total, next, attempt + 1, fuel - 1);
      PaginateOffsetsGrow(source, campaignId, eventTime, apiKey, total, next, attempt + 1, fuel - 1);
      PaginateOffsetCount(source, campaignId, eventTime, apiKey, total, next, attempt + 1, fuel - 1);
      assert forall i :: 0 < i < |f.offsets| ==> f.offsets[i] == rest.offsets[i - 1];
    }
  }

  /** Every page request fails or comes back without a lead: the loop can make no progress. */
  ghost predicate PagesStall(source: PageSource, campaignId: int, eventTime: Option<string>, apiKey: string)
  {
    forall offset: nat, n: nat ::
      var answer := source(PageRequest(campaignId, offset, eventTime, apiKey), n);
      answer.None? || answer.value.data == []
  }

  /**
   * The non-termination hazard: if the pages keep failing or keep coming
   * back empty while the count is short of the total, no request budget
   * is ever enough. The loop spends all of it re-requesting the same
   * offset and never exits.
   */
  lemma {:induction false} StalledPagesNeverFinish(source: PageSource, campaignId: int, eventTime: Option<string>,
                                                   apiKey: string, total: int, leads: seq<CampaignLead>,
                                                   attempt: nat, fuel: nat)
    requires PagesStall(source, campaignId, eventTime, apiKey)
    requires |leads| < total
    ensures var f := Paginate(source, campaignId, eventTime, apiKey, total, leads, attempt, fuel);
      && !f.finished && f.leads == leads
      && |f.offsets| == fuel && forall i :: 0 <= i < fuel ==> f.offsets[i] == |leads|
    decreases fuel
  {
    if fuel > 0 {
      var answer := source(PageRequest(campaignId, |leads|, eventTime, apiKey), attempt);
      assert answer.None? || answer.value.data == [];
      assert PaginateNext(source, campaignId, eventTime, apiKey, leads, attempt) == leads;
      StalledPagesNeverFinish(source, campaignId, eventTime, apiKey, total, leads, attempt + 1, fuel - 1);
    }
  }

  /**
   * A page answer consistent with the platform's list `all` at this
   * offset: either a failure, or a run of `all` starting exactly there.
   */
  predicate AnswerIsSlice(answer: Option<LeadsPage>, all: seq<CampaignLead>, offset: nat)
  {
    answer.None? || (offset + |answer.value.data| <= |all| && answer.value.data == all[offset..offset + |answer.value.data|])
  }

  /** Every page answer below the end of `all` is consistent with `all`. */
  ghost predicate ServesSlices(source: PageSource, campaignId: int, eventTime: Option<string>, apiKey: string,
                               all: seq<CampaignLead>)
  {
    forall offset: nat, n: nat :: offset < |all| ==>
      AnswerIsSlice(source(PageRequest(campaignId, offset, eventTime, apiKey), n), all, offset)
  }

  /** Every page request below the end of `all` succeeds with at least one lead. */
  ghost predicate PagesProgress(source: PageSource, campaignId: int, eventTime: Option<string>, apiKey: string,
                                all: seq<CampaignLead>)
  {
    forall offset: nat, n: nat :: offset < |all| ==>
      var answer := source(PageRequest(campaignId, offset, eventTime, apiKey), n);
      answer.Some? && answer.value.data != []
  }

  /**
   * Against a platform that serves consistent slices of `all`, whose
   * first page reported `|all|` as the total, the leads collected are
   * always a prefix of `all` (no duplicate, no gap), and all of `all` once
   * the loop has exited.
   */
  lemma {:induction false} PaginateCollectsPrefix(source: PageSource, campaignId: int, eventTime: Option<string>,
                                                  apiKey: string, all: seq<CampaignLead>, leads: seq<CampaignLead>,
                                                  attempt: nat, fuel: nat)
    requires ServesSlices(source, campaignId, eventTime, apiKey, all)
    requires |leads| <= |all| && leads == all[..|leads|]
    ensures var f := Paginate(source, campaignId, eventTime, apiKey, |all|, leads, attempt, fuel);
      && |f.leads| <= |all| && f.leads == all[..|f.leads|]
      && (f.finished ==> f.leads == all)
    decreases fuel
  {
    if |leads| < |all| && fuel > 0 {
      var answer := source(PageRequest(campaignId, |leads|, eventTime, apiKey), attempt);
      assert AnswerIsSlice(answer, all, |leads|);
      var next := match answer
                  case None => leads
                  case Some(page) => leads + page.data;
      assert next == all[..|next|];
      PaginateCollectsPrefix(source, campaignId, eventTime, apiKey, all, next, attempt + 1, fuel - 1);
    }
  }

  /**
   * When every page request succeeds with at least one lead, a budget of
   * as many requests as leads are still missing is enough for the loop to
   * exit.
   */
  lemma {:induction false} PaginateFinishesWithProgress(source: PageSource, campaignId: int, eventTime: Option<string>,
                                                        apiKey: string, all: seq<CampaignLead>, leads: seq<CampaignLead>,
                                                        attempt: nat, fuel: nat)
    requires PagesProgress(source, campaignId, eventTime, apiKey, all)
    requires |leads| + fuel >= |all|
    ensures Paginate(source, campaignId, eventTime, apiKey, |all|, leads, attempt, fuel).finished
    decreases fuel
  {
    if |leads| < |all| {
      var answer := source(PageRequest(campaignId, |leads|, eventTime, apiKey), attempt);
      assert answer.Some? && answer.value.data != [];
      PaginateFinishesWithProgress(source, campaignId, eventTime, apiKey, all, leads + answer.value.data, attempt + 1, fuel - 1);
    }
  }

  /** A page answer that moves the loop on: a page with at least one lead. */
  predicate Advances(answer: Option<LeadsPage>)
  {
    answer.Some? && answer.value.data != []
  }

  /** Among the `k + 1` requests numbered `n` to `n + k` at `offset`, one brings a lead. */
  ghost predicate AdvancesWithin(source: PageSource, campaignId: int, eventTime: Option<string>, apiKey: string,
                                 offset: nat, n: nat, k: nat)
  {
    exists j: nat :: n <= j <= n + k && Advances(source(PageRequest(campaignId, offset, eventTime, apiKey), j))
  }

  /**
   * Each page call succeeds eventually: below the end of `all`, every run
   * of `k + 1` consecutive requests at one offset includes one that brings
   * a lead; the others may fail or come back empty.
   */
  ghost predicate PagesProgressWithRetries(source: PageSource, campaignId: int, eventTime: Option<string>, apiKey: string,
                                           all: seq<CampaignLead>, k: nat)
  {
    forall offset: nat, n: nat :: offset < |all| ==> AdvancesWithin(source, campaignId, eventTime, apiKey, offset, n, k)
  }

  /** `k + 1` requests for each of `missing` leads, written as a sum. */
  function RetryBudget(k: nat, missing: nat): nat
  {
    if missing == 0 then 0 else k + 1 + RetryBudget(k, missing - 1)
  }

  lemma {:induction false} RetryBudgetIsProduct(k: nat, missing: nat)
    ensures RetryBudget(k, missing) == (k + 1) * missing
  {
    if missing > 0 {
      RetryBudgetIsProduct(k, missing - 1);
      assert (k + 1) * missing == (k + 1) + (k + 1) * (missing - 1);
    }
  }

  /**
   * The retry loop at one offset: if the request numbered `due` (not
   * before `attempt`) brings a lead, the budget covers the wait until
   * then, and `k + 1` requests per lead still missing afterwards, the
   * loop exits.
   */
  lemma {:induction false} PaginateFinishesWithRetriesFrom(source: PageSource, campaignId: int, eventTime: Option<string>,
                                                          apiKey: string, all: seq<CampaignLead>, k: nat,
                                                          leads: seq<CampaignLead>, attempt: nat, due: nat, fuel: nat)
    requires PagesProgressWithRetries(source, campaignId, eventTime, apiKey, all, k)
    requires |leads| < |all| && attempt <= due
    requires Advances(source(PageRequest(campaignId, |leads|, eventTime, apiKey), due))
    requires fuel >= (due - attempt) + 1 + RetryBudget(k, |all| - |leads| - 1)
    ensures Paginate(source, campaignId, eventTime, apiKey, |all|, leads, attempt, fuel).finished
    decreases fuel, 0
  {
    var answer := source(PageRequest(campaignId, |leads|, eventTime, apiKey), attempt);
    var next := PaginateNext(source, campaignId, eventTime, apiKey, leads, attempt);
    PaginateStep(source, campaignId, eventTime, apiKey, |all|, leads, attempt, fuel);
    PaginateNextAdvances(source, campaignId, eventTime, apiKey, leads, attempt);
    if Advances(answer) {
      RetryBudgetMonotone(k, if |next| < |all| then |all| - |next| else 0, |all| - |leads| - 1);
      PaginateFinishesWithBudget(source, campaignId, eventTime, apiKey, all, k, next, attempt + 1, fuel - 1);
    } else {
      assert attempt < due;
      PaginateFinishesWithRetriesFrom(source, campaignId, eventTime, apiKey, all, k, leads, attempt + 1, due, fuel - 1);
    }
  }

  /** From any state, `k + 1` requests per missing lead are enough for the loop to exit. */
  lemma {:induction false} PaginateFinishesWithBudget(source: PageSource, campaignId: int, eventTime: Option<string>,
                                                     apiKey: string, all: seq<CampaignLead>, k: nat,
                                                     leads: seq<CampaignLead>, attempt: nat, fuel: nat)
    requires PagesProgressWithRetries(source, campaignId, eventTime, apiKey, all, k)
    requires |leads| < |all| ==> fuel >= RetryBudget(k, |all| - |leads|)
    ensures Paginate(source, campaignId, eventTime, apiKey, |all|, leads, attempt, fuel).finished
    decreases fuel, 1
  {
    if |leads| < |all| {
      var j := NextAdvance(source, campaignId, eventTime, apiKey, all, k, |leads|, attempt);
      assert RetryBudget(k, |all| - |leads|) == k + 1 + RetryBudget(k, |all| - |leads| - 1);
      PaginateFinishesWithRetriesFrom(source, campaignId, eventTime, apiKey, all, k, leads, attempt, j, fuel);
    }
  }

  /** The first request from `n` on, within `k` retries, that brings a lead at `offset`. */
  lemma NextAdvance(source: PageSource, campaignId: int, eventTime: Option<string>, apiKey: string,
                    all: seq<CampaignLead>, k: nat, offset: nat, n: nat) returns (j: nat)
    requires PagesProgressWithRetries(source, campaignId, eventTime, apiKey, all, k)
    requires offset < |all|
    ensures n <= j <= n + k && Advances(source(PageRequest(campaignId, offset, eventTime, apiKey), j))
  {
    assert AdvancesWithin(source, campaignId, eventTime, apiKey, offset, n, k);
    j :| n <= j <= n + k && Advances(source(PageRequest(campaignId, offset, eventTime, apiKey), j));
  }

  /** A page that brings a lead lengthens the collected leads; any other answer leaves them as they were. */
  lemma PaginateNextAdvances(source: PageSource, campaignId: int, eventTime: Option<string>, apiKey: string,
                             leads: seq<CampaignLead>, attempt: nat)
    ensures var answer := source(PageRequest(campaignId, |leads|, eventTime, apiKey), attempt);
      var next := PaginateNext(source, campaignId, eventTime, apiKey, leads, attempt);
      && (Advances(answer) ==> |next| > |leads|)
      && (!Advances(answer) ==> next == leads)
  {
    var answer := source(PageRequest(campaignId, |leads|, eventTime, apiKey), attempt);
    if answer.Some? && answer.value.data == [] {
      assert leads + [] == leads;
    }
  }

  lemma {:induction false} RetryBudgetMonotone(k: nat, small: nat, large: nat)
    requires small <= large
    ensures RetryBudget(k, small) <= RetryBudget(k, large)
    decreases large
  {
    if small < large {
      RetryBudgetMonotone(k, small, large - 1);
    }
  }

  /**
   * When each page call succeeds within `k` retries, `k + 1` requests per
   * missing lead are enough for the loop to exit.
   */
  lemma PaginateFinishesWithRetries(source: PageSource, campaignId: int, eventTime: Option<string>,
                                    apiKey: string, all: seq<CampaignLead>, k: nat,
                                    leads: seq<CampaignLead>, attempt: nat, fuel: nat)
    requires PagesProgressWithRetries(source, campaignId, eventTime, apiKey, all, k)
    requires |leads| < |all| ==> fuel >= (k + 1) * (|all| - |leads|)
    ensures Paginate(source, campaignId, eventTime, apiKey, |all|, leads, attempt, fuel).finished
  {
    if |leads| < |all| {
      RetryBudgetIsProduct(k, |all| - |leads|);
    }
    PaginateFinishesWithBudget(source, campaignId, eventTime, apiKey, all, k, leads, attempt, fuel);
  }

  /**
   * The whole call against a well-behaved platform: the first page reports
   * `|all|` and starts `all`, every later page is a consistent slice, and
   * each page call succeeds within `k` retries. Then, given `k + 1`
   * requests per lead, exactly the platform's leads come back, in order,
   * each once.
   */
  lemma GetLeadsReturnsAll(source: PageSource, campaignId: int, leadCategoryId: Option<int>, eventTime: Option<string>,
                           apiKey: string, all: seq<CampaignLead>, k: nat, maxRequests: nat)
    requires var first := source(FirstPageRequest(campaignId, leadCategoryId, eventTime, apiKey), 0);
      && first.Some? && first.value.totalLeads == |all|
      && |first.value.data| <= |all| && first.value.data == all[..|first.value.data|]
    requires ServesSlices(source, campaignId, eventTime, apiKey, all)
    requires PagesProgressWithRetries(source, campaignId, eventTime, apiKey, all, k)
    requires maxRequests >= (k + 1) * |all|
    ensures GetLeads(source, campaignId, leadCategoryId, eventTime, apiKey, maxRequests).leads == all
  {
    var first := source(FirstPageRequest(campaignId, leadCategoryId, eventTime, apiKey), 0).value;
    PaginateCollectsPrefix(source, campaignId, eventTime, apiKey, all, first.data, 1, maxRequests);
    RetryBudgetIsProduct(k, |all|);
    RetryBudgetMonotone(k, |all| - |first.data|, |all|);
    PaginateFinishesWithBudget(source, campaignId, eventTime, apiKey, all, k, first.data, 1, maxRequests);
  }
}
