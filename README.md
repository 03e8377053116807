# Smartlead campaign tools: a Dafny model

This project models the core of an internal operations tool for cold-email
campaigns that run on the Smartlead platform. Two of the tool's pages are
modelled, together with the clients they use:

- **Add follow-ups.** For each selected campaign, the page can first read
  the campaign's statistics. If the campaign has no leads, or at least 70%
  of them were sent to, it raises the follow-up percentage to 90. It then
  resubmits the campaign's sequences with one follow-up copy of each
  appended. Each campaign goes to a success table or a failure table.
- **Filter leads from a campaign.** The page asks a language model three
  yes/no questions about each uploaded lead: is the lead outside the
  whitelisted areas, in a blocklisted industry, or outside the whitelisted
  industries? It works in batches of 50. The leads to remove are matched
  by email against the campaign's leads, which are fetched page by page.
  The matched pairs are then deleted over the platform's internal REST API.
- **Clients.**
  - The public REST client: the query helper, the list and payload
    validation, and lead pagination.
  - The internal REST and GraphQL helpers: the token check, header
    merging and error texts.
  - The schema's status enumeration and the shared utilities: the model
    answer's normalisation and `chunk_list`.

External services are modelled as parameters:
- the HTTP transport is an `Outcome` value or a function from a request to
  an `Outcome`;
- the language model is a function from a query to its answer text;
- the lead listing is a function from a page request and its request
  number to the validated page, so a retried request may see another answer;
- the blob upload is a function from the leads to the URL.

The Streamlit session state that each page updates in place is modelled
by two classes, `FollowUps.FollowUpRunner` and `LeadFilter.FilterSession`.

Where the code and its own promises disagree, the model follows the code.
The update helper's docstring (`clients/smartlead/internal/index.py:32`)
says it returns the updated campaign id on success, and the page's
checkbox (`pages/va/add_follow_ups.py:147`) offers to change the follow-up
percentage to 90% for qualifying campaigns. As written, the helper calls
the GraphQL function with keyword arguments that function does not
accept, so every qualifying campaign fails with a `TypeError` (see
"## Findings").

Modules, one per source file:
- `Wrappers` and `Text`: Python-level helpers.
- `Utils`: `common/utils.py`.
- `Schema`: `clients/smartlead/schema.py`.
- `Http`: the transport outcome and the shared error text.
- `SmartleadClient`: `clients/smartlead/index.py`.
- `SmartleadInternal`: `clients/smartlead/internal/index.py`.
- `FollowUps`: `pages/va/add_follow_ups.py`.
- `LeadFilter`: `pages/va/filter_leads_from_campaign.py`.

## Model

| member | source | states |
|---|---|---|
| Utils.GetGptAnswer | common/utils.py:7-17 | the answer is returned stripped and lower-cased, so normalising it again changes nothing |
| Utils.NormalizeIdempotent | common/utils.py:17 | `strip().lower()` applied twice gives the same text as applied once |
| Utils.ChunkList | common/utils.py:27-29 | every chunk is non-empty and at most the size; all but the last have exactly the size; a negative size yields no chunk |
| Utils.ChunkListFlatten | common/utils.py:27-29 | with a positive size the chunks, concatenated, give the list back: nothing is lost, repeated or reordered |
| Utils.ChunkListCount | common/utils.py:27-29 | the number of chunks is the length divided by the size, rounded up; no chunks exactly when the list is empty |
| Utils.ChunkListSlice | common/utils.py:28-29 | chunk `i` is the slice `lst[i*size : i*size+size]`, cut at the end of the list |
| Text.ParseIntOfIntToString | pages/va/add_follow_ups.py:180-181 | `int(str(n)) == n` for every integer, so a count written in decimal parses back to itself |
| Schema.ParseStatus | clients/smartlead/schema.py:7-12 | a status parses exactly when it is one of the five enumeration values, and it names the value it came from |
| Schema.ParseStatusName | clients/smartlead/schema.py:7-12 | every status's name parses back to that status |
| Http.ServerErrorText | clients/smartlead/index.py:50-52 | the REST error text starts with the prefix, then the endpoint, the error and the detail, each at its fixed position |
| SmartleadClient.WithApiKey | clients/smartlead/index.py:28-29 | the parameters sent are the caller's plus `api_key`, which always holds the configured key; other keys are unchanged |
| SmartleadClient.PrepareQueryParams | clients/smartlead/index.py:28-29 | a non-empty caller dict is updated in place and reused; a missing or empty one is replaced by a fresh dict and left as it was |
| SmartleadClient.QuerySmartlead | clients/smartlead/index.py:20-54 | Ok exactly on success, with the JSON body; an HTTP error folds the body's `error` (default `str(e)`) and `message` (default empty) into the error text; a JSON non-object body raises AttributeError; a transport error gives the endpoint and `str(e)` |
| SmartleadClient.ValidateAll | clients/smartlead/index.py:130-132 | Ok exactly when every item validates, with the values in order; otherwise the details of the first invalid item |
| SmartleadClient.GetCampaigns | clients/smartlead/index.py:122-135 | a query error propagates; a non-list is a RuntimeError with its type and text; Ok exactly when every item validates, with the campaigns in response order |
| SmartleadClient.GetCampaignSequences | clients/smartlead/index.py:154-170 | the same list check with its own texts; Ok exactly when every sequence validates, in response order |
| SmartleadClient.GetCampaignStatistics | clients/smartlead/index.py:138-151 | Ok exactly when the query succeeds and the payload validates; every error is a RuntimeError, and a query error's text names the campaign and carries the cause |
| SmartleadClient.AddSequencesToCampaign | clients/smartlead/index.py:183-194 | Ok exactly when the POST succeeds; a failure is re-raised as a RuntimeError naming the campaign, followed by the cause's text |
| SmartleadClient.FirstPageParams | clients/smartlead/index.py:77-81 | no offset; `event_time_gt` exactly when the event time is truthy; `lead_category_id` exactly when the category is truthy (a category of 0 is not sent) |
| SmartleadClient.PageParams | clients/smartlead/index.py:100-102 | every later page sends the offset and at most the event time, never the category |
| SmartleadClient.GetLeads | clients/smartlead/index.py:83-94 | a failed first page yields no leads and ends the fetch |
| SmartleadClient.GetLeadsByCampaignIdWithPagination | clients/smartlead/index.py:69-119 | the loop returns the leads and the exit state that the pagination function describes |
| SmartleadClient.Paginate | clients/smartlead/index.py:97-117 | defines the `while` loop under a request budget; its properties are the rows that follow |
| SmartleadClient.PaginateAppendOnly | clients/smartlead/index.py:97-117 | leads already collected are never dropped: they stay at the front of the result |
| SmartleadClient.PaginateExit | clients/smartlead/index.py:97 | the loop reports it finished exactly when the collected count has reached the first page's total |
| SmartleadClient.PaginateOffsets | clients/smartlead/index.py:100-117 | at most the budget's number of requests; the first offset is the count the loop began with; every offset is below the total and within what was finally collected; offsets never decrease |
| SmartleadClient.PaginateOffsetIsCount | clients/smartlead/index.py:98-102 | request `i` asks from the number of leads collected by the `i` requests before it |
| SmartleadClient.StalledPagesNeverFinish | clients/smartlead/index.py:97-117 | if every page request fails or returns an empty page and the total is not reached, no request budget finishes the loop: it spends every request on the same offset and keeps the leads it had |
| SmartleadClient.PaginateCollectsPrefix | clients/smartlead/index.py:97-117 | when every page answers with the next slice of the campaign's leads, what is collected is always a prefix of them, and a finished loop has all of them |
| SmartleadClient.PaginateFinishesWithProgress | clients/smartlead/index.py:97-117 | when every page brings at least one new lead, a budget of the missing count is enough to finish |
| SmartleadClient.PaginateFinishesWithRetries | clients/smartlead/index.py:97-117 | when every run of `k + 1` consecutive requests at an offset below the total includes one that brings a lead (the others may fail or be empty and are retried at the same offset), `k + 1` requests per missing lead are enough to finish |
| SmartleadClient.GetLeadsReturnsAll | clients/smartlead/index.py:69-119 | with a first page that reports the true total, slices served in order, and each page call succeeding within `k` retries, a budget of `k + 1` requests per lead returns exactly the campaign's leads |
| SmartleadInternal.MergeHeaders | clients/smartlead/internal/index.py:124-128 | the caller's headers override the base ones key by key; base keys they do not name are kept; no extra headers means the base ones |
| SmartleadInternal.PrepareRestRequest | clients/smartlead/internal/index.py:64-76 | a request is built exactly when the token is truthy, for the base URL plus the endpoint, the upper-cased verb, a 30-second timeout, and the bearer headers merged with the caller's; otherwise RuntimeError "Missing SMARTLEAD_INTERNAL_API_TOKEN" |
| SmartleadInternal.InternalRestCall | clients/smartlead/internal/index.py:78-97 | Ok exactly on success, with the JSON; every error is a RuntimeError whose text takes `error` and `message` from a JSON object body, and `str(e)` with an empty detail otherwise |
| SmartleadInternal.RemoveMultipleLeadsFromCampaign | clients/smartlead/internal/index.py:6-22 | defines the removal: the request, then the internal REST call; stated by `LengthMismatchSendsNothing` and `RemovalNeverMismatches` |
| SmartleadInternal.RemoveMultipleLeadsRequest | clients/smartlead/internal/index.py:6-22 | mismatched id lists give the ValueError before the token is checked; the request is built exactly when the lengths agree and the token is set, as a POST of the campaign id and both lists |
| SmartleadInternal.LengthMismatchSendsNothing | clients/smartlead/internal/index.py:9-10 | with mismatched lengths the removal fails with the ValueError whatever the transport would answer |
| SmartleadInternal.PrepareGraphQLRequest | clients/smartlead/internal/index.py:119-128 | a request to the GraphQL URL is built exactly when the token is truthy; otherwise the GraphQL error about the missing token |
| SmartleadInternal.GraphQLHttpErrorText | clients/smartlead/internal/index.py:156-163 | the error, plus " : " and the message when the body has one; otherwise the response text or else `str(e)`; always after the GraphQL prefix |
| SmartleadInternal.GraphQLCall | clients/smartlead/internal/index.py:135-170 | Ok exactly on success, with the JSON; every error is a GraphQL error with the prefix; a transport error shows the carried response text or else `str(e)` |
| SmartleadInternal.UpdateFollowUpPercentage | clients/smartlead/internal/index.py:25-51 | the corrected mutation: a POST to the GraphQL URL, built exactly when the token is set, with variables `id` and `changes.follow_up_percentage` and the named operation |
| SmartleadInternal.UpdateFollowUpPercentageAsWritten | clients/smartlead/internal/index.py:25-51 | defines the update as written, a call with keywords the GraphQL helper does not accept; stated by the next row |
| SmartleadInternal.UpdateFollowUpAsWrittenAlwaysFails | clients/smartlead/internal/index.py:47-51 | as written the call always fails with a TypeError, while the corrected request is built for the same arguments |
| FollowUps.BuildFollowUpInputs | pages/va/add_follow_ups.py:43-105 | the two loops build exactly the originals followed by the copies |
| FollowUps.FollowUpInputs | pages/va/add_follow_ups.py:43-105 | defines the submission: every original, then every copy; its contents are stated by the lemmas in the next rows |
| FollowUps.VariantInputsCarry | pages/va/add_follow_ups.py:46-56 | a sequence's variant list is absent exactly when it has none or an empty list; otherwise one input per variant, in order, with its subject, body, label and distribution, and its id kept or cleared as asked |
| FollowUps.FollowUpOriginalsKept | pages/va/add_follow_ups.py:44-69 | twice as many inputs as sequences; input `i` is sequence `i` unchanged: id, number, texts, delay, and its variants with their ids, texts, labels and distributions (none for a sequence without variants) |
| FollowUps.FollowUpCloneVariants | pages/va/add_follow_ups.py:81-92 | copy `i` carries the variants of sequence `i` in order, with their texts, labels and distributions, every id cleared; none for a sequence without variants |
| FollowUps.FollowUpCloneIsRenumberedOriginal | pages/va/add_follow_ups.py:72-103 | copy `i` is original `i` with its ids cleared, numbered `n + i + 1`, with the requested delay when it is the first copy |
| FollowUps.FollowUpClonesHaveNoIds | pages/va/add_follow_ups.py:81-101 | no copy carries an id, neither its own nor one of its variants' |
| FollowUps.FollowUpNumbering | pages/va/add_follow_ups.py:73-75 | sequences numbered 1..n are resubmitted numbered 1..2n with no gap and no repeat |
| FollowUps.FollowUpDelays | pages/va/add_follow_ups.py:77-79 | originals keep their delays; the first copy waits the requested delay; later copies keep their originals' delays |
| FollowUps.FollowUpSubmission | pages/va/add_follow_ups.py:35-115 | defines `add_follow_ups_to_campaign` as a value; its cases are stated by `FollowUpSubmissionCases` |
| FollowUps.AddFollowUpsToCampaign | pages/va/add_follow_ups.py:29-115 | the method returns what the submission function describes |
| FollowUps.FollowUpSubmissionCases | pages/va/add_follow_ups.py:35-115 | an error reading the sequences propagates; the expected count reached posts nothing; otherwise exactly the follow-up inputs are posted, and a failed post carries the campaign text twice before the platform's message |
| FollowUps.FollowUpInputsLength | pages/va/add_follow_ups.py:43-105 | the submission has exactly two inputs per sequence read, for every list, the empty one included |
| FollowUps.FollowUpRerunAfterSuccess | pages/va/add_follow_ups.py:35-115 | whatever the expected count, a run that posted did so with twice as many sequences as it read, and a rerun expecting the posted count stops at the guard and posts nothing once the platform lists them |
| FollowUps.ShouldRaiseFollowUpPercentage | pages/va/add_follow_ups.py:182-186 | defines the gate as the source writes it, on exact rationals; its integer forms are the next two rows |
| FollowUps.ShouldRaiseIntegerForm | pages/va/add_follow_ups.py:180-186 | for a positive lead count the gate `sent / total >= 0.70` is the integer test `10 * sent >= 7 * total` |
| FollowUps.ShouldRaiseNegativeTotal | pages/va/add_follow_ups.py:182-186 | for a negative lead count the gate is the integer test `10 * sent <= 7 * total` |
| FollowUps.ShouldRaiseExamples | pages/va/add_follow_ups.py:182-186 | a campaign with no leads always passes the gate; 70 of 100 passes; 69 of 100 does not |
| FollowUps.RaiseFollowUpStep | pages/va/add_follow_ups.py:176-189 | defines the optional raise; its results are stated by the two lemmas in the next rows |
| FollowUps.RaiseFollowUpStepErrors | pages/va/add_follow_ups.py:176-181 | a failed statistics request gives "Failed to get campaign statistics for campaign <id>: <cause>"; a payload that does not validate a RuntimeError; a sent count that is not an integer literal `int()`'s ValueError quoting it |
| FollowUps.RaiseFollowUpStepGate | pages/va/add_follow_ups.py:180-189 | with the statistics read and the count parsed, the step is the update to 90 exactly when the campaign has no leads or `10 * sent >= 7 * total` (the inequality reversed for a negative total), and succeeds without an update otherwise |
| FollowUps.OutcomeWithoutPercentage | pages/va/add_follow_ups.py:191-195 | without the option a campaign succeeds exactly when its follow-ups are added |
| FollowUps.AsWrittenGatedCampaignsFail | pages/va/add_follow_ups.py:186-189 | as written, with the option on, every campaign that passes the gate fails with a TypeError |
| FollowUps.IntendedUpdateLetsCampaignsThrough | pages/va/add_follow_ups.py:176-195 | with the corrected update accepted by the platform, the option no longer changes the campaign's outcome |
| FollowUps.CampaignOutcome | pages/va/add_follow_ups.py:174-195 | defines a campaign's outcome, the optional raise and then the follow-ups; stated by `OutcomeWithoutPercentage`, `AsWrittenGatedCampaignsFail` and `IntendedUpdateLetsCampaignsThrough` |
| FollowUps.ProcessCampaign | pages/va/add_follow_ups.py:174-195 | the try block returns the campaign outcome (`CampaignOutcome`): the optional raise, then the follow-ups, stopping at the first error |
| FollowUps.LabelFor | pages/va/add_follow_ups.py:170-173 | defines the label lookup; stated by the next two rows |
| FollowUps.LabelForFirstMatch | pages/va/add_follow_ups.py:170-173 | when some campaign has the id, the label shown is that of the first campaign with it |
| FollowUps.LabelForNoMatch | pages/va/add_follow_ups.py:170-173 | when no campaign has the id, the label is "Campaign ID: <id>" |
| FollowUps.FailureText | pages/va/add_follow_ups.py:211 | `str(e) or "Error adding follow-ups"`: never empty, and the message itself when it has one |
| FollowUps.RunnerPartitionsSelection | pages/va/add_follow_ups.py:169-213 | every selected campaign lands in exactly one table: the ids of the two tables add up to the selection's multiset |
| FollowUps.RunnerTableSizes | pages/va/add_follow_ups.py:169-213 | the two tables together have exactly one row per selected id |
| FollowUps.SuccessRowsSucceeded | pages/va/add_follow_ups.py:197-204 | every success row says "N/A" and comes from a campaign whose processing succeeded |
| FollowUps.FailureRowsFailed | pages/va/add_follow_ups.py:205-213 | every failure row carries a non-empty error and comes from a campaign whose processing failed |
| FollowUps.SuccessesAppend | pages/va/add_follow_ups.py:169-213 | the tables of a concatenated selection are the concatenated tables, so one campaign's failure does not affect the others |
| FollowUps.FailuresAppend | pages/va/add_follow_ups.py:169-213 | the same for the failure table |
| FollowUps.FollowUpRunner.constructor | pages/va/add_follow_ups.py:24-26 | both tables start empty and the runner is not running |
| FollowUps.FollowUpRunner.Start | pages/va/add_follow_ups.py:153-160 | an empty selection only warns and changes nothing; otherwise both tables are cleared and the runner is running |
| FollowUps.FollowUpRunner.RunOne | pages/va/add_follow_ups.py:170-213 | one campaign appends its row to the success or the failure table, according to its outcome |
| FollowUps.FollowUpRunner.Run | pages/va/add_follow_ups.py:163-219 | the tables grow by the success and failure rows of the whole selection, in order, and the runner stops running |
| LeadFilter.CriteriaLines | pages/va/filter_leads_from_campaign.py:52 | criteria are listed one per line: each `;` becomes a newline and nothing else changes |
| LeadFilter.Ask | pages/va/filter_leads_from_campaign.py:58-59 | no query when the test does not apply; otherwise exactly one query, and the verdict is whether the normalised answer is the expected word |
| LeadFilter.IsOutsideWhitelistedArea | pages/va/filter_leads_from_campaign.py:47-59 | false with no query for an empty location or areas; otherwise true exactly when the model answers "no" to the area prompt |
| LeadFilter.IsInBlocklistedIndustry | pages/va/filter_leads_from_campaign.py:62-76 | false with no query for an empty industry or blocklist; otherwise true exactly when the model answers "yes" |
| LeadFilter.IsOutsideWhitelistedIndustry | pages/va/filter_leads_from_campaign.py:79-93 | false with no query for an empty industry or whitelist; otherwise true exactly when the model answers "no" at temperature 0.2 |
| LeadFilter.CheckOne | pages/va/filter_leads_from_campaign.py:114-123 | defines `check_one`; stated by the next three rows |
| LeadFilter.CheckOneFlagsIffAny | pages/va/filter_leads_from_campaign.py:114-123 | a lead is returned for removal exactly when at least one of the three tests holds |
| LeadFilter.CheckOneShortCircuit | pages/va/filter_leads_from_campaign.py:117-122 | the questions come in order: the blocklist is asked only after the area test failed, the whitelist only after both failed |
| LeadFilter.CheckOneQueryBound | pages/va/filter_leads_from_campaign.py:114-123 | at most three queries per lead, and none for a lead with no location and no industry |
| LeadFilter.Flagged | pages/va/filter_leads_from_campaign.py:125-127 | defines the flagged leads in input order; stated by the rows that follow |
| LeadFilter.FlaggedAppend | pages/va/filter_leads_from_campaign.py:125-127 | the flagged leads of two parts concatenated are the two parts' flagged leads concatenated |
| LeadFilter.FlaggedPositions | pages/va/filter_leads_from_campaign.py:125-127 | the leads to remove are a subsequence of the input: they sit at strictly increasing positions, and a position is among them exactly when its lead is flagged |
| LeadFilter.FlaggedMembers | pages/va/filter_leads_from_campaign.py:126 | a lead is to be removed exactly when it is an input lead and flagged |
| LeadFilter.RemovedIffSomeTestHolds | pages/va/filter_leads_from_campaign.py:114-127 | a run removes exactly the input leads for which the area, blocklist or industry-whitelist test holds |
| LeadFilter.PresentOfResults | pages/va/filter_leads_from_campaign.py:125-126 | one batch's gathered results, with the `None`s dropped, are the batch's flagged leads in order |
| LeadFilter.FilterInBatches | pages/va/filter_leads_from_campaign.py:104-135 | the batch loop returns the flagged leads of the whole input, in input order |
| LeadFilter.ProcessLeads | pages/va/filter_leads_from_campaign.py:96-135 | `process_leads` returns the leads the classifier flags, in input order |
| LeadFilter.LeadDetails | pages/va/filter_leads_from_campaign.py:280-284 | defines the `lead_details` comprehension; stated by the next three rows |
| LeadFilter.LeadDetailsPositions | pages/va/filter_leads_from_campaign.py:280-284 | the pairs keep the campaign-lead order: they come from strictly increasing positions, one per position, and a position is among them exactly when its lead's email is listed |
| LeadFilter.LeadDetailsMembers | pages/va/filter_leads_from_campaign.py:280-284 | a (lead id, mapping id) pair is listed exactly when some campaign lead with a removed email has it; never more pairs than campaign leads |
| LeadFilter.LeadDetailsOfNothing | pages/va/filter_leads_from_campaign.py:280-284 | with no lead to remove, nothing is matched |
| LeadFilter.RemovalNeverMismatches | pages/va/filter_leads_from_campaign.py:311-315 | both id lists come from the same pairs, so the length check never fails; the request is built exactly when the token is set and carries the ids position by position |
| LeadFilter.MatchCampaignLeads | pages/va/filter_leads_from_campaign.py:276-284 | the campaign's leads, fetched by pagination, matched by email against the leads to remove, and whether the fetch loop ended |
| LeadFilter.FilterSession.constructor | pages/va/filter_leads_from_campaign.py:150-153 | nothing filtered, nothing matched, no URL, not removing |
| LeadFilter.FilterSession.FilterAndUpload | pages/va/filter_leads_from_campaign.py:244-284 | no flagged lead clears the stale state; otherwise the flagged leads and their upload URL are kept, and the matched pairs once the fetch has ended (the earlier pairs while it has not) |
| LeadFilter.FilterSession.KeepResult | pages/va/filter_leads_from_campaign.py:255-284 | an empty result resets the three fields; otherwise the result and its URL are stored, and the matched pairs once the fetch has ended, the earlier pairs staying while it has not; the removal flag is unchanged |
| LeadFilter.FilterSession.ArmRemoval | pages/va/filter_leads_from_campaign.py:290-305 | the removal is armed only when there are matched pairs; nothing else changes |
| LeadFilter.FilterSession.Remove | pages/va/filter_leads_from_campaign.py:308-325 | the delete request for the matched pairs is sent, and never fails the length check; the flag is cleared whatever the outcome |

## Left out

- The Streamlit UI is not modelled except for the session fields listed above: widgets, spinners, progress bars, reruns and the messages shown.
- The PostgreSQL query, the organisation and campaign selection, and `get_campaign_by_id`. These only feed the selection widgets.
- `csv_to_json`: CSV decoding is not modelled. An uploaded lead is a map from column name to text.
- The blob upload (`upload_filtered_leads_to_blob`) is a function parameter. The TSV contents, the blob name and the date are not modelled.
- The OpenAI call is a function parameter. A `None` answer content, which makes `.strip()` raise AttributeError, is not modelled.
- `asyncio.gather` runs the checks of a batch concurrently. The model runs them in order. When several checks raise, which exception surfaces is not modelled; the model has no check that raises.
- The `requests` transport, timeouts, `raise_for_status` and the `query_params` passthrough of the internal helpers are not modelled. The outcome of a call is an input.
- A 2xx response whose body is not JSON is not modelled.
- Logging calls are not modelled.
- SmartleadClient.GetLeads: the source loop has no bound. The model takes a request budget and reports whether the loop finished, and `StalledPagesNeverFinish` shows the loop never ends while every page fails or comes back empty.
- LeadFilter.FilterSession.KeepResult: the source assigns the pairs after a fetch that may never return; in the model an unfinished fetch leaves the earlier pairs in place, and the page's rerun that would follow is not modelled.
- Pydantic validation is not modelled. A payload's validity is an input (`Validated`), and the validation error's text is an opaque string.
- `model_dump(by_alias=True, exclude_none=True)` and its "Sequence input validation failed" error are not modelled. The inputs are submitted as values.
- Parsing `datetime` fields is not modelled.
- Text.ParseInt accepts optional surrounding whitespace, a sign and ASCII digits. Underscores between digits and non-ASCII digits, which Python's `int()` also accepts, are not modelled.
- FollowUps.IntLiteralError: the text does not reproduce `repr()` escaping of the rejected value.
- Text.Lower and Text.Upper change ASCII letters only.
- FollowUps.ShouldRaiseFollowUpPercentage uses exact rational division. A float can only round a ratio just below 0.7 up to 0.7 for lead counts above about 10^15.
- Utils.ChunkList: a chunk size of 0, where `range` raises ValueError, is excluded by a precondition. The only caller passes 50.
- The Smartlead REST API key, the internal token and the GraphQL endpoint are parameters or constants; reading them from Streamlit secrets and from the environment is not modelled.

## Findings

| source | as written | input that shows it | evidently intended | confidence | as-written member | corrected member |
|---|---|---|---|---|---|---|
| clients/smartlead/internal/index.py:47-51 | `update_smartlead_campaign_follow_up_percentage` calls `query_smartlead_internal_graphql_endpoint(query=..., variables=..., operation_name=...)`. That function only accepts the keywords `method`, `headers`, `body`, `query_params` and `timeout`, so every call raises a TypeError before any request is sent. With the percentage option on, every campaign that passes the 70% gate therefore fails, and its follow-ups are never added. | any call, e.g. campaign 1 with percentage 90 and a valid token | a POST to the GraphQL endpoint whose body holds the mutation, the variables `id` and `changes.follow_up_percentage`, and the operation name | high; not executed | SmartleadInternal.UpdateFollowUpAsWrittenAlwaysFails (uses SmartleadInternal.UpdateFollowUpPercentageAsWritten; consequence: FollowUps.AsWrittenGatedCampaignsFail) | SmartleadInternal.UpdateFollowUpPercentage (with FollowUps.IntendedUpdateLetsCampaignsThrough) |
