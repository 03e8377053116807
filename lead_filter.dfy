/**
 * pages/va/filter_leads_from_campaign.py: the language-model lead
 * classifier, the batch loop that collects the leads to remove, the
 * email matching against the campaign's leads, and the page state that
 * carries the result to the removal request. The model is an oracle;
 * the blob upload is a function from the leads to the URL it returns.
 */
module LeadFilter {
  import opened Wrappers
  import opened Text
  import opened Utils
  import opened Schema
  import opened Http
  import opened SmartleadClient
  import opened SmartleadInternal

  /** A row of the uploaded CSV, as `csv.DictReader` gives it. */
  type LeadRow = map<string, string>

  /** `lead.get(key)`. */
  function Field(lead: LeadRow, key: string): Option<string>
  {
    if key in lead then Some(lead[key]) else None
  }

  /** The three criteria texts of the page, each a `;`-separated list. */
  datatype Criteria = Criteria(blocklistedIndustries: string, whitelistedIndustries: string, whitelistedAreas: string)

  /** A predicate's verdict together with the queries it sent to the model, in order. */
  datatype Check = Check(flagged: bool, asked: seq<Query>)

  /** The criteria as the system prompt lists them: one per line. */
  function CriteriaLines(criteria: string): (r: string)
    ensures |r| == |criteria| && ';' !in r
    ensures forall i :: 0 <= i < |criteria| ==> r[i] == if criteria[i] == ';' then '\n' else criteria[i]
  {
    ReplaceChar(criteria, ';', '\n')
  }

  /**
   * The common shape of the three predicates: no query at all when the
   * lead's field or the criteria are empty; otherwise one query, and the
   * verdict is whether the normalized answer is exactly `verdict`.
   */
  function Ask(model: Model, applies: bool, q: Query, verdict: string): (c: Check)
    ensures !applies ==> c == Check(false, [])
    ensures applies ==> c.asked == [q] && (c.flagged <==> Normalize(model(q)) == verdict)
  {
    if !applies then Check(false, [])
    else
      var ans := GetGptAnswer(model, q);
      Check(Normalize(ans) == verdict, [q])
  }

  function AreaQuery(location: string, areas: string): Query
  {
    Query("You are a helpful assistant that filters addresses based on whitelisted areas. "
          + "The whitelisted areas are:\n" + CriteriaLines(areas),
          "Is the address " + location + " located within any of the whitelisted areas? "
          + "You answer should strictly be 'yes' or 'no'",
          DefaultTemperature)
  }

  function BlocklistQuery(industry: string, blocklisted: string): Query
  {
    Query("You are a helpful assistant that filters industries based on blocklisted industries:\n"
          + CriteriaLines(blocklisted),
          "Does the industry " + industry + " match any of the blocklisted industries? "
          + "Answer strictly 'yes' or 'no'",
          DefaultTemperature)
  }

  function IndustryWhitelistQuery(industry: string, whitelisted: string): Query
  {
    Query("You are a helpful assistant that filters industries based on whitelisted industries:\n"
          + CriteriaLines(whitelisted),
          "Does the industry " + industry + " stay within any of the whitelisted industries? "
          + "Answer strictly 'yes' or 'no'",
          0.2)
  }

  /** `is_outside_whitelisted_area`: the model says the address is not in any whitelisted area. */
  function IsOutsideWhitelistedArea(model: Model, location: Option<string>, areas: string): (c: Check)
    ensures !Truthy(location) || areas == "" ==> c == Check(false, [])
    ensures Truthy(location) && areas != "" ==>
      && c.asked == [AreaQuery(location.value, areas)]
      && (c.flagged <==> Normalize(model(AreaQuery(location.value, areas))) == "no")
  {
    Ask(model, Truthy(location) && areas != "", AreaQuery(if location.Some? then location.value else "", areas), "no")
  }

  /** `is_in_blocklisted_industry`: the model says the industry matches a blocklisted one. */
  function IsInBlocklistedIndustry(model: Model, industry: Option<string>, blocklisted: string): (c: Check)
    ensures !Truthy(industry) || blocklisted == "" ==> c == Check(false, [])
    ensures Truthy(industry) && blocklisted != "" ==>
      && c.asked == [BlocklistQuery(industry.value, blocklisted)]
      && (c.flagged <==> Normalize(model(BlocklistQuery(industry.value, blocklisted))) == "yes")
  {
    Ask(model, Truthy(industry) && blocklisted != "", BlocklistQuery(if industry.Some? then industry.value else "", blocklisted), "yes")
  }

  /** `is_outside_whitelisted_industry`: the model says the industry is in no whitelisted one. */
  function IsOutsideWhitelistedIndustry(model: Model, industry: Option<string>, whitelisted: string): (c: Check)
    ensures !Truthy(industry) || whitelisted == "" ==> c == Check(false, [])
    ensures Truthy(industry) && whitelisted != "" ==>
      && c.asked == [IndustryWhitelistQuery(industry.value, whitelisted)]
      && (c.flagged <==> Normalize(model(IndustryWhitelistQuery(industry.value, whitelisted))) == "no")
  {
    Ask(model, Truthy(industry) && whitelisted != "",
        IndustryWhitelistQuery(if industry.Some? then industry.value else "", whitelisted), "no")
  }

  function AreaCheck(model: Model, crit: Criteria, lead: LeadRow): Check
  {
    IsOutsideWhitelistedArea(model, Field(lead, "Location"), crit.whitelistedAreas)
  }

  function BlocklistCheck(model: Model, crit: Criteria, lead: LeadRow): Check
  {
    IsInBlocklistedIndustry(model, Field(lead, "informalIndustry"), crit.blocklistedIndustries)
  }

  function IndustryWhitelistCheck(model: Model, crit: Criteria, lead: LeadRow): Check
  {
    IsOutsideWhitelistedIndustry(model, Field(lead, "informalIndustry"), crit.whitelistedIndustries)
  }

  /**
   * `check_one(lead)`: the area test, then the blocklist, then the
   * industry whitelist, stopping at the first that holds.
   */
  function CheckOne(model: Model, crit: Criteria, lead: LeadRow): Check
  {
    var area := AreaCheck(model, crit, lead);
    if area.flagged then area
    else
      var block := BlocklistCheck(model, crit, lead);
      if block.flagged then Check(true, area.asked + block.asked)
      else
        var white := IndustryWhitelistCheck(model, crit, lead);
        Check(white.flagged, area.asked + block.asked + white.asked)
  }

  /** A lead is returned for removal exactly when at least one of the three tests holds. */
  lemma CheckOneFlagsIffAny(model: Model, crit: Criteria, lead: LeadRow)
    ensures CheckOne(model, crit, lead).flagged
        <==> AreaCheck(model, crit, lead).flagged || BlocklistCheck(model, crit, lead).flagged
             || IndustryWhitelistCheck(model, crit, lead).flagged
  {
  }

  /**
   * The order of the questions and the short circuit: the model sees the
   * area question first, the blocklist question only when the area test
   * failed, and the whitelist question only when both failed.
   */
  lemma CheckOneShortCircuit(model: Model, crit: Criteria, lead: LeadRow)
    ensures var c := CheckOne(model, crit, lead);
      var area := AreaCheck(model, crit, lead);
      var block := BlocklistCheck(model, crit, lead);
      && (area.flagged ==> c.asked == area.asked)
      && (!area.flagged && block.flagged ==> c.asked == area.asked + block.asked)
      && (!area.flagged && !block.flagged ==> c.asked == area.asked + block.asked + IndustryWhitelistCheck(model, crit, lead).asked)
  {
  }

  /** Each lead costs at most three queries, and none at all when it has no location and no industry. */
  lemma CheckOneQueryBound(model: Model, crit: Criteria, lead: LeadRow)
    ensures |CheckOne(model, crit, lead).asked| <= 3
    ensures !Truthy(Field(lead, "Location")) && !Truthy(Field(lead, "informalIndustry")) ==>
      CheckOne(model, crit, lead) == Check(false, [])
  {
    var area := AreaCheck(model, crit, lead);
    var block := BlocklistCheck(model, crit, lead);
    var white := IndustryWhitelistCheck(model, crit, lead);
    assert |area.asked| <= 1 && |block.asked| <= 1 && |white.asked| <= 1;
  }

  /** The classifier as a verdict per lead. */
  function Classifier(model: Model, crit: Criteria): LeadRow -> bool
  {
    (lead: LeadRow) => CheckOne(model, crit, lead).flagged
  }

  /** The leads a run returns for removal, in order (`gather`, then the `is not None` filter). */
  function Flagged(flag: LeadRow -> bool, leads: seq<LeadRow>): seq<LeadRow>
  {
    if leads == [] then []
    else (if flag(leads[0]) then [leads[0]] else []) + Flagged(flag, leads[1..])
  }

  lemma {:induction false} FlaggedAppend(flag: LeadRow -> bool, a: seq<LeadRow>, b: seq<LeadRow>)
    ensures Flagged(flag, a + b) == Flagged(flag, a) + Flagged(flag, b)
  {
    if a == [] {
      assert a + b == b;
    } else {
      var head := if flag(a[0]) then [a[0]] else [];
      assert (a + b)[0] == a[0];
      assert (a + b)[1..] == a[1..] + b;
      assert Flagged(flag, a + b) == head + Flagged(flag, a[1..] + b);
      FlaggedAppend(flag, a[1..], b);
      AppendAssoc(head, Flagged(flag, a[1..]), Flagged(flag, b));
    }
  }

  /** Every position moved one place to the right. */
  function Shifted(idx: seq<nat>): (r: seq<nat>)
    ensures |r| == |idx| && forall i :: 0 <= i < |idx| ==> r[i] == idx[i] + 1
  {
    seq(|idx|, i requires 0 <= i < |idx| => idx[i] + 1)
  }

  lemma ShiftedMembers(idx: seq<nat>, k: nat)
    ensures (k + 1 in Shifted(idx)) <==> k in idx
    ensures 0 !in Shifted(idx)
  {
    var r := Shifted(idx);
    if k + 1 in r {
      var i :| 0 <= i < |r| && r[i] == k + 1;
      assert idx[i] == k;
    }
    if k in idx {
      var i :| 0 <= i < |idx| && idx[i] == k;
      assert r[i] == k + 1;
    }
  }

  /** The positions of the flagged leads, front to back. */
  function FlaggedIndexes(flag: LeadRow -> bool, leads: seq<LeadRow>): seq<nat>
  {
    if leads == [] then []
    else (if flag(leads[0]) then [0] else []) + Shifted(FlaggedIndexes(flag, leads[1..]))
  }

  lemma {:induction false} FlaggedIndexesSelect(flag: LeadRow -> bool, leads: seq<LeadRow>)
    ensures var idx := FlaggedIndexes(flag, leads);
      var r := Flagged(flag, leads);
      |idx| == |r| && forall i :: 0 <= i < |idx| ==> idx[i] < |leads| && r[i] == leads[idx[i]]
  {
    if leads != [] {
      var rest := leads[1..];
      FlaggedIndexesSelect(flag, rest);
      var ri := FlaggedIndexes(flag, rest);
      var shifted := Shifted(ri);
      var fr := Flagged(flag, rest);
      forall i | 0 <= i < |shifted|
        ensures shifted[i] < |leads| && fr[i] == leads[shifted[i]]
      {
        assert rest[ri[i]] == leads[ri[i] + 1];
      }
    }
  }

  predicate Increasing(idx: seq<nat>)
  {
    forall i, j :: 0 <= i < j < |idx| ==> idx[i] < idx[j]
  }

  lemma {:induction false} FlaggedIndexesIncrease(flag: LeadRow -> bool, leads: seq<LeadRow>)
    ensures Increasing(FlaggedIndexes(flag, leads))
  {
    if leads != [] {
      var ri := FlaggedIndexes(flag, leads[1..]);
      FlaggedIndexesIncrease(flag, leads[1..]);
      var sh := Shifted(ri);
      var head: seq<nat> := if flag(leads[0]) then [0] else [];
      var idx := head + sh;
      assert idx == FlaggedIndexes(flag, leads);
      forall i, j | 0 <= i < j < |idx|
        ensures idx[i] < idx[j]
      {
        if i < |head| {
          assert idx[i] == 0 && idx[j] == sh[j - |head|];
        } else {
          assert ri[i - |head|] < ri[j - |head|];
          assert idx[i] == sh[i - |head|] && idx[j] == sh[j - |head|];
        }
      }
    }
  }

  lemma {:induction false} FlaggedIndexesMembers(flag: LeadRow -> bool, leads: seq<LeadRow>)
    ensures forall k :: 0 <= k < |leads| ==> (k in FlaggedIndexes(flag, leads) <==> flag(leads[k]))
  {
    if leads != [] {
      var rest := leads[1..];
      var ri := FlaggedIndexes(flag, rest);
      FlaggedIndexesMembers(flag, rest);
      forall k | 1 <= k < |leads|
        ensures k in Shifted(ri) <==> flag(leads[k])
      {
        ShiftedMembers(ri, k - 1);
        assert leads[k] == rest[k - 1];
      }
      ShiftedMembers(ri, 0);
    }
  }

  /**
   * The leads to remove form a subsequence of the input: they sit at
   * strictly increasing positions `idx`, and a position is among them
   * exactly when its lead is flagged.
   */
  lemma FlaggedPositions(flag: LeadRow -> bool, leads: seq<LeadRow>) returns (idx: seq<nat>)
    ensures var r := Flagged(flag, leads);
      && |idx| == |r|
      && (forall i :: 0 <= i < |idx| ==> idx[i] < |leads| && r[i] == leads[idx[i]])
      && (forall i, j :: 0 <= i < j < |idx| ==> idx[i] < idx[j])
      && (forall k :: 0 <= k < |leads| ==> (k in idx <==> flag(leads[k])))
  {
    idx := FlaggedIndexes(flag, leads);
    FlaggedIndexesSelect(flag, leads);
    FlaggedIndexesIncrease(flag, leads);
    FlaggedIndexesMembers(flag, leads);
  }

  /** Membership: a lead is to be removed iff it is in the input and flagged. */
  lemma {:induction false} FlaggedMembers(flag: LeadRow -> bool, leads: seq<LeadRow>, lead: LeadRow)
    ensures lead in Flagged(flag, leads) <==> lead in leads && flag(lead)
  {
    if leads != [] {
      FlaggedMembers(flag, leads[1..], lead);
      assert lead in leads <==> lead == leads[0] || lead in leads[1..];
    }
  }

  /**
   * What a run of the filter removes: exactly the input leads for which
   * the area, blocklist or industry-whitelist test holds.
   */
  lemma RemovedIffSomeTestHolds(model: Model, crit: Criteria, raw: seq<LeadRow>, lead: LeadRow)
    ensures lead in Flagged(Classifier(model, crit), raw)
        <==> lead in raw && (AreaCheck(model, crit, lead).flagged || BlocklistCheck(model, crit, lead).flagged
                             || IndustryWhitelistCheck(model, crit, lead).flagged)
  {
    FlaggedMembers(Classifier(model, crit), raw, lead);
    CheckOneFlagsIffAny(model, crit, lead);
  }

  /** The results of one `gather` over a batch: the lead where `check_one` returned it, `None` elsewhere. */
  function BatchResults(flag: LeadRow -> bool, batch: seq<LeadRow>): seq<Option<LeadRow>>
  {
    seq(|batch|, j requires 0 <= j < |batch| => if flag(batch[j]) then Some(batch[j]) else None)
  }

  /** `[x for x in results if x is not None]`. */
  function Present(results: seq<Option<LeadRow>>): seq<LeadRow>
  {
    if results == [] then [] else (if results[0].Some? then [results[0].value] else []) + Present(results[1..])
  }

  lemma {:induction false} PresentOfResults(flag: LeadRow -> bool, batch: seq<LeadRow>)
    ensures Present(BatchResults(flag, batch)) == Flagged(flag, batch)
  {
    if batch != [] {
      PresentOfResults(flag, batch[1..]);
      assert BatchResults(flag, batch)[1..] == BatchResults(flag, batch[1..]);
    }
  }

  const BatchSize: int := 50

  /**
   * The batch loop of `process_leads` for a given per-lead verdict: the
   * leads in batches of 50, each batch's flagged leads appended in order;
   * the result is the flagged leads of the whole input, in input order.
   */
  method FilterInBatches(flag: LeadRow -> bool, raw: seq<LeadRow>) returns (toRemove: seq<LeadRow>)
    ensures toRemove == Flagged(flag, raw)
  {
    toRemove := [];
    var batches := ChunkList(raw, BatchSize);
    ChunkListFlatten(raw, BatchSize);
    for b := 0 to |batches|
      invariant toRemove == Flagged(flag, Flatten(batches[..b]))
    {
      var batch := batches[b];
      var results := BatchResults(flag, batch);
      var filtered := Present(results);
      PresentOfResults(flag, batch);
      assert batches[..b + 1] == batches[..b] + [batch];
      FlattenAppend(batches[..b], [batch]);
      assert Flatten([batch]) == batch;
      FlaggedAppend(flag, Flatten(batches[..b]), batch);
      toRemove := toRemove + filtered;
    }
    assert batches[..|batches|] == batches;
  }

  /** `process_leads`: the batch loop with `check_one` as the verdict. */
  method ProcessLeads(model: Model, raw: seq<LeadRow>, crit: Criteria) returns (toRemove: seq<LeadRow>)
    ensures toRemove == Flagged(Classifier(model, crit), raw)
  {
    toRemove := FilterInBatches(Classifier(model, crit), raw);
  }

  // ---------------------------------------------------------------- email matching

  /** A pair the removal request needs: the lead's id and its campaign mapping id. */
  datatype LeadDetail = LeadDetail(leadId: int, leadMappingId: int)

  /** `any(ltr.get("Email") == email for ltr in leads_to_remove)`: a row without an email never matches. */
  predicate EmailListed(toRemove: seq<LeadRow>, email: string)
  {
    exists k :: 0 <= k < |toRemove| && Field(toRemove[k], "Email") == Some(email)
  }

  /** The `lead_details` comprehension, in campaign-lead order. */
  function LeadDetails(campaignLeads: seq<CampaignLead>, toRemove: seq<LeadRow>): seq<LeadDetail>
  {
    if campaignLeads == [] then []
    else
      var cl := campaignLeads[0];
      (if EmailListed(toRemove, cl.lead.email) then [LeadDetail(cl.lead.id, cl.campaignLeadMapId)] else [])
      + LeadDetails(campaignLeads[1..], toRemove)
  }

  /**
   * A pair is listed exactly when some campaign lead with a removed email
   * has that lead id and mapping id; there are never more pairs than
   * campaign leads.
   */
  lemma {:induction false} LeadDetailsMembers(campaignLeads: seq<CampaignLead>, toRemove: seq<LeadRow>, d: LeadDetail)
    ensures |LeadDetails(campaignLeads, toRemove)| <= |campaignLeads|
    ensures d in LeadDetails(campaignLeads, toRemove)
        <==> exists i :: && 0 <= i < |campaignLeads| && EmailListed(toRemove, campaignLeads[i].lead.email)
                         && d == LeadDetail(campaignLeads[i].lead.id, campaignLeads[i].campaignLeadMapId)
  {
    if campaignLeads != [] {
      var rest := campaignLeads[1..];
      LeadDetailsMembers(rest, toRemove, d);
      if exists i :: && 0 <= i < |rest| && EmailListed(toRemove, rest[i].lead.email)
                     && d == LeadDetail(rest[i].lead.id, rest[i].campaignLeadMapId) {
        var i :| && 0 <= i < |rest| && EmailListed(toRemove, rest[i].lead.email)
                 && d == LeadDetail(rest[i].lead.id, rest[i].campaignLeadMapId);
        assert campaignLeads[i + 1] == rest[i];
      }
      if exists i :: && 0 <= i < |campaignLeads| && EmailListed(toRemove, campaignLeads[i].lead.email)
                     && d == LeadDetail(campaignLeads[i].lead.id, campaignLeads[i].campaignLeadMapId) {
        var i :| && 0 <= i < |campaignLeads| && EmailListed(toRemove, campaignLeads[i].lead.email)
                 && d == LeadDetail(campaignLeads[i].lead.id, campaignLeads[i].campaignLeadMapId);
        if i > 0 {
          assert rest[i - 1] == campaignLeads[i];
        }
      }
    }
  }

  /** The positions of the campaign leads whose email is listed, front to back. */
  function ListedIndexes(campaignLeads: seq<CampaignLead>, toRemove: seq<LeadRow>): seq<nat>
  {
    if campaignLeads == [] then []
    else (if EmailListed(toRemove, campaignLeads[0].lead.email) then [0] else [])
         + Shifted(ListedIndexes(campaignLeads[1..], toRemove))
  }

  /** The pair at `i` is built from the campaign lead at the `i`-th listed position. */
  predicate DetailFrom(campaignLeads: seq<CampaignLead>, p: nat, d: LeadDetail)
  {
    p < |campaignLeads| && d == LeadDetail(campaignLeads[p].lead.id, campaignLeads[p].campaignLeadMapId)
  }

  lemma DetailsFromPrepend(campaignLeads: seq<CampaignLead>, sh: seq<nat>, rr: seq<LeadDetail>)
    requires campaignLeads != [] && |sh| == |rr|
    requires forall j :: 0 <= j < |sh| ==> DetailFrom(campaignLeads, sh[j], rr[j])
    ensures var d := LeadDetail(campaignLeads[0].lead.id, campaignLeads[0].campaignLeadMapId);
      forall i :: 0 <= i < |sh| + 1 ==> DetailFrom(campaignLeads, ([0] + sh)[i], ([d] + rr)[i])
  {
    var d := LeadDetail(campaignLeads[0].lead.id, campaignLeads[0].campaignLeadMapId);
    forall i | 0 <= i < |sh| + 1
      ensures DetailFrom(campaignLeads, ([0] + sh)[i], ([d] + rr)[i])
    {
      if i > 0 {
        assert ([0] + sh)[i] == sh[i - 1] && ([d] + rr)[i] == rr[i - 1];
      }
    }
  }

  lemma {:induction false} ListedIndexesCount(campaignLeads: seq<CampaignLead>, toRemove: seq<LeadRow>)
    ensures |ListedIndexes(campaignLeads, toRemove)| == |LeadDetails(campaignLeads, toRemove)|
  {
    if campaignLeads != [] {
      ListedIndexesCount(campaignLeads[1..], toRemove);
    }
  }

  lemma {:induction false} ListedIndexesSelect(campaignLeads: seq<CampaignLead>, toRemove: seq<LeadRow>)
    requires |ListedIndexes(campaignLeads, toRemove)| == |LeadDetails(campaignLeads, toRemove)|
    ensures forall i :: 0 <= i < |ListedIndexes(campaignLeads, toRemove)| ==>
      DetailFrom(campaignLeads, ListedIndexes(campaignLeads, toRemove)[i], LeadDetails(campaignLeads, toRemove)[i])
  {
    if campaignLeads != [] {
      var rest := campaignLeads[1..];
      ListedIndexesCount(rest, toRemove);
      ListedIndexesSelect(rest, toRemove);
      var ri := ListedIndexes(rest, toRemove);
      var rr := LeadDetails(rest, toRemove);
      var sh := Shifted(ri);
      var cl := campaignLeads[0];
      var idx := ListedIndexes(campaignLeads, toRemove);
      var r := LeadDetails(campaignLeads, toRemove);
      forall j | 0 <= j < |ri|
        ensures DetailFrom(campaignLeads, sh[j], rr[j])
      {
        assert DetailFrom(rest, ri[j], rr[j]);
        assert campaignLeads[ri[j] + 1] == rest[ri[j]];
      }
      if EmailListed(toRemove, cl.lead.email) {
        assert idx == [0] + sh;
        assert r == [LeadDetail(cl.lead.id, cl.campaignLeadMapId)] + rr;
        DetailsFromPrepend(campaignLeads, sh, rr);
      } else {
        assert idx == sh;
        assert r == rr;
      }
    }
  }

  lemma {:induction false} ListedIndexesIncrease(campaignLeads: seq<CampaignLead>, toRemove: seq<LeadRow>)
    ensures Increasing(ListedIndexes(campaignLeads, toRemove))
  {
    if campaignLeads != [] {
      var ri := ListedIndexes(campaignLeads[1..], toRemove);
      ListedIndexesIncrease(campaignLeads[1..], toRemove);
      var sh := Shifted(ri);
      var head: seq<nat> := if EmailListed(toRemove, campaignLeads[0].lead.email) then [0] else [];
      var idx := head + sh;
      assert idx == ListedIndexes(campaignLeads, toRemove);
      forall i, j | 0 <= i < j < |idx|
        ensures idx[i] < idx[j]
      {
        if i < |head| {
          assert idx[i] == 0 && idx[j] == sh[j - |head|];
        } else {
          assert ri[i - |head|] < ri[j - |head|];
          assert idx[i] == sh[i - |head|] && idx[j] == sh[j - |head|];
        }
      }
    }
  }

  lemma {:induction false} ListedIndexesMembers(campaignLeads: seq<CampaignLead>, toRemove: seq<LeadRow>)
    ensures forall k :: 0 <= k < |campaignLeads| ==>
      (k in ListedIndexes(campaignLeads, toRemove) <==> EmailListed(toRemove, campaignLeads[k].lead.email))
  {
    if campaignLeads != [] {
      var rest := campaignLeads[1..];
      var ri := ListedIndexes(rest, toRemove);
      ListedIndexesMembers(rest, toRemove);
      forall k | 1 <= k < |campaignLeads|
        ensures k in Shifted(ri) <==> EmailListed(toRemove, campaignLeads[k].lead.email)
      {
        ShiftedMembers(ri, k - 1);
        assert campaignLeads[k] == rest[k - 1];
      }
      ShiftedMembers(ri, 0);
    }
  }

  /**
   * The pairs keep the campaign-lead order: they come from strictly
   * increasing positions `idx` of the campaign leads, one pair per
   * position, and a position is among them exactly when its lead's email
   * is listed.
   */
  lemma LeadDetailsPositions(campaignLeads: seq<CampaignLead>, toRemove: seq<LeadRow>) returns (idx: seq<nat>)
    ensures var r := LeadDetails(campaignLeads, toRemove);
      && |idx| == |r|
      && (forall i :: 0 <= i < |idx| ==>
            idx[i] < |campaignLeads| && r[i] == LeadDetail(campaignLeads[idx[i]].lead.id, campaignLeads[idx[i]].campaignLeadMapId))
      && (forall i, j :: 0 <= i < j < |idx| ==> idx[i] < idx[j])
      && (forall k :: 0 <= k < |campaignLeads| ==> (k in idx <==> EmailListed(toRemove, campaignLeads[k].lead.email)))
  {
    idx := ListedIndexes(campaignLeads, toRemove);
    ListedIndexesCount(campaignLeads, toRemove);
    ListedIndexesSelect(campaignLeads, toRemove);
    ListedIndexesIncrease(campaignLeads, toRemove);
    ListedIndexesMembers(campaignLeads, toRemove);
  }

  /** No removed lead, no pairs. */
  lemma {:induction false} LeadDetailsOfNothing(campaignLeads: seq<CampaignLead>)
    ensures LeadDetails(campaignLeads, []) == []
  {
    if campaignLeads != [] {
      LeadDetailsOfNothing(campaignLeads[1..]);
    }
  }

  /** `[ld["leadId"] for ld in lead_details]`. */
  function LeadIds(details: seq<LeadDetail>): seq<int>
  {
    seq(|details|, i requires 0 <= i < |details| => details[i].leadId)
  }

  /** `[ld["leadMappingId"] for ld in lead_details]`. */
  function LeadMapIds(details: seq<LeadDetail>): seq<int>
  {
    seq(|details|, i requires 0 <= i < |details| => details[i].leadMappingId)
  }

  /**
   * The two id lists the page sends are built from the same pairs, so the
   * delete request never fails its length check: it is built exactly
   * when the token is set, and carries the pairs' ids position by position.
   */
  lemma RemovalNeverMismatches(token: Option<string>, campaignId: int, details: seq<LeadDetail>)
    ensures var r := RemoveMultipleLeadsRequest(token, IntToString(campaignId), LeadIds(details), LeadMapIds(details));
      && r != Err(LengthMismatch)
      && (r.Ok? <==> Truthy(token))
      && (r.Ok? ==> forall i :: 0 <= i < |details| ==>
            r.value.body.value.emailLeadIds[i] == details[i].leadId
            && r.value.body.value.emailLeadMapIds[i] == details[i].leadMappingId)
  {
  }

  /**
   * The campaign's leads, fetched page by page, matched by email against
   * the leads to remove; `finished` tells whether the fetch loop ended
   * within the request budget.
   */
  method MatchCampaignLeads(source: PageSource, campaignId: int, apiKey: string, maxRequests: nat, toRemove: seq<LeadRow>)
    returns (details: seq<LeadDetail>, finished: bool)
    ensures finished == GetLeads(source, campaignId, None, None, apiKey, maxRequests).finished
    ensures details == LeadDetails(GetLeads(source, campaignId, None, None, apiKey, maxRequests).leads, toRemove)
  {
    var leads, done := GetLeadsByCampaignIdWithPagination(source, campaignId, None, None, apiKey, maxRequests);
    details := LeadDetails(leads, toRemove);
    finished := done;
  }

  // ---------------------------------------------------------------- page state

  /** The page's session state between reruns. */
  class FilterSession {
    var leadsToRemove: seq<LeadRow>
    var leadDetails: seq<LeadDetail>
    var filteredBlobUrl: string
    var removing: bool

    /** `ss.setdefault(...)`: nothing filtered, nothing to remove. */
    constructor ()
      ensures leadsToRemove == [] && leadDetails == [] && filteredBlobUrl == "" && !removing
    {
      leadsToRemove := [];
      leadDetails := [];
      filteredBlobUrl := "";
      removing := false;
    }

    /**
     * The filter button: classify the leads, then keep the result as
     * `KeepResult` describes.
     */
    method FilterAndUpload(model: Model, raw: seq<LeadRow>, crit: Criteria, upload: seq<LeadRow> -> string,
                           source: PageSource, campaignId: int, apiKey: string, maxRequests: nat)
      modifies this
      ensures var found := Flagged(Classifier(model, crit), raw);
        && (found == [] ==> leadsToRemove == [] && leadDetails == [] && filteredBlobUrl == "")
        && (found != [] ==> leadsToRemove == found && filteredBlobUrl == upload(found))
      ensures var found := Flagged(Classifier(model, crit), raw);
        var fetch := GetLeads(source, campaignId, None, None, apiKey, maxRequests);
        found != [] ==> leadDetails == if fetch.finished then LeadDetails(fetch.leads, found) else old(leadDetails)
      ensures removing == old(removing)
    {
      var found := ProcessLeads(model, raw, crit);
      KeepResult(found, upload, source, campaignId, apiKey, maxRequests);
    }

    /**
     * With no lead flagged, the stale state is cleared; otherwise the leads
     * are uploaded and kept with the blob URL, and then matched by email
     * against the campaign's leads. The pairs are stored only once the
     * fetch has ended: while it has not, the earlier pairs stay.
     */
    method KeepResult(found: seq<LeadRow>, upload: seq<LeadRow> -> string,
                      source: PageSource, campaignId: int, apiKey: string, maxRequests: nat)
      modifies this
      ensures found == [] ==> leadsToRemove == [] && leadDetails == [] && filteredBlobUrl == ""
      ensures found != [] ==> leadsToRemove == found && filteredBlobUrl == upload(found)
      ensures var fetch := GetLeads(source, campaignId, None, None, apiKey, maxRequests);
        found != [] ==> leadDetails == if fetch.finished then LeadDetails(fetch.leads, found) else old(leadDetails)
      ensures removing == old(removing)
    {
      if found == [] {
        leadsToRemove := [];
        leadDetails := [];
        filteredBlobUrl := "";
      } else {
        var url := upload(found);
        leadsToRemove := found;
        filteredBlobUrl := url;
        var details, finished := MatchCampaignLeads(source, campaignId, apiKey, maxRequests, found);
        if finished {
          leadDetails := details;
        }
      }
    }

    /** The removal button, shown only while there are matched leads: it arms the removal. */
    method ArmRemoval()
      modifies this
      ensures removing == (old(removing) || old(leadDetails) != [])
      ensures leadsToRemove == old(leadsToRemove) && leadDetails == old(leadDetails) && filteredBlobUrl == old(filteredBlobUrl)
    {
      if leadDetails != [] {
        removing := true;
      }
    }

    /**
     * The armed removal, run once: the delete request for the matched
     * pairs, sent through `send`; whatever its outcome, the flag is cleared.
     */
    method Remove<J>(token: Option<string>, campaignId: int, send: HttpRequest<DeleteLeadsBody> -> Outcome<J>)
      returns (r: Result<J, PyError>)
      requires removing
      modifies this
      ensures r == RemoveMultipleLeadsFromCampaign(token, IntToString(campaignId), LeadIds(leadDetails), LeadMapIds(leadDetails), send)
      ensures r.Err? ==> r.error != LengthMismatch
      ensures !removing
      ensures leadsToRemove == old(leadsToRemove) && leadDetails == old(leadDetails) && filteredBlobUrl == old(filteredBlobUrl)
    {
      RemovalNeverMismatches(token, campaignId, leadDetails);
      r := RemoveMultipleLeadsFromCampaign(token, IntToString(campaignId), LeadIds(leadDetails), LeadMapIds(leadDetails), send);
      removing := false;
    }
  }
}
