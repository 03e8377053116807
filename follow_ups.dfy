/**
 * pages/va/add_follow_ups.py: duplicating a campaign's email sequences as
 * follow-ups, the optional raise of the follow-up percentage, and the
 * page's runner that processes the selected campaigns one by one and
 * sorts them into successes and failures. The platform's answers are the
 * fields of a `Platform` value; the page's widgets are parameters.
 */
module FollowUps {
  import opened Wrappers
  import opened Text
  import opened Schema
  import opened Http
  import opened SmartleadClient
  import opened SmartleadInternal

  // ---------------------------------------------------------------- sequence inputs

  /** A variant as resubmitted: the same texts and distribution, with its id kept or cleared. */
  function VariantInput(v: SequenceVariant, keepId: bool): SequenceVariantInput
  {
    SequenceVariantInput(v.subject, if keepId then Some(v.id) else None, v.emailBody, v.variantLabel,
                         if v.variantDistributionPercentage.Some? then Some(v.variantDistributionPercentage.value as real) else None)
  }

  /** The variant list of a sequence input: none when the sequence has no variants or an empty list. */
  function VariantInputs(s: CampaignSequence, keepIds: bool): Option<seq<SequenceVariantInput>>
  {
    if s.sequenceVariants.None? || s.sequenceVariants.value == [] then None
    else
      var vs := s.sequenceVariants.value;
      Some(seq(|vs|, i requires 0 <= i < |vs| => VariantInput(vs[i], keepIds)))
  }

  /** An existing sequence resubmitted as it is: same id, number, texts, delay and variants. */
  function OriginalInput(s: CampaignSequence): SequenceInput
  {
    SequenceInput(s.seqNumber, Some(s.id), Some(s.subject), Some(s.emailBody),
                  Some(SeqDelayDetailsInput(s.seqDelayDetails.delayInDays)), VariantInputs(s, true))
  }

  /**
   * The follow-up copy of the `index`-th of `count` sequences: no id,
   * numbered after all existing ones, the given delay for the first copy
   * and the original's delay for the others, variants without ids.
   */
  function CloneInput(s: CampaignSequence, count: nat, index: nat, delay: int): SequenceInput
  {
    SequenceInput(count + index + 1, None, Some(s.subject), Some(s.emailBody),
                  Some(SeqDelayDetailsInput(if index == 0 then delay else s.seqDelayDetails.delayInDays)),
                  VariantInputs(s, false))
  }

  /** What one page of follow-ups submits: every original, then every copy, in order. */
  function FollowUpInputs(seqs: seq<CampaignSequence>, delay: int): seq<SequenceInput>
  {
    seq(|seqs|, i requires 0 <= i < |seqs| => OriginalInput(seqs[i]))
    + seq(|seqs|, i requires 0 <= i < |seqs| => CloneInput(seqs[i], |seqs|, i, delay))
  }

  /** A variant list with every id cleared. */
  function ClearVariantIds(vs: Option<seq<SequenceVariantInput>>): Option<seq<SequenceVariantInput>>
  {
    if vs.None? then None
    else Some(seq(|vs.value|, i requires 0 <= i < |vs.value| => vs.value[i].(id := None)))
  }

  /**
   * The two loops of `add_follow_ups_to_campaign`: the originals, then the
   * copies, appended one at a time.
   */
  method BuildFollowUpInputs(seqs: seq<CampaignSequence>, delay: int) returns (inputs: seq<SequenceInput>)
    ensures inputs == FollowUpInputs(seqs, delay)
  {
    var originals: seq<SequenceInput> := [];
    for i := 0 to |seqs|
      invariant originals == seq(i, j requires 0 <= j < i => OriginalInput(seqs[j]))
    {
      originals := originals + [OriginalInput(seqs[i])];
    }
    var clones: seq<SequenceInput> := [];
    for i := 0 to |seqs|
      invariant clones == seq(i, j requires 0 <= j < i => CloneInput(seqs[j], |seqs|, j, delay))
    {
      clones := clones + [CloneInput(seqs[i], |seqs|, i, delay)];
    }
    inputs := originals + clones;
  }

  /**
   * `out` carries the variants `vs` of a sequence: absent exactly when the
   * sequence has none or an empty list, otherwise one input per variant,
   * in order, with the same subject, body, label and distribution, and
   * the variant's id when `keepIds` holds and no id otherwise.
   */
  ghost predicate VariantsCarried(vs: Option<seq<SequenceVariant>>, out: Option<seq<SequenceVariantInput>>, keepIds: bool)
  {
    && ((vs.None? || vs.value == []) <==> out.None?)
    && (out.Some? ==>
          && |out.value| == |vs.value|
          && forall k :: 0 <= k < |out.value| ==>
               && out.value[k].subject == vs.value[k].subject
               && out.value[k].emailBody == vs.value[k].emailBody
               && out.value[k].variantLabel == vs.value[k].variantLabel
               && out.value[k].id == (if keepIds then Some(vs.value[k].id) else None)
               && (out.value[k].variantDistributionPercentage.Some? <==> vs.value[k].variantDistributionPercentage.Some?)
               && (out.value[k].variantDistributionPercentage.Some? ==>
                     out.value[k].variantDistributionPercentage.value == vs.value[k].variantDistributionPercentage.value as real))
  }

  /** Either variant list of a sequence carries its variants. */
  lemma VariantInputsCarry(s: CampaignSequence, keepIds: bool)
    ensures VariantsCarried(s.sequenceVariants, VariantInputs(s, keepIds), keepIds)
  {
  }

  /** The submission keeps the originals first, exactly as they were, variants and their ids included, and doubles the count. */
  lemma FollowUpOriginalsKept(seqs: seq<CampaignSequence>, delay: int, i: nat)
    requires i < |seqs|
    ensures |FollowUpInputs(seqs, delay)| == 2 * |seqs|
    ensures var r := FollowUpInputs(seqs, delay)[i];
      && r.id == Some(seqs[i].id) && r.seqNumber == seqs[i].seqNumber
      && r.subject == Some(seqs[i].subject) && r.emailBody == Some(seqs[i].emailBody)
      && r.seqDelayDetails == Some(SeqDelayDetailsInput(seqs[i].seqDelayDetails.delayInDays))
      && VariantsCarried(seqs[i].sequenceVariants, r.seqVariants, true)
  {
    assert FollowUpInputs(seqs, delay)[i] == OriginalInput(seqs[i]);
    VariantInputsCarry(seqs[i], true);
  }

  /** Copy `i` carries the variants of original `i`, texts and distribution kept, every id cleared. */
  lemma FollowUpCloneVariants(seqs: seq<CampaignSequence>, delay: int, i: nat)
    requires i < |seqs|
    ensures VariantsCarried(seqs[i].sequenceVariants, FollowUpInputs(seqs, delay)[|seqs| + i].seqVariants, false)
  {
    assert FollowUpInputs(seqs, delay)[|seqs| + i] == CloneInput(seqs[i], |seqs|, i, delay);
    VariantInputsCarry(seqs[i], false);
  }

  /**
   * Copy `i` is the original `i` with its ids cleared, renumbered to
   * `len + i + 1`, and with the requested delay in place of the original's
   * when it is the first copy.
   */
  lemma {:induction false} FollowUpCloneIsRenumberedOriginal(seqs: seq<CampaignSequence>, delay: int, i: nat)
    requires i < |seqs|
    ensures var all := FollowUpInputs(seqs, delay);
      var o := all[i];
      all[|seqs| + i] == o.(id := None, seqNumber := |seqs| + i + 1,
                            seqDelayDetails := Some(SeqDelayDetailsInput(if i == 0 then delay else seqs[i].seqDelayDetails.delayInDays)),
                            seqVariants := ClearVariantIds(o.seqVariants))
  {
    var s := seqs[i];
    var o := OriginalInput(s);
    assert FollowUpInputs(seqs, delay)[i] == o;
    assert FollowUpInputs(seqs, delay)[|seqs| + i] == CloneInput(s, |seqs|, i, delay);
    if s.sequenceVariants.Some? && s.sequenceVariants.value != [] {
      var vs := s.sequenceVariants.value;
      var kept := seq(|vs|, k requires 0 <= k < |vs| => VariantInput(vs[k], true));
      var cleared := seq(|vs|, k requires 0 <= k < |vs| => VariantInput(vs[k], false));
      assert o.seqVariants == Some(kept);
      assert forall k :: 0 <= k < |vs| ==> kept[k].(id := None) == cleared[k];
      assert ClearVariantIds(Some(kept)).value == cleared;
    }
  }

  /** No copy carries an id, neither for itself nor for any of its variants. */
  lemma FollowUpClonesHaveNoIds(seqs: seq<CampaignSequence>, delay: int, i: nat)
    requires |seqs| <= i < 2 * |seqs|
    ensures var r := FollowUpInputs(seqs, delay)[i];
      r.id.None? && (r.seqVariants.Some? ==> forall k :: 0 <= k < |r.seqVariants.value| ==> r.seqVariants.value[k].id.None?)
  {
  }

  /**
   * When the existing sequences are numbered 1, 2, ..., n, the submission
   * is numbered 1, 2, ..., 2n with no gap and no repeat.
   */
  lemma FollowUpNumbering(seqs: seq<CampaignSequence>, delay: int)
    requires forall i :: 0 <= i < |seqs| ==> seqs[i].seqNumber == i + 1
    ensures forall j :: 0 <= j < |FollowUpInputs(seqs, delay)| ==> FollowUpInputs(seqs, delay)[j].seqNumber == j + 1
  {
    var all := FollowUpInputs(seqs, delay);
    forall j | 0 <= j < |all|
      ensures all[j].seqNumber == j + 1
    {
      if j < |seqs| {
        assert all[j] == OriginalInput(seqs[j]);
      } else {
        assert all[j] == CloneInput(seqs[j - |seqs|], |seqs|, j - |seqs|, delay);
      }
    }
  }

  /** The delay of each input: originals keep theirs, the first copy waits `delay`, later copies keep the original's. */
  lemma FollowUpDelays(seqs: seq<CampaignSequence>, delay: int, j: nat)
    requires j < 2 * |seqs|
    ensures var r := FollowUpInputs(seqs, delay)[j];
      r.seqDelayDetails.Some?
      && r.seqDelayDetails.value.delayInDays
         == if j == |seqs| then delay
            else if j < |seqs| then seqs[j].seqDelayDetails.delayInDays
            else seqs[j - |seqs|].seqDelayDetails.delayInDays
  {
    var all := FollowUpInputs(seqs, delay);
    if j < |seqs| {
      assert all[j] == OriginalInput(seqs[j]);
    } else {
      assert all[j] == CloneInput(seqs[j - |seqs|], |seqs|, j - |seqs|, delay);
    }
  }

  // ---------------------------------------------------------------- the platform

  /** The platform's answers, per campaign id: the HTTP-level results the clients interpret. */
  datatype Platform = Platform(
    statistics: int -> Result<Validated<CampaignStatistics>, PyError>,
    sequences: int -> Result<ListPayload<CampaignSequence>, PyError>,
    addSequences: (int, seq<SequenceInput>) -> Result<(), PyError>,
    updateFollowUp: (int, int) -> Result<(), PyError>)

  /** The percentage update exactly as the page calls it (always a TypeError). */
  function AsWrittenUpdate(token: Option<string>): (int, int) -> Result<(), PyError>
  {
    (cid: int, pct: int) => UpdateFollowUpPercentageAsWritten(token, cid, pct)
  }

  /** The intended percentage update: the mutation request, sent through `graphql`. */
  function IntendedUpdate(token: Option<string>, graphql: HttpRequest<GraphQLBody> -> Outcome<()>)
    : (int, int) -> Result<(), PyError>
  {
    (cid: int, pct: int) =>
      match UpdateFollowUpPercentage(token, cid, pct)
      case Err(e) => Err(e)
      case Ok(req) => GraphQLCall(graphql(req))
  }

  /**
   * `add_follow_ups_to_campaign` as a value: nothing (Ok(None)) when the
   * campaign already has the expected number of sequences, otherwise the
   * inputs it submitted (Ok(Some(..))) or the error. A failed submission
   * is wrapped a second time in the same campaign text.
   */
  function FollowUpSubmission(p: Platform, campaignId: int, delay: int, expected: Option<int>)
    : Result<Option<seq<SequenceInput>>, PyError>
  {
    match GetCampaignSequences(campaignId, p.sequences(campaignId))
    case Err(e) => Err(e)
    case Ok(seqs) =>
      if expected.Some? && |seqs| >= expected.value then Ok(None)
      else
        var inputs := FollowUpInputs(seqs, delay);
        match AddSequencesToCampaign(campaignId, p.addSequences(campaignId, inputs))
        case Ok(_) => Ok(Some(inputs))
        case Err(e) => Err(PyError(RuntimeError, AddSequencesError(campaignId) + e.message))
  }

  function AddSequencesError(campaignId: int): string
  {
    "Error adding sequences to campaign " + IntToString(campaignId) + ": "
  }

  /** `add_follow_ups_to_campaign(smartlead_campaign_id, delay_period, expected_sequence_length)`. */
  method AddFollowUpsToCampaign(p: Platform, campaignId: int, delay: int, expected: Option<int>)
    returns (r: Result<Option<seq<SequenceInput>>, PyError>)
    ensures r == FollowUpSubmission(p, campaignId, delay, expected)
  {
    var fetched := GetCampaignSequences(campaignId, p.sequences(campaignId));
    if fetched.Err? {
      return Err(fetched.error);
    }
    var seqs := fetched.value;
    if expected.Some? && |seqs| >= expected.value {
      return Ok(None);
    }
    var inputs := BuildFollowUpInputs(seqs, delay);
    var added := AddSequencesToCampaign(campaignId, p.addSequences(campaignId, inputs));
    if added.Err? {
      return Err(PyError(RuntimeError, AddSequencesError(campaignId) + added.error.message));
    }
    r := Ok(Some(inputs));
  }

  /**
   * What a submission does, case by case: the sequences are read first;
   * with the expected count already reached nothing is posted; otherwise
   * exactly `FollowUpInputs` is posted, and a failure of the post carries
   * the campaign text twice before the platform's message.
   */
  lemma FollowUpSubmissionCases(p: Platform, campaignId: int, delay: int, expected: Option<int>)
    ensures var fetched := GetCampaignSequences(campaignId, p.sequences(campaignId));
      var r := FollowUpSubmission(p, campaignId, delay, expected);
      && (fetched.Err? ==> r == Err(fetched.error))
      && (fetched.Ok? && expected.Some? && |fetched.value| >= expected.value ==> r == Ok(None))
      && (fetched.Ok? && !(expected.Some? && |fetched.value| >= expected.value) ==>
            var inputs := FollowUpInputs(fetched.value, delay);
            var posted := p.addSequences(campaignId, inputs);
            && (posted.Ok? ==> r == Ok(Some(inputs)))
            && (posted.Err? ==> r == Err(PyError(RuntimeError, AddSequencesError(campaignId) + AddSequencesError(campaignId)
                                                               + posted.error.message))))
  {
    var fetched := GetCampaignSequences(campaignId, p.sequences(campaignId));
    if fetched.Ok? && !(expected.Some? && |fetched.value| >= expected.value) {
      var inputs := FollowUpInputs(fetched.value, delay);
      var posted := p.addSequences(campaignId, inputs);
      if posted.Err? {
        var inner := AddSequencesToCampaign(campaignId, posted);
        assert inner.error.message == AddSequencesError(campaignId) + posted.error.message;
        assert AddSequencesError(campaignId) + inner.error.message
            == AddSequencesError(campaignId) + AddSequencesError(campaignId) + posted.error.message;
      }
    }
  }

  /** A run that posts, posts two inputs per sequence it read: the originals and their copies. */
  lemma FollowUpInputsLength(seqs: seq<CampaignSequence>, delay: int)
    ensures |FollowUpInputs(seqs, delay)| == 2 * |seqs|
  {
  }

  /**
   * A successful run submits twice as many sequences as it read, so a
   * rerun that expects that many stops at the guard once the platform
   * lists them, and posts nothing.
   */
  lemma FollowUpRerunAfterSuccess(p: Platform, p2: Platform, campaignId: int, delay: int, expected: Option<int>,
                                  posted: seq<SequenceInput>)
    requires FollowUpSubmission(p, campaignId, delay, expected) == Ok(Some(posted))
    requires GetCampaignSequences(campaignId, p2.sequences(campaignId)).Ok?
    requires |GetCampaignSequences(campaignId, p2.sequences(campaignId)).value| == |posted|
    ensures GetCampaignSequences(campaignId, p.sequences(campaignId)).Ok?
    ensures |posted| == 2 * |GetCampaignSequences(campaignId, p.sequences(campaignId)).value|
    ensures FollowUpSubmission(p2, campaignId, delay, Some(|posted|)) == Ok(None)
  {
    var seqs := GetCampaignSequences(campaignId, p.sequences(campaignId)).value;
    assert posted == FollowUpInputs(seqs, delay);
    FollowUpInputsLength(seqs, delay);
  }

  // ---------------------------------------------------------------- follow-up percentage gate

  const FollowUpTarget: int := 90

  /**
   * The campaign gets the 90% follow-up percentage when it has no leads or
   * at least 70% of its leads were sent to (`unique_sent / total >= 0.70`).
   */
  predicate ShouldRaiseFollowUpPercentage(totalLeads: int, uniqueSent: int)
  {
    totalLeads == 0 || (uniqueSent as real) / (totalLeads as real) >= 0.70
  }

  /** For a positive lead count the gate is the integer test `10 * sent >= 7 * total`. */
  lemma ShouldRaiseIntegerForm(totalLeads: int, uniqueSent: int)
    requires totalLeads > 0
    ensures ShouldRaiseFollowUpPercentage(totalLeads, uniqueSent) <==> 10 * uniqueSent >= 7 * totalLeads
  {
    var t := totalLeads as real;
    var s := uniqueSent as real;
    var q := s / t;
    assert q * t == s;
    if q >= 0.70 {
      assert q * t >= 0.70 * t;
    } else {
      assert q * t < 0.70 * t;
    }
  }

  /** The boundary: 70 of 100 is raised, 69 of 100 is not, and an empty campaign always is. */
  lemma ShouldRaiseExamples(sent: int)
    ensures ShouldRaiseFollowUpPercentage(0, sent)
    ensures ShouldRaiseFollowUpPercentage(100, 70)
    ensures !ShouldRaiseFollowUpPercentage(100, 69)
  {
    ShouldRaiseIntegerForm(100, 70);
    ShouldRaiseIntegerForm(100, 69);
  }

  /** `int(stats.unique_sent_count)`'s error. */
  function IntLiteralError(s: string): PyError
  {
    PyError(ValueError, "invalid literal for int() with base 10: '" + s + "'")
  }

  /**
   * The optional step before adding follow-ups: read the statistics, parse
   * the sent count, and update the percentage when the gate holds.
   */
  function RaiseFollowUpStep(p: Platform, campaignId: int): Result<(), PyError>
  {
    match GetCampaignStatistics(campaignId, p.statistics(campaignId))
    case Err(e) => Err(e)
    case Ok(stats) =>
      match ParseInt(stats.uniqueSentCount)
      case None => Err(IntLiteralError(stats.uniqueSentCount))
      case Some(sent) =>
        if ShouldRaiseFollowUpPercentage(stats.campaignLeadStats.total, sent) then p.updateFollowUp(campaignId, FollowUpTarget)
        else Ok(())
  }

  /** For a negative lead count the ratio's sign flips, and the gate is `10 * sent <= 7 * total`. */
  lemma ShouldRaiseNegativeTotal(totalLeads: int, uniqueSent: int)
    requires totalLeads < 0
    ensures ShouldRaiseFollowUpPercentage(totalLeads, uniqueSent) <==> 10 * uniqueSent <= 7 * totalLeads
  {
    var t := totalLeads as real;
    var s := uniqueSent as real;
    assert (-s) / (-t) == s / t;
    assert (-uniqueSent) as real == -s && (-totalLeads) as real == -t;
    ShouldRaiseIntegerForm(-totalLeads, -uniqueSent);
  }

  /**
   * How the step fails before the gate: a failed statistics request
   * becomes the client's RuntimeError naming the campaign, an answer that
   * does not fit the schema a RuntimeError too, and a sent count that is
   * not an integer literal `int()`'s ValueError quoting it.
   */
  lemma RaiseFollowUpStepErrors(p: Platform, campaignId: int)
    ensures var answer := p.statistics(campaignId);
      answer.Err? ==>
        RaiseFollowUpStep(p, campaignId)
        == Err(PyError(RuntimeError, "Failed to get campaign statistics for campaign " + IntToString(campaignId)
                                     + ": " + answer.error.message))
    ensures var answer := p.statistics(campaignId);
      answer.Ok? && answer.value.Invalid? ==>
        RaiseFollowUpStep(p, campaignId).Err? && RaiseFollowUpStep(p, campaignId).error.kind == RuntimeError
    ensures var answer := p.statistics(campaignId);
      answer.Ok? && answer.value.Valid? && ParseInt(answer.value.value.uniqueSentCount).None? ==>
        RaiseFollowUpStep(p, campaignId)
        == Err(PyError(ValueError, "invalid literal for int() with base 10: '" + answer.value.value.uniqueSentCount + "'"))
  {
  }

  /**
   * Past the parse, the step is the percentage update exactly when the
   * campaign has no leads or at least 70% were sent to (in integers,
   * `10 * sent >= 7 * total` for a positive total; the inequality turns
   * round for a negative one), and otherwise succeeds without one.
   */
  lemma RaiseFollowUpStepGate(p: Platform, campaignId: int, stats: CampaignStatistics, sent: int)
    requires p.statistics(campaignId) == Ok(Valid(stats))
    requires ParseInt(stats.uniqueSentCount) == Some(sent)
    ensures var total := stats.campaignLeadStats.total;
      RaiseFollowUpStep(p, campaignId)
      == if total == 0 || (total > 0 && 10 * sent >= 7 * total) || (total < 0 && 10 * sent <= 7 * total)
         then p.updateFollowUp(campaignId, FollowUpTarget) else Ok(())
  {
    var total := stats.campaignLeadStats.total;
    assert GetCampaignStatistics(campaignId, p.statistics(campaignId)) == Ok(stats);
    if total > 0 {
      ShouldRaiseIntegerForm(total, sent);
    } else if total < 0 {
      ShouldRaiseNegativeTotal(total, sent);
    }
  }

  /**
   * The body of the runner's `try`: the optional raise, then the
   * follow-ups (the runner passes no expected length, so the guard never
   * stops it). The first error ends the campaign's processing.
   */
  function CampaignOutcome(p: Platform, campaignId: int, delay: int, changePercentage: bool): Result<(), PyError>
  {
    var raised := if changePercentage then RaiseFollowUpStep(p, campaignId) else Ok(());
    if raised.Err? then Err(raised.error)
    else match FollowUpSubmission(p, campaignId, delay, None)
      case Err(e) => Err(e)
      case Ok(_) => Ok(())
  }

  /** Without the percentage option, a campaign succeeds exactly when its follow-ups are added. */
  lemma OutcomeWithoutPercentage(p: Platform, campaignId: int, delay: int)
    ensures CampaignOutcome(p, campaignId, delay, false).Ok?
        <==> && GetCampaignSequences(campaignId, p.sequences(campaignId)).Ok?
             && p.addSequences(campaignId, FollowUpInputs(GetCampaignSequences(campaignId, p.sequences(campaignId)).value, delay)).Ok?
  {
    var sub := FollowUpSubmission(p, campaignId, delay, None);
    assert CampaignOutcome(p, campaignId, delay, false).Ok? <==> sub.Ok?;
  }

  /**
   * As written, with the percentage option on, every campaign whose
   * statistics pass the gate fails with the TypeError of the miscalled
   * GraphQL helper, and its follow-ups are never added.
   */
  lemma AsWrittenGatedCampaignsFail(p: Platform, token: Option<string>, campaignId: int, delay: int)
    requires p.updateFollowUp == AsWrittenUpdate(token)
    requires GetCampaignStatistics(campaignId, p.statistics(campaignId)).Ok?
    requires var st := GetCampaignStatistics(campaignId, p.statistics(campaignId)).value;
      ParseInt(st.uniqueSentCount).Some? && ShouldRaiseFollowUpPercentage(st.campaignLeadStats.total, ParseInt(st.uniqueSentCount).value)
    ensures CampaignOutcome(p, campaignId, delay, true).Err?
    ensures CampaignOutcome(p, campaignId, delay, true).error.kind == TypeError
  {
    var update := p.updateFollowUp(campaignId, FollowUpTarget);
    assert update == UpdateFollowUpPercentageAsWritten(token, campaignId, FollowUpTarget);
    assert RaiseFollowUpStep(p, campaignId) == update;
  }

  /**
   * With the intended update, a valid token and a platform that accepts
   * the mutation, the gate no longer stands in the way: the campaign
   * succeeds exactly as it would without the option.
   */
  lemma IntendedUpdateLetsCampaignsThrough(p: Platform, token: Option<string>, graphql: HttpRequest<GraphQLBody> -> Outcome<()>,
                                           campaignId: int, delay: int)
    requires p.updateFollowUp == IntendedUpdate(token, graphql)
    requires Truthy(token)
    requires graphql(UpdateFollowUpPercentage(token, campaignId, FollowUpTarget).value).Success?
    requires GetCampaignStatistics(campaignId, p.statistics(campaignId)).Ok?
    requires ParseInt(GetCampaignStatistics(campaignId, p.statistics(campaignId)).value.uniqueSentCount).Some?
    ensures CampaignOutcome(p, campaignId, delay, true) == CampaignOutcome(p, campaignId, delay, false)
  {
    var req := UpdateFollowUpPercentage(token, campaignId, FollowUpTarget);
    assert p.updateFollowUp(campaignId, FollowUpTarget) == GraphQLCall(graphql(req.value));
    assert RaiseFollowUpStep(p, campaignId).Ok?;
  }

  /**
   * The runner's `try` block for one campaign. Its result is the campaign
   * outcome; the ghost `outcome` is any function that agrees with
   * `CampaignOutcome` (see `IsOutcomeOf`), so that callers can use the
   * result without unfolding it.
   */
  method ProcessCampaign(p: Platform, campaignId: int, delay: int, changePercentage: bool,
                         ghost outcome: int -> Result<(), PyError>) returns (r: Result<(), PyError>)
    requires IsOutcomeOf(outcome, p, delay, changePercentage)
    ensures r == outcome(campaignId)
  {
    ghost var sub := FollowUpSubmission(p, campaignId, delay, None);
    ghost var gate := if changePercentage then RaiseFollowUpStep(p, campaignId) else Ok(());
    assert CampaignOutcome(p, campaignId, delay, changePercentage)
        == if gate.Err? then Err(gate.error) else if sub.Err? then Err(sub.error) else Ok(());
    if changePercentage {
      var raised := RaiseFollowUpStep(p, campaignId);
      if raised.Err? {
        return Err(raised.error);
      }
    }
    var added := AddFollowUpsToCampaign(p, campaignId, delay, None);
    if added.Err? {
      return Err(added.error);
    }
    r := Ok(());
  }

  // ---------------------------------------------------------------- the runner

  /** A row of the success or failure table. */
  datatype CampaignReport = CampaignReport(campaignId: int, campaignName: string, link: string, error: string)

  /** The label of a campaign in the selection widget. */
  function CampaignLabel(c: Campaign): string
  {
    "Campaign ID: " + IntToString(c.id) + ", name: " + c.name
  }

  /**
   * The label the runner shows for a selected id: the first campaign's
   * label with that id (labels start with the id, so distinct ids never
   * share one and the label dict keeps the first one's position), else a
   * label made of the id alone.
   */
  function LabelFor(campaigns: seq<Campaign>, campaignId: int): string
  {
    if campaigns == [] then "Campaign ID: " + IntToString(campaignId)
    else if campaigns[0].id == campaignId then CampaignLabel(campaigns[0])
    else LabelFor(campaigns[1..], campaignId)
  }

  /** When no campaign has the id, the label is made of the id alone. */
  lemma {:induction false} LabelForNoMatch(campaigns: seq<Campaign>, campaignId: int)
    requires forall i :: 0 <= i < |campaigns| ==> campaigns[i].id != campaignId
    ensures LabelFor(campaigns, campaignId) == "Campaign ID: " + IntToString(campaignId)
  {
    if campaigns != [] {
      var rest := campaigns[1..];
      assert forall i :: 0 <= i < |rest| ==> rest[i].id == campaigns[i + 1].id;
      LabelForNoMatch(rest, campaignId);
    }
  }

  /** When some campaign has the id, the label shown is the first such campaign's. */
  lemma {:induction false} LabelForFirstMatch(campaigns: seq<Campaign>, campaignId: int, i: nat)
    requires i < |campaigns| && campaigns[i].id == campaignId
    ensures exists k :: && 0 <= k <= i && campaigns[k].id == campaignId
                        && LabelFor(campaigns, campaignId) == CampaignLabel(campaigns[k])
                        && forall j :: 0 <= j < k ==> campaigns[j].id != campaignId
  {
    if campaigns[0].id == campaignId {
      assert LabelFor(campaigns, campaignId) == CampaignLabel(campaigns[0]);
    } else {
      var rest := campaigns[1..];
      assert rest[i - 1] == campaigns[i];
      LabelForFirstMatch(rest, campaignId, i - 1);
      var k :| && 0 <= k <= i - 1 && rest[k].id == campaignId && LabelFor(rest, campaignId) == CampaignLabel(rest[k])
               && forall j :: 0 <= j < k ==> rest[j].id != campaignId;
      assert campaigns[k + 1] == rest[k];
      forall j | 0 <= j < k + 1
        ensures campaigns[j].id != campaignId
      {
        if j > 0 { assert campaigns[j] == rest[j - 1]; }
      }
    }
  }

  function AnalyticsLink(campaignId: int): string
  {
    "https://app.smartlead.ai/app/email-campaign/" + IntToString(campaignId) + "/analytics"
  }

  /** `str(e) or "Error adding follow-ups"`. */
  function FailureText(e: PyError): (t: string)
    ensures t != ""
    ensures e.message != "" ==> t == e.message
  {
    if e.message != "" then e.message else "Error adding follow-ups"
  }

  /** The row recorded for one campaign, whichever table it goes to. */
  function ReportFor(campaigns: seq<Campaign>, campaignId: int, outcome: Result<(), PyError>): CampaignReport
  {
    CampaignReport(campaignId, LabelFor(campaigns, campaignId), AnalyticsLink(campaignId),
                   if outcome.Ok? then "N/A" else FailureText(outcome.error))
  }

  /** The rows of the campaigns that succeeded, in selection order. */
  function Successes(campaigns: seq<Campaign>, selected: seq<int>, outcome: int -> Result<(), PyError>): seq<CampaignReport>
  {
    if selected == [] then []
    else
      (if outcome(selected[0]).Ok? then [ReportFor(campaigns, selected[0], outcome(selected[0]))] else [])
      + Successes(campaigns, selected[1..], outcome)
  }

  /** The rows of the campaigns that failed, in selection order. */
  function Failures(campaigns: seq<Campaign>, selected: seq<int>, outcome: int -> Result<(), PyError>): seq<CampaignReport>
  {
    if selected == [] then []
    else
      (if outcome(selected[0]).Err? then [ReportFor(campaigns, selected[0], outcome(selected[0]))] else [])
      + Failures(campaigns, selected[1..], outcome)
  }

  /** The ids of a table's rows. */
  function ReportIds(rs: seq<CampaignReport>): seq<int>
  {
    seq(|rs|, i requires 0 <= i < |rs| => rs[i].campaignId)
  }

  lemma ReportIdsCons(r: CampaignReport, rs: seq<CampaignReport>)
    ensures ReportIds([r] + rs) == [r.campaignId] + ReportIds(rs)
  {
  }

  /**
   * Every selected campaign lands in exactly one table: the ids of the
   * two tables make up the selection, with its multiplicities.
   */
  lemma {:induction false} RunnerPartitionsSelection(campaigns: seq<Campaign>, selected: seq<int>, outcome: int -> Result<(), PyError>)
    ensures multiset(ReportIds(Successes(campaigns, selected, outcome))) + multiset(ReportIds(Failures(campaigns, selected, outcome)))
         == multiset(selected)
  {
    if selected != [] {
      var rest := selected[1..];
      RunnerPartitionsSelection(campaigns, rest, outcome);
      var o := outcome(selected[0]);
      var head := ReportFor(campaigns, selected[0], o);
      var s' := Successes(campaigns, rest, outcome);
      var f' := Failures(campaigns, rest, outcome);
      assert selected == [selected[0]] + rest;
      assert multiset(selected) == multiset{selected[0]} + multiset(rest);
      if o.Ok? {
        assert Successes(campaigns, selected, outcome) == [head] + s';
        assert Failures(campaigns, selected, outcome) == f';
        ReportIdsCons(head, s');
        assert multiset(ReportIds([head] + s')) == multiset{selected[0]} + multiset(ReportIds(s'));
      } else {
        assert Successes(campaigns, selected, outcome) == s';
        assert Failures(campaigns, selected, outcome) == [head] + f';
        ReportIdsCons(head, f');
        assert multiset(ReportIds([head] + f')) == multiset{selected[0]} + multiset(ReportIds(f'));
      }
    }
  }

  /** The two tables together have one row per selected id. */
  lemma RunnerTableSizes(campaigns: seq<Campaign>, selected: seq<int>, outcome: int -> Result<(), PyError>)
    ensures |Successes(campaigns, selected, outcome)| + |Failures(campaigns, selected, outcome)| == |selected|
  {
    var s := Successes(campaigns, selected, outcome);
    var f := Failures(campaigns, selected, outcome);
    RunnerPartitionsSelection(campaigns, selected, outcome);
    assert |multiset(ReportIds(s))| == |s| && |multiset(ReportIds(f))| == |f|;
    assert |multiset(ReportIds(s)) + multiset(ReportIds(f))| == |multiset(selected)|;
  }

  /** A success row: "N/A" in the error column, for an id whose processing succeeded. */
  ghost predicate SuccessRow(outcome: int -> Result<(), PyError>, r: CampaignReport)
  {
    r.error == "N/A" && outcome(r.campaignId).Ok?
  }

  /** A failure row: a non-empty error, for an id whose processing failed. */
  ghost predicate FailureRow(outcome: int -> Result<(), PyError>, r: CampaignReport)
  {
    r.error != "" && outcome(r.campaignId).Err?
  }

  /** Every success row says "N/A" and comes from an id whose processing succeeded. */
  lemma {:induction false} SuccessRowsSucceeded(campaigns: seq<Campaign>, selected: seq<int>, outcome: int -> Result<(), PyError>)
    ensures forall i :: 0 <= i < |Successes(campaigns, selected, outcome)| ==>
      SuccessRow(outcome, Successes(campaigns, selected, outcome)[i])
  {
    if selected != [] {
      var rest := selected[1..];
      SuccessRowsSucceeded(campaigns, rest, outcome);
      var o := outcome(selected[0]);
      var s' := Successes(campaigns, rest, outcome);
      var s := Successes(campaigns, selected, outcome);
      if o.Ok? {
        var head := ReportFor(campaigns, selected[0], o);
        assert SuccessRow(outcome, head);
        assert s == [head] + s';
        forall i | 0 <= i < |s|
          ensures SuccessRow(outcome, s[i])
        {
          if i > 0 {
            assert s[i] == s'[i - 1];
          }
        }
      } else {
        assert s == s';
      }
    }
  }

  /** Every failure row carries a non-empty error and comes from an id whose processing failed. */
  lemma {:induction false} FailureRowsFailed(campaigns: seq<Campaign>, selected: seq<int>, outcome: int -> Result<(), PyError>)
    ensures forall i :: 0 <= i < |Failures(campaigns, selected, outcome)| ==>
      FailureRow(outcome, Failures(campaigns, selected, outcome)[i])
  {
    if selected != [] {
      var rest := selected[1..];
      FailureRowsFailed(campaigns, rest, outcome);
      var o := outcome(selected[0]);
      var f' := Failures(campaigns, rest, outcome);
      var f := Failures(campaigns, selected, outcome);
      if o.Err? {
        var head := ReportFor(campaigns, selected[0], o);
        assert FailureRow(outcome, head);
        assert f == [head] + f';
        forall i | 0 <= i < |f|
          ensures FailureRow(outcome, f[i])
        {
          if i > 0 {
            assert f[i] == f'[i - 1];
          }
        }
      } else {
        assert f == f';
      }
    }
  }

  lemma {:induction false} SuccessesAppend(campaigns: seq<Campaign>, a: seq<int>, b: seq<int>, outcome: int -> Result<(), PyError>)
    ensures Successes(campaigns, a + b, outcome) == Successes(campaigns, a, outcome) + Successes(campaigns, b, outcome)
  {
    if a == [] {
      assert a + b == b;
    } else {
      assert a + b == [a[0]] + (a[1..] + b);
      assert a == [a[0]] + a[1..];
      SuccessesCons(campaigns, a[0], a[1..] + b, outcome);
      SuccessesCons(campaigns, a[0], a[1..], outcome);
      SuccessesAppend(campaigns, a[1..], b, outcome);
    }
  }

  lemma SuccessesCons(campaigns: seq<Campaign>, cid: int, rest: seq<int>, outcome: int -> Result<(), PyError>)
    ensures Successes(campaigns, [cid] + rest, outcome) == Successes(campaigns, [cid], outcome) + Successes(campaigns, rest, outcome)
  {
    assert ([cid] + rest)[1..] == rest;
    assert [cid][1..] == [];
  }

  lemma {:induction false} FailuresAppend(campaigns: seq<Campaign>, a: seq<int>, b: seq<int>, outcome: int -> Result<(), PyError>)
    ensures Failures(campaigns, a + b, outcome) == Failures(campaigns, a, outcome) + Failures(campaigns, b, outcome)
  {
    if a == [] {
      assert a + b == b;
    } else {
      assert a + b == [a[0]] + (a[1..] + b);
      assert a == [a[0]] + a[1..];
      FailuresCons(campaigns, a[0], a[1..] + b, outcome);
      FailuresCons(campaigns, a[0], a[1..], outcome);
      FailuresAppend(campaigns, a[1..], b, outcome);
    }
  }

  lemma FailuresCons(campaigns: seq<Campaign>, cid: int, rest: seq<int>, outcome: int -> Result<(), PyError>)
    ensures Failures(campaigns, [cid] + rest, outcome) == Failures(campaigns, [cid], outcome) + Failures(campaigns, rest, outcome)
  {
    assert ([cid] + rest)[1..] == rest;
    assert [cid][1..] == [];
  }

  /** The tables of the first `i + 1` selected ids extend those of the first `i` by the row of id `i`. */
  lemma TablesStep(campaigns: seq<Campaign>, selected: seq<int>, i: nat, outcome: int -> Result<(), PyError>)
    requires i < |selected|
    ensures Successes(campaigns, selected[..i + 1], outcome)
         == Successes(campaigns, selected[..i], outcome) + Successes(campaigns, [selected[i]], outcome)
    ensures Failures(campaigns, selected[..i + 1], outcome)
         == Failures(campaigns, selected[..i], outcome) + Failures(campaigns, [selected[i]], outcome)
  {
    assert selected[..i + 1] == selected[..i] + [selected[i]];
    SuccessesAppend(campaigns, selected[..i], [selected[i]], outcome);
    FailuresAppend(campaigns, selected[..i], [selected[i]], outcome);
  }

  /** `outcome` tells how each campaign id fares under the runner's settings. */
  ghost predicate IsOutcomeOf(outcome: int -> Result<(), PyError>, p: Platform, delay: int, changePercentage: bool)
  {
    forall cid {:trigger CampaignOutcome(p, cid, delay, changePercentage)} ::
      outcome(cid) == CampaignOutcome(p, cid, delay, changePercentage)
  }

  /** The runner's outcome function exists: the campaign outcome itself, curried. */
  lemma CampaignOutcomeIsOutcome(p: Platform, delay: int, changePercentage: bool)
    ensures IsOutcomeOf((cid: int) => CampaignOutcome(p, cid, delay, changePercentage), p, delay, changePercentage)
  {
  }

  /** The page's session state for the runner: the two result tables and the running flag. */
  class FollowUpRunner {
    var successful: seq<CampaignReport>
    var failed: seq<CampaignReport>
    var running: bool

    /** `ss.setdefault(...)`: both tables empty, not running. */
    constructor ()
      ensures successful == [] && failed == [] && !running
    {
      successful := [];
      failed := [];
      running := false;
    }

    /**
     * The action button: with nothing selected it warns and changes
     * nothing; otherwise it clears both tables and starts the runner.
     */
    method Start(selected: seq<int>) returns (warned: bool)
      modifies this
      ensures warned <==> selected == []
      ensures warned ==> successful == old(successful) && failed == old(failed) && running == old(running)
      ensures !warned ==> successful == [] && failed == [] && running
    {
      if selected == [] {
        return true;
      }
      successful := [];
      failed := [];
      running := true;
      warned := false;
    }

    /**
     * One iteration of the runner: the label, the `try` block, and the row
     * appended to the success or the failure table.
     */
    method RunOne(p: Platform, campaigns: seq<Campaign>, cid: int, delay: int, changePercentage: bool,
                  ghost outcome: int -> Result<(), PyError>)
      requires IsOutcomeOf(outcome, p, delay, changePercentage)
      modifies this
      ensures successful == old(successful) + Successes(campaigns, [cid], outcome)
      ensures failed == old(failed) + Failures(campaigns, [cid], outcome)
      ensures running == old(running)
    {
      var shown := LabelFor(campaigns, cid);
      var result := ProcessCampaign(p, cid, delay, changePercentage, outcome);
      assert outcome(cid) == result;
      assert [cid][1..] == [];
      if result.Ok? {
        successful := successful + [CampaignReport(cid, shown, AnalyticsLink(cid), "N/A")];
      } else {
        failed := failed + [CampaignReport(cid, shown, AnalyticsLink(cid), FailureText(result.error))];
      }
    }

    /**
     * The runner block: each selected campaign in turn, its row appended to
     * the success or the failure table; then the flag is cleared. The
     * ghost `outcome` names, for the contract, how each id fares.
     */
    method Run(p: Platform, campaigns: seq<Campaign>, selected: seq<int>, delay: int, changePercentage: bool,
               ghost outcome: int -> Result<(), PyError>)
      requires running
      requires IsOutcomeOf(outcome, p, delay, changePercentage)
      modifies this
      ensures successful == old(successful) + Successes(campaigns, selected, outcome)
      ensures failed == old(failed) + Failures(campaigns, selected, outcome)
      ensures !running
    {
      for i := 0 to |selected|
        invariant successful == old(successful) + Successes(campaigns, selected[..i], outcome)
        invariant failed == old(failed) + Failures(campaigns, selected[..i], outcome)
      {
        TablesStep(campaigns, selected, i, outcome);
        RunOne(p, campaigns, selected[i], delay, changePercentage, outcome);
        AppendAssoc(old(successful), Successes(campaigns, selected[..i], outcome), Successes(campaigns, [selected[i]], outcome));
        AppendAssoc(old(failed), Failures(campaigns, selected[..i], outcome), Failures(campaigns, [selected[i]], outcome));
      }
      assert selected[..|selected|] == selected;
      running := false;
    }
  }
}
