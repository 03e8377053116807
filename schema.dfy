/**
 * clients/smartlead/schema.py: the shapes of the campaign platform's
 * payloads, as validated values. Timestamps are kept as their strings
 * (datetime parsing is not modelled); `SmartleadCampaign` is the second,
 * effective definition of the file (string timestamps, integer
 * follow-up percentage).
 */
module Schema {
  import opened Wrappers

  /** `StatusEnum`: the lifecycle status of a campaign. */
  datatype Status = ACTIVE | PAUSED | COMPLETED | DRAFTED | ARCHIVED

  /** The wire value of a status. */
  function StatusName(s: Status): string
  {
    match s
    case ACTIVE => "ACTIVE"
    case PAUSED => "PAUSED"
    case COMPLETED => "COMPLETED"
    case DRAFTED => "DRAFTED"
    case ARCHIVED => "ARCHIVED"
  }

  /** Validation of a `status` field: accepted exactly when it names one of the five values. */
  function ParseStatus(name: string): (r: Option<Status>)
    ensures r.Some? <==> name in {"ACTIVE", "PAUSED", "COMPLETED", "DRAFTED", "ARCHIVED"}
    ensures r.Some? ==> StatusName(r.value) == name
  {
    if name == "ACTIVE" then Some(ACTIVE)
    else if name == "PAUSED" then Some(PAUSED)
    else if name == "COMPLETED" then Some(COMPLETED)
    else if name == "DRAFTED" then Some(DRAFTED)
    else if name == "ARCHIVED" then Some(ARCHIVED)
    else None
  }

  /** Every status survives the trip to its wire value and back. */
  lemma ParseStatusName(s: Status)
    ensures ParseStatus(StatusName(s)) == Some(s)
  {
  }

  datatype SchedulerCronValue = SchedulerCronValue(tz: string, days: seq<int>, endHour: string, startHour: string)

  /** `SmartleadCampaign` (effective definition). */
  datatype Campaign = Campaign(
    id: int,
    userId: int,
    createdAt: string,
    updatedAt: string,
    status: Status,
    name: string,
    trackSettings: seq<string>,
    schedulerCronValue: Option<SchedulerCronValue>,
    minTimeBtwnEmails: int,
    maxLeadsPerDay: int,
    stopLeadSettings: string,
    enableAiEspMatching: bool,
    sendAsPlainText: bool,
    followUpPercentage: int,
    unsubscribeText: Option<string>,
    parentCampaignId: Option<int>,
    clientId: Option<int>)

  /** `SmartleadLead`: the contact record. */
  datatype Lead = Lead(
    id: int,
    firstName: string,
    lastName: string,
    email: string,
    phoneNumber: string,
    companyName: string,
    website: string,
    location: string,
    customFields: map<string, string>,
    linkedinProfile: string,
    companyUrl: string,
    isUnsubscribed: bool)

  /** `SmartleadCampaignLead`: the lead-campaign mapping with the lead inside it. */
  datatype CampaignLead = CampaignLead(
    campaignLeadMapId: int,
    status: string,
    leadCategoryId: Option<int>,
    createdAt: string,
    lead: Lead)

  /** `SmartleadGetCampaignLeadsResponse`: one page of the lead listing. */
  datatype LeadsPage = LeadsPage(totalLeads: int, offset: int, limit: int, data: seq<CampaignLead>)

  /** `CampaignLeadStats`: per-status lead counts, integers. */
  datatype CampaignLeadStats = CampaignLeadStats(
    total: int,
    paused: int,
    blocked: int,
    stopped: int,
    completed: int,
    inprogress: int,
    interested: int,
    notStarted: int)

  /**
   * `SmartleadCampaignStatistics`: the send/open/... counts arrive as
   * strings, the lead counts as integers.
   */
  datatype CampaignStatistics = CampaignStatistics(
    id: int,
    userId: int,
    createdAt: string,
    status: Status,
    name: string,
    sentCount: string,
    openCount: string,
    clickCount: string,
    replyCount: string,
    blockCount: string,
    totalCount: string,
    sequenceCount: string,
    draftedCount: string,
    bounceCount: string,
    unsubscribedCount: string,
    uniqueOpenCount: string,
    uniqueClickCount: string,
    uniqueSentCount: string,
    clientId: Option<int>,
    clientName: Option<string>,
    clientEmail: Option<string>,
    campaignLeadStats: CampaignLeadStats)

  datatype SeqDelayDetails = SeqDelayDetails(delayInDays: int)

  /** `SmartleadCampaignSequenceVariant`: one A/B variant of a sequence step. */
  datatype SequenceVariant = SequenceVariant(
    id: int,
    createdAt: string,
    updatedAt: string,
    isDeleted: bool,
    subject: string,
    emailBody: string,
    emailCampaignSeqId: int,
    variantLabel: string,
    optionalEmailBody1: Option<string>,
    variantDistributionPercentage: Option<int>,
    year: int)

  /** `SmartleadCampaignSequence`: one step of a campaign; the variant list is optional. */
  datatype CampaignSequence = CampaignSequence(
    id: int,
    createdAt: string,
    updatedAt: string,
    emailCampaignId: int,
    seqNumber: int,
    subject: string,
    emailBody: string,
    seqDelayDetails: SeqDelayDetails,
    sequenceVariants: Option<seq<SequenceVariant>>)

  datatype SeqDelayDetailsInput = SeqDelayDetailsInput(delayInDays: int)

  /**
   * `SequenceVariantInput`: subject, body and label are required; the id
   * and the distribution (a float on the wire) are optional.
   */
  datatype SequenceVariantInput = SequenceVariantInput(
    subject: string,
    id: Option<int>,
    emailBody: string,
    variantLabel: string,
    variantDistributionPercentage: Option<real>)

  /** `SmartleadCampaignSequenceInput`: only the sequence number is required. */
  datatype SequenceInput = SequenceInput(
    seqNumber: int,
    id: Option<int>,
    subject: Option<string>,
    emailBody: Option<string>,
    seqDelayDetails: Option<SeqDelayDetailsInput>,
    seqVariants: Option<seq<SequenceVariantInput>>)
}
