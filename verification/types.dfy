/**
 * The records of the CRM (types.ts). Every enumeration of the source is a closed
 * datatype; numbers are unbounded integers; strings are `seq<char>`.
 */
module Types {
  import opened Wrappers
  import opened Records

  datatype Sentiment = POSITIVE | NEUTRAL | NEGATIVE

  /** The advisory result attached to a lead; only `score` is inspected by the model. */
  datatype AiAnalysis = AiAnalysis(
    score: int,
    sentiment: Sentiment,
    summary: string,
    nextAction: string,
    keyPoints: seq<string>,
    closingProbability: Option<int>,
    personalizedEmail: Option<string>)

  datatype Role = ADMIN | AGENT | VIEWER

  datatype UserProfile = UserProfile(
    id: string,
    name: string,
    email: string,
    businessName: string,
    role: Role,
    tenantId: string,
    avatarColor: string)

  datatype Provider = WHATSAPP | ZENSEND | SMSCOUNTRY

  datatype ConnectionStatus = CONNECTED | DISCONNECTED

  datatype Integration = Integration(
    id: string,
    provider: Provider,
    apiKey: string,
    status: ConnectionStatus)

  datatype EmailTemplate = EmailTemplate(
    id: string,
    name: string,
    content: string,
    trigger: string,
    isDefault: bool)

  datatype TenantSettings = TenantSettings(
    brandColor: string,
    logoUrl: Option<string>,
    currency: string,
    timezone: string,
    emailSignature: string,
    isAiPrivacyEnabled: bool,
    integrations: seq<Integration>,
    templates: seq<EmailTemplate>)

  datatype Source = WHATSAPP | FACEBOOK | WALK_IN | WEBSITE

  datatype Stage = NEW | CONTACTED | PROPOSAL | WON | LOST

  datatype Lead = Lead(
    id: string,
    name: string,
    phone: string,
    source: Source,
    value: int,
    stage: Stage,
    tenantId: string,
    createdAt: string,
    aiScore: Option<int>,
    aiAnalysis: Option<AiAnalysis>)

  datatype MessageType = INBOUND | OUTBOUND

  datatype Channel = WHATSAPP | SMS

  datatype Message = Message(
    id: string,
    leadId: string,
    content: string,
    messageType: MessageType,
    channel: Channel,
    timestamp: string,
    tenantId: string)

  datatype AutomationRule = AutomationRule(
    id: string,
    name: string,
    trigger: string,
    action: string,
    isActive: bool,
    tenantId: string)

  /** Two templates are not both the default for the same trigger. */
  predicate NotRivalDefaults(a: EmailTemplate, b: EmailTemplate)
  {
    !(a.isDefault && b.isDefault && a.trigger == b.trigger)
  }

  /** At most one template is marked default per trigger value. */
  predicate AtMostOneDefaultPerTrigger(ts: seq<EmailTemplate>)
  {
    Pairwise(ts, NotRivalDefaults)
  }

  predicate DistinctTemplateIds(a: EmailTemplate, b: EmailTemplate)
  {
    a.id != b.id
  }

  /** No two templates share an id. */
  predicate UniqueTemplateIds(ts: seq<EmailTemplate>)
  {
    Pairwise(ts, DistinctTemplateIds)
  }

  // Key projections: the fields the source compares with `===` in its
  // `findIndex`, `find`, `filter` and `map` callbacks.

  function LeadId(l: Lead): string { l.id }
  function LeadStage(l: Lead): Stage { l.stage }
  function MessageLeadId(m: Message): string { m.leadId }
  function RuleId(r: AutomationRule): string { r.id }
  function TemplateId(t: EmailTemplate): string { t.id }
}
