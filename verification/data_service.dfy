/**
 * The persisted settings format and the defaults of the data service
 * (services/DataService.ts): the seed templates, the default tenant settings,
 * and the patch `getSettings` applies to settings stored before templates existed.
 */
module DataService {
  import opened Wrappers
  import opened Types

  /** Settings as found in storage: data written by older versions has no templates. */
  datatype StoredSettings = StoredSettings(
    brandColor: string,
    logoUrl: Option<string>,
    currency: string,
    timezone: string,
    emailSignature: string,
    isAiPrivacyEnabled: bool,
    integrations: seq<Integration>,
    templates: Option<seq<EmailTemplate>>)

  const DEFAULT_TEMPLATES: seq<EmailTemplate> := [
    EmailTemplate(
      "t1",
      "Initial Welcome Outreach",
      "Hi {{name}},\n\nThank you for reaching out via {{source}}. I noticed your interest in our property listings. I'd love to discuss how we can help you find the perfect match.\n\nBest regards,\n{{agent_name}}",
      "Lead Created",
      true),
    EmailTemplate(
      "t2",
      "Deal Won Congratulation",
      "Hi {{name}},\n\nCongratulations! We've successfully closed the deal for the PKR {{value}} property. It's been a pleasure working with you.\n\nWarm regards,\n{{agent_name}}",
      "Stage Changed to WON",
      true)
  ]

  const DEFAULT_SETTINGS: TenantSettings := TenantSettings(
    "#4f46e5",
    None,
    "PKR",
    "UTC+5 (Karachi)",
    "--\nBest Regards,\nSales Team",
    false,
    [Integration("1", Provider.WHATSAPP, "", DISCONNECTED),
     Integration("2", ZENSEND, "", DISCONNECTED)],
    DEFAULT_TEMPLATES)

  /** What `saveSettings` writes: a full settings value, templates included. */
  function Stored(s: TenantSettings): (st: StoredSettings)
    ensures st.templates == Some(s.templates)
  {
    StoredSettings(s.brandColor, s.logoUrl, s.currency, s.timezone, s.emailSignature,
                   s.isAiPrivacyEnabled, s.integrations, Some(s.templates))
  }

  /**
   * What `getSettings` returns for the settings slot: the defaults when nothing is
   * stored, otherwise the stored value with the seed templates filled in when the
   * `templates` field is missing. An empty stored list is kept (an empty array is
   * truthy in the source).
   */
  function SettingsOf(slot: Option<StoredSettings>): (s: TenantSettings)
    ensures slot.None? ==> s == DEFAULT_SETTINGS
    ensures slot.Some? && slot.value.templates.None? ==>
      s.templates == DEFAULT_TEMPLATES && Stored(s) == slot.value.(templates := Some(DEFAULT_TEMPLATES))
    ensures slot.Some? && slot.value.templates.Some? ==> Stored(s) == slot.value
  {
    match slot
    case None => DEFAULT_SETTINGS
    case Some(st) =>
      TenantSettings(st.brandColor, st.logoUrl, st.currency, st.timezone, st.emailSignature,
                     st.isAiPrivacyEnabled, st.integrations, st.templates.GetOr(DEFAULT_TEMPLATES))
  }

  /** Saving settings and reading them back gives the same settings. */
  lemma SaveThenGetSettings(s: TenantSettings)
    ensures SettingsOf(Some(Stored(s))) == s
  {
  }

  /** The seed templates have distinct ids and distinct triggers, so each trigger has at most one default. */
  lemma DefaultTemplatesWellFormed()
    ensures |DEFAULT_TEMPLATES| == 2
    ensures DEFAULT_TEMPLATES[0].trigger != DEFAULT_TEMPLATES[1].trigger
    ensures DEFAULT_TEMPLATES[0].id != DEFAULT_TEMPLATES[1].id
    ensures AtMostOneDefaultPerTrigger(DEFAULT_TEMPLATES)
    ensures AtMostOneDefaultPerTrigger(DEFAULT_SETTINGS.templates)
  {
  }
}
