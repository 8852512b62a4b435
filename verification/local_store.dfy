/**
 * The browser storage behind services/DataService.ts and services/AuthService.ts.
 * Each storage key is a field holding the value last written under it, or
 * `None` when the key is absent; serialisation is taken to be lossless, so a
 * slot holds typed records rather than JSON text.
 *
 *   pakcrm_leads_v1        leadsSlot
 *   pakcrm_messages_v1     messagesSlot
 *   pakcrm_automations_v1  automationsSlot
 *   pakcrm_settings_v1     settingsSlot
 *   pakcrm_user_profile    profileSlot
 *
 * Every method names in `modifies` exactly the slots the source writes.
 */
module LocalStore {
  import opened Wrappers
  import opened Types
  import opened Records
  import opened DataService
  import opened AuthService

  class Store {
    var leadsSlot: Option<seq<Lead>>
    var messagesSlot: Option<seq<Message>>
    var automationsSlot: Option<seq<AutomationRule>>
    var settingsSlot: Option<StoredSettings>
    var profileSlot: Option<UserProfile>

    /** A storage area in which no key was ever written. */
    constructor ()
      ensures leadsSlot == None && messagesSlot == None && automationsSlot == None
      ensures settingsSlot == None && profileSlot == None
    {
      leadsSlot, messagesSlot, automationsSlot := None, None, None;
      settingsSlot, profileSlot := None, None;
    }

    /** The lead list a read sees: the stored one, or empty when never written. */
    function Leads(): seq<Lead>
      reads this
    {
      leadsSlot.GetOr([])
    }

    function Messages(): seq<Message>
      reads this
    {
      messagesSlot.GetOr([])
    }

    function Automations(): seq<AutomationRule>
      reads this
    {
      automationsSlot.GetOr([])
    }

    // ---- settings ----

    method GetSettings() returns (s: TenantSettings)
      ensures s == SettingsOf(settingsSlot)
      ensures settingsSlot.None? ==> s == DEFAULT_SETTINGS
    {
      match settingsSlot
      case None =>
        s := DEFAULT_SETTINGS;
      case Some(st) =>
        var templates := if st.templates.Some? then st.templates.value else DEFAULT_TEMPLATES;
        s := TenantSettings(st.brandColor, st.logoUrl, st.currency, st.timezone, st.emailSignature,
                            st.isAiPrivacyEnabled, st.integrations, templates);
    }

    method SaveSettings(settings: TenantSettings)
      modifies this`settingsSlot
      ensures settingsSlot == Some(Stored(settings))
      ensures SettingsOf(settingsSlot) == settings
    {
      settingsSlot := Some(Stored(settings));
    }

    // ---- leads ----

    method GetLeads() returns (leads: seq<Lead>)
      ensures leads == Leads()
      ensures leadsSlot.None? ==> leads == []
    {
      leads := if leadsSlot.Some? then leadsSlot.value else [];
    }

    /** Replace the first lead with the same id in place, or push the lead; then write the list back. */
    method SaveLead(lead: Lead)
      modifies this`leadsSlot
      ensures leadsSlot == Some(Upsert(old(Leads()), lead, LeadId))
      ensures Find(Leads(), LeadId, lead.id) == Some(lead)
    {
      var leads := GetLeads();
      var index := FindIndex(leads, LeadId, lead.id);
      if index.Some? {
        leads := leads[index.value := lead];
      } else {
        leads := leads + [lead];
      }
      leadsSlot := Some(leads);
      UpsertThenFind(old(Leads()), lead, LeadId);
    }

    /** Drop the lead with that id and, in cascade, every message that refers to it. */
    method DeleteLead(id: string)
      modifies this`leadsSlot, this`messagesSlot
      ensures leadsSlot == Some(WithoutKey(old(Leads()), LeadId, id))
      ensures messagesSlot == Some(WithoutKey(old(Messages()), MessageLeadId, id))
      ensures forall l :: l in Leads() <==> l in old(Leads()) && l.id != id
      ensures forall m :: m in Messages() <==> m in old(Messages()) && m.leadId != id
      ensures IsSubsequence(Leads(), old(Leads())) && IsSubsequence(Messages(), old(Messages()))
      ensures |Messages()| == |old(Messages())| - |WithKey(old(Messages()), MessageLeadId, id)|
      ensures (forall l :: l in old(Leads()) ==> l.id != id) ==> Leads() == old(Leads())
      ensures (forall m :: m in old(Messages()) ==> m.leadId != id) ==> Messages() == old(Messages())
    {
      var leads := GetLeads();
      leadsSlot := Some(WithoutKey(leads, LeadId, id));
      var msgs := GetAllMessages();
      messagesSlot := Some(WithoutKey(msgs, MessageLeadId, id));
      WithoutKeyMembers(leads, LeadId, id);
      WithoutKeyMembers(msgs, MessageLeadId, id);
      FiltersKeepOrder(leads, LeadId, id);
      FiltersKeepOrder(msgs, MessageLeadId, id);
      FiltersPartition(msgs, MessageLeadId, id);
      if forall l :: l in leads ==> l.id != id {
        WithoutAbsentKey(leads, LeadId, id);
      }
      if forall m :: m in msgs ==> m.leadId != id {
        WithoutAbsentKey(msgs, MessageLeadId, id);
      }
    }

    // ---- messages ----

    method GetAllMessages() returns (msgs: seq<Message>)
      ensures msgs == Messages()
      ensures messagesSlot.None? ==> msgs == []
    {
      msgs := if messagesSlot.Some? then messagesSlot.value else [];
    }

    /** The messages of one lead, in stored order. */
    method GetMessages(leadId: string) returns (msgs: seq<Message>)
      ensures msgs == WithKey(Messages(), MessageLeadId, leadId)
      ensures forall m :: m in msgs <==> m in Messages() && m.leadId == leadId
      ensures IsSubsequence(msgs, Messages())
    {
      var all := GetAllMessages();
      msgs := WithKey(all, MessageLeadId, leadId);
      WithKeyMembers(all, MessageLeadId, leadId);
      FiltersKeepOrder(all, MessageLeadId, leadId);
    }

    /** Append one message to the log. */
    method AddMessage(message: Message)
      modifies this`messagesSlot
      ensures messagesSlot == Some(old(Messages()) + [message])
      ensures forall leadId ::
                WithKey(Messages(), MessageLeadId, leadId) ==
                WithKey(old(Messages()), MessageLeadId, leadId) + (if message.leadId == leadId then [message] else [])
    {
      var all := GetAllMessages();
      all := all + [message];
      messagesSlot := Some(all);
      forall leadId: string
        ensures WithKey(Messages(), MessageLeadId, leadId) ==
          WithKey(old(Messages()), MessageLeadId, leadId) + (if message.leadId == leadId then [message] else [])
      {
        WithKeyAppend(old(Messages()), [message], MessageLeadId, leadId);
      }
    }

    // ---- automations ----

    method GetAutomations() returns (rules: seq<AutomationRule>)
      ensures rules == Automations()
      ensures automationsSlot.None? ==> rules == []
    {
      rules := if automationsSlot.Some? then automationsSlot.value else [];
    }

    method SaveAutomation(rule: AutomationRule)
      modifies this`automationsSlot
      ensures automationsSlot == Some(Upsert(old(Automations()), rule, RuleId))
      ensures Find(Automations(), RuleId, rule.id) == Some(rule)
    {
      var rules := GetAutomations();
      var index := FindIndex(rules, RuleId, rule.id);
      if index.Some? {
        rules := rules[index.value := rule];
      } else {
        rules := rules + [rule];
      }
      automationsSlot := Some(rules);
      UpsertThenFind(old(Automations()), rule, RuleId);
    }

    method DeleteAutomation(id: string)
      modifies this`automationsSlot
      ensures automationsSlot == Some(WithoutKey(old(Automations()), RuleId, id))
      ensures forall r :: r in Automations() <==> r in old(Automations()) && r.id != id
      ensures IsSubsequence(Automations(), old(Automations()))
      ensures (forall r :: r in old(Automations()) ==> r.id != id) ==> Automations() == old(Automations())
    {
      var rules := GetAutomations();
      automationsSlot := Some(WithoutKey(rules, RuleId, id));
      WithoutKeyMembers(rules, RuleId, id);
      FiltersKeepOrder(rules, RuleId, id);
      if forall r :: r in rules ==> r.id != id {
        WithoutAbsentKey(rules, RuleId, id);
      }
    }

    // ---- reset ----

    /** Remove the four data keys; the profile key is not one of them. */
    method ClearAllData()
      modifies this`leadsSlot, this`messagesSlot, this`automationsSlot, this`settingsSlot
      ensures leadsSlot == None && messagesSlot == None && automationsSlot == None && settingsSlot == None
      ensures Leads() == [] && Messages() == [] && Automations() == []
      ensures SettingsOf(settingsSlot) == DEFAULT_SETTINGS
    {
      leadsSlot := None;
      messagesSlot := None;
      automationsSlot := None;
      settingsSlot := None;
    }

    // ---- profile (services/AuthService.ts) ----

    /** Read the profile; on an empty slot, store the default profile and return it. */
    method GetProfile() returns (profile: UserProfile)
      modifies this`profileSlot
      ensures old(profileSlot).None? ==> profile == DEFAULT_PROFILE
      ensures old(profileSlot).Some? ==> profile == old(profileSlot).value
      ensures profileSlot == Some(profile)
    {
      if profileSlot.None? {
        UpdateProfile(DEFAULT_PROFILE);
        return DEFAULT_PROFILE;
      }
      profile := profileSlot.value;
    }

    method UpdateProfile(profile: UserProfile)
      modifies this`profileSlot
      ensures profileSlot == Some(profile)
    {
      profileSlot := Some(profile);
    }

    method Logout()
      modifies this`profileSlot
      ensures profileSlot == None
    {
      profileSlot := None;
    }
  }

  /** The settings screen's Save button: write the edited settings and profile; the data keys stay as they were. */
  method SaveSettingsScreen(store: Store, settings: TenantSettings, profile: UserProfile)
    modifies store`settingsSlot, store`profileSlot
    ensures SettingsOf(store.settingsSlot) == settings
    ensures store.profileSlot == Some(profile)
    ensures store.Leads() == old(store.Leads()) && store.Messages() == old(store.Messages())
    ensures store.Automations() == old(store.Automations())
  {
    store.SaveSettings(settings);
    store.UpdateProfile(profile);
  }

  /** Reading the profile twice: the first read of an empty slot stores the default, the second reads it back. */
  method ProfileSessionExample(store: Store)
    modifies store`profileSlot
  {
    store.Logout();
    var first := store.GetProfile();
    var second := store.GetProfile();
    assert first == second == DEFAULT_PROFILE;
    var p := UserProfile("u-2", "Sana", "sana@example.com", "Sana Homes", AGENT, "tenant-1", "bg-rose-600");
    store.UpdateProfile(p);
    var third := store.GetProfile();
    assert third == p;
  }

  /** Saving a lead twice leaves the same list as saving it once; deleting it removes its messages. */
  method LeadLifecycleExample(store: Store, lead: Lead, message: Message)
    requires message.leadId == lead.id
    modifies store`leadsSlot, store`messagesSlot
  {
    store.SaveLead(lead);
    var once := store.Leads();
    store.SaveLead(lead);
    UpsertIdempotent(old(store.Leads()), lead, LeadId);
    assert store.Leads() == once;
    store.AddMessage(message);
    store.DeleteLead(lead.id);
    assert message !in store.Messages();
    assert lead !in store.Leads();
  }
}
