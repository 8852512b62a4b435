/**
 * The editing rules of the settings screen (features/Settings.tsx): every
 * handler builds a new settings value from the old one. The screen state that
 * these handlers touch is the settings being edited and the template open in
 * the editor.
 */
module SettingsEditor {
  import opened Wrappers
  import opened Types
  import opened Records
  import opened DataService

  datatype Editor = Editor(settings: TenantSettings, editing: Option<EmailTemplate>)

  // ---- integrations ----

  /** A non-empty key connects the integration; an empty one disconnects it. */
  function StatusFor(apiKey: string): ConnectionStatus
  {
    if apiKey != "" then CONNECTED else DISCONNECTED
  }

  /** Set the key of the integration at `index`, deriving its status from the key. */
  function UpdateIntegration(s: TenantSettings, index: int, apiKey: string): (r: TenantSettings)
    requires 0 <= index < |s.integrations|
    ensures |r.integrations| == |s.integrations|
    ensures r.integrations[index].apiKey == apiKey
    ensures r.integrations[index].status == CONNECTED <==> apiKey != ""
    ensures r.integrations[index].id == s.integrations[index].id
    ensures r.integrations[index].provider == s.integrations[index].provider
    ensures forall j :: 0 <= j < |s.integrations| && j != index ==> r.integrations[j] == s.integrations[j]
    ensures r.(integrations := s.integrations) == s
  {
    var entry := s.integrations[index];
    s.(integrations := s.integrations[index := entry.(apiKey := apiKey, status := StatusFor(apiKey))])
  }

  /** Typing a key twice into the same field leaves only the last one. */
  lemma UpdateIntegrationLastWins(s: TenantSettings, index: int, first: string, second: string)
    requires 0 <= index < |s.integrations|
    ensures UpdateIntegration(UpdateIntegration(s, index, first), index, second) == UpdateIntegration(s, index, second)
  {
  }

  // ---- adding and deleting templates ----

  /** The template the "New" button creates; its id is drawn at random in the source. */
  function NewTemplate(id: string): EmailTemplate
  {
    EmailTemplate(
      id,
      "New Marketing Template",
      "Hi {{name}}, we saw your interest on {{source}}. How can we help you today?",
      "Lead Created",
      false)
  }

  /** Append a fresh, non-default "Lead Created" template and open it in the editor. */
  function AddTemplate(e: Editor, newId: string): (r: Editor)
    ensures |r.settings.templates| == |e.settings.templates| + 1
    ensures r.settings.templates[..|e.settings.templates|] == e.settings.templates
    ensures r.editing == Some(r.settings.templates[|e.settings.templates|])
    ensures r.editing.value.id == newId
    ensures !r.editing.value.isDefault && r.editing.value.trigger == "Lead Created"
    ensures r.settings.(templates := e.settings.templates) == e.settings
  {
    Editor(e.settings.(templates := e.settings.templates + [NewTemplate(newId)]), Some(NewTemplate(newId)))
  }

  /** Adding a non-default template with an unused id keeps both template invariants. */
  lemma AddTemplateKeepsInvariants(e: Editor, newId: string)
    requires forall t :: t in e.settings.templates ==> t.id != newId
    ensures AtMostOneDefaultPerTrigger(e.settings.templates) ==>
              AtMostOneDefaultPerTrigger(AddTemplate(e, newId).settings.templates)
    ensures UniqueTemplateIds(e.settings.templates) ==>
              UniqueTemplateIds(AddTemplate(e, newId).settings.templates)
  {
    var ts := e.settings.templates;
    var r := AddTemplate(e, newId).settings.templates;
    forall i | 0 <= i < |ts| ensures ts[i].id != newId {
      assert ts[i] in ts;
    }
    assert forall i :: 0 <= i < |ts| ==> r[i] == ts[i];
  }

  /** Remove every template with that id; close the editor if it showed that template. */
  function DeleteTemplate(e: Editor, id: string): (r: Editor)
    ensures r.settings.templates == WithoutKey(e.settings.templates, TemplateId, id)
    ensures r.settings.(templates := e.settings.templates) == e.settings
    ensures e.editing.Some? && e.editing.value.id == id ==> r.editing == None
    ensures !(e.editing.Some? && e.editing.value.id == id) ==> r.editing == e.editing
  {
    var editing := if e.editing.Some? && e.editing.value.id == id then None else e.editing;
    Editor(e.settings.(templates := WithoutKey(e.settings.templates, TemplateId, id)), editing)
  }

  /** After a delete no template has the id, the others keep their order, and both invariants survive. */
  lemma DeleteTemplateEffect(e: Editor, id: string)
    ensures forall t :: t in DeleteTemplate(e, id).settings.templates <==>
                          t in e.settings.templates && t.id != id
    ensures IsSubsequence(DeleteTemplate(e, id).settings.templates, e.settings.templates)
    ensures AtMostOneDefaultPerTrigger(e.settings.templates) ==>
              AtMostOneDefaultPerTrigger(DeleteTemplate(e, id).settings.templates)
    ensures UniqueTemplateIds(e.settings.templates) ==>
              UniqueTemplateIds(DeleteTemplate(e, id).settings.templates)
  {
    var ts := e.settings.templates;
    var r := DeleteTemplate(e, id).settings.templates;
    WithoutKeyMembers(ts, TemplateId, id);
    FiltersKeepOrder(ts, TemplateId, id);
    if AtMostOneDefaultPerTrigger(ts) {
      SubsequencePairwise(r, ts, NotRivalDefaults);
    }
    if UniqueTemplateIds(ts) {
      SubsequencePairwise(r, ts, DistinctTemplateIds);
    }
  }

  // ---- updating templates ----

  /** `templates.map(t => t.id === updated.id ? updated : t)`. */
  function ReplaceTemplate(ts: seq<EmailTemplate>, updated: EmailTemplate): (r: seq<EmailTemplate>)
    ensures |r| == |ts|
    ensures forall i :: 0 <= i < |ts| ==> r[i] == (if ts[i].id == updated.id then updated else ts[i])
  {
    if ts == [] then []
    else [if ts[0].id == updated.id then updated else ts[0]] + ReplaceTemplate(ts[1..], updated)
  }

  /** Replace each template with `updated`'s id by `updated`; nothing else moves. */
  function UpdateTemplate(s: TenantSettings, updated: EmailTemplate): (r: TenantSettings)
    ensures |r.templates| == |s.templates|
    ensures forall i :: 0 <= i < |s.templates| && s.templates[i].id == updated.id ==> r.templates[i] == updated
    ensures forall i :: 0 <= i < |s.templates| && s.templates[i].id != updated.id ==> r.templates[i] == s.templates[i]
    ensures r.(templates := s.templates) == s
  {
    s.(templates := ReplaceTemplate(s.templates, updated))
  }

  /** Updating a template whose id is absent changes nothing. */
  lemma {:induction false} UpdateAbsentTemplate(s: TenantSettings, updated: EmailTemplate)
    requires forall t :: t in s.templates ==> t.id != updated.id
    ensures UpdateTemplate(s, updated) == s
  {
    var r := UpdateTemplate(s, updated).templates;
    forall i | 0 <= i < |s.templates| ensures r[i] == s.templates[i] {
      assert s.templates[i] in s.templates;
    }
  }

  /** Updating twice with the same template is updating once; ids never change. */
  lemma UpdateTemplateIdempotent(s: TenantSettings, updated: EmailTemplate)
    ensures UpdateTemplate(UpdateTemplate(s, updated), updated) == UpdateTemplate(s, updated)
    ensures UniqueTemplateIds(s.templates) ==> UniqueTemplateIds(UpdateTemplate(s, updated).templates)
  {
    var once := UpdateTemplate(s, updated).templates;
    var twice := UpdateTemplate(UpdateTemplate(s, updated), updated).templates;
    assert twice == once;
  }

  /**
   * Editing a template's trigger goes through `UpdateTemplate`, which does not
   * keep the one-default-per-trigger invariant: moving the default
   * "Stage Changed to WON" template onto "Lead Created" leaves that trigger
   * with two defaults. No handler checks it.
   */
  lemma UpdateTemplateCanBreakDefaults()
    ensures AtMostOneDefaultPerTrigger(DEFAULT_SETTINGS.templates)
    ensures var moved := DEFAULT_TEMPLATES[1].(trigger := "Lead Created");
      !AtMostOneDefaultPerTrigger(UpdateTemplate(DEFAULT_SETTINGS, moved).templates)
  {
    var moved := DEFAULT_TEMPLATES[1].(trigger := "Lead Created");
    var r := UpdateTemplate(DEFAULT_SETTINGS, moved).templates;
    assert r[0] == DEFAULT_TEMPLATES[0];
    assert r[1] == moved;
    assert !NotRivalDefaults(r[0], r[1]);
  }

  // ---- default templates ----

  /** Within `template`'s trigger, mark as default exactly the template with its id. */
  function MarkDefault(ts: seq<EmailTemplate>, template: EmailTemplate): (r: seq<EmailTemplate>)
    ensures |r| == |ts|
    ensures forall i :: 0 <= i < |ts| ==>
              r[i] == (if ts[i].trigger == template.trigger then ts[i].(isDefault := ts[i].id == template.id) else ts[i])
  {
    if ts == [] then []
    else
      var t := ts[0];
      [if t.trigger == template.trigger then t.(isDefault := t.id == template.id) else t] + MarkDefault(ts[1..], template)
  }

  /**
   * Make `template` the single default of its trigger; templates of other
   * triggers are untouched. Only the settings change: the copy open in the
   * editor keeps its old default flag, so a later edit of that copy through
   * `UpdateTemplate` writes the old flag back.
   */
  function SetAsDefault(s: TenantSettings, template: EmailTemplate): (r: TenantSettings)
    ensures |r.templates| == |s.templates|
    ensures forall i :: 0 <= i < |s.templates| && s.templates[i].trigger == template.trigger ==>
              r.templates[i] == s.templates[i].(isDefault := s.templates[i].id == template.id)
    ensures forall i :: 0 <= i < |s.templates| && s.templates[i].trigger != template.trigger ==>
              r.templates[i] == s.templates[i]
    ensures r.(templates := s.templates) == s
  {
    s.(templates := MarkDefault(s.templates, template))
  }

  /**
   * With unique ids, after `SetAsDefault` the template's trigger has exactly the
   * template with its id as default (if it is in the list), templates of other
   * triggers are as they were, and the one-default-per-trigger invariant is kept.
   */
  lemma SetAsDefaultSingle(s: TenantSettings, template: EmailTemplate)
    requires UniqueTemplateIds(s.templates)
    ensures var r := SetAsDefault(s, template).templates;
      forall i :: 0 <= i < |r| && r[i].trigger == template.trigger ==> (r[i].isDefault <==> r[i].id == template.id)
    ensures var r := SetAsDefault(s, template).templates;
      forall i, j ::
        (0 <= i < |r| && 0 <= j < |r| && r[i].trigger == template.trigger && r[i].isDefault &&
         r[j].trigger == template.trigger && r[j].isDefault) ==> i == j
    ensures UniqueTemplateIds(SetAsDefault(s, template).templates)
    ensures AtMostOneDefaultPerTrigger(s.templates) ==>
              AtMostOneDefaultPerTrigger(SetAsDefault(s, template).templates)
  {
    var ts := s.templates;
    var r := SetAsDefault(s, template).templates;
    if AtMostOneDefaultPerTrigger(ts) {
      forall i, j | 0 <= i < j < |r| ensures NotRivalDefaults(r[i], r[j]) {
        assert NotRivalDefaults(ts[i], ts[j]);
        assert DistinctTemplateIds(ts[i], ts[j]);
      }
    }
    forall i, j | 0 <= i < j < |r| ensures DistinctTemplateIds(r[i], r[j]) {
      assert DistinctTemplateIds(ts[i], ts[j]);
    }
  }

  // ---- placeholders ----

  /** The placeholder text for a variable name: `{{name}}`. */
  function Placeholder(variable: string): (p: string)
    ensures |p| == |variable| + 4
  {
    "{{" + variable + "}}"
  }

  /**
   * Replace the selection `[start, end)` of the open template's text by the
   * placeholder, store the edited template, and report where the caret goes.
   * With no template open nothing happens and no caret is placed.
   */
  function InsertVariable(e: Editor, variable: string, start: int, end: int): (r: (Editor, Option<int>))
    requires e.editing.Some? ==> 0 <= start <= end <= |e.editing.value.content|
    ensures e.editing.None? ==> r == (e, None)
    ensures e.editing.Some? ==>
      var text := e.editing.value.content;
      && r.0.editing.Some?
      && r.0.editing.value == e.editing.value.(content := r.0.editing.value.content)
      && r.0.settings == UpdateTemplate(e.settings, r.0.editing.value)
      && r.1 == Some(start + |variable| + 4)
      && var content := r.0.editing.value.content;
         && |content| == |text| - (end - start) + |variable| + 4
         && content[..start] == text[..start]
         && content[start..start + |variable| + 4] == "{{" + variable + "}}"
         && content[start + |variable| + 4..] == text[end..]
  {
    match e.editing
    case None => (e, None)
    case Some(t) =>
      var text := t.content;
      var newContent := text[..start] + Placeholder(variable) + text[end..];
      var updated := t.(content := newContent);
      (Editor(UpdateTemplate(e.settings, updated), Some(updated)), Some(start + |variable| + 4))
  }
}
