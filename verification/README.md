# PakCRM core, modelled in Dafny

This project models the core of a small sales CRM for real-estate agencies.
Records carry a tenant id, but every new lead is stamped `t1` and nothing
separates tenants. It covers three parts:

- **Storage services** (`services/DataService.ts`, `services/AuthService.ts`).
  They keep leads, the message log, automation rules, tenant settings and the
  user profile in browser storage, one key per collection.
- **Settings screen** (`features/Settings.tsx`). Its handlers edit integrations
  and e-mail templates: add, delete, update, choose the default per trigger, and
  insert a `{{variable}}` at the caret.
- **Pipeline board** (`features/Pipeline.tsx`). Its transitions create a lead
  from the form, score a lead with the AI service, merge an AI text scan into the
  form, and split the leads into stage columns.

The Dafny files are:

- `types.dfy` holds the records of `types.ts`, plus two template invariants:
  - at most one default template per trigger;
  - unique template ids.

  Adding, deleting and choosing a default keep both invariants. Editing a
  template's trigger can break the first one; no handler checks it
  (features/Settings.tsx:323-329).
- `records.dfy` holds the array idioms the code is built from: `findIndex`,
  `find`, `filter` on `===` and on `!==`, and the read-modify-write upsert. Each
  comes with its laws: membership, order, partition, upsert-then-find and
  idempotence.
- `data_service.dfy` holds the stored shape of the settings, the seed constants,
  and the forward-compatibility patch that `getSettings` applies.
- `auth_service.dfy` holds the default profile.
- `local_store.dfy` is the storage as a class `Store` with one field per storage
  key (`None` = key absent). Each service function is a method that modifies
  exactly the keys the source writes. The settings screen's Save handler is a
  method over a `Store`.
- `settings_editor.dfy` holds the settings-screen handlers as functions over the
  edited settings and the template open in the editor.
- `pipeline.dfy` holds the board state and its transitions as functions.

Deleting a lead or rule with an unknown id still writes the unchanged filtered
list back (services/DataService.ts:70-75, 106-109). So a key that was absent
becomes an empty list: what a read returns is unchanged, but the slot is not.

## Model

| member | source | states |
|---|---|---|
| Records.FirstIndex | services/DataService.ts:62 | `findIndex`: the result is the first position whose key matches; `None` exactly when no record has the key |
| Records.FindIndex | services/DataService.ts:62 | the loop scanning for the key returns exactly `FirstIndex` |
| Records.Find | features/Pipeline.tsx:306 | `find` returns the first record of the list carrying the key; `None` exactly when no record carries it |
| Records.WithKey | services/DataService.ts:83 | `filter(=== k)` never grows the list; its exact contents are stated by `WithKeyMembers`, `FiltersKeepOrder` and `FiltersPartition` |
| Records.WithoutKey | services/DataService.ts:71 | `filter(!== k)` never grows the list; its exact contents are stated by `WithoutKeyMembers`, `FiltersKeepOrder` and `FiltersPartition` |
| Records.WithKeyMembers | services/DataService.ts:82-84 | `filter(=== k)` keeps exactly the records whose key is `k` |
| Records.WithoutKeyMembers | services/DataService.ts:70-75 | `filter(!== k)` keeps exactly the records whose key is not `k` |
| Records.FiltersKeepOrder | services/DataService.ts:70-75 | both filters keep the surviving records in stored order (subsequence) |
| Records.FiltersPartition | services/DataService.ts:70-75 | the records kept plus the records dropped by the cascade number exactly the log's length |
| Records.WithKeyAppend | services/DataService.ts:85-89 | selecting one lead's messages from an appended log selects from each part in turn |
| Records.WithoutAbsentKey | services/DataService.ts:70-75 | deleting an id no record has leaves the list unchanged |
| Records.Upsert | services/DataService.ts:60-69 | the saved list grows by at most one, holds the record, and holds nothing else that was not there before |
| Records.UpsertReplaces | services/DataService.ts:60-69 | when the id is known, the first record with it is replaced in place and every other position is kept |
| Records.UpsertAppends | services/DataService.ts:60-69 | when the id is unknown, the record is pushed at the end |
| Records.UpsertThenFind | services/DataService.ts:60-69 | after saving a record, looking its id up returns exactly that record |
| Records.UpsertIdempotent | services/DataService.ts:60-69 | saving the same record twice gives the same list as saving it once |
| DataService.Stored | services/DataService.ts:51-53 | `saveSettings` stores the full settings, templates included |
| DataService.SettingsOf | services/DataService.ts:43-50 | no stored settings gives the defaults; a stored value without templates gets the two seed templates with every other field kept; otherwise the stored value is returned as it is |
| DataService.SaveThenGetSettings | services/DataService.ts:43-53 | saving settings and reading them back gives the same settings |
| DataService.DefaultTemplatesWellFormed | services/DataService.ts:11-39 | the two seed templates have distinct ids and triggers, so the defaults satisfy the one-default-per-trigger invariant |
| LocalStore.Store.constructor | services/DataService.ts:4-9 | a fresh storage area has every key absent |
| LocalStore.Store.GetSettings | services/DataService.ts:43-50 | returns `SettingsOf` the settings key; the defaults when the key is absent |
| LocalStore.Store.SaveSettings | services/DataService.ts:51-53 | only the settings key changes, and reading it back gives the saved settings |
| LocalStore.Store.GetLeads | services/DataService.ts:56-59 | returns the stored leads, or the empty list when the key is absent |
| LocalStore.Store.SaveLead | services/DataService.ts:60-69 | only the leads key changes; it holds the upsert of the old list, and finding the lead's id returns the lead |
| LocalStore.Store.DeleteLead | services/DataService.ts:70-75 | leads and messages are both filtered: exactly the records not referring to the id remain, in order; the message count drops by the number of cascaded messages; an unknown id leaves both lists as read unchanged |
| LocalStore.Store.GetAllMessages | services/DataService.ts:78-81 | returns the stored log, or the empty list when the key is absent |
| LocalStore.Store.GetMessages | services/DataService.ts:82-84 | returns exactly the messages of that lead, in log order |
| LocalStore.Store.AddMessage | services/DataService.ts:85-89 | the message is appended to the log; every lead's thread is unchanged except the message's own lead, which gains it at the end |
| LocalStore.Store.GetAutomations | services/DataService.ts:92-95 | returns the stored rules, or the empty list when the key is absent |
| LocalStore.Store.SaveAutomation | services/DataService.ts:96-105 | only the rules key changes; it holds the upsert of the old list, and finding the rule's id returns the rule |
| LocalStore.Store.DeleteAutomation | services/DataService.ts:106-109 | exactly the rules with another id remain, in order; an unknown id leaves the list as read unchanged |
| LocalStore.Store.ClearAllData | services/DataService.ts:112-118 | the four data keys are removed and the profile key is not touched; reads then give empty lists and the default settings |
| LocalStore.Store.GetProfile | services/AuthService.ts:17-23 | an absent profile is replaced by the default profile, which is stored and returned; a stored profile is returned unchanged |
| LocalStore.Store.UpdateProfile | services/AuthService.ts:25-27 | the profile key holds the given profile |
| LocalStore.Store.Logout | services/AuthService.ts:28-31 | the profile key is removed |
| LocalStore.SaveSettingsScreen | features/Settings.tsx:75-83 | after Save, the settings and profile keys read back as the edited values and the data keys are unchanged |
| SettingsEditor.UpdateIntegration | features/Settings.tsx:85-89 | only the integration at the index changes: its key is set, and it is CONNECTED exactly when the key is non-empty |
| SettingsEditor.UpdateIntegrationLastWins | features/Settings.tsx:85-89 | typing two keys into the same integration leaves the state the second alone gives |
| SettingsEditor.AddTemplate | features/Settings.tsx:91-101 | the template list gains one non-default "Lead Created" template at the end, which becomes the open template; other settings are kept |
| SettingsEditor.AddTemplateKeepsInvariants | features/Settings.tsx:91-101 | with a fresh id, adding a template keeps ids unique and at most one default per trigger |
| SettingsEditor.DeleteTemplate | features/Settings.tsx:103-106 | the templates with that id are filtered out; the editor closes exactly when it showed that template |
| SettingsEditor.DeleteTemplateEffect | features/Settings.tsx:103-106 | exactly the templates with other ids remain, in order, and both template invariants are preserved |
| SettingsEditor.ReplaceTemplate | features/Settings.tsx:108-113 | each template with the updated id is replaced; every other template is kept at its position |
| SettingsEditor.UpdateTemplate | features/Settings.tsx:108-113 | the templates with the updated id become the updated template and nothing else in the settings changes |
| SettingsEditor.UpdateAbsentTemplate | features/Settings.tsx:108-113 | updating a template whose id is not in the list changes nothing |
| SettingsEditor.UpdateTemplateIdempotent | features/Settings.tsx:108-113 | updating twice equals updating once, and unique ids stay unique |
| SettingsEditor.UpdateTemplateCanBreakDefaults | features/Settings.tsx:323-329 | moving the default WON template onto "Lead Created" through the trigger select leaves that trigger with two defaults |
| SettingsEditor.MarkDefault | features/Settings.tsx:116-121 | within the template's trigger, each template's default flag becomes "has the template's id"; other triggers are kept |
| SettingsEditor.SetAsDefault | features/Settings.tsx:115-123 | as `MarkDefault`, on the settings; no other field changes |
| SettingsEditor.SetAsDefaultSingle | features/Settings.tsx:115-123 | with unique ids, the template's trigger ends with exactly one default (the chosen id, if present), and both invariants are preserved |
| SettingsEditor.Placeholder | features/Settings.tsx:173 | the placeholder is the variable name wrapped in two braces on each side |
| SettingsEditor.InsertVariable | features/Settings.tsx:163-183 | with no open template nothing happens; otherwise the selection is replaced by `{{variable}}`, the edited template is stored in the settings, and the caret lands just after the placeholder |
| Pipeline.SelectedLead | features/Pipeline.tsx:295 | the selected lead is the first lead with the selected id, or none when there is no selection or no such lead |
| Pipeline.NewLead | features/Pipeline.tsx:343-353 | the lead built from the form has the given id and date, tenant `t1`, a non-empty name, a score and no analysis, and the form's stage (NEW when none) |
| Pipeline.InitialAndBlankFormsAgree | features/Pipeline.tsx:297-303 | the form as first shown (no score) and the form reset after a save (score 0) build the same lead |
| Pipeline.SaveLead | features/Pipeline.tsx:341-357 | the new lead is put first with each empty form field replaced by its default, the form is reset and the modal closed |
| Pipeline.OpenFormForStage | features/Pipeline.tsx:409-412 | the column's "Add Lead" button presets the form's stage and opens the modal, changing nothing else |
| Pipeline.SavedLeadLandsInColumn | features/Pipeline.tsx:409-412 | a lead saved right after that button is at the head of that stage's column |
| Pipeline.Rescore | features/Pipeline.tsx:312-314 | the leads with the id get the analysis and its score; every other lead is kept |
| Pipeline.StartScoring | features/Pipeline.tsx:305-309 | an unknown id changes nothing; otherwise the id joins the set of leads being scored |
| Pipeline.FinishScoring | features/Pipeline.tsx:310-323 | the id leaves the scoring set; on success only the leads with the id are updated, and on failure the leads are unchanged |
| Pipeline.ScoreLead | features/Pipeline.tsx:305-324 | an unknown id returns early; otherwise the id ends outside the scoring set, the list keeps its length, leads with other ids are kept, leads with the id get the analysis and its score on success, and a failed call leaves the leads unchanged |
| Pipeline.ScoreLeadEffect | features/Pipeline.tsx:305-324 | scoring an unknown id is a no-op; otherwise the scoring set ends without the id; leads with other ids are kept position by position, leads with the id get the analysis and its score on success; a lead's score stays consistent with its analysis |
| Pipeline.MergeForm | features/Pipeline.tsx:331 | each field the parser returned overrides the form's; the others are kept |
| Pipeline.MergeFormLaws | features/Pipeline.tsx:331 | merging an empty parse changes nothing, and merging the same parse twice equals merging it once |
| Pipeline.AiScan | features/Pipeline.tsx:326-339 | blank input or a failed parse leaves the board unchanged; otherwise the parse is merged into the form and the input is cleared |
| Pipeline.Column | features/Pipeline.tsx:400 | a column holds exactly the leads at its stage, in list order |
| Pipeline.TotalValue | features/Pipeline.tsx:395 | the sum of the leads' values; no negative value gives no negative total |
| Pipeline.ColumnCount | features/Pipeline.tsx:391 | a column header's count is at most the number of leads, and zero exactly when no lead is at that stage |
| Pipeline.ColumnTotal | features/Pipeline.tsx:395 | a column header's total is not negative when no value is |
| Pipeline.ColumnsPartitionLeads | features/Pipeline.tsx:384-400 | over the five stages, the column counts add up to the number of leads and the column totals to the total value |
| Pipeline.BoardShowsAllButLost | features/Pipeline.tsx:35-40 | the four board columns show every lead that is not LOST, and no LOST lead |

## Left out

- Browser storage and JSON are taken to be lossless. A slot holds typed records rather than text. Storage quota errors and hand-edited, malformed JSON are not modelled.
- Stored settings from older versions may lack fields other than `templates`. Those are not modelled, because `getSettings` patches only `templates`.
- `window.location.reload()` after `clearAllData` and `logout` is left out, because page reloads are outside the model.
- `Math.random` ids and `new Date()` are parameters: `AddTemplate`'s id, and `SaveLead`'s id and date.
- The AI services (`scoreLeadProfile`, `parseLeadFromText`) are not part of this model. Their results are parameters: an `Option` whose `None` stands for a thrown error.
- `handleImproveWithAi` is not modelled. Its whole effect comes from a remote model call whose answer is unknown.
- `SettingsEditor.InsertVariable`: the DOM parts are left out. These are the `template-editor` lookup (a missing textarea returns early), focus, and the deferred `setSelectionRange`. The model returns the caret position instead. The selection bounds are parameters, required to lie within the template text.
- `SettingsEditor.InsertVariable`: positions are counted in characters, not in the UTF-16 code units that `selectionStart`, `selectionEnd` and `substring` use. The two agree on text with no character outside the Basic Multilingual Plane (emoji, for example); on other text the model's offsets differ from the source's.
- `LocalStore.SaveSettingsScreen`: the 800 ms delay, the saving flag and the toast are left out. They are timing and display only.
- Pipeline UI flags are left out: `isAiScanning`, the alert on a failed scan, and `console.error`.
- `Pipeline.ScoreLead` composes the two scoring phases with no other event in between. The model does not capture other handlers running during the remote call. `StartScoring` and `FinishScoring` are each also stated on their own.
- `Pipeline.AiScan` is one atomic step. The source checks the input before the remote call and merges the parse into the form and clears the input after it. Edits to the form or the input made while the call is pending are not modelled.
- JavaScript numbers are doubles; values and scores are modelled as unbounded integers. Rounding of large sums, `NaN`, and the display formatting (`/1000`, `toLocaleString`) are left out.
- Parser results outside the `Source` and `Stage` enumerations, or `null` fields, are not modelled. A field the parser did not return is `None`.
- The static parts of the screens are left out: tabs, team rows, simple field setters such as brand colour, currency and timezone, and the rendering itself.
