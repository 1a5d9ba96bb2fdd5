# Well Fed ʻOhana site-analysis form: answer-map editing engine

A Dafny model of the core of a single-page intake form for a garden-site survey.
The model has two parts.

- **Field value rules** (`FormField`). For each field type there is a rendered widget.
  The model gives the value that widget hands to the answer-map handler when the
  user edits it, and what the widget displays for a stored answer:
  - scalars, textareas and radio buttons pass the raw input string through;
  - dimensions spread the old value and set one slot;
  - checkboxes and checklists append or filter an ordered list.
- **Form session** (`FormSession.Session`). A class whose fields are the `App`
  component's state hooks. Each handler and effect is one atomic method:
  - the auth callback, the record-creating effect and the record's id coming back;
  - the snapshot listener, `handleFormChange` and `handleSave` with its completion;
  - Previous/Next navigation and the progress-bar jump;
  - the summary request and the classification of its response.

  Every request the component sends out is appended to a ghost request log:
  sign-in, record creation, the merge write of a save, and the summary request.
  The class invariant `Valid()` states:
  - once the record id is set, no further creation is issued;
  - a record id only exists after a creation was issued;
  - creations only happen after auth is ready;
  - there is at most one creation per change of the user id, so a session that only ever
    sees one user creates at most one record.

`Schema` encodes the form's four sections as a constant and proves their
well-formedness. `Decimal` is the number-to-text conversion that the error
message and object spread rely on. `Scenarios` drives sessions through whole
event sequences using only the method contracts. Examples: an edit followed by
Next saves the edit; a snapshot before a save loses an unsaved edit; a non-ok
status names the status in the summary text.

Three behaviours of the code are easy to miss, and the model follows the code:
- **Checking is not idempotent.** Checking an option appends it, even if it is
  already in the list (`FormField.RecheckDuplicates`). The widget only offers
  "check" for an unchecked box, so `Session.EditField` requires that.
- **Jumping is not bounds-checked.** The progress-bar buttons exist only for
  existing sections, so `Session.JumpToSection` requires a valid index.
- **Creation is guarded per change of user, not per session.** The creation guard only
  blocks once a record id is set. If a different user is reported while the
  first creation is still outstanding, the effect runs again and issues a second
  creation (`Scenarios.SecondUserWhileCreatingCreatesTwice`). What the code does
  guarantee is proved: at most one creation per change of the user id, so a
  session that only ever sees one user creates at most one record.

## Model

| member | source | states |
|---|---|---|
| `FormField.ShapeOf` | src/components/FormField.js:17-58 | exactly the ten listed field types get a widget; checkbox and checklist share the list widget, everything else renders nothing |
| `FormField.Change` | src/components/FormField.js:17-58 | a widget hands on a value only for its own kind of event: text for scalar/textarea/radio input, a record for a dimension input, a list for a checkbox toggle |
| `FormField.CheckboxChange` | src/components/FormField.js:6-13 | checking yields the old list plus the option at the end, one more occurrence of it than before |
| `FormField.NonListTreatedAsEmpty` | src/components/FormField.js:7 | a non-array current value acts as `[]`: checking gives `[option]`, unchecking gives `[]` |
| `FormField.CheckAbsentOccursOnce` | src/components/FormField.js:8-9 | checking an unchecked option appends it at the end, and it then occurs exactly once |
| `FormField.RecheckDuplicates` | src/components/FormField.js:8-9 | checking an option already listed gives it at least two occurrences (the append is unconditional) |
| `FormField.UncheckRemovesEveryOccurrence` | src/components/FormField.js:10-11 | after unchecking, the option does not occur, and every other label occurs as often as before |
| `FormField.UncheckKeepsOrder` | src/components/FormField.js:11 | the filtered list is a subsequence of the old one, so the remaining options keep their relative order |
| `FormField.UncheckAbsentIsNoOp` | src/components/FormField.js:11 | unchecking an option not in the list returns an equal list |
| `FormField.CheckThenUncheckRestores` | src/components/FormField.js:8-11 | checking an unchecked option and then unchecking it gives back the original list |
| `FormField.CheckedMeansListed` | src/components/FormField.js:50 | a box shows as checked exactly when the answer is a list containing its option |
| `FormField.ToggleShows` | src/components/FormField.js:50 | after a toggle the box shows the new state and every other option's box is unchanged |
| `FormField.ToggleStoresList` | src/components/FormField.js:6-13 | a checkbox or checklist toggle hands on the appended or filtered list, and the box then shows the new state |
| `FormField.Spread` | src/components/FormField.js:29-30 | spread copies nothing from `undefined` and exactly the properties of a record; from an array or string it copies exactly the decimal indices, each holding that element or one-character string |
| `FormField.DimensionsChange` | src/components/FormField.js:29-30 | the edited slot holds the raw input; every other key is present and equal exactly as in the spread old value |
| `FormField.DimensionsFromUndefined` | src/components/FormField.js:29-30 | from an unanswered field, only the edited slot is set |
| `FormField.DimensionsEditKeepsOtherSlot` | src/components/FormField.js:29-30 | for an unanswered or record answer, editing length keeps width (present or absent, and as displayed), and vice versa |
| `FormField.DimensionsEditsCommute` | src/components/FormField.js:29-30 | editing length then width gives the same record as editing width then length |
| `FormField.SlotDisplay` | src/components/FormField.js:29-30 | an absent answer shows empty, a record shows its slot or empty |
| `FormField.SlotDisplayAfterEdit` | src/components/FormField.js:29-30 | after a dimension edit, that input shows exactly the raw string |
| `FormField.DimensionsEditStoresRecord` | src/components/FormField.js:29-30 | a dimension input hands on the spread old value with the edited slot set, and that input then shows the raw string |
| `FormField.ScalarDisplay` | src/components/FormField.js:23-25 | an absent answer shows `''`, a string answer shows itself |
| `FormField.ScalarPassThrough` | src/components/FormField.js:18-38 | text-like, textarea and radio edits store the raw string whatever was there (a `number` field stores a string), and a text input or textarea shows it back |
| `FormField.FalsyScalarShowsEmpty` | src/components/FormField.js:23 | an unanswered or empty-string scalar displays as `''` |
| `FormField.RadioSelectsExactlyOne` | src/components/FormField.js:38 | after picking an option, that radio button and no other shows as selected |
| `Schema.SectionsNonEmpty` | src/App.js:10-71 | the schema has four sections, each with at least one field |
| `Schema.IdsDistinct` | src/App.js:10-71 | no two fields, in the same or in different sections, share an id |
| `Schema.ChoiceOptionsWellFormed` | src/App.js:10-71 | every radio, checkbox and checklist field has a non-empty options list without repeats |
| `Schema.OtherOptionListed` | src/App.js:10-71 | every field with `hasOtherOption` lists `"Other"` |
| `Schema.EveryFieldRendered` | src/components/FormField.js:17-58 | every field type in the schema is one the renderer handles, so no field renders nothing |
| `FormSession.WithAnswer` | src/App.js:133-135 | the edited field maps to the new value, and every other key is present and equal exactly as before |
| `FormSession.Lookup` | src/App.js:202 | a field's current value is `undefined` exactly when it is unanswered |
| `FormSession.LastEditWins` | src/App.js:133-135 | a second edit of a field overrides the first |
| `FormSession.EditsOfDistinctFieldsCommute` | src/App.js:133-135 | edits of different fields commute |
| `FormSession.AfterSnapshot` | src/App.js:125-128 | an existing record's snapshot replaces the answers by its `formData`, or `{}` when that is absent; a missing record leaves them |
| `FormSession.SnapshotDiscardsUnsavedEdit` | src/App.js:125-128 | the map after a snapshot does not depend on an unsaved local edit, which is lost |
| `FormSession.SignInRequest` | src/App.js:96-102 | with no user, sign-in uses the token exactly when one is set, and anonymous sign-in otherwise |
| `FormSession.SaveRequest` | src/App.js:137-142 | a save issues no write exactly when the record id or the user id is missing; otherwise a merge write of the answers with status `saved` to that user's record |
| `FormSession.PrevIndex` | src/App.js:165 | Previous lands one section back, and never below 0 |
| `FormSession.NextIndex` | src/App.js:166 | Next lands one section on, and never past the last |
| `FormSession.NavigationStaysInBounds` | src/App.js:165-166 | from any section both moves land on an existing section; Previous at 0 stays at 0, Next at the last stays at the last |
| `FormSession.PrevUndoesNext` | src/App.js:165-166 | away from the ends, Previous undoes Next and Next undoes Previous |
| `FormSession.SummaryText` | src/App.js:154-161 | the summary text is never empty: the response text when present and non-empty, the fixed fallback for an ok response without text, the error text with the status message for a non-ok status, the error text with the failure message otherwise |
| `FormSession.NotOkSummaryNamesStatus` | src/App.js:156 | the text for a non-ok status contains `API call failed with status: <status>`, and the status reads back from it |
| `FormSession.Session.View` | src/App.js:168-177 | only the loading view renders until auth is ready and a record id is set |
| `FormSession.Session.FormShownOnlyAfterCreate` | src/App.js:110-120 | when the form shows, a creation was issued and the creation guard no longer holds |
| `FormSession.Session.CreationsBoundedByUsers` | src/App.js:110-120 | at most one creation per change of the user id, so a session that only ever sees one user creates at most one record |
| `FormSession.Session.constructor` | src/App.js:78-85 | the initial hook values: section 0, no answers, no user, auth not ready, no record, not saving, empty summary, not generating |
| `FormSession.Session.AuthStateChanged` | src/App.js:92-105 | a user sets the user id; no user issues a sign-in and keeps the user id; either way auth becomes ready and nothing else changes |
| `FormSession.Session.RunCreateRecordEffect` | src/App.js:110-120 | on a dependency change, issues one creation (empty answers, status `in-progress`) exactly when auth is ready, a user is set and no record id is set; no hook changes |
| `FormSession.Session.RecordCreated` | src/App.js:115-116 | the new record's id becomes the record id; nothing else changes |
| `FormSession.Session.SnapshotArrived` | src/App.js:122-131 | while the listener is open, the answers become the snapshot's answers; nothing else changes |
| `FormSession.Session.HandleFormChange` | src/App.js:133-135 | only the answer map changes: the one field takes the new value |
| `FormSession.Session.EditField` | src/App.js:202 | a field of the current section stores the value its widget computes from the old answer and the event |
| `FormSession.Session.HandleSave` | src/App.js:137-142 | issues the save's write and sets saving, or changes nothing when an id is missing |
| `FormSession.Session.SaveFinished` | src/App.js:144-145 | saving is false after a write finishes, whether it succeeded or failed |
| `FormSession.Session.PrevSection` | src/App.js:165 | issues the save with the answers as they were, then moves back one section, clamped at 0 |
| `FormSession.Session.NextSection` | src/App.js:166 | issues the save with the answers as they were, then moves on one section, clamped at the last |
| `FormSession.Session.JumpToSection` | src/App.js:198 | goes to the chosen existing section and issues no save |
| `FormSession.Session.GenerateSummary` | src/App.js:148-155 | sets generating, clears the summary and requests a summary of the current answers |
| `FormSession.Session.SummaryReceived` | src/App.js:156-162 | the summary becomes the response's classified text and generating is false |

## Left out

- Firebase auth and Firestore are external calls, so they are not modelled. Each
  request is an entry in the ghost log; each reply is a method the environment calls.
  This covers the auth SDK calls, adding the record, the merge write and the listener.
  Firestore's own `merge: true` semantics belong to that library.
- The Gemini `fetch` is not modelled, and neither is parsing its JSON reply. The reply
  is the `Response` datatype: a non-ok status, an ok reply with optional text, or a
  failure message. A `text` that is not a string (a number, say) is not modelled.
- The prompt is not modelled: its fixed template, `JSON.stringify` of the answers, and
  the request payload. `GenerateContent` carries the answers the prompt is built from.
  The API key and URL are not modelled either.
- Server timestamps (`createdAt`, `updatedAt`) and the `artifacts/<appId>/...` path
  prefix are not modelled. The `__app_id` global is not modelled either.
- The `__initial_auth_token` global becomes the `token` parameter of `AuthStateChanged`.
- Promise interleaving and React's render timing are not modelled. Each handler and
  effect is one atomic step that reads the state as it is at that step.
- The two `useEffect` runs are modelled differently:
  - the record-creating effect may run on mount and after any change of its
    dependencies;
  - the snapshot listener's subscribe and unsubscribe are not modelled. A snapshot is
    accepted whenever both ids are set, so a snapshot from an older record after an
    id change is not modelled.
- The summary modal and its `showSummaryModal` state are not modelled. Neither are
  JSX, styling and icons, nor the markup produced from the summary text (`\n` to
  `<br />`).
- Console logging is not modelled, including `handleSave`'s `showNotification` message.
- `src/components/UserIdDisplay.js` is clipboard and timer UI; it is not part of this model.
- Labels, guidance text, placeholders and icons in the schema are presentation; they
  are not part of this model.
- A failed record creation is just the absence of a `RecordCreated` call. Nothing
  retries it, and the view stays on loading.
- Answers are strings, lists of strings, or records of strings: the shapes the form
  writes. Other JSON values a remote record might hold are not modelled (numbers,
  booleans, `null`, nested objects).
- Strings are sequences of Unicode scalar values. JavaScript counts UTF-16 code
  units, so a string's `.length` and its spread index keys differ from the model's
  for characters outside the Basic Multilingual Plane.
- `FormSession.Session.RecordCreated` requires a non-empty id, as Firestore's
  generated ids are. The case of an empty `newDocRef.id` is not modelled.
- FormField.DimensionsEditKeepsOtherSlot: holds only for an unanswered or record answer. For a string or list answer, the Length input first shows the answer's own `.length`, and after a Width edit the spread record has no `length` key, so that display is not preserved.
