# Value streams and production lines: state model

This project models the in-memory state of the production-parameters screen.
It also models the pure update functions that the screen's handlers apply to that state.
The state is an ordered list of value streams. Each stream owns an ordered list of production lines.
Next to the list sit three more pieces of state:

- the set of stream ids whose line section is collapsed;
- the confirm dialog, which holds a pending action;
- the context of two form modals: the current ids, add or edit mode, and the initial form data.

The handlers that change the streams hand an update to `setValueStreams`. In the model each update is a total function on `seq<Stream>`:

- activate or deactivate a stream;
- activate or deactivate a line;
- add a line, or edit one;
- remove a line;
- add a stream, or edit one.

Deactivating an active stream or line, and deleting a line, do not touch the streams.
They park an `Action` in the confirm dialog. "Confirmar" applies that action once and closes the dialog.
"Cancelar" drops it. Activating an inactive record happens at once, without a dialog.

Module layout:

- `Wrappers`: `Option`.
- `Sequences`: the three array idioms the handlers are built from. These are `map` with a conditional rewrite, `filter` and `find`.
- `Records`: `Line`, `Stream`, the four-field form record `Fields`, the rule that initialises a form, and JavaScript truthiness of a nullable id.
- `LineUpdates`: updates of one stream's line list.
- `StreamUpdates`: the per-handler updates of the stream list. It also holds the well-formedness predicate: ids are non-empty and unique.
- `App`: the `State` record, the confirm-dialog `Action`s, and one function per handler, including `Confirm` and `Cancel`.
- `Flows`: properties across several handler calls. These cover dialog round trips, open-then-save sequences, and the prefill rule.
- `Session`: a session as a sequence of events, and the invariant that fresh ids keep the stream list well formed.

Ids are arbitrary strings, and the code does not keep them unique. So each update is specified for every stream, and every line, whose id matches.
Uniqueness appears only as the `WellFormed` precondition of the lemmas that need it.
`Session.RunWellFormed` shows that a session keeps that invariant whenever each new id is fresh.

Two facts about the code that the model keeps:

- The code never enforces unique ids. A removal deletes every line with the id (`filter`) in every stream with the stream id (`map`).
  - Opening an edit form, by contrast, looks only at the first stream with the id and its first line with the id (`find`).
  - So the prefill round trip needs unique stream ids. With two streams sharing an id, saving an unmodified edit form copies the first stream's line over the second stream's line of the same id (`Flows.DuplicateStreamIdsUnmodifiedEditOverwrites`).
- The null checks on the current ids are truthiness tests.
  - The early return of the line save treats an empty-string stream id as absent. The edit-mode test treats an empty-string line id, or stream id, the same way.
  - Editing a record whose id is `""` therefore adds a new record instead (`Flows.EmptyIdEditAppendsStream`).
  - The ids the program creates are never empty, so this is recorded as modelled behaviour, not as a defect.

## Model

| member | source | states |
|---|---|---|
| Sequences.MapWhere | src/App.tsx:359-365 | `map` with a conditional rewrite keeps the length. Selected elements are rewritten and every other element stays in place. |
| Sequences.Filter | src/App.tsx:490 | `filter` returns only kept elements, drawn from the input. It keeps every element that passes, and returns the input itself when all pass. |
| Sequences.FilterAppend | src/App.tsx:490 | Filtering distributes over concatenation, so the surviving elements keep their relative order. |
| Sequences.FilterIdempotent | src/App.tsx:490 | Filtering twice with the same predicate equals filtering once. |
| Sequences.FirstIndex | src/App.tsx:425 | Returns None exactly when no element matches. Otherwise it returns an index that matches, with no earlier match. |
| Sequences.Find | src/App.tsx:425 | `find` returns None exactly when no element matches. Otherwise it returns the first matching element. |
| Records.NewLine | src/App.tsx:464-467 | A new line has the given id and exactly the form's four fields. |
| Records.NewStream | src/App.tsx:533-537 | A new stream has the given id, the form's four fields and no lines. |
| Records.WithLineFields | src/App.tsx:455 | Spreading the form over a line sets its four fields and keeps its id. A form equal to the line's own fields gives back the same line. |
| Records.WithStreamFields | src/App.tsx:527 | Spreading the form over a stream sets its four fields and keeps its id and lines. The stream's own fields give back the same stream. |
| Records.Truthy | src/App.tsx:444-446 | A nullable id is falsy exactly when it is null or the empty string. |
| Records.InitialForm | src/App.tsx:88-94 | An opened modal's form equals the initial data when there is some. Otherwise it has empty name, description and code, and `isActive` is true. |
| LineUpdates.Occurrences | src/App.tsx:490 | The count of lines with an id is at most the list length. It is zero exactly when no line carries the id. |
| LineUpdates.SetLinesActive | src/App.tsx:391-393 | Only `isActive` of lines with the id changes, and it takes the new value. The length and all other lines are unchanged. |
| LineUpdates.EditLines | src/App.tsx:453-457 | Lines with the id take the form's fields. Every line keeps its id, other lines are unchanged, and the length is kept. |
| LineUpdates.RemoveLines | src/App.tsx:490 | The result holds no line with the id. It holds every line without the id, and only lines of the input. |
| LineUpdates.RemoveLinesCount | src/App.tsx:490 | Removal shortens the list by exactly the number of lines carrying the id. |
| LineUpdates.RemoveLinesAppend | src/App.tsx:490 | Removal distributes over any split of the list, so the remaining lines keep their order. |
| LineUpdates.RemoveLinesAbsent | src/App.tsx:490 | Removing an id that no line carries leaves the list unchanged. |
| LineUpdates.AppendThenRemove | src/App.tsx:472 | Appending a line with an unused id, then removing that id, gives back the original list. |
| LineUpdates.RemoveLinesIdempotent | src/App.tsx:490 | Removing the same id twice equals removing it once. |
| LineUpdates.RemoveLinesWellFormed | src/App.tsx:490 | Removal keeps line ids non-empty and pairwise distinct. |
| LineUpdates.AppendWellFormed | src/App.tsx:472 | Appending a line with a fresh, non-empty id keeps line ids distinct. |
| LineUpdates.SetLinesActiveLastWins | src/App.tsx:391-393 | Of two activity writes on the same id, the second decides the result. |
| LineUpdates.SetLinesActiveNoChange | src/App.tsx:391-393 | Writing the activity that the matching lines already have changes nothing. |
| LineUpdates.EditLinesNoChange | src/App.tsx:453-457 | Editing the matching lines with the fields they already have changes nothing. |
| StreamUpdates.FindStream | src/App.tsx:425 | The stream search fails exactly when no stream has the id. On success it returns the first stream of the list with that id. |
| StreamUpdates.FindLine | src/App.tsx:428 | The line search fails exactly when no line carries the id. On success it returns the first line of the list with that id. |
| StreamUpdates.SetStreamActive | src/App.tsx:359-375 | Every stream with the id gets `isActive` set to the given value. Every other field, every other stream, the length and the order are unchanged. |
| StreamUpdates.SetLineActive | src/App.tsx:386-411 | Only `isActive` changes, and only for lines with the line id inside streams with the stream id. All other streams, all other lines and every line count are unchanged. |
| StreamUpdates.EditLine | src/App.tsx:448-461 | Matching lines in matching streams take the form's fields. All line ids, all line counts, all stream fields and all other lines are unchanged. |
| StreamUpdates.AddLine | src/App.tsx:464-475 | Each stream with the id gains exactly one line, `l`, at the end, and keeps its old lines in front. Other streams are untouched. |
| StreamUpdates.RemoveLine | src/App.tsx:485-494 | Streams with the id lose exactly the lines with the line id and keep the others. Other streams and the stream count are unchanged. |
| StreamUpdates.EditStream | src/App.tsx:524-530 | Matching streams take the form's four fields and keep their id and lines. Other streams and the length are unchanged. |
| StreamUpdates.AddStream | src/App.tsx:533-539 | Appends exactly one stream, with the form's fields, the given id and no lines. The existing streams are an unchanged prefix. |
| StreamUpdates.SetStreamActiveLastWins | src/App.tsx:359-375 | Of two stream activity writes on the same id, the second decides the result. |
| StreamUpdates.SetStreamActiveNoChange | src/App.tsx:369-375 | Activating streams that are already active changes nothing. |
| StreamUpdates.DeactivateReactivateStream | src/App.tsx:359-375 | Deactivating active streams and then activating them again restores the list. |
| StreamUpdates.SetLineActiveLastWins | src/App.tsx:386-411 | Of two line activity writes on the same ids, the second decides the result. |
| StreamUpdates.SetLineActiveNoChange | src/App.tsx:401-411 | Writing the activity that the matching lines already have changes nothing. |
| StreamUpdates.EditLineNoChange | src/App.tsx:448-461 | Editing with the fields every matching line already has changes nothing. |
| StreamUpdates.EditStreamNoChange | src/App.tsx:524-530 | Editing with the fields every matching stream already has changes nothing. |
| StreamUpdates.AddThenRemoveLine | src/App.tsx:469-494 | Adding a line whose id the matching streams do not use, then removing that id, gives back the original list. |
| StreamUpdates.RemoveLineCounts | src/App.tsx:485-494 | Each matching stream loses exactly as many lines as carry the id. |
| StreamUpdates.SameIdsWellFormed | src/App.tsx:386-397 | Updates that keep every stream id and line id in place keep the list well formed. |
| StreamUpdates.SetStreamActiveWellFormed | src/App.tsx:359-375 | Stream activity writes keep ids unique and non-empty. |
| StreamUpdates.SetLineActiveWellFormed | src/App.tsx:386-411 | Line activity writes keep ids unique and non-empty. |
| StreamUpdates.EditLineWellFormed | src/App.tsx:448-461 | Line edits keep ids unique and non-empty. |
| StreamUpdates.EditStreamWellFormed | src/App.tsx:524-530 | Stream edits keep ids unique and non-empty. |
| StreamUpdates.RemoveLineWellFormed | src/App.tsx:485-494 | Line removal keeps ids unique and non-empty. |
| StreamUpdates.AddLineWellFormed | src/App.tsx:464-475 | Adding a line with a fresh, non-empty id keeps ids unique. |
| StreamUpdates.AddStreamWellFormed | src/App.tsx:533-539 | Adding a stream with a fresh, non-empty id keeps ids unique. |
| StreamUpdates.FindStreamUnique | src/App.tsx:507 | In a well-formed list, the stream found by id is the only stream with that id. |
| StreamUpdates.FindLineUnique | src/App.tsx:428 | In a well-formed line list, the line found by id is the only line with that id. |
| App.Apply | src/App.tsx:358-366 | Every confirmed action keeps the number of streams and every stream id. |
| App.Initial | src/App.tsx:291-332 | The screen starts with two seeded streams whose ids are unique and non-empty. Nothing is collapsed, and no dialog or modal is open. |
| App.ToggleSection | src/App.tsx:340-350 | Flips the membership of exactly the given id in the collapsed set. Every other id and all other state are unchanged. |
| App.ToggleValueStream | src/App.tsx:352-377 | For an active stream, only the dialog changes: it holds the deactivation and the streams are unchanged. For an inactive one, every stream with the id becomes active at once, and nothing else changes. |
| App.ToggleProductionLine | src/App.tsx:379-414 | For an active line, only the dialog changes. For an inactive one, matching lines in matching streams become active at once. Every other line, every other field and every line count are kept. |
| App.RemoveProductionLine | src/App.tsx:479-497 | A delete request leaves the streams unchanged. The dialog's pending action is exactly the deletion of that line from that stream. |
| App.Confirm | src/App.tsx:65-69 | The dialog is always closed afterwards. With an open dialog, the pending action is applied to the current streams. Without one, nothing changes. |
| App.Cancel | src/App.tsx:59-61 | Closes the dialog and drops the action. The streams and all other state are unchanged. |
| App.AddProductionLine | src/App.tsx:416-422 | Opens the line modal in add mode for the stream, with no line id and a blank form. Nothing else changes. |
| App.EditProductionLine | src/App.tsx:424-441 | Only the line modal can change. With no stream carrying the id, nothing changes. Otherwise only the first stream with the id is searched: if it has no line with the line id, nothing changes; if it has one, the modal opens in edit mode on those ids, prefilled with the four fields of its first line with that id. |
| App.SaveProductionLine | src/App.tsx:443-477 | With no truthy current stream id, nothing changes. Edit mode with a truthy line id edits the matching lines. Any other case appends a new line with the fresh id. Only the streams change. |
| App.SubmitLineForm | src/App.tsx:98-102 | A submit saves and then closes the modal. A closed modal ignores submits. |
| App.CloseLineModal | src/App.tsx:705 | Closing hides the line modal and keeps its context and all other state. |
| App.AddValueStream | src/App.tsx:499-504 | Opens the stream modal in add mode with a blank form. Nothing else changes. |
| App.EditValueStream | src/App.tsx:506-519 | With no stream carrying the id, nothing changes. Otherwise the modal opens in edit mode on that id, prefilled with the fields of the first stream with the id. |
| App.SaveValueStream | src/App.tsx:521-541 | Edit mode with a truthy current id edits the matching streams. Any other case appends a new stream. Only the streams change. |
| App.SubmitStreamForm | src/App.tsx:203-207 | A submit saves and then closes the modal. A closed modal ignores submits. |
| App.CloseStreamModal | src/App.tsx:714 | Closing hides the stream modal and keeps its context and all other state. |
| Flows.ToggleSectionTwice | src/App.tsx:340-350 | Toggling a section twice restores the collapsed set. |
| Flows.ConfirmRunsOnce | src/App.tsx:65-69 | A second "Confirmar" changes nothing, so the action runs once. |
| Flows.CancelDropsAction | src/App.tsx:723 | After "Cancelar" the streams are unchanged, and a later confirm applies nothing. |
| Flows.DeactivateStreamFlow | src/App.tsx:352-367 | The click alone and the click plus cancel leave the streams unchanged. The click plus confirm turns off exactly the streams with the id. |
| Flows.DeactivateThenActivateStream | src/App.tsx:352-377 | A confirmed deactivation followed by an activation restores streams that were active. |
| Flows.DeactivateLineFlow | src/App.tsx:379-399 | The click alone and the click plus cancel leave the streams unchanged. The click plus confirm turns off exactly the matching lines and keeps every line count. |
| Flows.RemoveLineFlow | src/App.tsx:479-497 | The click alone and the click plus cancel leave the streams unchanged. The click plus confirm removes exactly the matching lines, keeps the others, and keeps other streams and the stream count. |
| Flows.AddLineFlow | src/App.tsx:416-475 | Opening the add form and saving appends exactly one line, with the form fields and the fresh id, to each matching stream. The modal then closes. |
| Flows.SaveLineWithoutStreamIsNoOp | src/App.tsx:443-444 | Saving with a null or empty current stream id leaves the streams unchanged. |
| Flows.EditLineFlow | src/App.tsx:424-461 | In a well-formed list, opening a line's edit form and saving gives that line the submitted fields and keeps its id. |
| Flows.OpenEditLine | src/App.tsx:424-441 | In a well-formed list, the edit handler opens the modal on that exact line, prefilled with its four fields. |
| Flows.EditLineUnmodifiedIsNoOp | src/App.tsx:424-461 | In a well-formed list, opening a line's edit form and saving it unmodified leaves the streams unchanged. Uniqueness of the stream ids is needed, as the next row shows. |
| Flows.DuplicateStreamIdsUnmodifiedEditOverwrites | src/App.tsx:424-461 | With two streams sharing an id, each holding a line with the same id, saving the first line's edit form unmodified renames the second stream's line to the first one's name. |
| Flows.AddStreamFlow | src/App.tsx:499-539 | Opening the add form and saving appends exactly one stream, with the form fields, the fresh id and no lines. |
| Flows.EditStreamFlow | src/App.tsx:506-530 | In a well-formed list, opening a stream's edit form and saving gives it the submitted fields and keeps its id and lines. |
| Flows.EditStreamUnmodifiedIsNoOp | src/App.tsx:506-530 | In a well-formed list, opening a stream's edit form and saving it unmodified leaves the streams unchanged. |
| Flows.EmptyIdEditAppendsStream | src/App.tsx:522 | Editing a stream whose id is the empty string and saving appends a new stream instead of editing. |
| Session.Step | src/App.tsx:600-724 | Only activations, submits and "Confirmar" change the streams; every other event leaves them as they were. No event drops a stream or changes a stream's id. |
| Session.StepWellFormed | src/App.tsx:352-541 | Every event keeps ids unique and non-empty, provided the new id of a save is fresh. |
| Session.RunWellFormed | src/App.tsx:352-541 | A whole session with fresh new ids keeps the stream list well formed. |
| Session.SessionWellFormed | src/App.tsx:291-313 | From the seeded screen, any session with fresh new ids keeps stream ids and line ids unique. |

## Left out

- Rendering, styling, icons and layout: presentation only, with no behaviour to state.
- The dialog's title and message strings: the model keeps only the action the dialog would run.
- `handleSaveChanges`: a simulated save with nested timers and no durable effect. The `isSaving` and `showSaveSuccess` flags go with it.
- `Date.now().toString()`: it reads the wall clock. The new id is a parameter, and it is assumed fresh only where a lemma says so.
- React hook and effect lifecycle:
  - `currentStatus` is taken as the render passed it.
  - The form a user submits is a parameter of the submit.
  - Only the rule that initialises a form when it opens is modelled (`Records.InitialForm`).
- Cancel keeps the stale `onConfirm` callback in state, with the dialog closed. A closed dialog renders nothing, so the model drops the callback (`pending := None`).
- HTML `required` validation: the browser enforces it, not the code.
- `selectedStream`: declared but never read or written.
- Production goals and the placeholder tabs: they do not appear in `src/App.tsx`, so there is nothing to model.
