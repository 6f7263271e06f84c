# Spelling preference block and Find/Replace dialog stub: a Dafny model

This project models the bookkeeping of two small event-driven pieces of the Eclipse text editor UI.

- **The spelling configuration block** (`SpellingConfigurationBlock`).
  - It keeps a map of spelling-engine descriptors, keyed by id.
  - It caches one preference block per provider id, and separately the control each block produced.
  - It shows one block at a time and wraps the page's status monitor in a forwarding monitor that remembers the last status.
  - Switching provider is guarded by a question when the shown block reports an error.
  - Commit is all or nothing. Reset and dispose reach every cached block.
- **The Find/Replace action** (`FindReplaceAction`).
  - Its dialog stub tracks the active workbench part and retargets the shared dialog only when the adapted target changes identity.
  - Two global slots hold at most one stub each: one slot for the part-anchored mode, one for the shell-anchored mode.
  - `run` re-checks the slot's dialog shell and then opens the dialog on the action's target. `update` recomputes the target and the enabled state.

Files:

- `wrappers.dfy`: `Option` (a Java reference that may be null) and `Last`.
- `spelling_configuration.dfy`: module `SpellingConfiguration`.
  - Classes: `PreferenceBlock`, `ForwardingStatusMonitor`, `ConfigurationBlock`.
  - Pure parts: the switch guard, the list model and the overlay keys.
- `find_replace.dfy`: module `FindReplace`.
  - The stub's state as a value, with one transition function per listener method.
  - Lemmas about sequences of notifications.
  - Classes: `DialogStub` (its methods are proved equal to the transition functions), `Slots` and `Action`.

How the host is represented:

- Host services and user answers are inputs:
  - `SpellingConfiguration.Service`: which descriptor the spelling service reports as active for a stored engine id.
  - `SpellingConfiguration.Inputs`:
    - the outcome of `createPreferences`: a new block, or a `CoreException`;
    - the widget the toolkit creates for an error panel;
    - the statuses, null among them, a contributed block reports from `initialize`;
    - the user's answer to the discard question.
  - `FindReplace.Workbench`:
    - adapter lookup;
    - the `ITextEditorExtension2` answer;
    - the target's editability and `canPerformFind`;
    - the part's site shell and window;
    - the window's active part.
- Parts, targets, shells, windows and controls are opaque identities. Java reference comparison is equality on them.
- Preference blocks and stubs are objects, because the code depends on their identity.
- A preference block is host code, kept only as its fixed answers: its kind, the control `createControl` returns, and its `canPerformOk` answer.
- The configuration block logs the calls it makes on each block (`sent`): `createControl`, `initialize`, `performOk`, `performDefaults`, `performRevert`, `dispose` and `setEnabled`. "Performed exactly once" therefore means exactly one `CallPerformOk` was added to that block's log. The query `canPerformOk` changes nothing and is not logged; `CanCommitAll` states its answers.
- A find/replace dialog is a record of its parent shell, every `updateTarget` call, and whether it was opened. Closing it disposes its shell, and the stub drops it at once.

Two behaviours of the code, as written, are worth knowing. The contracts state both:

- **A failed block creation leaves its error panel cached for that provider.**
  - When `createPreferences` throws, no block is cached. `updateListDependencies` then caches the error panel under the provider's id.
  - A later successful creation for that id shows the cached error panel. The new block's own control is never used.
  - The contracts of `SelectBlock`, `SelectControl` and `UpdateListDependencies` state this behaviour.
  - The `catch` branch at SpellingConfigurationBlock.java:421-424 caches no block, but the control branch at 428-438 caches whatever non-null control the error block returns.
- **The stub's "previous target" is the target of the part it tracks now.**
  - Closing the previous part therefore drops the current part's target. The next activation of the current part retargets the dialog again (`ClosingPreviousPartUnsyncs`).
  - If one part is both the tracked part and the previous part, closing it never retargets the dialog to "no target" (`ClosingTwiceActivatedPartKeepsDialog`).

## Model

| member | source | states |
|---|---|---|
| `SpellingConfiguration.OverlayStoreKeys` | org.eclipse.ui.editors/src/org/eclipse/ui/internal/editors/text/SpellingConfigurationBlock.java:221-231 | two overlay keys, a boolean key for the enablement and a string key for the engine id, with distinct names |
| `SpellingConfiguration.CreateListModel` | org.eclipse.ui.editors/src/org/eclipse/ui/internal/editors/text/SpellingConfigurationBlock.java:212-219 | the keys are exactly the registry's ids; each entry is a registry descriptor filed under its own id; of several descriptors sharing an id, the last one wins |
| `SpellingConfiguration.SwitchGuard` | org.eclipse.ui.editors/src/org/eclipse/ui/internal/editors/text/SpellingConfigurationBlock.java:358-365 | the switch stays put iff a block is shown, its last status is an error, and the user declines; the block is reverted first iff the user accepts in that situation; otherwise the switch proceeds unasked |
| `SpellingConfiguration.PreferenceBlock.Contribute` | org.eclipse.ui.editors/src/org/eclipse/ui/internal/editors/text/SpellingConfigurationBlock.java:419 | a new contributed block for the provider id, answering with the given control and commit readiness |
| `SpellingConfiguration.PreferenceBlock.Error` | org.eclipse.ui.editors/src/org/eclipse/ui/internal/editors/text/SpellingConfigurationBlock.java:67-140 | an error block carries its message and a fresh panel as its control; it can always commit |
| `SpellingConfiguration.ForwardingStatusMonitor.StatusChanged` | org.eclipse.ui.editors/src/org/eclipse/ui/internal/editors/text/SpellingConfigurationBlock.java:166-169 | the status, possibly null, is remembered and appended to what the wrapped monitor received; the invariant "remembered = last forwarded" is kept |
| `SpellingConfiguration.ForwardingStatusMonitor.StatusesChanged` | org.eclipse.ui.editors/src/org/eclipse/ui/internal/editors/text/SpellingConfigurationBlock.java:445-446 | the statuses a block reports while it initializes reach the wrapped monitor in order, and the last one is remembered |
| `SpellingConfiguration.ForwardingStatusMonitor.GetStatus` | org.eclipse.ui.editors/src/org/eclipse/ui/internal/editors/text/SpellingConfigurationBlock.java:176-178 | null before any report; afterwards the last status passed to `statusChanged`, which may itself be null |
| `SpellingConfiguration.ConfigurationBlock.constructor` | org.eclipse.ui.editors/src/org/eclipse/ui/internal/editors/text/SpellingConfigurationBlock.java:202-210 | the overlay keys are registered; empty block and control caches, no block shown, no top control, nothing sent to any block; a fresh monitor that has forwarded nothing; the descriptor map is exactly the list model of the registry (its ids, each under its own id, the last of an id winning) |
| `SpellingConfiguration.ConfigurationBlock.CreateControl` | org.eclipse.ui.editors/src/org/eclipse/ui/internal/editors/text/SpellingConfigurationBlock.java:272-293 | the provider viewer exists iff there is more than one descriptor; nothing else of the model changes |
| `SpellingConfiguration.ConfigurationBlock.SelectBlock` | org.eclipse.ui.editors/src/org/eclipse/ui/internal/editors/text/SpellingConfigurationBlock.java:408-426 | no descriptor: a new error block and the cache is untouched; a cached id: that very block and the cache is untouched; otherwise a block created once and cached under the id, or, if creation throws, an error block with the exception's message and the cache untouched; a new block has been sent nothing |
| `SpellingConfiguration.ConfigurationBlock.SelectControl` | org.eclipse.ui.editors/src/org/eclipse/ui/internal/editors/text/SpellingConfigurationBlock.java:428-440 | a cached control is reused unchanged and the block is not asked for one; otherwise the block is sent `createControl`, and its non-null control is cached and shown, or a null control is replaced by a fresh error panel that is shown and not cached |
| `SpellingConfiguration.ConfigurationBlock.ShowCurrent` | org.eclipse.ui.editors/src/org/eclipse/ui/internal/editors/text/SpellingConfigurationBlock.java:428-446 | the control choice above, and the block shown is sent exactly `createControl` (when its id has no cached control) and then `initialize` |
| `SpellingConfiguration.ConfigurationBlock.ShowBlock` | org.eclipse.ui.editors/src/org/eclipse/ui/internal/editors/text/SpellingConfigurationBlock.java:408-446 | `BlockShown`: the block choice and the control choice above for a given descriptor; the log gains exactly the shown block's setup calls and no other block is sent anything; a new block's log is exactly its setup calls |
| `SpellingConfiguration.ConfigurationBlock.UpdateListDependencies` | org.eclipse.ui.editors/src/org/eclipse/ui/internal/editors/text/SpellingConfigurationBlock.java:407-447 | `ListUpdated`: `BlockShown` for the active descriptor (id "" when there is none); the staged values, checkbox and viewer are kept; the monitor forwards a fresh OK status and then exactly what a contributed block reports during `initialize` (an error block reports nothing); the cache and every block's log only grow |
| `SpellingConfiguration.ConfigurationBlock.SelectionChanged` | org.eclipse.ui.editors/src/org/eclipse/ui/internal/editors/text/SpellingConfigurationBlock.java:354-368 | `SelectionHandled`: an empty selection, or an error status that the user refuses to discard, changes nothing at all (`Untouched`: fields, caches, block, monitor log and call log); otherwise the engine id becomes the selected one and the result is `ListUpdated` against the call log in which the block shown before was sent `performRevert` exactly when the user accepted |
| `SpellingConfiguration.ConfigurationBlock.SwitchTo` | org.eclipse.ui.editors/src/org/eclipse/ui/internal/editors/text/SpellingConfigurationBlock.java:359-367 | the block shown is sent `performRevert` when asked, the selected id is stored, and the result is `ListUpdated` against that log |
| `SpellingConfiguration.ConfigurationBlock.CheckboxSelected` | org.eclipse.ui.editors/src/org/eclipse/ui/internal/editors/text/SpellingConfigurationBlock.java:257-262 | the staged enablement and the checkbox take the new value; the call log gains exactly `setEnabled` with it on the active provider's cached block, and nothing if that provider has none |
| `SpellingConfiguration.ConfigurationBlock.UpdateCheckboxDependencies` | org.eclipse.ui.editors/src/org/eclipse/ui/internal/editors/text/SpellingConfigurationBlock.java:387-396 | the call log gains exactly `setEnabled(checkbox)` on the active provider's cached block, if any, and nothing else |
| `SpellingConfiguration.ConfigurationBlock.Broadcast` | org.eclipse.ui.editors/src/org/eclipse/ui/internal/editors/text/SpellingConfigurationBlock.java:458-459 | `SentToEach`: every cached block is sent the request exactly once and no other block is sent anything |
| `SpellingConfiguration.ConfigurationBlock.CanCommitAll` | org.eclipse.ui.editors/src/org/eclipse/ui/internal/editors/text/SpellingConfigurationBlock.java:454-456 | true iff every cached block answers `canPerformOk` |
| `SpellingConfiguration.ConfigurationBlock.PerformOk` | org.eclipse.ui.editors/src/org/eclipse/ui/internal/editors/text/SpellingConfigurationBlock.java:453-460 | if every cached block can commit, each is sent `performOk` exactly once and no other block anything; if any cannot, nothing is sent |
| `SpellingConfiguration.ConfigurationBlock.ShowActiveProvider` | org.eclipse.ui.editors/src/org/eclipse/ui/internal/editors/text/SpellingConfigurationBlock.java:481-487 | without a viewer: `ListUpdated` with the engine id kept; with a viewer and no active descriptor: nothing changes (`Untouched`); with a viewer and an active descriptor: `SelectionHandled` for that descriptor; in every case the checkbox and staged enablement are kept and the cache and logs only grow |
| `SpellingConfiguration.ConfigurationBlock.RestoreFromPreferences` | org.eclipse.ui.editors/src/org/eclipse/ui/internal/editors/text/SpellingConfigurationBlock.java:477-490 | the checkbox shows the staged enablement; without a viewer a block is shown; the active provider's cached block, if any, was last sent `setEnabled` with the staged enablement; the cache and every block's log only grow |
| `SpellingConfiguration.ConfigurationBlock.Initialize` | org.eclipse.ui.editors/src/org/eclipse/ui/internal/editors/text/SpellingConfigurationBlock.java:449-451 | what restore states |
| `SpellingConfiguration.ConfigurationBlock.PerformDefaults` | org.eclipse.ui.editors/src/org/eclipse/ui/internal/editors/text/SpellingConfigurationBlock.java:462-468 | restore, then every block cached afterwards has `performDefaults` as its latest call; every block cached before was sent at least one more call; the logs only grow |
| `SpellingConfiguration.ConfigurationBlock.Dispose` | org.eclipse.ui.editors/src/org/eclipse/ui/internal/editors/text/SpellingConfigurationBlock.java:470-475 | `SentToEach`: every cached block is sent `dispose` exactly once and no other block anything |
| `FindReplace.Editable` | org.eclipse.ui.workbench.texteditor/src/org/eclipse/ui/texteditor/FindReplaceAction.java:119-125 | the part's "input modifiable" answer when the part has that capability; otherwise the target's own flag; false with neither part nor target |
| `FindReplace.Activated` | org.eclipse.ui.workbench.texteditor/src/org/eclipse/ui/texteditor/FindReplaceAction.java:110-128 | the tracked part is p exactly when p adapts to a target, and none otherwise; the previous part is the old tracked part; the dialog is left untouched when the target is the same identity as before, and otherwise receives exactly one update with that target and its editability |
| `FindReplace.Closed` | org.eclipse.ui.workbench.texteditor/src/org/eclipse/ui/texteditor/FindReplaceAction.java:133-142 | a closed part is never tracked afterwards; an unrelated part changes nothing; closing the previous part clears the previous part and target; closing the tracked part is activation of no part, retargeting the dialog to "no target, not editable" unless the previous target was already cleared |
| `FindReplace.Disposed` | org.eclipse.ui.workbench.texteditor/src/org/eclipse/ui/texteditor/FindReplaceAction.java:155-162 | part, previous part, previous target, window and dialog are all null |
| `FindReplace.ActivationIdempotent` | org.eclipse.ui.workbench.texteditor/src/org/eclipse/ui/texteditor/FindReplaceAction.java:116-127 | activating the same part twice leaves the dialog as after the first activation; only the previous part moves |
| `FindReplace.UpdatesCountTargetChanges` | org.eclipse.ui.workbench.texteditor/src/org/eclipse/ui/texteditor/FindReplaceAction.java:116-127 | over any sequence of activations the dialog's earlier updates are kept, its shell is kept, and it receives exactly one update per change of target identity |
| `FindReplace.ActivationsKeepSynced` | org.eclipse.ui.workbench.texteditor/src/org/eclipse/ui/texteditor/FindReplaceAction.java:112-127 | if the dialog's latest update named the previous target, that stays true after any activations, and the previous target is the last activated part's target |
| `FindReplace.ClosingPreviousPartUnsyncs` | org.eclipse.ui.workbench.texteditor/src/org/eclipse/ui/texteditor/FindReplaceAction.java:135-138 | closing the previous part clears the target of the still-tracked part, so re-activating that part sends the dialog the same target again |
| `FindReplace.ClosingTwiceActivatedPartKeepsDialog` | org.eclipse.ui.workbench.texteditor/src/org/eclipse/ui/texteditor/FindReplaceAction.java:133-142 | when the tracked part is also the previous part, closing it untracks it but leaves the dialog's target as it was |
| `FindReplace.Vacate` | org.eclipse.ui.workbench.texteditor/src/org/eclipse/ui/texteditor/FindReplaceAction.java:149-153 | a slot never holds the leaving stub afterwards, and a slot holding another stub keeps it |
| `FindReplace.DialogStub.ForShell` | org.eclipse.ui.workbench.texteditor/src/org/eclipse/ui/texteditor/FindReplaceAction.java:93-97 | a fresh, unopened dialog on the shell, no part tracking, no window |
| `FindReplace.SiteState` | org.eclipse.ui.workbench.texteditor/src/org/eclipse/ui/texteditor/FindReplaceAction.java:78-84 | a new unopened dialog on the site's shell, the site's window, no previous part, after activation of the window's active part |
| `FindReplace.DialogStub.ForSite` | org.eclipse.ui.workbench.texteditor/src/org/eclipse/ui/texteditor/FindReplaceAction.java:78-84 | a fresh stub whose state is `SiteState` of the site, with a live dialog |
| `FindReplace.DialogStub.PartActivated` | org.eclipse.ui.workbench.texteditor/src/org/eclipse/ui/texteditor/FindReplaceAction.java:110-128 | the new state is `Activated` of the old one |
| `FindReplace.DialogStub.PartClosed` | org.eclipse.ui.workbench.texteditor/src/org/eclipse/ui/texteditor/FindReplaceAction.java:133-142 | the new state is `Closed` of the old one |
| `FindReplace.DialogStub.WidgetDisposed` | org.eclipse.ui.workbench.texteditor/src/org/eclipse/ui/texteditor/FindReplaceAction.java:147-163 | each slot holding this stub is cleared and a slot holding another stub is unchanged; dialog, part, previous part, previous target and window become null; the slot invariant is kept |
| `FindReplace.DialogStub.CheckShell` | org.eclipse.ui.workbench.texteditor/src/org/eclipse/ui/texteditor/FindReplaceAction.java:188-198 | with a dialog on another shell, the stub leaves both slots and, since closing disposes the dialog's shell, ends in the `Disposed` state; otherwise nothing changes |
| `FindReplace.Opened` | org.eclipse.ui.workbench.texteditor/src/org/eclipse/ui/texteditor/FindReplaceAction.java:331-332 | the dialog is open on the same shell, its updates are the old ones plus exactly the given one, and the tracking fields are kept |
| `FindReplace.DialogStub.ShowTarget` | org.eclipse.ui.workbench.texteditor/src/org/eclipse/ui/texteditor/FindReplaceAction.java:331-332 | the new state is `Opened` of the old one |
| `FindReplace.Slots.constructor` | org.eclipse.ui.workbench.texteditor/src/org/eclipse/ui/texteditor/FindReplaceAction.java:207-214 | both global slots start empty |
| `FindReplace.Action.ForPart` | org.eclipse.ui.workbench.texteditor/src/org/eclipse/ui/texteditor/FindReplaceAction.java:241-246 | part mode; the target is the part's adapter; enabled iff that target can find |
| `FindReplace.Action.ForShell` | org.eclipse.ui.workbench.texteditor/src/org/eclipse/ui/texteditor/FindReplaceAction.java:267-273 | shell mode with the given target; enabled iff it can find |
| `FindReplace.Action.ForWindow` | org.eclipse.ui.workbench.texteditor/src/org/eclipse/ui/texteditor/FindReplaceAction.java:289-293 | the part is the window's active part; the target is that part's adapter; enabled iff that target can find |
| `FindReplace.Action.Update` | org.eclipse.ui.workbench.texteditor/src/org/eclipse/ui/texteditor/FindReplaceAction.java:338-350 | outside shell mode the part is looked up only if missing and the target is re-adapted from it; in shell mode the target never changes; enabled iff a target exists that can find |
| `FindReplace.Action.Run` | org.eclipse.ui.workbench.texteditor/src/org/eclipse/ui/texteditor/FindReplaceAction.java:298-333 | no target: the slots and their stubs' states are untouched; otherwise the mode's slot holds a stub whose state is `Opened` with (target, editability, true): of its old state if its dialog sat on the expected shell, else of a fresh stub (`SiteState` of the part in part mode, a new dialog on the shell in shell mode), the old stub then being `Disposed`; the other slot keeps its stub and that stub's state; the slot invariant is kept |

## Left out

- Widget construction, layout, fonts, packing and the enabling of widget trees are not modelled. They are toolkit glue. This covers `createControl` beyond whether the viewer exists, `createProviderViewer`'s content and label providers, `setEnabled` over widget children, and `ErrorPreferences.setEnabled` on its label.
- `revertSelection` is not modelled: when the user declines, the combo selection is put back, which is widget state only.
- The question dialog is not modelled. Its answer is the `discard` input.
- The overlay preference store is only its two staged values. Preference persistence is a host service.
- The spelling service registry is an input. Its choice of the active descriptor is the `Service.active` function of the stored engine id, and its descriptor list is the constructor's `registry` argument.
- Contributed blocks are modelled only through their answers:
  - what `createControl` returns, fixed per block;
  - whether `canPerformOk` holds, fixed per block;
  - the statuses reported from `initialize`.
  What they do with `performOk`, `performDefaults`, `performRevert`, `dispose` and `setEnabled` is host code, so the model logs that the calls were made. A block whose `canPerformOk` answer changes over time is not modelled.
- A `createPreferences` that returns null instead of throwing is outside the model. The code would then fail with a null pointer.
- Logging through `EditorsPlugin.log` and the warning statuses are not modelled. They are logging only.
- Localized message texts are not modelled. A message is its resource key.
- JFace `setSelection` is assumed to notify the selection listener at once. This is why restore in viewer mode calls `SelectionChanged`.
- The workbench's part-listener registration and removal are not modelled. The stub only records its window.
- The empty listener methods `partOpened`, `partDeactivated` and `partBroughtToTop` are not modelled, and `getDialog` is a field read.
- Find/replace dialog internals are not modelled. A dialog is the record of its updates and an opened flag.
- Closing a dialog disposes its shell, and the toolkit then calls `widgetDisposed` before `close` returns. `CheckShell` therefore ends with `WidgetDisposed`; the closed dialog itself is not kept.
- `ResourceAction`'s resource-bundle setup is not modelled. The action's enabled state is the `enabled` field.
- `Assert.isLegal` in the constructors becomes non-null parameter types.
- `SpellingConfiguration.ConfigurationBlock.RestoreFromPreferences`: it does not give the exact state after restore. It states the checkbox, cache growth, log growth, that a block is shown without a viewer, and the active cached block's last call; the step in between is stated by `ShowActiveProvider`.
- `SpellingConfiguration.ConfigurationBlock.Initialize`: it states what restore states, no more.
- `SpellingConfiguration.ConfigurationBlock.PerformDefaults`: it states that `performDefaults` is every cached block's latest call, that earlier blocks were sent more calls, and that logs only grow. It does not give the exact log.
