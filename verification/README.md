# Mark-description inline tool, modelled in Dafny

This project models `MarkDescriptionInlineTool` from editor.js. The tool is an inline toolbar
button paired with a description textarea. It wraps the selected text in a `MARK` element that
carries a `data-body` attribute (the "description"). It can also edit that attribute on an existing
marker, or unwrap the marker again.

The model has two parts:

- **The inline document** (`inline_doc.dfy`, module `InlineDoc`). The block is a sequence of
  inline items: `Text(s)` or `Mark(payload, items)`. The payload is either `Absent` or `Attr(s)`.
  The live selection is one of two things. `Range(lo, hi)` is a span of top-level items whose
  boundaries lie in the block itself. `InMark(i)` has a boundary inside the marker at top-level
  index `i`. This is the selection `expandToTag` leaves, or a caret inside the marker's text.
  `findParentTag('MARK')` becomes `Enclosing`. By the definition of this abstraction it finds the
  marker named by `InMark` and nothing for a `Range`.
  `extractContents`/`insertNode` become the pure rewrites `Wrap`, `Unwrap` and `SetPayload`.
  `Flatten` gives the text content, with markers transparent.
- **The tool** (`mark_tool.dfy`, module `MarkDescriptionTool`). A `World` holds four things: the
  document, the live selection, a `Control` record and the effects sent to the host. `Control`
  holds `inputOpened`, the textarea's shown class and value, the button's active and unlink
  classes, the fake-background flag, the saved selection and the last range given to `surround`.
  Every entry point is a pure function `World -> World`. `surround`, `checkState`, `clear`,
  `toggleActions`, `openActions`, `closeActions`, `enterPressed`, `insertLink` and `unlink` are
  all modelled. The two entry points that can throw (`unlink` and `enterPressed`) return a `Run`:
  either `Done(world)` or `Threw(world)`.
- **Consistency and phases.** `Consistent` ties the tool's flags together. The textarea is shown
  exactly when `inputOpened` holds. A closed input is empty and has no fake background. An open
  input has a saved selection to return to. `surround`, `checkState`, `clear`, `closeActions` and
  `enterPressed` preserve `Consistent`. `openActions` and `toggleActions` preserve it when a
  selection is saved. `surround` calls `toggleActions` with a selection saved. `checkState` opens
  the input first and saves the selection afterwards, so `CheckStatePreservesConsistent` covers
  the whole call rather than its `openActions` step. `PhaseOf` names the
  phase from the flags. The input is either closed, or open with the fake background on (open for
  creation, as `surround` leaves it), or open without the fake background (open for editing, as
  `checkState` leaves it). A creation commit drops the fake background without closing the input,
  so it too leaves the tool open for editing.
- `js_string.dfy` (module `JsString`) gives ECMAScript's `String.prototype.trim`. The tool uses it
  to decide whether a committed value is blank.
- `mark_tool_lemmas.dfy` (module `MarkToolLemmas`) proves properties that span several calls.

The range that the host hands to `surround` is the live selection, so the model makes it the live
selection. The creation path of `insertLink` does not guard against an empty range, and neither does
the model: wrapping `Range(i, i)` inserts an empty marker.

Several behaviours of the code are easy to misread. The model follows the code:

- A blank Enter on an existing marker does not leave the text unwrapped. `unlink` runs first, but
  then `insertLink` finds no enclosing marker around the unwrapped range. It wraps the same items
  again in a new marker whose `data-body` is the blank value. The net effect is a re-attribution
  (`MarkToolLemmas.BlankCommitReattributes`).
- A blank Enter while creating (no marker around the restored selection) throws. `unlink`
  dereferences the missing marker, so nothing after it runs (`MarkToolLemmas.BlankCommitWithoutMarkThrows`).
- The committed value is stored untrimmed. Only the blank test trims it.
- Toggling the input closed goes through `closeActions(false)`, which keeps the saved selection.
- A non-blank Enter does not close the input by itself. It asks the host to close the inline
  toolbar (the `InlineToolbarClose` effect), and the host then calls `clear`
  (`MarkToolLemmas.CreateFlow`).

## Model

| member | source | states |
|---|---|---|
| InlineDoc.Wrap | src/components/inline-tools/inline-tool-mark-description.ts:290-305 | creation replaces exactly the selected items with one new marker that holds them and carries the payload set at creation; the items before and after are kept |
| InlineDoc.Unwrap | src/components/inline-tools/inline-tool-mark-description.ts:336-346 | removing a marker puts its children at its position; everything before and after it is unchanged |
| InlineDoc.SetPayload | src/components/inline-tools/inline-tool-mark-description.ts:281-283 | re-attribution changes only that marker's payload; its children and every other item are kept |
| InlineDoc.WrapPreservesText | src/components/inline-tools/inline-tool-mark-description.ts:293-300 | wrapping leaves the text content of the block unchanged |
| InlineDoc.UnwrapPreservesText | src/components/inline-tools/inline-tool-mark-description.ts:336-346 | unwrapping leaves the text content of the block unchanged |
| InlineDoc.SetPayloadPreservesText | src/components/inline-tools/inline-tool-mark-description.ts:281-283 | re-attribution leaves the text content of the block unchanged |
| InlineDoc.SetPayloadIdempotent | src/components/inline-tools/inline-tool-mark-description.ts:281-283 | setting the same payload twice equals setting it once |
| InlineDoc.UnwrapWrap | src/components/inline-tools/inline-tool-mark-description.ts:329-352 | unwrapping a freshly created marker restores the original item sequence |
| InlineDoc.WrapUnwrap | src/components/inline-tools/inline-tool-mark-description.ts:293-300 | wrapping an unwrapped marker's children again with its payload rebuilds the original sequence |
| InlineDoc.WrapUnwrapIsSetPayload | src/components/inline-tools/inline-tool-mark-description.ts:248-258 | unwrapping a marker and wrapping its children with another payload is the same as re-attributing it |
| InlineDoc.FlattenAppend | src/components/inline-tools/inline-tool-mark-description.ts:299-300 | text content distributes over concatenation of item sequences, the fact every text-preservation result rests on |
| InlineDoc.FlattenWrapPieces | src/components/inline-tools/inline-tool-mark-description.ts:299-300 | putting a run of items inside a marker leaves the text of the whole sequence unchanged |
| JsString.TrimStart | src/components/inline-tools/inline-tool-mark-description.ts:248 | the result is a suffix of the input, everything dropped is white space, and the result does not start with white space |
| JsString.TrimEnd | src/components/inline-tools/inline-tool-mark-description.ts:248 | the result is a prefix of the input, everything dropped is white space, and the result does not end with white space |
| JsString.TrimEmptyIffAllWhiteSpace | src/components/inline-tools/inline-tool-mark-description.ts:248 | the trimmed value is empty exactly when every character is ECMAScript white space or a line terminator |
| MarkDescriptionTool.Initial | src/components/inline-tools/inline-tool-mark-description.ts:77-84 | a freshly constructed tool has the input closed, no saved selection and no requests sent |
| MarkDescriptionTool.Restore | src/components/inline-tools/inline-tool-mark-description.ts:249 | re-selecting the saved range changes only the live selection; when no saved range exists, or the saved one no longer fits the document, nothing changes |
| MarkDescriptionTool.CollapseToEnd | src/components/inline-tools/inline-tool-mark-description.ts:266 | collapsing never changes whether a marker encloses the selection, so a caret inside a marker stays there; the document and control state are untouched |
| MarkDescriptionTool.InsertLink | src/components/inline-tools/inline-tool-mark-description.ts:276-305 | with an enclosing marker, only that marker's payload becomes the raw value and the selection stays in it; without one, the selected items become one new marker with that payload, selected; the text is unchanged and the control state is untouched |
| MarkDescriptionTool.UnlinkAt | src/components/inline-tools/inline-tool-mark-description.ts:329-352 | the marker is replaced by its children, the selection spans them, and the text is unchanged |
| MarkDescriptionTool.Unlink | src/components/inline-tools/inline-tool-mark-description.ts:329-352 | throws exactly when no marker encloses the selection, leaving the world as it was; otherwise it unwraps that marker, preserves the text, selects exactly the reinserted children and sends nothing to the host |
| MarkDescriptionTool.OpenActions | src/components/inline-tools/inline-tool-mark-description.ts:204-210 | the input becomes shown and opened, and focus is requested only when asked for; nothing else changes |
| MarkDescriptionTool.CloseActions | src/components/inline-tools/inline-tool-mark-description.ts:218-238 | the input always ends hidden, empty and closed; the fake background ends off and the live selection is unchanged; the saved selection is cleared only when asked, otherwise kept |
| MarkDescriptionTool.ToggleActions | src/components/inline-tools/inline-tool-mark-description.ts:193-199 | opening changes only `inputOpened` and the shown class and requests focus; closing also empties the input and drops the fake background; both keep the saved selection and every other field |
| MarkDescriptionTool.Display | src/components/inline-tools/inline-tool-mark-description.ts:163-165 | an absent attribute and the literal string "null" show as an empty input; any other value shows unchanged |
| MarkDescriptionTool.CheckState | src/components/inline-tools/inline-tool-mark-description.ts:152-174 | true exactly when a marker encloses the selection. If so, the input is open without focus, both button classes are on, the input shows the marker's payload (with absent and the string "null" shown as empty), the selection is saved, and no other field changes. If not, only the two button classes are removed |
| MarkDescriptionTool.Clear | src/components/inline-tools/inline-tool-mark-description.ts:179-181 | from any state the input ends closed, hidden and empty, with no saved selection and no fake background; the button classes and the last range are kept |
| MarkDescriptionTool.SurroundPrepare | src/components/inline-tools/inline-tool-mark-description.ts:125-133 | with the input closed, the given range becomes the live and saved selection under a fake background; with it open, the saved selection is restored when it still fits (otherwise the given range stays selected) and the background removed. Nothing else changes: the input value, its shown class and the button classes are untouched |
| MarkDescriptionTool.Surround | src/components/inline-tools/inline-tool-mark-description.ts:115-150 | with no range nothing changes; inside a marker, the marker is unwrapped, the input ends closed with both button classes off and no saved selection, and exactly one toolbar close is requested; otherwise `inputOpened` flips and the document is kept: opening saves the given range and requests focus, closing keeps the saved selection |
| MarkDescriptionTool.Commit | src/components/inline-tools/inline-tool-mark-description.ts:255-267 | at the restored selection, the raw value becomes the payload of the enclosing marker, or the selected items are wrapped in a new marker carrying it; the selection ends inside that marker, only the fake background is switched off in the control state, the text is preserved and exactly one inline-toolbar close is requested |
| MarkDescriptionTool.EnterPressed | src/components/inline-tools/inline-tool-mark-description.ts:245-268 | the handler throws exactly when the value is blank and no marker encloses the restored selection, and then only the selection was restored; a non-blank value lands on the document at the restored selection (re-attributing the enclosing marker or wrapping the selected items) with the selection left in that marker; on any completed run the text is preserved and exactly one inline-toolbar close is requested |
| MarkToolLemmas.InsertLinkIdempotent | src/components/inline-tools/inline-tool-mark-description.ts:276-305 | applying the same description twice is the same as applying it once, on both the editing and the creation path |
| MarkToolLemmas.UnlinkAfterCreate | src/components/inline-tools/inline-tool-mark-description.ts:329-352 | unlinking right after the creation path restores the original document and selection exactly |
| MarkToolLemmas.BlankCommitWithoutMarkThrows | src/components/inline-tools/inline-tool-mark-description.ts:248-253 | a blank Enter with no marker around the restored selection throws from `unlink` with the document untouched |
| MarkToolLemmas.BlankCommitReattributes | src/components/inline-tools/inline-tool-mark-description.ts:245-268 | a blank Enter inside a marker leaves a marker at the same place with the same children and the blank value as payload, with the input closed and no saved selection |
| MarkToolLemmas.CreateFlow | src/components/inline-tools/inline-tool-mark-description.ts:115-150 | from a fresh tool, `surround` opens the input with focus; a non-blank Enter wraps exactly the selected items in a marker with that value; the host's `clear` then closes the input |
| MarkToolLemmas.EditFlow | src/components/inline-tools/inline-tool-mark-description.ts:152-174 | after `checkState` inside a marker, a non-blank Enter only re-attributes that marker |
| MarkToolLemmas.SurroundTwiceCancels | src/components/inline-tools/inline-tool-mark-description.ts:125-149 | triggering again while the input it opened is showing closes it, leaves the document unchanged, returns to the saved selection and keeps it saved |
| MarkToolLemmas.InitialConsistent | src/components/inline-tools/inline-tool-mark-description.ts:77-84 | a freshly constructed tool is consistent and in the Closed phase |
| MarkToolLemmas.CloseActionsCloses | src/components/inline-tools/inline-tool-mark-description.ts:218-238 | closing with or without clearing the saved selection reaches a consistent Closed state from any state |
| MarkToolLemmas.OpenActionsPreservesConsistent | src/components/inline-tools/inline-tool-mark-description.ts:204-210 | opening keeps the tool consistent whenever a selection is saved to return to, and leaves the Closed phase |
| MarkToolLemmas.ToggleActionsPreservesConsistent | src/components/inline-tools/inline-tool-mark-description.ts:193-199 | toggling with a saved selection keeps the tool consistent and moves between Closed and an open phase in both directions |
| MarkToolLemmas.SurroundPreservesConsistent | src/components/inline-tools/inline-tool-mark-description.ts:115-150 | `surround` keeps the tool consistent |
| MarkToolLemmas.CheckStatePreservesConsistent | src/components/inline-tools/inline-tool-mark-description.ts:152-174 | `checkState` keeps the tool consistent |
| MarkToolLemmas.ClearCloses | src/components/inline-tools/inline-tool-mark-description.ts:179-181 | `clear` reaches a consistent Closed state from any state |
| MarkToolLemmas.EnterPressedPreservesConsistent | src/components/inline-tools/inline-tool-mark-description.ts:245-268 | `enterPressed` keeps the tool consistent, whether it completes or throws |
| MarkToolLemmas.SurroundPhases | src/components/inline-tools/inline-tool-mark-description.ts:115-150 | `surround` from Closed on plain text opens for creation, from Closed inside a marker stays Closed, and from either open phase ends Closed |
| MarkToolLemmas.CheckStatePhases | src/components/inline-tools/inline-tool-mark-description.ts:152-174 | `checkState` from Closed opens for editing exactly when a marker encloses the selection, and otherwise stays Closed |

## Left out

- Rendering is left out because it is UI: `render`, `renderActions`, the SVG icons, the CSS class strings and the i18n placeholder (lines 89-113).
- Keyboard plumbing is left out: the `keyCode` test and `preventDefault`/`stopPropagation`. An Enter keydown is modelled as a call to `EnterPressed`.
- Focus and the two toolbars' `close()` are foreign calls. They are recorded as the effects `FocusInput`, `ToolbarClose` and `InlineToolbarClose`.
- The selection helper `SelectionUtils` is not part of this model. Its save, restore, clear-saved and fake-background operations are abstract updates of the `Control` record. The fake background changes no document content.
- The model does not adjust DOM `Range` objects when the document is mutated. `Restore` ignores a saved selection that no longer denotes a place in the document.
- Text nodes are not split at selection boundaries. The model assumes a selection starts and ends between items, so a partially selected text node appears as already split.
- InlineDoc.Enclosing: selections inside a nested marker are not represented. `findParentTag` stops at the innermost `MARK` above a boundary, but `InMark(i)` can only name the top-level marker at index `i`. So when wrapping has nested an existing marker inside a new one, the model edits or unwraps the outer marker where the source would act on the inner one. Nested annotations are outside what the tool is designed for. The model also folds the anchor and focus boundaries into one and ignores the search depth of 10.
- MarkDescriptionTool.CollapseToEnd: the selection helper's collapse is not part of this model. Collapsing a plain range onto its end boundary is an assumption about it, and the tool never relies on it, because a commit always collapses a selection inside a marker.
- MarkDescriptionTool.Unlink: when the source's `expandToTag(null)` throws, it has already removed all live ranges. The `Threw` world keeps the selection from before the call.
- MarkDescriptionTool.EnterPressed: its contract gives the full result of the non-blank path and says exactly when the handler throws. The result of a blank Enter inside a marker is stated by `MarkToolLemmas.BlankCommitReattributes` instead.
- The static members `isInline`, `title` and `sanitize`, and the instance getter `shortcut`, are left out because they are constants without behaviour. So are the unused `commandLink`/`commandUnlink` and the notifier.
- The optional `selection` argument of `checkState` is left out because the source never reads it.
