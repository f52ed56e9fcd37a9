# InkSight layer editor and saved-idea logic, in Dafny

This project models the compositing editor of InkSight (`components/TattooEditor.tsx`) and the
list and record logic of its application component (`App.tsx`), and proves properties of both.

The editor holds an ordered stack of layers. Array order is z-order, and the base layer sits at
index 0. It also holds an undo history of whole-stack snapshots, an optional selected layer id,
three independent gesture records (drag, resize, rotate) and the add-element prompt. Its
handlers are add-element, remove, reorder, property change, undo, pointer-down on a layer body
or on the resize or rotate handle, pointer move, pointer up and background click.

The application component keeps a saved-idea list, the concept on show and the journey's
conversation state. Its handlers toggle a saved idea, remove one, replace one variation's image
on refinement, and reset the journey.

Structure:

- `seqs.dfy`: `Wrappers.Option`, and `Seqs.Filter` (`Array.prototype.filter`) with its
  multiplicity and order-preservation lemmas.
- `layers.dfy`: module `Layers`. The `EditorLayer` record, property access, the three kinds of
  per-layer edit, and the array operations the handlers use: `find`, `findIndex`, `map` on one
  id, `filter` by id and a swap. Also the well-formed-stack predicate and the lemmas that each
  operation keeps a stack well formed.
- `gestures.dfy`: module `Gestures`. The three gesture records, the canvas rectangle, and the
  pointer arithmetic for drag, resize and rotate. This includes the layer's on-screen centre.
- `editor_model.dfy`: module `EditorModel`. The editor's whole state as a value, one transition
  function per handler, and the lemmas: undo round trips, reorder guards, remove order, the
  move formulas, no drift between moves, and the invariant of every reachable state.
- `tattoo_editor.dfy`: module `EditorComponent`. Class `TattooEditor` has the component's
  state hooks and refs as fields. Each handler is a method that updates them in place. Each
  handler method, and the `PushHistory` helper, is proved to perform its `EditorModel`
  transition and to keep `Valid()`.
- `concepts.dfy`: module `Concepts`. The concept records, `ToggleSaved`, `RemoveSaved`,
  `RefineImage` and `ResetJourney`, with their lemmas.
- `app.dfy`: module `AppComponent`. Class `App` holds the application component's state. Its
  handler methods are proved against `Concepts`.

Modelling choices:

- Geometry is `real`. Client coordinates are real pixels. The canvas rectangle is a parameter
  with a positive width and height (`CanvasRect`). A missing canvas element is `None`.
- Layer ids from `Date.now()` become a `freshId` parameter. The add-element handler requires
  that no layer in the stack already has that id.
- The generation request is modelled by its outcome only: `Generated(image)` or
  `GenerationFailed`. The handler is the transition taken once that request has settled.
- `selectedLayerId` is tested for JavaScript truthiness, so `Some("")` counts as no selection
  (`EditorModel.Active`).
- `!prompt.trim()` is modelled exactly by `IsBlank`. This uses the set of characters that
  ECMAScript's `trim` removes.
- The remove button is shown only for the selected layer when that layer is not the base layer
  (`components/TattooEditor.tsx:337-341`). The remove handler itself does not check for the base
  layer. So `RemoveLayer` takes "the selected, non-base layer" as its precondition (`CanRemove`).
- `EditorModel.Run` replays any sequence of handler events. It drops an event that the UI could
  not deliver in the current state: a remove outside the selected-layer panel, or an id that is
  already taken.

The model follows the code in these places, where a reader might expect otherwise:

- Undo replaces the stack, drops the last snapshot and clears the selection. It does not clear
  the gesture records (`components/TattooEditor.tsx:32-38`).
- A width and height of at least 5 % is enforced only by resize moves (`:199-200`). The numeric
  inputs can set any value (`:387`, `:391`). `EditorModel.WidthFloorOnlyOnResize` shows a valid
  state whose layer is narrower than 5 %. So the invariant does not claim a size floor.
- The resize and rotate handles push a snapshot before they look the layer up (`:126-128`,
  `:141-144`). They push it even when the layer or the canvas is missing.
- Pointer-down on an id that is not in the stack still selects that id. It starts no drag
  (`:110-113`).
- A new gesture start does not clear the other gesture records. Only pointer-up clears all three
  (`:226-230`).

## Model

| member | source | states |
|---|---|---|
| `Seqs.Filter` | components/TattooEditor.tsx:70 | `filter` returns a sub-multiset of its input whose elements all pass the test, and every passing element of the input appears in it |
| `Seqs.FilterCount` | components/TattooEditor.tsx:70 | each value occurs in the output exactly as often as in the input when it passes the test, and not at all otherwise |
| `Seqs.FilterPreservesOrder` | components/TattooEditor.tsx:70 | two kept elements land in the output in the order they had in the input, each at the position given by the count of kept elements before it |
| `Layers.WithProperty` | components/TattooEditor.tsx:98 | `{ ...l, [property]: value }` sets the named field to the value and keeps every other field, id, image and base flag |
| `Layers.Apply` | components/TattooEditor.tsx:177-204 | a drag edit writes only `x`/`y` and a resize edit only `width`/`height`; id, image and base flag always survive |
| `Layers.UpdateId` | components/TattooEditor.tsx:96-101 | the `map` keeps the length, edits every layer carrying the id and leaves every other layer equal |
| `Layers.UpdateAbsentId` | components/TattooEditor.tsx:96-101 | when no layer carries the id, the map changes nothing |
| `Layers.UpdateIdFixed` | components/TattooEditor.tsx:96-101 | a `map` edit that leaves every layer carrying the id as it was leaves the whole stack as it was |
| `Layers.IndexOf` | components/TattooEditor.tsx:77 | `findIndex` is the first position with the id, or -1 exactly when no layer has it |
| `Layers.Find` | components/TattooEditor.tsx:107-112 | `find` gives the first layer with the id, and gives none exactly when no layer has it |
| `Layers.FindUnique` | components/TattooEditor.tsx:107-112 | when ids are distinct, the layer that carries an id is exactly the one `find` returns |
| `Layers.Swap` | components/TattooEditor.tsx:88-90 | the swap exchanges the two positions, keeps every other position, and is a permutation |
| `Layers.Without` | components/TattooEditor.tsx:70 | no layer with the id remains, every other layer remains, the result is a sub-multiset of the stack, and an absent id changes nothing |
| `Layers.KeepOthers` | components/TattooEditor.tsx:70 | the filter callback `l => l.id !== id`: keeps exactly the layers that do not carry the id |
| `Layers.WithoutCount` | components/TattooEditor.tsx:70 | every layer without the id keeps its exact number of occurrences; layers with the id occur zero times |
| `Layers.WithoutPreservesOrder` | components/TattooEditor.tsx:70 | removal keeps the relative order of the remaining layers |
| `Layers.BaseIdAtZero` | components/TattooEditor.tsx:14-16 | in a well-formed stack the base id is found at index 0 and at no other index |
| `Layers.BaseLayer` | components/TattooEditor.tsx:15 | the base layer: id `base`, the full canvas at (0, 0) sized 100 × 100, unrotated, opaque |
| `Layers.WithoutPreservesWellFormed` | components/TattooEditor.tsx:70 | removing a non-base id keeps the base first, keeps no second base, and keeps ids distinct |
| `Layers.SwapPreservesWellFormed` | components/TattooEditor.tsx:84-90 | a swap of two positions above index 0 keeps the stack well formed |
| `Layers.UpdateIdPreservesWellFormed` | components/TattooEditor.tsx:96-101 | an edit under a non-base id leaves the base layer untouched and keeps ids distinct |
| `Layers.AppendPreservesWellFormed` | components/TattooEditor.tsx:57 | appending a non-base layer with a fresh id keeps the stack well formed |
| `Gestures.PercentOfShare` | components/TattooEditor.tsx:174-175 | a pointer displacement of p % of the canvas dimension converts back to exactly p % |
| `Gestures.Percent` | components/TattooEditor.tsx:174-175 | `(delta / dim) * 100`: the result times the dimension is the pixel delta times 100, with the same sign as the delta (also the resize delta at :191) |
| `Gestures.Max` | components/TattooEditor.tsx:199-200 | `Math.max`: the result is at least both arguments and is one of them |
| `Gestures.DragEdit` | components/TattooEditor.tsx:174-182 | the new position minus the captured one is the pointer displacement in percent of the canvas width and height |
| `Gestures.ResizeEdit` | components/TattooEditor.tsx:191-200 | width and height are both at least 5; each is the captured value plus the same horizontal delta unless the floor applies |
| `Gestures.ResizeKeepsSquare` | components/TattooEditor.tsx:192-200 | the scale is uniform, so a layer that starts square stays square |
| `Gestures.RotateEdit` | components/TattooEditor.tsx:215 | the new rotation minus the captured one is the swept angle in degrees, with no normalisation |
| `Gestures.LayerCenter` | components/TattooEditor.tsx:150-156 | the rotation centre is the midpoint of the layer's box, mapped from percent to client pixels |
| `EditorModel.Init` | components/TattooEditor.tsx:14-25 | the editor opens with only the full-canvas base layer, no history, no selection, no gesture and an empty prompt, and this state is valid |
| `EditorModel.Active` | components/TattooEditor.tsx:75 | JavaScript truthiness of `selectedLayerId`: neither null nor the empty string (also used at :95 and :173-208) |
| `EditorModel.IsBlank` | components/TattooEditor.tsx:41 | `!text.trim()`: every character is one of the white-space or line-terminator characters that ECMAScript `trim` strips |
| `EditorModel.CanRemove` | components/TattooEditor.tsx:337-341 | the remove button exists only for the selected layer when that layer is in the stack and is not the base layer |
| `EditorModel.PushHistory` | components/TattooEditor.tsx:28-30 | only the history changes: it grows by one while every other field stays, and the next undo brings back exactly this stack and the earlier history |
| `EditorModel.Undo` | components/TattooEditor.tsx:32-38 | with no history nothing changes; otherwise the stack becomes the last snapshot, history loses exactly that entry, and the selection is cleared |
| `EditorModel.EditPrompt` | components/TattooEditor.tsx:322 | the prompt input replaces the prompt and nothing else |
| `EditorModel.NewLayer` | components/TattooEditor.tsx:46-56 | a new layer is non-base, 50 % in size, centred on the canvas, unrotated and opaque |
| `EditorModel.AddElement` | components/TattooEditor.tsx:40-62 | a blank prompt or a failed generation changes nothing; a success pushes one snapshot, keeps the old stack as a prefix, puts the new layer on top, selects it, clears the prompt and keeps the three gesture records |
| `EditorModel.RemoveLayer` | components/TattooEditor.tsx:68-72 | remove pushes the stack it started from, makes the stack exactly the filter of the id (none left, every other layer kept with its count and order), clears the selection, and keeps the gesture records and the prompt |
| `EditorModel.Neighbour` | components/TattooEditor.tsx:81 | the target index: one above for 'up', one below for 'down' |
| `EditorModel.ReorderActs` | components/TattooEditor.tsx:75-84 | the guard chain of reorder: a truthy selection, an id in the stack, not the base layer, and a target index strictly inside (0, length) |
| `EditorModel.Reorder` | components/TattooEditor.tsx:74-92 | either the state is unchanged, or the old stack is pushed and the new stack is a permutation of it; selection, gestures and prompt always stay |
| `EditorModel.PropertyChange` | components/TattooEditor.tsx:94-102 | only layers carrying the selected id may change, the stack keeps its length, and nothing but the layers changes (no snapshot) |
| `EditorModel.MouseDown` | components/TattooEditor.tsx:106-121 | the base layer is ignored; another id is selected, and a drag starting at the pointer and the layer's `x`/`y` is captured only when a layer carries that id; layers, history and the other gestures stay |
| `EditorModel.ResizeMouseDown` | components/TattooEditor.tsx:123-136 | a snapshot is pushed whatever happens; a found layer's width and height are captured with the pointer; otherwise the resize record is kept; layers, selection and the other gestures stay |
| `EditorModel.RotateMouseDown` | components/TattooEditor.tsx:138-166 | a snapshot is pushed whatever happens; with a layer and a canvas, its rotation, on-screen centre and the starting angle are captured; otherwise the rotate record is kept |
| `EditorModel.DragMove` | components/TattooEditor.tsx:173-187 | the drag branch changes only layers carrying the selected id, and nothing but the layers |
| `EditorModel.ResizeMove` | components/TattooEditor.tsx:190-205 | the resize branch changes only layers carrying the selected id, and nothing but the layers |
| `EditorModel.RotateMove` | components/TattooEditor.tsx:208-223 | the rotate branch changes only layers carrying the selected id, and nothing but the layers |
| `EditorModel.MouseMove` | components/TattooEditor.tsx:168-224 | without a canvas nothing changes; otherwise only layers carrying the selected id change, and selection, gestures, history and prompt stay |
| `EditorModel.MouseUp` | components/TattooEditor.tsx:226-230 | pointer-up clears all three gesture records and nothing else |
| `EditorModel.BackgroundClick` | components/TattooEditor.tsx:232-234 | a background click clears the selection only; a gesture in progress continues |
| `EditorModel.UndoRestoresSnapshot` | components/TattooEditor.tsx:28-38 | undo after any operation that pushed the stack restores that stack and that history |
| `EditorModel.UndoTwice` | components/TattooEditor.tsx:32-38 | there is no redo: a second undo goes one snapshot further back |
| `EditorModel.UndoAfterAdd` | components/TattooEditor.tsx:45-57 | undo right after a successful add restores the stack and history from before it |
| `EditorModel.UndoAfterRemove` | components/TattooEditor.tsx:68-72 | undo right after a remove restores the stack and history from before it |
| `EditorModel.UndoAfterReorder` | components/TattooEditor.tsx:86-91 | undo right after a reorder that acted restores the stack and history from before it |
| `EditorModel.ReorderNoOpIff` | components/TattooEditor.tsx:74-84 | reorder changes nothing at all exactly when a guard fails: no selection, absent id, base layer, or target index at most 0 or past the end |
| `EditorModel.ReorderSwapsNeighbours` | components/TattooEditor.tsx:81-91 | when reorder acts, it swaps the selected layer with its neighbour ('up' is +1), keeps every other position and index 0, and pushes the old stack |
| `EditorModel.ReorderBaseIsNoOp` | components/TattooEditor.tsx:79 | reordering the base layer never changes the state |
| `EditorModel.ReorderBoundaries` | components/TattooEditor.tsx:84 | the top layer cannot go up, and the layer at index 1 cannot go down |
| `EditorModel.RemoveKeepsOrder` | components/TattooEditor.tsx:70 | remove keeps the relative order of the remaining layers |
| `EditorModel.PropertyChangeNeedsSelection` | components/TattooEditor.tsx:95 | without a selection, a property change does nothing |
| `EditorModel.PropertyChangeOnlyNamedField` | components/TattooEditor.tsx:94-102 | a property change sets only the named field of the selected layer, leaves other layers equal and takes no snapshot |
| `EditorModel.DragMoveSpec` | components/TattooEditor.tsx:173-187 | a drag move sets only `x`/`y` of the selected layer, to the captured position plus the pointer displacement in percent |
| `EditorModel.ResizeMoveSpec` | components/TattooEditor.tsx:190-205 | a resize move sets width and height to `max(5, start + deltaX %)` with one delta, so both are at least 5; `x`, `y`, rotation and opacity are unchanged |
| `EditorModel.RotateMoveSpec` | components/TattooEditor.tsx:208-223 | a rotate move sets only the rotation, to the captured rotation plus the swept angle |
| `EditorModel.MouseMoveNeedsSelection` | components/TattooEditor.tsx:173-208 | each of the three move branches requires a selection, so without one a move changes nothing |
| `EditorModel.MouseMoveAt` | components/TattooEditor.tsx:172-223 | on each layer a move applies the drag, resize and rotate edits in that order, each under its own guard |
| `EditorModel.MoveEffectOverwrites` | components/TattooEditor.tsx:172-223 | the three edits write disjoint fields absolutely, so a second move on a layer overwrites the first |
| `EditorModel.MouseMoveNoDrift` | components/TattooEditor.tsx:168-224 | moves are computed from the gesture start: two successive moves give the same state as the second move alone |
| `EditorModel.MouseDownOnBase` | components/TattooEditor.tsx:106-107 | pointer-down on the base layer neither selects it nor starts a drag |
| `EditorModel.DragStartsInPlace` | components/TattooEditor.tsx:106-187 | a drag started on a layer, with the pointer still where it went down, leaves the stack exactly as it was |
| `EditorModel.ResizeStartsInPlace` | components/TattooEditor.tsx:123-205 | a resize of the selected layer whose pointer has not moved leaves the stack as it was, given the layer is at least 5 in both directions |
| `EditorModel.RotateStartsInPlace` | components/TattooEditor.tsx:138-223 | a rotation of the selected layer that has swept no angle leaves the stack as it was |
| `EditorModel.WidthFloorOnlyOnResize` | components/TattooEditor.tsx:387 | a property change can leave a layer narrower than the resize floor, in a valid state |
| `EditorModel.AddThenRemove` | components/TattooEditor.tsx:40-72 | adding "rose" gives two layers, the new one selected, and one snapshot; removing it leaves only the base layer, with nothing selected |
| `EditorModel.DragByTenPercent` | components/TattooEditor.tsx:173-186 | a drag of a tenth of the canvas width and a twentieth of its height moves a layer from (25, 25) to (35, 30), its size and rotation unchanged |
| `EditorModel.UndoPreservesValid` | components/TattooEditor.tsx:32-38 | undo keeps the editor invariant |
| `EditorModel.AddElementPreservesValid` | components/TattooEditor.tsx:40-62 | add-element with a fresh id keeps the editor invariant |
| `EditorModel.RemovePreservesValid` | components/TattooEditor.tsx:68-72 | removing the selected non-base layer keeps the editor invariant |
| `EditorModel.ReorderPreservesValid` | components/TattooEditor.tsx:74-92 | reorder keeps the editor invariant |
| `EditorModel.PointerEditsPreserveValid` | components/TattooEditor.tsx:94-224 | property changes and pointer moves keep the editor invariant |
| `EditorModel.PointerDownPreservesValid` | components/TattooEditor.tsx:106-166 | the three pointer-down handlers keep the editor invariant, and the base layer is never selected |
| `EditorModel.StepPreservesValid` | components/TattooEditor.tsx:28-234 | every handler keeps the editor invariant |
| `EditorModel.RunPreservesValid` | components/TattooEditor.tsx:28-234 | any sequence of handler events keeps the editor invariant |
| `EditorModel.ReachableStatesAreValid` | components/TattooEditor.tsx:14-234 | in every reachable state the untouched base layer is at index 0 and only there, ids are distinct, every snapshot is such a stack, and the base layer is never selected |
| `EditorComponent.TattooEditor.SelectedLayer` | components/TattooEditor.tsx:236 | the sidebar's layer is the stack's layer with the selected id, is absent only when no layer has that id, and is never the base layer |
| `EditorComponent.TattooEditor.constructor` | components/TattooEditor.tsx:14-25 | opening the editor gives the initial state, which is valid |
| `EditorComponent.TattooEditor.PushHistory` | components/TattooEditor.tsx:28-30 | the current stack is added to the end of the history, as `EditorModel.PushHistory`, and the invariant is kept |
| `EditorComponent.TattooEditor.Undo` | components/TattooEditor.tsx:32-38 | the handler updates its fields in place exactly as `EditorModel.Undo`, and keeps the invariant |
| `EditorComponent.TattooEditor.EditPrompt` | components/TattooEditor.tsx:322 | the prompt input's change handler replaces the prompt |
| `EditorComponent.TattooEditor.AddElement` | components/TattooEditor.tsx:40-66 | the handler performs `EditorModel.AddElement` in place, and keeps the invariant |
| `EditorComponent.TattooEditor.RemoveLayer` | components/TattooEditor.tsx:68-72 | the handler performs `EditorModel.RemoveLayer` in place, and keeps the invariant |
| `EditorComponent.TattooEditor.Reorder` | components/TattooEditor.tsx:74-92 | the handler performs `EditorModel.Reorder` in place, and keeps the invariant |
| `EditorComponent.TattooEditor.PropertyChange` | components/TattooEditor.tsx:94-102 | the handler changes only the layers, as `EditorModel.PropertyChange`, and keeps the invariant |
| `EditorComponent.TattooEditor.MouseDown` | components/TattooEditor.tsx:106-121 | the handler changes only the selection and the drag record, as `EditorModel.MouseDown` |
| `EditorComponent.TattooEditor.ResizeMouseDown` | components/TattooEditor.tsx:123-136 | the handler changes only the history and the resize record, as `EditorModel.ResizeMouseDown` |
| `EditorComponent.TattooEditor.RotateMouseDown` | components/TattooEditor.tsx:138-166 | the handler changes only the history and the rotate record, as `EditorModel.RotateMouseDown` |
| `EditorComponent.TattooEditor.MouseMove` | components/TattooEditor.tsx:168-224 | the handler changes only the layers, by the three guarded branches of `EditorModel.MouseMove` |
| `EditorComponent.TattooEditor.MouseUp` | components/TattooEditor.tsx:226-230 | the handler changes only the three gesture records, clearing them |
| `EditorComponent.TattooEditor.BackgroundClick` | components/TattooEditor.tsx:232-234 | the handler changes only the selection, clearing it |
| `Concepts.IsSaved` | App.tsx:146 | some saved idea carries the id (also the result card's `isSaved` at App.tsx:279) |
| `Concepts.RemoveSaved` | App.tsx:158-163 | after removal no entry has the id, every other entry remains, the result is a sub-multiset of the list, and an absent id changes nothing |
| `Concepts.OtherThan` | App.tsx:160 | the filter callback `idea => idea.id !== id`: keeps exactly the ideas that do not carry the id |
| `Concepts.RemoveSavedCount` | App.tsx:160 | every idea with another id keeps its exact number of occurrences; ideas with the id occur zero times |
| `Concepts.RemoveSavedKeepsOrder` | App.tsx:160 | removal keeps the relative order of the remaining saved ideas |
| `Concepts.ToggleSaved` | App.tsx:144-156 | a toggle flips whether the id is saved (the card's `isSaved`); a present id is removed everywhere; an absent concept is appended after the unchanged existing entries |
| `Concepts.ToggleTwice` | App.tsx:144-156 | starting from a list without the id, toggling the same concept twice gives back the original list |
| `Concepts.RefineImage` | App.tsx:171-180 | no concept stays no concept; an in-range index changes only that variation's image; an out-of-range index returns an equal copy |
| `Concepts.ResetJourney` | App.tsx:34-43 | the conversation and answer are emptied and the summary is nulled; the question is the opening one exactly in personalised mode, and none otherwise |
| `AppComponent.App.IsCurrentSaved` | App.tsx:279 | the result card's saved mark: a concept is on show and its id is in the saved list |
| `AppComponent.App.constructor` | App.tsx:20-32 | the initial hook values: nothing saved, no concept, direct mode and an empty journey |
| `AppComponent.App.SaveIdea` | App.tsx:144-156 | the saved list becomes its toggle, and saving the concept on show flips the card's saved mark |
| `AppComponent.App.RemoveSavedIdea` | App.tsx:158-164 | the saved list becomes its removal, and the concept on show is then not marked saved |
| `AppComponent.App.ImageRefined` | App.tsx:171-180 | the concept on show becomes its refinement, with only one variation's image replaced in a copy |
| `AppComponent.App.ResetJourney` | App.tsx:34-43 | the journey fields become the reset for the current mode |

## Left out

- Rotation angle computation: `Math.atan2` and the radian-to-degree factor (`components/TattooEditor.tsx:158`, `:211-213`). These are transcendental floating-point maths.
- EditorComponent.TattooEditor.RotateMouseDown: the pointer's starting angle is an input, not `atan2` of the pointer about the centre; the centre itself is computed.
- EditorComponent.TattooEditor.MouseMove: the angle swept since pointer-down arrives as an input in degrees, so the model checks only `startRotation + deltaDeg`.
- Floating point: geometry is modelled on reals, so NaN, infinities and rounding are absent. `parseInt` returning NaN in the numeric inputs is not modelled (`:368`, `:379-404`). Neither is the `% 360` of the rotation slider's display (`:400`).
- The asynchronous boundary of add-element: the `await` of the generation service, the `isGenerating` flag disabling the button (`:19`, `:42-44`, `:64`, `:328`), the error alert, and the stale `layers` that `pushHistory` would capture after the `await`. Success and failure are two synchronous outcomes of one transition.
- DOM event plumbing: `stopPropagation`, `preventDefault`, and which element receives which event. Handlers are taken as called with the ids the rendering passes them.
- The JSON deep copies for snapshots and refinement (`:29`, `App.tsx:174`). Dafny values are immutable, so a copy is the value itself.
- All rendering: JSX, CSS blend modes, handle placement, the close button and the editor's `onClose` callback.
- The generation service (`services/geminiService.ts`): network calls and JSON parsing. It is not part of this model.
- Persistence to `localStorage` (`App.tsx:49-82`), which the save and remove handlers also call. So do `hooks/useAuth.ts` and the modals.
- Concepts.ToggleSaved: the `idea &&` guard, which also drops null entries, is not modelled; saved entries are concept values and cannot be null.
- Concepts.RefineImage: the variation index is an integer. A fractional JavaScript index, which also finds no variation, is not modelled.
- The other handlers of the application component are not modelled: `handleGenerateDirect`, `handleSendAnswer`, `handleModeChange` and `handleSelectSavedIdea` (`App.tsx:85-142`, `:166-169`). They await AI responses or scroll the window, and they touch error and prompt state outside the modelled records.
- Timer-driven animation, static style data and the authentication and premium modals.
