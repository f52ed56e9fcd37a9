/**
 * The compositing editor as a state machine: one function per handler of the editor component,
 * each a synchronous transition of the editor's whole state (layer stack, undo history,
 * selection, the three gesture refs and the add-element prompt), with the properties the editor
 * promises stated as lemmas over those transitions.
 */
module EditorModel {
  import opened Wrappers
  import opened Layers
  import opened Gestures
  import Seqs

  datatype EditorState = EditorState(
    layers: seq<Layer>,              // z-order: index 0 at the bottom
    history: seq<seq<Layer>>,        // undo snapshots, most recent last
    selected: Option<string>,        // `selectedLayerId`
    dragStart: Option<DragStart>,    // `dragStartRef.current`
    resizeStart: Option<ResizeStart>,
    rotateStart: Option<RotateStart>,
    prompt: string)                  // `newElementPrompt`

  datatype Direction = Up | Down

  /** How the element generation awaited by add-element settled. */
  datatype Generation = Generated(image: string) | GenerationFailed

  /** JavaScript truthiness of `selectedLayerId`: `null` and the empty string are both falsy. */
  predicate Active(selected: Option<string>)
  {
    selected.Some? && selected.value != ""
  }

  /** The characters `String.prototype.trim` removes (white space and line terminators). */
  predicate IsJsWhitespace(c: char)
  {
    || c == ' ' || c == '\t' || c == '\n' || c == '\r' || c == '\U{000B}' || c == '\U{000C}'
    || c == '\U{00A0}' || c == '\U{1680}' || ('\U{2000}' <= c <= '\U{200A}') || c == '\U{2028}'
    || c == '\U{2029}' || c == '\U{202F}' || c == '\U{205F}' || c == '\U{3000}' || c == '\U{FEFF}'
  }

  /** `!text.trim()`: the text is empty once trimmed. */
  predicate IsBlank(text: string)
  {
    forall i :: 0 <= i < |text| ==> IsJsWhitespace(text[i])
  }

  /** The invariant of every reachable state: each stack, current or saved, is well formed, and
      the base layer is never selected. */
  predicate Valid(s: EditorState, baseImage: string)
  {
    && WellFormed(s.layers, baseImage)
    && (forall k :: 0 <= k < |s.history| ==> WellFormed(s.history[k], baseImage))
    && (s.selected.Some? ==> s.selected.value != BaseId)
  }

  /** The editor as opened on a base image. */
  function Init(baseImage: string): (s: EditorState)
    ensures s.layers == [BaseLayer(baseImage)] && s.history == [] && s.selected == None
    ensures s.dragStart.None? && s.resizeStart.None? && s.rotateStart.None? && s.prompt == ""
    ensures Valid(s, baseImage)
  {
    EditorState([BaseLayer(baseImage)], [], None, None, None, None, "")
  }

  /** `pushHistory`: save a copy of the current stack, which the next undo brings back. */
  function PushHistory(s: EditorState): (r: EditorState)
    ensures r == s.(history := r.history)
    ensures r.layers == s.layers && |r.history| == |s.history| + 1
    ensures Undo(r).layers == s.layers && Undo(r).history == s.history
  {
    s.(history := s.history + [s.layers])
  }

  /** `handleUndo`. */
  function Undo(s: EditorState): (r: EditorState)
    ensures |s.history| == 0 ==> r == s
    ensures |s.history| > 0 ==>
              && r.layers == s.history[|s.history| - 1]
              && r.history + [r.layers] == s.history
              && r.selected == None
    ensures r.dragStart == s.dragStart && r.resizeStart == s.resizeStart
    ensures r.rotateStart == s.rotateStart && r.prompt == s.prompt
  {
    if |s.history| == 0 then s
    else
      var previous := s.history[|s.history| - 1];
      s.(layers := previous, history := s.history[..|s.history| - 1], selected := None)
  }

  /** The onChange of the prompt input: the prompt is replaced and nothing else changes. */
  function EditPrompt(s: EditorState, text: string): (r: EditorState)
    ensures r.prompt == text && r == s.(prompt := r.prompt)
  {
    s.(prompt := text)
  }

  /** The layer an add-element success appends. */
  function NewLayer(id: string, image: string): (l: Layer)
    ensures !l.isBase && l.id == id && l.image == image
    ensures l.x + l.width / 2.0 == 50.0 && l.y + l.height / 2.0 == 50.0  // centred on the canvas
    ensures l.width == 50.0 && l.height == 50.0 && l.rotation == 0.0 && l.opacity == 1.0
  {
    Layer(id, image, 25.0, 25.0, 50.0, 50.0, 0.0, 1.0, false)
  }

  /**
   * `handleAddElement` once its generation request has settled: nothing for a blank prompt or a
   * failed generation; otherwise a snapshot, then the new layer on top, selected, and the prompt
   * cleared.
   */
  function AddElement(s: EditorState, freshId: string, outcome: Generation): (r: EditorState)
    ensures IsBlank(s.prompt) || outcome.GenerationFailed? ==> r == s
    ensures !IsBlank(s.prompt) && outcome.Generated? ==>
              && r.history == s.history + [s.layers]
              && |r.layers| == |s.layers| + 1
              && r.layers[..|s.layers|] == s.layers
              && r.layers[|s.layers|] == NewLayer(freshId, outcome.image)
              && r.selected == Some(freshId)
              && r.prompt == ""
              && r.dragStart == s.dragStart && r.resizeStart == s.resizeStart && r.rotateStart == s.rotateStart
  {
    if IsBlank(s.prompt) then s
    else
      match outcome
      case GenerationFailed => s
      case Generated(image) =>
        PushHistory(s).(layers := s.layers + [NewLayer(freshId, image)], selected := Some(freshId), prompt := "")
  }

  /** The remove button is shown only for the selected layer when it is not the base layer. */
  predicate CanRemove(s: EditorState, id: string)
  {
    s.selected == Some(id) && Find(s.layers, id).Some? && !Find(s.layers, id).value.isBase
  }

  /** `handleRemoveLayer`: snapshot, filter out the id, clear the selection. */
  function RemoveLayer(s: EditorState, id: string): (r: EditorState)
    requires CanRemove(s, id)
    ensures r.history == s.history + [s.layers]
    ensures r.layers == Without(s.layers, id)
    ensures !HasId(r.layers, id)
    ensures forall k :: 0 <= k < |s.layers| && s.layers[k].id != id ==> s.layers[k] in r.layers
    ensures forall k :: 0 <= k < |r.layers| ==> r.layers[k] in s.layers
    ensures r.selected == None
    ensures r.dragStart == s.dragStart && r.resizeStart == s.resizeStart && r.rotateStart == s.rotateStart
    ensures r.prompt == s.prompt
  {
    PushHistory(s).(layers := Without(s.layers, id), selected := None)
  }

  /** The position a layer at `index` moves to. */
  function Neighbour(index: int, dir: Direction): int
  {
    if dir == Up then index + 1 else index - 1
  }

  /** The conditions under which `handleLayerReorder` acts. */
  predicate ReorderActs(s: EditorState, dir: Direction)
  {
    && Active(s.selected)
    && HasId(s.layers, s.selected.value)
    && !s.layers[IndexOf(s.layers, s.selected.value)].isBase
    && 0 < Neighbour(IndexOf(s.layers, s.selected.value), dir) < |s.layers|
  }

  /**
   * `handleLayerReorder`: either nothing changes, or the old stack is pushed and the new one is a
   * permutation of it; the selection, the gestures and the prompt always stay.
   */
  function Reorder(s: EditorState, dir: Direction): (r: EditorState)
    ensures r == s || (r.history == s.history + [s.layers] && multiset(r.layers) == multiset(s.layers))
    ensures |r.layers| == |s.layers| && r.selected == s.selected && r.prompt == s.prompt
    ensures r.dragStart == s.dragStart && r.resizeStart == s.resizeStart && r.rotateStart == s.rotateStart
  {
    if !Active(s.selected) then s
    else
      var index := IndexOf(s.layers, s.selected.value);
      if index == -1 then s
      else if s.layers[index].isBase then s
      else
        var newIndex := Neighbour(index, dir);
        if newIndex <= 0 || newIndex >= |s.layers| then s
        else PushHistory(s).(layers := Swap(s.layers, index, newIndex))
  }

  /** `handlePropertyChange`: only layers carrying the selected id change; no snapshot is taken. */
  function PropertyChange(s: EditorState, p: Property, v: real): (r: EditorState)
    ensures r == s.(layers := r.layers) && |r.layers| == |s.layers|
    ensures forall k :: 0 <= k < |s.layers| && !(Active(s.selected) && s.layers[k].id == s.selected.value) ==>
              r.layers[k] == s.layers[k]
  {
    if !Active(s.selected) then s
    else s.(layers := UpdateId(s.layers, s.selected.value, SetField(p, v)))
  }

  /**
   * `handleMouseDown` on a layer's body: the base layer is ignored; any other id is selected,
   * and a drag starts only when a layer carries it.
   */
  function MouseDown(s: EditorState, layerId: string, clientX: real, clientY: real): (r: EditorState)
    ensures r.layers == s.layers && r.history == s.history && r.prompt == s.prompt
    ensures r.resizeStart == s.resizeStart && r.rotateStart == s.rotateStart
    ensures Find(s.layers, layerId).Some? && Find(s.layers, layerId).value.isBase ==> r == s
    ensures Find(s.layers, layerId).None? ==> r == s.(selected := Some(layerId))
    ensures Find(s.layers, layerId).Some? && !Find(s.layers, layerId).value.isBase ==>
              var l := Find(s.layers, layerId).value;
              r == s.(selected := Some(layerId), dragStart := Some(DragStart(clientX, clientY, l.x, l.y)))
  {
    var found := Find(s.layers, layerId);
    if found.Some? && found.value.isBase then s
    else
      var s1 := s.(selected := Some(layerId));
      if found.None? then s1
      else s1.(dragStart := Some(DragStart(clientX, clientY, found.value.x, found.value.y)))
  }

  /**
   * `handleResizeMouseDown`: the snapshot comes first, even when the layer is not found; a found
   * layer's width and height are captured with the pointer.
   */
  function ResizeMouseDown(s: EditorState, layerId: string, clientX: real, clientY: real): (r: EditorState)
    ensures r.history == s.history + [s.layers] && r.layers == s.layers
    ensures r.selected == s.selected && r.dragStart == s.dragStart && r.rotateStart == s.rotateStart
    ensures r.prompt == s.prompt
    ensures Find(s.layers, layerId).None? ==> r.resizeStart == s.resizeStart
    ensures Find(s.layers, layerId).Some? ==>
              var l := Find(s.layers, layerId).value;
              r.resizeStart == Some(ResizeStart(clientX, clientY, l.width, l.height))
  {
    var s1 := PushHistory(s);
    var found := Find(s.layers, layerId);
    if found.None? then s1
    else s1.(resizeStart := Some(ResizeStart(clientX, clientY, found.value.width, found.value.height)))
  }

  /**
   * `handleRotateMouseDown`: the snapshot comes first; then, if the layer and the canvas are
   * there, its rotation and on-screen centre are captured with the pointer's starting angle.
   */
  function RotateMouseDown(s: EditorState, layerId: string, canvas: Option<CanvasRect>, startAngle: real): (r: EditorState)
    ensures r.history == s.history + [s.layers] && r.layers == s.layers
    ensures r.selected == s.selected && r.dragStart == s.dragStart && r.resizeStart == s.resizeStart
    ensures r.prompt == s.prompt
    ensures Find(s.layers, layerId).None? || canvas.None? ==> r.rotateStart == s.rotateStart
    ensures Find(s.layers, layerId).Some? && canvas.Some? ==>
              var l := Find(s.layers, layerId).value;
              var c := LayerCenter(l, canvas.value);
              r.rotateStart == Some(RotateStart(l.rotation, c.0, c.1, startAngle))
  {
    var s1 := PushHistory(s);
    var found := Find(s.layers, layerId);
    if found.None? || canvas.None? then s1
    else
      var center := LayerCenter(found.value, canvas.value);
      s1.(rotateStart := Some(RotateStart(found.value.rotation, center.0, center.1, startAngle)))
  }

  /** The drag branch of `handleMouseMove`: only the selected layer can move. */
  function DragMove(s: EditorState, clientX: real, clientY: real, rect: CanvasRect): (r: EditorState)
    ensures r == s.(layers := r.layers) && |r.layers| == |s.layers|
    ensures forall k :: 0 <= k < |s.layers| && !(Active(s.selected) && s.layers[k].id == s.selected.value) ==>
              r.layers[k] == s.layers[k]
  {
    if s.dragStart.Some? && Active(s.selected) then
      s.(layers := UpdateId(s.layers, s.selected.value, DragEdit(s.dragStart.value, clientX, clientY, rect)))
    else s
  }

  /** The resize branch of `handleMouseMove`: only the selected layer can change size. */
  function ResizeMove(s: EditorState, clientX: real, rect: CanvasRect): (r: EditorState)
    ensures r == s.(layers := r.layers) && |r.layers| == |s.layers|
    ensures forall k :: 0 <= k < |s.layers| && !(Active(s.selected) && s.layers[k].id == s.selected.value) ==>
              r.layers[k] == s.layers[k]
  {
    if s.resizeStart.Some? && Active(s.selected) then
      s.(layers := UpdateId(s.layers, s.selected.value, ResizeEdit(s.resizeStart.value, clientX, rect)))
    else s
  }

  /** The rotate branch of `handleMouseMove`; the swept angle in degrees is an input. Only the
      selected layer can turn. */
  function RotateMove(s: EditorState, deltaDeg: real): (r: EditorState)
    ensures r == s.(layers := r.layers) && |r.layers| == |s.layers|
    ensures forall k :: 0 <= k < |s.layers| && !(Active(s.selected) && s.layers[k].id == s.selected.value) ==>
              r.layers[k] == s.layers[k]
  {
    if s.rotateStart.Some? && Active(s.selected) then
      s.(layers := UpdateId(s.layers, s.selected.value, RotateEdit(s.rotateStart.value, deltaDeg)))
    else s
  }

  /**
   * `handleMouseMove`: nothing without a canvas, else the three independent branches in order.
   * Only the selected layer can change; selection, gestures, history and prompt stay.
   */
  function MouseMove(s: EditorState, clientX: real, clientY: real, canvas: Option<CanvasRect>, deltaDeg: real): (r: EditorState)
    ensures canvas.None? ==> r == s
    ensures r == s.(layers := r.layers) && |r.layers| == |s.layers|
    ensures forall k :: 0 <= k < |s.layers| && !(Active(s.selected) && s.layers[k].id == s.selected.value) ==>
              r.layers[k] == s.layers[k]
  {
    if canvas.None? then s
    else RotateMove(ResizeMove(DragMove(s, clientX, clientY, canvas.value), clientX, canvas.value), deltaDeg)
  }

  /** `handleMouseUp`: every gesture record is cleared, active or not. */
  function MouseUp(s: EditorState): (r: EditorState)
    ensures r.dragStart.None? && r.resizeStart.None? && r.rotateStart.None?
    ensures r.layers == s.layers && r.history == s.history && r.selected == s.selected && r.prompt == s.prompt
  {
    s.(dragStart := None, resizeStart := None, rotateStart := None)
  }

  /** `handleBackgroundClick`: only the selection is cleared; a gesture in progress goes on. */
  function BackgroundClick(s: EditorState): (r: EditorState)
    ensures r.selected.None?
    ensures r.layers == s.layers && r.history == s.history && r.prompt == s.prompt
    ensures r.dragStart == s.dragStart && r.resizeStart == s.resizeStart && r.rotateStart == s.rotateStart
  {
    s.(selected := None)
  }

  // ---------------------------------------------------------------------------------------
  // Undo

  /** Undo after any operation that pushed the pre-operation stack restores that stack. */
  lemma UndoRestoresSnapshot(s: EditorState, t: EditorState)
    requires t.history == s.history + [s.layers]
    ensures Undo(t).layers == s.layers && Undo(t).history == s.history && Undo(t).selected == None
  {
  }

  /** There is no redo: a second undo goes one snapshot further back. */
  lemma UndoTwice(s: EditorState)
    requires |s.history| >= 2
    ensures Undo(Undo(s)).layers == s.history[|s.history| - 2]
    ensures Undo(Undo(s)).history == s.history[..|s.history| - 2]
  {
  }

  lemma UndoAfterAdd(s: EditorState, freshId: string, image: string)
    requires !IsBlank(s.prompt)
    ensures Undo(AddElement(s, freshId, Generated(image))).layers == s.layers
    ensures Undo(AddElement(s, freshId, Generated(image))).history == s.history
  {
    UndoRestoresSnapshot(s, AddElement(s, freshId, Generated(image)));
  }

  lemma UndoAfterRemove(s: EditorState, id: string)
    requires CanRemove(s, id)
    ensures Undo(RemoveLayer(s, id)).layers == s.layers
    ensures Undo(RemoveLayer(s, id)).history == s.history
  {
    UndoRestoresSnapshot(s, RemoveLayer(s, id));
  }

  lemma UndoAfterReorder(s: EditorState, dir: Direction)
    requires ReorderActs(s, dir)
    ensures Undo(Reorder(s, dir)).layers == s.layers
    ensures Undo(Reorder(s, dir)).history == s.history
  {
    UndoRestoresSnapshot(s, Reorder(s, dir));
  }

  // ---------------------------------------------------------------------------------------
  // Reorder

  /** Reorder changes nothing at all exactly when one of its guards fails. */
  lemma ReorderNoOpIff(s: EditorState, dir: Direction)
    ensures Reorder(s, dir) == s <==> !ReorderActs(s, dir)
  {
  }

  /**
   * When reorder acts it swaps the selected layer with its neighbour in the requested direction,
   * never touches index 0, and pushes the stack it started from.
   */
  lemma ReorderSwapsNeighbours(s: EditorState, baseImage: string, dir: Direction)
    requires Valid(s, baseImage) && ReorderActs(s, dir)
    ensures var i := IndexOf(s.layers, s.selected.value);
            var j := Neighbour(i, dir);
            && 1 <= i < |s.layers| && 1 <= j < |s.layers| && (j == i + 1 <==> dir == Up) && (j == i - 1 <==> dir == Down)
            && Reorder(s, dir).layers[i] == s.layers[j]
            && Reorder(s, dir).layers[j] == s.layers[i]
            && (forall k :: 0 <= k < |s.layers| && k != i && k != j ==> Reorder(s, dir).layers[k] == s.layers[k])
            && Reorder(s, dir).layers[0] == s.layers[0]
            && Reorder(s, dir).history == s.history + [s.layers]
            && Reorder(s, dir).selected == s.selected
  {
  }

  /** When the selected id names a base layer, reorder changes nothing, in either direction. */
  lemma ReorderBaseIsNoOp(s: EditorState, dir: Direction)
    requires Active(s.selected) && HasId(s.layers, s.selected.value)
    requires s.layers[IndexOf(s.layers, s.selected.value)].isBase
    ensures Reorder(s, dir) == s
  {
  }

  /** The top layer cannot go up; the layer just above the base cannot go down. */
  lemma ReorderBoundaries(s: EditorState, dir: Direction)
    requires Active(s.selected) && HasId(s.layers, s.selected.value)
    requires var i := IndexOf(s.layers, s.selected.value);
             (dir == Up && i == |s.layers| - 1) || (dir == Down && i == 1)
    ensures Reorder(s, dir) == s
  {
  }

  // ---------------------------------------------------------------------------------------
  // Remove

  /** Remove keeps every other layer, in its relative order. */
  lemma RemoveKeepsOrder(s: EditorState, id: string, i: int, j: int)
    requires CanRemove(s, id)
    requires 0 <= i < j < |s.layers| && s.layers[i].id != id && s.layers[j].id != id
    ensures var r := RemoveLayer(s, id).layers;
            |Without(s.layers[..i], id)| < |Without(s.layers[..j], id)| < |r|
            && r[|Without(s.layers[..i], id)|] == s.layers[i]
            && r[|Without(s.layers[..j], id)|] == s.layers[j]
  {
    WithoutPreservesOrder(s.layers, id, i, j);
  }

  // ---------------------------------------------------------------------------------------
  // Property changes and pointer moves

  /** Without a selection a property change does nothing. */
  lemma PropertyChangeNeedsSelection(s: EditorState, p: Property, v: real)
    requires !Active(s.selected)
    ensures PropertyChange(s, p, v) == s
  {
  }

  /** A property change sets only the named field of the selected layer and takes no snapshot. */
  lemma PropertyChangeOnlyNamedField(s: EditorState, p: Property, v: real, i: int)
    requires Active(s.selected) && 0 <= i < |s.layers|
    ensures var r := PropertyChange(s, p, v);
            && r.history == s.history && r.selected == s.selected && |r.layers| == |s.layers|
            && (s.layers[i].id != s.selected.value ==> r.layers[i] == s.layers[i])
            && (s.layers[i].id == s.selected.value ==>
                  && Get(r.layers[i], p) == v
                  && (forall q :: q != p ==> Get(r.layers[i], q) == Get(s.layers[i], q))
                  && r.layers[i].id == s.layers[i].id && r.layers[i].image == s.layers[i].image
                  && r.layers[i].isBase == s.layers[i].isBase)
  {
  }

  /** A drag move places the selected layer at its captured position plus the pointer
      displacement in percent of the canvas, changing nothing else. */
  lemma DragMoveSpec(s: EditorState, clientX: real, clientY: real, rect: CanvasRect, i: int)
    requires s.dragStart.Some? && Active(s.selected) && 0 <= i < |s.layers|
    ensures var r := DragMove(s, clientX, clientY, rect);
            var ds := s.dragStart.value;
            && r.history == s.history && r.selected == s.selected && |r.layers| == |s.layers|
            && (s.layers[i].id != s.selected.value ==> r.layers[i] == s.layers[i])
            && (s.layers[i].id == s.selected.value ==>
                  && r.layers[i].x == ds.layerX + Percent(clientX - ds.x, rect.width)
                  && r.layers[i].y == ds.layerY + Percent(clientY - ds.y, rect.height)
                  && r.layers[i] == s.layers[i].(x := r.layers[i].x, y := r.layers[i].y))
  {
  }

  /** A resize move gives the selected layer equal increments of width and height, each at
      least `MinSize`, and leaves its position and rotation alone. */
  lemma ResizeMoveSpec(s: EditorState, clientX: real, rect: CanvasRect, i: int)
    requires s.resizeStart.Some? && Active(s.selected) && 0 <= i < |s.layers|
    requires s.layers[i].id == s.selected.value
    ensures var l := ResizeMove(s, clientX, rect).layers[i];
            var rs := s.resizeStart.value;
            var delta := Percent(clientX - rs.x, rect.width);
            && l.width == Max(MinSize, rs.width + delta) && l.height == Max(MinSize, rs.height + delta)
            && l.width >= MinSize && l.height >= MinSize
            && l.x == s.layers[i].x && l.y == s.layers[i].y && l.rotation == s.layers[i].rotation
            && l.opacity == s.layers[i].opacity
  {
  }

  /** A rotate move sets the selected layer's rotation to the captured one plus the swept angle. */
  lemma RotateMoveSpec(s: EditorState, deltaDeg: real, i: int)
    requires s.rotateStart.Some? && Active(s.selected) && 0 <= i < |s.layers|
    requires s.layers[i].id == s.selected.value
    ensures var l := RotateMove(s, deltaDeg).layers[i];
            l == s.layers[i].(rotation := s.rotateStart.value.startRotation + deltaDeg)
  {
  }

  /** Every move branch is gated on a selection: without one, a move changes nothing. */
  lemma MouseMoveNeedsSelection(s: EditorState, clientX: real, clientY: real, canvas: Option<CanvasRect>, deltaDeg: real)
    requires !Active(s.selected)
    ensures MouseMove(s, clientX, clientY, canvas, deltaDeg) == s
  {
  }

  /** What one pointer move does to a single layer, given the selection and the gesture refs. */
  function MoveEffect(selected: Option<string>, drag: Option<DragStart>, resize: Option<ResizeStart>,
                      rotate: Option<RotateStart>, l: Layer, clientX: real, clientY: real, rect: CanvasRect,
                      deltaDeg: real): Layer
  {
    var on := Active(selected) && l.id == selected.value;
    var l1 := if on && drag.Some? then Apply(l, DragEdit(drag.value, clientX, clientY, rect)) else l;
    var l2 := if on && resize.Some? then Apply(l1, ResizeEdit(resize.value, clientX, rect)) else l1;
    if on && rotate.Some? then Apply(l2, RotateEdit(rotate.value, deltaDeg)) else l2
  }

  /** One pointer move seen from a single layer. */
  lemma MouseMoveAt(s: EditorState, clientX: real, clientY: real, rect: CanvasRect, deltaDeg: real, k: int)
    requires 0 <= k < |s.layers|
    ensures |MouseMove(s, clientX, clientY, Some(rect), deltaDeg).layers| == |s.layers|
    ensures MouseMove(s, clientX, clientY, Some(rect), deltaDeg).layers[k]
         == MoveEffect(s.selected, s.dragStart, s.resizeStart, s.rotateStart, s.layers[k], clientX, clientY, rect, deltaDeg)
  {
  }

  /** The three move edits write disjoint fields absolutely, so a second move overwrites the first. */
  lemma MoveEffectOverwrites(selected: Option<string>, drag: Option<DragStart>, resize: Option<ResizeStart>,
                             rotate: Option<RotateStart>, l: Layer,
                             x1: real, y1: real, c1: CanvasRect, d1: real, x2: real, y2: real, c2: CanvasRect, d2: real)
    ensures MoveEffect(selected, drag, resize, rotate,
                       MoveEffect(selected, drag, resize, rotate, l, x1, y1, c1, d1), x2, y2, c2, d2)
         == MoveEffect(selected, drag, resize, rotate, l, x2, y2, c2, d2)
  {
  }

  /**
   * Moves are computed from the gesture's start, not from the previous move: of two successive
   * moves, only the second one's position counts, so many small moves do not drift.
   */
  lemma MouseMoveNoDrift(s: EditorState, x1: real, y1: real, c1: CanvasRect, d1: real,
                         x2: real, y2: real, c2: CanvasRect, d2: real)
    ensures MouseMove(MouseMove(s, x1, y1, Some(c1), d1), x2, y2, Some(c2), d2)
         == MouseMove(s, x2, y2, Some(c2), d2)
  {
    var m := MouseMove(s, x1, y1, Some(c1), d1);
    var a := MouseMove(m, x2, y2, Some(c2), d2);
    var b := MouseMove(s, x2, y2, Some(c2), d2);
    forall k | 0 <= k < |s.layers|
      ensures a.layers[k] == b.layers[k]
    {
      MouseMoveAt(s, x1, y1, c1, d1, k);
      MouseMoveAt(m, x2, y2, c2, d2, k);
      MouseMoveAt(s, x2, y2, c2, d2, k);
      MoveEffectOverwrites(s.selected, s.dragStart, s.resizeStart, s.rotateStart, s.layers[k],
                           x1, y1, c1, d1, x2, y2, c2, d2);
    }
    assert a.layers == b.layers;
  }

  /** Pointer-down on the base layer neither selects it nor starts a drag. */
  lemma MouseDownOnBase(s: EditorState, baseImage: string, clientX: real, clientY: real)
    requires Valid(s, baseImage)
    ensures MouseDown(s, BaseId, clientX, clientY) == s
  {
    BaseIdAtZero(s.layers, baseImage);
  }

  /** A drag that has just started, with the pointer still where it went down, moves nothing. */
  lemma DragStartsInPlace(s: EditorState, layerId: string, clientX: real, clientY: real, rect: CanvasRect)
    requires UniqueIds(s.layers) && Find(s.layers, layerId).Some? && !Find(s.layers, layerId).value.isBase
    ensures DragMove(MouseDown(s, layerId, clientX, clientY), clientX, clientY, rect).layers == s.layers
  {
    var l := Find(s.layers, layerId).value;
    var ds := DragStart(clientX, clientY, l.x, l.y);
    var e := DragEdit(ds, clientX, clientY, rect);
    assert e == MoveTo(l.x, l.y);
    forall k | 0 <= k < |s.layers| && s.layers[k].id == layerId
      ensures Apply(s.layers[k], e) == s.layers[k]
    {
      FindUnique(s.layers, layerId, k);
    }
    UpdateIdFixed(s.layers, layerId, e);
  }

  /** A resize of the selected layer that has just started, with the pointer still where it went
      down, changes nothing while the layer is at least `MinSize` in both directions. */
  lemma ResizeStartsInPlace(s: EditorState, layerId: string, clientX: real, clientY: real, rect: CanvasRect)
    requires UniqueIds(s.layers) && s.selected == Some(layerId) && Find(s.layers, layerId).Some?
    requires Find(s.layers, layerId).value.width >= MinSize && Find(s.layers, layerId).value.height >= MinSize
    ensures ResizeMove(ResizeMouseDown(s, layerId, clientX, clientY), clientX, rect).layers == s.layers
  {
    var l := Find(s.layers, layerId).value;
    var e := ResizeEdit(ResizeStart(clientX, clientY, l.width, l.height), clientX, rect);
    assert e == SizeTo(l.width, l.height);
    forall k | 0 <= k < |s.layers| && s.layers[k].id == layerId
      ensures Apply(s.layers[k], e) == s.layers[k]
    {
      FindUnique(s.layers, layerId, k);
    }
    UpdateIdFixed(s.layers, layerId, e);
  }

  /** A rotation of the selected layer that has swept no angle yet changes nothing. */
  lemma RotateStartsInPlace(s: EditorState, layerId: string, rect: CanvasRect, startAngle: real)
    requires UniqueIds(s.layers) && s.selected == Some(layerId) && Find(s.layers, layerId).Some?
    ensures RotateMove(RotateMouseDown(s, layerId, Some(rect), startAngle), 0.0).layers == s.layers
  {
    var l := Find(s.layers, layerId).value;
    var c := LayerCenter(l, rect);
    var e := RotateEdit(RotateStart(l.rotation, c.0, c.1, startAngle), 0.0);
    assert e == SetField(Rotation, l.rotation);
    forall k | 0 <= k < |s.layers| && s.layers[k].id == layerId
      ensures Apply(s.layers[k], e) == s.layers[k]
    {
      FindUnique(s.layers, layerId, k);
    }
    UpdateIdFixed(s.layers, layerId, e);
  }

  /** The numeric inputs are not floored: a property change can make a layer narrower than
      a resize move ever would. */
  lemma WidthFloorOnlyOnResize(s: EditorState, baseImage: string, i: int)
    requires Valid(s, baseImage) && Active(s.selected) && 0 <= i < |s.layers| && s.layers[i].id == s.selected.value
    ensures Valid(PropertyChange(s, Width, 1.0), baseImage)
    ensures PropertyChange(s, Width, 1.0).layers[i].width < MinSize
  {
    UpdateIdPreservesWellFormed(s.layers, baseImage, s.selected.value, SetField(Width, 1.0));
  }

  // ---------------------------------------------------------------------------------------
  // Scenarios

  /** Add "rose", then remove it: back to the base layer alone, with nothing selected. */
  lemma AddThenRemove(baseImage: string, freshId: string, image: string)
    requires freshId != BaseId
    ensures var s1 := AddElement(EditPrompt(Init(baseImage), "rose"), freshId, Generated(image));
            && |s1.layers| == 2 && s1.selected == Some(freshId) && |s1.history| == 1
            && CanRemove(s1, freshId)
            && RemoveLayer(s1, freshId).layers == [BaseLayer(baseImage)]
            && RemoveLayer(s1, freshId).selected == None
  {
    var s0 := EditPrompt(Init(baseImage), "rose");
    assert !IsJsWhitespace(s0.prompt[0]);
    var s1 := AddElement(s0, freshId, Generated(image));
    assert s1.layers == [BaseLayer(baseImage), NewLayer(freshId, image)];
    assert IndexOf(s1.layers, freshId) == 1;
    var r := Without(s1.layers, freshId);
    assert r == Seqs.Filter(s1.layers, KeepOthers(freshId));
    assert s1.layers[1..] == [NewLayer(freshId, image)];
    assert Seqs.Filter(s1.layers[1..], KeepOthers(freshId)) == [];
  }

  /** A drag by a tenth of the canvas width and a twentieth of its height moves a layer at
      (25, 25) to (35, 30), its size and rotation unchanged. */
  lemma DragByTenPercent(s: EditorState, i: int, px: real, py: real, rect: CanvasRect)
    requires 0 <= i < |s.layers| && Active(s.selected) && s.layers[i].id == s.selected.value
    requires s.layers[i].x == 25.0 && s.layers[i].y == 25.0
    requires s.dragStart == Some(DragStart(px, py, 25.0, 25.0))
    ensures var l := DragMove(s, px + 10.0 / 100.0 * rect.width, py + 5.0 / 100.0 * rect.height, rect).layers[i];
            l.x == 35.0 && l.y == 30.0 && l.width == s.layers[i].width && l.height == s.layers[i].height
            && l.rotation == s.layers[i].rotation
  {
    PercentOfShare(10.0, rect.width);
    PercentOfShare(5.0, rect.height);
    assert px + 10.0 / 100.0 * rect.width - px == 10.0 / 100.0 * rect.width;
    assert py + 5.0 / 100.0 * rect.height - py == 5.0 / 100.0 * rect.height;
  }

  // ---------------------------------------------------------------------------------------
  // The invariant over every reachable state

  /** The editor's handlers, as the events that trigger them. */
  datatype Event =
    | UndoClicked
    | PromptEdited(text: string)
    | AddElementSettled(freshId: string, outcome: Generation)
    | RemoveClicked(id: string)
    | ReorderClicked(dir: Direction)
    | PropertyEdited(p: Property, v: real)
    | LayerPointerDown(layerId: string, clientX: real, clientY: real)
    | ResizeHandlePointerDown(layerId: string, clientX: real, clientY: real)
    | RotateHandlePointerDown(layerId: string, canvas: Option<CanvasRect>, startAngle: real)
    | PointerMoved(clientX: real, clientY: real, canvas: Option<CanvasRect>, deltaDeg: real)
    | PointerUp
    | BackgroundClicked

  /** What the UI guarantees before delivering an event: a fresh id for a new layer, and a
      remove only from the selected-layer panel. */
  predicate Allowed(s: EditorState, e: Event)
  {
    match e
    case AddElementSettled(freshId, _) => !HasId(s.layers, freshId)
    case RemoveClicked(id) => CanRemove(s, id)
    case _ => true
  }

  function Step(s: EditorState, e: Event): EditorState
    requires Allowed(s, e)
  {
    match e
    case UndoClicked => Undo(s)
    case PromptEdited(text) => EditPrompt(s, text)
    case AddElementSettled(freshId, outcome) => AddElement(s, freshId, outcome)
    case RemoveClicked(id) => RemoveLayer(s, id)
    case ReorderClicked(dir) => Reorder(s, dir)
    case PropertyEdited(p, v) => PropertyChange(s, p, v)
    case LayerPointerDown(layerId, cx, cy) => MouseDown(s, layerId, cx, cy)
    case ResizeHandlePointerDown(layerId, cx, cy) => ResizeMouseDown(s, layerId, cx, cy)
    case RotateHandlePointerDown(layerId, canvas, angle) => RotateMouseDown(s, layerId, canvas, angle)
    case PointerMoved(cx, cy, canvas, deltaDeg) => MouseMove(s, cx, cy, canvas, deltaDeg)
    case PointerUp => MouseUp(s)
    case BackgroundClicked => BackgroundClick(s)
  }

  /** A session: events the UI could not deliver in the current state are dropped. */
  function Run(s: EditorState, events: seq<Event>): EditorState
    decreases |events|
  {
    if events == [] then s
    else if Allowed(s, events[0]) then Run(Step(s, events[0]), events[1..])
    else Run(s, events[1..])
  }

  lemma UndoPreservesValid(s: EditorState, baseImage: string)
    requires Valid(s, baseImage)
    ensures Valid(Undo(s), baseImage)
  {
  }

  lemma AddElementPreservesValid(s: EditorState, baseImage: string, freshId: string, outcome: Generation)
    requires Valid(s, baseImage) && !HasId(s.layers, freshId)
    ensures Valid(AddElement(s, freshId, outcome), baseImage)
  {
    if !IsBlank(s.prompt) && outcome.Generated? {
      AppendPreservesWellFormed(s.layers, baseImage, NewLayer(freshId, outcome.image));
      BaseIdAtZero(s.layers, baseImage);
    }
  }

  lemma RemovePreservesValid(s: EditorState, baseImage: string, id: string)
    requires Valid(s, baseImage) && CanRemove(s, id)
    ensures Valid(RemoveLayer(s, id), baseImage)
  {
    BaseIdAtZero(s.layers, baseImage);
    WithoutPreservesWellFormed(s.layers, baseImage, id);
  }

  lemma ReorderPreservesValid(s: EditorState, baseImage: string, dir: Direction)
    requires Valid(s, baseImage)
    ensures Valid(Reorder(s, dir), baseImage)
  {
    if ReorderActs(s, dir) {
      var i := IndexOf(s.layers, s.selected.value);
      SwapPreservesWellFormed(s.layers, baseImage, i, Neighbour(i, dir));
    }
  }

  lemma PointerEditsPreserveValid(s: EditorState, baseImage: string, p: Property, v: real,
                                 clientX: real, clientY: real, canvas: Option<CanvasRect>, deltaDeg: real)
    requires Valid(s, baseImage)
    ensures Valid(PropertyChange(s, p, v), baseImage)
    ensures Valid(MouseMove(s, clientX, clientY, canvas, deltaDeg), baseImage)
  {
    if Active(s.selected) {
      var id := s.selected.value;
      UpdateIdPreservesWellFormed(s.layers, baseImage, id, SetField(p, v));
      if canvas.Some? {
        var s1 := DragMove(s, clientX, clientY, canvas.value);
        if s.dragStart.Some? {
          UpdateIdPreservesWellFormed(s.layers, baseImage, id, DragEdit(s.dragStart.value, clientX, clientY, canvas.value));
        }
        var s2 := ResizeMove(s1, clientX, canvas.value);
        if s.resizeStart.Some? {
          UpdateIdPreservesWellFormed(s1.layers, baseImage, id, ResizeEdit(s.resizeStart.value, clientX, canvas.value));
        }
        if s.rotateStart.Some? {
          UpdateIdPreservesWellFormed(s2.layers, baseImage, id, RotateEdit(s.rotateStart.value, deltaDeg));
        }
      }
    }
  }

  lemma PointerDownPreservesValid(s: EditorState, baseImage: string, layerId: string, clientX: real, clientY: real,
                                 canvas: Option<CanvasRect>, startAngle: real)
    requires Valid(s, baseImage)
    ensures Valid(MouseDown(s, layerId, clientX, clientY), baseImage)
    ensures Valid(ResizeMouseDown(s, layerId, clientX, clientY), baseImage)
    ensures Valid(RotateMouseDown(s, layerId, canvas, startAngle), baseImage)
  {
    BaseIdAtZero(s.layers, baseImage);
  }

  lemma StepPreservesValid(s: EditorState, baseImage: string, e: Event)
    requires Valid(s, baseImage) && Allowed(s, e)
    ensures Valid(Step(s, e), baseImage)
  {
    match e
    case UndoClicked => UndoPreservesValid(s, baseImage);
    case PromptEdited(_) =>
    case AddElementSettled(freshId, outcome) => AddElementPreservesValid(s, baseImage, freshId, outcome);
    case RemoveClicked(id) => RemovePreservesValid(s, baseImage, id);
    case ReorderClicked(dir) => ReorderPreservesValid(s, baseImage, dir);
    case PropertyEdited(p, v) => PointerEditsPreserveValid(s, baseImage, p, v, 0.0, 0.0, None, 0.0);
    case LayerPointerDown(layerId, cx, cy) => PointerDownPreservesValid(s, baseImage, layerId, cx, cy, None, 0.0);
    case ResizeHandlePointerDown(layerId, cx, cy) => PointerDownPreservesValid(s, baseImage, layerId, cx, cy, None, 0.0);
    case RotateHandlePointerDown(layerId, canvas, angle) => PointerDownPreservesValid(s, baseImage, layerId, 0.0, 0.0, canvas, angle);
    case PointerMoved(cx, cy, canvas, deltaDeg) => PointerEditsPreserveValid(s, baseImage, X, 0.0, cx, cy, canvas, deltaDeg);
    case PointerUp =>
    case BackgroundClicked =>
  }

  /** Every state the editor can reach from opening is valid: the base layer sits untouched at
      index 0 and nowhere else, ids are distinct, every snapshot is such a stack, and the base
      layer is never selected. */
  lemma {:induction false} RunPreservesValid(s: EditorState, baseImage: string, events: seq<Event>)
    requires Valid(s, baseImage)
    ensures Valid(Run(s, events), baseImage)
    decreases |events|
  {
    if events != [] {
      if Allowed(s, events[0]) {
        StepPreservesValid(s, baseImage, events[0]);
        RunPreservesValid(Step(s, events[0]), baseImage, events[1..]);
      } else {
        RunPreservesValid(s, baseImage, events[1..]);
      }
    }
  }

  lemma ReachableStatesAreValid(baseImage: string, events: seq<Event>)
    ensures Valid(Run(Init(baseImage), events), baseImage)
  {
    RunPreservesValid(Init(baseImage), baseImage, events);
  }
}
