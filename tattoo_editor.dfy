/**
 * The editor component itself: its state hooks and refs as fields of one object, and each event
 * handler as a method that updates those fields in place. Every method is proved to perform the
 * matching transition of `EditorModel` and to keep the editor's invariant.
 */
module EditorComponent {
  import opened Wrappers
  import opened Layers
  import opened Gestures
  import EditorModel

  class TattooEditor {
    const baseImage: string
    var layers: seq<Layer>
    var history: seq<seq<Layer>>
    var selected: Option<string>
    var dragStart: Option<DragStart>
    var resizeStart: Option<ResizeStart>
    var rotateStart: Option<RotateStart>
    var prompt: string

    /** The component's state as a value. */
    function State(): EditorModel.EditorState
      reads this
    {
      EditorModel.EditorState(layers, history, selected, dragStart, resizeStart, rotateStart, prompt)
    }

    predicate Valid()
      reads this
    {
      EditorModel.Valid(State(), baseImage)
    }

    /** `selectedLayer`: the layer the sidebar shows, if any. */
    function SelectedLayer(): (r: Option<Layer>)
      reads this
      ensures selected.None? ==> r.None?
      ensures selected.Some? && r.Some? ==> r.value in layers && r.value.id == selected.value
      ensures selected.Some? && r.None? ==> !HasId(layers, selected.value)
      ensures Valid() && r.Some? ==> !r.value.isBase
    {
      if selected.None? then None else Find(layers, selected.value)
    }

    /** Opening the editor on a base image. */
    constructor (baseImage: string)
      ensures this.baseImage == baseImage
      ensures State() == EditorModel.Init(baseImage)
      ensures Valid()
    {
      this.baseImage := baseImage;
      layers := [BaseLayer(baseImage)];
      history := [];
      selected := None;
      dragStart, resizeStart, rotateStart := None, None, None;
      prompt := "";
    }

    method PushHistory()
      requires Valid()
      modifies this`history
      ensures Valid()
      ensures history == old(history) + [layers]
      ensures State() == EditorModel.PushHistory(old(State()))
    {
      history := history + [layers];
    }

    method Undo()
      requires Valid()
      modifies this
      ensures Valid()
      ensures State() == EditorModel.Undo(old(State()))
    {
      ghost var s0 := State();
      EditorModel.UndoPreservesValid(s0, baseImage);
      if |history| == 0 {
        return;
      }
      var previous := history[|history| - 1];
      layers := previous;
      history := history[..|history| - 1];
      selected := None;
    }

    method EditPrompt(text: string)
      requires Valid()
      modifies this`prompt
      ensures Valid()
      ensures State() == EditorModel.EditPrompt(old(State()), text)
    {
      prompt := text;
    }

    /** The add-element handler once generation has settled with `outcome`. */
    method AddElement(freshId: string, outcome: EditorModel.Generation)
      requires Valid() && !HasId(layers, freshId)
      modifies this
      ensures Valid()
      ensures State() == EditorModel.AddElement(old(State()), freshId, outcome)
    {
      ghost var s0 := State();
      EditorModel.AddElementPreservesValid(s0, baseImage, freshId, outcome);
      if EditorModel.IsBlank(prompt) {
        return;
      }
      match outcome
      case GenerationFailed =>
        return;
      case Generated(image) =>
        PushHistory();
        layers := layers + [EditorModel.NewLayer(freshId, image)];
        selected := Some(freshId);
        prompt := "";
    }

    method RemoveLayer(id: string)
      requires Valid() && EditorModel.CanRemove(State(), id)
      modifies this
      ensures Valid()
      ensures State() == EditorModel.RemoveLayer(old(State()), id)
    {
      ghost var s0 := State();
      EditorModel.RemovePreservesValid(s0, baseImage, id);
      PushHistory();
      layers := Without(layers, id);
      selected := None;
    }

    method Reorder(dir: EditorModel.Direction)
      requires Valid()
      modifies this
      ensures Valid()
      ensures State() == EditorModel.Reorder(old(State()), dir)
    {
      ghost var s0 := State();
      EditorModel.ReorderPreservesValid(s0, baseImage, dir);
      if !EditorModel.Active(selected) {
        return;
      }
      var index := IndexOf(layers, selected.value);
      if index == -1 {
        return;
      }
      if layers[index].isBase {
        return;
      }
      var newIndex := EditorModel.Neighbour(index, dir);
      if newIndex <= 0 || newIndex >= |layers| {
        return;
      }
      PushHistory();
      layers := Swap(layers, index, newIndex);
    }

    method PropertyChange(p: Property, v: real)
      requires Valid()
      modifies this`layers
      ensures Valid()
      ensures State() == EditorModel.PropertyChange(old(State()), p, v)
    {
      ghost var s0 := State();
      EditorModel.PointerEditsPreserveValid(s0, baseImage, p, v, 0.0, 0.0, None, 0.0);
      if !EditorModel.Active(selected) {
        return;
      }
      layers := UpdateId(layers, selected.value, SetField(p, v));
    }

    /** Pointer-down on a layer's body. */
    method MouseDown(layerId: string, clientX: real, clientY: real)
      requires Valid()
      modifies this`selected, this`dragStart
      ensures Valid()
      ensures State() == EditorModel.MouseDown(old(State()), layerId, clientX, clientY)
    {
      ghost var s0 := State();
      EditorModel.PointerDownPreservesValid(s0, baseImage, layerId, clientX, clientY, None, 0.0);
      var found := Find(layers, layerId);
      if found.Some? && found.value.isBase {
        return;
      }
      selected := Some(layerId);
      if found.None? {
        return;
      }
      dragStart := Some(DragStart(clientX, clientY, found.value.x, found.value.y));
    }

    /** Pointer-down on the resize handle. */
    method ResizeMouseDown(layerId: string, clientX: real, clientY: real)
      requires Valid()
      modifies this`history, this`resizeStart
      ensures Valid()
      ensures State() == EditorModel.ResizeMouseDown(old(State()), layerId, clientX, clientY)
    {
      ghost var s0 := State();
      EditorModel.PointerDownPreservesValid(s0, baseImage, layerId, clientX, clientY, None, 0.0);
      PushHistory();
      var found := Find(layers, layerId);
      if found.None? {
        return;
      }
      resizeStart := Some(ResizeStart(clientX, clientY, found.value.width, found.value.height));
    }

    /** Pointer-down on the rotate handle; `startAngle` is the pointer's angle about the layer's centre. */
    method RotateMouseDown(layerId: string, canvas: Option<CanvasRect>, startAngle: real)
      requires Valid()
      modifies this`history, this`rotateStart
      ensures Valid()
      ensures State() == EditorModel.RotateMouseDown(old(State()), layerId, canvas, startAngle)
    {
      ghost var s0 := State();
      EditorModel.PointerDownPreservesValid(s0, baseImage, layerId, 0.0, 0.0, canvas, startAngle);
      PushHistory();
      var found := Find(layers, layerId);
      if found.None? || canvas.None? {
        return;
      }
      var center := LayerCenter(found.value, canvas.value);
      rotateStart := Some(RotateStart(found.value.rotation, center.0, center.1, startAngle));
    }

    /** Pointer move; `deltaDeg` is the angle swept about the rotation centre since pointer-down. */
    method MouseMove(clientX: real, clientY: real, canvas: Option<CanvasRect>, deltaDeg: real)
      requires Valid()
      modifies this`layers
      ensures Valid()
      ensures State() == EditorModel.MouseMove(old(State()), clientX, clientY, canvas, deltaDeg)
    {
      ghost var s0 := State();
      EditorModel.PointerEditsPreserveValid(s0, baseImage, X, 0.0, clientX, clientY, canvas, deltaDeg);
      if canvas.None? {
        return;
      }
      var rect := canvas.value;
      if dragStart.Some? && EditorModel.Active(selected) {
        layers := UpdateId(layers, selected.value, DragEdit(dragStart.value, clientX, clientY, rect));
      }
      if resizeStart.Some? && EditorModel.Active(selected) {
        layers := UpdateId(layers, selected.value, ResizeEdit(resizeStart.value, clientX, rect));
      }
      if rotateStart.Some? && EditorModel.Active(selected) {
        layers := UpdateId(layers, selected.value, RotateEdit(rotateStart.value, deltaDeg));
      }
    }

    method MouseUp()
      requires Valid()
      modifies this`dragStart, this`resizeStart, this`rotateStart
      ensures Valid()
      ensures State() == EditorModel.MouseUp(old(State()))
    {
      dragStart := None;
      resizeStart := None;
      rotateStart := None;
    }

    method BackgroundClick()
      requires Valid()
      modifies this`selected
      ensures Valid()
      ensures State() == EditorModel.BackgroundClick(old(State()))
    {
      selected := None;
    }
  }
}
