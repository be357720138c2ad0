/**
 * The interactive 3-D viewer (`src/components/ThreeDVisualization.tsx`): the zoom,
 * rotation and auto-rotate state changed by the control buttons and by each animation
 * frame, and the choice of drawing routine by model name. Drawing itself is not part
 * of this model; `Date.now()` is a parameter.
 */
module ThreeDVisualization {
  import opened Text

  datatype Drawing = FractionDrawing | GeometricDrawing | MolecularDrawing | DefaultDrawing

  /** The drawing routine for a model name: the first of the three keywords it contains wins. */
  function DrawingFor(model: string): (d: Drawing)
    ensures d == FractionDrawing <==> Contains(model, "fraction")
    ensures d == GeometricDrawing <==> !Contains(model, "fraction") && Contains(model, "geometric")
    ensures d == MolecularDrawing <==>
      !Contains(model, "fraction") && !Contains(model, "geometric") && Contains(model, "molecular")
    ensures d == DefaultDrawing <==>
      !Contains(model, "fraction") && !Contains(model, "geometric") && !Contains(model, "molecular")
  {
    if Contains(model, "fraction") then FractionDrawing
    else if Contains(model, "geometric") then GeometricDrawing
    else if Contains(model, "molecular") then MolecularDrawing
    else DefaultDrawing
  }

  /** `Math.min(2, prev + 0.2)`. */
  function ZoomIn(z: real): (r: real)
    ensures r <= 2.0 && (z <= 2.0 ==> r >= z)
    ensures z <= 1.8 ==> r == z + 0.2
  {
    if z + 0.2 < 2.0 then z + 0.2 else 2.0
  }

  /** `Math.max(0.5, prev - 0.2)`. */
  function ZoomOut(z: real): (r: real)
    ensures r >= 0.5
    ensures z >= 0.5 ==> r <= z
    ensures z >= 0.7 ==> r == z - 0.2
  {
    if z - 0.2 > 0.5 then z - 0.2 else 0.5
  }

  /** Zooming in and then out again returns to the start while the cap was not hit. */
  lemma ZoomInThenOut(z: real)
    requires 0.5 <= z <= 1.8
    ensures ZoomOut(ZoomIn(z)) == z
  {
  }

  /** Zooming out and then in again returns to the start while the floor was not hit. */
  lemma ZoomOutThenIn(z: real)
    requires 0.7 <= z <= 2.0
    ensures ZoomIn(ZoomOut(z)) == z
  {
  }

  /** A call of `onInteraction`: the button type and the model selected at the time. */
  datatype Notification = Notification(kind: string, model: string, timestamp: int)

  class Viewer {
    const models: seq<string>
    var selectedModel: string
    var isRotating: bool
    var zoom: real
    var rotX: real
    var rotY: real
    var rotZ: real
    var notifications: seq<Notification>

    predicate Valid()
      reads this
    {
      selectedModel in models && 0.5 <= zoom <= 2.0
    }

    constructor (models: seq<string>)
      requires |models| > 0
      ensures Valid() && this.models == models && selectedModel == models[0]
      ensures isRotating && zoom == 1.0 && rotX == 0.0 && rotY == 0.0 && rotZ == 0.0 && notifications == []
    {
      this.models := models;
      selectedModel := models[0];
      isRotating := true;
      zoom := 1.0;
      rotX, rotY, rotZ := 0.0, 0.0, 0.0;
      notifications := [];
    }

    function CurrentDrawing(): Drawing
      reads this
    {
      DrawingFor(selectedModel)
    }

    /** The model `<select>`: only listed models are offered. */
    method SelectModel(model: string)
      requires Valid() && model in models
      modifies this`selectedModel
      ensures Valid() && selectedModel == model
    {
      selectedModel := model;
    }

    /** One animation frame: while rotating, the angles advance by (0.5, 1, 0.3). */
    method Frame()
      requires Valid()
      modifies this`rotX, this`rotY, this`rotZ
      ensures Valid()
      ensures isRotating ==> rotX == old(rotX) + 0.5 && rotY == old(rotY) + 1.0 && rotZ == old(rotZ) + 0.3
      ensures !isRotating ==> rotX == old(rotX) && rotY == old(rotY) && rotZ == old(rotZ)
    {
      if isRotating {
        rotX, rotY, rotZ := rotX + 0.5, rotY + 1.0, rotZ + 0.3;
      }
    }

    /** `handleInteraction`: notify first, then act on the four known button types. */
    method HandleInteraction(kind: string, now: int)
      requires Valid()
      modifies this`isRotating, this`zoom, this`rotX, this`rotY, this`rotZ, this`notifications
      ensures Valid()
      ensures notifications == old(notifications) + [Notification(kind, selectedModel, now)]
      ensures kind == "rotate" ==>
        isRotating == !old(isRotating) && zoom == old(zoom) &&
        rotX == old(rotX) && rotY == old(rotY) && rotZ == old(rotZ)
      ensures kind == "zoom-in" ==>
        zoom == ZoomIn(old(zoom)) && isRotating == old(isRotating) &&
        rotX == old(rotX) && rotY == old(rotY) && rotZ == old(rotZ)
      ensures kind == "zoom-out" ==>
        zoom == ZoomOut(old(zoom)) && isRotating == old(isRotating) &&
        rotX == old(rotX) && rotY == old(rotY) && rotZ == old(rotZ)
      ensures kind == "reset" ==>
        zoom == 1.0 && isRotating && rotX == 0.0 && rotY == 0.0 && rotZ == 0.0
      ensures kind !in {"rotate", "zoom-in", "zoom-out", "reset"} ==>
        zoom == old(zoom) && isRotating == old(isRotating) &&
        rotX == old(rotX) && rotY == old(rotY) && rotZ == old(rotZ)
    {
      notifications := notifications + [Notification(kind, selectedModel, now)];
      if kind == "rotate" {
        isRotating := !isRotating;
      } else if kind == "zoom-in" {
        zoom := ZoomIn(zoom);
      } else if kind == "zoom-out" {
        zoom := ZoomOut(zoom);
      } else if kind == "reset" {
        zoom := 1.0;
        rotX, rotY, rotZ := 0.0, 0.0, 0.0;
        isRotating := true;
      }
    }
  }
}
