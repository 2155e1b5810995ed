// The interactive controller's resolution state (caster_controller.cpp): a
// ladder of image widths, the current rung, and the square image the caster
// is asked to render at that width. Window, mouse and camera handling are
// not modelled.

module CasterControl {
  import opened Common
  import opened Images
  import opened Casting

  /** The image widths the user can step through, narrowest first. */
  const ImageWidths: seq<int> := [20, 50, 100, 200, 300, 500, 800]

  /** The rung the controller starts on and returns to at init. */
  const InitialIndex: int := 3

  /** The rung after stepping `step` rungs from `index`, held to the ladder. */
  function StepIndex(index: int, step: int): (r: int)
    ensures 0 <= r < |ImageWidths|
    ensures 0 <= index + step < |ImageWidths| ==> r == index + step
    ensures index + step < 0 ==> r == 0
    ensures index + step >= |ImageWidths| ==> r == |ImageWidths| - 1
  {
    Clamp(index + step, 0, |ImageWidths| - 1)
  }

  /** A higher rung is a wider image. */
  lemma WidthsIncreasing(i: int, j: int)
    requires 0 <= i < j < |ImageWidths|
    ensures ImageWidths[i] < ImageWidths[j]
  {
  }

  /** Stepping up never narrows the image and widens it below the top rung;
      stepping down never widens it and narrows it above the bottom rung. */
  lemma StepDirection(index: int)
    requires 0 <= index < |ImageWidths|
    ensures ImageWidths[StepIndex(index, 1)] >= ImageWidths[index]
    ensures index < |ImageWidths| - 1 ==> ImageWidths[StepIndex(index, 1)] > ImageWidths[index]
    ensures ImageWidths[StepIndex(index, -1)] <= ImageWidths[index]
    ensures index > 0 ==> ImageWidths[StepIndex(index, -1)] < ImageWidths[index]
  {
    if index < |ImageWidths| - 1 {
      WidthsIncreasing(index, index + 1);
    }
    if index > 0 {
      WidthsIncreasing(index - 1, index);
    }
  }

  /** A step up below the top rung is undone by a step down, and a step down
      above the bottom rung by a step up. */
  lemma StepUndone(index: int)
    requires 0 <= index < |ImageWidths|
    ensures index < |ImageWidths| - 1 ==> StepIndex(StepIndex(index, 1), -1) == index
    ensures index > 0 ==> StepIndex(StepIndex(index, -1), 1) == index
  {
  }

  /** The controller's state, which the source keeps in namespace globals. */
  class Controller {
    var renderer: Caster?
    var index: int
    var width: int
    var image: Option<Image>
    var sceneChanged: bool

    /** The globals before init: rung 3, the width zero-initialised, no
        caster and no image. */
    constructor ()
      ensures renderer == null && index == InitialIndex && width == 0
      ensures image == None && !sceneChanged
    {
      renderer := null;
      index := InitialIndex;
      width := 0;
      image := None;
      sceneChanged := false;
    }

    /** update_resolution: move `step` rungs, clamped to the ladder, and size
        the caster's image to a square of the new width. */
    method UpdateResolution(step: int)
      requires renderer != null && renderer.Valid()
      modifies this, renderer
      ensures renderer == old(renderer) && image == old(image) && sceneChanged == old(sceneChanged)
      ensures index == StepIndex(old(index), step) && width == ImageWidths[index]
      ensures renderer.Valid() && renderer.width == width && renderer.height == width
      ensures renderer.shadowing == old(renderer.shadowing)
      ensures renderer.pixels == old(renderer.pixels) || fresh(renderer.pixels)
    {
      index := Max(Min(index + step, |ImageWidths| - 1), 0);
      width := ImageWidths[index];
      renderer.UpdateImageDimensions(width, width);
    }

    /** init: attach the caster, go back to rung 3 (a 200-pixel square) and
        render a first image. */
    method Init(caster: Caster)
      requires caster.Valid()
      modifies this, caster, caster.pixels
      ensures renderer == caster && index == InitialIndex && width == 200
      ensures caster.Valid() && caster.width == 200 && caster.height == 200
      ensures image == Some(Image(caster.pixels[..], 200, 200, 3, "Ray cast image"))
      ensures caster.pixels[..] == Frame(caster.geometry, caster.CurrentSettings(), 200, 200)
      ensures sceneChanged
    {
      renderer := caster;
      index := InitialIndex;
      UpdateResolution(0);
      var rendered := caster.Render();
      image := Some(rendered);
      sceneChanged := true;
    }

    /** The R key: one rung up with Shift, one rung down without, then a new
        image at the new size. */
    method ResolutionKey(shift: bool)
      requires renderer != null && renderer.Valid()
      modifies this, renderer, renderer.pixels
      ensures renderer == old(renderer) && renderer.Valid()
      ensures index == StepIndex(old(index), if shift then 1 else -1) && width == ImageWidths[index]
      ensures renderer.width == width && renderer.height == width
      ensures image == Some(Image(renderer.pixels[..], width, width, 3, "Ray cast image"))
      ensures renderer.pixels[..] == Frame(renderer.geometry, renderer.CurrentSettings(), width, width)
      ensures sceneChanged
    {
      if shift {
        UpdateResolution(1);
      } else {
        UpdateResolution(-1);
      }
      var rendered := renderer.Render();
      image := Some(rendered);
      sceneChanged := true;
    }
  }
}
