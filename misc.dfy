// src/renderer/plugins/misc.rs: the system that flips the background
// between the two compute effects when Space is released.

module Misc {
  /** The index after one flip: the first effect becomes the second, anything else the first. */
  function Toggled(i: nat): (r: nat)
    ensures r <= 1
    ensures r == 1 <==> i == 0
  {
    if i == 0 then 1 else 0
  }

  /** From either effect, two flips come back to it; any other index is pulled back to the first. */
  lemma ToggleTwice(i: nat)
    ensures i <= 1 ==> Toggled(Toggled(i)) == i
    ensures i > 1 ==> Toggled(i) == 0 && Toggled(Toggled(i)) == 1
  {
  }

  /** The part of the renderer the system reads and writes: its background index. */
  class BackgroundSelector {
    var backgroundIndex: nat

    constructor (index: nat)
      ensures backgroundIndex == index
    {
      backgroundIndex := index;
    }
  }

  /**
   * `change_background_on_space`: when Space was released this frame the
   * index is read, flipped and written back; otherwise nothing changes.
   */
  method ChangeBackgroundOnSpace(justReleased: bool, renderer: BackgroundSelector)
    modifies renderer
    ensures justReleased ==> renderer.backgroundIndex == Toggled(old(renderer.backgroundIndex))
    ensures !justReleased ==> renderer.backgroundIndex == old(renderer.backgroundIndex)
  {
    if justReleased {
      var i := renderer.backgroundIndex;
      i := if i == 0 then 1 else 0;
      renderer.backgroundIndex := i;
    }
  }

  /** Releasing Space in two frames restores the effect that was showing. */
  method SpaceTwiceRestores(renderer: BackgroundSelector)
    requires renderer.backgroundIndex <= 1
    modifies renderer
    ensures renderer.backgroundIndex == old(renderer.backgroundIndex)
  {
    ChangeBackgroundOnSpace(true, renderer);
    ChangeBackgroundOnSpace(true, renderer);
  }
}
