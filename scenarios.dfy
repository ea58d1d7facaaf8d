/**
 * Whole sessions on a fresh page, each checked only through the handlers'
 * contracts: what a user does and what ends up in the store.
 */
module Scenarios {
  import opened Wrappers
  import opened Sampling
  import opened FieldKeys
  import opened Config
  import opened Persistence
  import opened Controller

  /**
   * With nothing stored, a right-button drag that moves sample 12 of the X
   * profile to 7.5 saves nothing until the button is released, and then
   * saves exactly once: the default settings and the edited profile.
   */
  method DragSession(kernel: real -> real) returns (beforeRelease: Stored, afterRelease: Stored)
    ensures beforeRelease == Absent
    ensures Load(afterRelease).settings == DEFAULTS
    ensures Load(afterRelease).yx.Some? && |Load(afterRelease).yx.value| == 40
    ensures Load(afterRelease).yx.value[12] == 7.5
  {
    var page := new SurfaceEditor.Init(Absent, kernel);
    page.OnMouseDown(DRAG_BUTTON);
    page.OnHover(XSeries, Some(12), 7.5);
    beforeRelease := page.store;
    page.OnMouseUp(DRAG_BUTTON);
    afterRelease := page.store;
    assert page.saves == 1;
    LoadAfterSave(page.settings, page.yx[..], page.yz[..]);
  }

  /**
   * Typing 600 into the grid-size field of a fresh page stores 500 samples
   * per axis, and both profiles are regenerated at that length and saved.
   */
  method OversizedGrid(kernel: real -> real) returns (stored: Stored)
    ensures Load(stored).settings.gridPoints == 500
    ensures Load(stored).yx.Some? && |Load(stored).yx.value| == 500
    ensures Load(stored).yz.Some? && |Load(stored).yz.value| == 500
  {
    var page := new SurfaceEditor.Init(Absent, kernel);
    ghost var before := page.settings;
    GridPointsControl(before, 500.0);
    assert ClampGridPoints(600.0) == 500.0;
    assert HEAVY_CONTROLS[0] == "grid-points";
    page.OnHeavyControlChange("grid-points", Some(600.0));
    assert page.settings == before.(gridPoints := 500);
    stored := page.store;
    LoadAfterSave(page.settings, page.yx[..], page.yz[..]);
  }
}
