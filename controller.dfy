/**
 * The page's state and its event handlers (script.js:15-17, 38-79, 118-240):
 * one object holds the settings, the sample coordinates, the two profile
 * arrays, the drag flag and the persisted store, and every handler is a
 * guarded change of these.
 */
module Controller {
  import opened Wrappers
  import opened Sampling
  import opened FieldKeys
  import opened Config
  import opened Persistence
  import opened Surface

  /** The two profiles, each with its own chart and table. */
  datatype Series = XSeries | ZSeries

  /** The right mouse button, which drags values. */
  const DRAG_BUTTON: int := 2

  /** The values an array holds, `None` for `null`. */
  function Contents(a: array?<real>): (r: Option<seq<real>>)
    reads a
    ensures r.Some? <==> a != null
  {
    if a == null then None else Some(a[..])
  }

  /** A fresh array holding `p`, or `null` for no profile. */
  method NewProfile(p: Option<seq<real>>) returns (a: array?<real>)
    ensures Contents(a) == p
    ensures a != null ==> fresh(a)
  {
    if p.None? {
      a := null;
    } else {
      var s := p.value;
      a := new real[|s|](i requires 0 <= i < |s| => s[i]);
      assert a[..] == s;
    }
  }

  class SurfaceEditor {
    var settings: Settings
    /** `x_data` and `z_data`: the sample coordinates of the two axes. */
    var xs: seq<real>
    var zs: seq<real>
    /** `y_x_data` and `y_z_data`: the profiles, edited in place. */
    var yx: array?<real>
    var yz: array?<real>
    var dragging: bool
    /** The persisted store under `surfacePlotState`. */
    var store: Stored
    /** The bell of `makeFunction`, as a function of the squared distance from the centre. */
    const kernel: real -> real
    /** Number of snapshots written so far. */
    ghost var saves: nat
    /** What the charts were last given. */
    ghost var shown: Frame

    /**
     * Between events: both profiles exist, are distinct arrays, and have one
     * value per sample; the coordinates sample the current domain.
     */
    ghost predicate Valid()
      reads this, yx, yz
    {
      yx != null && yz != null && yx != yz
      && xs == Linspace(settings.minVal, settings.maxVal, settings.gridPoints)
      && zs == xs
      && yx.Length == |xs| && yz.Length == |zs|
    }

    /** The default profile over coordinates `coords` for the current domain. */
    function DefaultProfile(coords: seq<real>): seq<real>
      reads this
    {
      MakeProfile(coords, settings.minVal, settings.maxVal, kernel)
    }

    /** The profile array of a series. */
    function ProfileOf(series: Series): array?<real>
      reads this
    {
      if series == XSeries then yx else yz
    }

    /** What the charts show for the current state. */
    ghost function Current(): Frame
      reads this`settings, this`xs, this`zs, this`yx, this`yz, yx, yz
      requires yx != null && yz != null
    {
      Render(settings, xs, zs, yx[..], yz[..])
    }

    /**
     * The page as the store describes it: the loaded settings, each loaded
     * profile kept only when it has one value per sample of the loaded grid
     * (a generated one otherwise), and the charts showing that state.
     */
    ghost predicate ShowsStore()
      reads this, yx, yz
    {
      && Valid()
      && settings == Load(store).settings
      && yx[..] == RepairProfile(Load(store).yx, settings.gridPoints, DefaultProfile(xs))
      && yz[..] == RepairProfile(Load(store).yz, settings.gridPoints, DefaultProfile(zs))
      && shown == Current()
    }

    /**
     * `init`: load the stored state, then rebuild coordinates and profiles and
     * draw. Nothing is saved.
     */
    constructor Init(stored: Stored, kernel: real -> real)
      ensures this.kernel == kernel && store == stored && !dragging && saves == 0
      ensures ShowsStore() && fresh(yx) && fresh(yz)
    {
      this.kernel := kernel;
      store := stored;
      dragging := false;
      saves := 0;
      new;
      Reload();
    }

    /**
     * `loadState()` then `fullRedraw()`: the page as the store describes it,
     * each stored profile kept only when it fits the stored grid.
     */
    method Reload()
      modifies this`settings, this`xs, this`zs, this`yx, this`yz, this`shown
      ensures ShowsStore() && fresh(yx) && fresh(yz)
    {
      LoadState();
      FullRedraw();
    }

    /** `saveState`: overwrite the store with the current settings and profiles. */
    method SaveState()
      requires yx != null && yz != null
      modifies this`store, this`saves
      ensures store == Save(settings, yx[..], yz[..])
      ensures saves == old(saves) + 1
    {
      store := Save(settings, yx[..], yz[..]);
      saves := saves + 1;
    }

    /** `loadState`: settings and profiles from the store; profiles are new arrays. */
    method LoadState()
      modifies this`settings, this`yx, this`yz
      ensures settings == Load(store).settings
      ensures Contents(yx) == Load(store).yx && Contents(yz) == Load(store).yz
      ensures yx != null ==> fresh(yx)
      ensures yz != null ==> fresh(yz)
      ensures yx == null || yz == null || yx != yz
    {
      var loaded := Load(store);
      settings := loaded.settings;
      yx := NewProfile(loaded.yx);
      yz := NewProfile(loaded.yz);
    }

    /**
     * `generateInitialData`: resample both axes, and regenerate a profile only
     * when it is missing or its length is not `gridPoints`; a kept profile is
     * the same array.
     */
    method GenerateInitialData()
      requires yx == null || yz == null || yx != yz
      modifies this`xs, this`zs, this`yx, this`yz
      ensures Valid()
      ensures yx[..] == RepairProfile(old(Contents(yx)), settings.gridPoints, DefaultProfile(xs))
      ensures yz[..] == RepairProfile(old(Contents(yz)), settings.gridPoints, DefaultProfile(zs))
      ensures yx == old(yx) || fresh(yx)
      ensures yz == old(yz) || fresh(yz)
      ensures old(yx) != null && old(yx).Length == settings.gridPoints ==> yx == old(yx)
      ensures old(yz) != null && old(yz).Length == settings.gridPoints ==> yz == old(yz)
    {
      xs := Linspace(settings.minVal, settings.maxVal, settings.gridPoints);
      zs := Linspace(settings.minVal, settings.maxVal, settings.gridPoints);
      if yx == null || yx.Length != settings.gridPoints {
        yx := NewProfile(Some(DefaultProfile(xs)));
      }
      if yz == null || yz.Length != settings.gridPoints {
        yz := NewProfile(Some(DefaultProfile(zs)));
      }
    }

    /** `updateAllGraphs` (with `renderTables`): hand the current state to the charts. */
    method UpdateAllGraphs()
      requires yx != null && yz != null
      modifies this`shown
      ensures shown == Current()
    {
      shown := Current();
    }

    /** `fullRedraw`: repair the profiles, then draw. */
    method FullRedraw()
      requires yx == null || yz == null || yx != yz
      modifies this`xs, this`zs, this`yx, this`yz, this`shown
      ensures Valid() && shown == Current()
      ensures yx[..] == RepairProfile(old(Contents(yx)), settings.gridPoints, DefaultProfile(xs))
      ensures yz[..] == RepairProfile(old(Contents(yz)), settings.gridPoints, DefaultProfile(zs))
      ensures yx == old(yx) || fresh(yx)
      ensures yz == old(yz) || fresh(yz)
      ensures old(yx) != null && old(yx).Length == settings.gridPoints ==> yx == old(yx)
      ensures old(yz) != null && old(yz).Length == settings.gridPoints ==> yz == old(yz)
    {
      GenerateInitialData();
      UpdateAllGraphs();
    }

    /** `updateAllLayoutsAndSave`: draw, then save. */
    method UpdateAllLayoutsAndSave()
      requires yx != null && yz != null
      modifies this`shown, this`store, this`saves
      ensures shown == Current()
      ensures store == Save(settings, yx[..], yz[..]) && saves == old(saves) + 1
    {
      UpdateAllGraphs();
      SaveState();
    }

    /**
     * A change of `grid-points`, `min-val` or `max-val`. Input that does not
     * parse changes nothing (the field is only reset on screen). Otherwise the
     * grid size is clamped into [2, 500], the setting is stored, both
     * profiles are dropped and regenerated over the new grid, and the state is
     * saved once.
     */
    method OnHeavyControlChange(fieldId: string, parsed: Option<real>)
      requires Valid()
      modifies this
      ensures Valid()
      ensures fieldId !in HEAVY_CONTROLS || parsed.None? ==> unchanged(this)
      ensures fieldId in HEAVY_CONTROLS && parsed.Some? ==>
                var v := if fieldId == "grid-points" then ClampGridPoints(parsed.value) else parsed.value;
                && settings == WithNumber(old(settings), KebabToCamel(fieldId), v)
                && fresh(yx) && fresh(yz)
                && yx[..] == DefaultProfile(xs) && yz[..] == DefaultProfile(zs)
                && store == Save(settings, yx[..], yz[..]) && saves == old(saves) + 1
                && shown == Current() && dragging == old(dragging)
    {
      if fieldId !in HEAVY_CONTROLS {
        return;
      }
      var name := KebabToCamel(fieldId);
      if parsed.None? {
        return;
      }
      var value := parsed.value;
      if fieldId == "grid-points" {
        value := ClampGridPoints(value);
      }
      SetNumberAndRebuild(name, value);
    }

    /**
     * The accepted part of a heavy change: drop both profiles, set the
     * setting, regenerate and draw, then save.
     */
    method SetNumberAndRebuild(name: string, value: real)
      requires Valid()
      modifies this
      ensures Valid()
      ensures settings == WithNumber(old(settings), name, value)
      ensures fresh(yx) && fresh(yz)
      ensures yx[..] == DefaultProfile(xs) && yz[..] == DefaultProfile(zs)
      ensures store == Save(settings, yx[..], yz[..]) && saves == old(saves) + 1
      ensures shown == Current() && dragging == old(dragging)
    {
      settings := WithNumber(settings, name, value);
      Regenerate();
      SaveState();
    }

    /** Drop both profiles and `fullRedraw`: both are regenerated over the current grid. */
    method Regenerate()
      modifies this`xs, this`zs, this`yx, this`yz, this`shown
      ensures Valid() && fresh(yx) && fresh(yz)
      ensures yx[..] == DefaultProfile(xs) && yz[..] == DefaultProfile(zs)
      ensures shown == Current()
    {
      yx := null;
      yz := null;
      FullRedraw();
    }

    /** A change of `title-x`, `title-y` or `title-z`: relabel, redraw and save; profiles stay. */
    method OnTitleInput(fieldId: string, text: string)
      requires Valid()
      modifies this
      ensures Valid()
      ensures fieldId !in LIGHT_CONTROLS ==> unchanged(this)
      ensures fieldId in LIGHT_CONTROLS ==>
                && settings == WithText(old(settings), KebabToCamel(fieldId), text)
                && xs == old(xs) && zs == old(zs) && yx == old(yx) && yz == old(yz)
                && store == Save(settings, yx[..], yz[..]) && saves == old(saves) + 1
                && shown == Current() && dragging == old(dragging)
    {
      if fieldId !in LIGHT_CONTROLS {
        return;
      }
      var name := KebabToCamel(fieldId);
      SetTitleAndRedraw(name, text);
    }

    /** The accepted part of a title change: set the title, draw and save. */
    method SetTitleAndRedraw(name: string, text: string)
      requires Valid()
      modifies this
      ensures Valid()
      ensures settings == WithText(old(settings), name, text)
      ensures xs == old(xs) && zs == old(zs) && yx == old(yx) && yz == old(yz)
      ensures store == Save(settings, yx[..], yz[..]) && saves == old(saves) + 1
      ensures shown == Current() && dragging == old(dragging)
    {
      settings := WithText(settings, name, text);
      UpdateAllLayoutsAndSave();
    }

    /** Mouse down: the right button starts a drag session; other buttons do nothing. */
    method OnMouseDown(button: int)
      modifies this`dragging
      ensures dragging == (old(dragging) || button == DRAG_BUTTON)
    {
      if button == DRAG_BUTTON {
        dragging := true;
      }
    }

    /** Mouse up: the right button ends an open drag session, redrawing and saving once. */
    method OnMouseUp(button: int)
      requires Valid()
      modifies this`dragging, this`shown, this`store, this`saves
      ensures Valid()
      ensures !(button == DRAG_BUTTON && old(dragging)) ==> unchanged(this)
      ensures button == DRAG_BUTTON && old(dragging) ==>
                && !dragging && shown == Current()
                && store == Save(settings, yx[..], yz[..]) && saves == old(saves) + 1
    {
      if button == DRAG_BUTTON && dragging {
        dragging := false;
        UpdateAllLayoutsAndSave();
      }
    }

    /**
     * Hover over a profile chart at sample `point` with the cursor at height
     * `cursorY`. While dragging, that one value of the hovered profile becomes
     * `cursorY` and only that chart's values are redrawn; nothing is saved.
     */
    method OnHover(series: Series, point: Option<nat>, cursorY: real)
      requires Valid()
      requires point.Some? ==> point.value < |xs|
      modifies yx, yz, this`shown
      ensures Valid()
      ensures store == old(store) && saves == old(saves)
      ensures !dragging || point.None? ==>
                yx[..] == old(yx[..]) && yz[..] == old(yz[..]) && shown == old(shown)
      ensures dragging && point.Some? && series == XSeries ==>
                && yx[..] == old(yx[..])[point.value := cursorY] && yz[..] == old(yz[..])
                && shown == old(shown).(plotX := old(shown).plotX.(y := yx[..]))
      ensures dragging && point.Some? && series == ZSeries ==>
                && yz[..] == old(yz[..])[point.value := cursorY] && yx[..] == old(yx[..])
                && shown == old(shown).(plotZ := old(shown).plotZ.(y := yz[..]))
    {
      if !dragging || point.None? {
        return;
      }
      var i := point.value;
      if series == XSeries {
        yx[i] := cursorY;
        shown := shown.(plotX := shown.plotX.(y := yx[..]));
      } else {
        yz[i] := cursorY;
        shown := shown.(plotZ := shown.plotZ.(y := yz[..]));
      }
    }

    /**
     * An edited cell of a profile table. A value that parses, at a row that
     * exists, is written into that profile and the state is redrawn and
     * saved, the other profile and the grid untouched; anything else changes
     * nothing (the cell is only reset on screen).
     */
    method OnCellEdit(series: Series, index: int, parsed: Option<real>)
      requires Valid()
      modifies yx, yz, this`shown, this`store, this`saves
      ensures Valid()
      ensures !(parsed.Some? && 0 <= index < |xs|) ==>
                && yx[..] == old(yx[..]) && yz[..] == old(yz[..])
                && shown == old(shown) && store == old(store) && saves == old(saves)
      ensures parsed.Some? && 0 <= index < |xs| ==>
                && (series == XSeries ==> yx[..] == old(yx[..])[index := parsed.value] && yz[..] == old(yz[..]))
                && (series == ZSeries ==> yz[..] == old(yz[..])[index := parsed.value] && yx[..] == old(yx[..]))
                && shown == Current()
                && store == Save(settings, yx[..], yz[..]) && saves == old(saves) + 1
    {
      var profile := ProfileOf(series);
      if parsed.Some? && 0 <= index < profile.Length {
        profile[index] := parsed.value;
        UpdateAllLayoutsAndSave();
      }
    }

    /**
     * The reset button: once confirmed, the store is cleared and the page
     * starts again from it, which gives the default settings with freshly
     * generated profiles and no drag session.
     */
    method OnReset(confirmed: bool)
      requires Valid()
      modifies this
      ensures Valid()
      ensures !confirmed ==> unchanged(this)
      ensures confirmed ==>
                && store == Absent && settings == DEFAULTS && !dragging
                && fresh(yx) && fresh(yz)
                && yx[..] == DefaultProfile(xs) && yz[..] == DefaultProfile(zs)
                && shown == Current() && saves == old(saves)
    {
      if !confirmed {
        return;
      }
      store := Absent;
      dragging := false;
      Reload();
    }
  }
}
