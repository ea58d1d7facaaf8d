/**
 * The settings record, its defaults, the form controls that edit it and the
 * way an edit of one control changes one setting (script.js:2-13, 130-166).
 */
module Config {
  import opened FieldKeys

  const MAX_GRID_POINTS: real := 500.0
  const MIN_GRID_POINTS: real := 2.0

  /**
   * The settings. `gridPoints` is an integer here (the source keeps whatever
   * number was typed, see `WithNumber`).
   */
  datatype Settings = Settings(
    gridPoints: int, minVal: real, maxVal: real,
    titleX: string, titleY: string, titleZ: string)

  const DEFAULTS: Settings := Settings(40, 0.0, 10.0, "X", "Y", "Z")

  /** The settings keys, in the order of `DEFAULTS`. */
  const KEYS: seq<string> := ["gridPoints", "minVal", "maxVal", "titleX", "titleY", "titleZ"]

  /** Controls whose change rebuilds the grid and the profiles. */
  const HEAVY_CONTROLS: seq<string> := ["grid-points", "min-val", "max-val"]

  /** Controls whose change only relabels the charts. */
  const LIGHT_CONTROLS: seq<string> := ["title-x", "title-y", "title-z"]

  /** The field ids of the keys, in the same order: the heavy controls, then the light ones. */
  const FIELD_IDS: seq<string> := HEAVY_CONTROLS + LIGHT_CONTROLS

  /**
   * Each control edits the setting whose key, written in kebab case, is the
   * control's id (script.js:65), because converting the id back gives that key
   * (script.js:135, 162). One lemma per control.
   */
  lemma Spelled(p: string, c: char, lc: char, q: string, key: string, id: string)
    requires NoUpper(p) && NoUpper(q) && NoHyphen(p) && NoHyphen(q)
    requires IsUpper(c) && ToLower(c) == lc
    requires key == p + [c] + q && id == p + ['-', lc] + q
    ensures CamelToKebab(key) == id && KebabToCamel(id) == key
  {
    SingleCapitalFieldId(p, c, q);
  }

  /**
   * Clamp a parsed grid size: above 500 becomes 500, then below 2 becomes 2.
   */
  function ClampGridPoints(v: real): (r: real)
    ensures MIN_GRID_POINTS <= r <= MAX_GRID_POINTS
    ensures MIN_GRID_POINTS <= v <= MAX_GRID_POINTS ==> r == v
    ensures v > MAX_GRID_POINTS ==> r == MAX_GRID_POINTS
    ensures v < MIN_GRID_POINTS ==> r == MIN_GRID_POINTS
  {
    var v := if v > MAX_GRID_POINTS then MAX_GRID_POINTS else v;
    if v < MIN_GRID_POINTS then MIN_GRID_POINTS else v
  }

  /**
   * `settings[name] = value` for a number. The model keeps `gridPoints` an
   * integer, so it stores the whole part of the value. A name that is not a
   * numeric setting leaves the settings as they are.
   */
  function WithNumber(s: Settings, name: string, v: real): (r: Settings)
    ensures r.titleX == s.titleX && r.titleY == s.titleY && r.titleZ == s.titleZ
  {
    if name == "gridPoints" then s.(gridPoints := v.Floor)
    else if name == "minVal" then s.(minVal := v)
    else if name == "maxVal" then s.(maxVal := v)
    else s
  }

  /** `settings[name] = text` for a title; any other name leaves the settings as they are. */
  function WithText(s: Settings, name: string, text: string): (r: Settings)
    ensures r.gridPoints == s.gridPoints && r.minVal == s.minVal && r.maxVal == s.maxVal
  {
    if name == "titleX" then s.(titleX := text)
    else if name == "titleY" then s.(titleY := text)
    else if name == "titleZ" then s.(titleZ := text)
    else s
  }

  /** Editing `grid-points` sets `gridPoints`, and only it. */
  lemma GridPointsControl(s: Settings, v: real)
    ensures CamelToKebab("gridPoints") == "grid-points"
    ensures WithNumber(s, KebabToCamel("grid-points"), v) == s.(gridPoints := v.Floor)
  {
    GridPointsSpelled();
  }

  lemma GridPointsSpelled()
    ensures CamelToKebab("gridPoints") == "grid-points" && KebabToCamel("grid-points") == "gridPoints"
  {
    Spelled("grid", 'P', 'p', "oints", "gridPoints", "grid-points");
  }

  /** Editing `min-val` sets `minVal`, and only it. */
  lemma MinValControl(s: Settings, v: real)
    ensures CamelToKebab("minVal") == "min-val"
    ensures WithNumber(s, KebabToCamel("min-val"), v) == s.(minVal := v)
  {
    MinValSpelled();
  }

  lemma MinValSpelled()
    ensures CamelToKebab("minVal") == "min-val" && KebabToCamel("min-val") == "minVal"
  {
    Spelled("min", 'V', 'v', "al", "minVal", "min-val");
  }

  /** Editing `max-val` sets `maxVal`, and only it. */
  lemma MaxValControl(s: Settings, v: real)
    ensures CamelToKebab("maxVal") == "max-val"
    ensures WithNumber(s, KebabToCamel("max-val"), v) == s.(maxVal := v)
  {
    MaxValSpelled();
  }

  lemma MaxValSpelled()
    ensures CamelToKebab("maxVal") == "max-val" && KebabToCamel("max-val") == "maxVal"
  {
    Spelled("max", 'V', 'v', "al", "maxVal", "max-val");
  }

  /** An accepted grid-size edit leaves `gridPoints` within [2, 500]. */
  lemma GridEditWithinBounds(s: Settings, v: real)
    ensures 2 <= WithNumber(s, KebabToCamel("grid-points"), ClampGridPoints(v)).gridPoints <= 500
  {
    GridPointsControl(s, ClampGridPoints(v));
  }

  /** Editing `title-x` sets `titleX`, and only it. */
  lemma TitleXControl(s: Settings, text: string)
    ensures CamelToKebab("titleX") == "title-x"
    ensures WithText(s, KebabToCamel("title-x"), text) == s.(titleX := text)
  {
    TitleXSpelled();
  }

  lemma TitleXSpelled()
    ensures CamelToKebab("titleX") == "title-x" && KebabToCamel("title-x") == "titleX"
  {
    Spelled("title", 'X', 'x', "", "titleX", "title-x");
  }

  /** Editing `title-y` sets `titleY`, and only it. */
  lemma TitleYControl(s: Settings, text: string)
    ensures CamelToKebab("titleY") == "title-y"
    ensures WithText(s, KebabToCamel("title-y"), text) == s.(titleY := text)
  {
    TitleYSpelled();
  }

  lemma TitleYSpelled()
    ensures CamelToKebab("titleY") == "title-y" && KebabToCamel("title-y") == "titleY"
  {
    Spelled("title", 'Y', 'y', "", "titleY", "title-y");
  }

  /** Editing `title-z` sets `titleZ`, and only it. */
  lemma TitleZControl(s: Settings, text: string)
    ensures CamelToKebab("titleZ") == "title-z"
    ensures WithText(s, KebabToCamel("title-z"), text) == s.(titleZ := text)
  {
    TitleZSpelled();
  }

  lemma TitleZSpelled()
    ensures CamelToKebab("titleZ") == "title-z" && KebabToCamel("title-z") == "titleZ"
  {
    Spelled("title", 'Z', 'z', "", "titleZ", "title-z");
  }

  /** Each of the six keys and the field id in the same position convert into each other. */
  lemma KeysMatchFieldIds()
    ensures |KEYS| == |FIELD_IDS| == 6
    ensures forall i :: 0 <= i < |KEYS| ==>
      CamelToKebab(KEYS[i]) == FIELD_IDS[i] && KebabToCamel(FIELD_IDS[i]) == KEYS[i]
  {
    forall i | 0 <= i < |KEYS|
      ensures CamelToKebab(KEYS[i]) == FIELD_IDS[i] && KebabToCamel(FIELD_IDS[i]) == KEYS[i]
    {
      if i < |HEAVY_CONTROLS| {
        HeavyKeyMatches(i);
      } else {
        LightKeyMatches(i);
      }
    }
  }

  lemma HeavyKeyMatches(i: nat)
    requires i < |HEAVY_CONTROLS|
    ensures CamelToKebab(KEYS[i]) == FIELD_IDS[i] && KebabToCamel(FIELD_IDS[i]) == KEYS[i]
  {
    assert FIELD_IDS[i] == HEAVY_CONTROLS[i];
    if i == 0 { GridPointsSpelled(); }
    else if i == 1 { MinValSpelled(); }
    else { MaxValSpelled(); }
  }

  lemma LightKeyMatches(i: nat)
    requires |HEAVY_CONTROLS| <= i < |FIELD_IDS|
    ensures CamelToKebab(KEYS[i]) == FIELD_IDS[i] && KebabToCamel(FIELD_IDS[i]) == KEYS[i]
  {
    assert FIELD_IDS[i] == LIGHT_CONTROLS[i - 3];
    if i == 3 { TitleXSpelled(); }
    else if i == 4 { TitleYSpelled(); }
    else { TitleZSpelled(); }
  }
}
