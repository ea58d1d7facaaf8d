# surface_plot in Dafny

A model of the state core of `script.js`, the single browser script of the
surface plot editor. The page shows two one-dimensional profiles, `y_x_data`
over the X samples and `y_z_data` over the Z samples. It also draws their
normalised outer product as a 3D surface. The user edits the profiles by
right-button dragging on a chart or by typing into a table. The grid size,
the domain and the axis titles are set in a form. Everything persists under
one key of the browser's store.

The model has the script's shape:

- `Sampling` covers the pure derivations `linspace` and `makeFunction`. It
  also holds the rule by which `generateInitialData` repairs a stale profile.
- `FieldKeys` holds the conversions between settings keys (`gridPoints`) and
  form-field ids (`grid-points`).
- `Config` has the settings record, `DEFAULTS`, the control lists, the grid
  clamp, and the way one control edit changes one setting.
- `Persistence` covers `saveState`, `loadState` and `resetToDefaults` over an
  abstract store: absent, unreadable, or a snapshot whose fields may each be
  missing.
- `Surface` covers `outerProduct`, the surface normalisation, the shared
  value range of `getLayouts`, and what `updateAllGraphs` hands to the
  charts.
- `Controller` is the page as one object, `SurfaceEditor`. Its fields are the
  settings, the sample coordinates, the two profile arrays (edited in place),
  the drag flag and the store. A ghost record holds what the charts were
  last given, and a ghost counter records the saves. Each event handler is a
  method whose postcondition gives the whole new state.
- `Scenarios` has two whole sessions on a fresh page, checked only through
  the handlers' contracts.

Inputs the browser supplies become parameters:

- a parsed number is `Option<real>`, with `None` for NaN;
- the hovered point is `Option<nat>`;
- the confirmation dialog's answer is a `bool`;
- the bell curve `exp(-u / (2 sigma^2))` of `makeFunction` is a function
  parameter `kernel`.

## Model

| member | source | states |
|---|---|---|
| Sampling.Linspace | script.js:28 | n samples (none for negative n); the i-th is start + (stop - start)/(n - 1) * i; for n >= 2 the first is start and the last is stop |
| Sampling.LinspaceUniform | script.js:28 | neighbouring samples are exactly (stop - start)/(n - 1) apart |
| Sampling.LinspaceIncreasing | script.js:28 | over an increasing domain the samples strictly increase (the script never checks the domain's order) |
| Sampling.LinspaceMirror | script.js:28 | samples at mirrored positions i and n-1-i add up to start + stop |
| Sampling.MakeProfile | script.js:30-34 | length-preserving; value i is HEIGHT times the kernel of the squared distance of coordinate i from the domain's midpoint |
| Sampling.DefaultProfileSymmetric | script.js:30-34 | over the sample grid the default profile is symmetric: values i and n-1-i agree |
| Sampling.ProfileEqualAtMirroredPoints | script.js:31-33 | two coordinates symmetric about the midpoint get the same profile value |
| Sampling.DefaultProfileBounded | script.js:30-34 | with a kernel valued in [0, 1] on the non-negative reals (as exp(-u / (2 sigma^2)) is), every default value lies in [0, HEIGHT], since the kernel only ever sees a square |
| Sampling.RepairProfile | script.js:73-78 | a profile whose length is gridPoints is kept; otherwise the generated one is taken; the result has gridPoints values when the generated one does |
| Sampling.RepairIdempotent | script.js:70-79 | repairing a repaired profile changes nothing, so a second `generateInitialData` is a no-op on the profiles |
| Sampling.LinspaceAsWritten | script.js:28 | with a fractional sample count, floor(n) samples spaced by (stop - start)/(n - 1) |
| Sampling.FractionalGridMissesStop | script.js:28 | with count 2.5 over [0, 10] the last of the 2 samples is not 10 |
| Sampling.RepairProfileAsWritten | script.js:73-78 | the length test against an unrounded grid size: a profile is kept only when its length equals gridPoints |
| Sampling.FractionalGridDropsEdits | script.js:73-78 | with a fractional grid size every existing profile is replaced by the generated one |
| FieldKeys.CamelToKebab | script.js:65 | the field id is at least as long as the key |
| FieldKeys.KebabToCamel | script.js:135 | the key is at most as long as the field id |
| FieldKeys.HyphenLetterAt | script.js:135 | the step is 2 exactly when the text starts with a hyphen followed by a lower-case letter (one match of `-([a-z])`), and 1 otherwise |
| FieldKeys.FieldIdHasNoUpper | script.js:65 | a field id has no capital letter |
| FieldKeys.CamelRoundTrip | script.js:135 | a key without hyphens converts to its field id and back to itself |
| FieldKeys.RoundTripFromKebab | script.js:162 | a field id converts to a key and back to itself exactly when it has no capital letter |
| FieldKeys.KebabRoundTrip | script.js:162 | a field id without capitals survives the trip to its key and back |
| FieldKeys.CamelToKebabConcat | script.js:65 | the key-to-id conversion works piece by piece: it distributes over concatenation |
| FieldKeys.LowerUnchanged | script.js:65 | a key without capitals is its own field id |
| FieldKeys.SingleCapitalKebab | script.js:65 | a key with one capital between two words without capitals is shown in the field with a hyphen and the lower-case letter in its place |
| FieldKeys.SingleCapitalFieldId | script.js:64-65 | a key with one capital between two lower-case words maps to the hyphenated id, and that id maps back to the key |
| Config.ClampGridPoints | script.js:143-147 | the result is in [2, 500]: the value itself when in range, 500 above it, 2 below it |
| Config.WithNumber | script.js:152 | writing a numeric setting leaves the three titles unchanged |
| Config.WithText | script.js:163 | writing a title leaves gridPoints, minVal and maxVal unchanged |
| Config.GridPointsControl | script.js:135 | `gridPoints` is shown in field `grid-points`, and a change of that field sets gridPoints and nothing else |
| Config.MinValControl | script.js:135 | `minVal` is shown in `min-val`, and a change of it sets minVal and nothing else |
| Config.MaxValControl | script.js:135 | `maxVal` is shown in `max-val`, and a change of it sets maxVal and nothing else |
| Config.GridEditWithinBounds | script.js:143-152 | after an accepted grid-size edit, gridPoints lies in [2, 500] |
| Config.TitleXControl | script.js:162-163 | `titleX` is shown in `title-x`, and an input there sets titleX and nothing else |
| Config.TitleYControl | script.js:162-163 | `titleY` is shown in `title-y`, and an input there sets titleY and nothing else |
| Config.TitleZControl | script.js:162-163 | `titleZ` is shown in `title-z`, and an input there sets titleZ and nothing else |
| Config.KeysMatchFieldIds | script.js:65 | each of the six settings keys converts to the form-field id in the same position and back: the three heavy controls, then the three title fields |
| Persistence.MergeOverDefaults | script.js:48 | every field present in the snapshot wins; every missing field takes its DEFAULTS value |
| Persistence.Save | script.js:38-41 | the snapshot holds every setting, so merging it over DEFAULTS gives back exactly the saved settings, and it holds both profiles |
| Persistence.Load | script.js:43-55 | an absent or unreadable store gives exactly DEFAULTS with null profiles; a readable one gives its snapshot merged over DEFAULTS and passes its profiles through |
| Persistence.ResetToDefaults | script.js:57-61 | the settings are DEFAULTS and both profiles are null, so the next `generateInitialData` regenerates both |
| Persistence.LoadAfterSave | script.js:38-50 | loading what was saved gives back the same settings and both profiles |
| Surface.OuterProduct | script.js:36 | one row per element of v1 and one column per element of v2; entry (i, j) is v1[i] * v2[j] |
| Surface.Normalized | script.js:103 | the shape is kept; every entry is divided by h |
| Surface.SurfaceOf | script.js:102-103 | one surface row per Z sample; its cells are stated by `SurfaceRow` and `SurfaceEntries` |
| Surface.SurfaceRow | script.js:102-103 | row i of the surface has one value per X sample, the j-th being yz[i] * yx[j] / HEIGHT |
| Surface.SurfaceEntries | script.js:102-103 | every row has one value per X sample, and cell (i, j) is yz[i] * yx[j] / HEIGHT |
| Surface.SurfaceIsScaledOuterProduct | script.js:102-103 | the surface equals outerProduct(y_z_data, y_x_data) with every value divided by HEIGHT |
| Surface.SurfaceWithinHeight | script.js:102-103 | when both profiles lie in [0, HEIGHT], so does every cell of the surface |
| Surface.SeqMinIsLeast | script.js:83 | `SeqMin` (the `Math.min` over both profiles) is no larger than any value and is one of the values |
| Surface.SeqMaxIsGreatest | script.js:84 | `SeqMax` (the `Math.max` over both profiles) is no smaller than any value and is one of the values |
| Surface.YRange | script.js:82-86 | a range exists exactly when the two profiles are not both empty |
| Surface.YRangeContainsProfiles | script.js:82-86 | every value of both profiles lies strictly inside the range; the range is [min - pad, max + pad] with pad a tenth of the span, or 1 when the span is 0 |
| Surface.GetLayouts | script.js:88-94 | the X chart, the Z chart and the 3D value axis share one axis titled titleY with that range; the X chart and 3D x-axis are titled titleX, the Z chart and 3D y-axis titleZ |
| Surface.Render | script.js:97-104 | the X and Z charts get the profiles themselves, the surface has one row per Z value, and the three charts share one value axis |
| Surface.RenderedFrame | script.js:97-104 | the charts get the profiles over their coordinates; the surface has one row per Z sample and one column per X sample holding yz[i] * yx[j] / HEIGHT; the shared value axis strictly contains every profile value |
| Controller.NewProfile | script.js:49-50 | a loaded profile becomes a fresh array with the same values; a missing one becomes null |
| Controller.SurfaceEditor.Init | script.js:211-214 | the page starts from the store (`ShowsStore`): settings as loaded, each profile kept when it fits the grid and regenerated otherwise, all drawn; no drag session, nothing saved |
| Controller.SurfaceEditor.Reload | script.js:212-214 | load then full redraw (`ShowsStore`): settings as loaded, both profiles repaired against the loaded ones, coordinates resampled, charts showing the result |
| Controller.SurfaceEditor.SaveState | script.js:38-41 | the store holds the current settings and both profiles; one more save |
| Controller.SurfaceEditor.LoadState | script.js:43-55 | settings and profiles as `Load` gives them; profiles are new, distinct arrays or null |
| Controller.SurfaceEditor.GenerateInitialData | script.js:70-79 | both coordinate lists equal linspace(minVal, maxVal, gridPoints); each profile has one value per sample, is kept (same array) when it had gridPoints values and is regenerated otherwise |
| Controller.SurfaceEditor.UpdateAllGraphs | script.js:97-105 | the charts show the current state |
| Controller.SurfaceEditor.FullRedraw | script.js:118-122 | repair as `GenerateInitialData`, then the charts show the result |
| Controller.SurfaceEditor.UpdateAllLayoutsAndSave | script.js:124-128 | the charts show the current state and it is saved exactly once |
| Controller.SurfaceEditor.OnHeavyControlChange | script.js:131-155 | another control, or input that does not parse, changes nothing and saves nothing; otherwise grid-points is clamped into [2, 500], that one setting is written, both profiles are regenerated as fresh arrays over the new grid, the result is drawn and saved once, and the drag flag is kept |
| Controller.SurfaceEditor.SetNumberAndRebuild | script.js:149-154 | the setting is written, both profiles are regenerated over the new grid, drawn and saved once |
| Controller.SurfaceEditor.Regenerate | script.js:149-153 | after dropping both profiles, a full redraw gives fresh default profiles over the current grid |
| Controller.SurfaceEditor.OnTitleInput | script.js:159-166 | another control changes nothing; a title control writes only that title, keeps coordinates and profile arrays, redraws and saves once |
| Controller.SurfaceEditor.SetTitleAndRedraw | script.js:163-165 | the title is written, profiles and coordinates are kept, the charts are redrawn and the state saved once |
| Controller.SurfaceEditor.OnMouseDown | script.js:184 | the drag flag is set by button 2 and kept as it was by any other button |
| Controller.SurfaceEditor.OnMouseUp | script.js:185-191 | button 2 during a drag clears the flag, redraws and saves exactly once; anything else changes nothing |
| Controller.SurfaceEditor.OnHover | script.js:195-203 | not dragging or no point: nothing changes. Dragging: exactly element `point` of the hovered profile becomes cursorY, the other profile is unchanged, only that chart's values are redrawn, and nothing is saved |
| Controller.SurfaceEditor.OnCellEdit | script.js:219-239 | a value that parses at an existing row writes exactly that element of that table's profile, keeps the other profile and the grid, redraws and saves once; anything else changes neither profile and saves nothing |
| Controller.SurfaceEditor.OnReset | script.js:168-173 | declined: nothing changes. Confirmed: the store is cleared and the page restarts from it, giving DEFAULTS, freshly generated profiles and no drag session |
| Scenarios.DragSession | script.js:184-203 | on a fresh page, dragging sample 12 of the X profile to 7.5 saves nothing before release; after release the store holds DEFAULTS and a 40-value X profile whose element 12 is 7.5 |
| Scenarios.OversizedGrid | script.js:136-154 | on a fresh page, entering 600 as grid size stores gridPoints 500 and two 500-value profiles |

## Left out

- Plotly (`Plotly.react`, `Plotly.restyle`, `Plotly.downloadImage`) is an external library. What the charts are given is a ghost `Frame`; a restyle is modelled as replacing the values of one chart's trace. Of the layouts only the axis titles and the shared value range are modelled: the chart headings (script.js:91-93), the margins and the other styling are left out.
- DOM and HTML are not modelled: table markup, `toFixed` formatting, the cursor style, the context-menu suppression, the Enter-to-blur key handler and `updateUIFromSettings` writing values into fields. Of that function only the key-to-id conversion is modelled.
- Writing a rejected or clamped value back into its form field or table cell changes only what is displayed, so it is not modelled.
- `localStorage`, `JSON.stringify` and `JSON.parse` are foreign calls. The store is an abstract value. An empty string, a parse failure and a parsed `null` all lead to `resetToDefaults` in the script, like `Absent` and `Malformed` here.
- Persistence.Snapshot: a snapshot is typed. Unknown keys, values of the wrong type, and profiles that are not arrays are not modelled. Neither is the script copying `y_x_data` and `y_z_data` into `settings` through the spread at script.js:48. Every key of DEFAULTS is always present, because settings are a record.
- Controller.SurfaceEditor.OnReset: `confirm` is a `bool` parameter. `window.location.reload` is modelled as clearing the store and rerunning load and full redraw on the same object. The ghost save counter carries over.
- The export buttons (script.js:175-182) only download images and are not modelled.
- Sampling.MakeProfile: `exp`, `log` and `sqrt` are not modelled. The bell curve is the parameter `kernel`, so only the shape of `makeFunction` is stated (its length, its centre, its symmetry).
- Numbers are exact reals. IEEE-754 rounding, NaN and the infinities are not modelled. In particular, a NaN spread falls back to padding 1 through `|| 1`; here the padding is 1 only for a zero spread.
- Sampling.Linspace: with n = 1 the script divides by zero: the step is NaN when start equals stop and an infinity otherwise, and the single sample `start + step * 0` is NaN either way. Here the step is 0 and the single sample is `start`. The form's clamp keeps the grid size at least 2, but a grid size read back from the store is not checked.
- Surface.YRange: with both profiles empty, the script builds a range from infinities. Here there is no range. Only the form's clamp keeps gridPoints at least 2: a stored gridPoints of 1, 0 or less is loaded as it is, and with 0 or less both profiles are empty.
- Config.WithNumber: a grid size is stored with its fractional part dropped. The script stores the value as typed; see the findings below.
- Controller.SurfaceEditor.OnHover: the hovered point must be a sample of the chart. The script writes `dataArray[pointIndex]` without a bounds check, and Plotly only reports existing points. The table cell that mirrors the hovered value is display only.
- FieldKeys.CamelToKebab: case conversion covers ASCII letters only. JavaScript's `toLowerCase` and `toUpperCase` cover all of Unicode, and the keys and ids are ASCII.
- The drag flag has no timeout, as in the script. A mouseup outside the window leaves a drag session open.

## Findings

| source | as written | input that shows it | evidently intended | confidence | as-written member | corrected member |
|---|---|---|---|---|---|---|
| script.js:28 | the grid size is clamped but never rounded (script.js:143-152), and `linspace` then makes floor(n) samples spaced by (stop - start)/(n - 1) | grid size 2.5 over [0, 10] gives samples 0 and 20/3, so the last sample misses `maxVal` | an integer sample count whose last sample is `maxVal` | medium, not executed | Sampling.FractionalGridMissesStop | Sampling.Linspace |
| script.js:73-78 | with a fractional `gridPoints`, no profile length equals it, so every page load (every `fullRedraw`) regenerates both profiles | grid size 40.5; an edited profile of 40 values is replaced by the default on the next load | an edited profile of the right length survives a reload | medium, not executed | Sampling.FractionalGridDropsEdits | Sampling.RepairIdempotent |
