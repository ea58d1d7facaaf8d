/**
 * The snapshot kept in the browser's key-value store under `surfacePlotState`
 * (script.js:38-61). The store is abstract: nothing, something that does not
 * parse, or a parsed snapshot whose fields may each be missing.
 */
module Persistence {
  import opened Wrappers
  import opened Config

  /** A parsed snapshot: the settings merged over `DEFAULTS`, plus the two profiles. */
  datatype Snapshot = Snapshot(
    gridPoints: Option<int>, minVal: Option<real>, maxVal: Option<real>,
    titleX: Option<string>, titleY: Option<string>, titleZ: Option<string>,
    yx: Option<seq<real>>, yz: Option<seq<real>>)

  /** What the store holds under the key. */
  datatype Stored = Absent | Malformed | Saved(snapshot: Snapshot)

  /** What a load hands back: the settings and the two profiles, `None` for `null`. */
  datatype Loaded = Loaded(settings: Settings, yx: Option<seq<real>>, yz: Option<seq<real>>)

  /** `saveState`: the settings spread together with both profiles. */
  function Save(s: Settings, yx: seq<real>, yz: seq<real>): (r: Stored)
    ensures r.Saved? && MergeOverDefaults(r.snapshot) == s
    ensures r.snapshot.yx == Some(yx) && r.snapshot.yz == Some(yz)
  {
    Saved(Snapshot(Some(s.gridPoints), Some(s.minVal), Some(s.maxVal),
                   Some(s.titleX), Some(s.titleY), Some(s.titleZ), Some(yx), Some(yz)))
  }

  /**
   * `{ ...DEFAULTS, ...savedState }`: every field the snapshot has wins, every
   * field it lacks keeps its default.
   */
  function MergeOverDefaults(snap: Snapshot): (r: Settings)
    ensures r.gridPoints == snap.gridPoints.GetOr(DEFAULTS.gridPoints)
    ensures r.minVal == snap.minVal.GetOr(DEFAULTS.minVal) && r.maxVal == snap.maxVal.GetOr(DEFAULTS.maxVal)
    ensures r.titleX == snap.titleX.GetOr(DEFAULTS.titleX)
    ensures r.titleY == snap.titleY.GetOr(DEFAULTS.titleY)
    ensures r.titleZ == snap.titleZ.GetOr(DEFAULTS.titleZ)
  {
    Settings(snap.gridPoints.GetOr(DEFAULTS.gridPoints),
             snap.minVal.GetOr(DEFAULTS.minVal), snap.maxVal.GetOr(DEFAULTS.maxVal),
             snap.titleX.GetOr(DEFAULTS.titleX), snap.titleY.GetOr(DEFAULTS.titleY),
             snap.titleZ.GetOr(DEFAULTS.titleZ))
  }

  /**
   * `loadState`: a missing or unreadable snapshot gives `DEFAULTS` with no
   * profiles (`resetToDefaults`); a readable one is merged over `DEFAULTS`
   * and its profiles are taken as they are.
   */
  function Load(stored: Stored): (r: Loaded)
    ensures !stored.Saved? ==> r == Loaded(DEFAULTS, None, None)
    ensures stored.Saved? ==> r.settings == MergeOverDefaults(stored.snapshot)
    ensures stored.Saved? ==> r.yx == stored.snapshot.yx && r.yz == stored.snapshot.yz
  {
    match stored
    case Saved(snap) => Loaded(MergeOverDefaults(snap), snap.yx, snap.yz)
    case _ => ResetToDefaults()
  }

  /** `resetToDefaults`: the default settings and no profiles. */
  function ResetToDefaults(): (r: Loaded)
    ensures r.settings == DEFAULTS && r.yx.None? && r.yz.None?
  {
    Loaded(DEFAULTS, None, None)
  }

  /** Loading what was saved gives back the same settings and both profiles. */
  lemma LoadAfterSave(s: Settings, yx: seq<real>, yz: seq<real>)
    ensures Load(Save(s, yx, yz)) == Loaded(s, Some(yx), Some(yz))
  {
  }
}
