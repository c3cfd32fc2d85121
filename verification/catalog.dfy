/** The markers the driver looks for, the threshold each lookup uses, and the
    difficulty setting that picks one of them. */
module Catalog {
  import opened Wrappers
  import Perception

  /** One template image per on-screen element the driver recognises. */
  datatype Marker =
    | Close | X | MainScreen
    | Workshop | Teams | SmacMoney | Select | Back
    | Campaign | RestorationOfEarth | OD8 | Hard | Insane | Battle | NotEnoughFuel
    | Speed | Auto | Victory | Abort | Continue | ClaimRewards | Ok2

  /** The configured difficulty of the running script. */
  const DIFFICULTY: string := "INSANE"

  /** The threshold every lookup of `m` passes to `find_image`: a stricter one
      for the AUTO toggle and the two difficulty buttons, the default otherwise. */
  function Threshold(m: Marker): (t: real)
    ensures 0.0 < t <= 1.0
    ensures t == Perception.DefaultThreshold <==> m !in {Auto, Hard, Insane}
    ensures t > Perception.DefaultThreshold <==> m in {Auto, Hard, Insane}
  {
    match m
    case Hard => 1.0
    case Insane => 0.95
    case Auto => 0.95
    case _ => Perception.DefaultThreshold
  }

  /** The two difficulties the script knows. */
  datatype Difficulty = HardMode | InsaneMode

  /** The difficulty the setting names, if it names one. */
  function DifficultyOf(setting: string): (r: Option<Difficulty>)
    ensures r == Some(HardMode) <==> setting == "HARD"
    ensures r == Some(InsaneMode) <==> setting == "INSANE"
  {
    if setting == "HARD" then Some(HardMode)
    else if setting == "INSANE" then Some(InsaneMode)
    else None
  }

  /** The button that selects a difficulty. */
  function ButtonOf(d: Difficulty): Marker {
    match d
    case HardMode => Hard
    case InsaneMode => Insane
  }

  /** HARD is looked for with threshold 1 and INSANE with 0.95. */
  lemma DifficultyThresholds()
    ensures Threshold(ButtonOf(HardMode)) == 1.0
    ensures Threshold(ButtonOf(InsaneMode)) == 0.95
  {
  }

  /** A lookup of `m` as the driver makes it: `find_image` with the marker's
      own threshold. A weaker match than that threshold is never reported. */
  function Lookup(m: Marker, fileExists: bool, out: Perception.MatchOutput): (r: Option<Perception.Point>)
    ensures r.Some? <==> fileExists && out.maxVal >= Threshold(m)
    ensures r.Some? ==> Perception.InRect(r.value, out.maxLoc, out.width, out.height) || out.width == 0 || out.height == 0
  {
    Perception.FindImage(fileExists, out, Threshold(m))
  }
}
