/** The fixed difficulty catalog of `TrainingManager.get_difficulty_settings`. */
module Difficulty {
  import opened Results

  /** Environment parameters of one difficulty tier. */
  datatype Settings = Settings(width: int, height: int, initialEnergy: int, foodEnergy: int, foodCount: int)

  /** Looks a tier up. The source indexes a literal dictionary, so any key other
      than 1, 2 or 3 raises; that failure is `None` here. */
  function SettingsFor(tier: int): (r: Option<Settings>)
    ensures r.Some? <==> tier in {1, 2, 3}
    ensures r.Some? ==> r.value.width == r.value.height
    ensures r.Some? ==> 0 < r.value.initialEnergy <= 100 && 0 < r.value.foodEnergy
    ensures r.Some? ==> 0 < r.value.foodCount < r.value.width * r.value.height
  {
    match tier
    case 1 => Some(Settings(10, 10, 20, 15, 12))
    case 2 => Some(Settings(20, 20, 15, 10, 20))
    case 3 => Some(Settings(45, 45, 12, 8, 35))
    case _ => None
  }

  /** The three literal rows of the table. */
  lemma SettingsLiterals()
    ensures SettingsFor(1) == Some(Settings(10, 10, 20, 15, 12))
    ensures SettingsFor(2) == Some(Settings(20, 20, 15, 10, 20))
    ensures SettingsFor(3) == Some(Settings(45, 45, 12, 8, 35))
    ensures SettingsFor(0).None? && SettingsFor(4).None?
  {
  }

  /** A harder tier has a strictly larger maze and more food cells, but strictly
      less initial energy and a smaller gain per food. */
  lemma TiersOrdered(easier: int, harder: int)
    requires easier in {1, 2, 3} && harder in {1, 2, 3} && easier < harder
    ensures var e, h := SettingsFor(easier).value, SettingsFor(harder).value;
      && e.width < h.width && e.height < h.height
      && e.foodCount < h.foodCount
      && e.initialEnergy > h.initialEnergy && e.foodEnergy > h.foodEnergy
  {
  }
}
