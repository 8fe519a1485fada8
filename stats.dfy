/** The model catalog and the statistics map of `TrainingManager.models`, with
    the two operations on it as pure functions: the merge done when stats are
    loaded and the one-entry update done before they are saved. The class in
    module Training applies them in place. */
module Stats {

  /** One catalog entry: its tier and checkpoint file are catalog constants,
      `plays` and `successes` are the counters that are loaded and saved. */
  datatype ModelProfile = ModelProfile(difficulty: int, filename: string, plays: int, successes: int)

  type Models = map<string, ModelProfile>

  /** The shared `model_stats.pkl` file: missing, present but unreadable, or
      holding a whole pickled map. */
  datatype StatsFile = Absent | Unreadable | Stored(contents: Models)

  /** The three models the manager starts with, all counters at zero. */
  function Catalog(): (m: Models)
    ensures m.Keys == {"Guallabito", "Remmil", "Mickey"}
    ensures forall name | name in m :: m[name].plays == 0 && m[name].successes == 0
    ensures m["Guallabito"].difficulty == 1 && m["Remmil"].difficulty == 2 && m["Mickey"].difficulty == 3
    ensures forall a, b | a in m && b in m && a != b :: m[a].filename != m[b].filename
  {
    map[
      "Guallabito" := ModelProfile(1, "Guallabito_model.npy", 0, 0),
      "Remmil" := ModelProfile(2, "Remmil_model.npy", 0, 0),
      "Mickey" := ModelProfile(3, "Mickey_model.npy", 0, 0)]
  }

  /** `m` has the names of `base` with the same tiers and file names: only
      the counters may differ. */
  ghost predicate SameShape(m: Models, base: Models) {
    && m.Keys == base.Keys
    && forall name | name in m && name in base ::
         m[name].difficulty == base[name].difficulty && m[name].filename == base[name].filename
  }

  lemma SameShapeTransitive(a: Models, b: Models, c: Models)
    requires SameShape(a, b) && SameShape(b, c)
    ensures SameShape(a, c)
  {
  }

  /** Same names, tiers and file names as the catalog: counters may differ. */
  ghost predicate CatalogShaped(m: Models) {
    SameShape(m, Catalog())
  }

  /** The merge of `load_model_stats`: for every name already in `models` that
      the loaded map also has, take its `plays` and `successes`; nothing else. */
  function Merge(models: Models, loaded: Models): (r: Models)
    ensures r.Keys == models.Keys
    ensures forall name | name in models ::
      r[name].difficulty == models[name].difficulty && r[name].filename == models[name].filename
    ensures forall name | name in models && name in loaded ::
      r[name].plays == loaded[name].plays && r[name].successes == loaded[name].successes
    ensures forall name | name in models && name !in loaded :: r[name] == models[name]
    ensures SameShape(r, models)
  {
    map name | name in models ::
      if name in loaded then models[name].(plays := loaded[name].plays, successes := loaded[name].successes)
      else models[name]
  }

  /** The in-memory update of `save_model_stats`. An unknown name raises a
      KeyError that the source catches, so the map is then unchanged. */
  function WithCounters(models: Models, name: string, plays: int, successes: int): (r: Models)
    ensures r.Keys == models.Keys
    ensures name in models ==>
      r[name] == models[name].(plays := plays, successes := successes)
    ensures forall other | other in models && other != name :: r[other] == models[other]
    ensures name !in models ==> r == models
    ensures SameShape(r, models)
  {
    if name in models then models[name := models[name].(plays := plays, successes := successes)]
    else models
  }

  /** Loading keeps a catalog-shaped map catalog-shaped: no unknown name comes
      in and no tier or file name is overwritten. */
  lemma MergeKeepsCatalog(models: Models, loaded: Models)
    requires CatalogShaped(models)
    ensures CatalogShaped(Merge(models, loaded))
  {
    SameShapeTransitive(Merge(models, loaded), models, Catalog());
  }

  /** Saving a counter pair and loading the written map into any map that has
      the name gives that pair back. */
  lemma SaveThenLoad(models: Models, name: string, plays: int, successes: int, current: Models)
    requires name in models && name in current
    ensures var r := Merge(current, WithCounters(models, name, plays, successes));
      r[name].plays == plays && r[name].successes == successes
  {
  }

  /** Loading the same map twice is loading it once. */
  lemma MergeIdempotent(models: Models, loaded: Models)
    ensures Merge(Merge(models, loaded), loaded) == Merge(models, loaded)
  {
    var once := Merge(models, loaded);
    var twice := Merge(once, loaded);
    assert forall name | name in twice :: twice[name] == once[name];
  }
}
