/** `TrainingManager`: loading and saving the stats map in place, and the
    episode loop of `train_model` with its run-level counters, the checkpoint
    trigger and the final save. Wall-clock readings and the success of each
    checkpoint write are inputs, one `EpisodeEnv` per episode. */
module Training {
  import opened Results
  import opened Difficulty
  import opened Episodes
  import opened Stats

  /** Seconds since the last checkpoint after which the next episode saves. */
  const CheckpointInterval := 1800
  /** Every episode index that is a positive multiple of this saves. */
  const CheckpointEvery := 100

  /** The periodic checkpoint condition, evaluated after each episode.
      Episode 0, and any index below 100, saves only by time; a positive
      multiple of 100 always saves; within the interval only the count fires. */
  function CheckpointDue(now: int, lastSave: int, episode: nat): (due: bool)
    ensures now - lastSave > CheckpointInterval ==> due
    ensures episode < CheckpointEvery ==> (due <==> now - lastSave > CheckpointInterval)
    ensures episode > 0 && episode % CheckpointEvery == 0 ==> due
    ensures now - lastSave <= CheckpointInterval ==>
      (due <==> episode > 0 && episode % CheckpointEvery == 0)
  {
    now - lastSave > CheckpointInterval || (episode % CheckpointEvery == 0 && episode > 0)
  }

  /** What the outside world supplies to one episode: the mouse's random start
      cell, the collaborators' answers to each step, the clock reading after the
      episode, and whether the agent's save and the stats write succeed if a
      checkpoint is taken. */
  datatype EpisodeEnv = EpisodeEnv(
    start: Pos, responses: seq<StepInput>, clock: int, agentSaveOk: bool, statsWriteOk: bool)

  /** Every episode has an answer for each of its possible steps. */
  ghost predicate WellFormed(envs: seq<EpisodeEnv>) {
    forall i | 0 <= i < |envs| :: MaxStepsPerEpisode <= |envs[i].responses|
  }

  /** The in-memory stats map together with the shared stats file. */
  datatype Store = Store(models: Models, file: StatsFile)

  /** The stats a manager holds after loading `file` into `models`. */
  function LoadStats(models: Models, file: StatsFile): (r: Models)
    ensures r.Keys == models.Keys
    ensures !file.Stored? ==> r == models
    ensures file.Stored? ==> r == Merge(models, file.contents)
  {
    match file
    case Stored(loaded) => Merge(models, loaded)
    case _ => models
  }

  /** `save_model_stats`: update one entry, then write the whole map. An
      unknown name fails before anything changes; a failed write leaves the
      file as it was. */
  function SaveStats(st: Store, name: string, plays: int, successes: int, writeOk: bool): (r: Store)
    ensures r.models == WithCounters(st.models, name, plays, successes)
    ensures r.file == if name in st.models && writeOk then Stored(r.models) else st.file
  {
    if name in st.models then
      var models := WithCounters(st.models, name, plays, successes);
      Store(models, if writeOk then Stored(models) else st.file)
    else st
  }

  /** The lost update of the shared stats file. Two managers start from the
      same snapshot of the map. The first saves model `a` and writes its whole
      map to the file; the second then saves model `b` and writes its whole
      map over it. The file ends up with `b`'s new counters but `a`'s counters
      from the snapshot: the first save is gone. */
  lemma LaterWriteRevertsOtherModel(
    snapshot: Models, file: StatsFile, a: string, pa: int, sa: int, b: string, pb: int, sb: int)
    requires a in snapshot && b in snapshot && a != b
    ensures var first := SaveStats(Store(snapshot, file), a, pa, sa, true);
            var second := SaveStats(Store(snapshot, first.file), b, pb, sb, true);
      && first.file.Stored? && first.file.contents[a].plays == pa && first.file.contents[a].successes == sa
      && second.file.Stored? && second.file.contents[b].plays == pb && second.file.contents[b].successes == sb
      && second.file.contents[a] == snapshot[a]
  {
  }

  /** The variables `train_model` keeps across episodes, and the store they
      write to. `bestReward` is `None` while it is still minus infinity;
      `fired` lists the episodes whose checkpoint trigger held. */
  datatype RunState = RunState(
    totalEpisodes: nat, successes: nat, bestReward: Option<int>, lastSaveTime: int,
    fired: seq<nat>, learnCalls: nat, explorationUpdates: nat, store: Store)

  /** The episode that `env` drives in a tier with settings `st`. */
  function EpisodeOf(st: Settings, env: EpisodeEnv): (r: EpisodeState)
    requires MaxStepsPerEpisode <= |env.responses|
    ensures 0 < r.steps <= MaxStepsPerEpisode
    ensures r.escapes <= 1
  {
    EpisodeFacts(st.initialEnergy, st.foodEnergy, env.start, env.responses, MaxStepsPerEpisode);
    Episode(st.initialEnergy, st.foodEnergy, env.start, env.responses, MaxStepsPerEpisode)
  }

  /** The running maximum of episode rewards, `None` standing for minus infinity. */
  function Improve(best: Option<int>, reward: int): (r: Option<int>)
    ensures r.Some? && reward <= r.value
    ensures best.Some? ==> best.value <= r.value
    ensures r.value == reward || r == best
  {
    if best.None? || reward > best.value then Some(reward) else best
  }

  /** Everything one episode changes after its step loop: the counters, the
      best reward, and a checkpoint when it is due. */
  function AfterEpisode(name: string, st: Settings, prev: RunState, episode: nat, env: EpisodeEnv): (r: RunState)
    requires MaxStepsPerEpisode <= |env.responses|
    ensures r.totalEpisodes == episode + 1 && r.explorationUpdates == prev.explorationUpdates + 1
    ensures r.successes == prev.successes +
      (if exists j | 0 <= j < EpisodeOf(st, env).steps :: env.responses[j].outcome.escaped then 1 else 0)
    ensures prev.learnCalls < r.learnCalls <= prev.learnCalls + MaxStepsPerEpisode
    ensures |r.fired| <= |prev.fired| + 1
    ensures r.lastSaveTime == prev.lastSaveTime || (r.lastSaveTime == env.clock && env.agentSaveOk)
    ensures SameShape(r.store.models, prev.store.models)
    ensures forall other | other in prev.store.models && other != name ::
      r.store.models[other] == prev.store.models[other]
  {
    EpisodeFacts(st.initialEnergy, st.foodEnergy, env.start, env.responses, MaxStepsPerEpisode);
    var r := EpisodeOf(st, env);
    var total := episode + 1;
    var successes := prev.successes + r.escapes;
    var best := Improve(prev.bestReward, r.totalReward);
    var due := CheckpointDue(env.clock, prev.lastSaveTime, episode);
    var saved := due && env.agentSaveOk;
    RunState(
      total, successes, best,
      if saved then env.clock else prev.lastSaveTime,
      prev.fired + (if due then [episode] else []),
      prev.learnCalls + r.steps, prev.explorationUpdates + 1,
      if saved then SaveStats(prev.store, name, total, successes, env.statsWriteOk) else prev.store)
  }

  /** The state of a run of model `name` after the episodes `envs`. */
  function Run(name: string, st: Settings, startTime: int, store0: Store, envs: seq<EpisodeEnv>): (r: RunState)
    requires WellFormed(envs)
    ensures r.totalEpisodes == |envs| == r.explorationUpdates
    ensures r.successes <= |envs| && |r.fired| <= |envs|
    decreases |envs|
  {
    if envs == [] then RunState(0, 0, None, startTime, [], 0, 0, store0)
    else
      var k := |envs| - 1;
      AfterEpisode(name, st, Run(name, st, startTime, store0, envs[..k]), k, envs[k])
  }

  /** `AfterEpisode` written out in terms of an episode result the caller
      already has. This only unfolds the definition; it is a proof step of
      `TrainEpisode`, not a property of its own. */
  lemma EpisodeBookkeeping(name: string, st: Settings, prev: RunState, episode: nat, env: EpisodeEnv, result: EpisodeState)
    requires MaxStepsPerEpisode <= |env.responses|
    requires result == EpisodeOf(st, env)
    ensures var due := CheckpointDue(env.clock, prev.lastSaveTime, episode);
            var saved := due && env.agentSaveOk;
      AfterEpisode(name, st, prev, episode, env)
      == RunState(episode + 1, prev.successes + result.escapes, Improve(prev.bestReward, result.totalReward),
                  if saved then env.clock else prev.lastSaveTime,
                  prev.fired + (if due then [episode] else []),
                  prev.learnCalls + result.steps, prev.explorationUpdates + 1,
                  if saved then SaveStats(prev.store, name, episode + 1, prev.successes + result.escapes, env.statsWriteOk)
                  else prev.store)
  {
  }

  /** One more episode extends a run by `AfterEpisode`. */
  lemma RunExtends(name: string, st: Settings, startTime: int, store0: Store, envs: seq<EpisodeEnv>, i: nat)
    requires WellFormed(envs) && i < |envs|
    ensures WellFormed(envs[..i]) && WellFormed(envs[..i + 1])
    ensures Run(name, st, startTime, store0, envs[..i + 1])
         == AfterEpisode(name, st, Run(name, st, startTime, store0, envs[..i]), i, envs[i])
  {
    assert envs[..i + 1][..i] == envs[..i];
  }

  /** The unconditional save after the episode loop; it is skipped only when
      the agent's own save raises first. */
  function FinalSave(run: RunState, name: string, agentSaveOk: bool, writeOk: bool): (r: Store)
    ensures !agentSaveOk ==> r == run.store
    ensures SameShape(r.models, run.store.models)
    ensures agentSaveOk && name in run.store.models ==>
      r.models[name].plays == run.totalEpisodes && r.models[name].successes == run.successes
    ensures forall other | other in run.store.models && other != name :: r.models[other] == run.store.models[other]
    ensures agentSaveOk && name in run.store.models && writeOk ==> r.file == Stored(r.models)
    ensures agentSaveOk && !(name in run.store.models && writeOk) ==> r.file == run.store.file
  {
    if agentSaveOk then SaveStats(run.store, name, run.totalEpisodes, run.successes, writeOk)
    else run.store
  }

  /** Run-level counters beyond those of `Run`: every episode calls `learn`
      at least once and at most 1000 times, and the store changes only in
      the trained model's counters. */
  lemma {:induction false} RunCounters(name: string, st: Settings, startTime: int, store0: Store, envs: seq<EpisodeEnv>)
    requires WellFormed(envs)
    ensures var run := Run(name, st, startTime, store0, envs);
      && |envs| <= run.learnCalls <= MaxStepsPerEpisode * |envs|
      && SameShape(run.store.models, store0.models)
      && (forall other | other in store0.models && other != name ::
            run.store.models[other] == store0.models[other])
    decreases |envs|
  {
    if envs != [] {
      var k := |envs| - 1;
      RunCounters(name, st, startTime, store0, envs[..k]);
      SameShapeTransitive(Run(name, st, startTime, store0, envs).store.models,
                          Run(name, st, startTime, store0, envs[..k]).store.models, store0.models);
    }
  }

  /** One episode moves `bestReward` by `Improve` with that episode's reward.
      This only unfolds `Run` and `AfterEpisode` once; it is a proof step of
      `BestRewardIsMax`, not a property of its own. */
  lemma BestRewardStep(name: string, st: Settings, startTime: int, store0: Store, envs: seq<EpisodeEnv>)
    requires WellFormed(envs) && envs != []
    ensures WellFormed(envs[..|envs| - 1])
    ensures Run(name, st, startTime, store0, envs).bestReward
         == Improve(Run(name, st, startTime, store0, envs[..|envs| - 1]).bestReward,
                    EpisodeOf(st, envs[|envs| - 1]).totalReward)
  {
  }

  /** `bestReward` is the largest episode reward seen so far, and minus
      infinity only before the first episode. */
  lemma {:induction false} BestRewardIsMax(name: string, st: Settings, startTime: int, store0: Store, envs: seq<EpisodeEnv>)
    requires WellFormed(envs)
    ensures var best := Run(name, st, startTime, store0, envs).bestReward;
      && (best.None? <==> envs == [])
      && (forall i | 0 <= i < |envs| :: EpisodeOf(st, envs[i]).totalReward <= best.value)
      && (envs != [] ==> exists i | 0 <= i < |envs| :: EpisodeOf(st, envs[i]).totalReward == best.value)
    decreases |envs|
  {
    if envs != [] {
      var k := |envs| - 1;
      var prefix := envs[..k];
      BestRewardIsMax(name, st, startTime, store0, prefix);
      BestRewardStep(name, st, startTime, store0, envs);
      var oldBest := Run(name, st, startTime, store0, prefix).bestReward;
      var reward := EpisodeOf(st, envs[k]).totalReward;
      var best := Run(name, st, startTime, store0, envs).bestReward;
      forall i | 0 <= i < |envs|
        ensures EpisodeOf(st, envs[i]).totalReward <= best.value
      {
        if i < k {
          assert envs[i] == prefix[i];
        }
      }
      if best.value != reward {
        var j :| 0 <= j < k && EpisodeOf(st, prefix[j]).totalReward == oldBest.value;
        assert envs[j] == prefix[j];
      }
    }
  }

  /** Episode `i` and the episodes before it are the same in a longer prefix. */
  lemma PrefixOfPrefix(envs: seq<EpisodeEnv>, k: nat, i: nat)
    requires i < k <= |envs|
    ensures envs[..k][..i] == envs[..i] && envs[..k][i] == envs[i]
  {
  }

  /** The best reward never decreases from one episode to the next. */
  lemma BestRewardMonotone(name: string, st: Settings, startTime: int, store0: Store, envs: seq<EpisodeEnv>, k: nat)
    requires WellFormed(envs) && 0 < k <= |envs|
    ensures WellFormed(envs[..k])
    ensures Run(name, st, startTime, store0, envs[..k]).bestReward.value
         <= Run(name, st, startTime, store0, envs).bestReward.value
  {
    var prefix := envs[..k];
    BestRewardIsMax(name, st, startTime, store0, prefix);
    BestRewardIsMax(name, st, startTime, store0, envs);
    var i :| 0 <= i < k && EpisodeOf(st, prefix[i]).totalReward == Run(name, st, startTime, store0, prefix).bestReward.value;
    PrefixOfPrefix(envs, k, i);
  }

  /** The checkpoint of episode `i` fires exactly when the trigger holds for
      that episode's clock reading and the save time left by episodes before it. */
  lemma {:induction false} CheckpointFiresIff(name: string, st: Settings, startTime: int, store0: Store, envs: seq<EpisodeEnv>, i: nat)
    requires WellFormed(envs) && i < |envs|
    ensures WellFormed(envs[..i])
    ensures i in Run(name, st, startTime, store0, envs).fired <==>
      CheckpointDue(envs[i].clock, Run(name, st, startTime, store0, envs[..i]).lastSaveTime, i)
    decreases |envs|
  {
    var k := |envs| - 1;
    var prefix := envs[..k];
    var before := Run(name, st, startTime, store0, prefix);
    var fired := Run(name, st, startTime, store0, envs).fired;
    assert fired == before.fired + (if CheckpointDue(envs[k].clock, before.lastSaveTime, k) then [k] else []);
    FiredBelow(name, st, startTime, store0, prefix);
    if i < k {
      CheckpointFiresIff(name, st, startTime, store0, prefix, i);
      PrefixOfPrefix(envs, k, i);
      assert i in fired <==> i in before.fired;
    } else {
      assert prefix == envs[..i];
      assert k !in before.fired;
    }
  }

  /** Only episodes already run appear in `fired`. */
  lemma {:induction false} FiredBelow(name: string, st: Settings, startTime: int, store0: Store, envs: seq<EpisodeEnv>)
    requires WellFormed(envs)
    ensures forall j | j in Run(name, st, startTime, store0, envs).fired :: j < |envs|
    decreases |envs|
  {
    if envs != [] {
      var k := |envs| - 1;
      FiredBelow(name, st, startTime, store0, envs[..k]);
    }
  }

  /** The last save time moves only when a checkpoint fired and the agent's
      save succeeded, and then to that episode's clock reading. */
  lemma {:induction false} SaveTimeOnlyOnSuccess(name: string, st: Settings, startTime: int, store0: Store, envs: seq<EpisodeEnv>)
    requires WellFormed(envs)
    ensures var run := Run(name, st, startTime, store0, envs);
      || run.lastSaveTime == startTime
      || exists i | 0 <= i < |envs| ::
           i in run.fired && envs[i].agentSaveOk && run.lastSaveTime == envs[i].clock
    decreases |envs|
  {
    if envs != [] {
      var k := |envs| - 1;
      var prefix := envs[..k];
      SaveTimeOnlyOnSuccess(name, st, startTime, store0, prefix);
      var before := Run(name, st, startTime, store0, prefix);
      var run := Run(name, st, startTime, store0, envs);
      if run.lastSaveTime != startTime && run.lastSaveTime == before.lastSaveTime && before.lastSaveTime != startTime {
        var i :| 0 <= i < k && i in before.fired && prefix[i].agentSaveOk && before.lastSaveTime == prefix[i].clock;
        assert envs[i] == prefix[i] && i in run.fired;
      }
    }
  }

  /** After the final save the model's entry holds this run's episode count
      and successes, whatever counters were loaded before the run, and when
      the write succeeds the file holds the whole in-memory map. */
  lemma FinalSaveRecordsRun(name: string, st: Settings, startTime: int, store0: Store, envs: seq<EpisodeEnv>, writeOk: bool)
    requires WellFormed(envs) && name in store0.models
    ensures var run := Run(name, st, startTime, store0, envs);
            var fin := FinalSave(run, name, true, writeOk);
      && fin.models.Keys == store0.models.Keys
      && fin.models[name].plays == |envs|
      && fin.models[name].successes == run.successes
      && fin.models[name].difficulty == store0.models[name].difficulty
      && (forall other | other in store0.models && other != name :: fin.models[other] == store0.models[other])
      && (writeOk ==> fin.file == Stored(fin.models))
  {
    RunCounters(name, st, startTime, store0, envs);
  }

  /** A run, its final save included, keeps the stats map catalog-shaped. */
  lemma RunKeepsCatalog(name: string, st: Settings, startTime: int, store0: Store, envs: seq<EpisodeEnv>,
                        agentSaveOk: bool, writeOk: bool)
    requires WellFormed(envs)
    ensures CatalogShaped(store0.models) ==>
      CatalogShaped(FinalSave(Run(name, st, startTime, store0, envs), name, agentSaveOk, writeOk).models)
  {
    var run := Run(name, st, startTime, store0, envs);
    RunCounters(name, st, startTime, store0, envs);
    var fin := FinalSave(run, name, agentSaveOk, writeOk).models;
    assert SameShape(fin, run.store.models);
    if CatalogShaped(store0.models) {
      SameShapeTransitive(run.store.models, store0.models, Catalog());
      SameShapeTransitive(fin, run.store.models, Catalog());
    }
  }

  /** A stub agent that escapes on the first step of every episode succeeds
      in every episode. */
  lemma {:induction false} AlwaysEscapingAgent(name: string, st: Settings, startTime: int, store0: Store, envs: seq<EpisodeEnv>)
    requires WellFormed(envs)
    requires forall i | 0 <= i < |envs| :: envs[i].responses[0].outcome.escaped
    ensures Run(name, st, startTime, store0, envs).successes == |envs|
    decreases |envs|
  {
    if envs != [] {
      var k := |envs| - 1;
      var e := envs[k];
      AlwaysEscapingAgent(name, st, startTime, store0, envs[..k]);
      var rs := e.responses[..MaxStepsPerEpisode];
      var s0 := Start(e.start, st.initialEnergy);
      assert rs[0] == e.responses[0];
      EscapeCountedOnce(s0, st.foodEnergy, rs);
    }
  }

  /** An agent that never escapes in any step of any episode has no success. */
  lemma {:induction false} NeverEscapingAgent(name: string, st: Settings, startTime: int, store0: Store, envs: seq<EpisodeEnv>)
    requires WellFormed(envs)
    requires forall i, j | 0 <= i < |envs| && 0 <= j < MaxStepsPerEpisode :: !envs[i].responses[j].outcome.escaped
    ensures Run(name, st, startTime, store0, envs).successes == 0
    decreases |envs|
  {
    if envs != [] {
      var k := |envs| - 1;
      var e := envs[k];
      NeverEscapingAgent(name, st, startTime, store0, envs[..k]);
      var rs := e.responses[..MaxStepsPerEpisode];
      EscapeCountedOnce(Start(e.start, st.initialEnergy), st.foodEnergy, rs);
    }
  }

  /** Why `train_model` can fail: the name is not in the map (a KeyError),
      or its tier has no settings. */
  datatype TrainError = UnknownModel | UnknownTier

  /** The manager object: the stats map it updates in place and the shared
      stats file it reads and overwrites. */
  class TrainingManager {
    var models: Models
    var statsFile: StatsFile

    /** The map has exactly the catalog's names, tiers and file names. */
    ghost predicate Valid()
      reads this
    {
      CatalogShaped(models)
    }

    /** Starts from the catalog with zero counters and loads the file. */
    constructor (file: StatsFile)
      ensures Valid() && statsFile == file
      ensures models == LoadStats(Catalog(), file)
    {
      models := Catalog();
      statsFile := file;
      new;
      LoadModelStats();
      if file.Stored? {
        MergeKeepsCatalog(Catalog(), file.contents);
      }
    }

    /** `load_model_stats`: walk the map's own names and copy the file's two
        counters for each name the file also has. A missing or unreadable file
        changes nothing. */
    method LoadModelStats()
      modifies this`models
      ensures models == LoadStats(old(models), statsFile)
    {
      match statsFile
      case Stored(loaded) =>
        ghost var original := models;
        var names := models.Keys;
        while names != {}
          invariant names <= original.Keys && models.Keys == original.Keys
          invariant forall n | n in names :: models[n] == original[n]
          invariant forall n | n in original && n !in names :: models[n] == Merge(original, loaded)[n]
          decreases names
        {
          var name :| name in names;
          if name in loaded {
            models := models[name := models[name].(plays := loaded[name].plays)];
            models := models[name := models[name].(successes := loaded[name].successes)];
          }
          names := names - {name};
        }
      case _ =>
    }

    /** `save_model_stats`: set one entry's counters, then write the whole map. */
    method SaveModelStats(name: string, plays: int, successes: int, writeOk: bool)
      modifies this
      ensures Store(models, statsFile) == SaveStats(old(Store(models, statsFile)), name, plays, successes, writeOk)
      ensures SameShape(models, old(models))
      ensures old(Valid()) ==> Valid()
    {
      ghost var before := models;
      if name in models {
        models := models[name := models[name].(plays := plays)];
        models := models[name := models[name].(successes := successes)];
        if writeOk {
          statsFile := Stored(models);
        }
      }
      assert models == WithCounters(before, name, plays, successes);
      if CatalogShaped(before) {
        SameShapeTransitive(models, before, Catalog());
      }
    }

    /** The periodic checkpoint after an episode: when it is due, save the
        agent and then the stats; the save time moves only if the agent's save
        did not raise. */
    method Checkpoint(name: string, episode: nat, totalEpisodes: int, successes: int, env: EpisodeEnv, lastSaveTime: int)
      returns (newLastSaveTime: int, due: bool)
      modifies this
      ensures due == CheckpointDue(env.clock, lastSaveTime, episode)
      ensures newLastSaveTime == if due && env.agentSaveOk then env.clock else lastSaveTime
      ensures Store(models, statsFile) ==
        if due && env.agentSaveOk
        then SaveStats(old(Store(models, statsFile)), name, totalEpisodes, successes, env.statsWriteOk)
        else old(Store(models, statsFile))
    {
      var currentTime := env.clock;
      newLastSaveTime := lastSaveTime;
      due := CheckpointDue(currentTime, lastSaveTime, episode);
      if due && env.agentSaveOk {
        SaveModelStats(name, totalEpisodes, successes, env.statsWriteOk);
        newLastSaveTime := currentTime;
      }
    }

    /** One pass of the episode loop of `train_model`: play the episode, update
        `total_episodes`, `successful_escapes` and `best_reward`, count the
        agent's `learn` and `update_exploration` calls, then run the periodic
        checkpoint. `prev` holds the loop's variables before the pass. */
    method TrainEpisode(name: string, settings: Settings, episode: nat, env: EpisodeEnv, prev: RunState)
      returns (next: RunState)
      requires MaxStepsPerEpisode <= |env.responses|
      requires prev.store == Store(models, statsFile)
      modifies this
      ensures next == AfterEpisode(name, settings, prev, episode, env)
      ensures Store(models, statsFile) == next.store
    {
      var totalEpisodes := episode + 1;
      var result, calls := RunEpisode(settings.initialEnergy, settings.foodEnergy, env.start,
                                      env.responses, MaxStepsPerEpisode);
      var successfulEscapes := prev.successes + result.escapes;
      var bestReward := prev.bestReward;
      if bestReward.None? || result.totalReward > bestReward.value {
        bestReward := Some(result.totalReward);
      }
      var lastSaveTime, firedNow := Checkpoint(name, episode, totalEpisodes, successfulEscapes, env, prev.lastSaveTime);
      var fired := prev.fired;
      if firedNow {
        fired := fired + [episode];
      }
      EpisodeBookkeeping(name, settings, prev, episode, env, result);
      // one `update_exploration` per episode
      next := RunState(totalEpisodes, successfulEscapes, bestReward, lastSaveTime, fired,
                       prev.learnCalls + calls, prev.explorationUpdates + 1, Store(models, statsFile));
    }

    /** The episode loop of `train_model`: one `TrainEpisode` per environment,
        starting from zero counters, no best reward yet and the start time as
        the last save time. */
    method TrainEpisodes(name: string, settings: Settings, startTime: int, envs: seq<EpisodeEnv>)
      returns (run: RunState)
      requires WellFormed(envs)
      modifies this
      ensures run == Run(name, settings, startTime, old(Store(models, statsFile)), envs)
      ensures Store(models, statsFile) == run.store
    {
      ghost var store0 := Store(models, statsFile);
      var episode: nat := 0;
      run := RunState(0, 0, None, startTime, [], 0, 0, Store(models, statsFile));
      while episode < |envs|
        invariant episode <= |envs|
        invariant WellFormed(envs[..episode])
        invariant run == Run(name, settings, startTime, store0, envs[..episode])
        invariant run.store == Store(models, statsFile)
      {
        RunExtends(name, settings, startTime, store0, envs, episode);
        run := TrainEpisode(name, settings, episode, envs[episode], run);
        episode := episode + 1;
      }
      assert envs[..episode] == envs;
    }

    /** `train_model`: look the model and its tier up, run one episode per
        element of `envs` (the source's `max_episodes`, which is at least one),
        then save once more unconditionally. The run's counters are returned
        in place of the agent. */
    method TrainModel(name: string, startTime: int, envs: seq<EpisodeEnv>, finalAgentSaveOk: bool, finalWriteOk: bool)
      returns (res: Result<RunState, TrainError>)
      requires 0 < |envs| && WellFormed(envs)
      modifies this
      ensures name !in old(models) ==>
        res == Failure(UnknownModel) && models == old(models) && statsFile == old(statsFile)
      ensures name in old(models) && SettingsFor(old(models)[name].difficulty).None? ==>
        res == Failure(UnknownTier) && models == old(models) && statsFile == old(statsFile)
      ensures name in old(models) && SettingsFor(old(models)[name].difficulty).Some? ==>
        var run := Run(name, SettingsFor(old(models)[name].difficulty).value, startTime,
                       old(Store(models, statsFile)), envs);
        && res == Success(run)
        && Store(models, statsFile) == FinalSave(run, name, finalAgentSaveOk, finalWriteOk)
      ensures old(Valid()) ==> Valid()
    {
      if name !in models {
        return Failure(UnknownModel);
      }
      var model := models[name];
      var lookup := SettingsFor(model.difficulty);
      if lookup.None? {
        return Failure(UnknownTier);
      }
      var settings := lookup.value;
      ghost var store0 := Store(models, statsFile);
      var run := TrainEpisodes(name, settings, startTime, envs);
      if finalAgentSaveOk {
        SaveModelStats(name, run.totalEpisodes, run.successes, finalWriteOk);
      }
      res := Success(run);
      RunKeepsCatalog(name, settings, startTime, store0, envs, finalAgentSaveOk, finalWriteOk);
    }
  }

  /** In every tier an episode without food, exit, escape or capture ends by
      exhaustion after exactly the tier's initial energy in steps: no tier
      starts with more than 30 units, so stagnation never ends it first. */
  lemma TierStarvation(tier: int, env: EpisodeEnv)
    requires SettingsFor(tier).Some?
    requires MaxStepsPerEpisode <= |env.responses|
    requires forall j | 0 <= j < |env.responses| :: env.responses[j].outcome == Outcome(false, false, false, false)
    ensures var st := SettingsFor(tier).value; var r := EpisodeOf(st, env);
      && r.steps == st.initialEnergy
      && r.checks == Checks(true, false, false, false)
  {
    var st := SettingsFor(tier).value;
    var rs := env.responses[..MaxStepsPerEpisode];
    assert forall j | 0 <= j < |rs| :: rs[j] == env.responses[j];
    StarvesWithoutEvents(Start(env.start, st.initialEnergy), st.foodEnergy, rs);
  }

  /** A fresh manager always trains: every catalog tier has settings. */
  lemma {:induction false} CatalogTiersResolve(m: Models, name: string)
    requires CatalogShaped(m) && name in m
    ensures SettingsFor(m[name].difficulty).Some?
  {
    assert name in Catalog();
  }
}
