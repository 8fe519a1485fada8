# GatoVsRaton training manager in Dafny

This project models `TrainingManager`, the training orchestrator of
GatoVsRaton (`GatoVsRaton/main.py`). The manager trains a maze-running
"mouse" agent for one of three catalog models: Guallabito (tier 1), Remmil
(tier 2) and Mickey (tier 3). The model covers:

- **Tier settings.** `get_difficulty_settings` becomes `Difficulty.SettingsFor`. It is the fixed table of maze size, energies and food count per tier. An unknown tier is an error result rather than a `KeyError`.
- **The step loop of an episode** (`Episodes`):
  - each step spends one unit of energy;
  - food adds `food_energy`, capped at 100, and the exit refills energy to 100;
  - four end-of-episode checks run on every step: exhaustion, escape, capture, and stagnation;
  - stagnation counts unchanged positions and ends the episode once the count exceeds 30;
  - the loop ends on the first step where any check holds, or after 1000 steps.

  The maze, odor field, cat and reward function are not modelled. Their answers at each step are inputs: a `StepInput` per step gives the next cell, the action's flags and the reward. `Episodes.RunEpisode` is the loop itself, with the source's local variables. It is proved equal to the recursive specification `Episodes.Play`.
- **The stats map** (`Stats`): the catalog of three models, the merge done by `load_model_stats`, and the one-entry update done by `save_model_stats`.
- **The manager object** (`Training.TrainingManager`). It is a class whose fields are the in-memory map `models` and the shared stats file. Its methods update them in place:
  - the constructor loads the stats file;
  - `LoadModelStats` walks the map's own names;
  - `SaveModelStats` updates one entry and then writes the whole map;
  - `Checkpoint` saves periodically;
  - `TrainEpisode` and `TrainEpisodes` are one pass of the episode loop and the loop itself;
  - `TrainModel` is `train_model` with its final save.

  Each method is proved against a pure specification: `AfterEpisode`, `Run` and `FinalSave`. The run-level properties are lemmas about that specification.

For each episode, an `EpisodeEnv` supplies what the outside world decides: the mouse's random start cell, the step answers, the wall-clock reading after the episode, and whether the agent's checkpoint save and the stats-file write succeed. The stats file is `Absent`, `Unreadable`, or `Stored` with a whole map.

## Model

| member | source | states |
|---|---|---|
| Difficulty.SettingsFor | GatoVsRaton/main.py:59-66 | settings exist exactly for tiers 1, 2 and 3; every tier has a square maze, an initial energy in 1..100, positive food energy, and fewer food items than cells |
| Difficulty.SettingsLiterals | GatoVsRaton/main.py:61-65 | the three rows are (10,10,20,15,12), (20,20,15,10,20), (45,45,12,8,35), and tiers 0 and 4 have no settings |
| Difficulty.TiersOrdered | GatoVsRaton/main.py:61-65 | a harder tier has a larger maze and more food, but less initial energy and less energy per food item |
| Episodes.NextEnergy | GatoVsRaton/main.py:158-163 | one unit is spent; food gives at most 100, and exactly 100 or energy−1+food_energy; the exit without food gives 100; otherwise energy−1; energy at most 100 stays at most 100 |
| Episodes.Step | GatoVsRaton/main.py:158-212 | one step moves the mouse to the next cell; its energy is `NextEnergy` of the old energy and the step's flags; its reward is added to the total; stagnation increments on an unchanged cell and resets otherwise; the stagnant flag holds iff the count exceeds 30; the step ends the game iff energy ≤ 0, escape, capture or stagnation; an escape adds one to the count |
| Episodes.Play | GatoVsRaton/main.py:142-215 | the loop takes between 1 and \|rs\| steps when rs is non-empty; it stops before using every response only when the game is over |
| Episodes.Episode | GatoVsRaton/main.py:125-215 | an episode, started from the start cell with the tier's initial energy, runs at least one step when any are allowed and at most `maxSteps`, fewer only when a check ends it |
| Episodes.AfterRewardSum | GatoVsRaton/main.py:129-177 | after any k steps the accumulated reward is the start reward plus the sum of those k steps' rewards |
| Episodes.RewardIsSumOfSteps | GatoVsRaton/main.py:129-177 | the reward an episode accumulates is the sum of the rewards of the steps it actually ran, and of no later step |
| Episodes.EnergyFloor | GatoVsRaton/main.py:158-195 | from positive energy and non-negative food energy, the episode never ends with negative energy |
| Episodes.PlayEndsAtFirstGameOver | GatoVsRaton/main.py:194-215 | the loop's result is the state after its first n steps, no earlier step ended the game, and stopping before the end of the responses means that step ended it |
| Episodes.EnergyCapped | GatoVsRaton/main.py:158-163 | starting at energy ≤ 100, energy stays ≤ 100 after any number of steps |
| Episodes.EscapeCountedOnce | GatoVsRaton/main.py:197-199 | an episode adds one success exactly when a step it ran reported an escape, and never more than one |
| Episodes.StagnationEndsOnThirtyFirst | GatoVsRaton/main.py:206-212 | a mouse that stays put with nothing else happening is stopped by stagnation exactly on the step that brings the counter to 31, with only the stagnant flag set |
| Episodes.StarvesWithoutEvents | GatoVsRaton/main.py:158-195 | with no food, exit, escape or capture, and stagnation unable to pass 30, the episode ends by exhaustion after exactly as many steps as the mouse had energy, at energy 0 |
| Episodes.EpisodeFacts | GatoVsRaton/main.py:125-215 | an episode runs at most max_steps steps; fewer only when a check ends it; it counts at most one escape, and one iff a step it ran escaped; energy stays within 0..100 (for a positive initial energy and non-negative food energy); total_reward is the sum of the rewards of the steps run |
| Episodes.RunEpisode | GatoVsRaton/main.py:125-215 | the imperative step loop computes exactly `Episode(...)`, calls `learn` once per step, and satisfies everything `EpisodeFacts` states: step bound, early stop only at game over, one escape iff a step escaped, energy within 0..100, reward the sum of the steps' rewards |
| Stats.Catalog | GatoVsRaton/main.py:20-24 | the catalog holds exactly Guallabito (tier 1), Remmil (tier 2) and Mickey (tier 3), with pairwise distinct file names and all counters zero |
| Stats.Merge | GatoVsRaton/main.py:34-38 | loading keeps the same names, tiers and file names; a name the file has gets the file's plays and successes; a name the file lacks is unchanged; names only in the file are ignored |
| Stats.WithCounters | GatoVsRaton/main.py:48-50 | the named entry gets the new plays and successes and nothing else in it changes; every other entry is unchanged; an unknown name changes nothing |
| Stats.MergeKeepsCatalog | GatoVsRaton/main.py:34-38 | loading any file into a catalog-shaped map leaves it catalog-shaped (no unknown name, no tier or file name overwritten) |
| Stats.SaveThenLoad | GatoVsRaton/main.py:45-54 | a saved counter pair, written as the whole map and loaded again by any manager that has the name, comes back unchanged |
| Stats.MergeIdempotent | GatoVsRaton/main.py:35-38 | loading the same file twice is the same as loading it once |
| Training.CheckpointDue | GatoVsRaton/main.py:226 | more than 1800 s since the last save always fires the checkpoint; any positive multiple of 100 always fires; within 1800 s only those multiples fire; below episode 100 only the elapsed time decides (together: due iff elapsed > 1800 or a positive multiple of 100) |
| Training.LoadStats | GatoVsRaton/main.py:28-43 | an absent or unreadable file leaves the map as it is; a stored map is merged; the names never change |
| Training.LaterWriteRevertsOtherModel | GatoVsRaton/main.py:45-57 | two managers start from the same snapshot; the first saves model a and writes its whole map to the shared file, then the second saves model b and writes its whole map over it; the file then holds b's new counters but a's counters from the snapshot (the lost update) |
| Training.SaveStats | GatoVsRaton/main.py:45-57 | the in-memory map gets the one-entry update; the file then holds the whole updated map, unless the name is unknown or the write fails, in which case the file is as before |
| Training.Improve | GatoVsRaton/main.py:221-222 | the new best is at least the episode's reward and at least the old best, and it is one of the two |
| Training.EpisodeOf | GatoVsRaton/main.py:119-215 | each episode of a run takes between 1 and 1000 steps and counts at most one escape |
| Training.AfterEpisode | GatoVsRaton/main.py:197-234 | after an episode, total_episodes is its index + 1; exploration is updated once; successes grow by one exactly when a step the episode ran escaped, and otherwise stay; learn calls by 1 to 1000; at most one checkpoint fires; last_save_time moves only to this episode's clock and only when the agent's save succeeded; the map keeps its shape and only the trained model's entry may change |
| Training.Run | GatoVsRaton/main.py:118-234 | after n episodes, total_episodes = n and exploration has been updated n times; successes ≤ n; at most n checkpoints fired |
| Training.RunCounters | GatoVsRaton/main.py:118-234 | after n episodes, learn has been called between n and 1000·n times; the map keeps its names, tiers and file names; every other model's entry is untouched |
| Training.FinalSave | GatoVsRaton/main.py:236-242 | a failed agent save skips the stats save; otherwise the model's entry gets the run's total_episodes and successful_escapes; a successful write puts the whole map in the file, while a failed write or an unknown name leaves the file as it was; nothing else in the map changes |
| Training.BestRewardIsMax | GatoVsRaton/main.py:108-222 | best_reward is still minus infinity iff no episode ran; otherwise it is at least every episode's reward and equal to one of them |
| Training.BestRewardMonotone | GatoVsRaton/main.py:221-222 | best_reward never decreases from a prefix of the run to the whole run |
| Training.CheckpointFiresIff | GatoVsRaton/main.py:224-226 | episode i's checkpoint fires iff the trigger holds for that episode's clock reading and the save time left by the episodes before it |
| Training.FiredBelow | GatoVsRaton/main.py:224-226 | only episodes already run appear as fired checkpoints |
| Training.SaveTimeOnlyOnSuccess | GatoVsRaton/main.py:227-234 | last_save_time is the start time, or the clock reading of an episode whose checkpoint fired and whose agent save succeeded |
| Training.FinalSaveRecordsRun | GatoVsRaton/main.py:236-242 | after the final save, the model's entry holds this run's episode count and successes whatever was loaded; other entries are untouched; a successful write leaves the file holding the whole map |
| Training.RunKeepsCatalog | GatoVsRaton/main.py:45-57 | a whole run, final save included, keeps a catalog-shaped map catalog-shaped |
| Training.AlwaysEscapingAgent | GatoVsRaton/main.py:197-199 | if every episode's first step escapes, successful_escapes equals the number of episodes |
| Training.NeverEscapingAgent | GatoVsRaton/main.py:197-199 | if no step escapes, successful_escapes stays 0 |
| Training.TierStarvation | GatoVsRaton/main.py:125-195 | in every tier, an episode with no food, exit, escape or capture ends by exhaustion after exactly the tier's initial energy in steps |
| Training.CatalogTiersResolve | GatoVsRaton/main.py:70-72 | every model of a catalog-shaped map has a tier with settings, so `train_model` never fails on the tier lookup |
| Training.TrainingManager.constructor | GatoVsRaton/main.py:19-25 | a new manager holds the catalog merged with the stats file, and its map is catalog-shaped |
| Training.TrainingManager.LoadModelStats | GatoVsRaton/main.py:28-43 | the in-place loop over the map's own names leaves `models` equal to `LoadStats` of the old map and the file |
| Training.TrainingManager.SaveModelStats | GatoVsRaton/main.py:45-57 | the new map and file are `SaveStats` of the old ones; only counters change; catalog shape is kept |
| Training.TrainingManager.Checkpoint | GatoVsRaton/main.py:224-234 | fires iff `CheckpointDue`; saves stats and moves last_save_time only when it fires and the agent's save succeeds |
| Training.TrainingManager.TrainEpisode | GatoVsRaton/main.py:118-234 | one pass of the episode loop turns the loop variables and the store into `AfterEpisode` of them |
| Training.TrainingManager.TrainEpisodes | GatoVsRaton/main.py:118-234 | the episode loop ends in `Run` of the episodes from the starting store, and the manager's store is the run's store |
| Training.TrainingManager.TrainModel | GatoVsRaton/main.py:68-242 | for at least one episode: an unknown name or tier fails with nothing changed; otherwise the result is the run's summary and the store is its final save; catalog shape is kept |

## Left out

- Pickle serialization and the file system. The stats file is a value (`Absent`, `Unreadable` or `Stored` map).
- A failed write is modelled as leaving the file as it was. A real `open(..., 'wb')` may already have truncated it.
- A file that loads but holds a malformed entry is not modelled. The source may then have copied some counters before raising. The model treats a file as either readable whole or `Unreadable`.
- `train_all_models_parallel` and multiprocessing. Concurrent runs are not modelled. The effect of their unsynchronized whole-map writes is stated sequentially by `Training.LaterWriteRevertsOtherModel`.
- `main_menu`, console input and all printing, including the progress report every 10 episodes.
- `Maze`, `Game`, `OdorSystem`, `MouseAgent`, `CatAgent` and `QLearningAgent` are not part of this model. Their answers are per-step inputs (`StepInput`), and the agent's save outcome is a per-episode input. The agent's state-discretization, action choice, learning and exploration updates are only counted (`learnCalls`, `explorationUpdates`). Loading an existing agent checkpoint is left out, because it touches only the agent.
- `time.time()`. Each episode's clock reading is an input, and so is the start time.
- Rewards are integers here. In the source they are whatever the reward function returns, typically floating point.
- `best_reward`'s initial minus infinity is `None`.
- `max_episodes` is the length of the episode input sequence. The source fixes it at 10.
- Training.TrainingManager.TrainModel: requires at least one episode. With zero episodes the source would still save, and then its final summary would divide by `total_episodes == 0` and raise. The summary's printing is not modelled, and the source's fixed count of 10 never reaches that case.
- `last_stats_save` is assigned but never read in the source, so it is not modelled.
- Training.TrainingManager.TrainModel: returns the run's counters in place of the trained agent object.
- Training.TrainingManager.TrainModel: an unknown model name or tier is a `Failure` result here. The source lets the `KeyError` propagate.
- Training.FinalSaveRecordsRun: this follows the code, not a "cumulative plays" reading. The saved plays and successes are this run's `total_episodes` and `successful_escapes`, so counters loaded at start-up are overwritten, not added to.
