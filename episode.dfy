/** One training episode of `TrainingManager.train_model`: the per-step energy
    rule, the stagnation counter, the end-of-episode checks and the bounded
    step loop. What the maze, the odor field, the cat and the reward function
    answer at each step is an input: one `StepInput` per step. */
module Episodes {

  /** A maze cell. */
  datatype Pos = Pos(x: int, y: int)

  /** The flags the maze reports for one executed action. */
  datatype Outcome = Outcome(foundFood: bool, foundExit: bool, escaped: bool, captured: bool)

  /** What the collaborators answer at one step: the mouse's next cell, the
      action's outcome and the reward the reward function assigns. */
  datatype StepInput = StepInput(nextPos: Pos, outcome: Outcome, reward: int)

  /** The four end-of-episode checks of one step. Every step evaluates all of
      them, so several may hold at once. */
  datatype Checks = Checks(exhausted: bool, escaped: bool, captured: bool, stagnant: bool) {
    predicate GameOver() {
      exhausted || escaped || captured || stagnant
    }
  }

  const NoChecks := Checks(false, false, false, false)

  /** Energy never rises above this by eating, and reaching the exit sets it. */
  const MaxEnergy := 100
  /** The episode ends once the count of unchanged positions exceeds this. */
  const StagnationLimit := 30
  /** `max_steps_per_episode`. */
  const MaxStepsPerEpisode := 1000

  /** The variables the step loop updates: position, energy, accumulated
      reward, stagnation counter and last position, plus the number of steps
      (each one a `learn` call), the escapes counted and the last step's checks. */
  datatype EpisodeState = EpisodeState(
    pos: Pos, energy: int, totalReward: int, stagnation: nat, lastPos: Pos,
    steps: nat, escapes: nat, checks: Checks)

  function Start(pos: Pos, initialEnergy: int): EpisodeState {
    EpisodeState(pos, initialEnergy, 0, 0, pos, 0, 0, NoChecks)
  }

  function Min(a: int, b: int): int {
    if a <= b then a else b
  }

  /** Energy after one step: one unit is spent; food then adds `foodEnergy`
      capped at `MaxEnergy`; otherwise the exit refills to `MaxEnergy`. */
  function NextEnergy(energy: int, foodEnergy: int, o: Outcome): (r: int)
    ensures o.foundFood ==> r <= MaxEnergy && r <= energy - 1 + foodEnergy
    ensures o.foundFood ==> r == MaxEnergy || r == energy - 1 + foodEnergy
    ensures !o.foundFood && o.foundExit ==> r == MaxEnergy
    ensures !o.foundFood && !o.foundExit ==> r == energy - 1
    ensures energy <= MaxEnergy + 1 ==> r <= MaxEnergy
  {
    var e := energy - 1;
    if o.foundFood then Min(MaxEnergy, e + foodEnergy)
    else if o.foundExit then MaxEnergy
    else e
  }

  /** One iteration of the step loop, with all four checks evaluated. */
  function Step(s: EpisodeState, foodEnergy: int, i: StepInput): (r: EpisodeState)
    ensures r.steps == s.steps + 1 && r.pos == i.nextPos
    ensures r.energy == NextEnergy(s.energy, foodEnergy, i.outcome)
    ensures r.totalReward == s.totalReward + i.reward
    ensures r.stagnation == if i.nextPos == s.lastPos then s.stagnation + 1 else 0
    ensures r.checks.stagnant <==> r.stagnation > StagnationLimit
    ensures r.checks.GameOver() <==>
      r.energy <= 0 || i.outcome.escaped || i.outcome.captured || r.stagnation > StagnationLimit
    ensures r.escapes == s.escapes + (if i.outcome.escaped then 1 else 0)
    ensures s.lastPos == s.pos ==> r.lastPos == r.pos
  {
    var energy := NextEnergy(s.energy, foodEnergy, i.outcome);
    var same := i.nextPos == s.lastPos;
    var stagnation := if same then s.stagnation + 1 else 0;
    var lastPos := if same then s.lastPos else i.nextPos;
    var checks := Checks(energy <= 0, i.outcome.escaped, i.outcome.captured,
                         same && stagnation > StagnationLimit);
    EpisodeState(i.nextPos, energy, s.totalReward + i.reward, stagnation, lastPos,
                 s.steps + 1, s.escapes + (if i.outcome.escaped then 1 else 0), checks)
  }

  /** The step loop from state `s` over the responses `rs`: it stops after the
      first step whose checks end the game, or when `rs` is used up. */
  function Play(s: EpisodeState, foodEnergy: int, rs: seq<StepInput>): (r: EpisodeState)
    ensures s.steps <= r.steps <= s.steps + |rs|
    ensures rs != [] ==> s.steps < r.steps
    ensures r.steps < s.steps + |rs| ==> r.checks.GameOver()
    ensures s.lastPos == s.pos ==> r.lastPos == r.pos
    decreases |rs|
  {
    if rs == [] then s
    else
      var t := Step(s, foodEnergy, rs[0]);
      if t.checks.GameOver() then t else Play(t, foodEnergy, rs[1..])
  }

  /** A whole episode: start at `start` with the tier's initial energy and run
      at most `maxSteps` steps. */
  function Episode(initialEnergy: int, foodEnergy: int, start: Pos, rs: seq<StepInput>, maxSteps: nat): (r: EpisodeState)
    requires maxSteps <= |rs|
    ensures 0 < maxSteps ==> 0 < r.steps
    ensures r.steps <= maxSteps
    ensures r.steps < maxSteps ==> r.checks.GameOver()
  {
    Play(Start(start, initialEnergy), foodEnergy, rs[..maxSteps])
  }

  /** The state after the first `k` steps, ignoring the checks: the reference
      that `Play` is compared with. */
  function After(s: EpisodeState, foodEnergy: int, rs: seq<StepInput>, k: nat): (r: EpisodeState)
    requires k <= |rs|
    ensures r.steps == s.steps + k
    decreases k
  {
    if k == 0 then s else After(Step(s, foodEnergy, rs[0]), foodEnergy, rs[1..], k - 1)
  }

  /** The sum of the step rewards in `rs`. */
  function RewardSum(rs: seq<StepInput>): int
    decreases |rs|
  {
    if rs == [] then 0 else rs[0].reward + RewardSum(rs[1..])
  }

  /** After `k` steps the accumulated reward is the sum of those steps' rewards. */
  lemma {:induction false} AfterRewardSum(s: EpisodeState, foodEnergy: int, rs: seq<StepInput>, k: nat)
    requires k <= |rs|
    ensures After(s, foodEnergy, rs, k).totalReward == s.totalReward + RewardSum(rs[..k])
    decreases k
  {
    if k > 0 {
      AfterRewardSum(Step(s, foodEnergy, rs[0]), foodEnergy, rs[1..], k - 1);
      assert rs[..k][1..] == rs[1..][..k - 1];
    }
  }

  /** The loop ends exactly on the first step whose checks end the game, and
      otherwise only when the responses run out. */
  lemma {:induction false} PlayEndsAtFirstGameOver(s: EpisodeState, foodEnergy: int, rs: seq<StepInput>)
    ensures var r := Play(s, foodEnergy, rs); var n := r.steps - s.steps;
      && 0 <= n <= |rs|
      && r == After(s, foodEnergy, rs, n)
      && (forall j | 1 <= j < n :: !After(s, foodEnergy, rs, j).checks.GameOver())
      && (n < |rs| ==> r.checks.GameOver())
    decreases |rs|
  {
    if rs != [] {
      var t := Step(s, foodEnergy, rs[0]);
      if !t.checks.GameOver() {
        PlayEndsAtFirstGameOver(t, foodEnergy, rs[1..]);
        var n := Play(s, foodEnergy, rs).steps - s.steps;
        forall j | 1 <= j < n ensures !After(s, foodEnergy, rs, j).checks.GameOver() {
          if j > 1 {
            assert After(s, foodEnergy, rs, j) == After(t, foodEnergy, rs[1..], j - 1);
          }
        }
      }
    }
  }

  /** The reward an episode accumulates is the sum of the rewards of the steps
      it actually ran, and of no later ones. */
  lemma RewardIsSumOfSteps(s: EpisodeState, foodEnergy: int, rs: seq<StepInput>)
    ensures var r := Play(s, foodEnergy, rs);
      r.totalReward == s.totalReward + RewardSum(rs[..r.steps - s.steps])
  {
    PlayEndsAtFirstGameOver(s, foodEnergy, rs);
    AfterRewardSum(s, foodEnergy, rs, Play(s, foodEnergy, rs).steps - s.steps);
  }

  /** Energy never ends below zero: it is positive before every step, one
      step lowers it by at most one (food and the exit only add), and the
      loop stops as soon as it is no longer positive. */
  lemma {:induction false} EnergyFloor(s: EpisodeState, foodEnergy: int, rs: seq<StepInput>)
    requires 0 < s.energy && 0 <= foodEnergy
    ensures 0 <= Play(s, foodEnergy, rs).energy
    decreases |rs|
  {
    if rs != [] {
      var t := Step(s, foodEnergy, rs[0]);
      if !t.checks.GameOver() {
        EnergyFloor(t, foodEnergy, rs[1..]);
      }
    }
  }

  /** Energy stays at most `MaxEnergy` along the whole episode once it starts
      there: the cap on food and the refill at the exit never exceed it. */
  lemma {:induction false} EnergyCapped(s: EpisodeState, foodEnergy: int, rs: seq<StepInput>, k: nat)
    requires s.energy <= MaxEnergy && k <= |rs|
    ensures After(s, foodEnergy, rs, k).energy <= MaxEnergy
    decreases k
  {
    if k > 0 {
      EnergyCapped(Step(s, foodEnergy, rs[0]), foodEnergy, rs[1..], k - 1);
    }
  }

  /** An episode counts an escape exactly when one of the steps it ran reports
      one, and then exactly once: escaping ends the episode on that step. */
  lemma {:induction false} EscapeCountedOnce(s: EpisodeState, foodEnergy: int, rs: seq<StepInput>)
    ensures var r := Play(s, foodEnergy, rs); var n := r.steps - s.steps;
      r.escapes == s.escapes + (if exists j | 0 <= j < n :: rs[j].outcome.escaped then 1 else 0)
    decreases |rs|
  {
    if rs != [] {
      var t := Step(s, foodEnergy, rs[0]);
      if !t.checks.GameOver() {
        EscapeCountedOnce(t, foodEnergy, rs[1..]);
        var n := Play(s, foodEnergy, rs).steps - s.steps;
        assert forall j | 1 <= j < n :: rs[j] == rs[1..][j - 1];
        assert (exists j | 0 <= j < n :: rs[j].outcome.escaped)
           <==> (exists j | 0 <= j < n - 1 :: rs[1..][j].outcome.escaped);
      }
    }
  }

  /** A mouse that stays on its cell with no other check firing is stopped by
      stagnation on the step that brings the counter to 31, and not before:
      from a fresh counter that is the 31st unchanged step. */
  lemma {:induction false} StagnationEndsOnThirtyFirst(s: EpisodeState, foodEnergy: int, rs: seq<StepInput>)
    requires s.lastPos == s.pos && s.stagnation <= StagnationLimit
    requires StagnationLimit + 1 - s.stagnation <= |rs|
    requires s.energy > StagnationLimit + 1 - s.stagnation
    requires forall j | 0 <= j <= StagnationLimit - s.stagnation ::
      rs[j].nextPos == s.pos && rs[j].outcome == Outcome(false, false, false, false)
    ensures var r := Play(s, foodEnergy, rs);
      && r.steps == s.steps + StagnationLimit + 1 - s.stagnation
      && r.stagnation == StagnationLimit + 1
      && r.checks == Checks(false, false, false, true)
    decreases StagnationLimit - s.stagnation
  {
    var t := Step(s, foodEnergy, rs[0]);
    if s.stagnation < StagnationLimit {
      assert !t.checks.GameOver();
      forall j | 0 <= j <= StagnationLimit - t.stagnation
        ensures rs[1..][j].nextPos == t.pos && rs[1..][j].outcome == Outcome(false, false, false, false)
      {
        assert rs[1..][j] == rs[j + 1];
      }
      StagnationEndsOnThirtyFirst(t, foodEnergy, rs[1..]);
    }
  }

  /** With no food, exit, escape or capture, energy falls by one per step and
      the episode ends by exhaustion after exactly as many steps as the energy
      it had, provided the stagnation counter cannot pass the limit first. */
  lemma {:induction false} StarvesWithoutEvents(s: EpisodeState, foodEnergy: int, rs: seq<StepInput>)
    requires 0 < s.energy <= |rs|
    requires s.stagnation + s.energy <= StagnationLimit
    requires forall j | 0 <= j < |rs| :: rs[j].outcome == Outcome(false, false, false, false)
    ensures var r := Play(s, foodEnergy, rs);
      && r.steps == s.steps + s.energy
      && r.energy == 0
      && r.checks == Checks(true, false, false, false)
    decreases s.energy
  {
    var t := Step(s, foodEnergy, rs[0]);
    if s.energy > 1 {
      assert !t.checks.GameOver();
      forall j | 0 <= j < |rs[1..]|
        ensures rs[1..][j].outcome == Outcome(false, false, false, false)
      {
        assert rs[1..][j] == rs[j + 1];
      }
      StarvesWithoutEvents(t, foodEnergy, rs[1..]);
    }
  }

  /** What a whole episode guarantees: it runs at most `maxSteps` steps and
      stops early only when its checks end it; it counts at most one escape,
      and one exactly when a step it ran escaped; its energy stays within
      0..`MaxEnergy`; its reward is the sum of the rewards of the steps run. */
  lemma EpisodeFacts(initialEnergy: int, foodEnergy: int, start: Pos, responses: seq<StepInput>, maxSteps: nat)
    requires maxSteps <= |responses|
    ensures var r := Episode(initialEnergy, foodEnergy, start, responses, maxSteps);
      && r.steps <= maxSteps
      && (r.steps < maxSteps ==> r.checks.GameOver())
      && r.escapes <= 1
      && (r.escapes == 1 <==> exists j | 0 <= j < r.steps :: responses[j].outcome.escaped)
      && (initialEnergy <= MaxEnergy ==> r.energy <= MaxEnergy)
      && (0 < initialEnergy && 0 <= foodEnergy ==> 0 <= r.energy)
      && r.totalReward == RewardSum(responses[..r.steps])
  {
    var rs := responses[..maxSteps];
    var s0 := Start(start, initialEnergy);
    var r := Play(s0, foodEnergy, rs);
    PlayEndsAtFirstGameOver(s0, foodEnergy, rs);
    EscapeCountedOnce(s0, foodEnergy, rs);
    assert forall j | 0 <= j < r.steps :: rs[j] == responses[j];
    if initialEnergy <= MaxEnergy {
      EnergyCapped(s0, foodEnergy, rs, r.steps);
    }
    if 0 < initialEnergy && 0 <= foodEnergy {
      EnergyFloor(s0, foodEnergy, rs);
    }
    RewardIsSumOfSteps(s0, foodEnergy, rs);
    assert rs[..r.steps] == responses[..r.steps];
  }

  /** The step loop of one episode, over the loop variables of the source.
      Each iteration is one `learn` call. */
  method RunEpisode(initialEnergy: int, foodEnergy: int, start: Pos, responses: seq<StepInput>, maxSteps: nat)
    returns (final: EpisodeState, learnCalls: nat)
    requires maxSteps <= |responses|
    ensures final == Episode(initialEnergy, foodEnergy, start, responses, maxSteps)
    ensures learnCalls == final.steps <= maxSteps
    ensures final.steps < maxSteps ==> final.checks.GameOver()
    ensures final.escapes <= 1
    ensures final.escapes == 1 <==>
      exists j | 0 <= j < final.steps :: responses[j].outcome.escaped
    ensures initialEnergy <= MaxEnergy ==> final.energy <= MaxEnergy
    ensures 0 < initialEnergy && 0 <= foodEnergy ==> 0 <= final.energy
    ensures final.totalReward == RewardSum(responses[..final.steps])
  {
    var mousePos := start;
    var energy := initialEnergy;
    var totalReward := 0;
    var stagnation: nat := 0;
    var lastPosition := start;
    var escapes: nat := 0;
    var checks := NoChecks;
    var step: nat := 0;
    ghost var rs := responses[..maxSteps];
    learnCalls := 0;
    while step < maxSteps
      invariant step <= maxSteps && learnCalls == step
      invariant !checks.GameOver()
      invariant var s := EpisodeState(mousePos, energy, totalReward, stagnation, lastPosition, step, escapes, checks);
        Play(s, foodEnergy, rs[step..]) == Play(Start(start, initialEnergy), foodEnergy, rs)
    {
      ghost var before := EpisodeState(mousePos, energy, totalReward, stagnation, lastPosition, step, escapes, checks);
      var input := responses[step];
      assert rs[step] == input;
      energy := energy - 1;
      if input.outcome.foundFood {
        energy := Min(MaxEnergy, energy + foodEnergy);
      } else if input.outcome.foundExit {
        energy := MaxEnergy;
      }
      assert energy == NextEnergy(before.energy, foodEnergy, input.outcome);
      totalReward := totalReward + input.reward;
      learnCalls := learnCalls + 1;
      mousePos := input.nextPos;
      var exhausted := energy <= 0;
      if input.outcome.escaped {
        escapes := escapes + 1;
      }
      var stagnant := false;
      if mousePos == lastPosition {
        stagnation := stagnation + 1;
        if stagnation > StagnationLimit {
          stagnant := true;
        }
      } else {
        stagnation := 0;
        lastPosition := mousePos;
      }
      checks := Checks(exhausted, input.outcome.escaped, input.outcome.captured, stagnant);
      ghost var same := input.nextPos == before.lastPos;
      assert stagnation == (if same then before.stagnation + 1 else 0);
      assert lastPosition == (if same then before.lastPos else input.nextPos);
      assert stagnant == (same && stagnation > StagnationLimit);
      step := step + 1;
      assert rs[step - 1..][1..] == rs[step..];
      assert EpisodeState(mousePos, energy, totalReward, stagnation, lastPosition, step, escapes, checks)
        == Step(before, foodEnergy, input);
      if checks.GameOver() {
        break;
      }
    }
    final := EpisodeState(mousePos, energy, totalReward, stagnation, lastPosition, step, escapes, checks);
    EpisodeFacts(initialEnergy, foodEnergy, start, responses, maxSteps);
  }
}
