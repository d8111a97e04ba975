/** carai_analysis_cli.py: the statistics the analysis tool draws from
    exported rollouts (steering, action diversity, episode success,
    throttle/brake patterns), the rules that turn them into problems and
    warnings, the rollout selection syntax, the browse-mode cursor and the
    command loop's exit test. Plots, printing and file loading are not
    modelled. */
module CaraiAnalysis {
  import opened Common
  import opened KeySort
  import opened PyText

  const SteeringMeanThreshold: real := 0.7
  const SteeringStdThreshold: real := 0.1
  const ThrottleStdThreshold: real := 0.05
  const RewardNegativeThreshold: real := -2.0
  const SuccessRateThreshold: real := 0.3

  /** One experience's action; a missing key reads as 0.0. */
  datatype Action = Action(steer: real, throttle: real, brake: real)

  /** A loaded rollout file: its number (from the file name), total reward
      (0.0 when missing) and the actions of its experiences. */
  datatype Rollout = Rollout(rolloutNumber: int, totalReward: real, actions: seq<Action>)

  /** Every action of every rollout, rollout by rollout. */
  function AllActions(rollouts: seq<Rollout>): seq<Action>
  {
    if rollouts == [] then [] else AllActions(rollouts[..|rollouts| - 1]) + rollouts[|rollouts| - 1].actions
  }

  /** The nested `for rollout ... for exp ...` loop every analysis runs. */
  method CollectActions(rollouts: seq<Rollout>) returns (actions: seq<Action>)
    ensures actions == AllActions(rollouts)
  {
    actions := [];
    var i := 0;
    while i < |rollouts|
      invariant i <= |rollouts|
      invariant actions == AllActions(rollouts[..i])
    {
      var exps := rollouts[i].actions;
      var j := 0;
      while j < |exps|
        invariant j <= |exps|
        invariant actions == AllActions(rollouts[..i]) + exps[..j]
      {
        actions := actions + [exps[j]];
        j := j + 1;
        assert exps[..j] == exps[..j - 1] + [exps[j - 1]];
      }
      assert exps[..j] == exps;
      assert rollouts[..i + 1][..i] == rollouts[..i];
      i := i + 1;
    }
    assert rollouts[..i] == rollouts;
  }

  function Steers(actions: seq<Action>): (r: seq<real>)
    ensures |r| == |actions| && forall k :: 0 <= k < |r| ==> r[k] == actions[k].steer
  {
    if actions == [] then [] else [actions[0].steer] + Steers(actions[1..])
  }

  function Throttles(actions: seq<Action>): (r: seq<real>)
    ensures |r| == |actions| && forall k :: 0 <= k < |r| ==> r[k] == actions[k].throttle
  {
    if actions == [] then [] else [actions[0].throttle] + Throttles(actions[1..])
  }

  function Brakes(actions: seq<Action>): (r: seq<real>)
    ensures |r| == |actions| && forall k :: 0 <= k < |r| ==> r[k] == actions[k].brake
  {
    if actions == [] then [] else [actions[0].brake] + Brakes(actions[1..])
  }

  function SquaredDeviations(s: seq<real>, m: real): (r: seq<real>)
    ensures |r| == |s| && forall k :: 0 <= k < |r| ==> r[k] == Square(s[k] - m) && r[k] >= 0.0
  {
    if s == [] then [] else [Square(s[0] - m)] + SquaredDeviations(s[1..], m)
  }

  /** A count out of a positive total is a share between 0 and 1. */
  lemma ShareBetween(c: nat, n: nat)
    requires c <= n && n > 0
    ensures 0.0 <= c as real / n as real <= 1.0
  {
  }

  lemma {:induction false} SumNonNegative(s: seq<real>)
    requires forall k :: 0 <= k < |s| ==> s[k] >= 0.0
    ensures Sum(s) >= 0.0
  {
    if s != [] {
      SumNonNegative(s[..|s| - 1]);
    }
  }

  /** `np.var`: the population variance; `np.std` is its square root, so
      `std < t` is `variance < t * t` for a positive threshold t. */
  function Variance(s: seq<real>): (r: real)
    ensures r >= 0.0
  {
    var d := SquaredDeviations(s, Mean(s));
    SumNonNegative(d);
    if d == [] then 0.0
    else
      assert Sum(d) / |d| as real >= 0.0;
      Mean(d)
  }

  /** Mean and variance of a non-empty list; `None` stands for the NaN
      numpy returns for an empty one. */
  datatype Moments = Moments(mean: real, variance: real)

  function MomentsOf(s: seq<real>): (r: Option<Moments>)
    ensures r.Some? <==> s != []
    ensures r.Some? ==> r.value.variance >= 0.0
  {
    if s == [] then None else Some(Moments(Mean(s), Variance(s)))
  }

  /** `analyze_steering_distribution` (mean and spread; the median and the
      data only feed plots): `None` without any action. */
  method AnalyzeSteeringDistribution(rollouts: seq<Rollout>) returns (stats: Option<Moments>)
    ensures stats.None? <==> AllActions(rollouts) == []
    ensures stats == MomentsOf(Steers(AllActions(rollouts)))
  {
    var actions := CollectActions(rollouts);
    if actions == [] {
      return None;
    }
    stats := MomentsOf(Steers(actions));
  }

  /** `analyze_action_diversity`: mean and spread of each action channel. */
  datatype ActionStats = ActionStats(steering: Option<Moments>, throttle: Option<Moments>, brake: Option<Moments>)

  method AnalyzeActionDiversity(rollouts: seq<Rollout>) returns (stats: ActionStats)
    ensures stats.steering == MomentsOf(Steers(AllActions(rollouts)))
    ensures stats.throttle == MomentsOf(Throttles(AllActions(rollouts)))
    ensures stats.brake == MomentsOf(Brakes(AllActions(rollouts)))
  {
    var actions := CollectActions(rollouts);
    stats := ActionStats(MomentsOf(Steers(actions)), MomentsOf(Throttles(actions)), MomentsOf(Brakes(actions)));
  }

  /** An episode counts as a success when its total reward is positive and
      it lasted more than 100 steps. */
  predicate IsSuccess(r: Rollout)
  {
    r.totalReward > 0.0 && |r.actions| > 100
  }

  function CountSuccesses(rollouts: seq<Rollout>): (n: nat)
    ensures n <= |rollouts|
  {
    if rollouts == [] then 0
    else CountSuccesses(rollouts[..|rollouts| - 1]) + (if IsSuccess(rollouts[|rollouts| - 1]) then 1 else 0)
  }

  datatype EpisodeStats = EpisodeStats(meanReward: real, successRate: real, totalEpisodes: nat,
                                       rewards: seq<real>, lengths: seq<nat>)

  /** `analyze_episode_performance` (the spread, extremes and mean length
      only feed the report): the success rate is the share of successful
      episodes, 0.0 without rollouts. */
  method AnalyzeEpisodePerformance(rollouts: seq<Rollout>) returns (stats: EpisodeStats)
    ensures stats.totalEpisodes == |rollouts| && |stats.rewards| == |rollouts| && |stats.lengths| == |rollouts|
    ensures forall k :: 0 <= k < |rollouts| ==>
              stats.rewards[k] == rollouts[k].totalReward && stats.lengths[k] == |rollouts[k].actions|
    ensures rollouts == [] ==> stats.successRate == 0.0 && stats.meanReward == 0.0
    ensures rollouts != [] ==> stats.successRate == CountSuccesses(rollouts) as real / |rollouts| as real
    ensures 0.0 <= stats.successRate <= 1.0
    ensures stats.meanReward == Mean(stats.rewards)
  {
    var rewards: seq<real> := [];
    var lengths: seq<nat> := [];
    var successCount := 0;
    var i := 0;
    while i < |rollouts|
      invariant i <= |rollouts|
      invariant |rewards| == i && |lengths| == i
      invariant forall k :: 0 <= k < i ==> rewards[k] == rollouts[k].totalReward && lengths[k] == |rollouts[k].actions|
      invariant successCount == CountSuccesses(rollouts[..i])
    {
      var totalReward := rollouts[i].totalReward;
      var numSteps := |rollouts[i].actions|;
      rewards := rewards + [totalReward];
      lengths := lengths + [numSteps];
      if totalReward > 0.0 && numSteps > 100 {
        successCount := successCount + 1;
      }
      assert rollouts[..i + 1][..i] == rollouts[..i];
      i := i + 1;
    }
    assert rollouts[..i] == rollouts;
    if rollouts != [] {
      ShareBetween(successCount, |rollouts|);
    }
    var successRate := if rollouts != [] then successCount as real / |rollouts| as real else 0.0;
    var meanReward := if rewards != [] then Mean(rewards) else 0.0;
    stats := EpisodeStats(meanReward, successRate, |rollouts|, rewards, lengths);
  }

  function CountBothHigh(actions: seq<Action>): (n: nat)
    ensures n <= |actions|
  {
    if actions == [] then 0
    else (if actions[0].throttle > 0.8 && actions[0].brake > 0.8 then 1 else 0) + CountBothHigh(actions[1..])
  }

  function CountBothLow(actions: seq<Action>): (n: nat)
    ensures n <= |actions|
  {
    if actions == [] then 0
    else (if actions[0].throttle < 0.2 && actions[0].brake < 0.2 then 1 else 0) + CountBothLow(actions[1..])
  }

  /** No step is both "both high" and "both low", so the two counts never
      exceed the number of steps together. */
  lemma {:induction false} BothCountsDisjoint(actions: seq<Action>)
    ensures CountBothHigh(actions) + CountBothLow(actions) <= |actions|
  {
    if actions != [] {
      BothCountsDisjoint(actions[1..]);
    }
  }

  lemma PercentagesBetween(a: nat, b: nat, n: nat)
    requires a + b <= n && n > 0
    ensures 0.0 <= a as real / n as real * 100.0 + b as real / n as real * 100.0 <= 100.0
  {
    assert a as real / n as real * 100.0 + b as real / n as real * 100.0 == (a + b) as real / n as real * 100.0;
    ShareBetween(a + b, n);
  }

  datatype ThrottleBrakeStats = ThrottleBrakeStats(throttle: Moments, brake: Moments, combined: Moments,
                                                   bothHighCount: nat, bothHighPct: real,
                                                   bothLowCount: nat, bothLowPct: real)

  function NetAcceleration(actions: seq<Action>): (r: seq<real>)
    ensures |r| == |actions| && forall k :: 0 <= k < |r| ==> r[k] == actions[k].throttle - actions[k].brake
  {
    if actions == [] then [] else [actions[0].throttle - actions[0].brake] + NetAcceleration(actions[1..])
  }

  /** `analyze_throttle_brake`: `None` without any step; otherwise the
      counts of steps with throttle and brake both above 0.8 and both below
      0.2, and their shares in percent. */
  method AnalyzeThrottleBrake(rollouts: seq<Rollout>) returns (stats: Option<ThrottleBrakeStats>)
    ensures stats.None? <==> AllActions(rollouts) == []
    ensures stats.Some? ==>
              var actions := AllActions(rollouts);
              stats.value.bothHighCount == CountBothHigh(actions) && stats.value.bothLowCount == CountBothLow(actions) &&
              stats.value.bothHighPct == CountBothHigh(actions) as real / |actions| as real * 100.0 &&
              stats.value.bothLowPct == CountBothLow(actions) as real / |actions| as real * 100.0
    ensures stats.Some? ==> 0.0 <= stats.value.bothHighPct + stats.value.bothLowPct <= 100.0
  {
    var actions := CollectActions(rollouts);
    if actions == [] {
      return None;
    }
    var n := |actions| as real;
    var bothHigh := CountBothHigh(actions);
    var bothLow := CountBothLow(actions);
    BothCountsDisjoint(actions);
    var highPct := bothHigh as real / n * 100.0;
    var lowPct := bothLow as real / n * 100.0;
    PercentagesBetween(bothHigh, bothLow, |actions|);
    var throttle := Moments(Mean(Throttles(actions)), Variance(Throttles(actions)));
    var brake := Moments(Mean(Brakes(actions)), Variance(Brakes(actions)));
    var combined := Moments(Mean(NetAcceleration(actions)), Variance(NetAcceleration(actions)));
    stats := Some(ThrottleBrakeStats(throttle, brake, combined, bothHigh, highPct, bothLow, lowPct));
  }

  /** The findings `detect_problems` reports, without their text. */
  datatype Issue = SteeringBias(towardsLeft: bool) | NoSteeringExploration | LowThrottleVariation
                 | NegativeAverageReward | LowSuccessRate

  /** `detect_problems`: steering biased beyond |0.7| or with a spread below
      0.1, and a mean reward below -2 are problems; a throttle spread below
      0.05 and a success rate below 30% are warnings. A NaN spread (no
      actions) triggers nothing. */
  function DetectProblems(steering: Option<Moments>, actions: ActionStats, episodes: EpisodeStats)
    : (r: (seq<Issue>, seq<Issue>))
    ensures (SteeringBias(true) in r.0 || SteeringBias(false) in r.0) <==>
              steering.Some? && Abs(steering.value.mean) > SteeringMeanThreshold
    ensures steering.Some? && Abs(steering.value.mean) > SteeringMeanThreshold ==>
              SteeringBias(steering.value.mean < 0.0) in r.0
    ensures NoSteeringExploration in r.0 <==>
              steering.Some? && steering.value.variance < SteeringStdThreshold * SteeringStdThreshold
    ensures NegativeAverageReward in r.0 <==> episodes.meanReward < RewardNegativeThreshold
    ensures LowThrottleVariation in r.1 <==>
              actions.throttle.Some? && actions.throttle.value.variance < ThrottleStdThreshold * ThrottleStdThreshold
    ensures LowSuccessRate in r.1 <==> episodes.successRate < SuccessRateThreshold
    ensures forall p :: p in r.0 ==> !p.LowThrottleVariation? && !p.LowSuccessRate?
    ensures forall w :: w in r.1 ==> w.LowThrottleVariation? || w.LowSuccessRate?
  {
    var bias := if steering.Some? && Abs(steering.value.mean) > SteeringMeanThreshold
                then [SteeringBias(steering.value.mean < 0.0)] else [];
    var explore := if steering.Some? && steering.value.variance < SteeringStdThreshold * SteeringStdThreshold
                   then [NoSteeringExploration] else [];
    var throttle := if actions.throttle.Some? &&
                       actions.throttle.value.variance < ThrottleStdThreshold * ThrottleStdThreshold
                    then [LowThrottleVariation] else [];
    var reward := if episodes.meanReward < RewardNegativeThreshold then [NegativeAverageReward] else [];
    var success := if episodes.successRate < SuccessRateThreshold then [LowSuccessRate] else [];
    (bias + explore + reward, throttle + success)
  }

  /** ASCII `str.lower()`. */
  function Lower(s: string): (r: string)
    ensures |r| == |s|
  {
    if s == [] then []
    else [if 'A' <= s[0] <= 'Z' then (s[0] as int + 32) as char else s[0]] + Lower(s[1..])
  }

  lemma {:induction false} LowerKeepsNonUpper(w: string)
    requires forall i :: 0 <= i < |w| ==> !('A' <= w[i] <= 'Z')
    ensures Lower(w) == w
  {
    if w != [] {
      LowerKeepsNonUpper(w[1..]);
      assert w == [w[0]] + w[1..];
    }
  }

  /** `s.lower().strip()`, the normalisation every prompt applies. */
  function Normalize(s: string): string
  {
    StripRight(StripLeft(Lower(s)))
  }

  /** A word without upper-case letters and without surrounding whitespace
      is its own normal form, so typing the literal command works. */
  lemma NormalizeWord(w: string)
    requires forall i :: 0 <= i < |w| ==> !('A' <= w[i] <= 'Z')
    requires w != [] ==> !IsSpace(w[0]) && !IsSpace(w[|w| - 1])
    ensures Normalize(w) == w
  {
    LowerKeepsNonUpper(w);
  }

  /** The rollout numbers in file order. */
  function Numbers(rollouts: seq<Rollout>): (r: seq<int>)
    ensures |r| == |rollouts| && forall k :: 0 <= k < |r| ==> r[k] == rollouts[k].rolloutNumber
  {
    if rollouts == [] then [] else [rollouts[0].rolloutNumber] + Numbers(rollouts[1..])
  }

  /** `sorted(r['rollout_number'] for r in rollouts)`. */
  function SortedNumbers(rollouts: seq<Rollout>): (r: seq<int>)
    ensures |r| == |rollouts|
    ensures multiset(r) == multiset(Numbers(rollouts))
    ensures SortedBy(r, IntId, IntLe)
  {
    IntLeTotal();
    SortByPermutes(Numbers(rollouts), IntId, IntLe);
    SortBySorted(Numbers(rollouts), IntId, IntLe);
    SortBy(Numbers(rollouts), IntId, IntLe)
  }

  /** `parse_rollout_selection` on the normalised selection `s`. */
  function SelectNormalized(s: string, nums: seq<int>): Option<int>
    requires nums != []
  {
    if s == "first" then Some(nums[0])
    else if s == "last" || s == "latest" then Some(nums[|nums| - 1])
    else if |s| > 0 && s[0] == '-' then
      match ParseInt(s)
      case Some(idx) =>
        if -|nums| <= idx <= 0 then Some(if idx < 0 then nums[|nums| + idx] else nums[0])
        else None
      case None => None
    else ParseInt(s)
  }

  /** `parse_rollout_selection`: `None` without rollouts; "first" the
      smallest number, "last"/"latest" the largest; a string starting with
      '-' is a Python index from the end into the sorted numbers when
      `int()` accepts it and its magnitude is at most their count; any
      other string is read as a rollout number by `int()`. */
  function ParseRolloutSelection(selection: string, rollouts: seq<Rollout>): (r: Option<int>)
    ensures rollouts == [] ==> r.None?
  {
    if rollouts == [] then None
    else SelectNormalized(Normalize(selection), SortedNumbers(rollouts))
  }

  /** `int()` of a string whose first character is '-' is never positive,
      so the `abs(idx) <= len` test leaves exactly the indices -n .. 0. */
  lemma MinusSelectionNotPositive(s: string)
    requires |s| > 0 && s[0] == '-'
    ensures ParseInt(s).Some? ==> ParseInt(s).value <= 0
  {
    var t := StripRight(StripLeft(s));
    assert StripLeft(s) == s;
    if t != [] {
      assert t[0] == '-' && !IsDigit(t[0]);
    }
  }

  /** "first" selects the smallest rollout number and "last" the largest,
      each the number of some loaded rollout. */
  lemma FirstAndLastSelection(first: string, last: string, rollouts: seq<Rollout>)
    requires rollouts != []
    requires Normalize(first) == "first" && Normalize(last) == "last"
    ensures ParseRolloutSelection(first, rollouts).Some? && ParseRolloutSelection(last, rollouts).Some?
    ensures var lo := ParseRolloutSelection(first, rollouts).value;
            var hi := ParseRolloutSelection(last, rollouts).value;
            lo in Numbers(rollouts) && hi in Numbers(rollouts) &&
            forall k :: 0 <= k < |rollouts| ==> lo <= rollouts[k].rolloutNumber <= hi
  {
    var nums := SortedNumbers(rollouts);
    assert ParseRolloutSelection(first, rollouts) == Some(nums[0]);
    assert ParseRolloutSelection(last, rollouts) == Some(nums[|nums| - 1]);
    assert nums[0] in multiset(nums) && nums[|nums| - 1] in multiset(nums);
    forall k | 0 <= k < |rollouts| ensures nums[0] <= rollouts[k].rolloutNumber <= nums[|nums| - 1] {
      assert Numbers(rollouts)[k] in multiset(Numbers(rollouts));
      var j :| 0 <= j < |nums| && nums[j] == rollouts[k].rolloutNumber;
      if j > 0 {
        assert IntLe(IntId(nums[0]), IntId(nums[j]));
      }
      if j < |nums| - 1 {
        assert IntLe(IntId(nums[j]), IntId(nums[|nums| - 1]));
      }
    }
  }

  /** "-" followed by the digits of k is already normalised. */
  lemma MinusDigitsNormal(k: nat)
    ensures Normalize("-" + NatToString(k)) == "-" + NatToString(k)
  {
    var d := NatToString(k);
    var s := "-" + d;
    forall i | 0 <= i < |s| ensures !('A' <= s[i] <= 'Z') {
      if i > 0 {
        assert s[i] == d[i - 1] && IsDigit(d[i - 1]);
      }
    }
    assert s[|s| - 1] == d[|d| - 1] && IsDigit(s[|s| - 1]);
    NormalizeWord(s);
  }

  /** A normalised selection "-..." that `int()` reads as an index from the
      end picks that element of the sorted numbers. */
  lemma SelectFromEnd(s: string, nums: seq<int>, idx: int)
    requires |s| > 0 && s[0] == '-' && ParseInt(s) == Some(idx)
    requires -|nums| <= idx < 0
    ensures SelectNormalized(s, nums) == Some(nums[|nums| + idx])
  {
    assert s[0] != "first"[0] && s[0] != "last"[0] && s[0] != "latest"[0];
  }

  lemma SelectionOfNormalised(selection: string, rollouts: seq<Rollout>)
    requires rollouts != [] && Normalize(selection) == selection
    ensures ParseRolloutSelection(selection, rollouts) == SelectNormalized(selection, SortedNumbers(rollouts))
  {
  }

  /** "-k" for 1 <= k <= n picks the k-th largest rollout number, "-1" the
      latest. */
  lemma NegativeSelection(s: string, rollouts: seq<Rollout>, k: nat)
    requires s == "-" + NatToString(k)
    requires 1 <= k <= |rollouts|
    ensures ParseRolloutSelection(s, rollouts) == Some(SortedNumbers(rollouts)[|rollouts| - k])
  {
    MinusDigitsNormal(k);
    ParseIntOfNegNat(k);
    SelectionOfNormalised(s, rollouts);
    SelectFromEnd(s, SortedNumbers(rollouts), -(k as int));
  }

  /** `rollout_nums.index(target)`: the first position holding `target`. */
  function IndexOf(nums: seq<int>, target: int): (r: nat)
    requires target in nums
    ensures r < |nums| && nums[r] == target
    ensures forall k :: 0 <= k < r ==> nums[k] != target
  {
    if nums[0] == target then 0 else 1 + IndexOf(nums[1..], target)
  }

  /** The commands browse mode tells apart. */
  datatype BrowseCommand = Next | Previous | First | Last | Inspect | QuitBrowse | Empty
                         | Jump(target: int) | Unknown

  /** The command a normalised line names; an integer is a jump target,
      any other text is unknown. */
  function ParseBrowseCommand(cmd: string): BrowseCommand
  {
    if cmd == "n" || cmd == "next" then Next
    else if cmd == "p" || cmd == "prev" || cmd == "previous" then Previous
    else if cmd == "f" || cmd == "first" then First
    else if cmd == "l" || cmd == "last" || cmd == "latest" then Last
    else if cmd == "i" || cmd == "inspect" then Inspect
    else if cmd == "q" || cmd == "quit" || cmd == "exit" then QuitBrowse
    else if cmd == "" then Empty
    else
      match ParseInt(cmd)
      case Some(target) => Jump(target)
      case None => Unknown
  }

  /** The outcome of one browse-mode command. */
  datatype BrowseOutcome = Move(index: nat) | Quit

  /** A command applied to the cursor `idx` into the sorted rollout numbers:
      next/previous stop at the ends, first/last jump, a jump selects that
      rollout number if present and otherwise that index if in range;
      quitting leaves; inspecting, an empty line and anything else keep the
      cursor. */
  function ApplyBrowseCommand(nums: seq<int>, idx: nat, c: BrowseCommand): (r: BrowseOutcome)
    requires idx < |nums|
    ensures r.Move? ==> r.index < |nums|
    ensures r == Quit <==> c == QuitBrowse
    ensures c.Jump? && r.index != idx ==> nums[r.index] == c.target || r.index == c.target
    ensures c.Jump? && c.target in nums ==> nums[r.index] == c.target
  {
    match c
    case Next => Move(if idx < |nums| - 1 then idx + 1 else idx)
    case Previous => Move(if idx > 0 then idx - 1 else idx)
    case First => Move(0)
    case Last => Move(|nums| - 1)
    case Inspect => Move(idx)
    case QuitBrowse => Quit
    case Empty => Move(idx)
    case Jump(target) =>
      if target in nums then Move(IndexOf(nums, target))
      else if 0 <= target < |nums| then Move(target)
      else Move(idx)
    case Unknown => Move(idx)
  }

  /** One typed command: `input(...).lower().strip()`, then the command. */
  function BrowseStep(nums: seq<int>, idx: nat, command: string): (r: BrowseOutcome)
    requires idx < |nums|
    ensures r.Move? ==> r.index < |nums|
  {
    ApplyBrowseCommand(nums, idx, ParseBrowseCommand(Normalize(command)))
  }

  lemma ParsesNext() ensures ParseBrowseCommand("next") == Next { }
  lemma ParsesPrevious() ensures ParseBrowseCommand("previous") == Previous { }
  lemma ParsesQ() ensures ParseBrowseCommand("q") == QuitBrowse { }
  lemma ParsesQuit() ensures ParseBrowseCommand("quit") == QuitBrowse { }

  /** The typed words "next" and "previous" are those commands. */
  lemma ReadsNext()
    ensures ParseBrowseCommand(Normalize("next")) == Next
  {
    NormalizeWord("next");
    ParsesNext();
  }

  lemma ReadsPrevious()
    ensures ParseBrowseCommand(Normalize("previous")) == Previous
  {
    NormalizeWord("previous");
    ParsesPrevious();
  }

  lemma ReadsQ()
    ensures Normalize("q") == "q" && ParseBrowseCommand(Normalize("q")) == QuitBrowse
  {
    NormalizeWord("q");
    ParsesQ();
  }

  lemma ReadsQuit()
    ensures Normalize("quit") == "quit" && ParseBrowseCommand(Normalize("quit")) == QuitBrowse
  {
    NormalizeWord("quit");
    ParsesQuit();
  }

  /** "next" then "previous" comes back, except at the last rollout. */
  lemma NextThenPrevious(nums: seq<int>, idx: nat)
    requires idx + 1 < |nums|
    ensures BrowseStep(nums, idx, "next") == Move(idx + 1)
    ensures BrowseStep(nums, idx + 1, "previous") == Move(idx)
  {
    ReadsNext();
    ReadsPrevious();
  }

  /** At the ends, "next" and "previous" do not move the cursor. */
  lemma BrowseStopsAtEnds(nums: seq<int>)
    requires nums != []
    ensures BrowseStep(nums, |nums| - 1, "next") == Move(|nums| - 1)
    ensures BrowseStep(nums, 0, "previous") == Move(0)
  {
    ReadsNext();
    ReadsPrevious();
  }

  /** The cursor after the commands, up to the first that quits. */
  function BrowseRun(nums: seq<int>, idx: nat, commands: seq<string>): (r: nat)
    requires idx < |nums|
    ensures r < |nums|
    decreases |commands|
  {
    if commands == [] then idx
    else
      match BrowseStep(nums, idx, commands[0])
      case Quit => idx
      case Move(next) => BrowseRun(nums, next, commands[1..])
  }

  /** `browse_rollouts` over the typed commands: starts at the latest
      rollout and applies the commands until one quits; the cursor stays a
      valid index throughout. */
  method BrowseRollouts(rollouts: seq<Rollout>, commands: seq<string>) returns (finalIdx: Option<nat>)
    ensures rollouts == [] ==> finalIdx.None?
    ensures rollouts != [] ==> finalIdx == Some(BrowseRun(SortedNumbers(rollouts), |rollouts| - 1, commands))
    ensures finalIdx.Some? ==> finalIdx.value < |rollouts|
  {
    if rollouts == [] {
      return None;
    }
    var nums := SortedNumbers(rollouts);
    var currentIdx: nat := |nums| - 1;
    var c := 0;
    while c < |commands|
      invariant c <= |commands|
      invariant currentIdx < |nums|
      invariant BrowseRun(nums, |nums| - 1, commands) == BrowseRun(nums, currentIdx, commands[c..])
    {
      assert commands[c..][1..] == commands[c + 1..];
      var outcome := BrowseStep(nums, currentIdx, commands[c]);
      if outcome.Quit? {
        break;
      }
      currentIdx := outcome.index;
      c := c + 1;
    }
    if c == |commands| {
      assert commands[c..] == [];
    }
    finalIdx := Some(currentIdx);
  }

  /** `execute_input`'s result: false (leave the tool) exactly for "exit"
      and "quit", in any case and with surrounding whitespace. */
  function ExecuteInputContinues(inputCommand: string): (r: bool)
  {
    var cmd := Normalize(inputCommand);
    !(cmd == "exit" || cmd == "quit")
  }

  /** "q" leaves browse mode, but at the main prompt it is the quick check
      and the tool keeps running. */
  lemma QLeavesOnlyBrowse(nums: seq<int>, idx: nat)
    requires idx < |nums|
    ensures BrowseStep(nums, idx, "q") == Quit && ExecuteInputContinues("q")
  {
    QQuitsBrowse(nums, idx);
    QKeepsRunning();
  }

  lemma QQuitsBrowse(nums: seq<int>, idx: nat)
    requires idx < |nums|
    ensures BrowseStep(nums, idx, "q") == Quit
  {
    ReadsQ();
  }

  lemma QKeepsRunning()
    ensures ExecuteInputContinues("q")
  {
    NormalizeWord("q");
    ShortWordContinues("q");
  }

  /** A command shorter than "exit" and "quit" that is its own normal form
      keeps the tool running. */
  lemma ShortWordContinues(cmd: string)
    requires Normalize(cmd) == cmd && |cmd| < 4
    ensures ExecuteInputContinues(cmd)
  {
    assert |"exit"| == 4 && |"quit"| == 4;
  }

  /** "quit" leaves both browse mode and the tool. */
  lemma QuitLeavesBoth(nums: seq<int>, idx: nat)
    requires idx < |nums|
    ensures BrowseStep(nums, idx, "quit") == Quit && !ExecuteInputContinues("quit")
  {
    ReadsQuit();
  }
}
