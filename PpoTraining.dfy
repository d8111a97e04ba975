/** The PPO trainer of `train_pytorch.py`: the backward GAE recursion, the
    clamps and guards of one training step, the sanitising loader of a
    rollout export and the batch plan of the epoch loop. Tensors are
    sequences of reals; the network's forward pass, autograd and Adam are
    parameters. */
module PpoTraining {
  import opened Common

  // ---------------------------------------------------------------------
  // Generalized Advantage Estimation (`PPOTrainer.compute_gae`)
  // ---------------------------------------------------------------------

  predicate SameLength(rewards: seq<real>, values: seq<real>, dones: seq<bool>)
  {
    |values| == |rewards| && |dones| == |rewards|
  }

  /** The value that bootstraps step `i`: the next step's value, or the
      supplied `nextValue` after the last step. */
  function NextValue(values: seq<real>, nextValue: real, i: nat): real
    requires i < |values|
  {
    if i + 1 == |values| then nextValue else values[i + 1]
  }

  /** The temporal-difference error of a step that is not an episode end. */
  function TdError(rewards: seq<real>, values: seq<real>, nextValue: real, gamma: real, i: nat): real
    requires |values| == |rewards| && i < |rewards|
  {
    rewards[i] + gamma * NextValue(values, nextValue, i) - values[i]
  }

  /** The accumulator `gae` once the backward loop has processed steps
      `i..n-1`. It starts at 0 past the last step; a done step restarts it
      from its own reward minus value. */
  function GaeFrom(rewards: seq<real>, values: seq<real>, dones: seq<bool>, nextValue: real,
                   gamma: real, lambda: real, i: nat): real
    requires SameLength(rewards, values, dones) && i <= |rewards|
    decreases |rewards| - i
  {
    if i == |rewards| then 0.0
    else if dones[i] then rewards[i] - values[i]
    else TdError(rewards, values, nextValue, gamma, i)
         + gamma * lambda * GaeFrom(rewards, values, dones, nextValue, gamma, lambda, i + 1)
  }

  function Advantages(rewards: seq<real>, values: seq<real>, dones: seq<bool>, nextValue: real,
                      gamma: real, lambda: real): (a: seq<real>)
    requires SameLength(rewards, values, dones)
  {
    seq(|rewards|, i requires 0 <= i < |rewards| =>
      GaeFrom(rewards, values, dones, nextValue, gamma, lambda, i))
  }

  /** `compute_gae`: a loop from the last step to the first that writes
      `advantages[step]` in place, then `returns = advantages + values`. */
  method ComputeGae(rewards: seq<real>, values: seq<real>, dones: seq<bool>, nextValue: real,
                    gamma: real, lambda: real)
    returns (advantages: seq<real>, returnValues: seq<real>)
    requires SameLength(rewards, values, dones)
    ensures advantages == Advantages(rewards, values, dones, nextValue, gamma, lambda)
    ensures |returnValues| == |rewards|
    ensures forall i :: 0 <= i < |rewards| ==> returnValues[i] == advantages[i] + values[i]
    ensures forall i :: 0 <= i < |rewards| && dones[i] ==> advantages[i] == rewards[i] - values[i]
  {
    var n := |rewards|;
    var adv := new real[n](_ => 0.0);
    var gae := 0.0;
    var nextVal := nextValue;
    var step := n;
    while step > 0
      invariant 0 <= step <= n
      invariant gae == GaeFrom(rewards, values, dones, nextValue, gamma, lambda, step)
      invariant nextVal == if step == n then nextValue else values[step]
      invariant forall k :: step <= k < n ==>
                  adv[k] == GaeFrom(rewards, values, dones, nextValue, gamma, lambda, k)
    {
      step := step - 1;
      if dones[step] {
        var delta := rewards[step] - values[step];
        gae := delta;
      } else {
        var delta := rewards[step] + gamma * nextVal - values[step];
        gae := delta + gamma * lambda * gae;
      }
      adv[step] := gae;
      nextVal := values[step];
    }
    advantages := adv[..];
    returnValues := seq(n, i requires 0 <= i < n => advantages[i] + values[i]);
  }

  /** A done step isolates everything before it from everything after it:
      the advantages up to and including the done step are those of the
      batch cut just after it, whatever the cut batch bootstraps with. */
  lemma {:induction false} GaeEpisodeIsolation(rewards: seq<real>, values: seq<real>, dones: seq<bool>,
                                               nextValue: real, gamma: real, lambda: real,
                                               cut: nat, j: nat, otherNext: real)
    requires SameLength(rewards, values, dones)
    requires j <= cut < |rewards| && dones[cut]
    ensures GaeFrom(rewards, values, dones, nextValue, gamma, lambda, j)
         == GaeFrom(rewards[..cut + 1], values[..cut + 1], dones[..cut + 1], otherNext, gamma, lambda, j)
    decreases cut - j
  {
    if j < cut {
      GaeEpisodeIsolation(rewards, values, dones, nextValue, gamma, lambda, cut, j + 1, otherNext);
      assert NextValue(values, nextValue, j) == NextValue(values[..cut + 1], otherNext, j);
    }
  }

  function Pow(x: real, k: nat): real
  {
    if k == 0 then 1.0 else x * Pow(x, k - 1)
  }

  /** `sum_{k=i}^{j-1} f^(k-i) * terms[k]`, accumulated from the last term. */
  function PowSum(terms: seq<real>, f: real, i: nat, j: nat): real
    requires i <= j <= |terms|
    decreases j - i
  {
    if j == i then 0.0 else PowSum(terms, f, i, j - 1) + Pow(f, j - 1 - i) * terms[j - 1]
  }

  /** The discounted sum splits off its first term, the rest discounted
      once more. */
  lemma {:induction false} PowSumHead(terms: seq<real>, f: real, i: nat, j: nat)
    requires i < j <= |terms|
    ensures PowSum(terms, f, i, j) == terms[i] + f * PowSum(terms, f, i + 1, j)
    decreases j - i
  {
    if j > i + 1 {
      PowSumHead(terms, f, i, j - 1);
      var k: nat := j - 2 - i;
      assert j - 1 - (i + 1) == k && j - 1 - i == k + 1;
      Regroup(PowSum(terms, f, i, j), PowSum(terms, f, i, j - 1), terms[i], PowSum(terms, f, i + 1, j - 1),
              PowSum(terms, f, i + 1, j), Pow(f, k), Pow(f, k + 1), terms[j - 1], f);
    } else {
      PowSumSingle(terms, f, i);
    }
  }

  lemma PowSumSingle(terms: seq<real>, f: real, i: nat)
    requires i < |terms|
    ensures PowSum(terms, f, i, i + 1) == terms[i] + f * PowSum(terms, f, i + 1, i + 1)
  {
    assert PowSum(terms, f, i + 1, i + 1) == 0.0 && Pow(f, 0) == 1.0;
    assert PowSum(terms, f, i, i + 1) == 0.0 + 1.0 * terms[i];
  }

  /** The algebra of one PowSumHead step: `s` is `s1` plus its last term,
      `s1` splits off its head `d`, and `u` is the tail sum with the same
      last term one power lower. */
  lemma Regroup(s: real, s1: real, d: real, a: real, u: real, p: real, q: real, t: real, f: real)
    requires s == s1 + q * t && s1 == d + f * a && q == f * p && u == a + p * t
    ensures s == d + f * u
  {
    assert f * u == f * a + (f * p) * t;
  }

  /** The TD error of every step. */
  function TdErrors(rewards: seq<real>, values: seq<real>, nextValue: real, gamma: real): (r: seq<real>)
    requires |values| == |rewards|
    ensures |r| == |rewards|
    ensures forall k :: 0 <= k < |r| ==> r[k] == TdError(rewards, values, nextValue, gamma, k)
  {
    seq(|rewards|, k requires 0 <= k < |rewards| => TdError(rewards, values, nextValue, gamma, k))
  }

  /** The closed form of GAE: `sum_{k=i}^{j-1} f^(k-i) * delta_k`. */
  function DiscountedTdSum(rewards: seq<real>, values: seq<real>, nextValue: real, gamma: real,
                           f: real, i: nat, j: nat): real
    requires |values| == |rewards| && i <= j <= |rewards|
  {
    PowSum(TdErrors(rewards, values, nextValue, gamma), f, i, j)
  }

  /** With no episode end from step `i` on, the advantage at `i` is the
      telescoped sum of TD errors discounted by `gamma * lambda`. */
  lemma {:induction false} GaeTelescopes(rewards: seq<real>, values: seq<real>, dones: seq<bool>,
                                         nextValue: real, gamma: real, lambda: real, i: nat)
    requires SameLength(rewards, values, dones) && i <= |rewards|
    requires forall k :: i <= k < |rewards| ==> !dones[k]
    ensures GaeFrom(rewards, values, dones, nextValue, gamma, lambda, i)
         == DiscountedTdSum(rewards, values, nextValue, gamma, gamma * lambda, i, |rewards|)
    decreases |rewards| - i
  {
    if i < |rewards| {
      GaeTelescopes(rewards, values, dones, nextValue, gamma, lambda, i + 1);
      PowSumHead(TdErrors(rewards, values, nextValue, gamma), gamma * lambda, i, |rewards|);
    }
  }

  /** Three unit rewards, zero values, the last step done, gamma 0.99 and
      lambda 0.95: the advantages are 2.82504025, 1.9405 and 1. */
  lemma GaeWorkedExample()
    ensures Advantages([1.0, 1.0, 1.0], [0.0, 0.0, 0.0], [false, false, true], 0.0, 0.99, 0.95)
         == [2.82504025, 1.9405, 1.0]
  {
    var r, v, d := [1.0, 1.0, 1.0], [0.0, 0.0, 0.0], [false, false, true];
    assert GaeFrom(r, v, d, 0.0, 0.99, 0.95, 2) == 1.0;
    assert GaeFrom(r, v, d, 0.0, 0.99, 0.95, 1) == 1.9405;
    assert GaeFrom(r, v, d, 0.0, 0.99, 0.95, 0) == 2.82504025;
  }

  // ---------------------------------------------------------------------
  // The guards of `PPOTrainer.train_step`
  // ---------------------------------------------------------------------

  function ClampAll(s: seq<real>, lo: real, hi: real): (r: seq<real>)
    requires lo <= hi
    ensures |r| == |s|
    ensures forall i :: 0 <= i < |s| ==> lo <= r[i] <= hi
    ensures forall i :: 0 <= i < |s| && lo <= s[i] <= hi ==> r[i] == s[i]
  {
    seq(|s|, i requires 0 <= i < |s| => Clamp(s[i], lo, hi))
  }

  /** `torch.std` is the unbiased (n - 1) standard deviation; for a single
      element it is NaN, and NaN > 1e-8 is false. */
  function UnbiasedVariance(s: seq<real>): real
    requires |s| >= 2
  {
    var m := Mean(s);
    Sum(seq(|s|, i requires 0 <= i < |s| => (s[i] - m) * (s[i] - m))) / (|s| - 1) as real
  }

  predicate DividesByStd(adv: seq<real>, sqrt: real -> real)
  {
    |adv| >= 2 && sqrt(UnbiasedVariance(adv)) > 0.00000001
  }

  /** The advantage normalisation: mean-centre, and divide by `std + 1e-8`
      only when the standard deviation exceeds 1e-8. Either way the result
      has zero mean. */
  function NormalizeAdvantages(adv: seq<real>, sqrt: real -> real): (r: seq<real>)
    ensures |r| == |adv|
    ensures Sum(r) == 0.0
    ensures !DividesByStd(adv, sqrt) ==> forall i :: 0 <= i < |adv| ==> r[i] == adv[i] - Mean(adv)
    ensures DividesByStd(adv, sqrt) ==>
              forall i :: 0 <= i < |adv| ==>
                r[i] * (sqrt(UnbiasedVariance(adv)) + 0.00000001) == adv[i] - Mean(adv)
  {
    var c := Centered(adv, Mean(adv));
    CenteredSumZero(adv);
    if DividesByStd(adv, sqrt) then
      var k := sqrt(UnbiasedVariance(adv)) + 0.00000001;
      ScaledCentered(adv, k);
      Scaled(c, k)
    else
      c
  }

  lemma ScaledCentered(adv: seq<real>, k: real)
    requires k > 0.0
    ensures |Scaled(Centered(adv, Mean(adv)), k)| == |adv|
    ensures Sum(Scaled(Centered(adv, Mean(adv)), k)) == 0.0
    ensures forall i :: 0 <= i < |adv| ==> Scaled(Centered(adv, Mean(adv)), k)[i] * k == adv[i] - Mean(adv)
  {
    var c := Centered(adv, Mean(adv));
    CenteredSumZero(adv);
    ScaledUndo(c, k);
    SumScaled(c, k);
  }

  /** Clamps a network output that is known not to be NaN. */
  function ClampFloat(f: Float, lo: real, hi: real): (r: real)
    requires lo <= hi && !f.NaN?
    ensures lo <= r <= hi
    ensures f.Finite? && lo <= f.v <= hi ==> r == f.v
  {
    match f
    case Finite(x) => Clamp(x, lo, hi)
    case Inf(positive) => if positive then hi else lo
  }

  /** The importance ratio: both log-probabilities clamped to [-10, 10],
      then `exp` of their difference clamped to [0.1, 10]. */
  function ImportanceRatio(newLogProb: Float, oldLogProb: real, exp: real -> real): (r: real)
    requires !newLogProb.NaN?
    ensures 0.1 <= r <= 10.0
    ensures 0.1 <= exp(ClampFloat(newLogProb, -10.0, 10.0) - Clamp(oldLogProb, -10.0, 10.0)) <= 10.0 ==>
              r == exp(ClampFloat(newLogProb, -10.0, 10.0) - Clamp(oldLogProb, -10.0, 10.0))
  {
    Clamp(exp(ClampFloat(newLogProb, -10.0, 10.0) - Clamp(oldLogProb, -10.0, 10.0)), 0.1, 10.0)
  }

  /** The clipped surrogate of one sample; it never exceeds the unclipped one. */
  function Surrogate(ratio: real, adv: real, clipRange: real): (r: real)
    requires clipRange >= 0.0
    ensures r <= ratio * adv
    ensures r <= Clamp(ratio, 1.0 - clipRange, 1.0 + clipRange) * adv
  {
    Min(ratio * adv, Clamp(ratio, 1.0 - clipRange, 1.0 + clipRange) * adv)
  }

  predicate NoNaN(s: seq<Float>) { forall i :: 0 <= i < |s| ==> !s[i].NaN? }

  predicate AllFinite(s: seq<seq<Float>>)
  {
    forall i, j :: 0 <= i < |s| && 0 <= j < |s[i]| ==> s[i][j].Finite?
  }

  predicate AnyInfinite(s: seq<Float>) { exists i :: 0 <= i < |s| && s[i].Inf? }

  /** The dual-clip value loss, `max((v - R)^2, (v_clip - R)^2)` averaged,
      scaled and clamped to [0, 100]. An infinite prediction makes the mean
      +inf, which the clamp turns into 100. */
  function ValueLoss(newValues: seq<Float>, oldValues: seq<real>, targets: seq<real>,
                     clipRange: real, valueCoef: real): (r: real)
    requires |newValues| == |oldValues| == |targets| && NoNaN(newValues)
    requires clipRange >= 0.0 && valueCoef > 0.0
    ensures 0.0 <= r <= 100.0
    ensures AnyInfinite(newValues) ==> r == 100.0
  {
    if AnyInfinite(newValues) then 100.0
    else
      var terms := seq(|newValues| , i requires 0 <= i < |newValues| =>
        var v := newValues[i].v;
        var clipped := oldValues[i] + Clamp(v - oldValues[i], -clipRange, clipRange);
        Max((v - targets[i]) * (v - targets[i]), (clipped - targets[i]) * (clipped - targets[i])));
      Clamp(Mean(terms) * valueCoef, 0.0, 100.0)
  }

  datatype Losses = Losses(policy: real, value: real, entropy: real, total: real)

  const ZeroLosses := Losses(0.0, 0.0, 0.0, 0.0)

  datatype TrainConfig = TrainConfig(gamma: real, lambda: real, clipRange: real,
                                     valueCoef: real, entropyCoef: real)
  {
    predicate Valid() { clipRange >= 0.0 && valueCoef > 0.0 && entropyCoef >= 0.0 }
  }

  /** The defaults of `PPOTrainer.__init__`. */
  const DefaultConfig := TrainConfig(0.99, 0.95, 0.2, 0.5, 0.05)

  /** What the network reports for a batch: `evaluate_action`'s log-probs
      and values, and the entropy of its Gaussian. They are computed by
      PyTorch and are inputs here. */
  datatype NetworkOutput = NetworkOutput(newLogProbs: seq<Float>, newValues: seq<Float>, entropy: Float)

  datatype Batch = Batch(obs: seq<seq<Float>>, oldLogProbs: seq<real>, rewards: seq<real>,
                         dones: seq<bool>, values: seq<real>)
  {
    predicate WellFormed()
    {
      |obs| == |rewards| && |oldLogProbs| == |rewards| && SameLength(rewards, values, dones)
    }
  }

  /** Whether `train_step` gets past its three NaN/Inf checks: finite
      observations; no NaN in the recomputed log-probs or values; a finite
      total loss. An empty batch has a NaN mean loss and is skipped too;
      the clamped policy and value losses are always finite, so the total
      is finite exactly when the entropy is. */
  predicate StepAccepted(b: Batch, out: NetworkOutput)
  {
    AllFinite(b.obs) && NoNaN(out.newLogProbs) && NoNaN(out.newValues)
    && out.entropy.Finite? && |b.rewards| > 0
  }

  /** The losses of one step, or None when the step is skipped. */
  function StepLosses(cfg: TrainConfig, b: Batch, out: NetworkOutput,
                      exp: real -> real, sqrt: real -> real): (r: Option<Losses>)
    requires cfg.Valid() && b.WellFormed()
    requires |out.newLogProbs| == |b.rewards| && |out.newValues| == |b.rewards|
    ensures r.Some? <==> StepAccepted(b, out)
    ensures r.Some? ==> -100.0 <= r.value.policy <= 100.0 && 0.0 <= r.value.value <= 100.0
    ensures r.Some? ==> r.value.entropy == -out.entropy.v * cfg.entropyCoef
    ensures r.Some? ==> r.value.total == r.value.policy + r.value.value + r.value.entropy
  {
    if !StepAccepted(b, out) then None
    else
      var n := |b.rewards|;
      var gae := Advantages(b.rewards, b.values, b.dones, 0.0, cfg.gamma, cfg.lambda);
      var adv := NormalizeAdvantages(ClampAll(gae, -10.0, 10.0), sqrt);
      var returnValues := ClampAll(seq(n, i requires 0 <= i < n => gae[i] + b.values[i]), -100.0, 100.0);
      var surrogates := seq(n, i requires 0 <= i < n =>
        Surrogate(ImportanceRatio(out.newLogProbs[i], b.oldLogProbs[i], exp), adv[i], cfg.clipRange));
      var policy := Clamp(-Mean(surrogates), -100.0, 100.0);
      var value := ValueLoss(out.newValues, b.values, returnValues, cfg.clipRange, cfg.valueCoef);
      var entropy := -out.entropy.v * cfg.entropyCoef;
      Some(Losses(policy, value, entropy, policy + value + entropy))
  }

  /** The trainer's long-lived state: configuration, the policy
      parameters (opaque here) and the four loss histories that
      `train_step` appends to. */
  class PpoTrainer {
    const config: TrainConfig
    var parameters: seq<real>
    var policyLossHistory: seq<real>
    var valueLossHistory: seq<real>
    var entropyLossHistory: seq<real>
    var totalLossHistory: seq<real>

    ghost predicate Valid()
      reads this
    {
      config.Valid()
      && |valueLossHistory| == |policyLossHistory|
      && |entropyLossHistory| == |policyLossHistory|
      && |totalLossHistory| == |policyLossHistory|
    }

    constructor (cfg: TrainConfig, initialParameters: seq<real>)
      requires cfg.Valid()
      ensures Valid() && config == cfg && parameters == initialParameters
      ensures policyLossHistory == [] && valueLossHistory == []
      ensures entropyLossHistory == [] && totalLossHistory == []
    {
      config := cfg;
      parameters := initialParameters;
      policyLossHistory, valueLossHistory := [], [];
      entropyLossHistory, totalLossHistory := [], [];
    }

    /** One PPO step. A skipped step reports zero losses and leaves the
        parameters and the history alone; an accepted one applies
        `optimizerStep` (zero_grad, backward, clip, Adam) once and appends
        exactly one entry to each history. */
    method TrainStep(b: Batch, out: NetworkOutput, exp: real -> real, sqrt: real -> real,
                     optimizerStep: (seq<real>, Losses) -> seq<real>)
      returns (losses: Losses)
      requires Valid() && b.WellFormed()
      requires |out.newLogProbs| == |b.rewards| && |out.newValues| == |b.rewards|
      modifies this
      ensures Valid()
      ensures !StepAccepted(b, out) ==>
                losses == ZeroLosses && parameters == old(parameters)
                && policyLossHistory == old(policyLossHistory) && valueLossHistory == old(valueLossHistory)
                && entropyLossHistory == old(entropyLossHistory) && totalLossHistory == old(totalLossHistory)
      ensures StepAccepted(b, out) ==>
                Some(losses) == StepLosses(config, b, out, exp, sqrt)
                && parameters == optimizerStep(old(parameters), losses)
                && policyLossHistory == old(policyLossHistory) + [losses.policy]
                && valueLossHistory == old(valueLossHistory) + [losses.value]
                && entropyLossHistory == old(entropyLossHistory) + [losses.entropy]
                && totalLossHistory == old(totalLossHistory) + [losses.total]
    {
      var r := StepLosses(config, b, out, exp, sqrt);
      if r.None? {
        return ZeroLosses;
      }
      losses := r.value;
      parameters := optimizerStep(parameters, losses);
      policyLossHistory := policyLossHistory + [losses.policy];
      valueLossHistory := valueLossHistory + [losses.value];
      entropyLossHistory := entropyLossHistory + [losses.entropy];
      totalLossHistory := totalLossHistory + [losses.total];
    }
  }

  // ---------------------------------------------------------------------
  // Loading a rollout export (`load_unreal_export`, `sanitize_value`)
  // ---------------------------------------------------------------------

  /** A decoded JSON value. Numbers carry Python's float, so NaN and the
      infinities that `json.loads` accepts are representable. */
  datatype Json =
    | JNull
    | JBool(b: bool)
    | JNum(n: Float)
    | JStr(s: string)
    | JArr(items: seq<Json>)
    | JObj(fields: map<string, Json>)

  /** `sanitize_value`: a finite number passes through; NaN, infinities
      and non-numbers become the default 0.0. A bool is an int in Python,
      so true becomes 1.0. */
  function SanitizeValue(j: Json): (r: real)
    ensures j.JNum? && j.n.Finite? ==> r == j.n.v
    ensures j.JBool? ==> r == (if j.b then 1.0 else 0.0)
    ensures !j.JBool? && !(j.JNum? && j.n.Finite?) ==> r == 0.0
  {
    match j
    case JNum(Finite(x)) => x
    case JBool(b) => if b then 1.0 else 0.0
    case _ => 0.0
  }

  /** Python truthiness, used for the `done` flag (which is not sanitised). */
  predicate Truthy(j: Json)
  {
    match j
    case JNull => false
    case JBool(b) => b
    case JNum(f) => !(f.Finite? && f.v == 0.0)
    case JStr(s) => s != []
    case JArr(items) => items != []
    case JObj(m) => m != map[]
  }

  datatype Transition = Transition(state: seq<real>, action: seq<real>, reward: real,
                                   done: bool, logProb: real, value: real)

  /** `[sanitize_value(v) for v in exp['state']]`: iterating a string
      yields its characters and iterating an object its keys, all of which
      sanitise to 0.0; a scalar is not iterable and the transition is
      skipped. */
  function SanitizedState(j: Json): (r: Option<seq<real>>)
    ensures j.JArr? ==> r.Some? && |r.value| == |j.items|
    ensures j.JArr? ==> forall i :: 0 <= i < |j.items| ==> r.value[i] == SanitizeValue(j.items[i])
    ensures r.None? <==> !(j.JArr? || j.JStr? || j.JObj?)
  {
    match j
    case JArr(items) => Some(seq(|items|, i requires 0 <= i < |items| => SanitizeValue(items[i])))
    case JStr(s) => Some(seq(|s|, _ => 0.0))
    case JObj(m) => Some(seq(|m|, _ => 0.0))
    case _ => None
  }

  /** One experience, or None where the source's `try` skips it: not an
      object, or a missing `state`, `action`, `action.steer/throttle/brake`,
      `reward`, `log_prob` or `value`. A missing `done` means false. */
  function ParseTransition(e: Json): (r: Option<Transition>)
    ensures r.Some? ==> |r.value.action| == 3
    ensures r.Some? ==> e.JObj? && "state" in e.fields && "reward" in e.fields
                        && r.value.reward == SanitizeValue(e.fields["reward"])
    ensures r.Some? ==> r.value.done == ("done" in e.fields && Truthy(e.fields["done"]))
  {
    if !e.JObj? then None
    else
      var m := e.fields;
      if !("state" in m && "action" in m && "reward" in m && "log_prob" in m && "value" in m) then None
      else
        var state := SanitizedState(m["state"]);
        var action := m["action"];
        if state.None? || !action.JObj? then None
        else if !("steer" in action.fields && "throttle" in action.fields && "brake" in action.fields) then None
        else
          Some(Transition(state.value,
                          [SanitizeValue(action.fields["steer"]),
                           SanitizeValue(action.fields["throttle"]),
                           SanitizeValue(action.fields["brake"])],
                          SanitizeValue(m["reward"]),
                          "done" in m && Truthy(m["done"]),
                          SanitizeValue(m["log_prob"]),
                          SanitizeValue(m["value"])))
  }

  /** The valid transitions of a list of experiences, in order. */
  function ValidTransitions(items: seq<Json>): (r: seq<Transition>)
    ensures |r| <= |items|
  {
    if items == [] then []
    else
      var prefix := ValidTransitions(items[..|items| - 1]);
      match ParseTransition(items[|items| - 1])
      case Some(t) => prefix + [t]
      case None => prefix
  }

  /** The six columns `load_unreal_export` returns. */
  datatype ExportData = ExportData(obs: seq<seq<real>>, actions: seq<seq<real>>, rewards: seq<real>,
                                   dones: seq<bool>, logProbs: seq<real>, values: seq<real>)
  {
    predicate Columnar()
    {
      |actions| == |obs| && |rewards| == |obs| && |dones| == |obs|
      && |logProbs| == |obs| && |values| == |obs|
    }
    /** `data['obs'].shape[1]`. */
    function ObsWidth(): nat { if obs == [] then 0 else |obs[0]| }
  }

  function Columns(ts: seq<Transition>): (d: ExportData)
    ensures d.Columnar() && |d.obs| == |ts|
  {
    ExportData(seq(|ts|, i requires 0 <= i < |ts| => ts[i].state),
               seq(|ts|, i requires 0 <= i < |ts| => ts[i].action),
               seq(|ts|, i requires 0 <= i < |ts| => ts[i].reward),
               seq(|ts|, i requires 0 <= i < |ts| => ts[i].done),
               seq(|ts|, i requires 0 <= i < |ts| => ts[i].logProb),
               seq(|ts|, i requires 0 <= i < |ts| => ts[i].value))
  }

  /** What `len(experiences)` sees and what the loop iterates over. For an
      object or a string the loop sees keys or characters (strings), which
      every transition parse rejects; a scalar has no length. */
  function ExperienceItems(e: Json): (r: Option<seq<Json>>)
    ensures r.None? <==> e.JNull? || e.JBool? || e.JNum?
    ensures e.JArr? ==> r == Some(e.items)
    ensures e.JStr? ==> r.Some? && |r.value| == |e.s|
    ensures e.JObj? ==> r.Some? && |r.value| == |e.fields|
    ensures r.Some? && !e.JArr? ==> forall i :: 0 <= i < |r.value| ==> ParseTransition(r.value[i]).None?
  {
    match e
    case JArr(items) => Some(items)
    case JStr(s) => Some(seq(|s|, i requires 0 <= i < |s| => JStr([s[i]])))
    case JObj(m) => Some(seq(|m|, _ => JStr("")))
    case _ => None
  }

  /** Appending a transition appends one entry to every column. */
  lemma ColumnsSnoc(ts: seq<Transition>, t: Transition)
    ensures var d := Columns(ts);
            Columns(ts + [t]) == ExportData(d.obs + [t.state], d.actions + [t.action], d.rewards + [t.reward],
                                            d.dones + [t.done], d.logProbs + [t.logProb], d.values + [t.value])
  {
    var d, e := Columns(ts), Columns(ts + [t]);
    assert e.obs == d.obs + [t.state];
    assert e.actions == d.actions + [t.action];
    assert e.rewards == d.rewards + [t.reward];
    assert e.dones == d.dones + [t.done];
    assert e.logProbs == d.logProbs + [t.logProb];
    assert e.values == d.values + [t.value];
  }

  /** One more item adds its transition, if it parses, to the valid ones. */
  lemma ValidTransitionsStep(items: seq<Json>, i: nat)
    requires i < |items|
    ensures ValidTransitions(items[..i + 1]) ==
            ValidTransitions(items[..i]) + (if ParseTransition(items[i]).Some? then [ParseTransition(items[i]).value] else [])
  {
    assert items[..i + 1][..i] == items[..i];
  }

  /** The file is syntactically complete: non-empty and ending in `}` or `]`. */
  predicate LooksComplete(content: string)
  {
    content != [] && (content[|content| - 1] == '}' || content[|content| - 1] == ']')
  }

  /** What `load_unreal_export` ends in: no data (`None`), the six columns,
      or an exception it does not catch, which ends the training run. */
  datatype LoadOutcome = NoData | Loaded(data: ExportData) | Raised

  /** Python's `p in s` on strings: `p` occurs somewhere in `s`. */
  predicate IsSubstring(p: string, s: string)
  {
    p <= s || (s != [] && IsSubstring(p, s[1..]))
  }

  /** `'experiences' in data` for a top level that did parse; the test
      itself raises TypeError on a number, a boolean or null. */
  predicate HasExperiencesKey(data: Json)
  {
    match data
    case JObj(m) => "experiences" in m
    case JArr(items) => JStr("experiences") in items
    case JStr(s) => IsSubstring("experiences", s)
    case _ => false
  }

  /** The experiences of an object with an `experiences` entry, as the loop
      sees them; None when there are none to take (no such entry, or
      `len` has nothing to measure). */
  function ExportItems(data: Json): Option<seq<Json>>
  {
    if data.JObj? && "experiences" in data.fields then ExperienceItems(data.fields["experiences"]) else None
  }

  /** `np.array(obs, dtype=np.float32)` needs every state to have the same
      length; ragged states raise ValueError. */
  predicate SameWidth(rows: seq<seq<real>>)
  {
    forall i :: 0 <= i < |rows| ==> |rows[i]| == |rows[0]|
  }

  /** The ways a parsed export makes `load_unreal_export` raise outside its
      `try` blocks: the membership test on a scalar, `data['experiences']`
      on an array or string that passed the test, `len` of a scalar, and
      states of different lengths. */
  ghost predicate ExportRaises(data: Json)
  {
    || data.JNull? || data.JBool? || data.JNum?
    || (HasExperiencesKey(data) && !data.JObj?)
    || (data.JObj? && "experiences" in data.fields && ExperienceItems(data.fields["experiences"]).None?)
    || (ExportItems(data).Some? && ValidTransitions(ExportItems(data).value) != []
        && !SameWidth(Columns(ValidTransitions(ExportItems(data).value)).obs))
  }

  /** `load_unreal_export`: `content` is the stripped file text and
      `parsed` what `json.loads` made of it (None when it raised, which the
      function catches). */
  method LoadUnrealExport(content: string, parsed: Option<Json>) returns (r: LoadOutcome)
    ensures r.Raised? <==> LooksComplete(content) && parsed.Some? && ExportRaises(parsed.value)
    ensures r.NoData? <==>
              || !LooksComplete(content)
              || parsed.None?
              || (!ExportRaises(parsed.value) &&
                  (!HasExperiencesKey(parsed.value) || ValidTransitions(ExportItems(parsed.value).value) == []))
    ensures r.Loaded? ==> ExportItems(parsed.value).Some?
                          && r.data == Columns(ValidTransitions(ExportItems(parsed.value).value))
    ensures r.Loaded? ==> r.data.Columnar() && |r.data.obs| >= 1 && SameWidth(r.data.obs)
    ensures r.Loaded? ==> forall i :: 0 <= i < |r.data.actions| ==> |r.data.actions[i]| == 3
  {
    if !LooksComplete(content) || parsed.None? {
      return NoData;
    }
    var data := parsed.value;
    if data.JNull? || data.JBool? || data.JNum? {
      return Raised;
    }
    if !HasExperiencesKey(data) {
      return NoData;
    }
    if !data.JObj? {
      return Raised;
    }
    var items := ExperienceItems(data.fields["experiences"]);
    if items.None? {
      return Raised;
    }
    var experiences := items.value;
    if |experiences| == 0 {
      return NoData;
    }
    var columns, validCount := CollectTransitions(experiences);
    if validCount == 0 {
      return NoData;
    }
    if !SameWidth(columns.obs) {
      return Raised;
    }
    r := Loaded(columns);
    ActionsHaveThreeEntries(experiences);
  }

  /** The loop of `load_unreal_export`: the six columns of the valid
      transitions, and how many there are. */
  method CollectTransitions(experiences: seq<Json>) returns (d: ExportData, validCount: nat)
    ensures d == Columns(ValidTransitions(experiences))
    ensures validCount == |ValidTransitions(experiences)|
  {
    var obs: seq<seq<real>>, actions: seq<seq<real>>, rewards: seq<real> := [], [], [];
    var dones: seq<bool>, logProbs: seq<real>, values: seq<real> := [], [], [];
    validCount := 0;
    for i := 0 to |experiences|
      invariant ExportData(obs, actions, rewards, dones, logProbs, values)
                == Columns(ValidTransitions(experiences[..i]))
      invariant validCount == |ValidTransitions(experiences[..i])|
    {
      ValidTransitionsStep(experiences, i);
      var t := ParseTransition(experiences[i]);
      if t.Some? {
        ColumnsSnoc(ValidTransitions(experiences[..i]), t.value);
        obs := obs + [t.value.state];
        actions := actions + [t.value.action];
        rewards := rewards + [t.value.reward];
        dones := dones + [t.value.done];
        logProbs := logProbs + [t.value.logProb];
        values := values + [t.value.value];
        validCount := validCount + 1;
      }
    }
    assert experiences[..|experiences|] == experiences;
    d := ExportData(obs, actions, rewards, dones, logProbs, values);
  }

  lemma {:induction false} ActionsHaveThreeEntries(items: seq<Json>)
    ensures forall i :: 0 <= i < |ValidTransitions(items)| ==> |ValidTransitions(items)[i].action| == 3
  {
    if items != [] {
      ActionsHaveThreeEntries(items[..|items| - 1]);
    }
  }

  // ---------------------------------------------------------------------
  // The epoch loop of `main`
  // ---------------------------------------------------------------------

  /** How the search for the run's observation size ends. */
  datatype ObsSizeSearch = NotFound | Found(size: nat) | SearchRaised

  /** The observation size of the run: the width of the first file that
      loaded with at least one observation. A file before it that raises
      ends the run. */
  function DiscoverObsSize(files: seq<LoadOutcome>): (r: ObsSizeSearch)
    ensures r.Found? ==> exists k :: 0 <= k < |files| && files[k].Loaded? && |files[k].data.obs| > 0
                                    && files[k].data.ObsWidth() == r.size
    ensures r.SearchRaised? ==> exists k :: 0 <= k < |files| && files[k].Raised?
    ensures r.NotFound? ==> forall k :: 0 <= k < |files| ==>
                              files[k].NoData? || (files[k].Loaded? && |files[k].data.obs| == 0)
  {
    if files == [] then NotFound
    else if files[0].Raised? then SearchRaised
    else if files[0].Loaded? && |files[0].data.obs| > 0 then Found(files[0].data.ObsWidth())
    else
      var rest := DiscoverObsSize(files[1..]);
      match rest
      case Found(_) =>
        ghost var k :| 0 <= k < |files[1..]| && files[1..][k].Loaded? && |files[1..][k].data.obs| > 0
                       && files[1..][k].data.ObsWidth() == rest.size;
        assert files[k + 1] == files[1..][k];
        rest
      case SearchRaised =>
        ghost var k :| 0 <= k < |files[1..]| && files[1..][k].Raised?;
        assert files[k + 1] == files[1..][k];
        rest
      case NotFound =>
        assert forall k :: 1 <= k < |files| ==> files[k] == files[1..][k - 1];
        rest
  }

  predicate AcceptedFile(f: LoadOutcome, obsSize: nat)
  {
    f.Loaded? && f.data.ObsWidth() == obsSize
  }

  function AcceptedFiles(files: seq<LoadOutcome>, obsSize: nat): (r: seq<ExportData>)
    ensures |r| <= |files|
  {
    if files == [] then []
    else
      var prefix := AcceptedFiles(files[..|files| - 1], obsSize);
      var f := files[|files| - 1];
      if AcceptedFile(f, obsSize) then prefix + [f.data] else prefix
  }

  /** The per-epoch file loop: files without data or whose width differs
      from the run's observation size are skipped and counted; a file whose
      load raises ends the run (`raised`). */
  method LoadEpoch(files: seq<LoadOutcome>, obsSize: nat)
    returns (raised: bool, accepted: seq<ExportData>, loadedFiles: nat, skippedFiles: nat)
    ensures raised <==> exists k :: 0 <= k < |files| && files[k].Raised?
    ensures !raised ==> accepted == AcceptedFiles(files, obsSize)
    ensures !raised ==> loadedFiles == |accepted| && loadedFiles + skippedFiles == |files|
  {
    raised, accepted, loadedFiles, skippedFiles := false, [], 0, 0;
    for i := 0 to |files|
      invariant forall j :: 0 <= j < i ==> !files[j].Raised?
      invariant accepted == AcceptedFiles(files[..i], obsSize)
      invariant loadedFiles == |accepted| && loadedFiles + skippedFiles == i
    {
      assert files[..i + 1][..i] == files[..i];
      var data := files[i];
      if data.Raised? {
        raised := true;
        return;
      }
      if data.NoData? {
        skippedFiles := skippedFiles + 1;
        continue;
      }
      if data.data.ObsWidth() != obsSize {
        skippedFiles := skippedFiles + 1;
        continue;
      }
      accepted := accepted + [data.data];
      loadedFiles := loadedFiles + 1;
    }
    assert files[..|files|] == files;
  }

  /** The file that fixed the observation size is itself accepted, so an
      epoch over the same files always has data. */
  lemma {:induction false} DiscoveredFileIsAccepted(files: seq<LoadOutcome>, k: nat)
    requires k < |files| && files[k].Loaded?
    ensures |AcceptedFiles(files, files[k].data.ObsWidth())| >= 1
  {
    var w := files[k].data.ObsWidth();
    if k == |files| - 1 {
      assert AcceptedFile(files[k], w);
    } else {
      assert files[..|files| - 1][k] == files[k];
      DiscoveredFileIsAccepted(files[..|files| - 1], k);
    }
  }

  datatype BatchPlan = BatchPlan(size: nat, count: nat)

  /** The batch size of `main`: 64 on CPU, size-dependent on CUDA; if not
      even one full batch fits, one batch of all samples. */
  function PlanBatches(cuda: bool, numSamples: nat): (p: BatchPlan)
    ensures p.count >= 1
    ensures p.count * p.size <= numSamples
    ensures numSamples > 0 ==> p.size > 0 && numSamples - p.count * p.size < p.size
    ensures !cuda && numSamples >= 64 ==> p.size == 64 && p.count == numSamples / 64
    ensures !cuda && numSamples < 64 ==> p == BatchPlan(numSamples, 1)
    ensures cuda ==> p.size <= 256
  {
    var nominal :=
      if !cuda then 64
      else if numSamples < 500 then 32
      else if numSamples < 2000 then 64
      else if numSamples < 10000 then 128
      else MinInt(256, numSamples / 8);
    assert nominal >= 1;
    if numSamples / nominal == 0 then BatchPlan(numSamples, 1)
    else BatchPlan(nominal, numSamples / nominal)
  }

  /** Minibatch `i`: the slice `[i*bs, (i+1)*bs)`. */
  function Minibatch<T>(s: seq<T>, p: BatchPlan, i: nat): seq<T>
    requires i < p.count && p.count * p.size <= |s|
  {
    assert (i + 1) * p.size <= p.count * p.size by {
      assert i + 1 <= p.count;
    }
    s[i * p.size .. (i + 1) * p.size]
  }

  function ConcatMinibatches<T>(s: seq<T>, p: BatchPlan, k: nat): seq<T>
    requires k <= p.count && p.count * p.size <= |s|
  {
    if k == 0 then [] else ConcatMinibatches(s, p, k - 1) + Minibatch(s, p, k - 1)
  }

  /** The minibatches are in order and without gaps: together they are the
      first `count * size` samples. */
  lemma {:induction false} MinibatchesCoverPrefix<T>(s: seq<T>, p: BatchPlan, k: nat)
    requires k <= p.count && p.count * p.size <= |s|
    ensures k * p.size <= |s|
    ensures ConcatMinibatches(s, p, k) == s[..k * p.size]
  {
    MulMonotone(k, p.count, p.size);
    if k > 0 {
      MinibatchesCoverPrefix(s, p, k - 1);
      var m := (k - 1) * p.size;
      assert m + p.size == k * p.size;
      assert Minibatch(s, p, k - 1) == s[m .. k * p.size];
      assert s[..m] + s[m .. k * p.size] == s[..k * p.size];
    }
  }

  /** The batch indices logged: 0%, 25%, 50%, 75% and the last batch. */
  function LogIntervals(numBatches: nat): (r: set<int>)
    requires numBatches >= 1
    ensures 0 in r && numBatches - 1 in r
    ensures forall b :: b in r ==> 0 <= b < numBatches
    ensures |r| <= 5
  {
    var q := {numBatches / 4, numBatches / 2, numBatches * 3 / 4};
    assert forall b :: b in q ==> 0 <= b < numBatches;
    var r := {0, numBatches - 1} + q;
    assert r == {0, numBatches - 1, numBatches / 4, numBatches / 2, numBatches * 3 / 4};
    r
  }
}
