/** find_best_model.py: reading the epoch out of a checkpoint's file name,
    summarising the loss histories stored in a checkpoint, classifying a
    loss trend, and ranking checkpoints by several criteria, among them a
    weighted combined score. */
module FindBestModel {
  import opened Common
  import opened KeySort
  import opened PyText

  /** `calculate_trend`'s default window: the first and the last ten values
      are compared. */
  const TrendWindow: nat := 10

  /** The name the trainer gives the checkpoint of an epoch. */
  function CheckpointName(epoch: nat): string
  {
    "model_epoch_" + NatToString(epoch) + ".pt"
  }

  /** `extract_epoch_number`: the base name with every ".pt" removed, split
      on '_'; the third piece read as an integer when the first two are
      "model" and "epoch", `None` otherwise or when `int()` raises. */
  function ExtractEpochNumber(filepath: string): Option<int>
  {
    var parts := Split(Replace(Basename(filepath), ".pt", ""), '_');
    if |parts| >= 3 && parts[0] == "model" && parts[1] == "epoch" then ParseInt(parts[2]) else None
  }

  /** The base name of a path ending in a separator and a name without one
      is that name. */
  lemma {:induction false} BasenameAfterSep(dir: string, sep: char, name: string)
    requires IsPathSep(sep)
    requires forall i :: 0 <= i < |name| ==> !IsPathSep(name[i])
    ensures Basename(dir + [sep] + name) == name
    decreases |name|
  {
    var path := dir + [sep] + name;
    if name != [] {
      var init := name[..|name| - 1];
      assert path[..|path| - 1] == dir + [sep] + init;
      assert path[|path| - 1] == name[|name| - 1];
      BasenameAfterSep(dir, sep, init);
      assert name == init + [name[|name| - 1]];
    }
  }

  lemma BasenameOfCheckpoint(dir: string, sep: char, epoch: nat)
    requires IsPathSep(sep)
    ensures Basename(dir + [sep] + CheckpointName(epoch)) == CheckpointName(epoch)
  {
    var digits := NatToString(epoch);
    var name := CheckpointName(epoch);
    forall i | 0 <= i < |name| ensures !IsPathSep(name[i]) {
      if 12 <= i < 12 + |digits| {
        assert name[i] == digits[i - 12];
      }
    }
    BasenameAfterSep(dir, sep, name);
  }

  lemma StemOfCheckpoint(epoch: nat)
    ensures Replace(CheckpointName(epoch), ".pt", "") == "model_epoch_" + NatToString(epoch)
  {
    var digits := NatToString(epoch);
    var stem := "model_epoch_" + digits;
    assert CheckpointName(epoch) == stem + ".pt";
    forall i | 0 <= i < |stem| ensures stem[i] != '.' {
      if 12 <= i {
        assert stem[i] == digits[i - 12];
      }
    }
    ReplaceSkipsPrefix(stem, ".pt", ".pt", "");
    assert Replace(".pt", ".pt", "") == "";
  }

  lemma SplitOfStem(epoch: nat)
    ensures Split("model_epoch_" + NatToString(epoch), '_') == ["model", "epoch", NatToString(epoch)]
  {
    var digits := NatToString(epoch);
    assert "model_epoch_" + digits == "model" + ['_'] + "epoch" + ['_'] + digits;
    DigitsHoldNo(digits, '_');
    SplitThree("model", "epoch", digits, '_');
  }

  /** The epoch written into a checkpoint's name is read back from any path
      to it. */
  lemma ExtractEpochOfCheckpoint(dir: string, sep: char, epoch: nat)
    requires IsPathSep(sep)
    ensures ExtractEpochNumber(dir + [sep] + CheckpointName(epoch)) == Some(epoch)
  {
    BasenameOfCheckpoint(dir, sep, epoch);
    StemOfCheckpoint(epoch);
    SplitOfStem(epoch);
    ParseIntOfNat(epoch);
  }

  /** The sort key `extract_epoch_number(x) or 0`. */
  function EpochSortKey(filepath: string): int
  {
    var e := ExtractEpochNumber(filepath);
    if e.Some? && e.value != 0 then e.value else 0
  }

  /** `model_files.sort(key=...)`: the checkpoint files in epoch order. */
  function OrderModelFiles(files: seq<string>): (r: seq<string>)
    ensures multiset(r) == multiset(files)
    ensures SortedBy(r, EpochSortKey, IntLe)
  {
    SortByPermutes(files, EpochSortKey, IntLe);
    IntLeTotal();
    SortBySorted(files, EpochSortKey, IntLe);
    SortBy(files, EpochSortKey, IntLe)
  }

  /** Paths of the checkpoints of the given epochs in one directory. */
  function CheckpointPaths(dir: string, sep: char, epochs: seq<nat>): (r: seq<string>)
    ensures |r| == |epochs|
    ensures forall i :: 0 <= i < |r| ==> r[i] == dir + [sep] + CheckpointName(epochs[i])
  {
    if epochs == [] then [] else [dir + [sep] + CheckpointName(epochs[0])] + CheckpointPaths(dir, sep, epochs[1..])
  }

  /** Checkpoints written by the trainer come out of the ordering with
      ascending epochs. */
  lemma CheckpointsInEpochOrder(dir: string, sep: char, epochs: seq<nat>)
    requires IsPathSep(sep)
    ensures var r := OrderModelFiles(CheckpointPaths(dir, sep, epochs));
            (forall i :: 0 <= i < |r| ==> ExtractEpochNumber(r[i]).Some? && ExtractEpochNumber(r[i]).value >= 0) &&
            (forall i, j :: 0 <= i < j < |r| ==> ExtractEpochNumber(r[i]).value <= ExtractEpochNumber(r[j]).value)
  {
    var files := CheckpointPaths(dir, sep, epochs);
    var r := OrderModelFiles(files);
    forall i | 0 <= i < |r|
      ensures ExtractEpochNumber(r[i]).Some? && ExtractEpochNumber(r[i]).value >= 0
      ensures EpochSortKey(r[i]) == ExtractEpochNumber(r[i]).value
    {
      assert r[i] in multiset(files);
      var k :| 0 <= k < |files| && files[k] == r[i];
      ExtractEpochOfCheckpoint(dir, sep, epochs[k]);
    }
    forall i, j | 0 <= i < j < |r|
      ensures ExtractEpochNumber(r[i]).value <= ExtractEpochNumber(r[j]).value
    {
      assert IntLe(EpochSortKey(r[i]), EpochSortKey(r[j]));
    }
  }

  /** `np.min` of a non-empty history. */
  function MinOf(s: seq<real>): (r: real)
    requires s != []
    ensures r in s
    ensures forall i :: 0 <= i < |s| ==> r <= s[i]
  {
    if |s| == 1 then s[0] else Min(s[0], MinOf(s[1..]))
  }

  /** `calculate_trend` with the default window: -1 when the mean of the
      last ten values is more than 5% below that of the first ten, 1 when
      it is more than 5% above, 0 otherwise and for fewer than twenty
      values. */
  function CalculateTrend(values: seq<real>): (r: int)
    ensures -1 <= r <= 1
    ensures |values| < 2 * TrendWindow ==> r == 0
  {
    if |values| < TrendWindow * 2 then 0
    else
      var early := Mean(values[..TrendWindow]);
      var late := Mean(values[|values| - TrendWindow..]);
      if late < early * 0.95 then -1
      else if late > early * 1.05 then 1
      else 0
  }

  lemma {:induction false} SumConstant(s: seq<real>, c: real)
    requires forall i :: 0 <= i < |s| ==> s[i] == c
    ensures Sum(s) == |s| as real * c
  {
    if s != [] {
      SumConstant(s[..|s| - 1], c);
    }
  }

  /** A flat non-negative loss history is stable. */
  lemma TrendOfConstant(values: seq<real>, c: real)
    requires c >= 0.0
    requires forall i :: 0 <= i < |values| ==> values[i] == c
    ensures CalculateTrend(values) == 0
  {
    if |values| >= 2 * TrendWindow {
      var early := values[..TrendWindow];
      var late := values[|values| - TrendWindow..];
      SumConstant(early, c);
      SumConstant(late, c);
      assert Mean(early) == c && Mean(late) == c;
    }
  }

  lemma MeanScaled(s: seq<real>, k: real)
    requires k > 0.0
    ensures Mean(Scaled(s, k)) == Mean(s) / k
  {
    SumScaled(s, k);
    if s != [] {
      var n := |s| as real;
      assert (Sum(s) / k) / n == (Sum(s) / n) / k;
    }
  }

  lemma DivPreservesOrder(a: real, b: real, k: real)
    requires k > 0.0
    ensures (a / k < b / k) == (a < b)
  {
    assert a / k * k == a && b / k * k == b;
    if a / k < b / k {
      assert (a / k) * k < (b / k) * k;
    }
  }

  /** The trend is relative: it does not change when every loss is divided
      by the same positive factor. */
  lemma TrendScaleInvariant(values: seq<real>, k: real)
    requires k > 0.0
    ensures CalculateTrend(Scaled(values, k)) == CalculateTrend(values)
  {
    if |values| >= 2 * TrendWindow {
      var n := |values|;
      var sv := Scaled(values, k);
      assert sv[..TrendWindow] == Scaled(values[..TrendWindow], k);
      assert sv[n - TrendWindow..] == Scaled(values[n - TrendWindow..], k);
      var early := Mean(values[..TrendWindow]);
      var late := Mean(values[n - TrendWindow..]);
      MeanScaled(values[..TrendWindow], k);
      MeanScaled(values[n - TrendWindow..], k);
      assert (early / k) * 0.95 == (early * 0.95) / k;
      assert (early / k) * 1.05 == (early * 1.05) / k;
      DivPreservesOrder(late, early * 0.95, k);
      DivPreservesOrder(early * 1.05, late, k);
    }
  }

  /** With a negative early mean the 5% band is empty: such a history is
      never classified stable. */
  lemma NegativeHistoryNeverStable(values: seq<real>)
    requires |values| >= 2 * TrendWindow
    requires Mean(values[..TrendWindow]) < 0.0
    ensures CalculateTrend(values) != 0
  {
  }

  /** The summary of one loss history: mean, last, minimum and trend. */
  datatype LossStats = LossStats(mean: real, final: real, min: real, trend: int)

  /** A checkpoint's `training_history`; a missing list is empty. */
  datatype TrainingHistory = TrainingHistory(policyLoss: seq<real>, valueLoss: seq<real>, totalLoss: seq<real>)

  /** The metrics dictionary of one checkpoint; the `*_loss_*` keys of a
      history are all present or all absent. */
  datatype Metrics = Metrics(filepath: string, filename: string, epoch: Option<int>,
                             policyLoss: Option<LossStats>, valueLoss: Option<LossStats>,
                             totalLoss: Option<LossStats>)

  /** The keys `load_model_checkpoint` adds for one history: none for an
      empty history, otherwise its mean, last element, minimum and trend. */
  function LossStatsOf(values: seq<real>): (r: Option<LossStats>)
    ensures r.Some? <==> values != []
    ensures r.Some? ==> r.value.final == values[|values| - 1]
    ensures r.Some? ==> r.value.min in values && forall i :: 0 <= i < |values| ==> r.value.min <= values[i]
    ensures r.Some? ==> r.value.mean == Mean(values) && r.value.trend == CalculateTrend(values)
  {
    if values == [] then None
    else Some(LossStats(Mean(values), values[|values| - 1], MinOf(values), CalculateTrend(values)))
  }

  /** `load_model_checkpoint`, with `torch.load` as the parameter
      `checkpoint` (`None` when it raises). */
  function LoadModelCheckpoint(filepath: string, checkpoint: Option<TrainingHistory>): (r: Option<Metrics>)
    ensures r.Some? <==> checkpoint.Some?
    ensures r.Some? ==> r.value.filepath == filepath && r.value.epoch == ExtractEpochNumber(filepath)
    ensures r.Some? ==> (r.value.valueLoss.Some? <==> checkpoint.value.valueLoss != [])
  {
    match checkpoint
    case None => None
    case Some(h) =>
      Some(Metrics(filepath, Basename(filepath), ExtractEpochNumber(filepath),
                   LossStatsOf(h.policyLoss), LossStatsOf(h.valueLoss), LossStatsOf(h.totalLoss)))
  }

  /** A sort key that may be `float('inf')`. */
  datatype Score = Value(v: real) | Infinite

  function ScoreLe(a: Score, b: Score): bool
  {
    match (a, b)
    case (Value(x), Value(y)) => x <= y
    case (_, Infinite) => true
    case (Infinite, Value(_)) => false
  }

  lemma ScoreLeTotal()
    ensures TotalPreorder(ScoreLe)
  {
  }

  /** The tuple key `(value_loss_trend, value_loss_final)`, compared
      lexicographically. */
  datatype TrendKey = TrendKey(trend: int, final: Score)

  function TrendKeyLe(a: TrendKey, b: TrendKey): bool
  {
    a.trend < b.trend || (a.trend == b.trend && ScoreLe(a.final, b.final))
  }

  lemma TrendKeyLeTotal()
    ensures TotalPreorder(TrendKeyLe)
  {
  }

  function ValueFinalKey(m: Metrics): Score
  {
    if m.valueLoss.Some? then Value(m.valueLoss.value.final) else Infinite
  }

  function ValueMinKey(m: Metrics): Score
  {
    if m.valueLoss.Some? then Value(m.valueLoss.value.min) else Infinite
  }

  function TotalFinalKey(m: Metrics): Score
  {
    if m.totalLoss.Some? then Value(m.totalLoss.value.final) else Infinite
  }

  /** A missing trend counts as rising (1). */
  function TrendOrderKey(m: Metrics): TrendKey
  {
    TrendKey(if m.valueLoss.Some? then m.valueLoss.value.trend else 1, ValueFinalKey(m))
  }

  function TrendBonus(trend: int): real
  {
    if trend == -1 then -0.1 else if trend == 1 then 0.1 else 0.0
  }

  /** The combined score: 0.4 × final value loss + 0.3 × minimum value loss
      + 0.3 × trend bonus, over the weights present; infinite without any. */
  function CombinedScore(m: Metrics): (r: Score)
    ensures r.Infinite? <==> m.valueLoss.None?
  {
    match m.valueLoss
    case None => Infinite
    case Some(s) =>
      var score := s.final * 0.4 + s.min * 0.3 + TrendBonus(s.trend) * 0.3;
      var weight := 0.4 + 0.3 + 0.3;
      Value(score / weight)
  }

  /** The combined score is a weighted mean of final loss, minimum loss and
      trend bonus, so it lies between their least and greatest. */
  lemma CombinedScoreBetween(m: Metrics)
    requires m.valueLoss.Some?
    ensures var s := m.valueLoss.value;
            var b := TrendBonus(s.trend);
            Min(s.final, Min(s.min, b)) <= CombinedScore(m).v <= Max(s.final, Max(s.min, b))
  {
  }

  /** With equal losses, a falling trend ranks before a stable one, and a
      stable one before a rising one. */
  lemma CombinedScoreTrendOrder(m: Metrics, n: Metrics)
    requires m.valueLoss.Some? && n.valueLoss.Some?
    requires m.valueLoss.value.final == n.valueLoss.value.final
    requires m.valueLoss.value.min == n.valueLoss.value.min
    requires m.valueLoss.value.trend < n.valueLoss.value.trend
    requires -1 <= m.valueLoss.value.trend && n.valueLoss.value.trend <= 1
    ensures CombinedScore(m).v < CombinedScore(n).v
  {
  }

  /** Lower losses with the same trend never score worse. */
  lemma CombinedScoreMonotone(m: Metrics, n: Metrics)
    requires m.valueLoss.Some? && n.valueLoss.Some?
    requires m.valueLoss.value.final <= n.valueLoss.value.final
    requires m.valueLoss.value.min <= n.valueLoss.value.min
    requires m.valueLoss.value.trend == n.valueLoss.value.trend
    ensures ScoreLe(CombinedScore(m), CombinedScore(n))
  {
  }

  /** `[m for m in metrics_list if m is not None]`. */
  function ValidMetrics(metricsList: seq<Option<Metrics>>): (r: seq<Metrics>)
    ensures |r| <= |metricsList|
    ensures forall m :: m in r <==> Some(m) in metricsList
  {
    if metricsList == [] then []
    else
      var init := metricsList[..|metricsList| - 1];
      var last := metricsList[|metricsList| - 1];
      assert metricsList == init + [last];
      if last.Some? then ValidMetrics(init) + [last.value] else ValidMetrics(init)
  }

  /** The `(metrics, combined score)` pairs, in input order. */
  function Scored(ms: seq<Metrics>): (r: seq<(Metrics, Score)>)
    ensures |r| == |ms|
    ensures forall i :: 0 <= i < |r| ==> r[i] == (ms[i], CombinedScore(ms[i]))
  {
    if ms == [] then [] else Scored(ms[..|ms| - 1]) + [(ms[|ms| - 1], CombinedScore(ms[|ms| - 1]))]
  }

  function PairScore(p: (Metrics, Score)): Score { p.1 }

  predicate HasValueLoss(ms: seq<Metrics>)
  {
    exists i :: 0 <= i < |ms| && ms[i].valueLoss.Some?
  }

  predicate HasTotalLoss(ms: seq<Metrics>)
  {
    exists i :: 0 <= i < |ms| && ms[i].totalLoss.Some?
  }

  /** `r` holds the elements of `xs`, ordered by key, and elements with
      tied keys keep their order in `xs` (Python's `sorted` is stable). */
  ghost predicate IsSortingOf<T, K(!new)>(r: seq<T>, xs: seq<T>, key: T -> K, le: (K, K) -> bool)
  {
    multiset(r) == multiset(xs) && SortedBy(r, key, le) &&
    forall k :: TiedWith(r, key, le, k) == TiedWith(xs, key, le, k)
  }

  /** The dictionary `rank_models` returns; an absent ranking is a key the
      dictionary lacks. */
  datatype Rankings = Rankings(byValueLossFinal: Option<seq<Metrics>>, byValueLossMin: Option<seq<Metrics>>,
                               byTotalLossFinal: Option<seq<Metrics>>, byTrend: Option<seq<Metrics>>,
                               combined: seq<(Metrics, Score)>)

  lemma SortsBy<T, K(!new)>(xs: seq<T>, key: T -> K, le: (K, K) -> bool)
    requires TotalPreorder(le)
    ensures IsSortingOf(SortBy(xs, key, le), xs, key, le)
  {
    SortByPermutes(xs, key, le);
    SortBySorted(xs, key, le);
    forall k {
      SortByStable(xs, key, le, k);
    }
  }

  /** `rank_models`: `None` (the empty list) when no checkpoint loaded;
      otherwise each ranking present exactly when some checkpoint has its
      key, each a reordering of the loaded checkpoints by its key, and the
      combined ranking every checkpoint with its combined score, best
      first. */
  method RankModels(metricsList: seq<Option<Metrics>>) returns (r: Option<Rankings>)
    ensures r.None? <==> forall k :: 0 <= k < |metricsList| ==> metricsList[k].None?
    ensures r.Some? ==> IsSortingOf(r.value.combined, Scored(ValidMetrics(metricsList)), PairScore, ScoreLe)
    ensures r.Some? ==> (r.value.byValueLossFinal.Some? <==> HasValueLoss(ValidMetrics(metricsList)))
    ensures r.Some? ==> (r.value.byValueLossMin.Some? <==> HasValueLoss(ValidMetrics(metricsList)))
    ensures r.Some? ==> (r.value.byTrend.Some? <==> HasValueLoss(ValidMetrics(metricsList)))
    ensures r.Some? ==> (r.value.byTotalLossFinal.Some? <==> HasTotalLoss(ValidMetrics(metricsList)))
    ensures r.Some? && r.value.byValueLossFinal.Some? ==>
              IsSortingOf(r.value.byValueLossFinal.value, ValidMetrics(metricsList), ValueFinalKey, ScoreLe)
    ensures r.Some? && r.value.byValueLossMin.Some? ==>
              IsSortingOf(r.value.byValueLossMin.value, ValidMetrics(metricsList), ValueMinKey, ScoreLe)
    ensures r.Some? && r.value.byTotalLossFinal.Some? ==>
              IsSortingOf(r.value.byTotalLossFinal.value, ValidMetrics(metricsList), TotalFinalKey, ScoreLe)
    ensures r.Some? && r.value.byTrend.Some? ==>
              IsSortingOf(r.value.byTrend.value, ValidMetrics(metricsList), TrendOrderKey, TrendKeyLe)
  {
    var valid := ValidMetrics(metricsList);
    if valid == [] {
      forall k | 0 <= k < |metricsList| ensures metricsList[k].None? {
        assert metricsList[k] in metricsList;
      }
      return None;
    }
    assert valid[0] in valid;
    var combined: seq<(Metrics, Score)> := [];
    var i := 0;
    while i < |valid|
      invariant i <= |valid|
      invariant combined == Scored(valid[..i])
    {
      combined := combined + [(valid[i], CombinedScore(valid[i]))];
      i := i + 1;
      assert valid[..i][..i - 1] == valid[..i - 1];
    }
    assert valid[..i] == valid;
    ScoreLeTotal();
    TrendKeyLeTotal();
    var hasValue := HasValueLoss(valid);
    var byFinal, byMin, byTrend := None, None, None;
    if hasValue {
      SortsBy(valid, ValueFinalKey, ScoreLe);
      SortsBy(valid, ValueMinKey, ScoreLe);
      SortsBy(valid, TrendOrderKey, TrendKeyLe);
      byFinal := Some(SortBy(valid, ValueFinalKey, ScoreLe));
      byMin := Some(SortBy(valid, ValueMinKey, ScoreLe));
      byTrend := Some(SortBy(valid, TrendOrderKey, TrendKeyLe));
    }
    var byTotal := None;
    if HasTotalLoss(valid) {
      SortsBy(valid, TotalFinalKey, ScoreLe);
      byTotal := Some(SortBy(valid, TotalFinalKey, ScoreLe));
    }
    SortsBy(combined, PairScore, ScoreLe);
    r := Some(Rankings(byFinal, byMin, byTotal, byTrend, SortBy(combined, PairScore, ScoreLe)));
  }
}
