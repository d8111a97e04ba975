/** find_and_export_best_model.py: the automatic-training helper that picks
    the checkpoint with the best combined score and hands its JSON export
    to the engine, exiting with 0 on success and 1 on any failure. It
    reuses the epoch parsing, trend and combined score of
    find_best_model.py, which the script carries as verbatim copies. */
module FindAndExportBestModel {
  import opened Common
  import opened KeySort
  import opened PyText
  import opened FindBestModel

  /** This script's `load_model_checkpoint`: only the value-loss keys are
      added. */
  function LoadForExport(filepath: string, checkpoint: Option<TrainingHistory>): (r: Option<Metrics>)
    ensures r.Some? <==> checkpoint.Some?
    ensures r.Some? ==> r.value.filepath == filepath && r.value.epoch == ExtractEpochNumber(filepath)
    ensures r.Some? ==> r.value.valueLoss == LossStatsOf(checkpoint.value.valueLoss)
    ensures r.Some? ==> r.value.policyLoss.None? && r.value.totalLoss.None?
  {
    match checkpoint
    case None => None
    case Some(h) =>
      Some(Metrics(filepath, Basename(filepath), ExtractEpochNumber(filepath), None, LossStatsOf(h.valueLoss), None))
  }

  /** `[m for m in metrics_list if m is not None and 'value_loss_final' in m]`. */
  function Candidates(metricsList: seq<Option<Metrics>>): (r: seq<Metrics>)
    ensures |r| <= |metricsList|
    ensures forall m :: m in r <==> Some(m) in metricsList && m.valueLoss.Some?
  {
    if metricsList == [] then []
    else
      var init := metricsList[..|metricsList| - 1];
      var last := metricsList[|metricsList| - 1];
      assert metricsList == init + [last];
      if last.Some? && last.value.valueLoss.Some? then Candidates(init) + [last.value] else Candidates(init)
  }

  /** The checkpoint `rank_models` returns for non-empty candidates: the
      first, in input order, of those with the least combined score. */
  function BestOf(candidates: seq<Metrics>): Metrics
    requires candidates != []
  {
    FirstMin(Scored(candidates), PairScore, ScoreLe).0
  }

  lemma BestOfIsBest(candidates: seq<Metrics>)
    requires candidates != []
    ensures BestOf(candidates) in candidates
    ensures forall m :: m in candidates ==> ScoreLe(CombinedScore(BestOf(candidates)), CombinedScore(m))
  {
    var scored := Scored(candidates);
    ScoreLeTotal();
    FirstMinIsMinimum(scored, PairScore, ScoreLe);
    var b := FirstMin(scored, PairScore, ScoreLe);
    var k :| 0 <= k < |scored| && scored[k] == b;
    assert b.1 == CombinedScore(b.0);
    forall m | m in candidates ensures ScoreLe(CombinedScore(b.0), CombinedScore(m)) {
      var i :| 0 <= i < |candidates| && candidates[i] == m;
      assert PairScore(scored[i]) == CombinedScore(m);
    }
  }

  /** `rank_models`: `None` when no loaded checkpoint has a value-loss
      history, otherwise a candidate whose combined score no other
      candidate beats, the earliest such on ties. */
  method RankModels(metricsList: seq<Option<Metrics>>) returns (best: Option<Metrics>)
    ensures best.None? <==> Candidates(metricsList) == []
    ensures best.Some? ==> best.value == BestOf(Candidates(metricsList))
    ensures best.Some? ==> Some(best.value) in metricsList && best.value.valueLoss.Some?
    ensures best.Some? ==> forall k :: 0 <= k < |metricsList| && metricsList[k].Some? && metricsList[k].value.valueLoss.Some? ==>
                             ScoreLe(CombinedScore(best.value), CombinedScore(metricsList[k].value))
  {
    var valid := Candidates(metricsList);
    if valid == [] {
      return None;
    }
    var combinedScores: seq<(Metrics, Score)> := [];
    var i := 0;
    while i < |valid|
      invariant i <= |valid|
      invariant combinedScores == Scored(valid[..i])
    {
      combinedScores := combinedScores + [(valid[i], CombinedScore(valid[i]))];
      i := i + 1;
      assert valid[..i][..i - 1] == valid[..i - 1];
    }
    assert valid[..i] == valid;
    combinedScores := SortBy(combinedScores, PairScore, ScoreLe);
    SortByHead(Scored(valid), PairScore, ScoreLe);
    best := Some(combinedScores[0].0);
    BestOfIsBest(valid);
    forall k | 0 <= k < |metricsList| && metricsList[k].Some? && metricsList[k].value.valueLoss.Some?
      ensures ScoreLe(CombinedScore(best.value), CombinedScore(metricsList[k].value))
    {
      assert metricsList[k] in metricsList;
    }
  }

  /** The metrics of the checkpoints in the given order. */
  function LoadAll(files: seq<string>, checkpoints: string -> Option<TrainingHistory>): (r: seq<Option<Metrics>>)
    ensures |r| == |files|
    ensures forall i :: 0 <= i < |r| ==> r[i] == LoadForExport(files[i], checkpoints(files[i]))
  {
    seq(|files|, i requires 0 <= i < |files| => LoadForExport(files[i], checkpoints(files[i])))
  }

  /** The loading loop of `main`: one entry per checkpoint file, in order. */
  method LoadMetrics(files: seq<string>, checkpoints: string -> Option<TrainingHistory>)
    returns (metricsList: seq<Option<Metrics>>)
    ensures metricsList == LoadAll(files, checkpoints)
  {
    ghost var all := LoadAll(files, checkpoints);
    metricsList := [];
    var i := 0;
    while i < |files|
      invariant i <= |files|
      invariant metricsList == all[..i]
    {
      var m := LoadForExport(files[i], checkpoints(files[i]));
      PrefixSnoc(all, i);
      metricsList := metricsList + [m];
      i := i + 1;
    }
    assert all[..i] == all;
  }

  /** The JSON export that belongs to a checkpoint: every ".pt" of the
      path replaced by ".json". */
  function JsonPath(ptPath: string): string
  {
    Replace(ptPath, ".pt", ".json")
  }

  /** `main` over the glob result `modelFiles`, with the checkpoint loader,
      the existence test on the JSON path and the outcome of
      `export_model_to_json` (whether the JSON exists afterwards without an
      exception) as parameters. Exit code 1 without checkpoint files,
      without a valid checkpoint, or when no JSON exists after the export;
      otherwise 0, with the JSON path of the best checkpoint written to
      best_model_path.txt. */
  method FindAndExport(modelFiles: seq<string>, checkpoints: string -> Option<TrainingHistory>,
                        jsonExists: string -> bool, exportCreates: string -> bool)
    returns (exitCode: int, pathFileContent: Option<string>)
    ensures exitCode == 0 || exitCode == 1
    ensures exitCode == 0 <==> pathFileContent.Some?
    ensures modelFiles == [] ==> exitCode == 1
    ensures var candidates := Candidates(LoadAll(OrderModelFiles(modelFiles), checkpoints));
            candidates == [] ==> exitCode == 1
    ensures var candidates := Candidates(LoadAll(OrderModelFiles(modelFiles), checkpoints));
            candidates != [] ==>
              var json := JsonPath(BestOf(candidates).filepath);
              (exitCode == 0 <==> jsonExists(json) || exportCreates(json)) &&
              (exitCode == 0 ==> pathFileContent == Some(json))
  {
    var files := OrderModelFiles(modelFiles);
    if files == [] {
      return 1, None;
    }
    var metricsList := LoadMetrics(files, checkpoints);
    var best := RankModels(metricsList);
    if best.None? {
      return 1, None;
    }
    var bestJsonPath := JsonPath(best.value.filepath);
    if jsonExists(bestJsonPath) {
      return 0, Some(bestJsonPath);
    }
    if exportCreates(bestJsonPath) {
      return 0, Some(bestJsonPath);
    }
    return 1, None;
  }

  /** The JSON path of a trainer checkpoint is the same path with ".json"
      in place of ".pt", when the directory holds no "." at all. */
  lemma JsonPathOfCheckpoint(dir: string, sep: char, epoch: nat)
    requires forall i :: 0 <= i < |dir| ==> dir[i] != '.'
    requires sep != '.'
    ensures JsonPath(dir + [sep] + CheckpointName(epoch)) == dir + [sep] + "model_epoch_" + NatToString(epoch) + ".json"
  {
    var digits := NatToString(epoch);
    var prefix := dir + [sep] + "model_epoch_" + digits;
    assert dir + [sep] + CheckpointName(epoch) == prefix + ".pt";
    forall i | 0 <= i < |prefix| ensures prefix[i] != '.' {
      if i >= |dir| + 13 {
        assert prefix[i] == digits[i - |dir| - 13];
      }
    }
    ReplaceSkipsPrefix(prefix, ".pt", ".pt", ".json");
    assert Replace(".pt", ".pt", ".json") == ".json";
  }
}
