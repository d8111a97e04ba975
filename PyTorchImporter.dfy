/** UPyTorchImporter: reading the JSON document the export script writes
    into a USimpleNeuralNetwork. The document gives the network
    configuration, the hidden layers of both towers, the two heads and the
    action log standard deviation; each is handed to the network's setters,
    which take weights only when their lengths fit the layer. */
module PyTorchImporter {
  import opened Common
  import opened NeuralNetwork
  import ExportModelForUnreal

  /** An FJsonValue, after the engine's parser has read the text. */
  datatype Json =
    | JNull
    | JBool(b: bool)
    | JNumber(n: real)
    | JString(s: string)
    | JArray(items: seq<Json>)
    | JObject(fields: map<string, Json>)

  /** FJsonValue::AsNumber: a number is itself, a boolean is 1 or 0, and
      everything else reads as 0. */
  function AsNumber(v: Json): (r: real)
    ensures v.JNumber? ==> r == v.n
    ensures v.JBool? ==> r == (if v.b then 1.0 else 0.0)
    ensures !v.JNumber? && !v.JBool? ==> r == 0.0
  {
    match v
    case JNumber(n) => n
    case JBool(b) => if b then 1.0 else 0.0
    case _ => 0.0
  }

  /** The conversion of a double to int32: towards zero. */
  function Trunc(x: real): (r: int)
    ensures x >= 0.0 ==> r >= 0 && r as real <= x < r as real + 1.0
    ensures x < 0.0 ==> r <= 0 && r as real - 1.0 < x <= r as real
  {
    if x >= 0.0 then x.Floor else -((-x).Floor)
  }

  lemma TruncOfInteger(k: int)
    ensures Trunc(k as real) == k
  {
  }

  /** TryGetObjectField. */
  function ObjectField(obj: map<string, Json>, key: string): (r: Option<map<string, Json>>)
    ensures r.Some? <==> key in obj && obj[key].JObject?
  {
    if key in obj && obj[key].JObject? then Some(obj[key].fields) else None
  }

  /** TryGetArrayField. */
  function ArrayField(obj: map<string, Json>, key: string): (r: Option<seq<Json>>)
    ensures r.Some? <==> key in obj && obj[key].JArray?
  {
    if key in obj && obj[key].JArray? then Some(obj[key].items) else None
  }

  /** GetIntegerField: a missing field reads as 0. */
  function IntegerField(obj: map<string, Json>, key: string): (r: int)
    ensures key !in obj ==> r == 0
    ensures key in obj ==> r == Trunc(AsNumber(obj[key]))
  {
    if key in obj then Trunc(AsNumber(obj[key])) else 0
  }

  // ---------------------------------------------------------------------
  // Reading numbers

  /** Every entry through AsNumber: the policy biases and the log-std. */
  function AllAsNumbers(items: seq<Json>): (r: seq<real>)
    ensures |r| == |items| && forall i :: 0 <= i < |items| ==> r[i] == AsNumber(items[i])
  {
    seq(|items|, i requires 0 <= i < |items| => AsNumber(items[i]))
  }

  /** Only the entries of type Number, in order: the value-path biases
      and flat weights. */
  function NumbersOf(items: seq<Json>): (r: seq<real>)
    ensures |r| <= |items|
  {
    if items == [] then []
    else
      var last := items[|items| - 1];
      NumbersOf(items[..|items| - 1]) + (if last.JNumber? then [last.n] else [])
  }

  /** The entries of a number list are all kept, and only when every entry
      is a number is nothing dropped. */
  lemma {:induction false} NumbersOfDropsNonNumbers(items: seq<Json>)
    ensures |NumbersOf(items)| == |items| <==> forall i :: 0 <= i < |items| ==> items[i].JNumber?
  {
    if items != [] {
      var init := items[..|items| - 1];
      NumbersOfDropsNonNumbers(init);
      if forall i :: 0 <= i < |items| ==> items[i].JNumber? {
        assert forall i :: 0 <= i < |init| ==> init[i] == items[i];
      } else {
        var j :| 0 <= j < |items| && !items[j].JNumber?;
        if j < |init| {
          assert !init[j].JNumber?;
        }
      }
    }
  }

  /** Policy-layer weights: a row that is an array adds each of its
      entries, any other row adds itself, everything through AsNumber. */
  function LenientRow(row: Json): seq<real>
  {
    if row.JArray? then AllAsNumbers(row.items) else [AsNumber(row)]
  }

  function LenientWeights(rows: seq<Json>): seq<real>
  {
    if rows == [] then [] else LenientWeights(rows[..|rows| - 1]) + LenientRow(rows[|rows| - 1])
  }

  /** Value-layer and head weights when the first entry is an array: only
      array rows count, and of them only the numbers. */
  function NestedNumbers(rows: seq<Json>): seq<real>
  {
    if rows == [] then []
    else
      var last := rows[|rows| - 1];
      NestedNumbers(rows[..|rows| - 1]) + (if last.JArray? then NumbersOf(last.items) else [])
  }

  /** Value-layer and head weights: nested when the first entry is an
      array, a flat list of numbers otherwise. */
  function StrictWeights(rows: seq<Json>): seq<real>
  {
    if rows != [] && rows[0].JArray? then NestedNumbers(rows) else NumbersOf(rows)
  }

  /** The loop over `RowVal` of the policy path. */
  method ReadLenientWeights(rows: seq<Json>) returns (weights: seq<real>)
    ensures weights == LenientWeights(rows)
  {
    weights := [];
    var i := 0;
    while i < |rows|
      invariant i <= |rows|
      invariant weights == LenientWeights(rows[..i])
    {
      var row := rows[i];
      if row.JArray? {
        var j := 0;
        ghost var before := weights;
        while j < |row.items|
          invariant j <= |row.items|
          invariant weights == before + AllAsNumbers(row.items[..j])
        {
          weights := weights + [AsNumber(row.items[j])];
          j := j + 1;
        }
        assert row.items[..j] == row.items;
      } else {
        weights := weights + [AsNumber(row)];
      }
      assert rows[..i + 1][..i] == rows[..i];
      i := i + 1;
    }
    assert rows[..i] == rows;
  }

  /** The loops that keep only the numbers of a list. */
  method ReadNumbers(items: seq<Json>) returns (values: seq<real>)
    ensures values == NumbersOf(items)
  {
    values := [];
    var i := 0;
    while i < |items|
      invariant i <= |items|
      invariant values == NumbersOf(items[..i])
    {
      if items[i].JNumber? {
        values := values + [items[i].n];
      }
      assert items[..i + 1][..i] == items[..i];
      i := i + 1;
    }
    assert items[..i] == items;
  }

  /** The loops over a list that read every entry with AsNumber. */
  method ReadAllNumbers(items: seq<Json>) returns (values: seq<real>)
    ensures values == AllAsNumbers(items)
  {
    values := [];
    var i := 0;
    while i < |items|
      invariant i <= |items|
      invariant values == AllAsNumbers(items[..i])
    {
      values := values + [AsNumber(items[i])];
      i := i + 1;
    }
    assert items[..i] == items;
  }

  /** The value-layer and head loops: look at the first entry, then read
      either the rows or the flat list. */
  method ReadStrictWeights(rows: seq<Json>) returns (weights: seq<real>)
    ensures weights == StrictWeights(rows)
  {
    if |rows| > 0 && rows[0].JArray? {
      weights := [];
      var i := 0;
      while i < |rows|
        invariant i <= |rows|
        invariant weights == NestedNumbers(rows[..i])
      {
        if rows[i].JArray? {
          var row := ReadNumbers(rows[i].items);
          weights := weights + row;
        }
        assert rows[..i + 1][..i] == rows[..i];
        i := i + 1;
      }
      assert rows[..i] == rows;
    } else {
      weights := ReadNumbers(rows);
    }
  }

  // ---------------------------------------------------------------------
  // What the exporter writes, and how it reads back

  /** A list of numbers as the JSON writer emits it. */
  function Numbers(xs: seq<real>): (r: seq<Json>)
    ensures |r| == |xs| && forall i :: 0 <= i < |xs| ==> r[i] == JNumber(xs[i])
  {
    seq(|xs|, i requires 0 <= i < |xs| => JNumber(xs[i]))
  }

  /** A matrix as nested lists. */
  function Rows(rows: seq<seq<real>>): (r: seq<Json>)
    ensures |r| == |rows| && forall i :: 0 <= i < |rows| ==> r[i] == JArray(Numbers(rows[i]))
  {
    seq(|rows|, i requires 0 <= i < |rows| => JArray(Numbers(rows[i])))
  }

  lemma {:induction false} NumbersRead(xs: seq<real>)
    ensures NumbersOf(Numbers(xs)) == xs
    ensures AllAsNumbers(Numbers(xs)) == xs
  {
    if xs != [] {
      var init := xs[..|xs| - 1];
      NumbersRead(init);
      assert Numbers(xs)[..|xs| - 1] == Numbers(init);
    }
  }

  lemma {:induction false} LenientFlatRead(xs: seq<real>)
    ensures LenientWeights(Numbers(xs)) == xs
  {
    if xs != [] {
      var init := xs[..|xs| - 1];
      LenientFlatRead(init);
      assert Numbers(xs)[..|xs| - 1] == Numbers(init);
    }
  }

  lemma {:induction false} LenientNestedRead(rows: seq<seq<real>>)
    ensures LenientWeights(Rows(rows)) == ExportModelForUnreal.Concat(rows)
  {
    if rows != [] {
      var init := rows[..|rows| - 1];
      LenientNestedRead(init);
      assert Rows(rows)[..|rows| - 1] == Rows(init);
      NumbersRead(rows[|rows| - 1]);
      ConcatSnoc(init, rows[|rows| - 1]);
      assert init + [rows[|rows| - 1]] == rows;
    }
  }

  lemma {:induction false} NestedNumbersRead(rows: seq<seq<real>>)
    ensures NestedNumbers(Rows(rows)) == ExportModelForUnreal.Concat(rows)
  {
    if rows != [] {
      var init, last := rows[..|rows| - 1], rows[|rows| - 1];
      assert rows == init + [last];
      NestedNumbersRead(init);
      assert Rows(rows)[..|rows| - 1] == Rows(init);
      NumbersRead(last);
      ConcatSnoc(init, last);
    }
  }

  lemma {:induction false} ConcatSnoc(rows: seq<seq<real>>, row: seq<real>)
    ensures ExportModelForUnreal.Concat(rows + [row]) == ExportModelForUnreal.Concat(rows) + row
  {
    if rows == [] {
      assert [row][1..] == [];
    } else {
      assert (rows + [row])[1..] == rows[1..] + [row];
      ConcatSnoc(rows[1..], row);
    }
  }

  /** Both weight paths read a flat list of numbers, and a matrix of
      numbers row after row, as the list itself. */
  lemma WeightPathsAgreeOnNumbers(xs: seq<real>, rows: seq<seq<real>>)
    ensures LenientWeights(Numbers(xs)) == xs && StrictWeights(Numbers(xs)) == xs
    ensures LenientWeights(Rows(rows)) == ExportModelForUnreal.Concat(rows)
    ensures StrictWeights(Rows(rows)) == ExportModelForUnreal.Concat(rows)
  {
    LenientFlatRead(xs);
    NumbersRead(xs);
    LenientNestedRead(rows);
    NestedNumbersRead(rows);
  }

  /** Where the two paths part: a nested row followed by a bare number,
      or a string entry. The policy path keeps the number and reads the
      string as 0; the value path drops both. */
  lemma WeightPathsDiffer()
    ensures LenientWeights([JArray([JNumber(1.0)]), JNumber(2.0)]) == [1.0, 2.0]
    ensures StrictWeights([JArray([JNumber(1.0)]), JNumber(2.0)]) == [1.0]
    ensures LenientWeights([JString("x")]) == [0.0]
    ensures StrictWeights([JString("x")]) == []
  {
    var mixed := [JArray([JNumber(1.0)]), JNumber(2.0)];
    assert mixed[..1] == [JArray([JNumber(1.0)])];
    assert [JNumber(1.0)][..0] == [];
    assert NumbersOf([JNumber(1.0)]) == [1.0];
    assert NestedNumbers(mixed[..1]) == [1.0];
    assert [JString("x")][..0] == [];
  }

  // ---------------------------------------------------------------------
  // The document

  /** The weights and biases one layer object yields. */
  datatype Payload = Payload(weights: seq<real>, biases: seq<real>)

  /** A layer entry: an object with array fields "weights" and "biases";
      the policy layers use the lenient reading, the value layers and the
      heads the strict one. */
  function LayerPayload(entry: Json, policyPath: bool): (r: Option<Payload>)
    ensures r.Some? <==> entry.JObject? && ArrayField(entry.fields, "weights").Some? &&
                         ArrayField(entry.fields, "biases").Some?
  {
    if entry.JObject? && ArrayField(entry.fields, "weights").Some? && ArrayField(entry.fields, "biases").Some? then
      var w := ArrayField(entry.fields, "weights").value;
      var b := ArrayField(entry.fields, "biases").value;
      Some(if policyPath then Payload(LenientWeights(w), AllAsNumbers(b)) else Payload(StrictWeights(w), NumbersOf(b)))
    else None
  }

  method ReadLayerEntry(entry: Json, policyPath: bool) returns (p: Option<Payload>)
    ensures p == LayerPayload(entry, policyPath)
  {
    if !(entry.JObject? && ArrayField(entry.fields, "weights").Some? && ArrayField(entry.fields, "biases").Some?) {
      return None;
    }
    var w := ArrayField(entry.fields, "weights").value;
    var b := ArrayField(entry.fields, "biases").value;
    if policyPath {
      var weights := ReadLenientWeights(w);
      var biases := ReadAllNumbers(b);
      p := Some(Payload(weights, biases));
    } else {
      var weights := ReadStrictWeights(w);
      var biases := ReadNumbers(b);
      p := Some(Payload(weights, biases));
    }
  }

  /** A head: an object field of the root read the strict way. */
  function HeadPayload(root: map<string, Json>, key: string): (r: Option<Payload>)
    ensures r.Some? ==> key in root
  {
    if key in root then LayerPayload(root[key], false) else None
  }

  /** "action_log_std", every entry through AsNumber. */
  function LogStdPayload(root: map<string, Json>): (r: Option<seq<real>>)
    ensures r.Some? <==> ArrayField(root, "action_log_std").Some?
  {
    if ArrayField(root, "action_log_std").Some? then Some(AllAsNumbers(ArrayField(root, "action_log_std").value))
    else None
  }

  /** A setter applied when the payload is there. */
  function ApplyPayload(layer: DenseLayer, p: Option<Payload>): (r: DenseLayer)
    ensures r.NumParameters() == layer.NumParameters()
  {
    if p.Some? then WithWeights(layer, p.value.weights, p.value.biases) else layer
  }

  /** The layers after the loop has handled entries `0 .. k - 1`. */
  function ApplyUpTo(layers: seq<DenseLayer>, entries: seq<Json>, k: nat, policyPath: bool): (r: seq<DenseLayer>)
    requires k <= |entries|
    ensures |r| == |layers|
  {
    if k == 0 then layers
    else
      var prev := ApplyUpTo(layers, entries, k - 1, policyPath);
      if k - 1 < |prev| then prev[k - 1 := ApplyPayload(prev[k - 1], LayerPayload(entries[k - 1], policyPath))]
      else prev
  }

  /** Each layer below the bound receives its own entry, every other layer
      is left as it was. */
  lemma {:induction false} ApplyUpToPointwise(layers: seq<DenseLayer>, entries: seq<Json>, k: nat, policyPath: bool)
    requires k <= |entries|
    ensures forall j :: 0 <= j < |layers| && j < k ==>
              ApplyUpTo(layers, entries, k, policyPath)[j] == ApplyPayload(layers[j], LayerPayload(entries[j], policyPath))
    ensures forall j :: k <= j < |layers| ==> ApplyUpTo(layers, entries, k, policyPath)[j] == layers[j]
  {
    if k > 0 {
      ApplyUpToPointwise(layers, entries, k - 1, policyPath);
    }
  }

  /** The loop bound: `i < Array.Num() && i < HiddenLayers.Num()`. */
  function LayerBound(entries: seq<Json>, config: NetworkConfig): (r: nat)
    ensures r <= |entries| && r <= |config.hiddenLayers|
    ensures r == |entries| || r == |config.hiddenLayers|
  {
    if |entries| <= |config.hiddenLayers| then |entries| else |config.hiddenLayers|
  }

  /** Entries past the number of configured hidden layers are never read. */
  lemma ExtraEntriesIgnored(layers: seq<DenseLayer>, entries: seq<Json>, extra: seq<Json>,
                            config: NetworkConfig, policyPath: bool)
    requires |entries| >= |config.hiddenLayers|
    ensures ApplyUpTo(layers, entries + extra, LayerBound(entries + extra, config), policyPath) ==
            ApplyUpTo(layers, entries, LayerBound(entries, config), policyPath)
  {
    ApplyUpToPointwise(layers, entries + extra, LayerBound(entries + extra, config), policyPath);
    ApplyUpToPointwise(layers, entries, LayerBound(entries, config), policyPath);
  }

  /** The entries of an optional array field, none when it is missing. */
  function Entries(root: map<string, Json>, key: string): seq<Json>
  {
    if ArrayField(root, key).Some? then ArrayField(root, key).value else []
  }

  /** FNetworkConfig as the importer fills it: the default configuration,
      then "input_size", the hidden sizes (each ReLU) when
      "hidden_layers" is an array, and the two output sizes. */
  function ConfigFrom(obj: map<string, Json>): (r: NetworkConfig)
    ensures r.inputSize == IntegerField(obj, "input_size")
    ensures r.policyOutputSize == IntegerField(obj, "policy_output_size")
    ensures r.valueOutputSize == IntegerField(obj, "value_output_size")
    ensures ArrayField(obj, "hidden_layers").None? ==> r.hiddenLayers == DefaultConfig.hiddenLayers
    ensures ArrayField(obj, "hidden_layers").Some? ==>
              |r.hiddenLayers| == |ArrayField(obj, "hidden_layers").value| &&
              forall i :: 0 <= i < |r.hiddenLayers| ==>
                r.hiddenLayers[i] == LayerConfig(Trunc(AsNumber(ArrayField(obj, "hidden_layers").value[i])), ReLU)
  {
    var hidden := if ArrayField(obj, "hidden_layers").Some? then HiddenSizes(ArrayField(obj, "hidden_layers").value)
                  else DefaultConfig.hiddenLayers;
    NetworkConfig(IntegerField(obj, "input_size"), hidden,
                  IntegerField(obj, "policy_output_size"), IntegerField(obj, "value_output_size"))
  }

  /** FNetworkConfig's defaults: no inputs, two ReLU layers of 128, three
      actions and one value. */
  const DefaultConfig: NetworkConfig := NetworkConfig(0, [LayerConfig(128, ReLU), LayerConfig(128, ReLU)], 3, 1)

  function HiddenSizes(items: seq<Json>): (r: seq<LayerConfig>)
    ensures |r| == |items| && forall i :: 0 <= i < |items| ==> r[i] == LayerConfig(Trunc(AsNumber(items[i])), ReLU)
  {
    seq(|items|, i requires 0 <= i < |items| => LayerConfig(Trunc(AsNumber(items[i])), ReLU))
  }

  /** The configuration block, with the `for (Val : *HiddenLayersArray)`
      loop. */
  method ReadNetworkConfig(obj: map<string, Json>) returns (config: NetworkConfig)
    ensures config == ConfigFrom(obj)
  {
    config := DefaultConfig.(inputSize := IntegerField(obj, "input_size"));
    var hidden := ArrayField(obj, "hidden_layers");
    if hidden.Some? {
      var layers: seq<LayerConfig> := [];
      var i := 0;
      while i < |hidden.value|
        invariant i <= |hidden.value|
        invariant layers == HiddenSizes(hidden.value[..i])
      {
        layers := layers + [LayerConfig(Trunc(AsNumber(hidden.value[i])), ReLU)];
        i := i + 1;
      }
      assert hidden.value[..i] == hidden.value;
      config := config.(hiddenLayers := layers);
    }
    config := config.(policyOutputSize := IntegerField(obj, "policy_output_size"),
                      valueOutputSize := IntegerField(obj, "value_output_size"));
  }

  /** The root object of a readable document with a "network_config"
      object; None for an unreadable file, text that does not parse to an
      object, or a missing configuration. */
  function Document(file: Option<Json>): (r: Option<map<string, Json>>)
    ensures r.Some? <==> file.Some? && file.value.JObject? && ObjectField(file.value.fields, "network_config").Some?
    ensures r.Some? ==> r.value == file.value.fields
  {
    if file.Some? && file.value.JObject? && ObjectField(file.value.fields, "network_config").Some? then
      Some(file.value.fields)
    else None
  }

  /** The configuration a document asks for. */
  function DocumentConfig(root: map<string, Json>): NetworkConfig
  {
    if ObjectField(root, "network_config").Some? then ConfigFrom(ObjectField(root, "network_config").value)
    else DefaultConfig
  }

  /** Initialize sizes the log-std arrays by the policy output size, which
      the engine requires not to be negative. */
  predicate Initializable(file: Option<Json>)
  {
    Document(file).Some? ==> DocumentConfig(Document(file).value).policyOutputSize >= 0
  }

  // ---------------------------------------------------------------------
  // Loading into the network

  /** The parts of the network the document writes. */
  datatype Weights = Weights(policyLayers: seq<DenseLayer>, policyHead: DenseLayer,
                             valueLayers: seq<DenseLayer>, valueHead: DenseLayer, actionLogStd: seq<real>)

  function WeightsOf(net: Network): Weights
    reads net
  {
    Weights(net.policyLayers, net.policyHead, net.valueLayers, net.valueHead, net.actionLogStd)
  }

  /** The weights Initialize leaves for `config`. */
  function InitialWeights(config: NetworkConfig, init: (nat, int, int, Activation) -> DenseLayer, logHalf: real): Weights
    requires config.policyOutputSize >= 0
  {
    var n := |config.hiddenLayers|;
    Weights(InitialLayers(config, 0, init, n), TowerHead(config, 0, init, config.policyOutputSize, Tanh),
            InitialLayers(config, n + 1, init, n), TowerHead(config, n + 1, init, config.valueOutputSize, Linear),
            Filled(config.policyOutputSize, logHalf))
  }

  /** What the document does to the weights of a network configured as
      `config`: the layer entries below the bound, each head when its
      object is there, the log-std when its array is there. */
  function ApplyDocument(w: Weights, root: map<string, Json>, config: NetworkConfig): (r: Weights)
    ensures |r.policyLayers| == |w.policyLayers| && |r.valueLayers| == |w.valueLayers|
    ensures |r.actionLogStd| == |w.actionLogStd|
  {
    var policy := Entries(root, "policy_layers");
    var value := Entries(root, "value_layers");
    Weights(ApplyUpTo(w.policyLayers, policy, LayerBound(policy, config), true),
            ApplyPayload(w.policyHead, HeadPayload(root, "policy_head")),
            ApplyUpTo(w.valueLayers, value, LayerBound(value, config), false),
            ApplyPayload(w.valueHead, HeadPayload(root, "value_head")),
            if LogStdPayload(root).Some? then WithLogStd(w.actionLogStd, LogStdPayload(root).value) else w.actionLogStd)
  }

  /** The policy-layer loop. */
  method LoadPolicyLayers(net: Network, entries: seq<Json>)
    modifies net`policyLayers
    ensures net.policyLayers == ApplyUpTo(old(net.policyLayers), entries, LayerBound(entries, net.networkConfig), true)
  {
    var i := 0;
    while i < |entries| && i < |net.networkConfig.hiddenLayers|
      invariant i <= LayerBound(entries, net.networkConfig)
      invariant net.policyLayers == ApplyUpTo(old(net.policyLayers), entries, i, true)
    {
      var p := ReadLayerEntry(entries[i], true);
      if p.Some? {
        net.SetPolicyLayerWeights(i, p.value.weights, p.value.biases);
      }
      i := i + 1;
    }
  }

  /** The value-layer loop. */
  method LoadValueLayers(net: Network, entries: seq<Json>)
    modifies net`valueLayers
    ensures net.valueLayers == ApplyUpTo(old(net.valueLayers), entries, LayerBound(entries, net.networkConfig), false)
  {
    var i := 0;
    while i < |entries| && i < |net.networkConfig.hiddenLayers|
      invariant i <= LayerBound(entries, net.networkConfig)
      invariant net.valueLayers == ApplyUpTo(old(net.valueLayers), entries, i, false)
    {
      var p := ReadLayerEntry(entries[i], false);
      if p.Some? {
        net.SetValueLayerWeights(i, p.value.weights, p.value.biases);
      }
      i := i + 1;
    }
  }

  /** The heads and the log-std. */
  method LoadHeads(net: Network, root: map<string, Json>)
    modifies net`policyHead, net`valueHead, net`actionLogStd
    ensures net.policyHead == ApplyPayload(old(net.policyHead), HeadPayload(root, "policy_head"))
    ensures net.valueHead == ApplyPayload(old(net.valueHead), HeadPayload(root, "value_head"))
    ensures LogStdPayload(root).None? ==> net.actionLogStd == old(net.actionLogStd)
    ensures LogStdPayload(root).Some? ==> net.actionLogStd == WithLogStd(old(net.actionLogStd), LogStdPayload(root).value)
  {
    if "policy_head" in root {
      var p := ReadLayerEntry(root["policy_head"], false);
      if p.Some? {
        net.SetPolicyHeadWeights(p.value.weights, p.value.biases);
      }
    }
    if "value_head" in root {
      var p := ReadLayerEntry(root["value_head"], false);
      if p.Some? {
        net.SetValueHeadWeights(p.value.weights, p.value.biases);
      }
    }
    var logStd := ArrayField(root, "action_log_std");
    if logStd.Some? {
      var values := ReadAllNumbers(logStd.value);
      net.SetActionLogStd(values);
    }
  }

  /** Everything after the configuration: layers, heads, log-std. */
  method LoadDocument(net: Network, root: map<string, Json>)
    modifies net`policyLayers, net`valueLayers, net`policyHead, net`valueHead, net`actionLogStd
    ensures WeightsOf(net) == ApplyDocument(old(WeightsOf(net)), root, net.networkConfig)
  {
    LoadPolicyLayers(net, Entries(root, "policy_layers"));
    LoadValueLayers(net, Entries(root, "value_layers"));
    LoadHeads(net, root);
  }

  /** The `if (!TargetNetwork->IsInitialized())` step. */
  method InitializeIfNeeded(net: Network, config: NetworkConfig,
                            init: (nat, int, int, Activation) -> DenseLayer, logHalf: real)
    requires !net.initialized ==> config.policyOutputSize >= 0
    modifies net
    ensures net.initialized
    ensures old(net.initialized) ==> unchanged(net)
    ensures !old(net.initialized) ==> net.networkConfig == config && net.adamStep == 0 &&
                                      WeightsOf(net) == InitialWeights(config, init, logHalf)
  {
    if !net.initialized {
      net.Initialize(config, init, logHalf);
    }
  }

  /** LoadWeightsFromJSON. `file` is None when the file cannot be read or
      does not parse; `init` and `logHalf` are the random layer
      initialisation and ln 0.5 that Initialize uses. The network is
      initialised from the document's configuration only when it was not
      already; then the layers below the bound, the heads and the log-std
      go through the setters. */
  method LoadWeightsFromJson(file: Option<Json>, net: Network,
                             init: (nat, int, int, Activation) -> DenseLayer, logHalf: real)
    returns (ok: bool)
    requires !net.initialized ==> Initializable(file)
    modifies net
    ensures ok <==> Document(file).Some?
    ensures !ok ==> unchanged(net)
    ensures ok ==> net.initialized
    ensures ok ==> net.networkConfig == (if old(net.initialized) then old(net.networkConfig)
                                         else DocumentConfig(Document(file).value))
    ensures ok ==> net.adamStep == (if old(net.initialized) then old(net.adamStep) else 0)
    ensures ok ==> WeightsOf(net) ==
                   ApplyDocument(if old(net.initialized) then old(WeightsOf(net))
                                 else InitialWeights(net.networkConfig, init, logHalf),
                                 Document(file).value, net.networkConfig)
  {
    var root := Document(file);
    if root.None? {
      return false;
    }
    var config := ReadNetworkConfig(ObjectField(root.value, "network_config").value);
    InitializeIfNeeded(net, config, init, logHalf);
    LoadDocument(net, root.value);
    ok := true;
  }

  // ---------------------------------------------------------------------
  // The round trip with the export script

  function LayerJson(l: ExportModelForUnreal.JsonLayer): Json
  {
    JObject(map["weights" := JArray(Numbers(l.weights)), "biases" := JArray(Numbers(l.biases))])
  }

  function LayersJson(ls: seq<ExportModelForUnreal.JsonLayer>): (r: seq<Json>)
    ensures |r| == |ls| && forall i :: 0 <= i < |ls| ==> r[i] == LayerJson(ls[i])
  {
    seq(|ls|, i requires 0 <= i < |ls| => LayerJson(ls[i]))
  }

  function IntsJson(xs: seq<int>): (r: seq<Json>)
    ensures |r| == |xs| && forall i :: 0 <= i < |xs| ==> r[i] == JNumber(xs[i] as real)
  {
    seq(|xs|, i requires 0 <= i < |xs| => JNumber(xs[i] as real))
  }

  /** `json.dump(output_data)` of the export script, read back by the
      engine's parser. */
  function ExportedJson(m: ExportModelForUnreal.ExportedModel): Json
  {
    JObject(map[
      "network_config" := JObject(map[
        "input_size" := JNumber(m.inputSize as real),
        "hidden_layers" := JArray(IntsJson(m.hiddenLayers)),
        "policy_output_size" := JNumber(m.policyOutputSize as real),
        "value_output_size" := JNumber(m.valueOutputSize as real)]),
      "policy_layers" := JArray(LayersJson(m.policyLayers)),
      "value_layers" := JArray(LayersJson(m.valueLayers)),
      "policy_head" := LayerJson(m.policyHead),
      "value_head" := LayerJson(m.valueHead),
      "action_log_std" := JArray(Numbers(m.actionLogStd))])
  }

  /** An exported layer reads back as exactly its weights and biases, on
      either path. */
  lemma LayerJsonRead(l: ExportModelForUnreal.JsonLayer, policyPath: bool)
    ensures LayerPayload(LayerJson(l), policyPath) == Some(Payload(l.weights, l.biases))
  {
    WeightPathsAgreeOnNumbers(l.weights, []);
    NumbersRead(l.biases);
  }

  /** The configuration the export script writes is the one the importer
      builds. */
  lemma ExportedConfigRead(m: ExportModelForUnreal.ExportedModel)
    ensures Document(Some(ExportedJson(m))).Some?
    ensures DocumentConfig(ExportedJson(m).fields) ==
            NetworkConfig(m.inputSize, seq(|m.hiddenLayers|, i requires 0 <= i < |m.hiddenLayers| =>
                                             LayerConfig(m.hiddenLayers[i], ReLU)),
                          m.policyOutputSize, m.valueOutputSize)
  {
    var cfg := ExportedJson(m).fields["network_config"].fields;
    TruncOfInteger(m.inputSize);
    TruncOfInteger(m.policyOutputSize);
    TruncOfInteger(m.valueOutputSize);
    forall i | 0 <= i < |m.hiddenLayers| ensures Trunc(AsNumber(IntsJson(m.hiddenLayers)[i])) == m.hiddenLayers[i] {
      TruncOfInteger(m.hiddenLayers[i]);
    }
  }

  /** Every exported layer, both heads and the log-std read back as
      written. */
  lemma ExportedWeightsRead(m: ExportModelForUnreal.ExportedModel)
    ensures Entries(ExportedJson(m).fields, "policy_layers") == LayersJson(m.policyLayers)
    ensures Entries(ExportedJson(m).fields, "value_layers") == LayersJson(m.valueLayers)
    ensures forall i :: 0 <= i < |m.policyLayers| ==>
              LayerPayload(LayersJson(m.policyLayers)[i], true) ==
              Some(Payload(m.policyLayers[i].weights, m.policyLayers[i].biases))
    ensures forall i :: 0 <= i < |m.valueLayers| ==>
              LayerPayload(LayersJson(m.valueLayers)[i], false) ==
              Some(Payload(m.valueLayers[i].weights, m.valueLayers[i].biases))
    ensures HeadPayload(ExportedJson(m).fields, "policy_head") == Some(Payload(m.policyHead.weights, m.policyHead.biases))
    ensures HeadPayload(ExportedJson(m).fields, "value_head") == Some(Payload(m.valueHead.weights, m.valueHead.biases))
    ensures LogStdPayload(ExportedJson(m).fields) == Some(m.actionLogStd)
  {
    var root := ExportedJson(m).fields;
    assert Entries(root, "policy_layers") == LayersJson(m.policyLayers);
    assert Entries(root, "value_layers") == LayersJson(m.valueLayers);
    forall i | 0 <= i < |m.policyLayers|
      ensures LayerPayload(LayersJson(m.policyLayers)[i], true) == Some(Payload(m.policyLayers[i].weights, m.policyLayers[i].biases))
    {
      LayerJsonRead(m.policyLayers[i], true);
    }
    forall i | 0 <= i < |m.valueLayers|
      ensures LayerPayload(LayersJson(m.valueLayers)[i], false) == Some(Payload(m.valueLayers[i].weights, m.valueLayers[i].biases))
    {
      LayerJsonRead(m.valueLayers[i], false);
    }
    LayerJsonRead(m.policyHead, false);
    LayerJsonRead(m.valueHead, false);
    NumbersRead(m.actionLogStd);
  }

  /** Importing an exported document: every layer below the bound, both
      heads and the log-std take the exported values exactly when their
      lengths fit, and keep their own otherwise. */
  lemma ImportOfExport(m: ExportModelForUnreal.ExportedModel, w: Weights, config: NetworkConfig)
    ensures var r := ApplyDocument(w, ExportedJson(m).fields, config);
            r.policyHead == WithWeights(w.policyHead, m.policyHead.weights, m.policyHead.biases) &&
            r.valueHead == WithWeights(w.valueHead, m.valueHead.weights, m.valueHead.biases) &&
            r.actionLogStd == WithLogStd(w.actionLogStd, m.actionLogStd)
    ensures var r := ApplyDocument(w, ExportedJson(m).fields, config);
            forall j :: 0 <= j < |w.policyLayers| && j < |m.policyLayers| && j < |config.hiddenLayers| ==>
              r.policyLayers[j] == WithWeights(w.policyLayers[j], m.policyLayers[j].weights, m.policyLayers[j].biases)
    ensures var r := ApplyDocument(w, ExportedJson(m).fields, config);
            forall j :: 0 <= j < |w.valueLayers| && j < |m.valueLayers| && j < |config.hiddenLayers| ==>
              r.valueLayers[j] == WithWeights(w.valueLayers[j], m.valueLayers[j].weights, m.valueLayers[j].biases)
  {
    var root := ExportedJson(m).fields;
    ExportedWeightsRead(m);
    var policy := LayersJson(m.policyLayers);
    var value := LayersJson(m.valueLayers);
    ApplyUpToPointwise(w.policyLayers, policy, LayerBound(policy, config), true);
    ApplyUpToPointwise(w.valueLayers, value, LayerBound(value, config), false);
  }
}
