/** export_model_for_unreal.py: turning a PyTorch checkpoint of the policy
    network into the JSON document the engine's importer reads. The
    shared linear layers are found by their state-dict keys, their
    weights flattened row-major, the network shape derived from the
    weight and bias lengths, and the heads and the action log standard
    deviation copied. */
module ExportModelForUnreal {
  import opened Common
  import opened KeySort
  import opened PyText

  /** A tensor of the state dict, as far as the exporter reads it. */
  datatype Tensor = Vector(values: seq<real>) | Matrix(rows: seq<seq<real>>)

  type StateDict = map<string, Tensor>

  /** A loaded `.pt` file: its entries, and `policy_state_dict` when it has
      one. */
  datatype Checkpoint = Checkpoint(entries: StateDict, policyStateDict: Option<StateDict>)

  /** One shared layer as collected: flattened weights and, when the bias
      key exists, the bias. */
  datatype SharedLayer = SharedLayer(weights: seq<real>, bias: Option<seq<real>>)

  /** A `{'weights': ..., 'biases': ...}` entry of the output. */
  datatype JsonLayer = JsonLayer(weights: seq<real>, biases: seq<real>)

  /** The output document. */
  datatype ExportedModel = ExportedModel(inputSize: int, hiddenLayers: seq<int>,
                                         policyOutputSize: int, valueOutputSize: int,
                                         policyLayers: seq<JsonLayer>, valueLayers: seq<JsonLayer>,
                                         policyHead: JsonLayer, valueHead: JsonLayer,
                                         actionLogStd: seq<real>)

  /** The rows of a matrix one after the other. */
  function Concat(rows: seq<seq<real>>): seq<real>
  {
    if rows == [] then [] else rows[0] + Concat(rows[1..])
  }

  /** `tensor.flatten().tolist()`. */
  function Flatten(t: Tensor): seq<real>
  {
    match t
    case Vector(values) => values
    case Matrix(rows) => Concat(rows)
  }

  lemma {:induction false} ConcatLength(rows: seq<seq<real>>, cols: nat)
    requires forall i :: 0 <= i < |rows| ==> |rows[i]| == cols
    ensures |Concat(rows)| == |rows| * cols
  {
    if rows != [] {
      ConcatLength(rows[1..], cols);
      assert |rows| * cols == cols + (|rows| - 1) * cols;
    }
  }

  /** Flattening is row-major: element (i, j) of a matrix with rows of
      length cols lands at position i·cols + j. */
  lemma {:induction false} ConcatIndex(rows: seq<seq<real>>, cols: nat, i: nat, j: nat)
    requires forall k :: 0 <= k < |rows| ==> |rows[k]| == cols
    requires i < |rows| && j < cols
    ensures i * cols + j < |Concat(rows)| && Concat(rows)[i * cols + j] == rows[i][j]
  {
    ConcatLength(rows, cols);
    MulMonotone(i + 1, |rows|, cols);
    if i > 0 {
      ConcatIndex(rows[1..], cols, i - 1, j);
      assert i * cols + j == cols + ((i - 1) * cols + j);
    }
  }

  /** `state_dict = checkpoint['policy_state_dict']` when present, else the
      checkpoint itself. */
  function StateDictOf(checkpoint: Checkpoint): (r: StateDict)
    ensures checkpoint.policyStateDict.None? ==> r == checkpoint.entries
  {
    if checkpoint.policyStateDict.Some? then checkpoint.policyStateDict.value else checkpoint.entries
  }

  /** Python's `sub in s` on strings. */
  predicate Contains(s: string, sub: string)
  {
    exists i :: 0 <= i <= |s| - |sub| && OccursAt(s, sub, i)
  }

  predicate OccursAt(s: string, sub: string, i: nat)
  {
    i + |sub| <= |s| && s[i..i + |sub|] == sub
  }

  /** The layer index a state-dict key names: for a key containing "shared"
      and "weight", its second '.'-separated piece read by `int()`. */
  function KeyLayerIndex(key: string): Option<int>
  {
    if Contains(key, "shared") && Contains(key, "weight") then
      var parts := Split(key, '.');
      if |parts| >= 2 then ParseInt(parts[1]) else None
    else None
  }

  /** `str(i)` for any integer. */
  function IntToString(i: int): string
  {
    if i < 0 then "-" + NatToString(-i) else NatToString(i)
  }

  function WeightKey(layerIdx: int): string { "shared." + IntToString(layerIdx) + ".weight" }

  function BiasKey(layerIdx: int): string { "shared." + IntToString(layerIdx) + ".bias" }

  lemma SplitOfWeightKey(n: nat)
    ensures Split(WeightKey(n), '.') == ["shared", NatToString(n), "weight"]
  {
    var d := NatToString(n);
    assert IntToString(n) == d;
    assert WeightKey(n) == "shared" + ['.'] + d + ['.'] + "weight";
    DigitsHoldNo(d, '.');
    SplitThree("shared", d, "weight", '.');
  }

  lemma WeightKeyMatches(n: nat)
    ensures Contains(WeightKey(n), "shared") && Contains(WeightKey(n), "weight")
  {
    var key := WeightKey(n);
    assert OccursAt(key, "shared", 0);
    assert OccursAt(key, "weight", |key| - 6);
  }

  /** The canonical weight key of a layer names that layer. */
  lemma KeyLayerIndexOfWeightKey(n: nat)
    ensures KeyLayerIndex(WeightKey(n)) == Some(n)
  {
    WeightKeyMatches(n);
    SplitOfWeightKey(n);
    ParseIntOfNat(n);
  }

  /** The layer indices a set of keys names. */
  ghost function IndexSetOf(keys: set<string>): set<int>
  {
    set k | k in keys && KeyLayerIndex(k).Some? :: KeyLayerIndex(k).value
  }

  lemma IndexSetOfAdd(keys: set<string>, key: string)
    ensures IndexSetOf(keys + {key}) ==
            IndexSetOf(keys) + (if KeyLayerIndex(key).Some? then {KeyLayerIndex(key).value} else {})
  {
  }

  /** The layer indices the keys of a state dict name. */
  ghost function SharedIndexSet(sd: StateDict): set<int>
  {
    IndexSetOf(sd.Keys)
  }

  predicate NoDup(s: seq<int>)
  {
    forall i, j :: 0 <= i < j < |s| ==> s[i] != s[j]
  }

  predicate StrictlyAscending(s: seq<int>)
  {
    forall i, j :: 0 <= i < j < |s| ==> s[i] < s[j]
  }

  lemma {:induction false} NoDupCount(s: seq<int>, x: int)
    requires NoDup(s)
    ensures multiset(s)[x] <= 1
  {
    if s != [] {
      assert s == [s[0]] + s[1..];
      NoDupCount(s[1..], x);
      if x == s[0] {
        assert x !in s[1..];
      }
    }
  }

  /** A sorted reordering of a duplicate-free list is strictly ascending. */
  lemma SortedDistinctAscending(r: seq<int>, s: seq<int>)
    requires multiset(r) == multiset(s)
    requires NoDup(s)
    requires SortedBy(r, IntId, IntLe)
    ensures StrictlyAscending(r)
  {
    forall i, j | 0 <= i < j < |r| ensures r[i] < r[j] {
      assert IntLe(r[i], r[j]);
      if r[i] == r[j] {
        assert r == r[..j] + r[j..];
        assert r[i] in multiset(r[..j]) && r[j] in multiset(r[j..]);
        assert multiset(r)[r[i]] == multiset(r[..j])[r[i]] + multiset(r[j..])[r[i]];
        NoDupCount(s, r[i]);
        assert false;
      }
    }
  }

  lemma NonEmptyHasMember(s: set<string>)
    requires s != {}
    ensures exists k :: k in s
  {
    if forall k :: k !in s {
      assert false;
    }
  }

  /** Moving a key from the unvisited to the visited keys keeps their
      union and their disjointness, and leaves fewer keys to visit. */
  lemma MoveKey(remaining: set<string>, visited: set<string>, key: string)
    requires key in remaining && remaining !! visited
    ensures (remaining - {key}) + (visited + {key}) == remaining + visited
    ensures (remaining - {key}) !! (visited + {key})
    ensures |remaining - {key}| < |remaining|
  {
  }

  /** Visiting one more key keeps `found` duplicate-free and equal, as a
      set, to the indices of the visited keys. */
  lemma GatherStep(found: seq<int>, found': seq<int>, visited: set<string>, key: string)
    requires NoDup(found) && forall x :: x in found <==> x in IndexSetOf(visited)
    requires var idx := KeyLayerIndex(key);
             found' == if idx.Some? && idx.value !in found then found + [idx.value] else found
    ensures NoDup(found') && forall x :: x in found' <==> x in IndexSetOf(visited + {key})
  {
    IndexSetOfAdd(visited, key);
  }

  /** The layer indices named by the state-dict keys, each
      once, in order of first appearance. The keys are visited in an
      arbitrary order rather than `sorted()` order, which the sort that
      follows makes irrelevant. */
  method GatherSharedIndices(sd: StateDict) returns (found: seq<int>)
    ensures NoDup(found)
    ensures forall x :: x in found <==> x in SharedIndexSet(sd)
  {
    var remaining := sd.Keys;
    ghost var visited: set<string> := {};
    found := [];
    while remaining != {}
      invariant remaining + visited == sd.Keys && remaining !! visited
      invariant NoDup(found)
      invariant forall x :: x in found <==> x in IndexSetOf(visited)
      decreases |remaining|
    {
      NonEmptyHasMember(remaining);
      var key :| key in remaining;
      var idx := KeyLayerIndex(key);
      ghost var before := found;
      if idx.Some? && idx.value !in found {
        found := found + [idx.value];
      }
      GatherStep(before, found, visited, key);
      MoveKey(remaining, visited, key);
      remaining := remaining - {key};
      visited := visited + {key};
    }
    assert visited == sd.Keys;
  }

  /** The distinct layer indices named by the state-dict keys,
      in ascending order. */
  method CollectSharedIndices(sd: StateDict) returns (indices: seq<int>)
    ensures StrictlyAscending(indices)
    ensures forall x :: x in indices <==> x in SharedIndexSet(sd)
  {
    var found := GatherSharedIndices(sd);
    IntLeTotal();
    SortByPermutes(found, IntId, IntLe);
    SortBySorted(found, IntId, IntLe);
    indices := SortBy(found, IntId, IntLe);
    SortedDistinctAscending(indices, found);
    forall x ensures x in indices <==> x in found {
      assert x in indices <==> x in multiset(indices);
    }
  }

  /** A layer for each index whose weight key exists. */
  function LayersFor(sd: StateDict, indices: seq<int>): (r: seq<SharedLayer>)
    ensures |r| <= |indices|
  {
    if indices == [] then []
    else
      var init := indices[..|indices| - 1];
      var idx := indices[|indices| - 1];
      if WeightKey(idx) in sd then
        var bias := if BiasKey(idx) in sd then Some(Flatten(sd[BiasKey(idx)])) else None;
        LayersFor(sd, init) + [SharedLayer(Flatten(sd[WeightKey(idx)]), bias)]
      else LayersFor(sd, init)
  }

  /** No layer is exported exactly when no index has a weight tensor. */
  lemma {:induction false} LayersForEmpty(sd: StateDict, indices: seq<int>)
    ensures LayersFor(sd, indices) == [] <==> forall i :: 0 <= i < |indices| ==> WeightKey(indices[i]) !in sd
    decreases |indices|
  {
    if indices != [] {
      var init, idx := indices[..|indices| - 1], indices[|indices| - 1];
      assert indices == init + [idx];
      LayersForEmpty(sd, init);
      if WeightKey(idx) in sd {
        assert |LayersFor(sd, indices)| == |LayersFor(sd, init)| + 1;
      } else {
        assert LayersFor(sd, indices) == LayersFor(sd, init);
      }
    }
  }

  /** A layer's output size: its bias length, or 128 without a (non-empty)
      bias. */
  function OutputSize(layer: SharedLayer): (r: int)
    ensures r > 0
  {
    if layer.bias.Some? && layer.bias.value != [] then |layer.bias.value| else 128
  }

  /** `input_size`: weight count over output size of the first layer, 16
      when its weights are empty. */
  function InputSize(layers: seq<SharedLayer>): int
    requires layers != []
  {
    if layers[0].weights != [] then |layers[0].weights| / OutputSize(layers[0]) else 16
  }

  /** For a first layer stored as an out × in matrix with its bias of
      length out, the derived input size is in. */
  lemma InputSizeOfMatrix(layers: seq<SharedLayer>, rows: seq<seq<real>>, cols: nat)
    requires layers != [] && rows != [] && cols > 0
    requires forall i :: 0 <= i < |rows| ==> |rows[i]| == cols
    requires layers[0].weights == Concat(rows)
    requires layers[0].bias.Some? && |layers[0].bias.value| == |rows|
    ensures InputSize(layers) == cols
  {
    ConcatLength(rows, cols);
    assert |layers[0].weights| == cols * |rows| + 0;
    ModUnique(|layers[0].weights|, |rows|, cols, 0);
  }

  function HiddenSizes(layers: seq<SharedLayer>): (r: seq<int>)
    ensures |r| == |layers|
    ensures forall i :: 0 <= i < |r| ==> r[i] == OutputSize(layers[i])
  {
    if layers == [] then [] else [OutputSize(layers[0])] + HiddenSizes(layers[1..])
  }

  function Zeros(n: nat): (r: seq<real>)
    ensures |r| == n && forall i :: 0 <= i < n ==> r[i] == 0.0
  {
    if n == 0 then [] else [0.0] + Zeros(n - 1)
  }

  /** An output layer entry: the bias when non-empty, otherwise one zero
      per weight (not per output). */
  function ToJsonLayer(layer: SharedLayer): (r: JsonLayer)
    ensures r.weights == layer.weights
    ensures layer.bias.Some? && layer.bias.value != [] ==> r.biases == layer.bias.value
    ensures !(layer.bias.Some? && layer.bias.value != []) && layer.weights != [] ==> r.biases == Zeros(|layer.weights|)
  {
    JsonLayer(layer.weights,
              if layer.bias.Some? && layer.bias.value != [] then layer.bias.value
              else Zeros(if layer.weights != [] then |layer.weights| else 128))
  }

  /** The entries of the layers with non-empty weights, in order. */
  function JsonLayers(layers: seq<SharedLayer>): (r: seq<JsonLayer>)
    ensures |r| <= |layers|
    ensures forall i :: 0 <= i < |r| ==> r[i].weights != []
  {
    if layers == [] then []
    else if layers[0].weights != [] then [ToJsonLayer(layers[0])] + JsonLayers(layers[1..])
    else JsonLayers(layers[1..])
  }

  /** `tensor or []` for an optional key. */
  function ValuesOr(sd: StateDict, key: string): seq<real>
  {
    if key in sd then Flatten(sd[key]) else []
  }

  /** `action_log_std`: the element-wise log of `policy_std`, or
      [0.5, 0.5, 0.5] when it is missing or empty. */
  function ActionLogStd(sd: StateDict, log: real -> real): (r: seq<real>)
    ensures ValuesOr(sd, "policy_std") == [] ==> r == [0.5, 0.5, 0.5]
    ensures ValuesOr(sd, "policy_std") != [] ==>
              |r| == |ValuesOr(sd, "policy_std")| &&
              forall i :: 0 <= i < |r| ==> r[i] == log(ValuesOr(sd, "policy_std")[i])
  {
    var std := ValuesOr(sd, "policy_std");
    if std == [] then [0.5, 0.5, 0.5] else seq(|std|, i requires 0 <= i < |std| => log(std[i]))
  }

  /** The output document for a non-empty list of shared layers. */
  function Assemble(sd: StateDict, layers: seq<SharedLayer>, log: real -> real): (r: ExportedModel)
    requires layers != []
    ensures r.inputSize == InputSize(layers) && r.hiddenLayers == HiddenSizes(layers)
    ensures r.policyOutputSize == 3 && r.valueOutputSize == 1
    ensures r.valueLayers == r.policyLayers
    ensures r.actionLogStd == ActionLogStd(sd, log)
  {
    var jsonLayers := JsonLayers(layers);
    ExportedModel(InputSize(layers), HiddenSizes(layers), 3, 1, jsonLayers, jsonLayers,
                  JsonLayer(ValuesOr(sd, "policy_mean.weight"), ValuesOr(sd, "policy_mean.bias")),
                  JsonLayer(ValuesOr(sd, "value.weight"), ValuesOr(sd, "value.bias")),
                  ActionLogStd(sd, log))
  }

  /** The loop of `export_model_to_json` over the ascending indices: each
      index with a weight tensor adds a layer, its bias flattened when
      present. */
  method CollectLayers(sd: StateDict, indices: seq<int>) returns (policyLayers: seq<SharedLayer>)
    ensures policyLayers == LayersFor(sd, indices)
  {
    policyLayers := [];
    var i := 0;
    while i < |indices|
      invariant i <= |indices|
      invariant policyLayers == LayersFor(sd, indices[..i])
    {
      var layerIdx := indices[i];
      var weightKey := WeightKey(layerIdx);
      var biasKey := BiasKey(layerIdx);
      if weightKey in sd {
        var weights := Flatten(sd[weightKey]);
        var biases := if biasKey in sd then Some(Flatten(sd[biasKey])) else None;
        policyLayers := policyLayers + [SharedLayer(weights, biases)];
      }
      i := i + 1;
      assert indices[..i][..i - 1] == indices[..i - 1];
    }
    assert indices[..i] == indices;
  }

  /** `export_model_to_json`, with `np.log` as the parameter `log`: `None`
      (False) when no shared layer has weights in the state dict, otherwise
      the document built from the layers of the ascending shared indices. */
  method ExportModelToJson(checkpoint: Checkpoint, log: real -> real) returns (result: Option<ExportedModel>)
    ensures var sd := StateDictOf(checkpoint);
            result.None? <==> forall x :: x in SharedIndexSet(sd) ==> WeightKey(x) !in sd
    ensures var sd := StateDictOf(checkpoint);
            result.Some? ==>
              exists indices :: StrictlyAscending(indices) && (forall x :: x in indices <==> x in SharedIndexSet(sd)) &&
                                LayersFor(sd, indices) != [] && result.value == Assemble(sd, LayersFor(sd, indices), log)
  {
    var sd := StateDictOf(checkpoint);
    var indices := CollectSharedIndices(sd);
    var policyLayers := CollectLayers(sd, indices);
    LayersForEmpty(sd, indices);
    if policyLayers == [] {
      forall x | x in SharedIndexSet(sd) ensures WeightKey(x) !in sd {
        var k :| 0 <= k < |indices| && indices[k] == x;
      }
      return None;
    }
    result := Some(Assemble(sd, policyLayers, log));
  }
}
