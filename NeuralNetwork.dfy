/** The in-engine multilayer perceptron (USimpleNeuralNetwork and FDenseLayer
    in SimpleNeuralNetwork.cpp): the dense-layer forward pass, the
    size-checked weight setters, the parameter count, the binary save/load
    layout and the guards around a PPO training step. */
module NeuralNetwork {
  import opened Common
  import opened AgentTypes
  import opened ExperienceReplay

  /** EActivationType. `Linear` is the enum's `None`. */
  datatype Activation = Linear | ReLU | Tanh | Sigmoid | Softmax | LeakyReLU

  /** The integer the save format stores for an activation: its enum ordinal. */
  function ActivationCode(a: Activation): (c: int)
    ensures 0 <= c <= 5
    ensures ActivationFromCode(c) == a
  {
    match a
    case Linear => 0
    case ReLU => 1
    case Tanh => 2
    case Sigmoid => 3
    case Softmax => 4
    case LeakyReLU => 5
  }

  /** The cast back from the stored integer. An ordinal outside the enum
      falls into `Forward`'s default branch, which applies no activation,
      so it is read as `Linear`. */
  function ActivationFromCode(c: int): Activation
  {
    if c == 1 then ReLU
    else if c == 2 then Tanh
    else if c == 3 then Sigmoid
    else if c == 4 then Softmax
    else if c == 5 then LeakyReLU
    else Linear
  }

  ghost predicate ExpPositive(exp: real -> real)
  {
    forall x :: exp(x) > 0.0
  }

  /** One activation applied to one pre-activation value. Softmax has no
      case in the forward pass and, like `None`, leaves the value alone. */
  function Activate(act: Activation, v: real, tanh: real -> real, exp: real -> real): (r: real)
    requires ExpPositive(exp)
    ensures act == ReLU ==> r >= 0.0 && (v >= 0.0 ==> r == v)
    ensures act == LeakyReLU ==> (r >= 0.0 <==> v >= 0.0) && (v >= 0.0 ==> r == v)
    ensures act == Linear || act == Softmax ==> r == v
    ensures act == Sigmoid ==> 0.0 < r < 1.0
  {
    match act
    case ReLU => Max(0.0, v)
    case Tanh => tanh(v)
    case Sigmoid =>
      assert exp(-v) > 0.0;
      1.0 / (1.0 + exp(-v))
    case LeakyReLU => if v >= 0.0 then v else 0.01 * v
    case Linear => v
    case Softmax => v
  }

  /** FDenseLayer. The forward caches (`LastInput`, ...) only feed the
      backward pass and are not part of the model. */
  datatype DenseLayer = DenseLayer(
    inputSize: int,
    outputSize: int,
    activation: Activation,
    weights: seq<real>,
    biases: seq<real>,
    weightGrads: seq<real>,
    biasGrads: seq<real>,
    weightM: seq<real>,
    weightV: seq<real>,
    biasM: seq<real>,
    biasV: seq<real>)
  {
    /** Row-major `[OutputSize x InputSize]` weights and one bias per output. */
    predicate WellFormed()
    {
      0 <= inputSize && 0 <= outputSize &&
      |weights| == inputSize * outputSize && |biases| == outputSize
    }

    function NumParameters(): nat
    {
      |weights| + |biases|
    }
  }

  /** A default-constructed layer, as `TArray::SetNum` creates one. */
  const DefaultLayer: DenseLayer := DenseLayer(0, 0, ReLU, [], [], [], [], [], [], [], [])

  lemma RowFits(o: nat, n: nat, m: nat)
    requires o < m
    ensures o * n + n <= n * m
  {
    MulMonotone(o + 1, m, n);
  }

  /** `sum_{i < k} input[i] * weights[start + i]`. */
  function RowDot(input: seq<real>, weights: seq<real>, start: nat, k: nat): real
    requires k <= |input| && start + k <= |weights|
  {
    if k == 0 then 0.0
    else RowDot(input, weights, start, k - 1) + input[k - 1] * weights[start + k - 1]
  }

  /** `b[o] + sum_i in[i] * W[o * In + i]`. */
  function PreActivation(layer: DenseLayer, input: seq<real>, o: nat): real
    requires layer.WellFormed() && |input| == layer.inputSize && o < layer.outputSize
  {
    RowFits(o, layer.inputSize, layer.outputSize);
    layer.biases[o] + RowDot(input, layer.weights, o * layer.inputSize, layer.inputSize)
  }

  /** What the forward pass of a layer computes. */
  function LayerOutput(layer: DenseLayer, input: seq<real>, tanh: real -> real, exp: real -> real): (r: seq<real>)
    requires layer.WellFormed() && |input| == layer.inputSize && ExpPositive(exp)
    ensures |r| == layer.outputSize
  {
    seq(layer.outputSize, o requires 0 <= o < layer.outputSize =>
      Activate(layer.activation, PreActivation(layer, input, o), tanh, exp))
  }

  /** FDenseLayer::Forward: `OutputSize` values, each the activation of the
      bias plus the dot product of the input with the weight row. The
      source `check`s that the input length is `InputSize`. */
  method Forward(layer: DenseLayer, input: seq<real>, tanh: real -> real, exp: real -> real)
    returns (output: seq<real>)
    requires layer.WellFormed() && |input| == layer.inputSize && ExpPositive(exp)
    ensures |output| == layer.outputSize
    ensures forall o :: 0 <= o < |output| ==>
              output[o] == Activate(layer.activation, PreActivation(layer, input, o), tanh, exp)
    ensures layer.activation == ReLU ==> forall o :: 0 <= o < |output| ==> output[o] >= 0.0
    ensures output == LayerOutput(layer, input, tanh, exp)
  {
    var pre: seq<real> := [];
    var o := 0;
    while o < layer.outputSize
      invariant 0 <= o <= layer.outputSize
      invariant |pre| == o
      invariant forall k :: 0 <= k < o ==> pre[k] == PreActivation(layer, input, k)
    {
      RowFits(o, layer.inputSize, layer.outputSize);
      var sum := layer.biases[o];
      var rowStart := o * layer.inputSize;
      var i := 0;
      while i < layer.inputSize
        invariant 0 <= i <= layer.inputSize
        invariant sum == layer.biases[o] + RowDot(input, layer.weights, rowStart, i)
      {
        sum := sum + input[i] * layer.weights[rowStart + i];
        i := i + 1;
      }
      pre := pre + [sum];
      o := o + 1;
    }
    output := pre;
    var j := 0;
    while j < |output|
      invariant 0 <= j <= |output| == layer.outputSize
      invariant forall k :: 0 <= k < j ==> output[k] == Activate(layer.activation, pre[k], tanh, exp)
      invariant forall k :: j <= k < |output| ==> output[k] == pre[k]
    {
      output := output[j := Activate(layer.activation, output[j], tanh, exp)];
      j := j + 1;
    }
  }

  /** A setter's effect on one layer: the new weights and biases are taken
      only when both have exactly the current lengths. */
  function WithWeights(layer: DenseLayer, weights: seq<real>, biases: seq<real>): (r: DenseLayer)
    ensures |weights| == |layer.weights| && |biases| == |layer.biases| ==>
              r.weights == weights && r.biases == biases
    ensures !(|weights| == |layer.weights| && |biases| == |layer.biases|) ==> r == layer
    ensures r.(weights := layer.weights, biases := layer.biases) == layer
    ensures layer.WellFormed() ==> r.WellFormed()
    ensures r.NumParameters() == layer.NumParameters()
  {
    if |weights| == |layer.weights| && |biases| == |layer.biases| then
      layer.(weights := weights, biases := biases)
    else
      layer
  }

  /** SetActionLogStd's effect: replaced only on an exact length match. */
  function WithLogStd(current: seq<real>, logStd: seq<real>): (r: seq<real>)
    ensures |r| == |current|
    ensures r == logStd || r == current
    ensures r == logStd <==> |logStd| == |current|
  {
    if |logStd| == |current| then logStd else current
  }

  function LayersParameters(ls: seq<DenseLayer>): nat
  {
    if ls == [] then 0 else LayersParameters(ls[..|ls| - 1]) + ls[|ls| - 1].NumParameters()
  }

  /** Replacing one layer by one of the same size keeps the total. */
  lemma {:induction false} LayersParametersUpdate(ls: seq<DenseLayer>, i: nat, l: DenseLayer)
    requires i < |ls| && l.NumParameters() == ls[i].NumParameters()
    ensures LayersParameters(ls[i := l]) == LayersParameters(ls)
  {
    var last := |ls| - 1;
    var u := ls[i := l];
    if i < last {
      assert u[..last] == ls[..last][i := l];
      LayersParametersUpdate(ls[..last], i, l);
    } else {
      assert u[..last] == ls[..last];
    }
  }

  // ---------------------------------------------------------------------
  // Save / load layout

  /** One item of the serialised stream: an `int32`, or a float array
      (which the archive writes with its own length prefix). */
  datatype Token = IntToken(n: int) | FloatsToken(values: seq<real>)

  /** The fields of a layer the file carries. */
  datatype SavedLayer = SavedLayer(inputSize: int, outputSize: int, activation: Activation,
                                   weights: seq<real>, biases: seq<real>)

  datatype SavedNetwork = SavedNetwork(
    inputSize: int,
    policyOutputSize: int,
    valueOutputSize: int,
    adamStep: int,
    policyLayers: seq<SavedLayer>,
    policyHead: SavedLayer,
    valueLayers: seq<SavedLayer>,
    valueHead: SavedLayer,
    actionLogStd: seq<real>)

  function Saved(l: DenseLayer): SavedLayer
  {
    SavedLayer(l.inputSize, l.outputSize, l.activation, l.weights, l.biases)
  }

  function SavedAll(ls: seq<DenseLayer>): (r: seq<SavedLayer>)
    ensures |r| == |ls|
    ensures forall k :: 0 <= k < |ls| ==> r[k] == Saved(ls[k])
  {
    seq(|ls|, k requires 0 <= k < |ls| => Saved(ls[k]))
  }

  /** WriteLayer: input size, output size, activation ordinal, weights, biases. */
  function LayerTokens(l: SavedLayer): (r: seq<Token>)
    ensures |r| == 5
  {
    [IntToken(l.inputSize), IntToken(l.outputSize), IntToken(ActivationCode(l.activation)),
     FloatsToken(l.weights), FloatsToken(l.biases)]
  }

  function LayersTokens(ls: seq<SavedLayer>): (r: seq<Token>)
    ensures |r| == 5 * |ls|
  {
    if ls == [] then [] else LayerTokens(ls[0]) + LayersTokens(ls[1..])
  }

  lemma {:induction false} LayersTokensAppend(a: seq<SavedLayer>, b: seq<SavedLayer>)
    ensures LayersTokens(a + b) == LayersTokens(a) + LayersTokens(b)
    decreases |a|
  {
    if a == [] {
      assert a + b == b;
    } else {
      assert (a + b)[1..] == a[1..] + b;
      LayersTokensAppend(a[1..], b);
    }
  }

  /** SaveToFile's stream: the three sizes, the Adam step, the two layer
      counts, the policy layers, the policy head, the value layers, the
      value head and the action log-std. */
  function Encode(s: SavedNetwork): seq<Token>
  {
    [IntToken(s.inputSize), IntToken(s.policyOutputSize), IntToken(s.valueOutputSize),
     IntToken(s.adamStep), IntToken(|s.policyLayers|), IntToken(|s.valueLayers|)]
    + LayersTokens(s.policyLayers) + LayerTokens(s.policyHead)
    + LayersTokens(s.valueLayers) + LayerTokens(s.valueHead)
    + [FloatsToken(s.actionLogStd)]
  }

  datatype Read<T> = Read(value: T, next: nat)

  /** ReadLayer at position `pos`. */
  function DecodeLayer(ts: seq<Token>, pos: nat): (r: Option<Read<SavedLayer>>)
    ensures r.Some? ==> r.value.next == pos + 5 <= |ts|
  {
    if pos + 5 <= |ts| && ts[pos].IntToken? && ts[pos + 1].IntToken? && ts[pos + 2].IntToken?
       && ts[pos + 3].FloatsToken? && ts[pos + 4].FloatsToken? then
      Some(Read(SavedLayer(ts[pos].n, ts[pos + 1].n, ActivationFromCode(ts[pos + 2].n),
                           ts[pos + 3].values, ts[pos + 4].values), pos + 5))
    else None
  }

  /** `count` layers in a row. */
  function DecodeLayers(ts: seq<Token>, pos: nat, count: nat): (r: Option<Read<seq<SavedLayer>>>)
    requires pos <= |ts|
    ensures r.Some? ==> |r.value.value| == count && r.value.next == pos + 5 * count <= |ts|
    decreases count
  {
    if count == 0 then Some(Read([], pos))
    else
      match DecodeLayer(ts, pos)
      case None => None
      case Some(first) =>
        match DecodeLayers(ts, first.next, count - 1)
        case None => None
        case Some(rest) => Some(Read([first.value] + rest.value, rest.next))
  }

  /** The six leading integers, with non-negative layer counts. */
  predicate HeaderOk(ts: seq<Token>)
  {
    |ts| >= 6 && ts[0].IntToken? && ts[1].IntToken? && ts[2].IntToken? && ts[3].IntToken? &&
    ts[4].IntToken? && ts[5].IntToken? && ts[4].n >= 0 && ts[5].n >= 0
  }

  function DecodeBody(ts: seq<Token>): Option<SavedNetwork>
    requires HeaderOk(ts)
  {
    match DecodeLayers(ts, 6, ts[4].n)
    case None => None
    case Some(pl) =>
      match DecodeLayer(ts, pl.next)
      case None => None
      case Some(ph) =>
        match DecodeLayers(ts, ph.next, ts[5].n)
        case None => None
        case Some(vl) =>
          match DecodeLayer(ts, vl.next)
          case None => None
          case Some(vh) =>
            if vh.next < |ts| && ts[vh.next].FloatsToken? then
              Some(SavedNetwork(ts[0].n, ts[1].n, ts[2].n, ts[3].n, pl.value, ph.value,
                                vl.value, vh.value, ts[vh.next].values))
            else None
  }

  /** LoadFromFile's reading order. A stream that runs short or holds the
      wrong kind of item, or a negative layer count (a failed `SetNum`
      assertion in the engine), gives `None`. */
  function Decode(ts: seq<Token>): Option<SavedNetwork>
  {
    if HeaderOk(ts) then DecodeBody(ts) else None
  }

  lemma DecodeLayerEncoded(ts: seq<Token>, pos: nat, l: SavedLayer)
    requires pos + 5 <= |ts| && ts[pos..pos + 5] == LayerTokens(l)
    ensures DecodeLayer(ts, pos) == Some(Read(l, pos + 5))
  {
    assert ts[pos] == ts[pos..pos + 5][0];
    assert ts[pos + 1] == ts[pos..pos + 5][1];
    assert ts[pos + 2] == ts[pos..pos + 5][2];
    assert ts[pos + 3] == ts[pos..pos + 5][3];
    assert ts[pos + 4] == ts[pos..pos + 5][4];
  }

  lemma {:induction false} DecodeLayersEncoded(ts: seq<Token>, pos: nat, ls: seq<SavedLayer>)
    requires pos + 5 * |ls| <= |ts| && ts[pos..pos + 5 * |ls|] == LayersTokens(ls)
    ensures DecodeLayers(ts, pos, |ls|) == Some(Read(ls, pos + 5 * |ls|))
    decreases |ls|
  {
    if ls != [] {
      var rest := ls[1..];
      var end := pos + 5 + 5 * |rest|;
      assert pos + 5 * |ls| == end;
      SplitSlice(ts, pos, pos + 5, end, LayerTokens(ls[0]), LayersTokens(rest));
      DecodeLayerEncoded(ts, pos, ls[0]);
      DecodeLayersEncoded(ts, pos + 5, rest);
      DecodeLayersCons(ts, pos, |ls|, Read(ls[0], pos + 5), Read(rest, end));
      assert [ls[0]] + rest == ls;
    }
  }

  /** DecodeLayers of a positive count: the first layer, then the rest. */
  lemma DecodeLayersCons(ts: seq<Token>, pos: nat, count: nat, first: Read<SavedLayer>, rest: Read<seq<SavedLayer>>)
    requires pos <= |ts| && count > 0 && first.next <= |ts|
    requires DecodeLayer(ts, pos) == Some(first) && DecodeLayers(ts, first.next, count - 1) == Some(rest)
    ensures DecodeLayers(ts, pos, count) == Some(Read([first.value] + rest.value, rest.next))
  {
  }

  /** A slice that is the concatenation of two parts splits where the
      first part ends. */
  lemma SplitSlice<T>(ts: seq<T>, a: nat, b: nat, c: nat, x: seq<T>, y: seq<T>)
    requires a <= b <= c <= |ts| && |x| == b - a && ts[a..c] == x + y
    ensures ts[a..b] == x && ts[b..c] == y
  {
    assert ts[a..b] == ts[a..c][..b - a];
    assert ts[b..c] == ts[a..c][b - a..];
  }

  /** Where each part of a saved stream sits. */
  lemma EncodeLayout(s: SavedNetwork)
    ensures var ts := Encode(s);
      var p1 := 6 + 5 * |s.policyLayers|;
      var p3 := p1 + 5 + 5 * |s.valueLayers|;
      |ts| == p3 + 6 &&
      ts[0] == IntToken(s.inputSize) && ts[1] == IntToken(s.policyOutputSize) &&
      ts[2] == IntToken(s.valueOutputSize) && ts[3] == IntToken(s.adamStep) &&
      ts[4] == IntToken(|s.policyLayers|) && ts[5] == IntToken(|s.valueLayers|) &&
      ts[6..p1] == LayersTokens(s.policyLayers) &&
      ts[p1..p1 + 5] == LayerTokens(s.policyHead) &&
      ts[p1 + 5..p3] == LayersTokens(s.valueLayers) &&
      ts[p3..p3 + 5] == LayerTokens(s.valueHead) &&
      ts[p3 + 5] == FloatsToken(s.actionLogStd)
  {
    var head := [IntToken(s.inputSize), IntToken(s.policyOutputSize), IntToken(s.valueOutputSize),
                 IntToken(s.adamStep), IntToken(|s.policyLayers|), IntToken(|s.valueLayers|)];
    var pl := LayersTokens(s.policyLayers);
    var ph := LayerTokens(s.policyHead);
    var vl := LayersTokens(s.valueLayers);
    var vh := LayerTokens(s.valueHead);
    var ts := Encode(s);
    assert ts == head + pl + ph + vl + vh + [FloatsToken(s.actionLogStd)];
  }

  /** Load reads back exactly what save wrote. */
  lemma DecodeEncode(s: SavedNetwork)
    ensures Decode(Encode(s)) == Some(s)
  {
    EncodeLayout(s);
    DecodeLaidOut(Encode(s), s);
  }

  /** Any stream laid out as `s` would be saved decodes to `s`. */
  lemma DecodeLaidOut(ts: seq<Token>, s: SavedNetwork)
    requires var p1 := 6 + 5 * |s.policyLayers|;
      var p3 := p1 + 5 + 5 * |s.valueLayers|;
      |ts| == p3 + 6 &&
      ts[0] == IntToken(s.inputSize) && ts[1] == IntToken(s.policyOutputSize) &&
      ts[2] == IntToken(s.valueOutputSize) && ts[3] == IntToken(s.adamStep) &&
      ts[4] == IntToken(|s.policyLayers|) && ts[5] == IntToken(|s.valueLayers|) &&
      ts[6..p1] == LayersTokens(s.policyLayers) &&
      ts[p1..p1 + 5] == LayerTokens(s.policyHead) &&
      ts[p1 + 5..p3] == LayersTokens(s.valueLayers) &&
      ts[p3..p3 + 5] == LayerTokens(s.valueHead) &&
      ts[p3 + 5] == FloatsToken(s.actionLogStd)
    ensures Decode(ts) == Some(s)
  {
    var p1 := 6 + 5 * |s.policyLayers|;
    var p2 := p1 + 5;
    var p3 := p2 + 5 * |s.valueLayers|;
    assert HeaderOk(ts) && ts[4].n == |s.policyLayers| && ts[5].n == |s.valueLayers|;
    DecodeLayersEncoded(ts, 6, s.policyLayers);
    assert DecodeLayers(ts, 6, ts[4].n) == Some(Read(s.policyLayers, p1));
    DecodeLayerEncoded(ts, p1, s.policyHead);
    DecodeLayersEncoded(ts, p2, s.valueLayers);
    assert DecodeLayers(ts, p2, ts[5].n) == Some(Read(s.valueLayers, p3));
    DecodeLayerEncoded(ts, p3, s.valueHead);
    DecodeBodyOfReads(ts, Read(s.policyLayers, p1), Read(s.policyHead, p2), Read(s.valueLayers, p3),
                      Read(s.valueHead, p3 + 5));
  }

  /** DecodeBody once each of its four reads is known. */
  lemma DecodeBodyOfReads(ts: seq<Token>, pl: Read<seq<SavedLayer>>, ph: Read<SavedLayer>,
                          vl: Read<seq<SavedLayer>>, vh: Read<SavedLayer>)
    requires HeaderOk(ts) && pl.next <= |ts| && ph.next <= |ts| && vl.next <= |ts|
    requires DecodeLayers(ts, 6, ts[4].n) == Some(pl) && DecodeLayer(ts, pl.next) == Some(ph)
    requires DecodeLayers(ts, ph.next, ts[5].n) == Some(vl) && DecodeLayer(ts, vl.next) == Some(vh)
    requires vh.next < |ts| && ts[vh.next].FloatsToken?
    ensures DecodeBody(ts) == Some(SavedNetwork(ts[0].n, ts[1].n, ts[2].n, ts[3].n, pl.value, ph.value,
                                                vl.value, vh.value, ts[vh.next].values))
  {
  }

  /** `TArray::SetNumZeroed`: truncates, or grows with zeros; the entries
      that survive keep their values. */
  function ResizeZeroed(s: seq<real>, n: nat): (r: seq<real>)
    ensures |r| == n
    ensures forall k :: 0 <= k < n && k < |s| ==> r[k] == s[k]
    ensures forall k :: |s| <= k < n ==> r[k] == 0.0
  {
    if n <= |s| then s[..n] else s + seq(n - |s|, _ => 0.0)
  }

  predicate AllZero(s: seq<real>)
  {
    forall k :: 0 <= k < |s| ==> s[k] == 0.0
  }

  function Zeros(n: nat): (r: seq<real>)
    ensures |r| == n && AllZero(r)
  {
    seq(n, _ => 0.0)
  }

  /** ReadLayer as written: the read fields replace the layer's, and the
      gradient and Adam-moment arrays are only resized, so a layer that
      already held optimiser state keeps it. */
  function LoadLayerAsWritten(current: DenseLayer, f: SavedLayer): (r: DenseLayer)
    ensures Saved(r) == f
  {
    DenseLayer(f.inputSize, f.outputSize, f.activation, f.weights, f.biases,
               ResizeZeroed(current.weightGrads, |f.weights|), ResizeZeroed(current.biasGrads, |f.biases|),
               ResizeZeroed(current.weightM, |f.weights|), ResizeZeroed(current.weightV, |f.weights|),
               ResizeZeroed(current.biasM, |f.biases|), ResizeZeroed(current.biasV, |f.biases|))
  }

  /** Reloading into a layer that was already trained keeps its first Adam
      moment: the "initialise" step leaves a non-zero moment in place. */
  lemma StaleMomentSurvivesLoad()
    ensures var current := DefaultLayer.(inputSize := 1, outputSize := 1, weights := [0.5], biases := [0.0],
                                         weightM := [1.0]);
            var f := SavedLayer(1, 1, ReLU, [0.25], [0.0]);
            LoadLayerAsWritten(current, f).weightM == [1.0]
  {
    var current := DefaultLayer.(inputSize := 1, outputSize := 1, weights := [0.5], biases := [0.0],
                                 weightM := [1.0]);
    var r := ResizeZeroed(current.weightM, 1);
    assert |r| == 1 && r[0] == 1.0;
  }

  /** ReadLayer as intended: the read fields, with every gradient and
      moment array zeroed to the new sizes. */
  function LoadLayer(f: SavedLayer): (r: DenseLayer)
    ensures Saved(r) == f
    ensures |r.weightGrads| == |r.weightM| == |r.weightV| == |f.weights|
    ensures |r.biasGrads| == |r.biasM| == |r.biasV| == |f.biases|
    ensures AllZero(r.weightGrads) && AllZero(r.weightM) && AllZero(r.weightV)
    ensures AllZero(r.biasGrads) && AllZero(r.biasM) && AllZero(r.biasV)
  {
    DenseLayer(f.inputSize, f.outputSize, f.activation, f.weights, f.biases,
               Zeros(|f.weights|), Zeros(|f.biases|), Zeros(|f.weights|), Zeros(|f.weights|),
               Zeros(|f.biases|), Zeros(|f.biases|))
  }

  function LoadLayers(fs: seq<SavedLayer>): (r: seq<DenseLayer>)
    ensures |r| == |fs|
    ensures forall k :: 0 <= k < |fs| ==> r[k] == LoadLayer(fs[k])
  {
    seq(|fs|, k requires 0 <= k < |fs| => LoadLayer(fs[k]))
  }

  // ---------------------------------------------------------------------
  // Training step

  /** FPPOHyperparameters, the fields `TrainStep` reads. */
  datatype PpoHyperparameters = PpoHyperparameters(learningRate: real, clipRange: real,
                                                   valueCoef: real, entropyCoef: real)

  /** The forward pass's result for one experience: action means and the
      value prediction of the current network. */
  datatype Prediction = Prediction(actionMeans: seq<real>, value: real)

  datatype LossTotals = LossTotals(policy: real, value: real, entropy: real)

  /** One experience's contribution to the three reported losses. An
      experience whose policy output has fewer than three means is skipped.
      `logProb` is GaussianLogProb, `halfLogTwoPiE` the constant
      `0.5 * ln(2 pi e)`. */
  function ExperienceLosses(e: Experience, p: Prediction, logStd: seq<real>, params: PpoHyperparameters,
                            invBatch: real, logProb: (real, real, real) -> real,
                            exp: real -> real, halfLogTwoPiE: real): (r: LossTotals)
    requires |p.actionMeans| >= 3 ==> |logStd| >= 3
    ensures |p.actionMeans| < 3 ==> r == LossTotals(0.0, 0.0, 0.0)
    ensures invBatch >= 0.0 && params.valueCoef >= 0.0 ==> r.value >= 0.0
  {
    if |p.actionMeans| < 3 then LossTotals(0.0, 0.0, 0.0)
    else
      var newLogProb := logProb(e.action.steer, p.actionMeans[0], logStd[0])
                      + logProb(e.action.throttle, p.actionMeans[1], logStd[1])
                      + logProb(e.action.brake, p.actionMeans[2], logStd[2]);
      var ratio := exp(newLogProb - e.logProb);
      var clippedRatio := UeClamp(ratio, 1.0 - params.clipRange, 1.0 + params.clipRange);
      var policyLoss := -Min(ratio * e.advantage, clippedRatio * e.advantage);
      var valueLoss := Square(p.value - e.ret);
      var entropy := (logStd[0] + halfLogTwoPiE) + (logStd[1] + halfLogTwoPiE) + (logStd[2] + halfLogTwoPiE);
      LossTotals(policyLoss * invBatch, valueLoss * invBatch * params.valueCoef,
                 -(entropy * invBatch * params.entropyCoef))
  }

  predicate LogStdCoversPredictions(preds: seq<Prediction>, logStd: seq<real>)
  {
    forall k :: 0 <= k < |preds| ==> (|preds[k].actionMeans| >= 3 ==> |logStd| >= 3)
  }

  /** The totals after the first `n` experiences of the batch. */
  function BatchLosses(batch: seq<Experience>, preds: seq<Prediction>, logStd: seq<real>,
                       params: PpoHyperparameters, invBatch: real, logProb: (real, real, real) -> real,
                       exp: real -> real, halfLogTwoPiE: real, n: nat): LossTotals
    requires n <= |batch| == |preds| && LogStdCoversPredictions(preds, logStd)
  {
    if n == 0 then LossTotals(0.0, 0.0, 0.0)
    else
      var before := BatchLosses(batch, preds, logStd, params, invBatch, logProb, exp, halfLogTwoPiE, n - 1);
      var one := ExperienceLosses(batch[n - 1], preds[n - 1], logStd, params, invBatch, logProb, exp, halfLogTwoPiE);
      LossTotals(before.policy + one.policy, before.value + one.value, before.entropy + one.entropy)
  }

  /** With non-negative coefficients the reported value loss is never negative. */
  lemma {:induction false} BatchValueLossNonNegative(batch: seq<Experience>, preds: seq<Prediction>,
                                                     logStd: seq<real>, params: PpoHyperparameters,
                                                     invBatch: real, logProb: (real, real, real) -> real,
                                                     exp: real -> real, halfLogTwoPiE: real, n: nat)
    requires n <= |batch| == |preds| && LogStdCoversPredictions(preds, logStd)
    requires params.valueCoef >= 0.0 && invBatch >= 0.0
    ensures BatchLosses(batch, preds, logStd, params, invBatch, logProb, exp, halfLogTwoPiE, n).value >= 0.0
  {
    if n > 0 {
      BatchValueLossNonNegative(batch, preds, logStd, params, invBatch, logProb, exp, halfLogTwoPiE, n - 1);
      var p := preds[n - 1];
      if |p.actionMeans| >= 3 {
        var sq := Square(p.value - batch[n - 1].ret);
        assert sq * invBatch >= 0.0;
        assert sq * invBatch * params.valueCoef >= 0.0;
      }
    }
  }

  /** The loss loop of TrainStep. */
  method AccumulateLosses(batch: seq<Experience>, preds: seq<Prediction>, logStd: seq<real>,
                          params: PpoHyperparameters, logProb: (real, real, real) -> real,
                          exp: real -> real, halfLogTwoPiE: real)
    returns (totals: LossTotals)
    requires |batch| == |preds| > 0 && LogStdCoversPredictions(preds, logStd)
    ensures totals == BatchLosses(batch, preds, logStd, params, 1.0 / |batch| as real,
                                  logProb, exp, halfLogTwoPiE, |batch|)
    ensures params.valueCoef >= 0.0 ==> totals.value >= 0.0
  {
    var invBatch := 1.0 / |batch| as real;
    totals := LossTotals(0.0, 0.0, 0.0);
    var i := 0;
    while i < |batch|
      invariant 0 <= i <= |batch|
      invariant totals == BatchLosses(batch, preds, logStd, params, invBatch, logProb, exp, halfLogTwoPiE, i)
    {
      var one := ExperienceLosses(batch[i], preds[i], logStd, params, invBatch, logProb, exp, halfLogTwoPiE);
      totals := LossTotals(totals.policy + one.policy, totals.value + one.value, totals.entropy + one.entropy);
      i := i + 1;
    }
    if params.valueCoef >= 0.0 {
      BatchValueLossNonNegative(batch, preds, logStd, params, invBatch, logProb, exp, halfLogTwoPiE, |batch|);
    }
  }

  /** `ln 0.01` and `ln 2` at single precision: the log-std bounds. */
  const LogStdMin: real := -4.6051702
  const LogStdMax: real := 0.6931472

  function ClampLogStd(raw: seq<real>): (r: seq<real>)
    ensures |r| == |raw|
    ensures forall k :: 0 <= k < |r| ==> LogStdMin <= r[k] <= LogStdMax
    ensures forall k :: 0 <= k < |r| ==> (LogStdMin <= raw[k] <= LogStdMax ==> r[k] == raw[k])
  {
    seq(|raw|, k requires 0 <= k < |raw| => UeClamp(raw[k], LogStdMin, LogStdMax))
  }

  /** The optimiser step over a layer stack, one layer after the other. */
  method UpdateLayers(layers: seq<DenseLayer>, applyGradients: DenseLayer -> DenseLayer) returns (r: seq<DenseLayer>)
    ensures |r| == |layers|
    ensures forall k :: 0 <= k < |r| ==> r[k] == applyGradients(layers[k])
  {
    r := layers;
    var i := 0;
    while i < |r|
      invariant 0 <= i <= |r| == |layers|
      invariant forall k :: 0 <= k < i ==> r[k] == applyGradients(layers[k])
      invariant forall k :: i <= k < |r| ==> r[k] == layers[k]
    {
      r := r[i := applyGradients(r[i])];
      i := i + 1;
    }
  }

  /** The loop that clamps every log standard deviation after the Adam
      update. */
  method ClampEach(raw: seq<real>) returns (r: seq<real>)
    ensures r == ClampLogStd(raw)
  {
    r := raw;
    var i := 0;
    while i < |r|
      invariant 0 <= i <= |r| == |raw|
      invariant forall k :: 0 <= k < i ==> r[k] == ClampLogStd(raw)[k]
      invariant forall k :: i <= k < |r| ==> r[k] == raw[k]
    {
      r := r[i := UeClamp(r[i], LogStdMin, LogStdMax)];
      i := i + 1;
    }
  }

  /** FNetworkConfig's hidden-layer entries. */
  datatype LayerConfig = LayerConfig(outputSize: int, activation: Activation)

  /** FNetworkConfig. */
  datatype NetworkConfig = NetworkConfig(inputSize: int, hiddenLayers: seq<LayerConfig>,
                                         policyOutputSize: int, valueOutputSize: int)

  /** The input width of hidden layer `i`: the network input for the first,
      the previous layer's output after that. */
  function LayerInputSize(config: NetworkConfig, i: nat): int
    requires i <= |config.hiddenLayers|
  {
    if i == 0 then config.inputSize else config.hiddenLayers[i - 1].outputSize
  }

  /** The width the heads read: the last hidden layer's output, or the
      network input without hidden layers. */
  function LastHiddenSize(config: NetworkConfig): int
  {
    LayerInputSize(config, |config.hiddenLayers|)
  }

  /** FDenseLayer::Initialize with its random draws abstracted: `init(d, in,
      out, act)` is the layer the `d`-th initialisation of the network
      produces. */
  ghost predicate InitShapes(init: (nat, int, int, Activation) -> DenseLayer)
  {
    forall d, inSize, outSize, act :: init(d, inSize, outSize, act).inputSize == inSize &&
      init(d, inSize, outSize, act).outputSize == outSize && init(d, inSize, outSize, act).activation == act
  }

  /** The first `k` hidden layers of one tower, initialised with the draws
      `first`, `first + 1`, ... */
  function InitialLayers(config: NetworkConfig, first: nat, init: (nat, int, int, Activation) -> DenseLayer, k: nat)
    : (r: seq<DenseLayer>)
    requires k <= |config.hiddenLayers|
    ensures |r| == k
  {
    if k == 0 then []
    else
      InitialLayers(config, first, init, k - 1) +
        [init(first + k - 1, LayerInputSize(config, k - 1), config.hiddenLayers[k - 1].outputSize,
              config.hiddenLayers[k - 1].activation)]
  }

  /** Each initialised layer reads what the one before it writes, and the
      head reads the last of them. */
  lemma {:induction false} InitialLayersChain(config: NetworkConfig, first: nat,
                                              init: (nat, int, int, Activation) -> DenseLayer, k: nat)
    requires InitShapes(init) && k <= |config.hiddenLayers|
    ensures k > 0 ==> InitialLayers(config, first, init, k)[0].inputSize == config.inputSize
    ensures forall i :: 0 < i < k ==>
              InitialLayers(config, first, init, k)[i].inputSize == InitialLayers(config, first, init, k)[i - 1].outputSize
    ensures forall i :: 0 <= i < k ==>
              InitialLayers(config, first, init, k)[i].outputSize == config.hiddenLayers[i].outputSize &&
              InitialLayers(config, first, init, k)[i].activation == config.hiddenLayers[i].activation
  {
    if k > 0 {
      InitialLayersChain(config, first, init, k - 1);
      var prev := InitialLayers(config, first, init, k - 1);
      var r := InitialLayers(config, first, init, k);
      assert r[..k - 1] == prev;
      forall i | 0 <= i < k - 1 ensures r[i] == prev[i] {
      }
    }
  }

  /** `n` copies of `x`. */
  function Filled(n: nat, x: real): (r: seq<real>)
    ensures |r| == n && forall k :: 0 <= k < n ==> r[k] == x
  {
    seq(n, _ => x)
  }

  /** The head on top of a tower whose hidden layers used the draws
      `first` .. `first + |hiddenLayers| - 1`. */
  function TowerHead(config: NetworkConfig, first: nat, init: (nat, int, int, Activation) -> DenseLayer,
                     headSize: int, headActivation: Activation): DenseLayer
  {
    init(first + |config.hiddenLayers|, LastHiddenSize(config), headSize, headActivation)
  }

  /** One tower in Initialize: the `for (LC : HiddenLayers)` loop, where
      each layer reads `LastSize`, which then becomes its output width, and
      the head on top. */
  method BuildTower(config: NetworkConfig, first: nat, init: (nat, int, int, Activation) -> DenseLayer,
                    headSize: int, headActivation: Activation)
    returns (layers: seq<DenseLayer>, head: DenseLayer)
    ensures layers == InitialLayers(config, first, init, |config.hiddenLayers|)
    ensures head == TowerHead(config, first, init, headSize, headActivation)
  {
    var n := |config.hiddenLayers|;
    layers := [];
    var lastSize := config.inputSize;
    var i := 0;
    while i < n
      invariant i <= n
      invariant layers == InitialLayers(config, first, init, i)
      invariant lastSize == LayerInputSize(config, i)
    {
      var lc := config.hiddenLayers[i];
      layers := layers + [init(first + i, lastSize, lc.outputSize, lc.activation)];
      lastSize := lc.outputSize;
      i := i + 1;
    }
    head := init(first + n, lastSize, headSize, headActivation);
  }

  /** USimpleNeuralNetwork. */
  class Network {
    var networkConfig: NetworkConfig
    var policyLayers: seq<DenseLayer>
    var valueLayers: seq<DenseLayer>
    var policyHead: DenseLayer
    var valueHead: DenseLayer
    var actionLogStd: seq<real>
    var actionLogStdGrad: seq<real>
    var actionLogStdM: seq<real>
    var actionLogStdV: seq<real>
    var adamStep: int
    var initialized: bool

    /** A freshly created network: default configuration, no layers. */
    constructor ()
      ensures networkConfig == NetworkConfig(0, [LayerConfig(128, ReLU), LayerConfig(128, ReLU)], 3, 1)
      ensures policyLayers == [] && valueLayers == [] && policyHead == DefaultLayer && valueHead == DefaultLayer
      ensures actionLogStd == [] && adamStep == 0 && !initialized
    {
      networkConfig := NetworkConfig(0, [LayerConfig(128, ReLU), LayerConfig(128, ReLU)], 3, 1);
      policyLayers, valueLayers := [], [];
      policyHead, valueHead := DefaultLayer, DefaultLayer;
      actionLogStd, actionLogStdGrad, actionLogStdM, actionLogStdV := [], [], [], [];
      adamStep := 0;
      initialized := false;
    }

    /** The configuration and the two towers Initialize installs. */
    predicate TowersFrom(config: NetworkConfig, init: (nat, int, int, Activation) -> DenseLayer)
      reads this
    {
      var n := |config.hiddenLayers|;
      networkConfig == config &&
      policyLayers == InitialLayers(config, 0, init, n) &&
      policyHead == TowerHead(config, 0, init, config.policyOutputSize, Tanh) &&
      valueLayers == InitialLayers(config, n + 1, init, n) &&
      valueHead == TowerHead(config, n + 1, init, config.valueOutputSize, Linear)
    }

    /** The log-std state Initialize leaves for `size` actions, given the
        gradient and moment arrays it found. */
    predicate LogStdReset(size: nat, logHalf: real, grad: seq<real>, m: seq<real>, v: seq<real>)
      reads this
    {
      actionLogStd == Filled(size, logHalf) &&
      actionLogStdGrad == ResizeZeroed(grad, size) &&
      actionLogStdM == ResizeZeroed(m, size) &&
      actionLogStdV == ResizeZeroed(v, size) &&
      adamStep == 0 && initialized
    }

    /** The first half of Initialize: store the configuration, then build
        the policy tower and the value tower, drawing the random
        initialisations in that order. */
    method InstallTowers(config: NetworkConfig, init: (nat, int, int, Activation) -> DenseLayer)
      modifies this`networkConfig, this`policyLayers, this`policyHead, this`valueLayers, this`valueHead
      ensures TowersFrom(config, init)
    {
      var n := |config.hiddenLayers|;
      var policy, pHead := BuildTower(config, 0, init, config.policyOutputSize, Tanh);
      var value, vHead := BuildTower(config, n + 1, init, config.valueOutputSize, Linear);
      networkConfig, policyLayers, policyHead, valueLayers, valueHead := config, policy, pHead, value, vHead;
    }

    /** The second half of Initialize: every log-std starts at `logHalf`,
        the gradient and moment arrays are only resized, the Adam step
        restarts. */
    method ResetLogStd(size: nat, logHalf: real)
      modifies this`actionLogStd, this`actionLogStdGrad, this`actionLogStdM, this`actionLogStdV
      modifies this`adamStep, this`initialized
      ensures LogStdReset(size, logHalf, old(actionLogStdGrad), old(actionLogStdM), old(actionLogStdV))
    {
      actionLogStd, actionLogStdGrad, actionLogStdM, actionLogStdV, adamStep, initialized :=
        Filled(size, logHalf), ResizeZeroed(actionLogStdGrad, size), ResizeZeroed(actionLogStdM, size),
        ResizeZeroed(actionLogStdV, size), 0, true;
    }

    /** Initialize: takes the configuration and builds the policy tower
        (hidden layers, then a Tanh head of PolicyOutputSize) and the value
        tower (the same hidden layers, then an unactivated head of
        ValueOutputSize), drawing the random initialisations in that order;
        every log-std starts at ln 0.5 (`logHalf`). The log-std gradient
        and moment arrays are only resized. */
    method Initialize(config: NetworkConfig, init: (nat, int, int, Activation) -> DenseLayer, logHalf: real)
      requires config.policyOutputSize >= 0
      modifies this
      ensures TowersFrom(config, init)
      ensures LogStdReset(config.policyOutputSize, logHalf,
                          old(actionLogStdGrad), old(actionLogStdM), old(actionLogStdV))
    {
      InstallTowers(config, init);
      ResetLogStd(config.policyOutputSize, logHalf);
    }

    /** Total weights and biases of all layers, plus the log-std entries. */
    function NumParameters(): nat
      reads this
    {
      LayersParameters(policyLayers) + LayersParameters(valueLayers)
        + policyHead.NumParameters() + valueHead.NumParameters() + |actionLogStd|
    }

    method GetNumParameters() returns (count: int)
      ensures count == NumParameters()
    {
      count := 0;
      var i := 0;
      while i < |policyLayers|
        invariant 0 <= i <= |policyLayers|
        invariant count == LayersParameters(policyLayers[..i])
      {
        assert policyLayers[..i + 1][..i] == policyLayers[..i];
        count := count + policyLayers[i].NumParameters();
        i := i + 1;
      }
      assert policyLayers[..|policyLayers|] == policyLayers;
      var policyCount := count;
      count := 0;
      i := 0;
      while i < |valueLayers|
        invariant 0 <= i <= |valueLayers|
        invariant count == LayersParameters(valueLayers[..i])
      {
        assert valueLayers[..i + 1][..i] == valueLayers[..i];
        count := count + valueLayers[i].NumParameters();
        i := i + 1;
      }
      assert valueLayers[..|valueLayers|] == valueLayers;
      count := policyCount + count;
      count := count + policyHead.NumParameters();
      count := count + valueHead.NumParameters();
      count := count + |actionLogStd|;
    }

    /** Replaces one policy layer's weights when the index is valid and both
        sizes match; otherwise nothing changes. */
    method SetPolicyLayerWeights(layerIndex: int, weights: seq<real>, biases: seq<real>)
      modifies this`policyLayers
      ensures 0 <= layerIndex < |old(policyLayers)| ==>
                policyLayers == old(policyLayers)[layerIndex := WithWeights(old(policyLayers)[layerIndex], weights, biases)]
      ensures !(0 <= layerIndex < |old(policyLayers)|) ==> policyLayers == old(policyLayers)
      ensures NumParameters() == old(NumParameters())
    {
      if !(0 <= layerIndex < |policyLayers|) {
        return;
      }
      var layer := policyLayers[layerIndex];
      if |weights| == |layer.weights| && |biases| == |layer.biases| {
        var updated := layer.(weights := weights, biases := biases);
        LayersParametersUpdate(policyLayers, layerIndex, updated);
        policyLayers := policyLayers[layerIndex := updated];
      } else {
        assert policyLayers[layerIndex := layer] == policyLayers;
      }
    }

    method SetValueLayerWeights(layerIndex: int, weights: seq<real>, biases: seq<real>)
      modifies this`valueLayers
      ensures 0 <= layerIndex < |old(valueLayers)| ==>
                valueLayers == old(valueLayers)[layerIndex := WithWeights(old(valueLayers)[layerIndex], weights, biases)]
      ensures !(0 <= layerIndex < |old(valueLayers)|) ==> valueLayers == old(valueLayers)
      ensures NumParameters() == old(NumParameters())
    {
      if !(0 <= layerIndex < |valueLayers|) {
        return;
      }
      var layer := valueLayers[layerIndex];
      if |weights| == |layer.weights| && |biases| == |layer.biases| {
        var updated := layer.(weights := weights, biases := biases);
        LayersParametersUpdate(valueLayers, layerIndex, updated);
        valueLayers := valueLayers[layerIndex := updated];
      } else {
        assert valueLayers[layerIndex := layer] == valueLayers;
      }
    }

    method SetPolicyHeadWeights(weights: seq<real>, biases: seq<real>)
      modifies this`policyHead
      ensures policyHead == WithWeights(old(policyHead), weights, biases)
      ensures NumParameters() == old(NumParameters())
    {
      if |weights| == |policyHead.weights| && |biases| == |policyHead.biases| {
        policyHead := policyHead.(weights := weights, biases := biases);
      }
    }

    method SetValueHeadWeights(weights: seq<real>, biases: seq<real>)
      modifies this`valueHead
      ensures valueHead == WithWeights(old(valueHead), weights, biases)
      ensures NumParameters() == old(NumParameters())
    {
      if |weights| == |valueHead.weights| && |biases| == |valueHead.biases| {
        valueHead := valueHead.(weights := weights, biases := biases);
      }
    }

    method SetActionLogStd(logStd: seq<real>)
      modifies this`actionLogStd
      ensures actionLogStd == WithLogStd(old(actionLogStd), logStd)
      ensures NumParameters() == old(NumParameters())
    {
      if |logStd| == |actionLogStd| {
        actionLogStd := logStd;
      }
    }

    /** The fields SaveToFile writes. */
    function Snapshot(): SavedNetwork
      reads this
    {
      SavedNetwork(networkConfig.inputSize, networkConfig.policyOutputSize, networkConfig.valueOutputSize, adamStep,
                   SavedAll(policyLayers), Saved(policyHead), SavedAll(valueLayers), Saved(valueHead),
                   actionLogStd)
    }

    /** SaveToFile: the header, then each layer through WriteLayer, then
        the log-std. Writing the bytes to disk is not modelled. */
    method SaveToFile() returns (data: seq<Token>)
      ensures data == Encode(Snapshot())
      ensures Decode(data) == Some(Snapshot())
    {
      data := [IntToken(networkConfig.inputSize), IntToken(networkConfig.policyOutputSize),
               IntToken(networkConfig.valueOutputSize), IntToken(adamStep),
               IntToken(|policyLayers|), IntToken(|valueLayers|)];
      ghost var header := data;
      var i := 0;
      while i < |policyLayers|
        invariant 0 <= i <= |policyLayers|
        invariant data == header + LayersTokens(SavedAll(policyLayers)[..i])
      {
        LayersTokensAppend(SavedAll(policyLayers)[..i], [Saved(policyLayers[i])]);
        assert SavedAll(policyLayers)[..i + 1] == SavedAll(policyLayers)[..i] + [Saved(policyLayers[i])];
        data := data + LayerTokens(Saved(policyLayers[i]));
        i := i + 1;
      }
      assert SavedAll(policyLayers)[..i] == SavedAll(policyLayers);
      data := data + LayerTokens(Saved(policyHead));
      ghost var afterPolicy := data;
      i := 0;
      while i < |valueLayers|
        invariant 0 <= i <= |valueLayers|
        invariant data == afterPolicy + LayersTokens(SavedAll(valueLayers)[..i])
      {
        LayersTokensAppend(SavedAll(valueLayers)[..i], [Saved(valueLayers[i])]);
        assert SavedAll(valueLayers)[..i + 1] == SavedAll(valueLayers)[..i] + [Saved(valueLayers[i])];
        data := data + LayerTokens(Saved(valueLayers[i]));
        i := i + 1;
      }
      assert SavedAll(valueLayers)[..i] == SavedAll(valueLayers);
      data := data + LayerTokens(Saved(valueHead));
      data := data + [FloatsToken(actionLogStd)];
      DecodeEncode(Snapshot());
    }

    /** The state a successful load of `s` leaves: configuration sizes,
        Adam step, layers and log-std from the file, every gradient and
        moment array zeroed. */
    predicate LoadedFrom(s: SavedNetwork)
      reads this
    {
      networkConfig.inputSize == s.inputSize && networkConfig.policyOutputSize == s.policyOutputSize &&
      networkConfig.valueOutputSize == s.valueOutputSize && adamStep == s.adamStep &&
      policyLayers == LoadLayers(s.policyLayers) && policyHead == LoadLayer(s.policyHead) &&
      valueLayers == LoadLayers(s.valueLayers) && valueHead == LoadLayer(s.valueHead) &&
      actionLogStd == s.actionLogStd && actionLogStdGrad == Zeros(|s.actionLogStd|) &&
      actionLogStdM == Zeros(|s.actionLogStd|) && actionLogStdV == Zeros(|s.actionLogStd|)
    }

    /** What ReadLayer and the log-std read do to the fields once the
        stream has been decoded. */
    method Restore(s: SavedNetwork)
      modifies this
      ensures LoadedFrom(s)
      ensures networkConfig.hiddenLayers == old(networkConfig.hiddenLayers) && initialized == old(initialized)
    {
      var pl := LoadLayers(s.policyLayers);
      var ph := LoadLayer(s.policyHead);
      var vl := LoadLayers(s.valueLayers);
      var vh := LoadLayer(s.valueHead);
      var zeros := Zeros(|s.actionLogStd|);
      networkConfig := networkConfig.(inputSize := s.inputSize, policyOutputSize := s.policyOutputSize,
                                      valueOutputSize := s.valueOutputSize);
      adamStep := s.adamStep;
      policyLayers, policyHead, valueLayers, valueHead := pl, ph, vl, vh;
      actionLogStd, actionLogStdGrad, actionLogStdM, actionLogStdV := s.actionLogStd, zeros, zeros, zeros;
    }

    /** LoadFromFile. `file` is None when the file could not be read, which
        is the one failure reported. A stream in the save layout replaces
        the configuration sizes, the Adam step, every layer and the log-std,
        with all gradient and moment arrays zeroed. The hidden-layer list of
        the configuration is not in the file and stays as it was. A stream
        that does not decode leaves every field but the initialised flag as
        it was. */
    method LoadFromFile(file: Option<seq<Token>>) returns (ok: bool)
      modifies this
      ensures ok <==> file.Some?
      ensures file.None? ==> unchanged(this)
      ensures file.Some? ==> initialized
      ensures file.Some? && Decode(file.value).Some? ==> LoadedFrom(Decode(file.value).value)
      ensures file.Some? && Decode(file.value).None? ==>
                networkConfig == old(networkConfig) && adamStep == old(adamStep) &&
                policyLayers == old(policyLayers) && policyHead == old(policyHead) &&
                valueLayers == old(valueLayers) && valueHead == old(valueHead) &&
                actionLogStd == old(actionLogStd) && actionLogStdGrad == old(actionLogStdGrad) &&
                actionLogStdM == old(actionLogStdM) && actionLogStdV == old(actionLogStdV)
      ensures networkConfig.hiddenLayers == old(networkConfig.hiddenLayers)
    {
      if file.None? {
        return false;
      }
      ok := true;
      var decoded := Decode(file.value);
      if decoded.Some? {
        Restore(decoded.value);
      }
      initialized := true;
    }

    /** TrainStep. An empty batch returns before anything is touched and the
        loss outputs stay as they were (`None`). Otherwise the Adam step
        advances, the losses are the batch means, every layer gets its
        gradient update (`applyGradients`, the backward pass and Adam, which
        are not modelled) and the log-std takes its Adam update
        (`adamLogStd`) clamped to [ln 0.01, ln 2]. */
    method TrainStep(batch: seq<Experience>, preds: seq<Prediction>, params: PpoHyperparameters,
                     logProb: (real, real, real) -> real, exp: real -> real, halfLogTwoPiE: real,
                     applyGradients: DenseLayer -> DenseLayer, adamLogStd: seq<real>)
      returns (losses: Option<LossTotals>)
      requires |batch| == |preds| && LogStdCoversPredictions(preds, actionLogStd)
      requires |adamLogStd| == |actionLogStd|
      modifies this
      ensures batch == [] ==> losses.None? && unchanged(this)
      ensures batch != [] ==> losses == Some(BatchLosses(batch, preds, old(actionLogStd), params,
                                              1.0 / |batch| as real, logProb, exp, halfLogTwoPiE, |batch|))
      ensures batch != [] ==> adamStep == old(adamStep) + 1
      ensures batch != [] ==> actionLogStd == ClampLogStd(adamLogStd)
      ensures batch != [] ==> forall k :: 0 <= k < |actionLogStd| ==> LogStdMin <= actionLogStd[k] <= LogStdMax
      ensures batch != [] ==> policyHead == applyGradients(old(policyHead)) && valueHead == applyGradients(old(valueHead))
      ensures batch != [] ==> |policyLayers| == |old(policyLayers)| && |valueLayers| == |old(valueLayers)|
      ensures batch != [] ==> forall k :: 0 <= k < |policyLayers| ==> policyLayers[k] == applyGradients(old(policyLayers)[k])
      ensures batch != [] ==> forall k :: 0 <= k < |valueLayers| ==> valueLayers[k] == applyGradients(old(valueLayers)[k])
      ensures networkConfig == old(networkConfig) && initialized == old(initialized)
    {
      if |batch| == 0 {
        return None;
      }
      adamStep := adamStep + 1;
      var totals := AccumulateLosses(batch, preds, actionLogStd, params, logProb, exp, halfLogTwoPiE);
      losses := Some(totals);
      policyLayers := UpdateLayers(policyLayers, applyGradients);
      policyHead := applyGradients(policyHead);
      valueLayers := UpdateLayers(valueLayers, applyGradients);
      valueHead := applyGradients(valueHead);
      var clamped := ClampEach(adamLogStd);
      actionLogStd := clamped;
    }
  }
}
