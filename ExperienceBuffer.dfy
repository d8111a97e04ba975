/** The experience replay buffer of the in-engine trainer
    (UExperienceBuffer in SimpleNeuralNetwork.cpp): a ring buffer of
    training experiences, uniform sampling, per-agent GAE and advantage
    normalisation. */
module ExperienceReplay {
  import opened Common
  import opened AgentTypes

  /** FTrainingExperience. `ret` is the source's `Return`. */
  datatype Experience = Experience(
    state: seq<real>,
    action: VehicleAction,
    reward: real,
    nextState: seq<real>,
    done: bool,
    logProb: real,
    value: real,
    advantage: real,
    ret: real,
    agentIndex: int,
    timestamp: real)

  const DefaultCapacity: int := 10000

  /** The last `capacity` elements of `s` (all of them if there are fewer). */
  function Window<T>(s: seq<T>, capacity: nat): (r: seq<T>)
    ensures |r| == MinInt(|s|, capacity)
    ensures |s| <= capacity ==> r == s
  {
    if |s| <= capacity then s else s[|s| - capacity..]
  }

  /** Appending to a window and windowing again is windowing the whole history. */
  lemma WindowAppend<T>(s: seq<T>, e: T, capacity: nat)
    requires capacity > 0
    ensures Window(Window(s, capacity) + [e], capacity) == Window(s + [e], capacity)
  {
    if |s| > capacity {
      var w := s[|s| - capacity..];
      assert (w + [e])[1..] == s[|s| - capacity + 1..] + [e];
      assert (s + [e])[|s| + 1 - capacity..] == s[|s| + 1 - capacity..] + [e];
    }
  }

  /** Windowing after each item of a batch is windowing its prefix. */
  lemma WindowStep<T>(s: seq<T>, es: seq<T>, i: nat, capacity: nat)
    requires capacity > 0 && i < |es|
    ensures Window(Window(s + es[..i], capacity) + [es[i]], capacity) == Window(s + es[..i + 1], capacity)
  {
    WindowAppend(s + es[..i], es[i], capacity);
    assert s + es[..i + 1] == s + es[..i] + [es[i]];
  }

  lemma {:induction false} WindowAppendAll<T>(s: seq<T>, es: seq<T>, capacity: nat)
    requires capacity > 0
    ensures Window(Window(s, capacity) + es, capacity) == Window(s + es, capacity)
    decreases |es|
  {
    if es != [] {
      var init := es[..|es| - 1];
      var e := es[|es| - 1];
      assert es == init + [e];
      WindowAppendAll(s, init, capacity);
      assert Window(Window(s, capacity) + init, capacity) == Window(s + init, capacity);
      WindowAppend(Window(s, capacity) + init, e, capacity);
      WindowAppend(s + init, e, capacity);
      assert Window(s, capacity) + es == (Window(s, capacity) + init) + [e];
      assert s + es == (s + init) + [e];
    }
  }

  /** Overwriting the oldest slot of a full ring and advancing the cursor
      drops the oldest element and appends the new one. */
  lemma RingOverwrite<T>(b: seq<T>, w: nat, e: T)
    requires w < |b|
    ensures var nb := b[w := e];
            var nw := (w + 1) % |b|;
            nb[nw..] + nb[..nw] == (b[w..] + b[..w] + [e])[1..]
  {
    var nb := b[w := e];
    if w + 1 < |b| {
      assert (w + 1) % |b| == w + 1;
      assert nb[w + 1..] == b[w + 1..];
      assert nb[..w + 1] == b[..w] + [e];
      assert (b[w..] + b[..w] + [e])[1..] == b[w + 1..] + b[..w] + [e];
    } else {
      assert (w + 1) % |b| == 0;
      assert nb == b[..w] + [e];
      assert (b[w..] + b[..w] + [e])[1..] == b[..w] + [e];
    }
  }

  /** A ring's contents from oldest to newest: while not full the slots in
      order, afterwards starting at the write index. */
  function RingOrder<T>(b: seq<T>, w: int, capacity: int): seq<T>
    requires 0 <= w <= |b|
  {
    if |b| < capacity then b else b[w..] + b[..w]
  }

  /** The slot after `w` in a ring of `capacity` slots. */
  function NextSlot(w: nat, capacity: nat): (r: nat)
    requires w < capacity
    ensures r < capacity
  {
    if w + 1 == capacity then 0 else w + 1
  }

  /** NextSlot is `(w + 1) % capacity`. */
  lemma NextSlotWraps(w: nat, capacity: nat)
    requires w < capacity
    ensures NextSlot(w, capacity) == (w + 1) % capacity
  {
  }

  /** Appending to a ring that has room keeps every item. */
  lemma RingAddRoom<T>(b: seq<T>, capacity: nat, e: T)
    requires |b| < capacity
    ensures RingOrder(b + [e], NextSlot(|b|, capacity), capacity) == Window(b + [e], capacity)
  {
    var nb := b + [e];
    if |nb| == capacity {
      assert nb[0..] + nb[..0] == nb;
    }
  }

  /** Overwriting the oldest slot of a full ring drops the oldest item. */
  lemma RingAddFull<T>(b: seq<T>, w: nat, e: T)
    requires w < |b|
    ensures RingOrder(b[w := e], NextSlot(w, |b|), |b|) == Window(RingOrder(b, w, |b|) + [e], |b|)
  {
    NextSlotWraps(w, |b|);
    RingOverwrite(b, w, e);
    var s := b[w..] + b[..w] + [e];
    assert |s| == |b| + 1;
    assert Window(s, |b|) == s[1..];
  }

  /** Number of experiences one `SampleBatch` call draws. */
  function SampleCount(batchSize: int, num: nat): (r: nat)
    ensures r <= num
    ensures num == 0 ==> r == 0
    ensures num > 0 && 0 <= batchSize ==> r == MinInt(batchSize, num)
  {
    if num == 0 then 0 else MaxInt(0, MinInt(batchSize, num))
  }

  // ---------------------------------------------------------------------
  // Sorting by (agent, time)

  predicate KeyLe(a: Experience, b: Experience)
  {
    a.agentIndex < b.agentIndex || (a.agentIndex == b.agentIndex && a.timestamp <= b.timestamp)
  }

  predicate SortedByAgentTime(s: seq<Experience>)
  {
    forall i, j :: 0 <= i < j < |s| ==> KeyLe(s[i], s[j])
  }

  function InsertByKey(e: Experience, s: seq<Experience>): (r: seq<Experience>)
    ensures |r| == |s| + 1
    ensures multiset(r) == multiset(s) + multiset{e}
  {
    if s == [] then [e]
    else if KeyLe(e, s[0]) then [e] + s
    else
      assert s == [s[0]] + s[1..];
      [s[0]] + InsertByKey(e, s[1..])
  }

  /** Inserting an element above a bound into a sequence above it stays above it. */
  lemma {:induction false} InsertAbove(x: Experience, e: Experience, s: seq<Experience>)
    requires KeyLe(x, e)
    requires forall k :: 0 <= k < |s| ==> KeyLe(x, s[k])
    ensures forall k :: 0 <= k < |s| + 1 ==> KeyLe(x, InsertByKey(e, s)[k])
  {
    if s != [] && !KeyLe(e, s[0]) {
      InsertAbove(x, e, s[1..]);
    }
  }

  lemma {:induction false} InsertKeepsSorted(e: Experience, s: seq<Experience>)
    requires SortedByAgentTime(s)
    ensures SortedByAgentTime(InsertByKey(e, s))
  {
    if s != [] && !KeyLe(e, s[0]) {
      InsertKeepsSorted(e, s[1..]);
      InsertAbove(s[0], e, s[1..]);
    }
  }

  /** The ordering `ComputeGAE` establishes: by agent, then by time. */
  function SortByAgentTime(s: seq<Experience>): (r: seq<Experience>)
    ensures |r| == |s|
    ensures multiset(r) == multiset(s)
    ensures SortedByAgentTime(r)
  {
    if s == [] then []
    else
      assert s == [s[0]] + s[1..];
      InsertKeepsSorted(s[0], SortByAgentTime(s[1..]));
      InsertByKey(s[0], SortByAgentTime(s[1..]))
  }

  // ---------------------------------------------------------------------
  // GAE over a sorted buffer

  /** Step `i + 1` belongs to the same agent's trajectory as step `i`. */
  predicate SameAgentNext(s: seq<Experience>, i: nat)
    requires i < |s|
  {
    i + 1 < |s| && s[i + 1].agentIndex == s[i].agentIndex
  }

  /** The advantage the backward pass leaves at index `i`. */
  function BufferGae(s: seq<Experience>, gamma: real, lambda: real, i: nat): real
    requires i < |s|
    decreases |s| - i
  {
    var bootstraps := SameAgentNext(s, i) && !s[i].done;
    var nextValue := if bootstraps then s[i + 1].value else 0.0;
    var carried := if bootstraps then BufferGae(s, gamma, lambda, i + 1) else 0.0;
    s[i].reward + gamma * nextValue - s[i].value + gamma * lambda * carried
  }

  function WithGaeAt(s: seq<Experience>, gamma: real, lambda: real, i: nat): Experience
    requires i < |s|
  {
    var a := BufferGae(s, gamma, lambda, i);
    s[i].(advantage := a, ret := a + s[i].value)
  }

  /** The buffer after the backward pass: only advantages and returns change. */
  function WithGae(s: seq<Experience>, gamma: real, lambda: real): (r: seq<Experience>)
    ensures |r| == |s|
    ensures forall k :: 0 <= k < |s| ==> r[k].(advantage := s[k].advantage, ret := s[k].ret) == s[k]
    ensures forall k :: 0 <= k < |s| ==> r[k].ret == r[k].advantage + s[k].value
  {
    seq(|s|, k requires 0 <= k < |s| => WithGaeAt(s, gamma, lambda, k))
  }

  /** At a done step, and at the last step of an agent's trajectory, the
      advantage is the one-step error `reward - value`: nothing is
      bootstrapped and nothing carried. */
  lemma GaeTerminalSteps(s: seq<Experience>, gamma: real, lambda: real, i: nat)
    requires i < |s|
    requires s[i].done || !SameAgentNext(s, i)
    ensures WithGae(s, gamma, lambda)[i].advantage == s[i].reward - s[i].value
  {
    assert WithGae(s, gamma, lambda)[i] == WithGaeAt(s, gamma, lambda, i);
  }

  /** The advantages of one agent's block depend on that block alone:
      the pass resets at every agent change. */
  lemma {:induction false} GaeAgentIsolation(s: seq<Experience>, gamma: real, lambda: real,
                                             lo: nat, hi: nat, i: nat)
    requires lo <= i < hi <= |s|
    requires forall k :: lo <= k < hi ==> s[k].agentIndex == s[lo].agentIndex
    requires hi < |s| ==> s[hi].agentIndex != s[lo].agentIndex
    ensures BufferGae(s, gamma, lambda, i) == BufferGae(s[lo..hi], gamma, lambda, i - lo)
    decreases hi - i
  {
    var t := s[lo..hi];
    assert t[i - lo] == s[i];
    if i + 1 < hi {
      assert t[i - lo + 1] == s[i + 1];
      assert SameAgentNext(s, i) && SameAgentNext(t, i - lo);
      GaeAgentIsolation(s, gamma, lambda, lo, hi, i + 1);
    } else {
      assert !SameAgentNext(t, i - lo);
      assert !SameAgentNext(s, i);
    }
  }

  // ---------------------------------------------------------------------
  // Advantage normalisation

  function AdvantagesOf(b: seq<Experience>): (r: seq<real>)
    ensures |r| == |b|
    ensures forall k :: 0 <= k < |b| ==> r[k] == b[k].advantage
  {
    seq(|b|, k requires 0 <= k < |b| => b[k].advantage)
  }

  /** Population variance: the mean square deviation, divided by `n`. */
  function PopulationVariance(s: seq<real>): real
  {
    if s == [] then 0.0 else Sum(Squares(Centered(s, Mean(s)))) / |s| as real
  }

  function Squares(s: seq<real>): (r: seq<real>)
    ensures |r| == |s|
  {
    seq(|s|, k requires 0 <= k < |s| => Square(s[k]))
  }

  lemma {:induction false} SumSquaresNonNegative(s: seq<real>)
    ensures Sum(Squares(s)) >= 0.0
  {
    if s != [] {
      var p := s[..|s| - 1];
      forall k | 0 <= k < |p| ensures Squares(s)[..|s| - 1][k] == Squares(p)[k] {
        assert p[k] == s[k];
      }
      assert Squares(s)[..|s| - 1] == Squares(p);
      assert Squares(s)[|s| - 1] == Square(s[|s| - 1]);
      SumSquaresNonNegative(s[..|s| - 1]);
    }
  }

  /** `sqrt(var + 1e-8)`, the divisor of the normalisation. */
  function NormalizerStd(b: seq<Experience>, sqrt: real -> real): real
  {
    sqrt(PopulationVariance(AdvantagesOf(b)) + 0.00000001)
  }

  ghost predicate SqrtPositive(sqrt: real -> real)
  {
    forall x :: x > 0.0 ==> sqrt(x) > 0.0
  }

  lemma {:induction false} NormalizerPositive(b: seq<Experience>, sqrt: real -> real)
    requires SqrtPositive(sqrt)
    ensures NormalizerStd(b, sqrt) > 0.0
  {
    var adv := AdvantagesOf(b);
    SumSquaresNonNegative(Centered(adv, Mean(adv)));
    assert PopulationVariance(adv) >= 0.0;
  }

  /** Every advantage centred on the mean and divided by the normaliser. */
  function Normalized(b: seq<Experience>, sqrt: real -> real): (r: seq<Experience>)
    requires SqrtPositive(sqrt)
    ensures |r| == |b|
  {
    NormalizerPositive(b, sqrt);
    var m := Mean(AdvantagesOf(b));
    var std := NormalizerStd(b, sqrt);
    seq(|b|, k requires 0 <= k < |b| => b[k].(advantage := (b[k].advantage - m) / std))
  }

  /** The normalised advantages are the centred ones over the normaliser. */
  lemma NormalizedAdvantages(b: seq<Experience>, sqrt: real -> real)
    requires SqrtPositive(sqrt)
    ensures NormalizerStd(b, sqrt) > 0.0
    ensures AdvantagesOf(Normalized(b, sqrt)) ==
            Scaled(Centered(AdvantagesOf(b), Mean(AdvantagesOf(b))), NormalizerStd(b, sqrt))
  {
    NormalizerPositive(b, sqrt);
    var r := Normalized(b, sqrt);
    var adv := AdvantagesOf(b);
    var m := Mean(adv);
    var std := NormalizerStd(b, sqrt);
    var scaled := Scaled(Centered(adv, m), std);
    forall k | 0 <= k < |b| ensures AdvantagesOf(r)[k] == scaled[k] {
      assert r[k].advantage == (b[k].advantage - m) / std;
    }
  }

  /** Normalised advantages sum to zero. */
  lemma {:induction false} NormalizedSumZero(b: seq<Experience>, sqrt: real -> real)
    requires SqrtPositive(sqrt)
    ensures Sum(AdvantagesOf(Normalized(b, sqrt))) == 0.0
  {
    NormalizedAdvantages(b, sqrt);
    var adv := AdvantagesOf(b);
    CenteredSumZero(adv);
    SumScaled(Centered(adv, Mean(adv)), NormalizerStd(b, sqrt));
  }

  /** Normalising changes nothing but the advantage, and each new advantage
      times the normaliser gives back the centred one. */
  lemma {:induction false} NormalizedUndo(b: seq<Experience>, sqrt: real -> real, k: nat)
    requires SqrtPositive(sqrt) && k < |b|
    ensures Normalized(b, sqrt)[k].(advantage := b[k].advantage) == b[k]
    ensures Normalized(b, sqrt)[k].advantage * NormalizerStd(b, sqrt)
         == b[k].advantage - Mean(AdvantagesOf(b))
  {
    NormalizerPositive(b, sqrt);
    var std := NormalizerStd(b, sqrt);
    var c := b[k].advantage - Mean(AdvantagesOf(b));
    assert Normalized(b, sqrt)[k].advantage == c / std;
    assert (c / std) * std == c;
  }

  /** The replay buffer. `buffer` holds at most `capacity` experiences; while
      it is not full `writeIndex` equals its length, afterwards it points at
      the oldest slot. */
  class ExperienceBuffer {
    var buffer: seq<Experience>
    var capacity: int
    var writeIndex: int

    ghost predicate Valid()
      reads this
    {
      capacity > 0 && |buffer| <= capacity && 0 <= writeIndex < capacity &&
      (|buffer| < capacity ==> writeIndex == |buffer|)
    }

    /** The stored experiences from oldest to newest. */
    ghost function Chronological(): seq<Experience>
      reads this
      requires Valid()
    {
      RingOrder(buffer, writeIndex, capacity)
    }

    constructor ()
      ensures Valid()
      ensures buffer == [] && capacity == DefaultCapacity && writeIndex == 0
    {
      buffer := [];
      capacity := DefaultCapacity;
      writeIndex := 0;
    }

    /** Any size is taken; only a positive one gives a buffer that Add can
        use, since Add wraps the write index modulo the capacity. */
    method Initialize(maxSize: int)
      modifies this
      ensures capacity == maxSize && buffer == [] && writeIndex == 0
      ensures Valid() <==> maxSize > 0
    {
      capacity := maxSize;
      Clear();
    }

    /** Appends while there is room, otherwise overwrites the oldest slot;
        either way the buffer then holds the latest `capacity` experiences. */
    method Add(e: Experience)
      requires Valid()
      modifies this`buffer, this`writeIndex
      ensures Valid()
      ensures old(|buffer|) < capacity ==> buffer == old(buffer) + [e]
      ensures old(|buffer|) >= capacity ==> buffer == old(buffer)[old(writeIndex) := e]
      ensures writeIndex == (old(writeIndex) + 1) % capacity
      ensures Chronological() == Window(old(Chronological()) + [e], capacity)
    {
      if |buffer| < capacity {
        RingAddRoom(buffer, capacity, e);
        buffer := buffer + [e];
      } else {
        RingAddFull(buffer, writeIndex, e);
        buffer := buffer[writeIndex := e];
      }
      NextSlotWraps(writeIndex, capacity);
      writeIndex := NextSlot(writeIndex, capacity);
    }

    method AddBatch(es: seq<Experience>)
      requires Valid()
      modifies this`buffer, this`writeIndex
      ensures Valid()
      ensures Chronological() == Window(old(Chronological()) + es, capacity)
    {
      ghost var start := Chronological();
      assert start + es[..0] == start;
      var i := 0;
      while i < |es|
        invariant 0 <= i <= |es|
        invariant Valid()
        invariant Chronological() == Window(start + es[..i], capacity)
      {
        Add(es[i]);
        WindowStep(start, es, i, capacity);
        i := i + 1;
      }
      assert es[..|es|] == es;
    }

    method Clear()
      modifies this`buffer, this`writeIndex
      ensures buffer == [] && writeIndex == 0
      ensures capacity > 0 ==> Valid()
    {
      buffer := [];
      writeIndex := 0;
    }

    /** Draws `min(batchSize, Num)` experiences with replacement; `draws`
        holds the random stream's indices, each in `[0, Num)`. */
    method SampleBatch(batchSize: int, draws: seq<int>) returns (batch: seq<Experience>)
      requires forall i :: 0 <= i < |draws| ==> 0 <= draws[i] < |buffer|
      requires |draws| >= SampleCount(batchSize, |buffer|)
      ensures |batch| == SampleCount(batchSize, |buffer|)
      ensures forall i :: 0 <= i < |batch| ==> batch[i] == buffer[draws[i]]
      ensures forall i :: 0 <= i < |batch| ==> batch[i] in buffer
    {
      batch := [];
      if |buffer| == 0 {
        return;
      }
      var n := MinInt(batchSize, |buffer|);
      var i := 0;
      while i < n
        invariant 0 <= i <= MaxInt(0, n)
        invariant |batch| == i
        invariant forall k :: 0 <= k < i ==> batch[k] == buffer[draws[k]]
      {
        batch := batch + [buffer[draws[i]]];
        i := i + 1;
      }
    }

    /** Sorts by (agent, time), then runs GAE backwards over the buffer,
        resetting at every agent change. */
    method ComputeGae(gamma: real, lambda: real)
      modifies this`buffer
      ensures old(|buffer|) == 0 ==> buffer == old(buffer)
      ensures old(|buffer|) > 0 ==> buffer == WithGae(SortByAgentTime(old(buffer)), gamma, lambda)
    {
      if |buffer| == 0 {
        return;
      }
      buffer := SortByAgentTime(buffer);
      GaePass(gamma, lambda);
    }

    /** The backward pass of ComputeGae over the sorted buffer. */
    method GaePass(gamma: real, lambda: real)
      modifies this`buffer
      ensures buffer == WithGae(old(buffer), gamma, lambda)
    {
      var s := buffer;
      var currentAgent := -1;
      var gae := 0.0;
      var i := |buffer| - 1;
      while i >= 0
        invariant -1 <= i < |s| && |buffer| == |s|
        invariant forall k :: 0 <= k <= i ==> buffer[k] == s[k]
        invariant forall k :: i < k < |s| ==> buffer[k] == WithGaeAt(s, gamma, lambda, k)
        invariant i < |s| - 1 ==> currentAgent == s[i + 1].agentIndex && gae == BufferGae(s, gamma, lambda, i + 1)
        invariant i == |s| - 1 ==> currentAgent == -1 && gae == 0.0
      {
        var e := buffer[i];
        assert e == s[i];
        assert i + 1 < |s| ==> buffer[i + 1].agentIndex == s[i + 1].agentIndex && buffer[i + 1].value == s[i + 1].value;
        if e.agentIndex != currentAgent {
          currentAgent := e.agentIndex;
          gae := 0.0;
        }
        var nextValue := 0.0;
        if i + 1 < |buffer| && buffer[i + 1].agentIndex == currentAgent && !e.done {
          nextValue := buffer[i + 1].value;
        }
        ghost var bootstraps := SameAgentNext(s, i) && !s[i].done;
        assert nextValue == if bootstraps then s[i + 1].value else 0.0;
        assert (if e.done then 0.0 else gae) == if bootstraps then BufferGae(s, gamma, lambda, i + 1) else 0.0;
        var delta := e.reward + gamma * nextValue - e.value;
        gae := delta + gamma * lambda * (if e.done then 0.0 else gae);
        assert gae == BufferGae(s, gamma, lambda, i);
        buffer := buffer[i := e.(advantage := gae, ret := gae + e.value)];
        i := i - 1;
      }
      assert buffer == WithGae(s, gamma, lambda);
    }

    /** Centres the advantages and divides them by `sqrt(var + 1e-8)`; a
        buffer of fewer than two experiences is left alone. */
    method NormalizeAdvantages(sqrt: real -> real)
      requires SqrtPositive(sqrt)
      modifies this`buffer
      ensures old(|buffer|) < 2 ==> buffer == old(buffer)
      ensures old(|buffer|) >= 2 ==> buffer == Normalized(old(buffer), sqrt)
    {
      if |buffer| < 2 {
        return;
      }
      ghost var b := buffer;
      var total := AdvantageTotal();
      var mean := total / |buffer| as real;
      var variance := SquaredDeviationTotal(mean);
      variance := variance / |buffer| as real;
      assert variance == PopulationVariance(AdvantagesOf(b));
      NormalizerPositive(b, sqrt);
      var std := sqrt(variance + 0.00000001);
      assert std == NormalizerStd(b, sqrt);
      ApplyNormalization(mean, std);
    }

    /** The first loop of NormalizeAdvantages: the sum of the advantages. */
    method AdvantageTotal() returns (total: real)
      ensures total == Sum(AdvantagesOf(buffer))
    {
      ghost var adv := AdvantagesOf(buffer);
      total := 0.0;
      var i := 0;
      while i < |buffer|
        invariant 0 <= i <= |buffer|
        invariant total == Sum(adv[..i])
      {
        assert adv[..i + 1][..i] == adv[..i];
        total := total + buffer[i].advantage;
        i := i + 1;
      }
      assert adv[..|buffer|] == adv;
    }

    /** The second loop of NormalizeAdvantages: the sum of the squared
        deviations from `mean`. */
    method SquaredDeviationTotal(mean: real) returns (variance: real)
      ensures variance == Sum(Squares(Centered(AdvantagesOf(buffer), mean)))
    {
      ghost var sq := Squares(Centered(AdvantagesOf(buffer), mean));
      variance := 0.0;
      var i := 0;
      while i < |buffer|
        invariant 0 <= i <= |buffer|
        invariant variance == Sum(sq[..i])
      {
        assert sq[..i + 1][..i] == sq[..i];
        var deviation := buffer[i].advantage - mean;
        assert sq[i] == Square(deviation);
        variance := variance + Square(deviation);
        i := i + 1;
      }
      assert sq[..|buffer|] == sq;
    }

    /** The last loop of NormalizeAdvantages: every advantage centred on
        `mean` and divided by `std`, nothing else changed. */
    method ApplyNormalization(mean: real, std: real)
      requires std != 0.0
      modifies this`buffer
      ensures |buffer| == old(|buffer|)
      ensures forall k :: 0 <= k < |buffer| ==>
                buffer[k] == old(buffer[k]).(advantage := (old(buffer[k]).advantage - mean) / std)
    {
      ghost var b := buffer;
      var i := 0;
      while i < |buffer|
        invariant 0 <= i <= |buffer| == |b|
        invariant forall k :: 0 <= k < i ==> buffer[k] == b[k].(advantage := (b[k].advantage - mean) / std)
        invariant forall k :: i <= k < |b| ==> buffer[k] == b[k]
      {
        buffer := buffer[i := buffer[i].(advantage := (buffer[i].advantage - mean) / std)];
        i := i + 1;
      }
    }
  }
}
