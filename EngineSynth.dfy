/** UEngineSynthComponent (EngineSynthComponent.cpp): a granular engine
    sound. Every output sample advances a four-stroke crank; a cylinder
    whose phase wraps past 720 degrees fires and queues an impulse shape
    picked round-robin; all queued impulses are mixed, scaled by 0.2 and
    clamped to [-1, 1]. Impulse shapes are decoded from WAV files at
    BeginPlay; the decoding itself is a parameter. */
module EngineSynth {
  import opened Common
  import TrackDistance

  const SampleRate: real := 48000.0
  /** Crank degrees per four-stroke cycle. */
  const CycleDegrees: real := 720.0
  const MinRpm: real := 300.0
  const OutputGain: real := 0.2

  /** FCylinderSynthState. */
  datatype Cylinder = Cylinder(firingOffset: real, lastFirePhase: real)

  /** The impulse queue: each active impulse's play position and shape
      (ImpulseQueue and ImpulseShapeQueueIndices, kept side by side), and
      the next shape to hand out. */
  datatype Voices = Voices(positions: seq<int>, shapes: seq<int>, next: int)

  /** The state one output sample reads and writes. */
  datatype SynthState = SynthState(cylinders: seq<Cylinder>, voices: Voices, samplePos: real)

  /** The per-sample result of mixing the queue: the surviving impulses,
      one step further, and the mixed value. */
  datatype Mixed = Mixed(positions: seq<int>, shapes: seq<int>, sum: real)

  // ---------------------------------------------------------------------
  // Impulse shapes
  // ---------------------------------------------------------------------

  /** Decoded WAV data as dr_wav delivers it: interleaved PCM frames. */
  datatype Wav = Wav(channels: nat, frames: nat, pcm: seq<real>)

  predicate WavOk(w: Wav)
  {
    w.channels >= 1 && |w.pcm| == w.frames * w.channels
  }

  lemma FrameIndex(f: nat, frames: nat, channels: nat)
    requires f < frames && channels >= 1
    ensures f < frames * channels && 2 * f + 1 < 2 * frames
  {
    assert frames * channels >= frames * 1;
  }

  /** One mono sample per frame: the mean of the two channels of a stereo
      file, otherwise the f-th value of the interleaved data (for more
      than two channels, not frame f's first channel). */
  function Downmix(w: Wav): (r: seq<real>)
    requires WavOk(w)
    ensures |r| == w.frames
  {
    seq(w.frames, f requires 0 <= f < w.frames =>
      FrameIndex(f, w.frames, w.channels);
      if w.channels == 2 then 0.5 * (w.pcm[2 * f] + w.pcm[2 * f + 1]) else w.pcm[f])
  }

  /** A mono file is taken as it is, and a stereo file whose channels agree
      is taken channel for channel. */
  lemma MonoDownmixIsIdentity(w: Wav)
    requires WavOk(w) && w.channels == 1
    ensures Downmix(w) == w.pcm
  {
  }

  lemma EqualStereoDownmix(w: Wav)
    requires WavOk(w) && w.channels == 2
    requires forall f :: 0 <= f < w.frames ==> w.pcm[2 * f] == w.pcm[2 * f + 1]
    ensures forall f :: 0 <= f < w.frames ==> Downmix(w)[f] == w.pcm[2 * f]
  {
  }

  /** The shape a loaded sound contributes: its mono samples, or nothing
      when the sound could not be named, read or parsed. */
  function ShapeOf(sound: Option<Wav>): seq<real>
    requires sound.Some? ==> WavOk(sound.value)
  {
    if sound.Some? then Downmix(sound.value) else []
  }

  // ---------------------------------------------------------------------
  // One output sample
  // ---------------------------------------------------------------------

  /** The crank angle at a sample position, in [0, 720). */
  function CrankAngle(samplePos: real, rpm: real): (r: real)
    ensures samplePos >= 0.0 && rpm >= 0.0 ==> 0.0 <= r < CycleDegrees
  {
    var timeSec := samplePos / SampleRate;
    assert samplePos >= 0.0 && rpm >= 0.0 ==> timeSec * rpm >= 0.0;
    TrackDistance.Fmod(timeSec * rpm * CycleDegrees / 60.0, CycleDegrees)
  }

  function CylinderPhase(crank: real, cyl: Cylinder): real
  {
    TrackDistance.Fmod(crank + cyl.firingOffset, CycleDegrees)
  }

  /** A cylinder fires when its phase wrapped since the previous sample. */
  predicate Fires(cyl: Cylinder, crank: real)
  {
    cyl.lastFirePhase > CylinderPhase(crank, cyl)
  }

  /** The queue after the first `c` cylinders were checked: each firing
      cylinder appends a fresh impulse with the next shape, and the shape
      index moves on round-robin. */
  function Ignite(v: Voices, cyls: seq<Cylinder>, crank: real, numShapes: nat, c: nat): (r: Voices)
    requires c <= |cyls| && numShapes > 0
    ensures |r.positions| - |v.positions| == |r.shapes| - |v.shapes| >= 0
    ensures r.positions[..|v.positions|] == v.positions && r.shapes[..|v.shapes|] == v.shapes
    ensures forall i :: |v.positions| <= i < |r.positions| ==> r.positions[i] == 0
    decreases c
  {
    if c == 0 then v
    else
      var w := Ignite(v, cyls, crank, numShapes, c - 1);
      if Fires(cyls[c - 1], crank) then
        assert (w.positions + [0])[..|v.positions|] == w.positions[..|v.positions|];
        assert (w.shapes + [w.next])[..|v.shapes|] == w.shapes[..|v.shapes|];
        Voices(w.positions + [0], w.shapes + [w.next], (w.next + 1) % numShapes)
      else w
  }

  /** Queue well-formedness: the two queues have equal length, every shape
      index is a loaded shape and every position lies within its shape. */
  predicate QueueOk(positions: seq<int>, shapes: seq<int>, lengths: seq<int>)
  {
    |positions| == |shapes| &&
    (forall i :: 0 <= i < |shapes| ==> 0 <= shapes[i] < |lengths|) &&
    (forall i :: 0 <= i < |positions| ==> 0 <= positions[i] <= lengths[shapes[i]])
  }

  predicate ShapesOk(samples: seq<seq<real>>, lengths: seq<int>)
  {
    |samples| == |lengths| && forall i :: 0 <= i < |lengths| ==> lengths[i] == |samples[i]|
  }

  predicate VoicesOk(v: Voices, lengths: seq<int>)
  {
    QueueOk(v.positions, v.shapes, lengths) && 0 <= v.next && (|lengths| > 0 ==> v.next < |lengths|)
  }

  /** Ignition keeps the queue well-formed and the round-robin index in
      range; every impulse it adds starts at position 0. */
  lemma {:induction false} IgniteKeepsVoicesOk(v: Voices, cyls: seq<Cylinder>, crank: real, lengths: seq<int>, c: nat)
    requires c <= |cyls| && |lengths| > 0 && VoicesOk(v, lengths)
    requires forall i :: 0 <= i < |lengths| ==> lengths[i] >= 0
    ensures VoicesOk(Ignite(v, cyls, crank, |lengths|, c), lengths)
    ensures forall i :: |v.positions| <= i < |Ignite(v, cyls, crank, |lengths|, c).positions| ==>
              Ignite(v, cyls, crank, |lengths|, c).positions[i] == 0
    decreases c
  {
    if c > 0 {
      IgniteKeepsVoicesOk(v, cyls, crank, lengths, c - 1);
    }
  }

  /** The number of cylinders among the first `c` that fire. */
  function FiringCount(cyls: seq<Cylinder>, crank: real, c: nat): nat
    requires c <= |cyls|
  {
    if c == 0 then 0 else FiringCount(cyls, crank, c - 1) + (if Fires(cyls[c - 1], crank) then 1 else 0)
  }

  /** Exactly one impulse is queued per firing cylinder. */
  lemma {:induction false} IgniteCountsFirings(v: Voices, cyls: seq<Cylinder>, crank: real, numShapes: nat, c: nat)
    requires c <= |cyls| && numShapes > 0
    ensures |Ignite(v, cyls, crank, numShapes, c).positions| == |v.positions| + FiringCount(cyls, crank, c)
    decreases c
  {
    if c > 0 {
      IgniteCountsFirings(v, cyls, crank, numShapes, c - 1);
    }
  }

  /** Every cylinder's last phase becomes its phase at this crank angle. */
  function Rephased(cyls: seq<Cylinder>, crank: real): (r: seq<Cylinder>)
    ensures |r| == |cyls|
  {
    seq(|cyls|, i requires 0 <= i < |cyls| => cyls[i].(lastFirePhase := CylinderPhase(crank, cyls[i])))
  }

  /** Mixing the queue: an impulse still inside its shape contributes its
      current sample and moves one step on; one that reached its shape's end
      is dropped. */
  function MixQueue(positions: seq<int>, shapes: seq<int>, samples: seq<seq<real>>, lengths: seq<int>): (r: Mixed)
    requires QueueOk(positions, shapes, lengths) && ShapesOk(samples, lengths)
    ensures QueueOk(r.positions, r.shapes, lengths)
    ensures |r.positions| <= |positions|
    decreases |positions|
  {
    if positions == [] then Mixed([], [], 0.0)
    else
      var rest := MixQueue(positions[1..], shapes[1..], samples, lengths);
      var shape := shapes[0];
      if positions[0] < lengths[shape] then
        Mixed([positions[0] + 1] + rest.positions, [shape] + rest.shapes, samples[shape][positions[0]] + rest.sum)
      else
        rest
  }

  /** Mixing keeps exactly the impulses that had not reached their end:
      an impulse at the end of its shape is dropped, every other one
      survives one step further on. */
  lemma MixQueueKeepsUnfinished(positions: seq<int>, shapes: seq<int>, samples: seq<seq<real>>,
                                                   lengths: seq<int>)
    requires QueueOk(positions, shapes, lengths) && ShapesOk(samples, lengths)
    ensures |MixQueue(positions, shapes, samples, lengths).positions| ==
            Unfinished(positions, shapes, lengths)
    ensures (forall i :: 0 <= i < |positions| ==> positions[i] < lengths[shapes[i]]) ==>
              MixQueue(positions, shapes, samples, lengths).shapes == shapes
  {
    MixQueueCount(positions, shapes, samples, lengths);
    if forall i :: 0 <= i < |positions| ==> positions[i] < lengths[shapes[i]] {
      MixQueueKeepsShapes(positions, shapes, samples, lengths);
    }
  }

  lemma {:induction false} MixQueueCount(positions: seq<int>, shapes: seq<int>, samples: seq<seq<real>>,
                                         lengths: seq<int>)
    requires QueueOk(positions, shapes, lengths) && ShapesOk(samples, lengths)
    ensures |MixQueue(positions, shapes, samples, lengths).positions| == Unfinished(positions, shapes, lengths)
    decreases |positions|
  {
    if positions != [] {
      MixQueueCount(positions[1..], shapes[1..], samples, lengths);
    }
  }

  lemma {:induction false} MixQueueKeepsShapes(positions: seq<int>, shapes: seq<int>, samples: seq<seq<real>>,
                                               lengths: seq<int>)
    requires QueueOk(positions, shapes, lengths) && ShapesOk(samples, lengths)
    requires forall i :: 0 <= i < |positions| ==> positions[i] < lengths[shapes[i]]
    ensures MixQueue(positions, shapes, samples, lengths).shapes == shapes
    decreases |positions|
  {
    if positions != [] {
      assert positions[0] < lengths[shapes[0]];
      MixQueueKeepsShapes(positions[1..], shapes[1..], samples, lengths);
    }
  }

  /** The queue from `q + 1` on is well-formed when the queue from `q`
      on is, and entry `q` lies within its shape. */
  lemma QueueOkAt(positions: seq<int>, shapes: seq<int>, q: nat, lengths: seq<int>)
    requires q < |positions| == |shapes| && QueueOk(positions[q..], shapes[q..], lengths)
    ensures QueueOk(positions[q + 1..], shapes[q + 1..], lengths)
    ensures 0 <= shapes[q] < |lengths| && 0 <= positions[q] <= lengths[shapes[q]]
  {
    assert positions[q..][0] == positions[q] && shapes[q..][0] == shapes[q];
  }

  /** MixQueue on the queue from `q` on, in terms of the queue from
      `q + 1` on. */
  lemma MixQueueAt(positions: seq<int>, shapes: seq<int>, q: nat, samples: seq<seq<real>>, lengths: seq<int>)
    requires q < |positions| == |shapes| && ShapesOk(samples, lengths)
    requires QueueOk(positions[q..], shapes[q..], lengths) && QueueOk(positions[q + 1..], shapes[q + 1..], lengths)
    requires 0 <= shapes[q] < |lengths| && 0 <= positions[q] <= lengths[shapes[q]]
    ensures var rest := MixQueue(positions[q + 1..], shapes[q + 1..], samples, lengths);
            var m := MixQueue(positions[q..], shapes[q..], samples, lengths);
            if positions[q] < lengths[shapes[q]] then
              m == Mixed([positions[q] + 1] + rest.positions, [shapes[q]] + rest.shapes,
                         samples[shapes[q]][positions[q]] + rest.sum)
            else m == rest
  {
    var p, sh := positions[q..], shapes[q..];
    assert p[0] == positions[q] && sh[0] == shapes[q];
    assert p[1..] == positions[q + 1..] && sh[1..] == shapes[q + 1..];
  }

  /** Replacing, or dropping, element `q` of a prefix-plus-rest sequence. */
  lemma EditAt<T>(a: seq<T>, q: nat, rest: seq<T>, x: T)
    requires q < |a|
    ensures (a[..q + 1] + rest)[q] == a[q]
    ensures (a[..q + 1] + rest)[q := x] == a[..q] + ([x] + rest)
    ensures (a[..q + 1] + rest)[..q] + (a[..q + 1] + rest)[q + 1..] == a[..q] + rest
  {
    var b := a[..q + 1] + rest;
    assert b[..q] == a[..q] && b[q + 1..] == rest;
  }

  /** How many impulses have not yet reached the end of their shape. */
  function Unfinished(positions: seq<int>, shapes: seq<int>, lengths: seq<int>): nat
    requires QueueOk(positions, shapes, lengths)
    decreases |positions|
  {
    if positions == [] then 0
    else Unfinished(positions[1..], shapes[1..], lengths) + (if positions[0] < lengths[shapes[0]] then 1 else 0)
  }

  predicate StateOk(st: SynthState, samples: seq<seq<real>>, lengths: seq<int>)
  {
    ShapesOk(samples, lengths) && VoicesOk(st.voices, lengths) && st.samplePos >= 0.0
  }

  /** One output sample: check every cylinder, mix the queue, scale and
      clamp the mix; the clock advances by one sample. */
  function Step(st: SynthState, rpm: real, samples: seq<seq<real>>, lengths: seq<int>): (r: (SynthState, real))
    requires StateOk(st, samples, lengths) && |samples| > 0
    ensures StateOk(r.0, samples, lengths)
    ensures -1.0 <= r.1 <= 1.0
    ensures r.0.samplePos == st.samplePos + 1.0 && |r.0.cylinders| == |st.cylinders|
  {
    var crank := CrankAngle(st.samplePos, rpm);
    var fired := Ignite(st.voices, st.cylinders, crank, |samples|, |st.cylinders|);
    IgniteKeepsVoicesOk(st.voices, st.cylinders, crank, lengths, |st.cylinders|);
    var mixed := MixQueue(fired.positions, fired.shapes, samples, lengths);
    (SynthState(Rephased(st.cylinders, crank), Voices(mixed.positions, mixed.shapes, fired.next), st.samplePos + 1.0),
     Clamp(mixed.sum * OutputGain, -1.0, 1.0))
  }

  /** The state after `k` samples. */
  function Run(st: SynthState, rpm: real, samples: seq<seq<real>>, lengths: seq<int>, k: nat): (r: SynthState)
    requires StateOk(st, samples, lengths) && |samples| > 0
    ensures StateOk(r, samples, lengths)
    decreases k
  {
    if k == 0 then st else Step(Run(st, rpm, samples, lengths, k - 1), rpm, samples, lengths).0
  }

  /** The value written for sample `k`. */
  function Output(st: SynthState, rpm: real, samples: seq<seq<real>>, lengths: seq<int>, k: nat): (r: real)
    requires StateOk(st, samples, lengths) && |samples| > 0
    ensures -1.0 <= r <= 1.0
  {
    Step(Run(st, rpm, samples, lengths, k), rpm, samples, lengths).1
  }

  /** The values written for the first `k` samples, each in [-1, 1]. */
  function Outputs(st: SynthState, rpm: real, samples: seq<seq<real>>, lengths: seq<int>, k: nat): (r: seq<real>)
    requires StateOk(st, samples, lengths) && |samples| > 0
    ensures |r| == k
    ensures forall i :: 0 <= i < k ==> -1.0 <= r[i] <= 1.0
  {
    seq(k, i requires 0 <= i < k => Output(st, rpm, samples, lengths, i))
  }

  /** Two sequences that agree from `i` on agree from any later `n` on. */
  lemma SuffixKept(a: seq<real>, b: seq<real>, i: nat, n: nat)
    requires i <= n <= |a| == |b| && a[i..] == b[i..]
    ensures a[n..] == b[n..]
  {
    assert a[n..] == a[i..][n - i..];
    assert b[n..] == b[i..][n - i..];
  }

  /** The clock moves by exactly one per sample, and the cylinder count
      never changes. */
  lemma {:induction false} RunAdvancesClock(st: SynthState, rpm: real, samples: seq<seq<real>>, lengths: seq<int>, k: nat)
    requires StateOk(st, samples, lengths) && |samples| > 0
    ensures Run(st, rpm, samples, lengths, k).samplePos == st.samplePos + k as real
    ensures |Run(st, rpm, samples, lengths, k).cylinders| == |st.cylinders|
    decreases k
  {
    if k > 0 {
      RunAdvancesClock(st, rpm, samples, lengths, k - 1);
      var prev := Run(st, rpm, samples, lengths, k - 1);
      var next := Step(prev, rpm, samples, lengths).0;
      assert next.samplePos == prev.samplePos + 1.0;
      assert (k - 1) as real + 1.0 == k as real;
    }
  }

  /** The loading loop of BeginPlay: one shape per configured sound, empty
      when the sound failed to load, and its length. */
  method LoadShapes(sounds: seq<Option<Wav>>) returns (samples: seq<seq<real>>, lengths: seq<int>)
    requires forall i :: 0 <= i < |sounds| ==> sounds[i].Some? ==> WavOk(sounds[i].value)
    ensures |samples| == |sounds| && ShapesOk(samples, lengths)
    ensures forall k :: 0 <= k < |sounds| ==> samples[k] == ShapeOf(sounds[k])
  {
    samples, lengths := [], [];
    var i := 0;
    while i < |sounds|
      invariant 0 <= i <= |sounds| && |samples| == i
      invariant ShapesOk(samples, lengths)
      invariant forall k :: 0 <= k < i ==> samples[k] == ShapeOf(sounds[k])
    {
      var shape: seq<real> := [];
      if sounds[i].Some? {
        shape := EngineSynthComponent.DownmixFrames(sounds[i].value);
      }
      samples := samples + [shape];
      lengths := lengths + [|shape|];
      i := i + 1;
    }
  }

  // ---------------------------------------------------------------------
  // The component
  // ---------------------------------------------------------------------

  class EngineSynthComponent {
    /** Whether EngineSoundSetting is set, and its cylinders' firing
        offsets. */
    var hasSetting: bool
    var settingOffsets: seq<real>
    var currentRpm: real
    var samplePos: real
    var cylinders: seq<Cylinder>
    var impulseQueue: seq<int>
    var shapeQueue: seq<int>
    var impulseSamples: seq<seq<real>>
    var impulseLengths: seq<int>
    var nextShape: int

    ghost predicate Valid()
      reads this
    {
      StateOk(State(), impulseSamples, impulseLengths)
    }

    /** The validation at the top of OnGenerateAudio: a setting, at least
      one cylinder and at least one impulse shape. */
    predicate CanSynthesize()
      reads this
    {
      hasSetting && |cylinders| > 0 && |impulseSamples| > 0
    }

    function State(): SynthState
      reads this
    {
      SynthState(cylinders, Voices(impulseQueue, shapeQueue, nextShape), samplePos)
    }

    constructor (hasSetting: bool, settingOffsets: seq<real>)
      ensures Valid()
      ensures this.hasSetting == hasSetting && this.settingOffsets == settingOffsets
      ensures currentRpm == 300.0 && samplePos == 0.0 && nextShape == 0
      ensures cylinders == [] && impulseQueue == [] && shapeQueue == [] && impulseSamples == [] && impulseLengths == []
    {
      this.hasSetting, this.settingOffsets := hasSetting, settingOffsets;
      currentRpm, samplePos, nextShape := 300.0, 0.0, 0;
      cylinders, impulseQueue, shapeQueue := [], [], [];
      impulseSamples, impulseLengths := [], [];
    }

    /** SyncMotorConfig: one cylinder per configured offset, last phase 0;
      none without a setting. */
    method SyncMotorConfig()
      modifies this`cylinders
      ensures !hasSetting ==> cylinders == []
      ensures hasSetting ==> |cylinders| == |settingOffsets| &&
                             forall i :: 0 <= i < |cylinders| ==> cylinders[i] == Cylinder(settingOffsets[i], 0.0)
    {
      cylinders := [];
      if !hasSetting {
        return;
      }
      var i := 0;
      while i < |settingOffsets|
        invariant 0 <= i <= |settingOffsets| && |cylinders| == i
        invariant forall k :: 0 <= k < i ==> cylinders[k] == Cylinder(settingOffsets[k], 0.0)
      {
        cylinders := cylinders + [Cylinder(settingOffsets[i], 0.0)];
        i := i + 1;
      }
    }

    /** The frame loop of BeginPlay for one decoded file. */
    static method DownmixFrames(w: Wav) returns (samples: seq<real>)
      requires WavOk(w)
      ensures samples == Downmix(w)
    {
      samples := [];
      var f := 0;
      while f < w.frames
        invariant 0 <= f <= w.frames && |samples| == f
        invariant forall k :: 0 <= k < f ==> samples[k] == Downmix(w)[k]
      {
        FrameIndex(f, w.frames, w.channels);
        if w.channels == 2 {
          samples := samples + [0.5 * (w.pcm[2 * f] + w.pcm[2 * f + 1])];
        } else {
          samples := samples + [w.pcm[f]];
        }
        f := f + 1;
      }
    }

    /** BeginPlay: without the plugin or its WAV directory nothing is
      loaded; otherwise every configured sound yields one shape (empty
      when it fails to load) and its length, and the cylinders are synced. */
    method BeginPlay(pluginFound: bool, directoryExists: bool, sounds: seq<Option<Wav>>)
      requires Valid() && impulseQueue == [] && nextShape == 0
      requires forall i :: 0 <= i < |sounds| ==> sounds[i].Some? ==> WavOk(sounds[i].value)
      modifies this`impulseSamples, this`impulseLengths, this`cylinders
      ensures Valid()
      ensures !(pluginFound && directoryExists) ==>
                impulseSamples == old(impulseSamples) && impulseLengths == old(impulseLengths) &&
                cylinders == old(cylinders)
      ensures pluginFound && directoryExists ==>
                |impulseSamples| == |sounds| &&
                (forall i :: 0 <= i < |sounds| ==> impulseSamples[i] == ShapeOf(sounds[i])) &&
                (!hasSetting ==> cylinders == []) &&
                (hasSetting ==> (|cylinders| == |settingOffsets| &&
                                 forall i :: 0 <= i < |cylinders| ==> cylinders[i] == Cylinder(settingOffsets[i], 0.0)))
    {
      if !pluginFound || !directoryExists {
        return;
      }
      var samples, lengths := LoadShapes(sounds);
      impulseSamples, impulseLengths := samples, lengths;
      SyncMotorConfig();
    }

    /** OnStart: the clock, the round-robin index and both queues restart,
      and the cylinders are synced. */
    method OnStart()
      requires Valid()
      modifies this`samplePos, this`nextShape, this`impulseQueue, this`shapeQueue, this`cylinders
      ensures Valid()
      ensures samplePos == 0.0 && nextShape == 0 && impulseQueue == [] && shapeQueue == []
      ensures !hasSetting ==> cylinders == []
      ensures hasSetting ==> |cylinders| == |settingOffsets| &&
                             forall i :: 0 <= i < |cylinders| ==> cylinders[i] == Cylinder(settingOffsets[i], 0.0)
    {
      samplePos := 0.0;
      nextShape := 0;
      impulseQueue, shapeQueue := [], [];
      SyncMotorConfig();
    }

    /** OnStop: no cylinders and no active impulses. */
    method OnStop()
      requires Valid()
      modifies this`cylinders, this`impulseQueue, this`shapeQueue
      ensures Valid()
      ensures cylinders == [] && impulseQueue == [] && shapeQueue == []
    {
      cylinders, impulseQueue, shapeQueue := [], [], [];
    }

    /** The cylinder loop of one sample. */
    method FireCylinders(crank: real)
      requires Valid() && |impulseSamples| > 0
      modifies this`cylinders, this`impulseQueue, this`shapeQueue, this`nextShape
      ensures cylinders == Rephased(old(cylinders), crank)
      ensures Voices(impulseQueue, shapeQueue, nextShape) ==
              Ignite(old(Voices(impulseQueue, shapeQueue, nextShape)), old(cylinders), crank, |impulseSamples|, |old(cylinders)|)
    {
      ghost var v0 := Voices(impulseQueue, shapeQueue, nextShape);
      ghost var cyls0 := cylinders;
      var c := 0;
      while c < |cylinders|
        invariant 0 <= c <= |cylinders| == |cyls0|
        invariant forall k :: 0 <= k < c ==> cylinders[k] == Rephased(cyls0, crank)[k]
        invariant forall k :: c <= k < |cylinders| ==> cylinders[k] == cyls0[k]
        invariant Voices(impulseQueue, shapeQueue, nextShape) == Ignite(v0, cyls0, crank, |impulseSamples|, c)
      {
        var cyl := cylinders[c];
        var phase := TrackDistance.Fmod(crank + cyl.firingOffset, CycleDegrees);
        if cyl.lastFirePhase > phase {
          impulseQueue := impulseQueue + [0];
          shapeQueue := shapeQueue + [nextShape];
          nextShape := (nextShape + 1) % |impulseSamples|;
        }
        cylinders := cylinders[c := cyl.(lastFirePhase := phase)];
        c := c + 1;
      }
    }

    /** The mixing loop of one sample, walking the queue from its end so
      that removals do not disturb the entries still to visit. */
    method MixImpulses() returns (outVal: real)
      requires QueueOk(impulseQueue, shapeQueue, impulseLengths) && ShapesOk(impulseSamples, impulseLengths)
      modifies this`impulseQueue, this`shapeQueue
      ensures var m := MixQueue(old(impulseQueue), old(shapeQueue), impulseSamples, impulseLengths);
              impulseQueue == m.positions && shapeQueue == m.shapes && outVal == m.sum
    {
      ghost var p0, s0 := impulseQueue, shapeQueue;
      outVal := 0.0;
      var q := |impulseQueue|;
      while q > 0
        invariant 0 <= q <= |p0| && QueueOk(p0[q..], s0[q..], impulseLengths)
        invariant impulseQueue == p0[..q] + MixQueue(p0[q..], s0[q..], impulseSamples, impulseLengths).positions
        invariant shapeQueue == s0[..q] + MixQueue(p0[q..], s0[q..], impulseSamples, impulseLengths).shapes
        invariant outVal == MixQueue(p0[q..], s0[q..], impulseSamples, impulseLengths).sum
      {
        q := q - 1;
        QueueOkAt(p0, s0, q, impulseLengths);
        MixQueueAt(p0, s0, q, impulseSamples, impulseLengths);
        ghost var rest := MixQueue(p0[q + 1..], s0[q + 1..], impulseSamples, impulseLengths);
        EditAt(p0, q, rest.positions, p0[q] + 1);
        EditAt(s0, q, rest.shapes, s0[q]);
        var shapeIdx := shapeQueue[q];
        var len := impulseLengths[shapeIdx];
        if impulseQueue[q] < len {
          outVal := outVal + impulseSamples[shapeIdx][impulseQueue[q]];
          impulseQueue := impulseQueue[q := impulseQueue[q] + 1];
        } else {
          impulseQueue := impulseQueue[..q] + impulseQueue[q + 1..];
          shapeQueue := shapeQueue[..q] + shapeQueue[q + 1..];
        }
      }
      assert p0[0..] == p0 && s0[0..] == s0;
    }

    /** OnGenerateAudio: always reports `numSamples` written. Without a
      setting, cylinders or impulse shapes the block is silence and nothing
      changes; otherwise sample `k` is Output(k) of the state at entry, the
      state advances by `numSamples` steps, and every sample lies in
      [-1, 1]. */
    method OnGenerateAudio(out: array<real>, numSamples: nat) returns (written: int)
      requires Valid() && out.Length >= numSamples
      modifies this`cylinders, this`impulseQueue, this`shapeQueue, this`nextShape, this`samplePos, out
      ensures Valid() && written == numSamples
      ensures out[numSamples..] == old(out[numSamples..])
      ensures forall k :: 0 <= k < numSamples ==> -1.0 <= out[k] <= 1.0
      ensures !old(CanSynthesize()) ==> State() == old(State()) && forall k :: 0 <= k < numSamples ==> out[k] == 0.0
      ensures old(CanSynthesize()) ==>
                State() == Run(old(State()), Max(MinRpm, currentRpm), impulseSamples, impulseLengths, numSamples) &&
                out[..numSamples] == Outputs(old(State()), Max(MinRpm, currentRpm), impulseSamples, impulseLengths, numSamples)
    {
      if !CanSynthesize() {
        FillSilence(out, numSamples);
        return numSamples;
      }
      GenerateBlock(out, numSamples, Max(MinRpm, currentRpm));
      assert forall k :: 0 <= k < numSamples ==> out[k] == out[..numSamples][k];
      return numSamples;
    }

    /** The sample loop of OnGenerateAudio. */
    method GenerateBlock(out: array<real>, numSamples: nat, rpm: real)
      requires Valid() && |impulseSamples| > 0 && out.Length >= numSamples
      modifies this`cylinders, this`impulseQueue, this`shapeQueue, this`nextShape, this`samplePos, out
      ensures Valid()
      ensures State() == Run(old(State()), rpm, impulseSamples, impulseLengths, numSamples)
      ensures out[..numSamples] == Outputs(old(State()), rpm, impulseSamples, impulseLengths, numSamples)
      ensures out[numSamples..] == old(out[numSamples..])
    {
      ghost var st0 := State();
      ghost var tail := out[numSamples..];
      var s := 0;
      while s < numSamples
        invariant 0 <= s <= numSamples && Valid()
        invariant State() == Run(st0, rpm, impulseSamples, impulseLengths, s)
        invariant out[..s] == Outputs(st0, rpm, impulseSamples, impulseLengths, s)
        invariant out[..][numSamples..] == tail
      {
        ghost var before := out[..];
        WriteSample(out, s, rpm, st0);
        SuffixKept(before, out[..], s + 1, numSamples);
        s := s + 1;
      }
    }

    /** One iteration of the block loop: sample `s` is computed and written
        to `out[s]`; nothing else in `out` changes. */
    method WriteSample(out: array<real>, s: nat, rpm: real, ghost st0: SynthState)
      requires Valid() && |impulseSamples| > 0 && s < out.Length
      requires StateOk(st0, impulseSamples, impulseLengths)
      requires State() == Run(st0, rpm, impulseSamples, impulseLengths, s)
      requires out[..s] == Outputs(st0, rpm, impulseSamples, impulseLengths, s)
      modifies this`cylinders, this`impulseQueue, this`shapeQueue, this`nextShape, this`samplePos, out
      ensures Valid()
      ensures State() == Run(st0, rpm, impulseSamples, impulseLengths, s + 1)
      ensures out[..s + 1] == Outputs(st0, rpm, impulseSamples, impulseLengths, s + 1)
      ensures out[s + 1..] == old(out[s + 1..])
    {
      var v := SampleOnce(rpm);
      out[s] := v;
      assert out[..s + 1] == old(out[..s]) + [v];
    }

    /** The body of the sample loop: one Step of the state. */
    method SampleOnce(rpm: real) returns (v: real)
      requires Valid() && |impulseSamples| > 0
      modifies this`cylinders, this`impulseQueue, this`shapeQueue, this`nextShape, this`samplePos
      ensures Valid()
      ensures State() == Step(old(State()), rpm, impulseSamples, impulseLengths).0
      ensures v == Step(old(State()), rpm, impulseSamples, impulseLengths).1
    {
      var crank := CrankAngle(samplePos, rpm);
      ghost var v0 := Voices(impulseQueue, shapeQueue, nextShape);
      IgniteKeepsVoicesOk(v0, cylinders, crank, impulseLengths, |cylinders|);
      FireCylinders(crank);
      var outVal := MixImpulses();
      v := Clamp(outVal * OutputGain, -1.0, 1.0);
      samplePos := samplePos + 1.0;
    }

    static method FillSilence(out: array<real>, numSamples: nat)
      requires out.Length >= numSamples
      modifies out
      ensures forall k :: 0 <= k < numSamples ==> out[k] == 0.0
      ensures forall k :: numSamples <= k < out.Length ==> out[k] == old(out[k])
    {
      var k := 0;
      while k < numSamples
        invariant 0 <= k <= numSamples
        invariant forall j :: 0 <= j < k ==> out[j] == 0.0
        invariant forall j :: numSamples <= j < out.Length ==> out[j] == old(out[j])
      {
        out[k] := 0.0;
        k := k + 1;
      }
    }
  }
}
