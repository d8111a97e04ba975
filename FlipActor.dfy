/** UFlipActorComponent (FlipActorComponent.cpp): a periodic check of the
    owner's up vector that resets a vehicle which was found flipped on two
    checks in a row, and the reset itself: lifted and levelled, heading
    kept. */
module FlipActor {

  datatype Rotator = Rotator(pitch: real, yaw: real, roll: real)

  /** The owner's world transform as the component reads and writes it. */
  datatype ActorTransform = ActorTransform(x: real, y: real, z: real, rotation: Rotator)

  /** ResetVehicle's target: raised by the height offset, pitch and roll
      zeroed, position and heading otherwise kept. */
  function ResetTransform(t: ActorTransform, resetHeightOffset: real): (r: ActorTransform)
    ensures r.x == t.x && r.y == t.y && r.z == t.z + resetHeightOffset
    ensures r.rotation.pitch == 0.0 && r.rotation.roll == 0.0 && r.rotation.yaw == t.rotation.yaw
  {
    ActorTransform(t.x, t.y, t.z + resetHeightOffset, Rotator(0.0, t.rotation.yaw, 0.0))
  }

  /** Resetting a reset vehicle only lifts it again: the orientation is
      already level. */
  lemma ResetLevelsOnce(t: ActorTransform, resetHeightOffset: real)
    ensures ResetTransform(ResetTransform(t, resetHeightOffset), resetHeightOffset).rotation ==
            ResetTransform(t, resetHeightOffset).rotation
  {
  }

  /** One check: whether it resets the vehicle, and the new "flipped on
      the previous check" flag. */
  function FlipStep(previousFlipCheck: bool, upDot: real, flipCheckMinDot: real): (r: (bool, bool))
    ensures r.1 <==> upDot < flipCheckMinDot
    ensures r.0 <==> upDot < flipCheckMinDot && previousFlipCheck
  {
    if upDot < flipCheckMinDot then (previousFlipCheck, true) else (false, false)
  }

  /** Which of a run of checks reset the vehicle, starting from the flag
      `previousFlipCheck`. */
  function ResetsOver(previousFlipCheck: bool, upDots: seq<real>, flipCheckMinDot: real): (r: seq<bool>)
    ensures |r| == |upDots|
    decreases |upDots|
  {
    if upDots == [] then []
    else
      var step := FlipStep(previousFlipCheck, upDots[0], flipCheckMinDot);
      [step.0] + ResetsOver(step.1, upDots[1..], flipCheckMinDot)
  }

  /** Check `i` of a run found the vehicle flipped, and so did the flip test
      before it (the initial flag, for the first check). */
  predicate FlippedTwice(previousFlipCheck: bool, upDots: seq<real>, flipCheckMinDot: real, i: nat)
    requires i < |upDots|
  {
    upDots[i] < flipCheckMinDot && (if i == 0 then previousFlipCheck else upDots[i - 1] < flipCheckMinDot)
  }

  /** The debounce: a check resets exactly when it and the flip test before it
      both found the vehicle flipped. */
  lemma {:induction false} ResetsOverExact(previousFlipCheck: bool, upDots: seq<real>, flipCheckMinDot: real)
    ensures forall i: nat :: i < |upDots| ==>
              ResetsOver(previousFlipCheck, upDots, flipCheckMinDot)[i] == FlippedTwice(previousFlipCheck, upDots, flipCheckMinDot, i)
    decreases |upDots|
  {
    if upDots != [] {
      var next := upDots[0] < flipCheckMinDot;
      var tail := upDots[1..];
      ResetsOverExact(next, tail, flipCheckMinDot);
      var r := ResetsOver(previousFlipCheck, upDots, flipCheckMinDot);
      var rest := ResetsOver(next, tail, flipCheckMinDot);
      assert r == [upDots[0] < flipCheckMinDot && previousFlipCheck] + rest;
      forall i: nat | i < |upDots|
        ensures r[i] == FlippedTwice(previousFlipCheck, upDots, flipCheckMinDot, i)
      {
        if i > 0 {
          assert r[i] == rest[i - 1] == FlippedTwice(next, tail, flipCheckMinDot, i - 1);
          assert tail[i - 1] == upDots[i];
          if i > 1 {
            assert tail[i - 2] == upDots[i - 1];
          }
        }
      }
    }
  }

  /** The component's state and its owner's transform. */
  class FlipActorComponent {
    var hasOwner: bool
    /** Whether the owner implements the reset interface. */
    var ownerImplementsReset: bool
    var ownerTransform: ActorTransform
    var flipCheckMinDot: real
    var resetHeightOffset: real
    var previousFlipCheck: bool
    /** How many reset-interface calls were made on the owner. */
    var resetCount: nat

    constructor (hasOwner: bool, ownerImplementsReset: bool, ownerTransform: ActorTransform)
      ensures this.hasOwner == hasOwner && this.ownerImplementsReset == ownerImplementsReset
      ensures this.ownerTransform == ownerTransform
      ensures flipCheckMinDot == 0.2 && resetHeightOffset == 50.0 && !previousFlipCheck && resetCount == 0
    {
      this.hasOwner, this.ownerImplementsReset, this.ownerTransform := hasOwner, ownerImplementsReset, ownerTransform;
      flipCheckMinDot, resetHeightOffset := 0.2, 50.0;
      previousFlipCheck, resetCount := false, 0;
    }

    /** ResetVehicle: nothing without an owner; otherwise the owner is
      moved to ResetTransform and, when it implements the reset
      interface, reset. */
    method ResetVehicle()
      modifies this`ownerTransform, this`resetCount
      ensures !hasOwner ==> ownerTransform == old(ownerTransform) && resetCount == old(resetCount)
      ensures hasOwner ==> ownerTransform == ResetTransform(old(ownerTransform), resetHeightOffset) &&
                           resetCount == old(resetCount) + (if ownerImplementsReset then 1 else 0)
    {
      if !hasOwner {
        return;
      }
      var rotation := Rotator(0.0, ownerTransform.rotation.yaw, 0.0);
      ownerTransform := ActorTransform(ownerTransform.x, ownerTransform.y,
                                       ownerTransform.z + resetHeightOffset, rotation);
      if ownerImplementsReset {
        resetCount := resetCount + 1;
      }
    }

    /** FlippedCheck with the owner's current up-vector dot product:
      nothing without an owner; otherwise FlipStep decides the reset and
      the new flag. */
    method FlippedCheck(upDot: real)
      modifies this`ownerTransform, this`resetCount, this`previousFlipCheck
      ensures !hasOwner ==> ownerTransform == old(ownerTransform) && resetCount == old(resetCount) &&
                            previousFlipCheck == old(previousFlipCheck)
      ensures hasOwner ==>
                var step := FlipStep(old(previousFlipCheck), upDot, flipCheckMinDot);
                previousFlipCheck == step.1 &&
                (step.0 ==> ownerTransform == ResetTransform(old(ownerTransform), resetHeightOffset) &&
                            resetCount == old(resetCount) + (if ownerImplementsReset then 1 else 0)) &&
                (!step.0 ==> ownerTransform == old(ownerTransform) && resetCount == old(resetCount))
    {
      if !hasOwner {
        return;
      }
      if upDot < flipCheckMinDot {
        if previousFlipCheck {
          ResetVehicle();
        }
        previousFlipCheck := true;
      } else {
        previousFlipCheck := false;
      }
    }
  }
}
