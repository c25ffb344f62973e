/** A countdown: every update adds the elapsed time, and any update that
    finds the running time at or past the duration invokes the callback
    with the timer's tag and marks the timer dead. The callback is
    modelled by `Update` returning the tag it would be called with. */
module Timers {
  import opened Common

  /** The total of the elapsed times fed so far. */
  function Sum(dts: seq<int>): int
  {
    if dts == [] then 0 else Sum(dts[..|dts| - 1]) + dts[|dts| - 1]
  }

  /** Whether update number `i` (from 0) of a timer fed `dts` invokes the
      callback. */
  predicate FiresAt(duration: int, dts: seq<int>, i: nat)
    requires i < |dts|
  {
    Sum(dts[..i + 1]) >= duration
  }

  class Timer<T> {
    const duration: int
    const tag: T
    var runningSince: int
    var alive: bool
    /** The elapsed times fed to `Update`, in order. */
    ghost var fed: seq<int>

    ghost predicate Valid()
      reads this
    {
      runningSince == Sum(fed)
    }

    constructor (tag: T, duration: int)
      ensures this.tag == tag && this.duration == duration
      ensures runningSince == 0 && alive && fed == []
      ensures Valid()
    {
      this.tag := tag;
      this.duration := duration;
      runningSince := 0;
      alive := true;
      fed := [];
    }

    /** `alive` is never consulted: a dead timer keeps firing. */
    method Update(dt: int) returns (callback: Option<T>)
      requires Valid()
      modifies this
      ensures Valid() && fed == old(fed) + [dt]
      ensures runningSince == old(runningSince) + dt
      ensures callback.Some? <==> FiresAt(duration, fed, |fed| - 1)
      ensures callback.Some? ==> callback.value == tag && !alive
      ensures callback.None? ==> alive == old(alive)
    {
      ghost var before := fed;
      runningSince := runningSince + dt;
      fed := fed + [dt];
      assert fed[..|fed| - 1] == before;
      assert Sum(fed) == Sum(before) + dt;
      assert fed[..|fed|] == fed;
      callback := None;
      if runningSince >= duration {
        callback := Some(tag);
        alive := false;
      }
    }
  }

  lemma {:induction false} SumPrefixMonotone(dts: seq<int>, i: nat, j: nat)
    requires i <= j <= |dts|
    requires forall k :: 0 <= k < |dts| ==> dts[k] >= 0
    ensures Sum(dts[..i]) <= Sum(dts[..j])
  {
    if i < j {
      SumPrefixMonotone(dts, i, j - 1);
      assert dts[..j][..j - 1] == dts[..j - 1];
    }
  }

  /** With non-negative elapsed times, once the timer has fired it fires
      again on every later update. */
  lemma TimerKeepsFiring(duration: int, dts: seq<int>, i: nat, j: nat)
    requires i <= j < |dts|
    requires forall k :: 0 <= k < |dts| ==> dts[k] >= 0
    requires FiresAt(duration, dts, i)
    ensures FiresAt(duration, dts, j)
  {
    SumPrefixMonotone(dts, i + 1, j + 1);
  }
}
