/** An animation of one number: while alive, every update adds the
    elapsed time and sets the subject to the easing of the running time;
    on reaching the duration the subject snaps to the target, the tween
    dies, and the callback is invoked with the tween's tag (modelled by
    `Update` returning that tag). The easing curves are floating-point
    functions and are taken as a parameter. */
module Tweens {
  import opened Common

  /** An easing curve: (running time, start value, change, duration) to
      the current value. */
  type Easing = (int, int, int, int) -> int

  /** A boxed number a tween animates. */
  class TweenSubject {
    var value: int

    constructor (value: int)
      ensures this.value == value
    {
      this.value := value;
    }
  }

  class Tween<T> {
    var alive: bool
    const duration: int
    var runningSince: int
    /** The subject's value when the tween was created, None without subject. */
    const initialValue: Option<int>
    const targetValue: int
    const subject: TweenSubject?
    const tag: T
    const easing: Easing
    /** How many times the callback has been invoked. */
    ghost var fired: nat

    ghost predicate Valid()
      reads this
    {
      (subject != null <==> initialValue.Some?)
      && fired <= 1
      && (alive ==> fired == 0)
    }

    /** `Tween.create`. */
    constructor Create(tag: T, subject: TweenSubject?, targetValue: int, duration: int, easing: Easing)
      ensures alive && runningSince == 0 && fired == 0
      ensures initialValue == if subject == null then None else Some(subject.value)
      ensures this.tag == tag && this.subject == subject && this.targetValue == targetValue
      ensures this.duration == duration && this.easing == easing
      ensures Valid()
    {
      this.alive := true;
      this.duration := duration;
      this.runningSince := 0;
      this.initialValue := if subject == null then None else Some(subject.value);
      this.targetValue := targetValue;
      this.subject := subject;
      this.tag := tag;
      this.easing := easing;
      this.fired := 0;
    }

    /** The value the subject takes on an update that ends at running time
        `t`. */
    function ValueAt(t: int): int
      requires initialValue.Some?
    {
      if t >= duration then targetValue
      else easing(t, initialValue.value, targetValue - initialValue.value, duration)
    }

    method Update(dt: int) returns (callback: Option<T>)
      requires Valid()
      modifies this`alive, this`runningSince, this`fired, subject
      ensures Valid()
      ensures !old(alive) ==> (callback == None && !alive && runningSince == old(runningSince)
                               && fired == old(fired) && (subject != null ==> subject.value == old(subject.value)))
      ensures old(alive) ==> runningSince == old(runningSince) + dt
      ensures old(alive) && subject != null ==> subject.value == ValueAt(runningSince)
      ensures old(alive) ==> (callback.Some? <==> runningSince >= duration) && alive == callback.None?
      ensures callback.Some? ==> callback.value == tag
      ensures fired == old(fired) + if callback.Some? then 1 else 0
    {
      if !alive {
        return None;
      }
      runningSince := runningSince + dt;
      if subject != null {
        subject.value := easing(runningSince, initialValue.value, targetValue - initialValue.value, duration);
      }
      callback := None;
      if runningSince >= duration {
        if subject != null {
          subject.value := targetValue;
        }
        alive := false;
        fired := fired + 1;
        callback := Some(tag);
      }
    }
  }
}
