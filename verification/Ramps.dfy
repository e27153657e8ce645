/**
Linear parameter ramps: a change moves over a fixed number of samples and the last
step lands exactly on the target. `RampState` is the value of a ramp and carries its
specification; `Ramp` is the object that is set and ticked in place.
*/
module Ramps {

  datatype RampState = RampState(value: real, target: real, step: real, left: nat, len: nat) {

    /** What every constructor and every operation keeps: a resting ramp is on its
        target, and the samples still to come lead to the target in equal steps. */
    ghost predicate Valid() {
      && 1 <= len
      && left <= len
      && (left == 0 ==> value == target)
      && (left > 0 ==> value + Steps(left, step) == target)
    }

    predicate Moving() {
      left > 0
    }

    function Set(t: real): RampState
      requires len >= 1
    {
      if t == target then this
      else RampState(value, t, (t - value) / len as real, len, len)
    }

    function Tick(): RampState {
      if left == 0 then this
      else this.(left := left - 1, value := if left == 1 then target else value + step)
    }
  }

  /** `n` equal steps. */
  function Steps(n: nat, step: real): real {
    n as real * step
  }

  function Resting(value: real, len: nat): (r: RampState)
    ensures r.Valid() && !r.Moving()
  {
    RampState(value, value, 0.0, 0, if len == 0 then 1 else len)
  }

  lemma SetKeepsValid(r: RampState, t: real)
    requires r.Valid()
    ensures r.Set(t).Valid() && r.Set(t).target == t && r.Set(t).len == r.len
    ensures r.Set(t).value == r.value
    ensures t == r.target ==> r.Set(t) == r
    ensures t != r.target ==> r.Set(t).left == r.len
  {
  }

  lemma TickKeepsValid(r: RampState)
    requires r.Valid()
    ensures r.Tick().Valid() && r.Tick().target == r.target && r.Tick().len == r.len
    ensures r.Tick().left == if r.left == 0 then 0 else r.left - 1
    ensures r.Moving() ==> r.Tick().value == r.value + r.step
    ensures r.left > 1 ==> r.Tick().step == r.step
  {
  }

  /** A tick stays between where the ramp was and where it goes. */
  lemma TickBetween(r: RampState)
    requires r.Valid()
    ensures r.value <= r.target ==> r.value <= r.Tick().value <= r.target
    ensures r.value >= r.target ==> r.value >= r.Tick().value >= r.target
  {
    if r.left > 1 {
      StepSign(r.left, r.step);
    }
  }

  /** So many equal steps go at least as far as one of them, the same way. */
  lemma StepSign(n: nat, step: real)
    requires n >= 1
    ensures Steps(n, step) >= 0.0 ==> 0.0 <= step <= Steps(n, step)
    ensures Steps(n, step) <= 0.0 ==> 0.0 >= step >= Steps(n, step)
  {
    var more := (n - 1) as real;
    assert Steps(n, step) == step + more * step;
    if step > 0.0 {
      assert more * step >= 0.0;
    } else if step < 0.0 {
      assert more * step <= 0.0;
    }
  }

  // ----- whole runs

  datatype RampOp = SetTo(t: real) | TickOnce

  function Apply(r: RampState, op: RampOp): RampState
    requires r.len >= 1
  {
    match op
    case SetTo(t) => r.Set(t)
    case TickOnce => r.Tick()
  }

  function Run(r: RampState, ops: seq<RampOp>): RampState
    requires r.len >= 1
    decreases |ops|
  {
    if ops == [] then r else Run(Apply(r, ops[0]), ops[1..])
  }

  function Ticks(ops: seq<RampOp>): nat {
    if ops == [] then 0 else (if ops[0].TickOnce? then 1 else 0) + Ticks(ops[1..])
  }

  /** Every interleaving of sets and ticks keeps a ramp valid. */
  lemma {:induction false} RunKeepsValid(r: RampState, ops: seq<RampOp>)
    requires r.Valid()
    ensures Run(r, ops).Valid() && Run(r, ops).len == r.len
    decreases |ops|
  {
    if ops != [] {
      match ops[0] {
        case SetTo(t) => SetKeepsValid(r, t);
        case TickOnce => TickKeepsValid(r);
      }
      RunKeepsValid(Apply(r, ops[0]), ops[1..]);
    }
  }

  /** From any valid ramp, with no new target on the way, the k-th tick is exactly k
      steps on while the ramp moves, and every later one rests exactly on the target. */
  lemma {:induction false} RunTowardsTarget(r: RampState, ops: seq<RampOp>)
    requires r.Valid()
    requires forall i :: 0 <= i < |ops| && ops[i].SetTo? ==> ops[i].t == r.target
    ensures Run(r, ops).target == r.target
    ensures Run(r, ops).left == if Ticks(ops) <= r.left then r.left - Ticks(ops) else 0
    ensures Run(r, ops).value ==
            if Ticks(ops) < r.left then r.value + Steps(Ticks(ops), r.step) else r.target
    decreases |ops|
  {
    if ops != [] {
      var r1 := Apply(r, ops[0]);
      if ops[0].TickOnce? {
        TickKeepsValid(r);
        OneMoreStep(Ticks(ops[1..]), r.step);
      }
      assert r1.Valid() && r1.target == r.target;
      hide RampState.Tick, RampState.Set, RampState.Valid, Steps;
      RunTowardsTarget(r1, ops[1..]);
    }
  }

  lemma OneMoreStep(n: nat, step: real)
    ensures Steps(n + 1, step) == step + Steps(n, step) && Steps(0, step) == 0.0
  {
  }

  /** A ramp lands exactly on its last new target after `len` ticks from it, not before,
      whatever sets of the same target come between, and it moves there in equal steps. */
  lemma LandsAfterLen(r: RampState, t: real, ops: seq<RampOp>)
    requires r.Valid() && t != r.target
    requires forall i :: 0 <= i < |ops| && ops[i].SetTo? ==> ops[i].t == t
    ensures Steps(r.len, r.Set(t).step) == t - r.value
    ensures var e := Run(r.Set(t), ops);
            && e.target == t
            && (e.Moving() <==> Ticks(ops) < r.len)
            && (Ticks(ops) >= r.len ==> e.value == t)
            && (Ticks(ops) < r.len ==> e.value == r.value + Steps(Ticks(ops), r.Set(t).step))
  {
    SetKeepsValid(r, t);
    RunTowardsTarget(r.Set(t), ops);
  }

  // ----- the object

  class Ramp {
    var value: real
    var target: real
    var step: real
    var left: nat
    var len: nat

    ghost function State(): RampState
      reads this
    {
      RampState(value, target, step, left, len)
    }

    constructor (value: real, len: nat)
      ensures State() == Resting(value, len)
    {
      this.value := value;
      this.target := value;
      this.step := 0.0;
      this.left := 0;
      this.len := if len == 0 then 1 else len;
    }

    method Set(target: real)
      requires State().Valid()
      modifies this
      ensures State() == old(State()).Set(target) && State().Valid()
    {
      SetKeepsValid(State(), target);
      if target == this.target {
        return;
      }
      this.target := target;
      left := len;
      step := (target - value) / len as real;
    }

    method Jump(value: real)
      requires State().Valid()
      modifies this
      ensures State() == Resting(value, old(len)) && len == old(len)
    {
      this.value := value;
      this.target := value;
      this.step := 0.0;
      this.left := 0;
    }

    method Tick() returns (v: real)
      requires State().Valid()
      modifies this
      ensures State() == old(State()).Tick() && State().Valid()
      ensures v == value
    {
      TickKeepsValid(State());
      if left > 0 {
        left := left - 1;
        value := if left == 0 then target else value + step;
      }
      v := value;
    }
  }
}
