/** The one-shot lockdown and release impulses, `get_kronecker_delta`
    (covid19_SEIR.py:499-507), and how they behave along the time list `tt`
    that the time loop records (covid19_SEIR.py:727, 770-771, 852-854). */
module Impulse {

  /** The impulse vector for trigger time `t0`, current time `time` and
      previous recorded time `tt`: `ampl/dt` in every age bin when
      time - t0 > 0 and tt - t0 < 0, the zero vector otherwise. Over the step
      where it fires, its time integral psi*dt is the amplitude. */
  function KroneckerDelta(time: real, t0: real, tt: real, ampl: seq<real>, dt: real): (psi: seq<real>)
    requires dt != 0.0
    ensures |psi| == |ampl|
    ensures tt < t0 < time ==> forall i :: 0 <= i < |ampl| ==> psi[i] * dt == ampl[i]
    ensures !(tt < t0 < time) ==> forall i :: 0 <= i < |ampl| ==> psi[i] == 0.0
    ensures (forall i :: 0 <= i < |ampl| ==> ampl[i] == 0.0) ==> forall i :: 0 <= i < |psi| ==> psi[i] == 0.0
  {
    var delta := if time - t0 > 0.0 && tt - t0 < 0.0 then 1.0 else 0.0;
    seq(|ampl|, i requires 0 <= i < |ampl| => delta * ampl[i] / dt)
  }

  /** An impulse vector, or an amplitude, that is zero in every age bin. */
  predicate NoImpulse(psi: seq<real>)
  {
    forall i :: 0 <= i < |psi| ==> psi[i] == 0.0
  }

  /** Python indexing of a list, where -1 is the last element. */
  function PyIndex(s: seq<real>, i: int): real
    requires -|s| <= i < |s|
  {
    if i < 0 then s[|s| + i] else s[i]
  }

  /** The firing condition at iteration `it` of the time loop, when the time
      list holds tt[0..it]: the current time is tt[it] and the previous time
      is the list's element it-1, which at iteration 0 is element -1, the
      current time itself. */
  predicate FiresAt(tt: seq<real>, it: nat, t0: real)
    requires it < |tt|
  {
    var prev := PyIndex(tt[..it + 1], it - 1);
    tt[it] - t0 > 0.0 && prev - t0 < 0.0
  }

  predicate Increasing(tt: seq<real>)
  {
    forall i, j :: 0 <= i < j < |tt| ==> tt[i] < tt[j]
  }

  /** The impulse never fires at iteration 0. */
  lemma NeverFiresAtStart(tt: seq<real>, t0: real)
    requires |tt| > 0
    ensures !FiresAt(tt, 0, t0)
  {
    assert PyIndex(tt[..1], -1) == tt[0];
  }

  /** Along increasing times, a trigger strictly inside the step from tt[k-1]
      to tt[k] fires at iteration k and at no other iteration. */
  lemma {:induction false} FiresExactlyAfterCrossing(tt: seq<real>, t0: real, k: nat)
    requires Increasing(tt) && 1 <= k < |tt|
    requires tt[k - 1] < t0 < tt[k]
    ensures forall it :: 0 <= it < |tt| ==> (FiresAt(tt, it, t0) <==> it == k)
  {
    forall it | 0 <= it < |tt|
      ensures FiresAt(tt, it, t0) <==> it == k
    {
      if it == 0 {
        NeverFiresAtStart(tt, t0);
      } else {
        assert PyIndex(tt[..it + 1], it - 1) == tt[it - 1];
        if it < k {
          assert tt[it] <= tt[k - 1];
        } else if it > k {
          assert tt[k] <= tt[it - 1];
        }
      }
    }
  }

  /** Along increasing times, the impulse fires at most once. */
  lemma FiresAtMostOnce(tt: seq<real>, t0: real, i: nat, j: nat)
    requires Increasing(tt) && i < |tt| && j < |tt|
    requires FiresAt(tt, i, t0) && FiresAt(tt, j, t0)
    ensures i == j
  {
    NeverFiresAtStart(tt, t0);
    assert PyIndex(tt[..j + 1], j - 1) == tt[j - 1];
    FiresExactlyAfterCrossing(tt, t0, j);
  }

  /** A trigger that coincides with a recorded time never fires: both
      comparisons are strict. */
  lemma TriggerOnStepNeverFires(tt: seq<real>, t0: real, k: nat)
    requires Increasing(tt) && k < |tt| && tt[k] == t0
    ensures forall it :: 0 <= it < |tt| ==> !FiresAt(tt, it, t0)
  {
    forall it | 0 <= it < |tt|
      ensures !FiresAt(tt, it, t0)
    {
      if it == 0 {
        NeverFiresAtStart(tt, t0);
      } else {
        assert PyIndex(tt[..it + 1], it - 1) == tt[it - 1];
        if it <= k {
          assert tt[it] <= tt[k];
        } else {
          assert tt[k] <= tt[it - 1];
        }
      }
    }
  }

  /** The impulse applied at iteration `it` of the time loop
      (covid19_SEIR.py:770-771): computed from the current time tt[it] and
      the previous time, the element it-1 of the list recorded so far,
      tt[0..it]. */
  function Pulse(tt: seq<real>, it: nat, t0: real, ampl: seq<real>, dt: real): (psi: seq<real>)
    requires it < |tt| && dt != 0.0
    ensures |psi| == |ampl|
  {
    KroneckerDelta(tt[it], t0, PyIndex(tt[..it + 1], it - 1), ampl, dt)
  }

  /** The impulse of iteration `it` carries the amplitude exactly when the
      firing condition holds there, and is zero otherwise. */
  lemma PulseFires(tt: seq<real>, it: nat, t0: real, ampl: seq<real>, dt: real)
    requires it < |tt| && dt != 0.0
    ensures FiresAt(tt, it, t0) ==> forall i :: 0 <= i < |ampl| ==> Pulse(tt, it, t0, ampl, dt)[i] * dt == ampl[i]
    ensures !FiresAt(tt, it, t0) ==> forall i :: 0 <= i < |ampl| ==> Pulse(tt, it, t0, ampl, dt)[i] == 0.0
  {
  }

  /** Without an amplitude the impulse is zero at every iteration. */
  lemma SilentPulse(tt: seq<real>, it: nat, t0: real, ampl: seq<real>, dt: real)
    requires it < |tt| && dt != 0.0
    requires NoImpulse(ampl)
    ensures NoImpulse(Pulse(tt, it, t0, ampl, dt))
  {
  }

  /** Along increasing times, a trigger strictly inside the step from
      tt[k-1] to tt[k] is applied at iteration k, with the amplitude ampl
      over that step, and at every other iteration the impulse is zero. */
  lemma PulseOnlyAfterCrossing(tt: seq<real>, t0: real, ampl: seq<real>, dt: real, k: nat)
    requires Increasing(tt) && 1 <= k < |tt| && dt != 0.0
    requires tt[k - 1] < t0 < tt[k]
    ensures forall i :: 0 <= i < |ampl| ==> Pulse(tt, k, t0, ampl, dt)[i] * dt == ampl[i]
    ensures forall it, i :: 0 <= it < |tt| && it != k && 0 <= i < |ampl| ==> Pulse(tt, it, t0, ampl, dt)[i] == 0.0
  {
    FiresExactlyAfterCrossing(tt, t0, k);
    PulseFires(tt, k, t0, ampl, dt);
    forall it | 0 <= it < |tt| && it != k
      ensures forall i :: 0 <= i < |ampl| ==> Pulse(tt, it, t0, ampl, dt)[i] == 0.0
    {
      PulseFires(tt, it, t0, ampl, dt);
    }
  }

  /** Along increasing times, a non-zero impulse is applied in at most one
      iteration. */
  lemma PulseAtMostOnce(tt: seq<real>, t0: real, ampl: seq<real>, dt: real, i: nat, j: nat, m: nat, n: nat)
    requires Increasing(tt) && i < |tt| && j < |tt| && dt != 0.0 && m < |ampl| && n < |ampl|
    requires Pulse(tt, i, t0, ampl, dt)[m] != 0.0 && Pulse(tt, j, t0, ampl, dt)[n] != 0.0
    ensures i == j
  {
    PulseFires(tt, i, t0, ampl, dt);
    PulseFires(tt, j, t0, ampl, dt);
    FiresAtMostOnce(tt, t0, i, j);
  }

  /** The impulse of an iteration depends only on the times recorded up
      to it. */
  lemma PulsePrefix(tt: seq<real>, more: seq<real>, it: nat, t0: real, ampl: seq<real>, dt: real)
    requires it < |tt| && dt != 0.0
    ensures Pulse(tt + more, it, t0, ampl, dt) == Pulse(tt, it, t0, ampl, dt)
  {
    assert (tt + more)[..it + 1] == tt[..it + 1];
  }
}
