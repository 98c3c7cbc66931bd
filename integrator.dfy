/** The time loop of `RK3` (covid19_SEIR.py:634-907) on arrays updated in
    place: `x` holds the nine compartments of each age bin, `dx` the
    derivative accumulators dSdt ... dFdt of each bin, and `icu` and `dead`
    the ICU demand U and the death estimate D per bin. */
module Integrator {
  import opened Sums
  import opened Seir
  import opened Impulse

  /** The iteration cap of the time loop (covid19_SEIR.py:720). */
  const IT_MAX: nat := 100000

  /** Why the time loop ended: the horizon t > tmax was passed (the branch
      that prints the summary), or range(itmax) ran out. */
  datatype Exit = HorizonReached | IterationCapReached

  /** One value per age bin. */
  predicate Binned<T>(a: array<T>)
  {
    a.Length == BINS
  }

  /** The arrays read as a value of the model. */
  ghost function Snapshot(x: array<Compartments>, dx: array<Compartments>): (g: State)
    reads x, dx
    requires Binned(x) && Binned(dx)
    ensures Shaped(g)
  {
    Pair(x[..], dx[..])
  }

  function Pair(xs: seq<Compartments>, dxs: seq<Compartments>): (g: State)
    requires |xs| == BINS && |dxs| == BINS
    ensures Shaped(g)
  {
    seq(BINS, ip requires 0 <= ip < BINS => Bin(xs[ip], dxs[ip]))
  }

  /** U = H * critical_care_age, the ICU demand of a bin (covid19_SEIR.py:847). */
  function IcuDemand(v: Compartments, cc: real): (u: real)
    ensures v.h == 0.0 ==> u == 0.0
  {
    v.h * cc
  }

  /** D = fatality_rate_age * (ni - (S + C)), the death estimate of a bin
      (covid19_SEIR.py:848). */
  function DeathEstimate(v: Compartments, nu: real, n: real): (d: real)
    ensures v.s + v.c == n ==> d == 0.0
  {
    nu * (n - (v.s + v.c))
  }

  /** The ICU demand of a bin is a share of its hospitalised people when
      critical_care_age is a fraction. */
  lemma IcuWithinHospitalised(v: Compartments, cc: real)
    requires 0.0 <= cc <= 1.0 && v.h >= 0.0
    ensures 0.0 <= IcuDemand(v, cc) <= v.h
  {
    var h := v.h;
    ProductNonNegative(h, cc);
    ProductNonNegative(h, 1.0 - cc);
    assert h * (1.0 - cc) == h - h * cc;
  }

  lemma ProductNonNegative(a: real, b: real)
    requires a >= 0.0 && b >= 0.0
    ensures a * b >= 0.0
  {
  }

  /** In a bin that holds exactly its weight n, the death estimate is the
      fatality share of everybody who has left S and C. */
  lemma DeathsOfThoseWhoLeft(v: Compartments, nu: real, n: real)
    requires v.Total() == n
    ensures DeathEstimate(v, nu, n) == nu * (v.e + v.a + v.i + v.q + v.h + v.r + v.f)
  {
    assert n - (v.s + v.c) == v.e + v.a + v.i + v.q + v.h + v.r + v.f;
  }

  /** U and D hold the values of the current compartments in every bin. */
  ghost predicate Diagnostics(x: array<Compartments>, icu: array<real>, dead: array<real>, P: Params, ni: seq<real>)
    reads x, icu, dead
    requires Binned(x) && Binned(icu) && Binned(dead) && ValidParams(P) && |ni| == BINS
  {
    forall ip :: 0 <= ip < BINS ==>
      icu[ip] == IcuDemand(x[ip], P.cc[ip]) && dead[ip] == DeathEstimate(x[ip], P.nu[ip], ni[ip])
  }

  /** Advancing the time over the three stages (covid19_SEIR.py:794-797):
      ds = alpha_k * ds + 1 and t += dt * beta_k * ds. Since alpha_0 = 0 the
      incoming ds does not matter: the increments are dt/3, 5*dt/12 and
      dt/4, together exactly dt, and ds leaves the step as 15/32. */
  method AdvanceTime(t0: real, ds0: real, dt: real) returns (t: real, ds: real)
    ensures t == t0 + dt
    ensures ds == 15.0 / 32.0
  {
    t, ds := t0, ds0;
    for itsub := 0 to 3
      invariant itsub == 0 ==> t == t0
      invariant itsub == 1 ==> ds == 1.0 && t == t0 + dt / 3.0
      invariant itsub == 2 ==> ds == 4.0 / 9.0 && t == t0 + 3.0 * dt / 4.0
      invariant itsub == 3 ==> ds == 15.0 / 32.0 && t == t0 + dt
    {
      ds := ALPHA_TS[itsub] * ds;
      ds := ds + 1.0;
      t := t + (BETA_TS[itsub] * dt) * ds;
    }
  }


  /** The value of compartment `c` of a bin. */
  function Component(v: Compartments, c: nat): real
  {
    if c == S then v.s else if c == C then v.c else if c == E then v.e
    else if c == A then v.a else if c == I then v.i else if c == Q then v.q
    else if c == H then v.h else if c == R then v.r else v.f
  }

  /** The vector of compartment `c` across the age bins, as the source holds
      it (S, C, ..., F are vectors of length 9). */
  function Vector(xs: seq<Compartments>, c: nat): (v: seq<real>)
    requires |xs| == BINS
    ensures |v| == BINS
  {
    seq(BINS, ip requires 0 <= ip < BINS => Component(xs[ip], c))
  }

  /** The update of age bin `ip` in one stage (covid19_SEIR.py:806-848):
      the bin's accumulators and compartments are replaced by their values
      after the stage, then U and D of the bin are refreshed from the new
      compartments. Only bin `ip` changes. */
  method StageBin(x: array<Compartments>, dx: array<Compartments>, icu: array<real>, dead: array<real>,
                  alpha: real, bdt: real, P: Params, ni: seq<real>, ip: nat,
                  finf: real, psi1: real, psi2: real)
    requires Binned(x) && Binned(dx) && x != dx
    requires Binned(icu) && Binned(dead) && icu != dead
    requires ValidParams(P) && |ni| == BINS && ip < BINS
    modifies x, dx, icu, dead
    ensures Bin(x[ip], dx[ip]) == BinStage(alpha, bdt, P, ip, finf, psi1, psi2, old(Bin(x[ip], dx[ip])))
    ensures forall j :: 0 <= j < BINS && j != ip ==> x[j] == old(x[j]) && dx[j] == old(dx[j])
    ensures icu[ip] == IcuDemand(x[ip], P.cc[ip]) && dead[ip] == DeathEstimate(x[ip], P.nu[ip], ni[ip])
    ensures forall j :: 0 <= j < BINS && j != ip ==> icu[j] == old(icu[j]) && dead[j] == old(dead[j])
  {
    var b := BinStage(alpha, bdt, P, ip, finf, psi1, psi2, Bin(x[ip], dx[ip]));
    dx[ip] := b.dx;
    x[ip] := b.x;
    icu[ip] := IcuDemand(x[ip], P.cc[ip]);
    dead[ip] := DeathEstimate(x[ip], P.nu[ip], ni[ip]);
  }

  /** One stage over all age bins (covid19_SEIR.py:802-848): the infection
      force is computed once from the state at the start of the stage, then
      every bin is updated in turn. */
  method Stage(x: array<Compartments>, dx: array<Compartments>, icu: array<real>, dead: array<real>,
               alpha: real, bdt: real, beta: real, P: Params, ni: seq<real>, psi1: seq<real>, psi2: seq<real>)
    requires Binned(x) && Binned(dx) && x != dx
    requires Binned(icu) && Binned(dead) && icu != dead
    requires ValidParams(P) && |ni| == BINS && |psi1| == BINS && |psi2| == BINS
    modifies x, dx, icu, dead
    ensures Snapshot(x, dx) == StageAt(old(Snapshot(x, dx)), alpha, bdt, beta, psi1, psi2, P)
    ensures Diagnostics(x, icu, dead, P, ni)
  {
    ghost var g0 := Snapshot(x, dx);
    var sI := Sum(Vector(x[..], I));
    var sA := Sum(Vector(x[..], A));
    var finf := beta * (sI + sA);
    assert Vector(x[..], I) == seq(BINS, ip requires 0 <= ip < BINS => g0[ip].x.i);
    assert Vector(x[..], A) == seq(BINS, ip requires 0 <= ip < BINS => g0[ip].x.a);
    assert finf == InfectionForce(g0, beta);
    ghost var g1 := StageAt(g0, alpha, bdt, beta, psi1, psi2, P);
    for ip := 0 to BINS
      invariant forall j :: 0 <= j < ip ==> Bin(x[j], dx[j]) == g1[j]
      invariant forall j :: ip <= j < BINS ==> Bin(x[j], dx[j]) == g0[j]
      invariant forall j :: 0 <= j < ip ==>
                  icu[j] == IcuDemand(x[j], P.cc[j]) && dead[j] == DeathEstimate(x[j], P.nu[j], ni[j])
    {
      assert Bin(x[ip], dx[ip]) == g0[ip];
      StageBin(x, dx, icu, dead, alpha, bdt, P, ni, ip, finf, psi1[ip], psi2[ip]);
      assert Bin(x[ip], dx[ip]) == g1[ip];
    }
    assert Snapshot(x, dx) == g1;
  }

  /** The three stages of one step (covid19_SEIR.py:801-848). */
  method Step(x: array<Compartments>, dx: array<Compartments>, icu: array<real>, dead: array<real>,
              dt: real, beta: real, P: Params, ni: seq<real>, psi1: seq<real>, psi2: seq<real>)
    requires Binned(x) && Binned(dx) && x != dx
    requires Binned(icu) && Binned(dead) && icu != dead
    requires ValidParams(P) && |ni| == BINS && |psi1| == BINS && |psi2| == BINS
    modifies x, dx, icu, dead
    ensures Snapshot(x, dx) == StepState(old(Snapshot(x, dx)), dt, beta, psi1, psi2, P)
    ensures Diagnostics(x, icu, dead, P, ni)
  {
    ghost var g0 := Snapshot(x, dx);
    for itsub := 0 to 3
      invariant Snapshot(x, dx) == Stages(g0, itsub, dt, beta, psi1, psi2, P)
      invariant itsub > 0 ==> Diagnostics(x, icu, dead, P, ni)
    {
      ghost var before := Snapshot(x, dx);
      Stage(x, dx, icu, dead, ALPHA_TS[itsub], BETA_TS[itsub] * dt, beta, P, ni, psi1, psi2);
      assert Snapshot(x, dx) == StageAt(before, ALPHA_TS[itsub], BETA_TS[itsub] * dt, beta, psi1, psi2, P);
      StagesUnfold(g0, itsub, dt, beta, psi1, psi2, P);
    }
  }

  /** The initial arrays (covid19_SEIR.py:689-717): the seed as the source
      computes it (Seir.Seed), zero accumulators and zero U and D. */
  method Load(ni: seq<real>, i0: real)
    returns (x: array<Compartments>, dx: array<Compartments>, icu: array<real>, dead: array<real>)
    requires |ni| == BINS
    ensures fresh(x) && fresh(dx) && fresh(icu) && fresh(dead) && x != dx && icu != dead
    ensures Binned(x) && Binned(dx) && Binned(icu) && Binned(dead)
    ensures Snapshot(x, dx) == Seed(ni, i0)
  {
    var seed := Seed(ni, i0);
    x := new Compartments[BINS](ip requires 0 <= ip < BINS => seed[ip].x);
    dx := new Compartments[BINS](_ => ZERO);
    icu := new real[BINS](_ => 0.0);
    dead := new real[BINS](_ => 0.0);
    assert Snapshot(x, dx) == seed;
  }

  /** One pass of the time loop (covid19_SEIR.py:768-854) from the time `t`
      with the previous recorded time `prev` and the state `g` in the
      arrays: both impulses are computed before the time advances, then the
      state takes one step with the transmission rate `beta` of the pass. */
  method Iteration(x: array<Compartments>, dx: array<Compartments>, icu: array<real>, dead: array<real>,
                   P: Params, ni: seq<real>, t: real, ds: real, dt: real, prev: real,
                   tlockdown: real, trelease: real, ampl1: seq<real>, ampl2: seq<real>, beta: real,
                   ghost g: State)
    returns (t': real, ds': real)
    requires Binned(x) && Binned(dx) && x != dx
    requires Binned(icu) && Binned(dead) && icu != dead
    requires ValidParams(P) && |ni| == BINS && |ampl1| == BINS && |ampl2| == BINS && dt > 0.0
    requires Snapshot(x, dx) == g
    modifies x, dx, icu, dead
    ensures t' == t + dt && ds' == 15.0 / 32.0
    ensures Snapshot(x, dx) == StepState(g, dt, beta,
              KroneckerDelta(t, tlockdown, prev, ampl1, dt), KroneckerDelta(t, trelease, prev, ampl2, dt), P)
    ensures Diagnostics(x, icu, dead, P, ni)
  {
    var psi1 := KroneckerDelta(t, tlockdown, prev, ampl1, dt);
    var psi2 := KroneckerDelta(t, trelease, prev, ampl2, dt);
    t', ds' := AdvanceTime(t, ds, dt);
    Step(x, dx, icu, dead, dt, beta, P, ni, psi1, psi2);
  }

  /** The state after the iterations of the time loop from `g0` whose
      times are `ts`: ts[k] is the time at the start of iteration k, and
      iteration k takes one step with the transmission rate betaAt(k) and
      the lockdown and release impulses computed from ts[0..k]. */
  function Evolve(g0: State, ts: seq<real>, P: Params, dt: real, betaAt: nat -> real,
                  tlockdown: real, trelease: real, ampl1: seq<real>, ampl2: seq<real>): (g: State)
    requires Shaped(g0) && ValidParams(P) && dt != 0.0 && |ampl1| == BINS && |ampl2| == BINS
    ensures Shaped(g)
    decreases |ts|, 1
  {
    if |ts| == 0 then g0 else LastIteration(g0, ts, P, dt, betaAt, tlockdown, trelease, ampl1, ampl2)
  }

  /** The last of the iterations whose times are `ts`. Kept apart from
      `Evolve` so that the solver unfolds a step only where a proof asks
      for it. */
  function LastIteration(g0: State, ts: seq<real>, P: Params, dt: real, betaAt: nat -> real,
                         tlockdown: real, trelease: real, ampl1: seq<real>, ampl2: seq<real>): (g: State)
    requires Shaped(g0) && |ts| > 0 && ValidParams(P) && dt != 0.0 && |ampl1| == BINS && |ampl2| == BINS
    ensures Shaped(g)
    decreases |ts|, 0
  {
    var k := |ts| - 1;
    StepState(Evolve(g0, ts[..k], P, dt, betaAt, tlockdown, trelease, ampl1, ampl2), dt, betaAt(k),
              Pulse(ts, k, tlockdown, ampl1, dt), Pulse(ts, k, trelease, ampl2, dt), P)
  }

  /** The definition of `Evolve` unfolded once, a solver aid that keeps
      the unfolding out of contexts where it is costly. */
  lemma EvolveUnfold(g0: State, ts: seq<real>, P: Params, dt: real, betaAt: nat -> real,
                     tlockdown: real, trelease: real, ampl1: seq<real>, ampl2: seq<real>)
    requires Shaped(g0) && |ts| > 0 && ValidParams(P) && dt != 0.0 && |ampl1| == BINS && |ampl2| == BINS
    ensures Evolve(g0, ts, P, dt, betaAt, tlockdown, trelease, ampl1, ampl2)
         == StepState(Evolve(g0, ts[..|ts| - 1], P, dt, betaAt, tlockdown, trelease, ampl1, ampl2), dt, betaAt(|ts| - 1),
                      Pulse(ts, |ts| - 1, tlockdown, ampl1, dt), Pulse(ts, |ts| - 1, trelease, ampl2, dt), P)
  {
  }

  /** Along a recorded time list `tt`, iteration k takes the state after
      iterations 0..k-1 one step further, with the impulses
      Pulse(tt, k, ...) of iteration k. */
  lemma EvolveStep(g0: State, tt: seq<real>, k: nat, P: Params, dt: real, betaAt: nat -> real,
                   tlockdown: real, trelease: real, ampl1: seq<real>, ampl2: seq<real>)
    requires Shaped(g0) && k < |tt| && ValidParams(P) && dt != 0.0 && |ampl1| == BINS && |ampl2| == BINS
    ensures Evolve(g0, tt[..k + 1], P, dt, betaAt, tlockdown, trelease, ampl1, ampl2)
         == StepState(Evolve(g0, tt[..k], P, dt, betaAt, tlockdown, trelease, ampl1, ampl2), dt, betaAt(k),
                      Pulse(tt, k, tlockdown, ampl1, dt), Pulse(tt, k, trelease, ampl2, dt), P)
  {
    assert tt[..k + 1][..k] == tt[..k];
    PulsePrefix(tt[..k + 1], tt[k + 1..], k, tlockdown, ampl1, dt);
    PulsePrefix(tt[..k + 1], tt[k + 1..], k, trelease, ampl2, dt);
    assert tt[..k + 1] + tt[k + 1..] == tt;
  }

  /** Iterating the steps keeps the invariant of one step: the bin totals
      the run started with, balanced accumulators, an empty Quarantined
      compartment and, when neither impulse has an amplitude, an empty
      Confined compartment. */
  lemma {:induction false} EvolveKeeps(g0: State, ts: seq<real>, P: Params, dt: real, betaAt: nat -> real,
                                       tlockdown: real, trelease: real, ampl1: seq<real>, ampl2: seq<real>,
                                       totals: seq<real>, unconfined: bool)
    requires Shaped(g0) && ValidParams(P) && dt != 0.0 && |ampl1| == BINS && |ampl2| == BINS
    requires Kept(g0, totals, unconfined) && (unconfined ==> NoImpulse(ampl1) && NoImpulse(ampl2))
    ensures Kept(Evolve(g0, ts, P, dt, betaAt, tlockdown, trelease, ampl1, ampl2), totals, unconfined)
    decreases |ts|
  {
    if |ts| > 0 {
      EvolveKeeps(g0, ts[..|ts| - 1], P, dt, betaAt, tlockdown, trelease, ampl1, ampl2, totals, unconfined);
      var g := Evolve(g0, ts[..|ts| - 1], P, dt, betaAt, tlockdown, trelease, ampl1, ampl2);
      var psi1 := Pulse(ts, |ts| - 1, tlockdown, ampl1, dt);
      var psi2 := Pulse(ts, |ts| - 1, trelease, ampl2, dt);
      if unconfined {
        SilentPulse(ts, |ts| - 1, tlockdown, ampl1, dt);
        SilentPulse(ts, |ts| - 1, trelease, ampl2, dt);
      }
      StepKeeps(g, totals, unconfined, dt, betaAt(|ts| - 1), psi1, psi2, P);
      EvolveUnfold(g0, ts, P, dt, betaAt, tlockdown, trelease, ampl1, ampl2);
      StateTransfer(StepState(g, dt, betaAt(|ts| - 1), psi1, psi2, P),
                    Evolve(g0, ts, P, dt, betaAt, tlockdown, trelease, ampl1, ampl2));
    }
  }

  /** Started from the corrected seed, every bin keeps exactly its weight
      ni through any number of iterations. */
  lemma CorrectedRunKeepsWeights(ni: seq<real>, i0: real, ts: seq<real>, P: Params, dt: real,
                                 betaAt: nat -> real, tlockdown: real, trelease: real,
                                 ampl1: seq<real>, ampl2: seq<real>)
    requires |ni| == BINS && ValidParams(P) && dt != 0.0 && |ampl1| == BINS && |ampl2| == BINS
    ensures BinTotals(Evolve(BalancedSeed(ni, i0), ts, P, dt, betaAt, tlockdown, trelease, ampl1, ampl2)) == ni
  {
    BalancedSeedTotals(ni, i0);
    EvolveKeeps(BalancedSeed(ni, i0), ts, P, dt, betaAt, tlockdown, trelease, ampl1, ampl2, ni, false);
  }

  /** Recording the time `t` after iteration n extends the evolution by the
      step that iteration took from its time tt[n] and previous time
      tt[n-1] (Python's tt[-1] at iteration 0). */
  lemma Extended(g0: State, tt: seq<real>, t: real, n: nat, P: Params, dt: real,
                 betaAt: nat -> real, tlockdown: real, trelease: real, ampl1: seq<real>, ampl2: seq<real>)
    requires Shaped(g0) && |tt| == n + 1 && ValidParams(P) && dt != 0.0 && |ampl1| == BINS && |ampl2| == BINS
    ensures Evolve(g0, (tt + [t])[..n + 1], P, dt, betaAt, tlockdown, trelease, ampl1, ampl2)
         == StepState(Evolve(g0, tt[..n], P, dt, betaAt, tlockdown, trelease, ampl1, ampl2), dt, betaAt(n),
                      KroneckerDelta(tt[n], tlockdown, PyIndex(tt, n - 1), ampl1, dt),
                      KroneckerDelta(tt[n], trelease, PyIndex(tt, n - 1), ampl2, dt), P)
  {
    assert (tt + [t])[..n + 1] == tt;
    assert tt[..n + 1] == tt;
  }

  /** The whole simulation (covid19_SEIR.py:689-881): seed the state, then
      step until the time passes `tmax` or range(itmax) runs out. Each
      iteration computes both impulses from the current time and the
      recorded time it-1, takes the transmission rate of that iteration,
      advances the time, advances the state and records the new time.
      The step size is fixed for the run. The final state is the seed as
      written carried through the iterations, so each bin keeps the total
      the seed gave it: its weight ni, except the seed bin, which holds
      ni[4] + I0*(1-ni[4]) (see Seir.SeedOverfillsBin). */
  method Run(P: Params, ni: seq<real>, i0: real, t0: real, dt: real, tmax: real,
             tlockdown: real, trelease: real, ampl1: seq<real>, ampl2: seq<real>, betaAt: nat -> real)
    returns (x: array<Compartments>, dx: array<Compartments>, icu: array<real>, dead: array<real>,
             steps: nat, t: real, tt: seq<real>, exit: Exit)
    requires ValidParams(P) && |ni| == BINS && |ampl1| == BINS && |ampl2| == BINS && dt > 0.0
    ensures Binned(x) && Binned(dx) && Binned(icu) && Binned(dead)
    ensures 1 <= steps <= IT_MAX
    ensures |tt| == steps + 1 && t == tt[steps]
    ensures forall k :: 0 <= k <= steps ==> tt[k] == t0 + k as real * dt
    ensures Increasing(tt)
    ensures exit == HorizonReached <==> t > tmax
    ensures exit == IterationCapReached ==> steps == IT_MAX
    ensures forall k :: 1 <= k < steps ==> tt[k] <= tmax
    ensures Snapshot(x, dx) == Evolve(Seed(ni, i0), tt[..steps], P, dt, betaAt, tlockdown, trelease, ampl1, ampl2)
    ensures Balanced(Snapshot(x, dx)) && BinTotals(Snapshot(x, dx)) == BinTotals(Seed(ni, i0))
    ensures BinTotals(Snapshot(x, dx))[SEED_BIN] == ni[SEED_BIN] + i0 * (1.0 - ni[SEED_BIN])
    ensures forall ip :: 0 <= ip < BINS && ip != SEED_BIN ==> BinTotals(Snapshot(x, dx))[ip] == ni[ip]
    ensures QuarantineEmpty(Snapshot(x, dx))
    ensures NoImpulse(ampl1) && NoImpulse(ampl2) ==> ConfinedEmpty(Snapshot(x, dx))
    ensures Diagnostics(x, icu, dead, P, ni)
  {
    x, dx, icu, dead, steps, t, tt := Simulate(P, ni, i0, t0, dt, tmax, tlockdown, trelease, ampl1, ampl2, betaAt);
    exit := if t > tmax then HorizonReached else IterationCapReached;
    Finished(tt, t, steps, t0, dt, tmax);
    SeedOverfillsBin(ni, i0);
  }

  /** Seeding and the time loop (covid19_SEIR.py:689-854): iteration `it`
      starts at the time tt[it]; the loop stops once the time passes `tmax`
      or after IT_MAX iterations. The arrays end in the state the
      iterations reach from the seed, which keeps every property of Kept
      the seed has. */
  method Simulate(P: Params, ni: seq<real>, i0: real, t0: real, dt: real, tmax: real,
                  tlockdown: real, trelease: real, ampl1: seq<real>, ampl2: seq<real>, betaAt: nat -> real)
    returns (x: array<Compartments>, dx: array<Compartments>, icu: array<real>, dead: array<real>,
             steps: nat, t: real, tt: seq<real>)
    requires ValidParams(P) && |ni| == BINS && |ampl1| == BINS && |ampl2| == BINS && dt > 0.0
    ensures Binned(x) && Binned(dx) && Binned(icu) && Binned(dead)
    ensures steps <= IT_MAX && !(steps < IT_MAX && (steps == 0 || t <= tmax))
    ensures Recording(tt, t, steps, t0, dt, tmax)
    ensures Snapshot(x, dx) == Evolve(Seed(ni, i0), tt[..steps], P, dt, betaAt, tlockdown, trelease, ampl1, ampl2)
    ensures Kept(Snapshot(x, dx), BinTotals(Seed(ni, i0)), NoImpulse(ampl1) && NoImpulse(ampl2))
    ensures Diagnostics(x, icu, dead, P, ni)
  {
    x, dx, icu, dead := Load(ni, i0);
    ghost var g0 := Seed(ni, i0);
    ghost var totals := BinTotals(g0);

    t := t0;
    var ds := 0.0;
    tt := [t];
    steps := 0;
    while steps < IT_MAX && (steps == 0 || t <= tmax)
      invariant steps <= IT_MAX
      invariant Recording(tt, t, steps, t0, dt, tmax)
      invariant Binned(x) && Binned(dx) && Binned(icu) && Binned(dead)
      invariant fresh(x) && fresh(dx) && fresh(icu) && fresh(dead)
      invariant x != dx && icu != dead
      invariant Snapshot(x, dx) == Evolve(g0, tt[..steps], P, dt, betaAt, tlockdown, trelease, ampl1, ampl2)
      invariant steps > 0 ==> Diagnostics(x, icu, dead, P, ni)
      decreases IT_MAX - steps
    {
      ghost var now := t;
      t, ds := Iteration(x, dx, icu, dead, P, ni, tt[steps], ds, dt, PyIndex(tt, steps - 1), tlockdown, trelease,
                         ampl1, ampl2, betaAt(steps), Evolve(g0, tt[..steps], P, dt, betaAt, tlockdown, trelease, ampl1, ampl2));
      Extended(g0, tt, t, steps, P, dt, betaAt, tlockdown, trelease, ampl1, ampl2);
      Recorded(tt, now, t, steps, t0, dt, tmax);
      tt := tt + [t];
      steps := steps + 1;
    }
    EvolveKeeps(g0, tt[..steps], P, dt, betaAt, tlockdown, trelease, ampl1, ampl2, totals, NoImpulse(ampl1) && NoImpulse(ampl2));
    StateTransfer(Evolve(g0, tt[..steps], P, dt, betaAt, tlockdown, trelease, ampl1, ampl2), Snapshot(x, dx));
  }

  /** Consecutive times differ by the step. */
  predicate Spaced(tt: seq<real>, dt: real)
  {
    forall k :: 0 < k < |tt| ==> tt[k] == tt[k - 1] + dt
  }

  /** The times recorded after `steps` iterations: one more than the
      iterations, the last one the current time `t`, the first one t0,
      consecutive ones `dt` apart, and all but the first and the last within
      the horizon. */
  predicate Recording(tt: seq<real>, t: real, steps: nat, t0: real, dt: real, tmax: real)
  {
    |tt| == steps + 1 && t == tt[steps] && tt[0] == t0 && Spaced(tt, dt) && WithinHorizon(tt, steps, tmax)
  }

  /** The times of the iterations after the first, up to `steps`, are within the horizon. */
  predicate WithinHorizon(tt: seq<real>, steps: nat, tmax: real)
  {
    forall k :: 1 <= k < steps && k < |tt| ==> tt[k] <= tmax
  }

  /** An iteration that starts within the horizon, or is the first,
      advances the time by `dt` and records it. */
  lemma Recorded(tt: seq<real>, t: real, t': real, steps: nat, t0: real, dt: real, tmax: real)
    requires Recording(tt, t, steps, t0, dt, tmax) && (steps == 0 || t <= tmax)
    requires t' == tt[steps] + dt
    ensures Recording(tt + [t'], t', steps + 1, t0, dt, tmax)
  {
  }

  /** When the time loop stops, the record holds the times t0 + k*dt of
      the iterations taken, at least one and at most IT_MAX, and the loop
      stopped because the time passed the horizon or the iterations ran
      out. */
  lemma Finished(tt: seq<real>, t: real, steps: nat, t0: real, dt: real, tmax: real)
    requires dt > 0.0 && steps <= IT_MAX && Recording(tt, t, steps, t0, dt, tmax)
    requires !(steps < IT_MAX && (steps == 0 || t <= tmax))
    ensures 1 <= steps <= IT_MAX && (!(t > tmax) ==> steps == IT_MAX)
    ensures |tt| == steps + 1 && t == tt[steps]
    ensures forall k :: 0 <= k <= steps ==> tt[k] == t0 + k as real * dt
    ensures Increasing(tt)
    ensures forall k :: 1 <= k < steps ==> tt[k] <= tmax
  {
    EvenlySpaced(tt, dt);
    TimesIncrease(tt, t0, dt);
  }

  /** Times spaced by `dt` are tt[0] + k*dt. */
  lemma {:induction false} EvenlySpaced(tt: seq<real>, dt: real)
    requires |tt| > 0 && Spaced(tt, dt)
    ensures forall k :: 0 <= k < |tt| ==> tt[k] == tt[0] + k as real * dt
    decreases |tt|
  {
    if |tt| > 1 {
      var init := tt[..|tt| - 1];
      assert Spaced(init, dt);
      EvenlySpaced(init, dt);
      var n := |tt| - 1;
      assert init[n - 1] == tt[n - 1] && init[0] == tt[0];
      assert tt[n] == tt[0] + (n - 1) as real * dt + dt;
      assert (n - 1) as real * dt + dt == n as real * dt;
    }
  }

  /** Times spaced by a positive step increase. */
  lemma TimesIncrease(tt: seq<real>, t0: real, dt: real)
    requires dt > 0.0
    requires forall k :: 0 <= k < |tt| ==> tt[k] == t0 + k as real * dt
    ensures Increasing(tt)
  {
    forall i, j | 0 <= i < j < |tt|
      ensures tt[i] < tt[j]
    {
      assert tt[j] - tt[i] == (j - i) as real * dt;
    }
  }
}
