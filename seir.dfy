/** The age-stratified SEIR right-hand side and the three stages of one
    low-storage Runge-Kutta step of `RK3` (covid19_SEIR.py:794-845), as
    values. Quantities are exact reals: the identities proved here are the
    algebraic ones the integrator relies on, not floating-point accuracy. */
module Seir {
  import opened Sums
  import opened Impulse

  /** Rows of the compartment arrays: Susceptible, Confined, Exposed,
      Asymptomatic, Symptomatic, Quarantined, Hospitalized, Removed,
      Fatalities. */
  const S: nat := 0
  const C: nat := 1
  const E: nat := 2
  const A: nat := 3
  const I: nat := 4
  const Q: nat := 5
  const H: nat := 6
  const R: nat := 7
  const F: nat := 8

  /** Number of age bins (0-10, 10-20, ..., 80+). */
  const BINS: nat := 9

  /** The age bin that receives the seed infection (covid19_SEIR.py:690). */
  const SEED_BIN: nat := 4

  /** Coefficients of the three-stage low-storage scheme (covid19_SEIR.py:652-653). */
  const ALPHA_TS: seq<real> := [0.0, -5.0 / 9.0, -153.0 / 128.0]
  const BETA_TS: seq<real> := [1.0 / 3.0, 15.0 / 16.0, 8.0 / 15.0]

  /** The nine compartment fractions of one age bin. */
  datatype Compartments = Compartments(s: real, c: real, e: real, a: real, i: real,
                                       q: real, h: real, r: real, f: real)
  {
    /** The population fraction held by the bin. */
    function Total(): real
    {
      s + c + e + a + i + q + h + r + f
    }

    function Scale(k: real): (v: Compartments)
      ensures v.Total() == k * Total()
    {
      Compartments(k * s, k * c, k * e, k * a, k * i, k * q, k * h, k * r, k * f)
    }

    function Plus(o: Compartments): (v: Compartments)
      ensures v.Total() == Total() + o.Total()
    {
      Compartments(s + o.s, c + o.c, e + o.e, a + o.a, i + o.i,
                   q + o.q, h + o.h, r + o.r, f + o.f)
    }
  }

  const ZERO := Compartments(0.0, 0.0, 0.0, 0.0, 0.0, 0.0, 0.0, 0.0, 0.0)

  /** One age bin of the integrator: the compartments and their derivative
      accumulators dSdt ... dFdt. */
  datatype Bin = Bin(x: Compartments, dx: Compartments)

  /** The whole epidemic state, one entry per age bin. */
  type State = seq<Bin>

  /** Rate constants and age-stratified coefficients, fixed for a run
      (covid19_SEIR.py:309-332): incubation rate sigma, gamma, the rate theta
      of the asymptomatic, xi, the hospital rate eta, the symptomatic split p,
      the self-curing fraction w, and per age bin the hospitalization
      fraction q, the fatality rate nu and the critical-care fraction cc. */
  datatype Params = Params(sigma: real, gamma: real, theta: real, xi: real, eta: real,
                           p: real, w: real, q: seq<real>, nu: seq<real>, cc: seq<real>)

  predicate ValidParams(P: Params)
  {
    |P.q| == BINS && |P.nu| == BINS && |P.cc| == BINS
  }

  /** The right-hand side added to the accumulators of age bin `ip`
      (covid19_SEIR.py:825-835) for infection force `finf`, confinement
      impulse `psi1` and release impulse `psi2`. The Quarantined line is
      commented out in the source, so its entry is zero. Every flow leaves
      one compartment of the bin and enters another: the entries sum to
      zero. */
  function Rhs(P: Params, ip: nat, finf: real, psi1: real, psi2: real, v: Compartments): (d: Compartments)
    requires ValidParams(P) && ip < BINS
    ensures d.Total() == 0.0
    ensures d.q == 0.0
    ensures psi1 == 0.0 && psi2 == 0.0 ==> d.c == 0.0
  {
    Compartments(
      s := - finf * v.s - psi1 * v.s + psi2 * v.c,
      c := psi1 * v.s - psi2 * v.c,
      e := finf * v.s - P.sigma * v.e,
      a := (1.0 - P.p) * P.sigma * v.e - P.theta * v.a,
      i := P.p * P.sigma * v.e + (1.0 - P.w) * P.theta * v.a - P.gamma * v.i - P.xi * v.i,
      q := 0.0,
      h := P.q[ip] * P.xi * v.i - P.eta * v.h,
      r := P.w * P.theta * v.a + P.gamma * v.i + (1.0 - P.q[ip]) * P.xi * v.i
           + (1.0 - P.nu[ip]) * P.eta * v.h,
      f := P.nu[ip] * P.eta * v.h)
  }

  /** One stage applied to one age bin (covid19_SEIR.py:806-845): every
      accumulator is scaled by `alpha` (alpha_ts[itsub]), the right-hand side
      is added, and each compartment advances by `bdt` (dt_beta_ts[itsub])
      times its accumulator. The bin's accumulator total is only rescaled,
      and its population total moves by bdt times that total. */
  function BinStage(alpha: real, bdt: real, P: Params, ip: nat, finf: real, psi1: real, psi2: real, b: Bin): (r: Bin)
    requires ValidParams(P) && ip < BINS
    ensures r.dx.Total() == alpha * b.dx.Total()
    ensures r.x.Total() == b.x.Total() + bdt * r.dx.Total()
  {
    var rates := b.dx.Scale(alpha).Plus(Rhs(P, ip, finf, psi1, psi2, b.x));
    Bin(b.x.Plus(rates.Scale(bdt)), rates)
  }

  predicate Shaped(g: State)
  {
    |g| == BINS
  }

  /** Sum over the age bins of the Symptomatic and of the Asymptomatic
      fractions, sI and sA (covid19_SEIR.py:802-803). */
  function SymptomaticSum(g: State): real
    requires Shaped(g)
  {
    Sum(seq(BINS, ip requires 0 <= ip < BINS => g[ip].x.i))
  }

  function AsymptomaticSum(g: State): real
    requires Shaped(g)
  {
    Sum(seq(BINS, ip requires 0 <= ip < BINS => g[ip].x.a))
  }

  /** The infection force of a stage, Finf = beta * (sI + sA), fixed for all
      bins of that stage (covid19_SEIR.py:804). Plain sums, not normalised by
      the bin weights. */
  function InfectionForce(g: State, beta: real): (r: real)
    requires Shaped(g)
    ensures SymptomaticSum(g) + AsymptomaticSum(g) == 0.0 ==> r == 0.0
    ensures beta == 0.0 ==> r == 0.0
  {
    beta * (SymptomaticSum(g) + AsymptomaticSum(g))
  }

  /** One stage over all age bins, with the stage's coefficients alpha and
      bdt = beta_ts[k] * dt. */
  function StageAt(g: State, alpha: real, bdt: real, beta: real, psi1: seq<real>, psi2: seq<real>, P: Params): (r: State)
    requires Shaped(g) && ValidParams(P) && |psi1| == BINS && |psi2| == BINS
    ensures Shaped(r)
  {
    var finf := InfectionForce(g, beta);
    seq(BINS, ip requires 0 <= ip < BINS => BinStage(alpha, bdt, P, ip, finf, psi1[ip], psi2[ip], g[ip]))
  }

  /** The state after the first `n` stages of one step. */
  function Stages(g: State, n: nat, dt: real, beta: real, psi1: seq<real>, psi2: seq<real>, P: Params): (r: State)
    requires Shaped(g) && n <= 3 && ValidParams(P) && |psi1| == BINS && |psi2| == BINS
    ensures Shaped(r)
    decreases n
  {
    if n == 0 then g
    else StageAt(Stages(g, n - 1, dt, beta, psi1, psi2, P), ALPHA_TS[n - 1], BETA_TS[n - 1] * dt, beta, psi1, psi2, P)
  }

  /** Stage n+1 applies the coefficients of index n: the definition of
      `Stages` unfolded once, a solver aid for the loop of Integrator.Step. */
  lemma StagesUnfold(g: State, n: nat, dt: real, beta: real, psi1: seq<real>, psi2: seq<real>, P: Params)
    requires Shaped(g) && n < 3 && ValidParams(P) && |psi1| == BINS && |psi2| == BINS
    ensures Stages(g, n + 1, dt, beta, psi1, psi2, P)
         == StageAt(Stages(g, n, dt, beta, psi1, psi2, P), ALPHA_TS[n], BETA_TS[n] * dt, beta, psi1, psi2, P)
  {
  }

  /** One full step: the three stages in order. */
  function StepState(g: State, dt: real, beta: real, psi1: seq<real>, psi2: seq<real>, P: Params): (r: State)
    requires Shaped(g) && ValidParams(P) && |psi1| == BINS && |psi2| == BINS
    ensures Shaped(r)
  {
    Stages(g, 3, dt, beta, psi1, psi2, P)
  }

  /** The population fraction held by each age bin. */
  function BinTotals(g: State): (t: seq<real>)
    requires Shaped(g)
    ensures |t| == BINS
  {
    seq(BINS, ip requires 0 <= ip < BINS => g[ip].x.Total())
  }

  /** Every bin's accumulators sum to zero, as they do at the start
      (covid19_SEIR.py:709-717). */
  predicate Balanced(g: State)
    requires Shaped(g)
  {
    forall ip :: 0 <= ip < BINS ==> g[ip].dx.Total() == 0.0
  }

  predicate QuarantineEmpty(g: State)
    requires Shaped(g)
  {
    forall ip :: 0 <= ip < BINS ==> g[ip].x.q == 0.0 && g[ip].dx.q == 0.0
  }

  predicate ConfinedEmpty(g: State)
    requires Shaped(g)
  {
    forall ip :: 0 <= ip < BINS ==> g[ip].x.c == 0.0 && g[ip].dx.c == 0.0
  }

  /** A stage keeps the accumulators balanced and leaves every bin's
      population total unchanged. */
  lemma StageConserves(g: State, alpha: real, bdt: real, beta: real, psi1: seq<real>, psi2: seq<real>, P: Params)
    requires Shaped(g) && ValidParams(P) && |psi1| == BINS && |psi2| == BINS
    requires Balanced(g)
    ensures Balanced(StageAt(g, alpha, bdt, beta, psi1, psi2, P))
    ensures BinTotals(StageAt(g, alpha, bdt, beta, psi1, psi2, P)) == BinTotals(g)
  {
    var r := StageAt(g, alpha, bdt, beta, psi1, psi2, P);
    forall ip | 0 <= ip < BINS
      ensures r[ip].dx.Total() == 0.0 && r[ip].x.Total() == g[ip].x.Total()
    {
      assert r[ip] == BinStage(alpha, bdt, P, ip, InfectionForce(g, beta), psi1[ip], psi2[ip], g[ip]);
    }
  }

  /** Conservation over any number of stages, hence over a whole step: for
      every age bin S+C+E+A+I+Q+H+R+F is preserved and the accumulators keep
      summing to zero. */
  lemma {:induction false} StagesConserve(g: State, n: nat, dt: real, beta: real, psi1: seq<real>, psi2: seq<real>, P: Params)
    requires Shaped(g) && n <= 3 && ValidParams(P) && |psi1| == BINS && |psi2| == BINS
    requires Balanced(g)
    ensures Balanced(Stages(g, n, dt, beta, psi1, psi2, P))
    ensures BinTotals(Stages(g, n, dt, beta, psi1, psi2, P)) == BinTotals(g)
  {
    if n > 0 {
      StagesConserve(g, n - 1, dt, beta, psi1, psi2, P);
      StageConserves(Stages(g, n - 1, dt, beta, psi1, psi2, P), ALPHA_TS[n - 1], BETA_TS[n - 1] * dt, beta, psi1, psi2, P);
    }
  }

  /** The Quarantined compartment has no right-hand side, so a stage only
      rescales its accumulator and keeps an empty Q empty. */
  lemma StageKeepsQuarantineEmpty(g: State, alpha: real, bdt: real, beta: real, psi1: seq<real>, psi2: seq<real>, P: Params)
    requires Shaped(g) && ValidParams(P) && |psi1| == BINS && |psi2| == BINS
    requires QuarantineEmpty(g)
    ensures QuarantineEmpty(StageAt(g, alpha, bdt, beta, psi1, psi2, P))
  {
    var r := StageAt(g, alpha, bdt, beta, psi1, psi2, P);
    forall ip | 0 <= ip < BINS
      ensures r[ip].x.q == 0.0 && r[ip].dx.q == 0.0
    {
      assert r[ip] == BinStage(alpha, bdt, P, ip, InfectionForce(g, beta), psi1[ip], psi2[ip], g[ip]);
    }
  }

  lemma {:induction false} StagesKeepQuarantineEmpty(g: State, n: nat, dt: real, beta: real, psi1: seq<real>, psi2: seq<real>, P: Params)
    requires Shaped(g) && n <= 3 && ValidParams(P) && |psi1| == BINS && |psi2| == BINS
    requires QuarantineEmpty(g)
    ensures QuarantineEmpty(Stages(g, n, dt, beta, psi1, psi2, P))
  {
    if n > 0 {
      StagesKeepQuarantineEmpty(g, n - 1, dt, beta, psi1, psi2, P);
      StageKeepsQuarantineEmpty(Stages(g, n - 1, dt, beta, psi1, psi2, P), ALPHA_TS[n - 1], BETA_TS[n - 1] * dt, beta, psi1, psi2, P);
    }
  }

  /** Without impulses the Confined compartment has no right-hand side, so an
      empty C stays empty. */
  lemma StageKeepsConfinedEmpty(g: State, alpha: real, bdt: real, beta: real, psi1: seq<real>, psi2: seq<real>, P: Params)
    requires Shaped(g) && ValidParams(P) && |psi1| == BINS && |psi2| == BINS
    requires NoImpulse(psi1) && NoImpulse(psi2) && ConfinedEmpty(g)
    ensures ConfinedEmpty(StageAt(g, alpha, bdt, beta, psi1, psi2, P))
  {
    var r := StageAt(g, alpha, bdt, beta, psi1, psi2, P);
    forall ip | 0 <= ip < BINS
      ensures r[ip].x.c == 0.0 && r[ip].dx.c == 0.0
    {
      assert r[ip] == BinStage(alpha, bdt, P, ip, InfectionForce(g, beta), psi1[ip], psi2[ip], g[ip]);
    }
  }

  lemma {:induction false} StagesKeepConfinedEmpty(g: State, n: nat, dt: real, beta: real, psi1: seq<real>, psi2: seq<real>, P: Params)
    requires Shaped(g) && n <= 3 && ValidParams(P) && |psi1| == BINS && |psi2| == BINS
    requires NoImpulse(psi1) && NoImpulse(psi2) && ConfinedEmpty(g)
    ensures ConfinedEmpty(Stages(g, n, dt, beta, psi1, psi2, P))
  {
    if n > 0 {
      StagesKeepConfinedEmpty(g, n - 1, dt, beta, psi1, psi2, P);
      StageKeepsConfinedEmpty(Stages(g, n - 1, dt, beta, psi1, psi2, P), ALPHA_TS[n - 1], BETA_TS[n - 1] * dt, beta, psi1, psi2, P);
    }
  }

  /** What the time loop keeps: balanced accumulators, the bin totals
      `totals` it started with, an empty Quarantined compartment and, when
      `unconfined`, an empty Confined compartment. */
  predicate Kept(g: State, totals: seq<real>, unconfined: bool)
    requires Shaped(g)
  {
    Balanced(g) && BinTotals(g) == totals && QuarantineEmpty(g) && (unconfined ==> ConfinedEmpty(g))
  }

  /** A whole step keeps the accumulators balanced and every bin's total. */
  lemma StepConserves(g: State, dt: real, beta: real, psi1: seq<real>, psi2: seq<real>, P: Params)
    requires Shaped(g) && ValidParams(P) && |psi1| == BINS && |psi2| == BINS
    requires Balanced(g)
    ensures Balanced(StepState(g, dt, beta, psi1, psi2, P))
    ensures BinTotals(StepState(g, dt, beta, psi1, psi2, P)) == BinTotals(g)
  {
    StagesConserve(g, 3, dt, beta, psi1, psi2, P);
  }

  lemma StepKeepsQuarantineEmpty(g: State, dt: real, beta: real, psi1: seq<real>, psi2: seq<real>, P: Params)
    requires Shaped(g) && ValidParams(P) && |psi1| == BINS && |psi2| == BINS
    requires QuarantineEmpty(g)
    ensures QuarantineEmpty(StepState(g, dt, beta, psi1, psi2, P))
  {
    StagesKeepQuarantineEmpty(g, 3, dt, beta, psi1, psi2, P);
  }

  lemma StepKeepsConfinedEmpty(g: State, dt: real, beta: real, psi1: seq<real>, psi2: seq<real>, P: Params)
    requires Shaped(g) && ValidParams(P) && |psi1| == BINS && |psi2| == BINS
    ensures NoImpulse(psi1) && NoImpulse(psi2) && ConfinedEmpty(g) ==>
              ConfinedEmpty(StepState(g, dt, beta, psi1, psi2, P))
  {
    if NoImpulse(psi1) && NoImpulse(psi2) && ConfinedEmpty(g) {
      StagesKeepConfinedEmpty(g, 3, dt, beta, psi1, psi2, P);
    }
  }

  /** Equal states have the same properties: substitution of equals, a
      solver aid that keeps the facts about `StepState` apart from the
      state they are transferred to. */
  lemma StateTransfer(g: State, g': State)
    requires Shaped(g) && g == g'
    ensures Shaped(g') && (Balanced(g) ==> Balanced(g')) && BinTotals(g') == BinTotals(g)
    ensures (QuarantineEmpty(g) ==> QuarantineEmpty(g')) && (ConfinedEmpty(g) ==> ConfinedEmpty(g'))
  {
  }

  /** A whole step keeps all of Kept; the empty Confined compartment as long
      as neither impulse fires. */
  lemma StepKeeps(g: State, totals: seq<real>, unconfined: bool, dt: real, beta: real,
                  psi1: seq<real>, psi2: seq<real>, P: Params)
    requires Shaped(g) && ValidParams(P) && |psi1| == BINS && |psi2| == BINS
    requires Kept(g, totals, unconfined) && (unconfined ==> NoImpulse(psi1) && NoImpulse(psi2))
    ensures Kept(StepState(g, dt, beta, psi1, psi2, P), totals, unconfined)
  {
    StepConserves(g, dt, beta, psi1, psi2, P);
    StepKeepsQuarantineEmpty(g, dt, beta, psi1, psi2, P);
    StepKeepsConfinedEmpty(g, dt, beta, psi1, psi2, P);
  }

  /** The seed placed before the integration starts: everything zero except
      I[4] = I0 (covid19_SEIR.py:689-697). */
  function SeedOthers(i0: real, ip: nat): Compartments
  {
    ZERO.(i := if ip == SEED_BIN then i0 else 0.0)
  }

  /** The initial state as written: S = (1-C-E-A-I-Q-H-R-F)*ni, accumulators
      zero (covid19_SEIR.py:689-717). */
  function Seed(ni: seq<real>, i0: real): (g: State)
    requires |ni| == BINS
    ensures Shaped(g) && Balanced(g) && QuarantineEmpty(g) && ConfinedEmpty(g)
    ensures g[SEED_BIN].x.i == i0
  {
    seq(BINS, ip requires 0 <= ip < BINS =>
      var o := SeedOthers(i0, ip);
      Bin(o.(s := (1.0 - o.c - o.e - o.a - o.i - o.q - o.h - o.r - o.f) * ni[ip]), ZERO))
  }

  /** As written, the seed bin holds ni[4] + I0*(1 - ni[4]) instead of its
      weight ni[4]: I0 is added to I[4] but only I0*ni[4] is taken from
      S[4]. The other bins hold exactly their weights. */
  lemma SeedOverfillsBin(ni: seq<real>, i0: real)
    requires |ni| == BINS
    ensures BinTotals(Seed(ni, i0))[SEED_BIN] == ni[SEED_BIN] + i0 * (1.0 - ni[SEED_BIN])
    ensures forall ip :: 0 <= ip < BINS && ip != SEED_BIN ==> BinTotals(Seed(ni, i0))[ip] == ni[ip]
  {
  }

  /** A uniform pyramid and a seed of one in a thousand: the seed bin totals
      0.1009 instead of 0.1. */
  lemma SeedCounterexample()
    ensures var ni := seq(BINS, _ => 0.1);
            BinTotals(Seed(ni, 0.001))[SEED_BIN] == 0.1009 != ni[SEED_BIN]
  {
    var ni := seq(BINS, _ => 0.1);
    SeedOverfillsBin(ni, 0.001);
  }

  /** The initial state with the seed taken out of the Susceptible of its
      own bin, S = ni - (C+E+A+I+Q+H+R+F), so that every bin starts with its
      population weight. */
  function BalancedSeed(ni: seq<real>, i0: real): (g: State)
    requires |ni| == BINS
    ensures Shaped(g) && Balanced(g) && QuarantineEmpty(g) && ConfinedEmpty(g)
    ensures g[SEED_BIN].x.i == i0
  {
    seq(BINS, ip requires 0 <= ip < BINS =>
      var o := SeedOthers(i0, ip);
      Bin(o.(s := ni[ip] - (o.c + o.e + o.a + o.i + o.q + o.h + o.r + o.f)), ZERO))
  }

  lemma BalancedSeedTotals(ni: seq<real>, i0: real)
    requires |ni| == BINS
    ensures BinTotals(BalancedSeed(ni, i0)) == ni
  {
  }
}
