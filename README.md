# A verified model of the covid19_SEIR integrator and its data helpers

This project models the parts of `covid19_SEIR.py` that can be stated exactly.
The program simulates an epidemic in nine age bins with a compartment model:
Susceptible, Confined, Exposed, Asymptomatic, Symptomatic, Quarantined,
Hospitalized, Removed and Fatalities. It integrates the model with a
three-stage low-storage Runge-Kutta scheme (the `RK3` function), and it
reads its inputs from CSV tables.

All quantities are Dafny `real`, which are exact rationals. What is proved
are the algebraic identities the code relies on. Nothing is claimed about
floating-point accuracy.

Modules:

- `Seir` holds the pure value model of the state and of one step:
  - the state is a sequence of nine bins, each holding its compartments and their derivative accumulators;
  - the right-hand side of the equations;
  - one stage of the step, applied to one bin and to all bins;
  - the three stages of a step;
  - the initial state.
- `Integrator` is the imperative time loop of `RK3`:
  - arrays updated in place, one entry per age bin (compartments, accumulators, ICU demand `U`, death estimate `D`);
  - the `ds`/`t` time recurrence;
  - loop exit on the horizon or on the iteration cap.
  - Each method is proved against the `Seir` functions. The invariants the loop keeps come from `Seir` lemmas.
- `Impulse` models `get_kronecker_delta` and when it fires along the recorded time list.
- `FirstDeath` models the `index_D0` search of `select_country`.
- `Pyramid` models the row loop and the bracket folding of `read_population_pyramid_data`, plus the bin weights `ni = age/N`.
- `Jhu` models the row loop of `read_jhu_data`: a fold over rows that the CSV reader has already split.
- `Cells` models Python's `int()` on a cell.
- `Options` and `Sums` are shared helpers.

Inputs that the code computes from I/O, clocks or library numerics enter as parameters:

- the transmission rate of each iteration (`betaAt`);
- `dt`, `tmax`, the lockdown and release times and amplitudes;
- the rate constants (`Params`).

Where the source's own comments and its code disagree, the model follows the code:

- The infection force is `beta*(sum(I)+sum(A))` with plain sums (covid19_SEIR.py:802-804). The comment at covid19_SEIR.py:71-75 defines it with each bin's `I+A` divided by the bin's `N_i`.
- `dt = Cdt*tau_beta` is computed once, before the time loop (covid19_SEIR.py:668-670). It is the step `Δt = τ_β/2` of the comment at covid19_SEIR.py:164, and it stays fixed for the run even when beta changes between iterations.
- The time does not advance inside the three stages. It advances in a separate loop before them (covid19_SEIR.py:794-797).
  - That loop gives `dt` for any incoming `ds`, not only for `ds = 1`, because `alpha_ts[0] = 0`.
  - `ds` leaves every step as 15/32.
- The seed goes into Symptomatic `I[4]` (covid19_SEIR.py:689-690). The Quarantined compartment has no right-hand side, because its line is commented out (covid19_SEIR.py:831). So `Q` stays zero for the whole run.
- The impulse test is strict on both sides (covid19_SEIR.py:501). A trigger that equals a recorded time never fires.
- Inside `range(itmax)` the test `it == itmax` (covid19_SEIR.py:867) is never true. Running out of iterations ends the loop silently, with the same end-of-loop state as the horizon exit; `Integrator.Run` returns which exit was taken.
- The seed line `S=(1-C-E-A-I-Q-H-R-F)*ni` (covid19_SEIR.py:699) is evidently meant to give each bin its weight `ni`. In the seed bin it does not (see Findings). The run starts from the seed as written.

## Model

| member | source | states |
|---|---|---|
| Seir.InfectionForce | covid19_SEIR.py:802-804 | there is no infection force without symptomatic and asymptomatic people, or with a zero transmission rate |
| Seir.StageAt | covid19_SEIR.py:801-845 | one stage over the nine bins gives nine bins; what it keeps is stated by Seir.StageConserves, Seir.StageKeepsQuarantineEmpty and Seir.StageKeepsConfinedEmpty |
| Seir.Stages | covid19_SEIR.py:801-845 | the first n stages of a step give nine bins; what they keep is stated by Seir.StagesConserve and the other Stages lemmas |
| Seir.StepState | covid19_SEIR.py:801-845 | the three stages of a step give nine bins; what a step keeps is stated by Seir.StepKeeps |
| Seir.Rhs | covid19_SEIR.py:825-835 | the right-hand side entries of a bin sum to zero; the Quarantined entry is zero; without impulses the Confined entry is zero |
| Seir.BinStage | covid19_SEIR.py:806-845 | a stage rescales the bin's accumulator total by alpha, and its population total moves by bdt times the new accumulator total |
| Seir.StageConserves | covid19_SEIR.py:801-845 | a stage keeps every bin's accumulators summing to zero and every bin's population total unchanged |
| Seir.StagesConserve | covid19_SEIR.py:801-845 | the same holds after any number of stages of a step (induction over the stages) |
| Seir.StepConserves | covid19_SEIR.py:801-845 | a whole step keeps the accumulators balanced and the per-bin totals S+C+E+A+I+Q+H+R+F |
| Seir.StageKeepsQuarantineEmpty | covid19_SEIR.py:811-842 | a stage keeps Q and dQdt zero in every bin |
| Seir.StagesKeepQuarantineEmpty | covid19_SEIR.py:801-845 | Q and dQdt stay zero over any number of stages |
| Seir.StepKeepsQuarantineEmpty | covid19_SEIR.py:801-845 | Q and dQdt stay zero over a whole step |
| Seir.StageKeepsConfinedEmpty | covid19_SEIR.py:825-838 | with both impulses zero, a stage keeps C and dCdt zero in every bin |
| Seir.StagesKeepConfinedEmpty | covid19_SEIR.py:801-845 | with both impulses zero, C and dCdt stay zero over any number of stages |
| Seir.StepKeepsConfinedEmpty | covid19_SEIR.py:801-845 | with both impulses zero, a step keeps C and dCdt zero |
| Seir.StepKeeps | covid19_SEIR.py:801-845 | a whole step keeps Kept: balanced accumulators, the bin totals it starts from, an empty Q and, without impulses, an empty C |
| Seir.Seed | covid19_SEIR.py:689-717 | the seed as written: I[4] = I0, zero accumulators, Q and C empty |
| Seir.SeedOverfillsBin | covid19_SEIR.py:689-699 | as written, bin 4 totals ni[4] + I0*(1-ni[4]); every other bin totals its weight |
| Seir.SeedCounterexample | covid19_SEIR.py:689-699 | with ni = 0.1 in every bin and I0 = 0.001, bin 4 totals 0.1009 instead of 0.1 |
| Seir.BalancedSeed | covid19_SEIR.py:689-717 | the corrected seed: I[4] = I0, zero accumulators, Q and C empty |
| Seir.BalancedSeedTotals | covid19_SEIR.py:689-699 | the corrected seed gives every bin exactly its weight ni |
| Impulse.KroneckerDelta | covid19_SEIR.py:499-507 | when `tt < t0 < time`, every component times dt is the amplitude; otherwise the vector is zero; a zero amplitude gives a zero vector |
| Impulse.NeverFiresAtStart | covid19_SEIR.py:768-771 | at iteration 0 the previous time `tt[-1]` is the current time, so the impulse does not fire |
| Impulse.FiresExactlyAfterCrossing | covid19_SEIR.py:768-771 | along increasing times, a trigger strictly between tt[k-1] and tt[k] fires at iteration k and at no other |
| Impulse.FiresAtMostOnce | covid19_SEIR.py:768-771 | along increasing times, two firing iterations are the same iteration |
| Impulse.TriggerOnStepNeverFires | covid19_SEIR.py:499-507 | a trigger equal to a recorded time never fires, because both comparisons are strict |
| Impulse.Pulse | covid19_SEIR.py:770-771 | the impulse of iteration it, computed from tt[it] and the element it-1 of the times recorded so far, has one entry per amplitude |
| Impulse.PulseFires | covid19_SEIR.py:499-507 | the impulse of an iteration carries the amplitude over dt exactly when the firing condition holds there, and is zero otherwise |
| Impulse.SilentPulse | covid19_SEIR.py:499-507 | a zero amplitude gives a zero impulse at every iteration |
| Impulse.PulseOnlyAfterCrossing | covid19_SEIR.py:768-771 | along increasing times, a trigger strictly between tt[k-1] and tt[k] applies its amplitude at iteration k, and the impulse is zero at every other iteration |
| Impulse.PulseAtMostOnce | covid19_SEIR.py:768-771 | along increasing times, a non-zero impulse is applied in at most one iteration |
| Impulse.PulsePrefix | covid19_SEIR.py:770-771 | the impulse of an iteration depends only on the times recorded up to it |
| Integrator.AdvanceTime | covid19_SEIR.py:794-797 | the three stage increments add up to exactly dt whatever ds comes in, and ds leaves as 15/32 |
| Integrator.IcuDemand | covid19_SEIR.py:847 | a bin without hospitalised people has no ICU demand |
| Integrator.DeathEstimate | covid19_SEIR.py:848 | no deaths are estimated in a bin while its whole weight is still susceptible or confined |
| Integrator.IcuWithinHospitalised | covid19_SEIR.py:847 | with critical_care_age a fraction, a bin's ICU demand lies between 0 and its hospitalised count |
| Integrator.DeathsOfThoseWhoLeft | covid19_SEIR.py:848 | in a bin that holds exactly its weight, D is the fatality share of E+A+I+Q+H+R+F, everybody who has left S and C |
| Integrator.StageBin | covid19_SEIR.py:806-848 | bin ip becomes BinStage of its old value, and U and D of the bin are refreshed; no other bin changes |
| Integrator.Stage | covid19_SEIR.py:802-848 | the arrays hold StageAt of the old state; U and D match the new compartments in every bin |
| Integrator.Step | covid19_SEIR.py:801-848 | the arrays hold StepState of the old state (the three stages in order); U and D are current |
| Integrator.Load | covid19_SEIR.py:689-717 | fresh, distinct arrays of nine bins holding the seed as written (Seir.Seed), with zero accumulators |
| Integrator.Iteration | covid19_SEIR.py:768-854 | the time advances by dt and ds leaves as 15/32; the state becomes one step of the old state with the pass's beta and both impulses, taken at the current and the recorded previous time; U and D are current |
| Integrator.Evolve | covid19_SEIR.py:768-854 | the state after the iterations with the given times, each one step with betaAt(k) and the impulses of iteration k; it has nine bins |
| Integrator.EvolveStep | covid19_SEIR.py:768-854 | along a recorded time list, iteration k takes the state after iterations 0..k-1 one step further with the impulses of iteration k |
| Integrator.EvolveKeeps | covid19_SEIR.py:768-854 | any number of iterations keep the bin totals the run started with, balanced accumulators, an empty Q and, without impulses, an empty C |
| Integrator.CorrectedRunKeepsWeights | covid19_SEIR.py:689-854 | started from the corrected seed, every bin keeps exactly its weight ni through any number of iterations |
| Integrator.Extended | covid19_SEIR.py:768-854 | recording the new time extends the evolution by the step taken from the current time and the recorded time it-1 (tt[-1] at iteration 0) |
| Integrator.Simulate | covid19_SEIR.py:689-854 | the loop stops once the time passes tmax or after itmax iterations; the times are recorded one dt apart; the arrays hold Evolve from the seed as written over the recorded times, keep the seed's bin totals, balanced accumulators and an empty Q (and C without impulses); U and D are current |
| Integrator.Recorded | covid19_SEIR.py:852-854 | recording the time after one more iteration keeps the times one dt apart and, before the exit, within tmax |
| Integrator.Finished | covid19_SEIR.py:767-881 | at the loop's end: 1 to itmax steps, the cap reached unless t > tmax, times t0 + k*dt, increasing, every earlier time within tmax |
| Integrator.Run | covid19_SEIR.py:720-881 | 1 to itmax steps; times tt[k] = t0 + k*dt, increasing; the horizon exit happens exactly when t > tmax; the cap exit only after itmax steps; every earlier time lies within tmax; the arrays hold Evolve from the seed as written over the recorded times; every bin keeps its seed total, its weight ni except bin 4, which holds ni[4] + I0*(1-ni[4]); the accumulators are balanced; Q is empty; C is empty without impulses; U and D are current |
| Integrator.EvenlySpaced | covid19_SEIR.py:852-854 | times recorded one step apart are tt[0] + k*dt |
| Integrator.TimesIncrease | covid19_SEIR.py:852-854 | with dt > 0 the recorded times strictly increase |
| FirstDeath.Max | covid19_SEIR.py:601 | the result bounds every element and is one of them |
| FirstDeath.Matching | covid19_SEIR.py:602 | exactly the indices whose deaths reach D0, in increasing order |
| FirstDeath.IndexD0 | covid19_SEIR.py:601-604 | there is an index exactly for a non-empty series, and it is a day of the series |
| FirstDeath.IndexD0Spec | covid19_SEIR.py:601-604 | defined exactly for a non-empty series; the first day reaching D0 when one does, and day 0 otherwise |
| FirstDeath.ThresholdStaysReached | covid19_SEIR.py:601-604 | for non-decreasing cumulative deaths, every day from index_D0 on has reached D0 |
| Cells.ParseInt | covid19_SEIR.py:419 | a cell is read exactly when it is ASCII digits with an optional leading sign, and every other cell ("", "-", "1a", "1.0") is rejected; a string of digits reads as its decimal value; a negative value needs a leading minus (the same int() reads the pyramid cells at line 468) |
| Cells.ParseDigits | covid19_SEIR.py:419 | a non-empty digit string reads as its value, and with a leading minus as the negated value |
| Cells.ParseShow | covid19_SEIR.py:419 | reading the decimal spelling of any integer gives the integer back |
| Pyramid.RowPopulation | covid19_SEIR.py:466-468 | a row adds nothing exactly when it is the header row; a data row is read only when both counts are present |
| Pyramid.Population | covid19_SEIR.py:466-468 | the read succeeds exactly when every row can be read, and holds at most one count per row |
| Pyramid.ReadPopulation | covid19_SEIR.py:466-468 | the loop returns the population list, or the first missing or unreadable cell |
| Pyramid.PopulationFailureSticks | covid19_SEIR.py:466-468 | a failure on a prefix of the rows is the result of the whole read |
| Pyramid.PopulationAppends | covid19_SEIR.py:466-468 | reading two blocks of rows gives the concatenation of their population lists |
| Pyramid.PopulationLength | covid19_SEIR.py:466-468 | a successful read holds one count per non-header row |
| Pyramid.FoldBrackets | covid19_SEIR.py:470-476 | fails exactly when there are fewer than 18 rows; otherwise bins 0-7 are pairs of rows and bin 8 is rows 16 and 17 plus the third- and second-to-last rows |
| Pyramid.PairSums | covid19_SEIR.py:472-474 | the first n bins hold the first 2n rows |
| Pyramid.FoldedTotal | covid19_SEIR.py:470-476 | the bins hold the first 18 rows plus the third- and second-to-last rows |
| Pyramid.LastRowDropped | covid19_SEIR.py:476 | with 21 rows the bins hold everybody except the last row |
| Pyramid.EighteenRowsCountTwice | covid19_SEIR.py:476 | with exactly 18 rows, rows 15 and 16 are counted twice |
| Pyramid.AgeWeights | covid19_SEIR.py:698 | one weight per bin; None when the population sums to zero |
| Pyramid.WeightsSumToOne | covid19_SEIR.py:698 | when the population does not sum to zero, the weights ni sum to one |
| Jhu.CellValue | covid19_SEIR.py:417-419 | an empty cell counts as 0; any other cell is read as int() reads it |
| Jhu.Aggregate | covid19_SEIR.py:402-421 | a successful read has a total for every returned date; a table without rows fails with `dates` unbound |
| Jhu.ZeroDates | covid19_SEIR.py:411-413 | the keys are the old keys plus the dates; every date maps to 0; other keys keep their values |
| Jhu.ResetDates | covid19_SEIR.py:411-413 | the loop computes ZeroDates |
| Jhu.AddColumns | covid19_SEIR.py:416-419 | a successful column loop keeps the set of keys |
| Jhu.AddRow | covid19_SEIR.py:416-419 | the column loop returns AddColumns over all dates, including its IndexError and ValueError cases |
| Jhu.StepRow | covid19_SEIR.py:408-419 | one row keeps every current date among the keys |
| Jhu.ScanRows | covid19_SEIR.py:408-419 | after any rows every current date is among the keys |
| Jhu.ReadJhuData | covid19_SEIR.py:408-421 | the loop returns Aggregate: (data, dates), or the first failure, including `dates` unbound |
| Jhu.ScanFailureSticks | covid19_SEIR.py:408-419 | a failure on a prefix of the rows is the result of the whole read |
| Jhu.ColumnFailureSticks | covid19_SEIR.py:416-419 | a failure in one pass of the column loop is the result of the row |
| Jhu.ScanExtends | covid19_SEIR.py:408-419 | row blocks with the same outcome stay interchangeable whatever rows follow |
| Jhu.OtherCountryRowIgnored | covid19_SEIR.py:414-415 | a data row of another country changes nothing, wherever it stands |
| Jhu.AddColumnsOk | covid19_SEIR.py:416-419 | the column loop succeeds on a row with a readable cell under every date |
| Jhu.AddColumnsAt | covid19_SEIR.py:416-419 | after n passes, date j holds its old total plus its cell if j < n, and its old total otherwise |
| Jhu.AddColumnsSpec | covid19_SEIR.py:416-419 | with distinct dates, the row adds each cell to its own date |
| Jhu.RowAddsColumns | covid19_SEIR.py:414-419 | a well-formed data row keeps every date's total equal to its column sum, now over one more row |
| Jhu.ColumnTotals | covid19_SEIR.py:408-419 | after a header with distinct dates and data rows (the country's with a readable cell under every date, any other with at least two cells), the keys are exactly the dates; each total is the sum of that date's column over the country's rows, empty cells counting 0 |

## Left out

- File, URL and CSV reading, plotting, `write_output`, the trajectory lists SS..DD and RRt, and the summary prints: these are I/O or diagnostics. The rows reach the model already split.
- Date conversion, the `np.interp`/`np.gradient` calibration of beta, and the Tunisia branch: these are library numerics. Each iteration's beta is the input `betaAt(it)`.
- `read_jhu_data_pandas`, the country table and its `sys.exit`, and `get_fatality_rate`: these are not part of this model.
- Floating-point rounding, overflow and non-negativity: quantities are exact reals.
- Impulse.KroneckerDelta: requires dt != 0, because Python's division by zero is not modelled.
- Cells.ParseInt: accepts only an optional sign and ASCII digits. Python's `int()` also accepts surrounding whitespace, underscores between digits and non-ASCII decimal digits.
- Integrator: the nine per-compartment vectors of the source are held as one array of per-bin records. Each bin's update reads and writes only its own bin, so the order of updates is the same.
- Pyramid.AgeWeights: returns None where the population sums to zero. numpy's division then gives nan or inf weights with a warning, and the run goes on; the model does not carry nan or inf.

## Findings

| source | as written | input that shows it | evidently intended | confidence | as-written member | corrected member |
|---|---|---|---|---|---|---|
| covid19_SEIR.py:699 | `S=(1-C-E-A-I-Q-H-R-F)*ni` with `I[4]=I0` takes only `I0*ni[4]` from S[4], so bin 4 totals ni[4] + I0*(1-ni[4]) | ni = 0.1 in every bin, I0 = 0.001: bin 4 totals 0.1009 | every bin starts with exactly its weight ni (S = ni - (C+E+A+I+Q+H+R+F)) | medium, not executed | Seir.SeedCounterexample | Integrator.CorrectedRunKeepsWeights |
