/** The age pyramid of a country, `read_population_pyramid_data`
    (covid19_SEIR.py:451-478), on rows already split by the CSV reader: one
    count per five-year row, folded into the nine ten-year age bins, and
    the bin weights ni = age/N the integration starts from (594, 698). */
module Pyramid {
  import opened Options
  import opened Sums
  import opened Cells

  /** The failures of the row loop: IndexError for a missing cell, ValueError
      for a cell int() rejects. */
  datatype PyramidError = MissingCell | NotAnInteger

  const AGE_HEADER: string := "Age"

  /** What one row adds to the population list (covid19_SEIR.py:466-468):
      nothing for the header row, male + female otherwise. Cells are read
      left to right, so row[1] is parsed before row[2] is looked up. */
  function RowPopulation(row: seq<string>): (r: Result<Option<int>, PyramidError>)
    ensures r == Ok(None) <==> |row| > 0 && row[0] == AGE_HEADER
    ensures r.Ok? ==> |row| > 0 && (row[0] != AGE_HEADER ==> |row| >= 3)
  {
    if |row| == 0 then Err(MissingCell)
    else if row[0] == AGE_HEADER then Ok(None)
    else if |row| < 2 then Err(MissingCell)
    else if ParseInt(row[1]).None? then Err(NotAnInteger)
    else if |row| < 3 then Err(MissingCell)
    else if ParseInt(row[2]).None? then Err(NotAnInteger)
    else Ok(Some(ParseInt(row[1]).value + ParseInt(row[2]).value))
  }

  /** The population list after the rows, or the first failure. */
  function Population(rows: seq<seq<string>>): (r: Result<seq<int>, PyramidError>)
    ensures r.Ok? <==> forall i :: 0 <= i < |rows| ==> RowPopulation(rows[i]).Ok?
    ensures r.Ok? ==> |r.value| <= |rows|
  {
    if |rows| == 0 then Ok([])
    else
      assert forall i :: 0 <= i < |rows| - 1 ==> rows[..|rows| - 1][i] == rows[i];
      match Population(rows[..|rows| - 1])
      case Err(e) => Err(e)
      case Ok(p) =>
        match RowPopulation(rows[|rows| - 1])
        case Err(e) => Err(e)
        case Ok(None) => Ok(p)
        case Ok(Some(v)) => Ok(p + [v])
  }

  /** The row loop of covid19_SEIR.py:465-468. */
  method ReadPopulation(rows: seq<seq<string>>) returns (r: Result<seq<int>, PyramidError>)
    ensures r == Population(rows)
  {
    var population: seq<int> := [];
    for k := 0 to |rows|
      invariant Population(rows[..k]) == Ok(population)
    {
      assert rows[..k + 1][..k] == rows[..k];
      var row := rows[k];
      var cell := RowPopulation(row);
      if cell.Err? {
        PopulationFailureSticks(rows, k + 1);
        assert rows[..k + 1] == rows[..k] + [row];
        return Err(cell.error);
      }
      if cell.value.Some? {
        population := population + [cell.value.value];
      }
    }
    assert rows[..|rows|] == rows;
    return Ok(population);
  }

  /** A failure on a prefix of the rows is the failure of the whole read. */
  lemma {:induction false} PopulationFailureSticks(rows: seq<seq<string>>, k: nat)
    requires k <= |rows| && Population(rows[..k]).Err?
    ensures Population(rows) == Population(rows[..k])
    decreases |rows| - k
  {
    if k < |rows| {
      assert rows[..k + 1][..k] == rows[..k];
      PopulationFailureSticks(rows, k + 1);
    } else {
      assert rows[..k] == rows;
    }
  }

  /** Reading two blocks of rows one after the other gives the two
      population lists one after the other. */
  lemma {:induction false} PopulationAppends(a: seq<seq<string>>, b: seq<seq<string>>)
    requires Population(a).Ok? && Population(b).Ok?
    ensures Population(a + b) == Ok(Population(a).value + Population(b).value)
    decreases |b|
  {
    if |b| == 0 {
      assert a + b == a;
      assert Population(a).value + [] == Population(a).value;
    } else {
      var b' := b[..|b| - 1];
      assert (a + b)[..|a + b| - 1] == a + b';
      assert Population(b').Ok?;
      PopulationAppends(a, b');
      assert (a + b)[|a + b| - 1] == b[|b| - 1];
      var pa, pb' := Population(a).value, Population(b').value;
      match RowPopulation(b[|b| - 1])
      case Err(_) =>
      case Ok(None) =>
      case Ok(Some(v)) =>
        assert pa + (pb' + [v]) == (pa + pb') + [v];
    }
  }

  /** The rows that are not the header. */
  function DataRows(rows: seq<seq<string>>): nat
  {
    if |rows| == 0 then 0
    else
      var last := rows[|rows| - 1];
      DataRows(rows[..|rows| - 1]) + (if |last| > 0 && last[0] != AGE_HEADER then 1 else 0)
  }

  /** A successful read holds one count per non-header row. */
  lemma {:induction false} PopulationLength(rows: seq<seq<string>>)
    requires Population(rows).Ok?
    ensures |Population(rows).value| == DataRows(rows)
  {
    if |rows| > 0 {
      PopulationLength(rows[..|rows| - 1]);
    }
  }

  /** The nine ten-year bins of covid19_SEIR.py:470-476: one bin per pair of
      five-year rows, and bin 8 also gets the slice pop[len-3:len-1], the
      third- and second-to-last rows. */
  predicate Folded(pop: seq<int>, b: seq<int>)
  {
    |pop| >= 18 && |b| == 9 &&
    (forall i :: 0 <= i < 8 ==> b[i] == pop[2 * i] + pop[2 * i + 1]) &&
    b[8] == pop[16] + pop[17] + pop[|pop| - 3] + pop[|pop| - 2]
  }

  /** The bracket loop; None where pop[2*i+1] is out of range. */
  method FoldBrackets(pop: seq<int>) returns (r: Option<seq<int>>)
    ensures r.None? <==> |pop| < 18
    ensures r.Some? ==> Folded(pop, r.value)
  {
    if |pop| < 18 {
      return None;
    }
    var brackets := new int[9](_ => 0);
    for i := 0 to 9
      invariant forall k :: 0 <= k < i ==> brackets[k] == pop[2 * k] + pop[2 * k + 1]
    {
      brackets[i] := pop[2 * i] + pop[2 * i + 1];
    }
    var tail := pop[|pop| - 3..|pop| - 1];
    assert SumInt(tail) == pop[|pop| - 3] + pop[|pop| - 2] by {
      SumIntPrefixStep(tail, 0);
      SumIntPrefixStep(tail, 1);
      assert tail[..0] == [] && tail[..2] == tail;
    }
    brackets[8] := brackets[8] + SumInt(tail);
    return Some(brackets[..]);
  }

  /** The first n bins hold the first 2n rows. */
  lemma {:induction false} PairSums(pop: seq<int>, b: seq<int>, n: nat)
    requires Folded(pop, b) && n <= 8
    ensures SumInt(b[..n]) == SumInt(pop[..2 * n])
  {
    if n > 0 {
      PairSums(pop, b, n - 1);
      SumIntPrefixStep(b, n - 1);
      SumIntPrefixStep(pop, 2 * n - 2);
      SumIntPrefixStep(pop, 2 * n - 1);
    }
  }

  /** The bins hold the first 18 rows plus the third- and second-to-last. */
  lemma FoldedTotal(pop: seq<int>, b: seq<int>)
    requires Folded(pop, b)
    ensures SumInt(b) == SumInt(pop[..18]) + pop[|pop| - 3] + pop[|pop| - 2]
  {
    PairSums(pop, b, 8);
    SumIntPrefixStep(b, 8);
    SumIntPrefixStep(pop, 16);
    SumIntPrefixStep(pop, 17);
    assert b[..9] == b;
  }

  /** With the 21 rows 0-4, ..., 95-99, 100+, the bins cover everybody
      except the 100+ row. */
  lemma LastRowDropped(pop: seq<int>, b: seq<int>)
    requires Folded(pop, b) && |pop| == 21
    ensures SumInt(b) == SumInt(pop) - pop[20]
  {
    FoldedTotal(pop, b);
    SumIntPrefixStep(pop, 18);
    SumIntPrefixStep(pop, 19);
    SumIntPrefixStep(pop, 20);
    assert pop[..21] == pop;
  }

  /** With exactly 18 rows the slice re-adds rows 15 and 16. */
  lemma EighteenRowsCountTwice(pop: seq<int>, b: seq<int>)
    requires Folded(pop, b) && |pop| == 18
    ensures SumInt(b) == SumInt(pop) + pop[15] + pop[16]
  {
    FoldedTotal(pop, b);
    assert pop[..18] == pop;
  }

  /** The bin weights ni = age/N with N = sum(age) (covid19_SEIR.py:594,
      698); None where N is zero, where numpy's division yields nan or inf
      weights (with a warning) instead of numbers. */
  function AgeWeights(b: seq<int>): (w: Option<seq<real>>)
    ensures w.Some? ==> |w.value| == |b|
  {
    var n := SumInt(b);
    if n == 0 then None else Some(seq(|b|, i requires 0 <= i < |b| => b[i] as real / n as real))
  }

  lemma {:induction false} ScaledSum(b: seq<int>, d: real)
    requires d != 0.0
    ensures Sum(seq(|b|, i requires 0 <= i < |b| => b[i] as real / d)) == SumInt(b) as real / d
  {
    if |b| > 0 {
      var s := seq(|b|, i requires 0 <= i < |b| => b[i] as real / d);
      var init := b[..|b| - 1];
      ScaledSum(init, d);
      assert s[..|s| - 1] == seq(|init|, i requires 0 <= i < |init| => init[i] as real / d);
      assert SumInt(init) as real / d + b[|b| - 1] as real / d == (SumInt(init) + b[|b| - 1]) as real / d;
    }
  }

  /** The weights, whenever N is not zero, sum to one. */
  lemma WeightsSumToOne(b: seq<int>)
    requires AgeWeights(b).Some?
    ensures Sum(AgeWeights(b).value) == 1.0
  {
    var n := SumInt(b) as real;
    ScaledSum(b, n);
    assert AgeWeights(b).value == seq(|b|, i requires 0 <= i < |b| => b[i] as real / n);
    assert n / n == 1.0;
  }
}
