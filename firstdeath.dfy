/** The day the integration starts from, `index_D0` in `select_country`
    (covid19_SEIR.py:601-604): the first day whose cumulative death count
    reaches the threshold D0, or day 0 when no day does. */
module FirstDeath {
  import opened Options

  /** The largest element, numpy's `max` on a non-empty array. */
  function Max(s: seq<real>): (m: real)
    requires |s| > 0
    ensures forall i :: 0 <= i < |s| ==> s[i] <= m
    ensures exists i :: 0 <= i < |s| && s[i] == m
  {
    if |s| == 1 then s[0]
    else
      var rest := Max(s[..|s| - 1]);
      assert forall i :: 0 <= i < |s| - 1 ==> s[..|s| - 1][i] == s[i];
      if s[|s| - 1] > rest then s[|s| - 1] else rest
  }

  /** The list comprehension [i for i in range(lo, len(deaths)) if
      deaths[i] >= d0]: the matching indices in increasing order. */
  function Matching(deaths: seq<real>, d0: real, lo: nat): (r: seq<nat>)
    requires lo <= |deaths|
    ensures forall k :: 0 <= k < |r| ==> lo <= r[k] < |deaths| && deaths[r[k]] >= d0
    ensures forall i :: lo <= i < |deaths| && deaths[i] >= d0 ==> i in r
    ensures forall k, l :: 0 <= k < l < |r| ==> r[k] < r[l]
    decreases |deaths| - lo
  {
    if lo == |deaths| then []
    else if deaths[lo] >= d0 then [lo] + Matching(deaths, d0, lo + 1)
    else Matching(deaths, d0, lo + 1)
  }

  /** `index_D0`, with None where numpy's max of an empty array raises. */
  function IndexD0(deaths: seq<real>, d0: real): (r: Option<nat>)
    ensures r.None? <==> |deaths| == 0
    ensures r.Some? ==> r.value < |deaths|
  {
    if |deaths| == 0 then None
    else if Max(deaths) >= d0 then
      var hits := Matching(deaths, d0, 0);
      assert |hits| > 0 by {
        var i :| 0 <= i < |deaths| && deaths[i] == Max(deaths);
        assert i in hits;
      }
      Some(hits[0])
    else Some(0)
  }

  /** There is an index exactly for a non-empty series; when some day reaches
      D0 it is the first such day, and otherwise it is day 0. */
  lemma IndexD0Spec(deaths: seq<real>, d0: real)
    ensures IndexD0(deaths, d0).None? <==> |deaths| == 0
    ensures IndexD0(deaths, d0).Some? ==> IndexD0(deaths, d0).value < |deaths|
    ensures (exists i :: 0 <= i < |deaths| && deaths[i] >= d0) ==>
              var k := IndexD0(deaths, d0).value;
              deaths[k] >= d0 && forall j :: 0 <= j < k ==> deaths[j] < d0
    ensures |deaths| > 0 && (forall i :: 0 <= i < |deaths| ==> deaths[i] < d0) ==>
              IndexD0(deaths, d0) == Some(0)
  {
    if |deaths| > 0 && Max(deaths) >= d0 {
      var hits := Matching(deaths, d0, 0);
      assert forall j :: 0 <= j < hits[0] ==> j !in hits;
    }
  }

  /** For cumulative counts, which never decrease, every day from `index_D0`
      on has reached D0. */
  lemma ThresholdStaysReached(deaths: seq<real>, d0: real)
    requires forall i, j :: 0 <= i <= j < |deaths| ==> deaths[i] <= deaths[j]
    requires exists i :: 0 <= i < |deaths| && deaths[i] >= d0
    ensures forall j :: IndexD0(deaths, d0).value <= j < |deaths| ==> deaths[j] >= d0
  {
    IndexD0Spec(deaths, d0);
  }
}
