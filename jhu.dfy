/** The per-date totals of one country from a Johns Hopkins time-series
    table, `read_jhu_data` (covid19_SEIR.py:402-421), on rows already split
    by the CSV reader. A header row (first cell "Province/State") names the
    dates from its fifth cell on and resets their totals to 0; a row whose
    second cell is the country adds its cells, read from the fifth on, to
    the totals of the matching dates, an empty cell counting as 0. */
module Jhu {
  import opened Options
  import opened Cells

  const HEADER_TAG: string := "Province/State"

  /** The failures of the row loop: IndexError for a missing cell,
      UnboundLocalError when `dates` is used before any header row has set
      it, ValueError for a cell int() rejects. */
  datatype ReadError = IndexOutOfRange | DatesUnbound | NotAnInteger

  /** The loop's variables: the `data` dict and, once a header has been
      seen, `dates`. */
  datatype Scan = Scan(data: map<string, int>, dates: Option<seq<string>>)

  /** Every date of the current header has an entry in `data`. */
  predicate Consistent(st: Scan)
  {
    st.dates.Some? ==> forall d :: d in st.dates.value ==> d in st.data
  }

  /** row[4:len(row)], empty for a row of four cells or fewer. */
  function Slice4(row: seq<string>): seq<string>
  {
    if |row| <= 4 then [] else row[4..]
  }

  /** data[dates[i]] = 0 for the dates in order. */
  function ZeroDates(data: map<string, int>, dates: seq<string>): (r: map<string, int>)
    ensures forall k :: k in r <==> k in data || k in dates
    ensures forall d :: d in dates ==> r[d] == 0
    ensures forall k :: k in data && k !in dates ==> r[k] == data[k]
  {
    if |dates| == 0 then data
    else
      var init := dates[..|dates| - 1];
      assert forall d :: d in dates <==> d in init || d == dates[|dates| - 1];
      ZeroDates(data, init)[dates[|dates| - 1] := 0]
  }

  /** The value a cell adds: an empty cell is replaced by "0" first. */
  function CellValue(cell: string): (r: Option<int>)
    ensures cell == "" ==> r == Some(0)
    ensures cell != "" ==> r == ParseInt(cell)
  {
    if cell == "" then ParseDigits("0"); ParseInt("0") else ParseInt(cell)
  }

  /** The first `n` passes of the column loop over a row of the country,
      or the first failure. */
  function AddColumns(data: map<string, int>, dates: seq<string>, row: seq<string>, n: nat): (r: Result<map<string, int>, ReadError>)
    requires n <= |dates| && forall d :: d in dates ==> d in data
    ensures r.Ok? ==> forall k :: k in r.value <==> k in data
  {
    if n == 0 then Ok(data)
    else
      match AddColumns(data, dates, row, n - 1)
      case Err(e) => Err(e)
      case Ok(m) =>
        if n + 3 >= |row| then Err(IndexOutOfRange)
        else
          match CellValue(row[n + 3])
          case None => Err(NotAnInteger)
          case Some(v) => Ok(m[dates[n - 1] := m[dates[n - 1]] + v])
  }

  /** One pass of the row loop (covid19_SEIR.py:408-419). */
  function StepRow(st: Scan, row: seq<string>, country: string): (r: Result<Scan, ReadError>)
    requires Consistent(st)
    ensures r.Ok? ==> Consistent(r.value)
  {
    if |row| == 0 then Err(IndexOutOfRange)
    else if row[0] == HEADER_TAG then
      var dates := Slice4(row);
      Ok(Scan(ZeroDates(st.data, dates), Some(dates)))
    else if |row| < 2 then Err(IndexOutOfRange)
    else if row[1] != country then Ok(st)
    else if st.dates.None? then Err(DatesUnbound)
    else
      match AddColumns(st.data, st.dates.value, row, |st.dates.value|)
      case Err(e) => Err(e)
      case Ok(m) => Ok(Scan(m, st.dates))
  }

  /** The loop variables after the rows, or the first failure. */
  function ScanRows(rows: seq<seq<string>>, country: string): (r: Result<Scan, ReadError>)
    ensures r.Ok? ==> Consistent(r.value)
  {
    if |rows| == 0 then Ok(Scan(map[], None))
    else
      match ScanRows(rows[..|rows| - 1], country)
      case Err(e) => Err(e)
      case Ok(st) => StepRow(st, rows[|rows| - 1], country)
  }

  /** What `read_jhu_data` returns: (data, dates), or the failure; returning
      `dates` when no header was seen fails too. */
  function Aggregate(rows: seq<seq<string>>, country: string): (r: Result<(map<string, int>, seq<string>), ReadError>)
    ensures r.Ok? ==> forall d :: d in r.value.1 ==> d in r.value.0
    ensures |rows| == 0 ==> r == Err(DatesUnbound)
  {
    match ScanRows(rows, country)
    case Err(e) => Err(e)
    case Ok(st) => if st.dates.None? then Err(DatesUnbound) else Ok((st.data, st.dates.value))
  }

  /** A failure on a prefix of the rows is the failure of the whole read. */
  lemma {:induction false} ScanFailureSticks(rows: seq<seq<string>>, country: string, k: nat)
    requires k <= |rows| && ScanRows(rows[..k], country).Err?
    ensures ScanRows(rows, country) == ScanRows(rows[..k], country)
    decreases |rows| - k
  {
    if k < |rows| {
      assert rows[..k + 1][..k] == rows[..k];
      ScanFailureSticks(rows, country, k + 1);
    } else {
      assert rows[..k] == rows;
    }
  }

  /** A failure in a pass of the column loop is the failure of the row. */
  lemma {:induction false} ColumnFailureSticks(data: map<string, int>, dates: seq<string>, row: seq<string>, n: nat)
    requires n <= |dates| && forall d :: d in dates ==> d in data
    requires AddColumns(data, dates, row, n).Err?
    ensures AddColumns(data, dates, row, |dates|) == AddColumns(data, dates, row, n)
    decreases |dates| - n
  {
    if n < |dates| {
      ColumnFailureSticks(data, dates, row, n + 1);
    }
  }

  /** The loop that sets every date of a header row to 0
      (covid19_SEIR.py:410-412). */
  method ResetDates(data: map<string, int>, header: seq<string>) returns (r: map<string, int>)
    ensures r == ZeroDates(data, header)
  {
    r := data;
    for i := 0 to |header|
      invariant r == ZeroDates(data, header[..i])
    {
      ghost var grown := header[..i + 1];
      assert grown[..i] == header[..i] && grown[i] == header[i];
      assert ZeroDates(data, grown) == ZeroDates(data, header[..i])[header[i] := 0];
      r := r[header[i] := 0];
    }
    assert header[..|header|] == header;
  }

  /** The column loop over a row of the country (covid19_SEIR.py:416-419). */
  method AddRow(data: map<string, int>, dates: seq<string>, row: seq<string>)
    returns (r: Result<map<string, int>, ReadError>)
    requires forall d :: d in dates ==> d in data
    ensures r == AddColumns(data, dates, row, |dates|)
  {
    var m := data;
    for i := 0 to |dates|
      invariant AddColumns(data, dates, row, i) == Ok(m)
    {
      if i + 4 >= |row| {
        ColumnFailureSticks(data, dates, row, i + 1);
        return Err(IndexOutOfRange);
      }
      var v := CellValue(row[i + 4]);
      if v.None? {
        ColumnFailureSticks(data, dates, row, i + 1);
        return Err(NotAnInteger);
      }
      assert dates[i] in m;
      m := m[dates[i] := m[dates[i]] + v.value];
    }
    return Ok(m);
  }

  /** The row loop (covid19_SEIR.py:408-421). */
  method ReadJhuData(rows: seq<seq<string>>, country: string)
    returns (r: Result<(map<string, int>, seq<string>), ReadError>)
    ensures r == Aggregate(rows, country)
  {
    var data: map<string, int> := map[];
    var dates: Option<seq<string>> := None;
    for k := 0 to |rows|
      invariant ScanRows(rows[..k], country) == Ok(Scan(data, dates))
    {
      assert rows[..k + 1][..k] == rows[..k];
      assert rows[..k + 1][k] == rows[k];
      var row := rows[k];
      if |row| == 0 {
        ScanFailureSticks(rows, country, k + 1);
        return Err(IndexOutOfRange);
      }
      if row[0] == HEADER_TAG {
        var header := Slice4(row);
        data := ResetDates(data, header);
        dates := Some(header);
      } else {
        if |row| < 2 {
          ScanFailureSticks(rows, country, k + 1);
          return Err(IndexOutOfRange);
        }
        if row[1] == country {
          if dates.None? {
            ScanFailureSticks(rows, country, k + 1);
            return Err(DatesUnbound);
          }
          var added := AddRow(data, dates.value, row);
          if added.Err? {
            ScanFailureSticks(rows, country, k + 1);
            return Err(added.error);
          }
          data := added.value;
        }
      }
    }
    assert rows[..|rows|] == rows;
    if dates.None? {
      return Err(DatesUnbound);
    }
    return Ok((data, dates.value));
  }

  /** Rows with the same outcome stay interchangeable whatever follows. */
  lemma {:induction false} ScanExtends(a: seq<seq<string>>, b: seq<seq<string>>, rest: seq<seq<string>>, country: string)
    requires ScanRows(a, country) == ScanRows(b, country)
    ensures ScanRows(a + rest, country) == ScanRows(b + rest, country)
    decreases |rest|
  {
    if |rest| == 0 {
      assert a + rest == a && b + rest == b;
    } else {
      var init := rest[..|rest| - 1];
      ScanExtends(a, b, init, country);
      assert (a + rest)[..|a + rest| - 1] == a + init;
      assert (b + rest)[..|b + rest| - 1] == b + init;
      assert (a + rest)[|a + rest| - 1] == rest[|rest| - 1] == (b + rest)[|b + rest| - 1];
    }
  }

  /** A data row of another country changes nothing, wherever it stands. */
  lemma OtherCountryRowIgnored(a: seq<seq<string>>, row: seq<string>, rest: seq<seq<string>>, country: string)
    requires |row| >= 2 && row[0] != HEADER_TAG && row[1] != country
    ensures ScanRows(a + [row] + rest, country) == ScanRows(a + rest, country)
  {
    assert (a + [row])[..|a + [row]| - 1] == a;
    ScanExtends(a + [row], a, rest, country);
  }

  /** A data row that, when it is one of the country's, has a readable cell
      under each of the first `n` dates; a row of another country needs
      only the two cells the loop looks at. */
  predicate WellFormed(row: seq<string>, country: string, n: nat)
  {
    |row| >= 2 && row[0] != HEADER_TAG &&
    (row[1] == country ==> |row| >= 4 + n && forall j :: 4 <= j < 4 + n ==> CellValue(row[j]).Some?)
  }

  /** What column `j` of the dates holds in a row of the country, and 0 in
      any other row. */
  function CountryCell(row: seq<string>, country: string, j: nat): int
  {
    if |row| > j + 4 && row[1] == country then
      match CellValue(row[j + 4])
      case Some(v) => v
      case None => 0
    else 0
  }

  /** The sum of column `j` of the dates over the rows of the country. */
  function ColumnTotal(body: seq<seq<string>>, country: string, j: nat): int
  {
    if |body| == 0 then 0
    else ColumnTotal(body[..|body| - 1], country, j) + CountryCell(body[|body| - 1], country, j)
  }

  /** The column loop succeeds on a row with a readable cell for every date. */
  lemma {:induction false} AddColumnsOk(data: map<string, int>, dates: seq<string>, row: seq<string>, vals: seq<int>, n: nat)
    requires n <= |dates| == |vals| && forall d :: d in dates ==> d in data
    requires |row| >= 4 + |dates| && forall j :: 0 <= j < |dates| ==> CellValue(row[j + 4]) == Some(vals[j])
    ensures AddColumns(data, dates, row, n).Ok?
  {
    if n > 0 {
      AddColumnsOk(data, dates, row, vals, n - 1);
      assert CellValue(row[n + 3]) == Some(vals[n - 1]);
    }
  }

  /** After `n` passes, date `j` holds its old total plus its cell when it
      is among the first `n` dates, and its old total otherwise. */
  lemma {:induction false} AddColumnsAt(data: map<string, int>, dates: seq<string>, row: seq<string>, vals: seq<int>, n: nat, j: nat)
    requires n <= |dates| == |vals| && j < |dates| && forall d :: d in dates ==> d in data
    requires forall i, k :: 0 <= i < k < |dates| ==> dates[i] != dates[k]
    requires |row| >= 4 + |dates| && forall i :: 0 <= i < |dates| ==> CellValue(row[i + 4]) == Some(vals[i])
    ensures AddColumns(data, dates, row, n).Ok?
    ensures AddColumns(data, dates, row, n).value[dates[j]] == data[dates[j]] + (if j < n then vals[j] else 0)
  {
    AddColumnsOk(data, dates, row, vals, n);
    if n > 0 {
      AddColumnsAt(data, dates, row, vals, n - 1, j);
      var m := AddColumns(data, dates, row, n - 1).value;
      var d := dates[n - 1];
      assert CellValue(row[n + 3]) == Some(vals[n - 1]);
      assert AddColumns(data, dates, row, n) == Ok(m[d := m[d] + vals[n - 1]]);
      if j < n - 1 {
        assert dates[j] != d;
      } else if j > n - 1 {
        assert d != dates[j];
      }
    }
  }

  /** The column loop over a well-formed row adds each cell to its own date
      when the dates are distinct. */
  lemma AddColumnsSpec(data: map<string, int>, dates: seq<string>, row: seq<string>, vals: seq<int>)
    requires |dates| == |vals| && forall d :: d in dates ==> d in data
    requires forall i, j :: 0 <= i < j < |dates| ==> dates[i] != dates[j]
    requires |row| >= 4 + |dates| && forall j :: 0 <= j < |dates| ==> CellValue(row[j + 4]) == Some(vals[j])
    ensures AddColumns(data, dates, row, |dates|).Ok?
    ensures forall j :: 0 <= j < |dates| ==>
              AddColumns(data, dates, row, |dates|).value[dates[j]] == data[dates[j]] + vals[j]
  {
    AddColumnsOk(data, dates, row, vals, |dates|);
    forall j | 0 <= j < |dates|
      ensures AddColumns(data, dates, row, |dates|).value[dates[j]] == data[dates[j]] + vals[j]
    {
      AddColumnsAt(data, dates, row, vals, |dates|, j);
    }
  }

  /** The keys are the dates and the total of each date is the sum of its
      column over the rows of the country. */
  ghost predicate HoldsColumnTotals(st: Scan, dates: seq<string>, body: seq<seq<string>>, country: string)
  {
    st.dates == Some(dates) && (forall k :: k in st.data <==> k in dates) &&
    forall j :: 0 <= j < |dates| ==> st.data[dates[j]] == ColumnTotal(body, country, j)
  }

  /** A well-formed data row keeps the column totals, now over one more row. */
  lemma RowAddsColumns(st: Scan, dates: seq<string>, init: seq<seq<string>>, last: seq<string>, country: string)
    requires forall i, j :: 0 <= i < j < |dates| ==> dates[i] != dates[j]
    requires forall i :: 0 <= i < |init| ==> WellFormed(init[i], country, |dates|)
    requires WellFormed(last, country, |dates|)
    requires HoldsColumnTotals(st, dates, init, country)
    ensures Consistent(st) && StepRow(st, last, country).Ok?
    ensures HoldsColumnTotals(StepRow(st, last, country).value, dates, init + [last], country)
  {
    var body := init + [last];
    assert body[..|body| - 1] == init && body[|body| - 1] == last;
    if last[1] == country {
      var vals := seq(|dates|, j requires 0 <= j < |dates| => CellValue(last[j + 4]).value);
      AddColumnsSpec(st.data, dates, last, vals);
    }
    var st' := StepRow(st, last, country).value;
    forall j | 0 <= j < |dates|
      ensures st'.data[dates[j]] == ColumnTotal(body, country, j)
    {
      assert ColumnTotal(body, country, j) == ColumnTotal(init, country, j) + CountryCell(last, country, j);
    }
  }

  /** Under one header with distinct dates, followed by well-formed data
      rows, each date's total is the sum of its column over the rows of the
      country, and the dates are exactly the keys. */
  lemma {:induction false} ColumnTotals(header: seq<string>, body: seq<seq<string>>, country: string)
    requires |header| > 0 && header[0] == HEADER_TAG
    requires forall i, j :: 0 <= i < j < |Slice4(header)| ==> Slice4(header)[i] != Slice4(header)[j]
    requires forall i :: 0 <= i < |body| ==> WellFormed(body[i], country, |Slice4(header)|)
    ensures ScanRows([header] + body, country).Ok?
    ensures HoldsColumnTotals(ScanRows([header] + body, country).value, Slice4(header), body, country)
    decreases |body|
  {
    var dates := Slice4(header);
    if |body| == 0 {
      assert [header] + body == [header];
      assert [header][..0] == [];
    } else {
      var init, last := body[..|body| - 1], body[|body| - 1];
      assert init + [last] == body;
      ColumnTotals(header, init, country);
      assert ([header] + body)[..|[header] + body| - 1] == [header] + init;
      assert ([header] + body)[|[header] + body| - 1] == last;
      var st := ScanRows([header] + init, country).value;
      RowAddsColumns(st, dates, init, last, country);
    }
  }
}
