/**
 * The ICE futures repository: it loads the Coffee C futures page (retrying
 * with exponential back-off), reads each row of the data table into a futures
 * record, orders the records by contract month, fills in the change from the
 * previous record, and summarises the prices.
 *
 * The page itself is abstracted: a page load yields either HTML or an error,
 * and `tableOf` stands for the DOM query that finds the `.table-bigdata`
 * table and the cells of its body rows.
 */
module IceFutures {
  import opened Wrappers
  import opened JsRuntime
  import opened AppErrors
  import opened IceFuturesEntity

  const BaseUrl := "https://www.ice.com/products/15/Coffee-C-Futures/data"
  const MaxRetries := 3

  // ---------------------------------------------------------------------------
  // Contract codes: /([A-Za-z]{3}\d{2})/
  // ---------------------------------------------------------------------------

  /** Three ASCII letters and two digits start at `i`. */
  predicate ContractAt(s: string, i: int) {
    && 0 <= i && i + 5 <= |s|
    && IsAsciiLetter(s[i]) && IsAsciiLetter(s[i + 1]) && IsAsciiLetter(s[i + 2])
    && IsDigit(s[i + 3]) && IsDigit(s[i + 4])
  }

  /** A contract code such as "Mar25". */
  predicate IsContract(c: string) {
    |c| == 5 && ContractAt(c, 0)
  }

  /** Where the leftmost match of the contract pattern at or after `from` starts. */
  function FindContract(s: string, from: nat): (r: Option<nat>)
    requires from <= |s|
    ensures r.Some? ==> from <= r.value && ContractAt(s, r.value)
    ensures r.Some? ==> forall j :: from <= j < r.value ==> !ContractAt(s, j)
    ensures r.None? ==> forall j :: from <= j ==> !ContractAt(s, j)
    decreases |s| - from
  {
    if from + 5 > |s| then None
    else if ContractAt(s, from) then Some(from)
    else FindContract(s, from + 1)
  }

  /** `text.match(/([A-Za-z]{3}\d{2})/)?.[1]`. */
  function MatchContract(text: string): (r: Option<string>)
    ensures r.Some? ==> IsContract(r.value) && Contains(text, r.value)
    ensures r.None? <==> forall j :: 0 <= j ==> !ContractAt(text, j)
  {
    match FindContract(text, 0)
    case None => None
    case Some(i) =>
      var c := text[i..i + 5];
      assert OccursAt(text, c, i);
      Some(c)
  }

  // ---------------------------------------------------------------------------
  // Contract months and years
  // ---------------------------------------------------------------------------

  /** The month table: "Jan" is 0 and "Dec" is 11, as `Date` counts months. */
  const MonthMap: map<string, int> := map[
    "Jan" := 0, "Feb" := 1, "Mar" := 2, "Apr" := 3, "May" := 4, "Jun" := 5,
    "Jul" := 6, "Aug" := 7, "Sep" := 8, "Oct" := 9, "Nov" := 10, "Dec" := 11]

  /** The month names in calendar order. */
  const MonthNames: seq<string> := ["Jan", "Feb", "Mar", "Apr", "May", "Jun", "Jul", "Aug", "Sep", "Oct", "Nov", "Dec"]

  /** The table maps exactly the twelve names, each to its position in the calendar. */
  lemma MonthMapMatchesCalendar()
    ensures MonthMap.Keys == set m | m in MonthNames
    ensures forall i :: 0 <= i < 12 ==> MonthMap[MonthNames[i]] == i
  {
  }

  datatype ContractDate = ContractDate(month: string, year: int, timestamp: int)

  /** The value of two decimal digits. */
  lemma TwoDigitParse(u: string)
    requires |u| == 2 && IsDigit(u[0]) && IsDigit(u[1])
    ensures ParseInt(u) == Some(10 * DigitValue(u[0]) + DigitValue(u[1]))
  {
    UnsignedSplit(u);
    TwoDigitRun(u);
    TwoDigitsValue(u);
    assert u[..2] == u;
    ParseIntOfUnsigned(u);
  }

  /** Both characters of a two-digit string belong to its leading run of digits. */
  lemma TwoDigitRun(u: string)
    requires |u| == 2 && IsDigit(u[0]) && IsDigit(u[1])
    ensures DigitRun(u) == 2
  {
    assert u[1..][1..] == [];
    assert DigitRun(u[1..]) == 1;
  }

  /** A two-digit string denotes ten times its first digit plus its second. */
  lemma TwoDigitsValue(u: string)
    requires |u| == 2 && IsDigit(u[0]) && IsDigit(u[1])
    ensures AllDigits(u) && DigitsValue(u) == 10 * DigitValue(u[0]) + DigitValue(u[1])
  {
    assert u[..1][..0] == [];
    assert DigitsValue(u[..1]) == DigitValue(u[0]);
  }

  /**
   * `parseContractDate(contract)`: the first three characters name the month,
   * the rest is the year within the century. `monthStart(year, month)` is
   * `new Date(year, month, 1).getTime()`, which depends on the host's time zone.
   */
  function ParseContractDate(contract: string, monthStart: (int, int) -> int): (r: Result<ContractDate, Thrown>)
    requires IsContract(contract)
    ensures r.Success? <==> contract[..3] in MonthMap
    ensures r.Failure? ==> r.error == PlainError("Invalid contract month: " + contract[..3])
    ensures r.Success? ==>
              && r.value.month == contract[..3]
              && r.value.year == 2000 + 10 * DigitValue(contract[3]) + DigitValue(contract[4])
              && 2000 <= r.value.year <= 2099
              && r.value.timestamp == monthStart(r.value.year, MonthMap[contract[..3]])
  {
    var monthStr := contract[..3];
    var yearStr := contract[3..];
    TwoDigitParse(yearStr);
    var year := 2000 + ParseInt(yearStr).value;
    if monthStr !in MonthMap then Failure(PlainError("Invalid contract month: " + monthStr))
    else Success(ContractDate(monthStr, year, monthStart(year, MonthMap[monthStr])))
  }

  // ---------------------------------------------------------------------------
  // Trade time: /(\d{1,2}\/\d{1,2}\/\d{4})\s*(\d{1,2}:\d{2}\s*[AP]M)/
  // ---------------------------------------------------------------------------

  /**
   * Where `\d{1,2}` starting at `i` and then the non-digit `c` end, if they
   * match there. Because `c` is not a digit, the two-digit reading is the only
   * one that can succeed when two digits are present, so backtracking never
   * finds a second match.
   */
  function DigitsThen(s: string, i: nat, c: char): (r: Option<nat>)
    requires !IsDigit(c)
    ensures r.Some? ==> i + 2 <= r.value <= i + 3 <= |s| + 1 && r.value <= |s| && s[r.value - 1] == c
    ensures r.Some? ==> AllDigits(s[i..r.value - 1])
  {
    if i < |s| && IsDigit(s[i]) then
      var k := if i + 1 < |s| && IsDigit(s[i + 1]) then 2 else 1;
      if i + k < |s| && s[i + k] == c then Some(i + k + 1) else None
    else None
  }

  /** Where `\s*` starting at `i` ends: it takes every whitespace character. */
  function SkipWhitespace(s: string, i: nat): (j: nat)
    requires i <= |s|
    ensures i <= j <= |s|
    ensures forall k :: i <= k < j ==> IsWhitespace(s[k])
    ensures j == |s| || !IsWhitespace(s[j])
    decreases |s| - i
  {
    if i < |s| && IsWhitespace(s[i]) then SkipWhitespace(s, i + 1) else i
  }

  predicate DigitsAt(s: string, i: nat, n: nat) {
    i + n <= |s| && AllDigits(s[i..i + n])
  }

  /** The two groups of the trade-time pattern when a match starts at `i`. */
  function DateTimeAt(s: string, i: nat): (r: Option<(string, string)>)
    ensures r.Some? ==> |r.value.0| >= 8 && |r.value.1| >= 6
    ensures r.Some? ==> r.value.1[|r.value.1| - 1] == 'M'
  {
    match DigitsThen(s, i, '/')
    case None => None
    case Some(a) =>
      match DigitsThen(s, a, '/')
      case None => None
      case Some(b) =>
        if !DigitsAt(s, b, 4) then None
        else
          var w := SkipWhitespace(s, b + 4);
          match DigitsThen(s, w, ':')
          case None => None
          case Some(h) =>
            if !DigitsAt(s, h, 2) then None
            else
              var e := SkipWhitespace(s, h + 2);
              if e + 2 <= |s| && (s[e] == 'A' || s[e] == 'P') && s[e + 1] == 'M' then
                assert i + 8 <= b + 4 && w + 6 <= e + 2;
                Some((s[i..b + 4], s[w..e + 2]))
              else None
  }

  /** Where the leftmost match of the trade-time pattern at or after `from` starts. */
  function FindDateTime(s: string, from: nat): (r: Option<nat>)
    requires from <= |s|
    ensures r.Some? ==> from <= r.value <= |s| && DateTimeAt(s, r.value).Some?
    ensures r.Some? ==> forall j :: from <= j < r.value ==> DateTimeAt(s, j).None?
    ensures r.None? ==> forall j :: from <= j <= |s| ==> DateTimeAt(s, j).None?
    decreases |s| - from
  {
    if DateTimeAt(s, from).Some? then Some(from)
    else if from == |s| then None
    else FindDateTime(s, from + 1)
  }

  /**
   * The date and time strings read from the trade-time text: both empty when
   * the text is empty, the two groups of the pattern when it matches, and
   * otherwise today's date with the whole text as the time.
   */
  function TimeFields(timeText: string, today: Date): (r: (string, string))
    ensures timeText == [] ==> r == ([], [])
    ensures timeText != [] ==> r.0 != [] && r.1 != []
    ensures timeText != [] && FindDateTime(timeText, 0).None? ==> r == (IsoDate(today), timeText)
    ensures timeText != [] && FindDateTime(timeText, 0).Some? ==> r == DateTimeAt(timeText, FindDateTime(timeText, 0).value).value
  {
    if timeText == [] then ([], [])
    else
      match FindDateTime(timeText, 0)
      case Some(i) => DateTimeAt(timeText, i).value
      case None => (IsoDate(today), timeText)
  }

  // ---------------------------------------------------------------------------
  // Rows
  // ---------------------------------------------------------------------------

  /** One body row of the table: the text of each `td`, and the text of the `span`s in the third. */
  datatype TableRow = TableRow(cells: seq<string>, timeSpanText: string)

  /** `$row.find("td").eq(k).text()`: empty when the row has fewer cells. */
  function CellText(row: TableRow, k: nat): string {
    if k < |row.cells| then row.cells[k] else ""
  }

  predicate NotComma(c: char) { c != ',' }

  /** `parseInt(text.replace(/,/g, "")) || 0`: NaN and zero both become 0. */
  function VolumeOf(text: string): (v: int)
    ensures ParseIntAutoRadix(Keep(text, NotComma)).Some? ==> v == ParseIntAutoRadix(Keep(text, NotComma)).value
    ensures ParseIntAutoRadix(Keep(text, NotComma)).None? ==> v == 0
  {
    match ParseIntAutoRadix(Keep(text, NotComma))
    case Some(n) => n
    case None => 0
  }

  /**
   * One row of the table as a futures record, or None when the row is skipped:
   * no contract code in the first cell, no number in the second, or a code
   * whose month is not in the table. `nowTime` is the `HH:MM:SS` of the clock.
   */
  function ParseRow(row: TableRow, today: Date, nowTime: string, monthStart: (int, int) -> int): (r: Option<IceFuturesData>)
    ensures r.Some? <==>
              && MatchContract(Trim(CellText(row, 0))).Some?
              && ParseFloat(Trim(CellText(row, 1))).Some?
              && MatchContract(Trim(CellText(row, 0))).value[..3] in MonthMap
    ensures r.Some? ==>
              var d := r.value;
              && d.contract == MatchContract(Trim(CellText(row, 0))).value
              && d.price == ParseFloat(Trim(CellText(row, 1))).value
              && d.high == d.price && d.low == d.price && d.settlement == d.price
              && d.change == 0.0 && d.openInterest == 0
              && d.volume == VolumeOf(Trim(CellText(row, 4)))
              && (ParseFloat(Trim(CellText(row, 3))).Some? ==> d.changePercent == ParseFloat(Trim(CellText(row, 3))).value)
              && (ParseFloat(Trim(CellText(row, 3))).None? ==> d.changePercent == 0.0)
              && d.contractMonth == d.contract[..3] && 2000 <= d.contractYear <= 2099
              && d.timestamp == monthStart(d.contractYear, MonthMap[d.contractMonth])
              && (Trim(row.timeSpanText) == [] ==> d.date == IsoDate(today) && d.time == nowTime)
              && (Trim(row.timeSpanText) != [] ==> (d.date, d.time) == TimeFields(Trim(row.timeSpanText), today))
  {
    var contractText := Trim(CellText(row, 0));
    match MatchContract(contractText)
    case None => None
    case Some(contract) =>
      match ParseFloat(Trim(CellText(row, 1)))
      case None => None
      case Some(price) =>
        var (dateStr, timeStr) := TimeFields(Trim(row.timeSpanText), today);
        var changePercent := ParseFloat(Trim(CellText(row, 3)));
        var volume := VolumeOf(Trim(CellText(row, 4)));
        match ParseContractDate(contract, monthStart)
        case Failure(_) => None
        case Success(info) =>
          Some(IceFuturesData(
            date := if dateStr == [] then IsoDate(today) else dateStr,
            time := if timeStr == [] then nowTime else timeStr,
            price := price,
            change := 0.0,
            changePercent := changePercent.GetOr(0.0),
            volume := volume,
            openInterest := 0,
            high := price,
            low := price,
            settlement := price,
            timestamp := info.timestamp,
            contract := contract,
            contractMonth := info.month,
            contractYear := info.year))
  }

  /** `ParseRow` with the clock readings and the month-start function fixed: the body of the `each` callback. */
  function RowParser(today: Date, nowTime: string, monthStart: (int, int) -> int): TableRow -> Option<IceFuturesData> {
    row => ParseRow(row, today, nowTime, monthStart)
  }

  /** The records `parse` yields for the rows, in row order; a skipped row leaves no record. */
  function ParsedRows(rows: seq<TableRow>, parse: TableRow -> Option<IceFuturesData>): (r: seq<IceFuturesData>)
    ensures |r| <= |rows|
  {
    if rows == [] then []
    else ParsedRows(rows[..|rows| - 1], parse) + RowRecord(parse(rows[|rows| - 1]))
  }

  /** Every record comes from a row of the table that parses to it. */
  lemma {:induction false} RecordsComeFromRows(rows: seq<TableRow>, parse: TableRow -> Option<IceFuturesData>)
    ensures forall d :: d in ParsedRows(rows, parse) ==> exists row :: row in rows && parse(row) == Some(d)
  {
    if rows != [] {
      var init := rows[..|rows| - 1];
      var last := rows[|rows| - 1];
      RecordsComeFromRows(init, parse);
      forall d | d in ParsedRows(rows, parse) ensures exists row :: row in rows && parse(row) == Some(d) {
        if d in ParsedRows(init, parse) {
          var row :| row in init && parse(row) == Some(d);
          assert row in rows;
        } else {
          assert parse(last) == Some(d) && last in rows;
        }
      }
    }
  }

  /** Every row that parses contributes its record. */
  lemma {:induction false} ParsedRowsAreRecorded(rows: seq<TableRow>, parse: TableRow -> Option<IceFuturesData>)
    ensures forall row :: row in rows && parse(row).Some? ==> parse(row).value in ParsedRows(rows, parse)
  {
    if rows != [] {
      var init := rows[..|rows| - 1];
      ParsedRowsAreRecorded(init, parse);
      forall row | row in rows && parse(row).Some? ensures parse(row).value in ParsedRows(rows, parse) {
        if row != rows[|rows| - 1] {
          assert row in init;
        }
      }
    }
  }

  /** The record a row contributes: none or one. */
  function RowRecord(parsed: Option<IceFuturesData>): (r: seq<IceFuturesData>)
    ensures parsed.None? ==> r == []
    ensures parsed.Some? ==> r == [parsed.value]
  {
    match parsed
    case None => []
    case Some(d) => [d]
  }

  // ---------------------------------------------------------------------------
  // Ordering by contract month: data.sort((a, b) => a.timestamp - b.timestamp)
  // ---------------------------------------------------------------------------

  predicate SortedByTimestamp(s: seq<IceFuturesData>) {
    forall i, j :: 0 <= i < j < |s| ==> s[i].timestamp <= s[j].timestamp
  }

  /** The records of `s` with timestamp `t`, in their order. */
  function WithTimestamp(s: seq<IceFuturesData>, t: int): seq<IceFuturesData> {
    if s == [] then []
    else (if s[0].timestamp == t then [s[0]] else []) + WithTimestamp(s[1..], t)
  }

  /** `x` placed after every record whose timestamp is not greater than its own. */
  function InsertByTimestamp(x: IceFuturesData, s: seq<IceFuturesData>): seq<IceFuturesData> {
    if s == [] then [x]
    else if x.timestamp < s[0].timestamp then [x] + s
    else [s[0]] + InsertByTimestamp(x, s[1..])
  }

  /**
   * The array's stable sort by timestamp, written as insertion of each record
   * in turn: records with equal timestamps keep their relative order.
   */
  function SortByTimestamp(s: seq<IceFuturesData>): seq<IceFuturesData> {
    if s == [] then []
    else InsertByTimestamp(s[|s| - 1], SortByTimestamp(s[..|s| - 1]))
  }

  lemma {:induction false} WithTimestampAppend(a: seq<IceFuturesData>, b: seq<IceFuturesData>, t: int)
    ensures WithTimestamp(a + b, t) == WithTimestamp(a, t) + WithTimestamp(b, t)
    decreases |a|
  {
    if a == [] {
      assert a + b == b;
    } else {
      var head := if a[0].timestamp == t then [a[0]] else [];
      assert (a + b)[1..] == a[1..] + b;
      assert WithTimestamp(a + b, t) == head + WithTimestamp(a[1..] + b, t);
      assert WithTimestamp(a, t) == head + WithTimestamp(a[1..], t);
      WithTimestampAppend(a[1..], b, t);
    }
  }

  /** Every timestamp in `s` is at least `t`. */
  predicate TimestampsFrom(t: int, s: seq<IceFuturesData>) {
    forall k :: 0 <= k < |s| ==> t <= s[k].timestamp
  }

  lemma {:induction false} InsertKeepsBound(t: int, x: IceFuturesData, s: seq<IceFuturesData>)
    requires TimestampsFrom(t, s) && t <= x.timestamp
    ensures TimestampsFrom(t, InsertByTimestamp(x, s))
    decreases |s|
  {
    if s != [] && x.timestamp >= s[0].timestamp {
      InsertKeepsBound(t, x, s[1..]);
      assert InsertByTimestamp(x, s) == [s[0]] + InsertByTimestamp(x, s[1..]);
    }
  }

  lemma {:induction false} InsertKeepsSorted(x: IceFuturesData, s: seq<IceFuturesData>)
    requires SortedByTimestamp(s)
    ensures SortedByTimestamp(InsertByTimestamp(x, s))
    decreases |s|
  {
    if s != [] && x.timestamp >= s[0].timestamp {
      var rest := InsertByTimestamp(x, s[1..]);
      InsertKeepsSorted(x, s[1..]);
      assert TimestampsFrom(s[0].timestamp, s[1..]);
      InsertKeepsBound(s[0].timestamp, x, s[1..]);
      var r := [s[0]] + rest;
      forall i, j | 0 <= i < j < |r| ensures r[i].timestamp <= r[j].timestamp {
        if i > 0 {
          assert r[i] == rest[i - 1] && r[j] == rest[j - 1];
        } else {
          assert r[j] == rest[j - 1];
        }
      }
    } else if s != [] {
      var r := [x] + s;
      forall i, j | 0 <= i < j < |r| ensures r[i].timestamp <= r[j].timestamp {
        if i > 0 {
          assert r[i] == s[i - 1] && r[j] == s[j - 1];
        } else {
          assert r[j] == s[j - 1];
        }
      }
    }
  }

  lemma {:induction false} InsertKeepsRecords(x: IceFuturesData, s: seq<IceFuturesData>)
    ensures multiset(InsertByTimestamp(x, s)) == multiset(s) + multiset{x}
    decreases |s|
  {
    if s != [] && x.timestamp >= s[0].timestamp {
      InsertKeepsRecords(x, s[1..]);
      assert s == [s[0]] + s[1..];
    }
  }

  /** Inserting `x` into a sorted sequence puts it after every record with its timestamp. */
  lemma {:induction false} InsertAfterEqual(x: IceFuturesData, s: seq<IceFuturesData>, t: int)
    requires SortedByTimestamp(s)
    ensures WithTimestamp(InsertByTimestamp(x, s), t) == WithTimestamp(s, t) + (if x.timestamp == t then [x] else [])
    decreases |s|
  {
    if s == [] {
      assert WithTimestamp([x], t) == (if x.timestamp == t then [x] else []) + WithTimestamp([], t) by {
        assert [x][1..] == [];
      }
    } else if x.timestamp < s[0].timestamp {
      assert ([x] + s)[1..] == s;
      if x.timestamp == t {
        AbsentTimestamp(s, t);
      }
    } else {
      var rest := InsertByTimestamp(x, s[1..]);
      InsertAfterEqual(x, s[1..], t);
      assert ([s[0]] + rest)[1..] == rest;
    }
  }

  /** A sorted sequence whose first timestamp exceeds `t` has no record with timestamp `t`. */
  lemma {:induction false} AbsentTimestamp(s: seq<IceFuturesData>, t: int)
    requires SortedByTimestamp(s) && (s == [] || s[0].timestamp > t)
    ensures WithTimestamp(s, t) == []
    decreases |s|
  {
    if s != [] {
      AbsentTimestamp(s[1..], t);
    }
  }

  /** The sort orders the records by timestamp. */
  lemma {:induction false} SortIsSorted(s: seq<IceFuturesData>)
    ensures SortedByTimestamp(SortByTimestamp(s))
    decreases |s|
  {
    if s != [] {
      SortIsSorted(s[..|s| - 1]);
      InsertKeepsSorted(s[|s| - 1], SortByTimestamp(s[..|s| - 1]));
    }
  }

  /** The sort keeps every record, as many times as it occurs. */
  lemma {:induction false} SortIsPermutation(s: seq<IceFuturesData>)
    ensures multiset(SortByTimestamp(s)) == multiset(s)
    decreases |s|
  {
    if s != [] {
      var init, x := s[..|s| - 1], s[|s| - 1];
      var sorted := SortByTimestamp(init);
      assert SortByTimestamp(s) == InsertByTimestamp(x, sorted);
      SortIsPermutation(init);
      InsertKeepsRecords(x, sorted);
      assert s == init + [x];
      assert multiset(s) == multiset(init) + multiset{x};
    }
  }

  /** The sort is stable: the records sharing a timestamp keep their relative order. */
  lemma {:induction false} SortIsStable(s: seq<IceFuturesData>, t: int)
    ensures WithTimestamp(SortByTimestamp(s), t) == WithTimestamp(s, t)
    decreases |s|
  {
    if s != [] {
      var init, x := s[..|s| - 1], s[|s| - 1];
      SortIsStable(init, t);
      SortIsSorted(init);
      InsertAfterEqual(x, SortByTimestamp(init), t);
      assert s == init + [x];
      WithTimestampAppend(init, [x], t);
      assert WithTimestamp([x], t) == (if x.timestamp == t then [x] else []) by {
        assert [x][1..] == [];
      }
    }
  }

  // ---------------------------------------------------------------------------
  // Change from the previous record
  // ---------------------------------------------------------------------------

  /** The record at `i` with `change` set from the price of the record before it, to three decimals. */
  function ChangedAt(s: seq<IceFuturesData>, i: nat): IceFuturesData
    requires 0 < i < |s|
  {
    s[i].(change := ToFixed(s[i].price - s[i - 1].price, 3))
  }

  /** The records after the change loop: every record but the first gets its change. */
  function WithChanges(s: seq<IceFuturesData>): (r: seq<IceFuturesData>)
    ensures |r| == |s|
  {
    seq(|s|, i requires 0 <= i < |s| => if i == 0 then s[0] else ChangedAt(s, i))
  }

  /**
   * The change loop alters nothing but `change`, and each change is the price
   * difference to the previous record, off by at most half a thousandth.
   */
  lemma ChangesFollowPrices(s: seq<IceFuturesData>)
    ensures forall i :: 0 <= i < |s| ==> WithChanges(s)[i] == s[i].(change := WithChanges(s)[i].change)
    ensures |s| > 0 ==> WithChanges(s)[0] == s[0]
    ensures forall i :: 0 < i < |s| ==>
              -0.5 <= (WithChanges(s)[i].change - (s[i].price - s[i - 1].price)) * 1000.0 <= 0.5
  {
    forall i | 0 < i < |s|
      ensures -0.5 <= (WithChanges(s)[i].change - (s[i].price - s[i - 1].price)) * 1000.0 <= 0.5
    {
      ToFixedClose(s[i].price - s[i - 1].price, 3);
      assert Pow10(3) == 1000;
    }
  }

  /** The records `parseTableData` returns for the rows of a table. */
  function ParsedTable(rows: seq<TableRow>, today: Date, nowTime: string, monthStart: (int, int) -> int): seq<IceFuturesData> {
    WithChanges(SortByTimestamp(ParsedRows(rows, RowParser(today, nowTime, monthStart))))
  }

  const TableNotFound := "No se encontró la tabla de datos de ICE"

  /**
   * `parseTableData(html)`, given the body rows of the data table (None when
   * the page has no `.table-bigdata` table).
   */
  method ParseTableData(table: Option<seq<TableRow>>, today: Date, nowTime: string, monthStart: (int, int) -> int)
    returns (r: Result<seq<IceFuturesData>, Thrown>)
    ensures table.None? ==> r == Failure(PlainError(TableNotFound))
    ensures table.Some? ==> r == Success(ParsedTable(table.value, today, nowTime, monthStart))
  {
    if table.None? {
      return Failure(PlainError(TableNotFound));
    }
    var data := CollectRows(table.value, today, nowTime, monthStart);
    var sorted := SortByTimestamp(data);
    var a := new IceFuturesData[|sorted|](k requires 0 <= k < |sorted| => sorted[k]);
    assert a[..] == sorted;
    FillChanges(a);
    return Success(a[..]);
  }

  /** The `each` over the body rows: every row that parses is pushed onto the records. */
  method CollectRows(rows: seq<TableRow>, today: Date, nowTime: string, monthStart: (int, int) -> int)
    returns (data: seq<IceFuturesData>)
    ensures data == ParsedRows(rows, RowParser(today, nowTime, monthStart))
  {
    data := [];
    for i := 0 to |rows|
      invariant data == ParsedRows(rows[..i], RowParser(today, nowTime, monthStart))
    {
      var parsed := ParseRow(rows[i], today, nowTime, monthStart);
      ParsedRowsStep(rows, i, RowParser(today, nowTime, monthStart));
      if parsed.Some? {
        data := data + [parsed.value];
      }
    }
    assert rows[..|rows|] == rows;
  }

  lemma ParsedRowsStep(rows: seq<TableRow>, i: nat, parse: TableRow -> Option<IceFuturesData>)
    requires i < |rows|
    ensures ParsedRows(rows[..i + 1], parse) == ParsedRows(rows[..i], parse) + RowRecord(parse(rows[i]))
  {
    assert rows[..i + 1][..i] == rows[..i];
  }

  /** The loop that sets each record's `change` from the record before it, in place. */
  method FillChanges(a: array<IceFuturesData>)
    modifies a
    ensures a[..] == WithChanges(old(a[..]))
  {
    ghost var s := a[..];
    var i := 1;
    while i < a.Length
      invariant 1 <= i && (a.Length == 0 || i <= a.Length)
      invariant forall k :: 0 <= k < a.Length && k < i ==> a[k] == WithChanges(s)[k]
      invariant forall k :: i <= k < a.Length ==> a[k] == s[k]
    {
      ChangeStep(s, i);
      a[i] := a[i].(change := ToFixed(a[i].price - a[i - 1].price, 3));
      i := i + 1;
    }
  }

  /** The record at `i` after the change loop, read from the records before the loop reached it. */
  lemma ChangeStep(s: seq<IceFuturesData>, i: nat)
    requires 0 < i < |s|
    ensures WithChanges(s)[i] == s[i].(change := ToFixed(s[i].price - WithChanges(s)[i - 1].price, 3))
  {
    assert WithChanges(s)[i - 1].price == s[i - 1].price;
  }

  // ---------------------------------------------------------------------------
  // Statistics
  // ---------------------------------------------------------------------------

  function Prices(s: seq<IceFuturesData>): (p: seq<real>)
    ensures |p| == |s| && forall i :: 0 <= i < |s| ==> p[i] == s[i].price
  {
    seq(|s|, i requires 0 <= i < |s| => s[i].price)
  }

  function Volumes(s: seq<IceFuturesData>): (v: seq<int>)
    ensures |v| == |s| && forall i :: 0 <= i < |s| ==> v[i] == s[i].volume
  {
    seq(|s|, i requires 0 <= i < |s| => s[i].volume)
  }

  /** `xs.reduce((a, b) => a + b, 0)`. */
  function Sum(xs: seq<real>): real {
    if xs == [] then 0.0 else Sum(xs[..|xs| - 1]) + xs[|xs| - 1]
  }

  function SumInt(xs: seq<int>): int {
    if xs == [] then 0 else SumInt(xs[..|xs| - 1]) + xs[|xs| - 1]
  }

  function Mean(xs: seq<real>): real
    requires |xs| > 0
  {
    Sum(xs) / |xs| as real
  }

  /** `Math.max(...xs)`. */
  function MaxOf(xs: seq<real>): (m: real)
    requires |xs| > 0
    ensures m in xs && forall i :: 0 <= i < |xs| ==> xs[i] <= m
  {
    if |xs| == 1 then xs[0]
    else
      var m := MaxOf(xs[..|xs| - 1]);
      assert forall i :: 0 <= i < |xs| - 1 ==> xs[i] == xs[..|xs| - 1][i];
      if xs[|xs| - 1] > m then xs[|xs| - 1] else m
  }

  /** `Math.min(...xs)`. */
  function MinOf(xs: seq<real>): (m: real)
    requires |xs| > 0
    ensures m in xs && forall i :: 0 <= i < |xs| ==> m <= xs[i]
  {
    if |xs| == 1 then xs[0]
    else
      var m := MinOf(xs[..|xs| - 1]);
      assert forall i :: 0 <= i < |xs| - 1 ==> xs[i] == xs[..|xs| - 1][i];
      if xs[|xs| - 1] < m then xs[|xs| - 1] else m
  }

  /** `xs.reduce((sum, x) => sum + Math.pow(x - mean, 2), 0)`. */
  function SquaredDeviations(xs: seq<real>, mean: real): (r: real)
    ensures r >= 0.0
  {
    if xs == [] then 0.0
    else
      var d := xs[|xs| - 1] - mean;
      assert d * d >= 0.0;
      SquaredDeviations(xs[..|xs| - 1], mean) + d * d
  }

  /** `data.slice(-10)`: the last ten records, or all of them. */
  function Recent(s: seq<IceFuturesData>): (r: seq<IceFuturesData>)
    ensures |s| > 0 ==> |r| > 0
  {
    if |s| >= 10 then s[|s| - 10..] else s
  }

  /** `data.slice(0, 10)`: the first ten records, or all of them. */
  function Oldest(s: seq<IceFuturesData>): (r: seq<IceFuturesData>)
    ensures |s| > 0 ==> |r| > 0
  {
    if |s| >= 10 then s[..10] else s
  }

  /** The trend from the relative move of the recent mean against the old one, in percent. */
  function TrendOf(recentAvg: real, oldAvg: real): Trend {
    var diff := Times(Divide(recentAvg - oldAvg, oldAvg), 100.0);
    if Above(diff, 2.0) then Bullish
    else if Below(diff, -2.0) then Bearish
    else Neutral
  }

  /** The move over the last thirty records in percent; 0 with fewer than thirty. */
  function PriceChange30d(p: seq<real>): (r: JsNumber)
    ensures |p| < 30 ==> r == Num(0.0)
  {
    if |p| >= 30 then
      Times(Divide(p[|p| - 1] - p[|p| - 30], p[|p| - 30]), 100.0)
    else Num(0.0)
  }

  /** `Number(avgPrice.toFixed(2))`: the mean price rounded to the cent. */
  function AveragePrice(prices: seq<real>): (a: real)
    requires |prices| > 0
    ensures -0.5 <= (a - Mean(prices)) * 100.0 <= 0.5
  {
    ToFixedClose(Mean(prices), 2);
    assert Pow10(2) == 100;
    ToFixed(Mean(prices), 2)
  }

  /**
   * `calculateStatistics(data)` (and `calculateEnhancedStatistics`, which is
   * the same computation): None for no records. `sqrt` is `Math.sqrt`.
   */
  function CalculateStatistics(data: seq<IceFuturesData>, sqrt: real -> real): (r: Option<Statistics>)
    ensures r.None? <==> data == []
  {
    if data == [] then None
    else
      var prices := Prices(data);
      var n := |data| as real;
      var variance := SquaredDeviations(prices, Mean(prices)) / n;
      Some(Statistics(
        avgPrice := AveragePrice(prices),
        maxPrice := MaxOf(prices),
        minPrice := MinOf(prices),
        volatility := ToFixed(sqrt(variance), 2),
        trend := TrendOf(Mean(Prices(Recent(data))), Mean(Prices(Oldest(data)))),
        priceChange30d := ToFixedNumber(PriceChange30d(prices), 2),
        volumeAvg := ToFixed(SumInt(Volumes(data)) as real / n, 0)))
  }

  /**
   * The statistics of some records: the extremes bound every price and occur
   * among them, the average is the mean to within half a cent, the 30-day
   * change is 0 below thirty records, and the trend compares the last ten
   * records against the first ten.
   */
  lemma StatisticsSummarizePrices(data: seq<IceFuturesData>, sqrt: real -> real)
    requires data != []
    ensures var st := CalculateStatistics(data, sqrt).value;
            && st.minPrice <= st.maxPrice
            && (forall i :: 0 <= i < |data| ==> st.minPrice <= data[i].price <= st.maxPrice)
            && st.minPrice in Prices(data) && st.maxPrice in Prices(data)
            && -0.5 <= (st.avgPrice - Mean(Prices(data))) * 100.0 <= 0.5
            && (|data| < 30 ==> st.priceChange30d == Num(0.0))
            && st.trend == TrendOf(Mean(Prices(Recent(data))), Mean(Prices(Oldest(data))))
  {
  }

  lemma {:induction false} SumBounds(xs: seq<real>, lo: real, hi: real)
    requires forall i :: 0 <= i < |xs| ==> lo <= xs[i] <= hi
    ensures |xs| as real * lo <= Sum(xs) <= |xs| as real * hi
    decreases |xs|
  {
    if xs != [] {
      var init := xs[..|xs| - 1];
      assert forall i :: 0 <= i < |init| ==> init[i] == xs[i];
      SumBounds(init, lo, hi);
      assert |xs| as real * lo == |init| as real * lo + lo;
      assert |xs| as real * hi == |init| as real * hi + hi;
    }
  }

  /** The mean price lies between the lowest and the highest price. */
  lemma MeanBetweenExtremes(xs: seq<real>)
    requires |xs| > 0
    ensures MinOf(xs) <= Mean(xs) <= MaxOf(xs)
  {
    MeanBounds(xs, MinOf(xs), MaxOf(xs));
  }

  lemma MeanBounds(xs: seq<real>, lo: real, hi: real)
    requires |xs| > 0
    requires forall i :: 0 <= i < |xs| ==> lo <= xs[i] <= hi
    ensures lo <= Mean(xs) <= hi
  {
    SumBounds(xs, lo, hi);
    QuotientBounds(Sum(xs), |xs| as real, lo, hi);
  }

  lemma QuotientBounds(s: real, n: real, lo: real, hi: real)
    requires n > 0.0 && n * lo <= s <= n * hi
    ensures lo <= s / n <= hi
  {
    DivideMonotone(n * lo, s, n);
    DivideMonotone(s, n * hi, n);
    Scale(lo, n);
    Scale(hi, n);
  }

  /**
   * The reported average is rounded while the extremes are not, so it can
   * leave their range by half a cent; when the extremes are whole cents it
   * stays within them.
   */
  lemma AveragePriceWithinExtremes(data: seq<IceFuturesData>, sqrt: real -> real, loCents: int, hiCents: int)
    requires data != []
    requires MinOf(Prices(data)) * 100.0 == loCents as real && MaxOf(Prices(data)) * 100.0 == hiCents as real
    ensures var st := CalculateStatistics(data, sqrt).value;
            st.minPrice <= st.avgPrice <= st.maxPrice
  {
    var prices := Prices(data);
    var st := CalculateStatistics(data, sqrt).value;
    assert st.minPrice == MinOf(prices) && st.maxPrice == MaxOf(prices) && st.avgPrice == ToFixed(Mean(prices), 2);
    MeanBetweenExtremes(prices);
    RoundedBetweenCents(MinOf(prices), Mean(prices), MaxOf(prices), loCents, hiCents);
  }

  /** Rounding to cents keeps a value between two bounds that are whole cents. */
  lemma RoundedBetweenCents(lo: real, x: real, hi: real, loCents: int, hiCents: int)
    requires lo <= x <= hi
    requires lo * 100.0 == loCents as real && hi * 100.0 == hiCents as real
    ensures lo <= ToFixed(x, 2) <= hi
  {
    assert Pow10(2) == 100;
    ToFixedMonotone(lo, x, 2);
    ToFixedMonotone(x, hi, 2);
    ToFixedOnGrid(lo, 2, loCents);
    ToFixedOnGrid(hi, 2, hiCents);
  }

  lemma DivisionAbove(a: real, b: real, c: real)
    requires b > 0.0
    ensures a / b > c <==> a > c * b
  {
    if a / b > c { ScaleMonotone(c, a / b, b); Unscale(a, b); }
    if a > c * b { DivideMonotone(c * b, a, b); Scale(c, b); }
  }

  lemma DivisionBelow(a: real, b: real, c: real)
    requires b > 0.0
    ensures a / b < c <==> a < c * b
  {
    if a / b < c { ScaleMonotone(a / b, c, b); Unscale(a, b); }
    if a < c * b { DivideMonotone(a, c * b, b); Scale(c, b); }
  }

  /**
   * With a positive old mean the trend is bullish exactly when the recent mean
   * is more than 2% above it, and bearish exactly when it is more than 2% below.
   */
  lemma TrendAgainstPositiveMean(recentAvg: real, oldAvg: real)
    requires oldAvg > 0.0
    ensures TrendOf(recentAvg, oldAvg) == Bullish <==> recentAvg > oldAvg * 1.02
    ensures TrendOf(recentAvg, oldAvg) == Bearish <==> recentAvg < oldAvg * 0.98
  {
    var q := (recentAvg - oldAvg) / oldAvg;
    DivisionAbove(recentAvg - oldAvg, oldAvg, 0.02);
    DivisionBelow(recentAvg - oldAvg, oldAvg, -0.02);
    assert Times(Divide(recentAvg - oldAvg, oldAvg), 100.0) == Num(q * 100.0);
  }

  /**
   * With an old mean of zero the division yields an infinity or NaN: any rise
   * is bullish, any fall bearish, and no change neutral.
   */
  lemma TrendAgainstZeroMean(recentAvg: real)
    ensures TrendOf(recentAvg, 0.0) == Bullish <==> recentAvg > 0.0
    ensures TrendOf(recentAvg, 0.0) == Bearish <==> recentAvg < 0.0
    ensures TrendOf(recentAvg, 0.0) == Neutral <==> recentAvg == 0.0
  {
  }

  // ---------------------------------------------------------------------------
  // Loading the page
  // ---------------------------------------------------------------------------

  /** The page load: the HTML or the last error, how many loads were made, and the waits between them. */
  datatype PageFetch = PageFetch(html: Result<string, Thrown>, attempts: nat, delays: seq<int>)

  /**
   * `fetchPageWithRetry(url, retries)`: `load(k)` is what the browser yields on
   * the load numbered `k` from 0. A failed load is retried after waiting
   * 2^retries seconds while fewer than `MaxRetries` loads have been made.
   */
  function FetchPageWithRetry(load: nat -> Result<string, Thrown>, retries: nat): (f: PageFetch)
    ensures 1 <= f.attempts && (retries < MaxRetries ==> f.attempts <= MaxRetries - retries)
    ensures |f.delays| == f.attempts - 1
    ensures forall k :: 0 <= k < |f.delays| ==> f.delays[k] == Pow2(retries + k) * 1000
    ensures forall k :: retries <= k < retries + f.attempts - 1 ==> load(k).Failure?
    ensures f.html == load(retries + f.attempts - 1)
    ensures f.html.Failure? ==> retries + f.attempts >= MaxRetries
    decreases MaxRetries - retries
  {
    match load(retries)
    case Success(html) => PageFetch(Success(html), 1, [])
    case Failure(e) =>
      if retries < MaxRetries - 1 then
        var rest := FetchPageWithRetry(load, retries + 1);
        PageFetch(rest.html, rest.attempts + 1, [Pow2(retries) * 1000] + rest.delays)
      else PageFetch(Failure(e), 1, [])
  }

  /**
   * From the first load: at most three loads, waits of one and then two
   * seconds, and the page is the first successful load's.
   */
  lemma FetchFromFirstLoad(load: nat -> Result<string, Thrown>)
    ensures var f := FetchPageWithRetry(load, 0);
            && 1 <= f.attempts <= 3
            && f.delays == [1000, 2000][..f.attempts - 1]
            && (f.html.Success? <==> exists k :: 0 <= k < 3 && load(k).Success?)
  {
    var f := FetchPageWithRetry(load, 0);
    assert Pow2(0) == 1 && Pow2(1) == 2;
    if f.attempts == 3 {
      assert f.delays == [1000, 2000];
    } else if f.attempts == 2 {
      assert f.delays == [1000];
    }
  }

  // ---------------------------------------------------------------------------
  // The repository operation
  // ---------------------------------------------------------------------------

  const ScrapeFailed := "Error al hacer scraping de datos de ICE Futures"
  const NoData := "No se pudieron extraer datos de la página de ICE"

  /** The error `getIceFuturesData` throws for anything that went wrong inside it. */
  function Wrapped(e: Thrown): (err: AppError)
    ensures err.kind.Scraping? && err.message == ScrapeFailed && err.detail == Some(e.Text())
  {
    NewScrapingError(ScrapeFailed, Some(e.Text()))
  }

  /**
   * `getIceFuturesData(timeRange)`. `tableOf(html)` is the body rows of the
   * page's data table (None when there is none); `nowIso` is the clock as
   * `toISOString()`.
   */
  method GetIceFuturesData(timeRange: TimeRange, load: nat -> Result<string, Thrown>,
                           tableOf: string -> Option<seq<TableRow>>, today: Date, nowIso: string, nowTime: string,
                           monthStart: (int, int) -> int, sqrt: real -> real)
    returns (r: Result<IceFuturesHistory, AppError>)
    ensures r.Failure? ==> r.error.kind.Scraping? && r.error.message == ScrapeFailed
    ensures var page := FetchPageWithRetry(load, 0).html;
            && (page.Failure? ==> r == Failure(Wrapped(page.error)))
            && (page.Success? && tableOf(page.value).None? ==> r == Failure(Wrapped(PlainError(TableNotFound))))
            && (page.Success? && tableOf(page.value).Some? ==>
                  var data := ParsedTable(tableOf(page.value).value, today, nowTime, monthStart);
                  && (data == [] ==> r == Failure(Wrapped(PlainError(NoData))))
                  && (data != [] ==>
                        && r.Success?
                        && r.value.data == data
                        && r.value.dataPoints == |data|
                        && r.value.statistics == CalculateStatistics(data, sqrt)
                        && r.value.symbol == "KC" && r.value.name == "Coffee C Futures"
                        && r.value.exchange == "ICE" && r.value.currency == "USD"
                        && r.value.timeRange == timeRange && r.value.lastUpdate == nowIso
                        && r.value.dataQuality.None?
                        && fresh(r.value.source)
                        && r.value.source.url == BaseUrl && r.value.source.scrapeTime == nowIso))
  {
    var page := FetchPageWithRetry(load, 0).html;
    if page.Failure? {
      return Failure(Wrapped(page.error));
    }
    var parsed := ParseTableData(tableOf(page.value), today, nowTime, monthStart);
    if parsed.Failure? {
      return Failure(Wrapped(parsed.error));
    }
    var data := parsed.value;
    if |data| == 0 {
      return Failure(Wrapped(PlainError(NoData)));
    }
    var source := new ScrapeSource(BaseUrl, nowIso);
    r := Success(IceFuturesHistory(
      symbol := "KC",
      name := "Coffee C Futures",
      exchange := "ICE",
      currency := "USD",
      lastUpdate := nowIso,
      dataPoints := |data|,
      timeRange := timeRange,
      data := data,
      statistics := CalculateStatistics(data, sqrt),
      source := source,
      dataQuality := None));
  }
}
