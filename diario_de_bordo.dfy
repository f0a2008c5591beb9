/** The daily ledger ("Diário de Bordo"): one row per day of the selected
    month holding spend, revenue and sales, with derived result, ROI and
    CPA, a debounced auto-save per row, and the month's rows loaded from the
    backend and indexed by day of month. */
module DiarioDeBordo {
  import opened Common

  /** One day's figures; `None` is a missing or null field. */
  datatype DayEntry = DayEntry(investment: Option<real>, revenue: Option<real>, sales: Option<real>)

  datatype Field = Investment | Revenue | Sales

  /** What a numeric input holds: empty, or a number. */
  datatype InputValue = Empty | Number(x: real)

  /** The upsert payload of `handleSave`. */
  datatype Payload = Payload(userId: string, productId: string, entryDate: string,
                             investment: real, revenue: real, sales: Option<real>)

  /** A row as fetched: its `entry_date` text and its figures. */
  datatype FetchedRow = FetchedRow(entryDate: string, entry: DayEntry)

  datatype Date = Date(year: nat, month: nat, day: nat)

  /** `{}`: the record of a day with no data. */
  const EmptyEntry := DayEntry(None, None, None)

  function Get(d: DayEntry, field: Field): Option<real>
  {
    match field
    case Investment => d.investment
    case Revenue => d.revenue
    case Sales => d.sales
  }

  /** `{ ...d, [field]: v }`. */
  function Set(d: DayEntry, field: Field, v: Option<real>): (r: DayEntry)
    ensures Get(r, field) == v
    ensures forall g :: g != field ==> Get(r, g) == Get(d, g)
  {
    match field
    case Investment => d.(investment := v)
    case Revenue => d.(revenue := v)
    case Sales => d.(sales := v)
  }

  /** `x || 0` on a number or null. */
  function OrZero(v: Option<real>): real
  {
    if v.Some? then v.value else 0.0
  }

  // ---------------------------------------------------------------------
  // Row metrics

  datatype RowMetrics = RowMetrics(resultado: real, roi: real, cpa: real)

  /** The derived columns of `DailyEntryRow`, missing figures counted as 0
      (kept exact; the page rounds ROI and CPA to cents). */
  function Metrics(d: DayEntry): (m: RowMetrics)
    ensures m.resultado + OrZero(d.investment) == OrZero(d.revenue)
    ensures OrZero(d.investment) > 0.0 ==> m.roi * OrZero(d.investment) == OrZero(d.revenue)
    ensures OrZero(d.investment) <= 0.0 ==> m.roi == 0.0
    ensures OrZero(d.sales) > 0.0 ==> m.cpa * OrZero(d.sales) == OrZero(d.investment)
    ensures OrZero(d.sales) <= 0.0 ==> m.cpa == 0.0
  {
    var investment := OrZero(d.investment);
    var revenue := OrZero(d.revenue);
    var sales := OrZero(d.sales);
    RowMetrics(revenue - investment, Guarded(revenue, investment), Guarded(investment, sales))
  }

  /** With positive spend, the result column is shown as a gain (green)
      exactly when the ROI is at least 1. */
  lemma GainIffRoiAtLeastOne(d: DayEntry)
    requires OrZero(d.investment) > 0.0
    ensures Metrics(d).resultado >= 0.0 <==> Metrics(d).roi >= 1.0
  {
    var i := OrZero(d.investment);
    var m := Metrics(d);
    assert m.resultado == m.roi * i - 1.0 * i;
    ScaleLess(m.roi, 1.0, i);
    ScaleLess(1.0, m.roi, i);
  }

  // ---------------------------------------------------------------------
  // Month state

  /** `handleDataChange`: sets one field of one day, creating the day's
      record when absent. */
  function HandleDataChange(prev: map<nat, DayEntry>, day: nat, field: Field, v: Option<real>)
    : (r: map<nat, DayEntry>)
    ensures r.Keys == prev.Keys + {day}
    ensures forall k :: k in prev && k != day ==> r[k] == prev[k]
    ensures Get(r[day], field) == v
    ensures forall g :: g != field ==>
              Get(r[day], g) == (if day in prev then Get(prev[day], g) else None)
  {
    var dayData := if day in prev then prev[day] else EmptyEntry;
    prev[day := Set(dayData, field, v)]
  }

  /** The rendered rows: days 1 .. daysInMonth, each the stored record or
      the empty one. */
  function RowsOf(daysInMonth: nat, monthly: map<nat, DayEntry>): (rows: seq<DayEntry>)
    ensures |rows| == daysInMonth
    ensures forall i :: 0 <= i < daysInMonth ==>
              rows[i] == if i + 1 in monthly then monthly[i + 1] else EmptyEntry
  {
    if daysInMonth == 0 then []
    else RowsOf(daysInMonth - 1, monthly)
         + [if daysInMonth in monthly then monthly[daysInMonth] else EmptyEntry]
  }

  /** An edit to one day changes that day's row only. */
  lemma EditChangesOneRow(daysInMonth: nat, monthly: map<nat, DayEntry>, day: nat, field: Field, v: Option<real>)
    requires 1 <= day <= daysInMonth
    ensures var before := RowsOf(daysInMonth, monthly);
            var after := RowsOf(daysInMonth, HandleDataChange(monthly, day, field, v));
            |after| == |before|
            && (forall i :: 0 <= i < daysInMonth && i != day - 1 ==> after[i] == before[i])
            && Get(after[day - 1], field) == v
  {
  }

  // ---------------------------------------------------------------------
  // Dates

  predicate IsDigit(c: char)
  {
    '0' <= c <= '9'
  }

  predicate AllDigits(s: string)
  {
    forall i :: 0 <= i < |s| ==> IsDigit(s[i])
  }

  function DigitChar(d: nat): (c: char)
    requires d < 10
    ensures IsDigit(c)
  {
    ('0' as int + d) as char
  }

  /** `String(n)` for a natural number: its decimal digits. */
  function NatToString(n: nat): (s: string)
    ensures |s| >= 1 && AllDigits(s)
  {
    if n < 10 then [DigitChar(n)] else NatToString(n / 10) + [DigitChar(n % 10)]
  }

  /** The number a digit string denotes. */
  function ValueOf(s: string): nat
    requires AllDigits(s)
  {
    if s == [] then 0 else ValueOf(s[..|s| - 1]) * 10 + (s[|s| - 1] as int - '0' as int)
  }

  lemma {:induction false} ValueOfNatToString(n: nat)
    ensures ValueOf(NatToString(n)) == n
  {
    if n >= 10 {
      var s := NatToString(n);
      assert s[..|s| - 1] == NatToString(n / 10);
      ValueOfNatToString(n / 10);
    }
  }

  /** A leading zero does not change the value. */
  lemma {:induction false} ValueOfLeadingZero(s: string)
    requires AllDigits(s)
    ensures AllDigits("0" + s) && ValueOf("0" + s) == ValueOf(s)
  {
    if s != [] {
      assert ("0" + s)[..|"0" + s| - 1] == "0" + s[..|s| - 1];
      ValueOfLeadingZero(s[..|s| - 1]);
    }
  }

  lemma NatToStringLength(n: nat)
    ensures n < 10 ==> |NatToString(n)| == 1
    ensures 10 <= n < 100 ==> |NatToString(n)| == 2
    ensures 100 <= n < 1000 ==> |NatToString(n)| == 3
    ensures 1000 <= n < 10000 ==> |NatToString(n)| == 4
  {
    if n >= 10 {
      NatToStringLength(n / 10);
    }
  }

  /** `String(n).padStart(2, '0')`. */
  function Pad2(n: nat): (s: string)
    ensures AllDigits(s) && |s| >= 2
    ensures n < 100 ==> |s| == 2
  {
    NatToStringLength(n);
    if n < 10 then "0" + NatToString(n) else NatToString(n)
  }

  lemma Pad2Value(n: nat)
    ensures ValueOf(Pad2(n)) == n
  {
    ValueOfNatToString(n);
    if n < 10 {
      ValueOfLeadingZero(NatToString(n));
    }
  }

  /** The `entry_date` text `year-MM-DD` of `handleSave` (and of the month
      bounds of the month query). */
  function EntryDate(year: nat, month: nat, day: nat): string
  {
    NatToString(year) + "-" + Pad2(month) + "-" + Pad2(day)
  }

  /** Reads a `full-date` of section 5.6 of RFC 3339 (four-digit year, two-
      digit month and day); the calendar range of month and day is not
      checked here. */
  function ParseDate(s: string): (r: Option<Date>)
    ensures r.Some? ==> |s| == 10 && s[4] == '-' && s[7] == '-'
  {
    if |s| == 10 && s[4] == '-' && s[7] == '-'
       && AllDigits(s[..4]) && AllDigits(s[5..7]) && AllDigits(s[8..])
    then Some(Date(ValueOf(s[..4]), ValueOf(s[5..7]), ValueOf(s[8..])))
    else None
  }

  /** For four-digit years, the stored date text reads back as the same
      year, month and day: the day a row is indexed under is the day it
      was saved for. */
  lemma EntryDateRoundTrip(year: nat, month: nat, day: nat)
    requires 1000 <= year <= 9999 && month < 100 && day < 100
    ensures ParseDate(EntryDate(year, month, day)) == Some(Date(year, month, day))
  {
    var a, b, c := NatToString(year), Pad2(month), Pad2(day);
    NatToStringLength(year);
    var s := EntryDate(year, month, day);
    assert s == a + "-" + b + "-" + c;
    assert s[..4] == a;
    assert s[5..7] == b;
    assert s[8..] == c;
    ValueOfNatToString(year);
    Pad2Value(month);
    Pad2Value(day);
  }

  predicate IsLeap(year: int)
  {
    year % 4 == 0 && (year % 100 != 0 || year % 400 == 0)
  }

  /** `new Date(year, month, 0).getDate()`: the last day of `month`
      (1-based) in the proleptic Gregorian calendar. */
  function DaysInMonth(year: int, month: int): (n: nat)
    requires 1 <= month <= 12
    ensures 28 <= n <= 31
    ensures n == 29 <==> month == 2 && IsLeap(year)
  {
    if month == 2 then (if IsLeap(year) then 29 else 28)
    else if month == 4 || month == 6 || month == 9 || month == 11 then 30
    else 31
  }

  /** The month lengths add up to the length of the Gregorian year. */
  lemma YearLength(year: int)
    ensures DaysInMonth(year, 1) + DaysInMonth(year, 2) + DaysInMonth(year, 3) + DaysInMonth(year, 4)
            + DaysInMonth(year, 5) + DaysInMonth(year, 6) + DaysInMonth(year, 7) + DaysInMonth(year, 8)
            + DaysInMonth(year, 9) + DaysInMonth(year, 10) + DaysInMonth(year, 11) + DaysInMonth(year, 12)
            == if IsLeap(year) then 366 else 365
  {
  }

  /** The bounds of the month query: day 01 through the month's last day. */
  function MonthRange(year: nat, month: nat): (bounds: (string, string))
    requires 1 <= month <= 12
  {
    (NatToString(year) + "-" + Pad2(month) + "-01", EntryDate(year, month, DaysInMonth(year, month)))
  }

  /** For four-digit years the bounds read back as the first and the last
      day of the requested month. */
  lemma MonthRangeBounds(year: nat, month: nat)
    requires 1000 <= year <= 9999 && 1 <= month <= 12
    ensures ParseDate(MonthRange(year, month).0) == Some(Date(year, month, 1))
    ensures ParseDate(MonthRange(year, month).1) == Some(Date(year, month, DaysInMonth(year, month)))
  {
    assert Pad2(1) == "01";
    assert MonthRange(year, month).0 == EntryDate(year, month, 1);
    EntryDateRoundTrip(year, month, 1);
    EntryDateRoundTrip(year, month, DaysInMonth(year, month));
  }

  /** `handleSave`'s payload: spend and revenue default to 0, sales to null
      (so a 0 sales figure is sent as null). */
  function SavePayload(userId: string, productId: string, year: nat, month: nat, day: nat, d: DayEntry)
    : (p: Payload)
    ensures p.userId == userId && p.productId == productId
    ensures p.entryDate == EntryDate(year, month, day)
    ensures p.investment == OrZero(d.investment) && p.revenue == OrZero(d.revenue)
    ensures p.sales.Some? <==> d.sales.Some? && d.sales.value != 0.0
    ensures p.sales.Some? ==> p.sales == d.sales
  {
    Payload(userId, productId, EntryDate(year, month, day), OrZero(d.investment), OrZero(d.revenue),
            if d.sales.Some? && d.sales.value != 0.0 then d.sales else None)
  }

  // ---------------------------------------------------------------------
  // Loading the month

  /** `new Date(entry_date).getUTCDate()` for a stored date. */
  function DayKey(row: FetchedRow): Option<nat>
  {
    var parsed := ParseDate(row.entryDate);
    if parsed.Some? then Some(parsed.value.day) else None
  }

  /** The map the `dataMap` reduce builds: each row in turn is stored
      under its day, so a later row for the same day replaces an earlier
      one. */
  function Index(rows: seq<FetchedRow>): map<nat, DayEntry>
  {
    if rows == [] then map[]
    else
      var m := Index(rows[..|rows| - 1]);
      var key := DayKey(rows[|rows| - 1]);
      if key.Some? then m[key.value := rows[|rows| - 1].entry] else m
  }

  /** The days present are exactly the days of the rows. */
  lemma {:induction false} IndexKeys(rows: seq<FetchedRow>, k: nat)
    ensures k in Index(rows) <==> exists i :: 0 <= i < |rows| && DayKey(rows[i]) == Some(k)
  {
    if rows != [] {
      var init := rows[..|rows| - 1];
      IndexKeys(init, k);
      if k in Index(init) {
        var i :| 0 <= i < |init| && DayKey(init[i]) == Some(k);
        assert DayKey(rows[i]) == Some(k);
      }
      if exists i :: 0 <= i < |rows| && DayKey(rows[i]) == Some(k) {
        var i :| 0 <= i < |rows| && DayKey(rows[i]) == Some(k);
        if i < |init| {
          assert DayKey(init[i]) == Some(k);
        }
      }
    }
  }

  /** Last writer wins: a day holds the figures of the last row for it. */
  lemma {:induction false} IndexLastWins(rows: seq<FetchedRow>, i: nat)
    requires i < |rows| && DayKey(rows[i]).Some?
    requires forall j :: i < j < |rows| ==> DayKey(rows[j]) != DayKey(rows[i])
    ensures DayKey(rows[i]).value in Index(rows)
    ensures Index(rows)[DayKey(rows[i]).value] == rows[i].entry
  {
    if i < |rows| - 1 {
      var init := rows[..|rows| - 1];
      assert forall j :: i < j < |init| ==> DayKey(init[j]) == DayKey(rows[j]);
      IndexLastWins(init, i);
      assert init[i] == rows[i];
    }
  }

  /** The `dataMap` reduce, mutating its accumulator row by row. */
  method IndexByDay(rows: seq<FetchedRow>) returns (acc: map<nat, DayEntry>)
    ensures acc == Index(rows)
  {
    acc := map[];
    var n := 0;
    while n < |rows|
      invariant 0 <= n <= |rows|
      invariant acc == Index(rows[..n])
    {
      assert rows[..n + 1][..n] == rows[..n];
      var key := DayKey(rows[n]);
      if key.Some? {
        acc := acc[key.value := rows[n].entry];
      }
      n := n + 1;
    }
    assert rows[..|rows|] == rows;
  }

  /** `fetchMonthlyData`'s result handling: an error empties the month,
      otherwise the rows are indexed by day. */
  method LoadMonth(result: Option<seq<FetchedRow>>) returns (monthly: map<nat, DayEntry>)
    ensures result.None? ==> monthly == map[]
    ensures result.Some? ==> monthly == Index(result.value)
  {
    if result.None? {
      monthly := map[];
    } else {
      monthly := IndexByDay(result.value);
    }
  }

  // ---------------------------------------------------------------------
  // The debounced auto-save of one row

  /** `parseFloat(value) || 0` of the save: an empty input is sent as 0. */
  function SentNumber(v: InputValue): real
  {
    if v.Number? then v.x else 0.0
  }

  /** `value === '' ? null : parseFloat(value)` of the local update. */
  function LocalValue(v: InputValue): Option<real>
  {
    if v.Number? then Some(v.x) else None
  }

  /** One `DailyEntryRow`'s save machinery: the armed timer (at most one,
      holding the record it will save), and the saving and saved flags. */
  class RowSaver {
    var timer: Option<DayEntry>
    var isSaving: bool
    var isSaved: bool

    constructor()
      ensures timer == None && !isSaving && !isSaved
    {
      timer := None;
      isSaving := false;
      isSaved := false;
    }

    /** `handleInputChange`: reports the local value, cancels the pending
        timer and arms one new timer with the row's record (as rendered)
        with the edited field set to the number typed, 0 when empty. */
    method Input(data: DayEntry, field: Field, value: InputValue) returns (local: Option<real>)
      modifies this
      ensures local == LocalValue(value)
      ensures timer == Some(Set(data, field, Some(SentNumber(value))))
      ensures isSaving == old(isSaving) && isSaved == old(isSaved)
    {
      local := LocalValue(value);
      timer := None;
      timer := Some(Set(data, field, Some(SentNumber(value))));
    }

    /** The armed timer fires: saving starts with its record. */
    method TimerFires() returns (sent: DayEntry)
      requires timer.Some?
      modifies this
      ensures sent == old(timer).value
      ensures timer == None && isSaving && isSaved == old(isSaved)
    {
      sent := timer.value;
      timer := None;
      isSaving := true;
    }

    /** The `onSave` promise settles: `isSaving` clears on every outcome;
        when the promise resolved, the saved mark shows.  `handleSave`
        catches a failed upsert itself (it only raises a notice), so its
        promise resolves then too: `resolved` is false only when `handleSave`
        threw. */
    method SaveSettled(resolved: bool)
      modifies this
      ensures !isSaving && timer == old(timer)
      ensures isSaved == (resolved || old(isSaved))
    {
      if resolved {
        isSaved := true;
      }
      isSaving := false;
    }

    /** The 2-second timer that hides the saved mark. */
    method SavedMarkExpires()
      modifies this
      ensures !isSaved && isSaving == old(isSaving) && timer == old(timer)
    {
      isSaved := false;
    }
  }

  /** Typing several values in a row leaves one pending save, holding only
      the last value typed. */
  method TypeTwice(data: DayEntry, field: Field, first: InputValue, second: InputValue)
    returns (pending: DayEntry)
    ensures pending == Set(data, field, Some(SentNumber(second)))
  {
    var saver := new RowSaver();
    var _ := saver.Input(data, field, first);
    var _ := saver.Input(data, field, second);
    pending := saver.TimerFires();
  }

  /** Clearing the sales input stores null locally and saves 0, which the
      payload then sends as null; a cleared spend or revenue is sent as 0. */
  lemma ClearedInputSaved(userId: string, productId: string, year: nat, month: nat, day: nat,
                          data: DayEntry, field: Field)
    ensures LocalValue(Empty) == None
    ensures var p := SavePayload(userId, productId, year, month, day, Set(data, field, Some(SentNumber(Empty))));
            (field == Sales ==> p.sales == None)
            && (field == Investment ==> p.investment == 0.0)
            && (field == Revenue ==> p.revenue == 0.0)
  {
  }
}
