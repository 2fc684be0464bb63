/** The chart aggregation of `FinancialOverview` (`calculateData`): per-month
    income and expense totals and per-category expense totals, recomputed from
    the stored transaction list. */
module Overview {
  import opened Wrappers
  import opened Numerals

  /** A stored transaction as `JSON.parse` returns it; `kind` is its `type`
      field, kept as the raw string. */
  datatype Transaction = Transaction(id: int, kind: string, amount: real, category: string, description: string, date: string)

  /** One bar of the monthly chart, `{ month, income, expenses }`. */
  datatype MonthTotals = MonthTotals(month: string, income: real, expenses: real)

  /** One slice of the category chart, `{ name, value }`. */
  datatype CategoryTotal = CategoryTotal(name: string, value: real)

  // ---------------------------------------------------------------------------
  // Month labels

  /** English short month names, as the default locale prints them. */
  const ShortMonths: seq<string> := ["Jan", "Feb", "Mar", "Apr", "May", "Jun", "Jul", "Aug", "Sep", "Oct", "Nov", "Dec"]

  /** The label `toLocaleString` prints for an unparseable date. */
  const InvalidDate: string := "Invalid Date"

  /** `s[i]` and `s[i + 1]` are digits. */
  predicate TwoDigitsAt(s: string, i: nat)
  {
    i + 1 < |s| && IsDigit(s[i]) && IsDigit(s[i + 1])
  }

  /** The value of the two digits at `i`. */
  function TwoDigitValue(s: string, i: nat): (v: nat)
    requires TwoDigitsAt(s, i)
    ensures v <= 99
  {
    10 * DigitValue(s[i]) + DigitValue(s[i + 1])
  }

  /** The number of days in a month of the proleptic Gregorian calendar. */
  function DaysInMonth(year: nat, month: nat): (d: nat)
    requires 1 <= month <= 12
    ensures 28 <= d <= 31
  {
    if month == 2 then (if year % 4 == 0 && (year % 100 != 0 || year % 400 == 0) then 29 else 28)
    else if month == 4 || month == 6 || month == 9 || month == 11 then 30
    else 31
  }

  /** The end of a date-time string after the minutes: nothing, or `Z`,
      optionally preceded by `:ss` and then by `.sss`. */
  predicate IsTimeTail(t: string)
  {
    || t == [] || t == "Z"
    || (&& |t| >= 3 && t[0] == ':' && TwoDigitsAt(t, 1) && TwoDigitValue(t, 1) <= 59
        && var u := t[3..];
           || u == [] || u == "Z"
           || (|u| >= 4 && u[0] == '.' && IsDigit(u[1]) && IsDigit(u[2]) && IsDigit(u[3]) && (u[4..] == [] || u[4..] == "Z")))
  }

  /** The time of a date-time string, `HH:mm` and its tail. */
  predicate IsTime(t: string)
  {
    && |t| >= 5 && TwoDigitsAt(t, 0) && TwoDigitValue(t, 0) <= 23
    && t[2] == ':' && TwoDigitsAt(t, 3) && TwoDigitValue(t, 3) <= 59
    && IsTimeTail(t[5..])
  }

  /** The date is in the date-time string format of the ECMAScript `Date`
      parser with a four-digit year, in UTC or local time: `YYYY`, `YYYY-MM`
      or `YYYY-MM-DD` naming a day that exists, each alone or followed by
      `THH:mm` with optional seconds, milliseconds and `Z`. */
  predicate IsIsoDate(date: string)
  {
    && |date| >= 4 && TwoDigitsAt(date, 0) && TwoDigitsAt(date, 2)
    && (|date| == 4 || (date[4] == 'T' && IsTime(date[5..]))
        || (&& |date| >= 7 && date[4] == '-' && TwoDigitsAt(date, 5)
            && 1 <= TwoDigitValue(date, 5) <= 12
            && (|date| == 7 || (date[7] == 'T' && IsTime(date[8..]))
                || (&& |date| >= 10 && date[7] == '-' && TwoDigitsAt(date, 8)
                    && 1 <= TwoDigitValue(date, 8) <= DaysInMonth(100 * TwoDigitValue(date, 0) + TwoDigitValue(date, 2), TwoDigitValue(date, 5))
                    && (|date| == 10 || (date[10] == 'T' && IsTime(date[11..])))))))
  }

  /** The date names a month: it is not of the year-only forms. */
  predicate HasMonth(date: string)
  {
    |date| >= 7 && date[4] == '-'
  }

  /** The month digits of an ISO date; a year-only date is in January. */
  function MonthDigits(date: string): string
    requires IsIsoDate(date)
  {
    if HasMonth(date) then date[5..7] else "01"
  }

  /** The month of an ISO date, 1 to 12; January for a year-only date. */
  function MonthNumber(date: string): (m: nat)
    requires IsIsoDate(date)
    ensures 1 <= m <= 12
  {
    if HasMonth(date) then TwoDigitValue(date, 5) else 1
  }

  /** The bar label of a stored date, `toLocaleString('default', { month:
      'short', year: '2-digit' })`: the short month name and the last two
      digits of the year, or "Invalid Date". */
  function MonthLabel(date: string): (r: string)
    ensures r == InvalidDate <==> !IsIsoDate(date)
    ensures r !in InheritedNames
    ensures !IntegerLike(r)
  {
    if IsIsoDate(date) then
      var name := ShortMonths[MonthNumber(date) - 1];
      ShortMonthLength(MonthNumber(date) - 1);
      var l := name + " " + date[2..4];
      NotInheritedBySize(l);
      assert l[3] == ' ';
      l
    else
      NotInheritedBySize(InvalidDate);
      assert InvalidDate[0] == 'I';
      InvalidDate
  }

  /** A key made only of digits. `Object.values` lists the keys that are
      array indices (a subset of these) before all other keys, in ascending
      numeric order. */
  predicate IntegerLike(key: string)
  {
    key != [] && AllDigits(key)
  }

  lemma ShortMonthLength(i: nat)
    requires i < 12
    ensures |ShortMonths[i]| == 3
  {
  }

  /** No inherited name is 6 or 12 characters long, the lengths of labels. */
  lemma NotInheritedBySize(text: string)
    requires |text| == 6 || |text| == 12
    ensures text !in InheritedNames
  {
    assert forall n | n in InheritedNames :: |n| != 6 && |n| != 12;
  }

  lemma ShortMonthsDistinct(i: nat, j: nat)
    requires i < 12 && j < 12 && ShortMonths[i] == ShortMonths[j]
    ensures i == j
  {
  }

  /** The label of an ISO date is the name of the month its digits give (or
      January), a space and the year's last two digits. */
  lemma LabelParts(date: string)
    requires IsIsoDate(date)
    ensures |MonthLabel(date)| == 6
    ensures MonthLabel(date)[..3] == if HasMonth(date) then ShortMonths[TwoDigitValue(date, 5) - 1] else "Jan"
    ensures MonthLabel(date)[4..] == date[2..4]
  {
    var name := ShortMonths[MonthNumber(date) - 1];
    assert |name| == 3;
    var l := name + " " + date[2..4];
    assert l[..3] == name && l[4..] == date[2..4];
  }

  /** A day in March is labelled with March and the year's last digits. */
  lemma MarchLabel()
    ensures MonthLabel("2024-03-15") == "Mar 24"
  {
    var d := "2024-03-15";
    assert IsIsoDate(d) && HasMonth(d) && TwoDigitValue(d, 5) == 3;
  }

  /** A year alone, and a year and month with a time, are valid dates. */
  lemma ShortFormsLabelled()
    ensures MonthLabel("2024") == "Jan 24"
    ensures MonthLabel("2024-03T10:00") == "Mar 24"
  {
    var t := "10:00";
    assert IsTime(t);
    var d := "2024-03T10:00";
    assert d[8..] == t;
    assert IsIsoDate(d) && HasMonth(d) && TwoDigitValue(d, 5) == 3;
    assert IsIsoDate("2024") && !HasMonth("2024");
  }

  lemma MonthNumberInjective(a: string, b: string)
    requires IsIsoDate(a) && IsIsoDate(b) && MonthNumber(a) == MonthNumber(b)
    ensures MonthDigits(a) == MonthDigits(b)
  {
    var x, y := MonthDigits(a), MonthDigits(b);
    assert |x| == 2 && |y| == 2;
    assert 10 * DigitValue(x[0]) + DigitValue(x[1]) == 10 * DigitValue(y[0]) + DigitValue(y[1]);
    DigitValueInjective(x[0], y[0]);
    DigitValueInjective(x[1], y[1]);
    assert x == [x[0], x[1]] && y == [y[0], y[1]];
  }

  /** Two ISO dates share a bar exactly when they have the same month digits
      and the same last two digits of the year (so `1924-02` and `2024-02`
      share one, and so do `2024` and `2024-01`). */
  lemma SameLabelIffSameMonth(a: string, b: string)
    requires IsIsoDate(a) && IsIsoDate(b)
    ensures MonthLabel(a) == MonthLabel(b) <==> a[2..4] == b[2..4] && MonthDigits(a) == MonthDigits(b)
  {
    LabelParts(a);
    LabelParts(b);
    if MonthLabel(a) == MonthLabel(b) {
      ShortMonthsDistinct(MonthNumber(a) - 1, MonthNumber(b) - 1);
      MonthNumberInjective(a, b);
    }
    if MonthDigits(a) == MonthDigits(b) {
      var x, y := MonthDigits(a), MonthDigits(b);
      assert x[0] == y[0] && x[1] == y[1];
      assert MonthNumber(a) == 10 * DigitValue(x[0]) + DigitValue(x[1]);
      assert MonthNumber(b) == 10 * DigitValue(y[0]) + DigitValue(y[1]);
    }
  }

  /** A malformed date never shares a bar with a well-formed one. */
  lemma InvalidDateNeverSharesBar(a: string, b: string)
    requires IsIsoDate(a) && !IsIsoDate(b)
    ensures MonthLabel(a) != MonthLabel(b)
  {
    assert |MonthLabel(b)| == 12;
  }

  lemma DigitValueInjective(c: char, d: char)
    requires IsDigit(c) && IsDigit(d) && DigitValue(c) == DigitValue(d)
    ensures c == d
  {
  }

  // ---------------------------------------------------------------------------
  // Plain objects as accumulators

  /** The names a plain object `{}` inherits from `Object.prototype`. Each of
      them reads as a function (or, for `__proto__`, as the prototype itself),
      so `!acc[name]` is false on an accumulator that has no own entry of
      that name. */
  const InheritedNames: set<string> := {
    "constructor", "hasOwnProperty", "isPrototypeOf", "propertyIsEnumerable",
    "toLocaleString", "toString", "valueOf", "__proto__",
    "__defineGetter__", "__defineSetter__", "__lookupGetter__", "__lookupSetter__"
  }

  /** A plain object `{}` used as a reducer's accumulator: its keys in
      insertion order and the value stored under each. */
  datatype Tally<V> = Tally(keys: seq<string>, entries: map<string, V>)
  {
    ghost predicate Valid()
    {
      && (forall i, j :: 0 <= i < j < |keys| ==> keys[i] != keys[j])
      && (forall k :: k in entries <==> k in keys)
    }

    /** `acc[k] = v`: a new key goes to the end of the key order. */
    function Put(k: string, v: V): (r: Tally<V>)
      ensures Valid() ==> r.Valid()
    {
      if k in entries then Tally(keys, entries[k := v]) else Tally(keys + [k], entries[k := v])
    }

    /** `Object.values(acc)` */
    function Values(): (r: seq<V>)
      requires Valid()
      ensures |r| == |keys| && forall i :: 0 <= i < |keys| ==> r[i] == entries[keys[i]]
    {
      seq(|keys|, i requires 0 <= i < |keys| => entries[keys[i]])
    }
  }

  lemma PutValuesExisting<V>(o: Tally<V>, k: string, v: V, i: nat)
    requires o.Valid() && i < |o.keys| && o.keys[i] == k
    ensures o.Put(k, v).Values() == o.Values()[i := v]
  {
    var r := o.Put(k, v);
    assert r.keys == o.keys;
    forall j | 0 <= j < |o.keys|
      ensures r.Values()[j] == o.Values()[i := v][j]
    {
      if j != i {
        assert o.keys[j] != k;
      }
    }
  }

  lemma PutValuesNew<V>(o: Tally<V>, k: string, v: V)
    requires o.Valid() && k !in o.entries
    ensures o.Put(k, v).Values() == o.Values() + [v]
  {
    var r := o.Put(k, v);
    assert r.keys == o.keys + [k];
    forall j | 0 <= j < |o.keys|
      ensures r.Values()[j] == o.Values()[j]
    {
      assert o.keys[j] in o.entries;
    }
  }

  /** The distinct elements of `xs` in the order they first occur. */
  function FirstOccurrences(xs: seq<string>): seq<string>
  {
    if xs == [] then []
    else
      var seen := FirstOccurrences(xs[..|xs| - 1]);
      if xs[|xs| - 1] in seen then seen else seen + [xs[|xs| - 1]]
  }

  /** `FirstOccurrences` keeps every element once and nothing else. */
  lemma {:induction false} FirstOccurrencesSound(xs: seq<string>)
    ensures forall i, j :: 0 <= i < j < |FirstOccurrences(xs)| ==> FirstOccurrences(xs)[i] != FirstOccurrences(xs)[j]
    ensures forall x :: x in FirstOccurrences(xs) <==> x in xs
  {
    if xs != [] {
      var ys, x := xs[..|xs| - 1], xs[|xs| - 1];
      FirstOccurrencesSound(ys);
      assert xs == ys + [x];
      var seen := FirstOccurrences(ys);
      if x !in seen {
        var f := seen + [x];
        forall i, j | 0 <= i < j < |f|
          ensures f[i] != f[j]
        {
          if j == |seen| {
            assert f[i] == seen[i] && f[j] == x;
            assert seen[i] in seen;
          } else {
            assert f[i] == seen[i] && f[j] == seen[j];
          }
        }
      }
    }
  }

  // ---------------------------------------------------------------------------
  // Monthly totals

  /** A transaction together with the label of its bar. */
  datatype Dated = Dated(month: string, t: Transaction)

  /** Each transaction paired with `MonthLabel` of its date. */
  function Labelled(ts: seq<Transaction>): (r: seq<Dated>)
    ensures |r| == |ts| && forall i :: 0 <= i < |ts| ==> r[i] == Dated(MonthLabel(ts[i].date), ts[i])
  {
    seq(|ts|, i requires 0 <= i < |ts| => Dated(MonthLabel(ts[i].date), ts[i]))
  }

  lemma LabelledPrefix(ts: seq<Transaction>, n: nat)
    requires n <= |ts|
    ensures Labelled(ts)[..n] == Labelled(ts[..n])
  {
  }

  /** The label of each transaction, in order. */
  function Months(ds: seq<Dated>): (r: seq<string>)
  {
    if ds == [] then [] else Months(ds[..|ds| - 1]) + [ds[|ds| - 1].month]
  }

  /** The monthly reducer's update of one bar: income goes to `income`, any
      other type to `expenses`. */
  function AddToMonth(t: Transaction, b: MonthTotals): MonthTotals
  {
    if t.kind == "income" then b.(income := b.income + t.amount) else b.(expenses := b.expenses + t.amount)
  }

  /** One step of the monthly reducer: create the bar on first sight of its
      month, then add the transaction to it. */
  function BookMonth(acc: Tally<MonthTotals>, d: Dated): Tally<MonthTotals>
  {
    var bar := if d.month in acc.entries then acc.entries[d.month] else MonthTotals(d.month, 0.0, 0.0);
    acc.Put(d.month, AddToMonth(d.t, bar))
  }

  /** The monthly `reduce` over a labelled list, from `{}`. */
  function MonthFold(ds: seq<Dated>): (r: Tally<MonthTotals>)
    ensures r.Valid()
    ensures forall m :: m in r.entries ==> r.entries[m].month == m
  {
    if ds == [] then Tally([], map[]) else BookMonth(MonthFold(ds[..|ds| - 1]), ds[|ds| - 1])
  }

  /** `Object.values(monthlyTotals)`: the bars of the monthly chart. */
  function MonthlyTotals(ts: seq<Transaction>): (r: seq<MonthTotals>)
    ensures forall i, j :: 0 <= i < j < |r| ==> r[i].month != r[j].month
    ensures forall i :: 0 <= i < |r| ==> r[i].month !in InheritedNames
  {
    var acc := MonthFold(Labelled(ts));
    MonthKeysLabels(Labelled(ts));
    assert forall i :: 0 <= i < |acc.keys| ==> acc.keys[i] in acc.entries;
    acc.Values()
  }

  /** Every key of the monthly accumulator is a month label. */
  lemma {:induction false} MonthKeysLabels(ds: seq<Dated>)
    requires forall i :: 0 <= i < |ds| ==> ds[i].month !in InheritedNames
    ensures forall m :: m in MonthFold(ds).entries ==> m !in InheritedNames
  {
    if ds != [] {
      MonthKeysLabels(ds[..|ds| - 1]);
    }
  }

  /** The income booked under `month`: the amounts of its `"income"`
      transactions. */
  function IncomeIn(ds: seq<Dated>, month: string): real
  {
    if ds == [] then 0.0
    else
      var d := ds[|ds| - 1];
      IncomeIn(ds[..|ds| - 1], month) + if d.month == month && d.t.kind == "income" then d.t.amount else 0.0
  }

  /** The expenses booked under `month`: the amounts of its transactions of
      any type other than `"income"`. */
  function ExpensesIn(ds: seq<Dated>, month: string): real
  {
    if ds == [] then 0.0
    else
      var d := ds[|ds| - 1];
      ExpensesIn(ds[..|ds| - 1], month) + if d.month == month && d.t.kind != "income" then d.t.amount else 0.0
  }

  lemma {:induction false} NothingInUnseenMonth(ds: seq<Dated>, month: string)
    requires month !in Months(ds)
    ensures IncomeIn(ds, month) == 0.0 && ExpensesIn(ds, month) == 0.0
  {
    if ds != [] {
      NothingInUnseenMonth(ds[..|ds| - 1], month);
    }
  }

  /** `acc` holds the labels of `ds` in order of first appearance, and under
      each the income and the expenses booked under it. */
  ghost predicate MonthsAccount(acc: Tally<MonthTotals>, ds: seq<Dated>)
  {
    && acc.keys == FirstOccurrences(Months(ds))
    && forall m :: m in acc.entries ==> acc.entries[m] == MonthTotals(m, IncomeIn(ds, m), ExpensesIn(ds, m))
  }

  lemma MonthsAppend(ps: seq<Dated>, d: Dated, k: string)
    ensures Months(ps + [d]) == Months(ps) + [d.month]
    ensures IncomeIn(ps + [d], k) == IncomeIn(ps, k) + if d.month == k && d.t.kind == "income" then d.t.amount else 0.0
    ensures ExpensesIn(ps + [d], k) == ExpensesIn(ps, k) + if d.month == k && d.t.kind != "income" then d.t.amount else 0.0
  {
    assert (ps + [d])[..|ps|] == ps;
  }

  lemma FirstOccurrencesAppend(xs: seq<string>, x: string)
    ensures FirstOccurrences(xs + [x]) == if x in FirstOccurrences(xs) then FirstOccurrences(xs) else FirstOccurrences(xs) + [x]
  {
    assert (xs + [x])[..|xs|] == xs;
  }

  lemma BookMonthStep(acc: Tally<MonthTotals>, ps: seq<Dated>, d: Dated)
    requires acc.Valid() && MonthsAccount(acc, ps)
    ensures MonthsAccount(BookMonth(acc, d), ps + [d])
  {
    var ds := ps + [d];
    var r := BookMonth(acc, d);
    MonthsAppend(ps, d, d.month);
    FirstOccurrencesAppend(Months(ps), d.month);
    FirstOccurrencesSound(Months(ps));
    assert r.keys == FirstOccurrences(Months(ds));
    if d.month !in acc.entries {
      NothingInUnseenMonth(ps, d.month);
    }
    forall k | k in r.entries
      ensures r.entries[k] == MonthTotals(k, IncomeIn(ds, k), ExpensesIn(ds, k))
    {
      MonthsAppend(ps, d, k);
    }
  }

  lemma {:induction false} MonthFoldCorrect(ds: seq<Dated>)
    ensures MonthsAccount(MonthFold(ds), ds)
  {
    if ds != [] {
      var ps, d := ds[..|ds| - 1], ds[|ds| - 1];
      MonthFoldCorrect(ps);
      BookMonthStep(MonthFold(ps), ps, d);
      assert ps + [d] == ds;
    }
  }

  /** There is one bar per distinct month label, in order of first
      appearance, holding exactly the income and the expenses of that month. */
  lemma MonthlyTotalsCorrect(ts: seq<Transaction>)
    ensures var ds := Labelled(ts);
      var bars, months := MonthlyTotals(ts), FirstOccurrences(Months(ds));
      && |bars| == |months|
      && forall i :: 0 <= i < |bars| ==> bars[i] == MonthTotals(months[i], IncomeIn(ds, months[i]), ExpensesIn(ds, months[i]))
  {
    MonthFoldCorrect(Labelled(ts));
  }

  /** The total income over all bars. */
  function SumIncome(bs: seq<MonthTotals>): real
  {
    if bs == [] then 0.0 else SumIncome(bs[..|bs| - 1]) + bs[|bs| - 1].income
  }

  /** The total expenses over all bars. */
  function SumExpenses(bs: seq<MonthTotals>): real
  {
    if bs == [] then 0.0 else SumExpenses(bs[..|bs| - 1]) + bs[|bs| - 1].expenses
  }

  lemma {:induction false} SumsAfterUpdate(bs: seq<MonthTotals>, j: nat, b: MonthTotals)
    requires j < |bs|
    ensures SumIncome(bs[j := b]) == SumIncome(bs) - bs[j].income + b.income
    ensures SumExpenses(bs[j := b]) == SumExpenses(bs) - bs[j].expenses + b.expenses
    decreases |bs|
  {
    var n := |bs| - 1;
    if j < n {
      assert bs[j := b][..n] == bs[..n][j := b];
      SumsAfterUpdate(bs[..n], j, b);
    } else {
      assert bs[j := b][..n] == bs[..n];
    }
  }

  /** The amounts of all `"income"` transactions. */
  function IncomeTotal(ts: seq<Transaction>): real
  {
    if ts == [] then 0.0
    else IncomeTotal(ts[..|ts| - 1]) + if ts[|ts| - 1].kind == "income" then ts[|ts| - 1].amount else 0.0
  }

  /** The amounts of all transactions whose type is not `"income"`. */
  function NonIncomeTotal(ts: seq<Transaction>): real
  {
    if ts == [] then 0.0
    else NonIncomeTotal(ts[..|ts| - 1]) + if ts[|ts| - 1].kind != "income" then ts[|ts| - 1].amount else 0.0
  }

  /** The amounts of all transactions. */
  function Total(ts: seq<Transaction>): real
  {
    if ts == [] then 0.0 else Total(ts[..|ts| - 1]) + ts[|ts| - 1].amount
  }

  /** One reducer step adds the amount to exactly one column. */
  lemma BookMonthSums(acc: Tally<MonthTotals>, d: Dated)
    requires acc.Valid()
    ensures SumIncome(BookMonth(acc, d).Values()) == SumIncome(acc.Values()) + if d.t.kind == "income" then d.t.amount else 0.0
    ensures SumExpenses(BookMonth(acc, d).Values()) == SumExpenses(acc.Values()) + if d.t.kind != "income" then d.t.amount else 0.0
  {
    var m := d.month;
    if m in acc.entries {
      var i :| 0 <= i < |acc.keys| && acc.keys[i] == m;
      var b := AddToMonth(d.t, acc.entries[m]);
      PutValuesExisting(acc, m, b, i);
      SumsAfterUpdate(acc.Values(), i, b);
    } else {
      var b := AddToMonth(d.t, MonthTotals(m, 0.0, 0.0));
      PutValuesNew(acc, m, b);
      assert (acc.Values() + [b])[..|acc.keys|] == acc.Values();
    }
  }

  /** The bars' income adds up to the income of the list, and their expenses
      to the amounts of every other transaction. */
  lemma {:induction false} MonthlySums(ts: seq<Transaction>)
    ensures SumIncome(MonthlyTotals(ts)) == IncomeTotal(ts)
    ensures SumExpenses(MonthlyTotals(ts)) == NonIncomeTotal(ts)
  {
    if ts != [] {
      var n := |ts| - 1;
      MonthlySums(ts[..n]);
      var ds := Labelled(ts);
      LabelledPrefix(ts, n);
      assert ds[..|ds| - 1] == Labelled(ts[..n]);
      BookMonthSums(MonthFold(Labelled(ts[..n])), ds[n]);
    }
  }

  lemma {:induction false} IncomeSplit(ts: seq<Transaction>)
    ensures IncomeTotal(ts) + NonIncomeTotal(ts) == Total(ts)
  {
    if ts != [] {
      IncomeSplit(ts[..|ts| - 1]);
    }
  }

  /** Every amount lands in exactly one column of one bar: the grand total of
      the monthly chart is the total of the list. */
  lemma MonthlyConservation(ts: seq<Transaction>)
    ensures SumIncome(MonthlyTotals(ts)) + SumExpenses(MonthlyTotals(ts)) == Total(ts)
  {
    MonthlySums(ts);
    IncomeSplit(ts);
  }

  // ---------------------------------------------------------------------------
  // Category totals

  /** `transactions.filter(t => t.type === 'expense')` */
  function ExpenseTransactions(ts: seq<Transaction>): seq<Transaction>
  {
    if ts == [] then []
    else
      var t := ts[|ts| - 1];
      ExpenseTransactions(ts[..|ts| - 1]) + if t.kind == "expense" then [t] else []
  }

  /** An expense that gets a slice: its category is not one of the names
      every plain object inherits. */
  predicate Charted(t: Transaction)
  {
    t.kind == "expense" && t.category !in InheritedNames
  }

  /** The category of each charted expense, in order. */
  function ChartedCategories(ts: seq<Transaction>): (r: seq<string>)
    ensures forall i :: 0 <= i < |r| ==> r[i] !in InheritedNames
  {
    if ts == [] then []
    else
      var t := ts[|ts| - 1];
      ChartedCategories(ts[..|ts| - 1]) + if Charted(t) then [t.category] else []
  }

  /** One step of the category reducer. An own entry of the category gets the
      amount. Otherwise, a category named like an inherited member finds that
      member truthy and creates nothing; the `+=` then lands on the inherited
      member and the accumulator is left as it was. Any other category gets a
      new slice holding the amount. */
  function BookCategory(acc: Tally<CategoryTotal>, t: Transaction): Tally<CategoryTotal>
  {
    var c := t.category;
    if c in acc.entries then acc.Put(c, acc.entries[c].(value := acc.entries[c].value + t.amount))
    else if c in InheritedNames then acc
    else acc.Put(c, CategoryTotal(c, 0.0 + t.amount))
  }

  /** The category `reduce` over a list, from `{}`: each entry is the slice
      of its own name, and no inherited name gets an entry. */
  function CategoryFold(es: seq<Transaction>): (r: Tally<CategoryTotal>)
    ensures r.Valid()
    ensures forall c :: c in r.entries ==> r.entries[c].name == c && c !in InheritedNames
  {
    if es == [] then Tally([], map[]) else BookCategory(CategoryFold(es[..|es| - 1]), es[|es| - 1])
  }

  /** `Object.values(categoryTotals)`: the slices of the category chart, one
      per name, none named like an inherited member. */
  function CategoryTotals(ts: seq<Transaction>): (r: seq<CategoryTotal>)
    ensures forall i, j :: 0 <= i < j < |r| ==> r[i].name != r[j].name
    ensures forall i :: 0 <= i < |r| ==> r[i].name !in InheritedNames
  {
    var acc := CategoryFold(ExpenseTransactions(ts));
    assert forall i :: 0 <= i < |acc.keys| ==> acc.keys[i] in acc.entries;
    acc.Values()
  }

  /** The amounts of the `"expense"` transactions of category `name`. */
  function SpentOn(ts: seq<Transaction>, name: string): real
  {
    if ts == [] then 0.0
    else
      var t := ts[|ts| - 1];
      SpentOn(ts[..|ts| - 1], name) + if t.kind == "expense" && t.category == name then t.amount else 0.0
  }

  /** The amounts of the `"expense"` transactions whose category is an
      inherited name: they reach no slice. */
  function HiddenTotal(ts: seq<Transaction>): real
  {
    if ts == [] then 0.0
    else
      var t := ts[|ts| - 1];
      HiddenTotal(ts[..|ts| - 1]) + if t.kind == "expense" && t.category in InheritedNames then t.amount else 0.0
  }

  /** The amounts of all `"expense"` transactions. */
  function ExpenseTotal(ts: seq<Transaction>): real
  {
    if ts == [] then 0.0
    else ExpenseTotal(ts[..|ts| - 1]) + if ts[|ts| - 1].kind == "expense" then ts[|ts| - 1].amount else 0.0
  }

  /** The total of all slices. */
  function SumValues(cs: seq<CategoryTotal>): real
  {
    if cs == [] then 0.0 else SumValues(cs[..|cs| - 1]) + cs[|cs| - 1].value
  }

  lemma {:induction false} NothingInUnseenCategory(ts: seq<Transaction>, name: string)
    requires name !in ChartedCategories(ts) && name !in InheritedNames
    ensures SpentOn(ts, name) == 0.0
  {
    if ts != [] {
      NothingInUnseenCategory(ts[..|ts| - 1], name);
    }
  }

  lemma ExpensesAppend(ps: seq<Transaction>, t: Transaction, name: string)
    ensures ExpenseTransactions(ps + [t]) == ExpenseTransactions(ps) + if t.kind == "expense" then [t] else []
    ensures ChartedCategories(ps + [t]) == ChartedCategories(ps) + if Charted(t) then [t.category] else []
    ensures SpentOn(ps + [t], name) == SpentOn(ps, name) + if t.kind == "expense" && t.category == name then t.amount else 0.0
    ensures HiddenTotal(ps + [t]) == HiddenTotal(ps) + if t.kind == "expense" && t.category in InheritedNames then t.amount else 0.0
  {
    assert (ps + [t])[..|ps|] == ps;
  }

  /** Filtering before the fold is the same as a fold that skips every
      transaction whose type is not `"expense"`. */
  lemma CategoryFoldStep(ps: seq<Transaction>, t: Transaction)
    ensures CategoryFold(ExpenseTransactions(ps + [t])) ==
      if t.kind == "expense" then BookCategory(CategoryFold(ExpenseTransactions(ps)), t)
      else CategoryFold(ExpenseTransactions(ps))
  {
    ExpensesAppend(ps, t, t.category);
    var es := ExpenseTransactions(ps);
    if t.kind == "expense" {
      var fs := es + [t];
      assert fs[..|fs| - 1] == es && fs[|fs| - 1] == t;
    } else {
      assert es + [] == es;
    }
  }

  /** `acc` holds the charted categories of `ts` in order of first
      appearance, and under each the total spent in it. */
  ghost predicate CategoriesAccount(acc: Tally<CategoryTotal>, ts: seq<Transaction>)
  {
    && acc.keys == FirstOccurrences(ChartedCategories(ts))
    && forall c :: c in acc.entries ==> acc.entries[c] == CategoryTotal(c, SpentOn(ts, c))
  }

  /** The step keeps the keys in order of first appearance. */
  lemma BookCategoryKeys(acc: Tally<CategoryTotal>, ps: seq<Transaction>, t: Transaction)
    requires acc.Valid() && acc.keys == FirstOccurrences(ChartedCategories(ps)) && t.kind == "expense"
    requires forall c :: c in acc.entries ==> c !in InheritedNames
    ensures BookCategory(acc, t).keys == FirstOccurrences(ChartedCategories(ps + [t]))
  {
    ExpensesAppend(ps, t, t.category);
    var c := t.category;
    if c in InheritedNames {
      assert ChartedCategories(ps + [t]) == ChartedCategories(ps) + [] == ChartedCategories(ps);
      assert c !in acc.entries;
      assert BookCategory(acc, t) == acc;
    } else {
      FirstOccurrencesAppend(ChartedCategories(ps), c);
      if c in acc.entries {
        assert c in acc.keys;
        assert BookCategory(acc, t).keys == acc.keys;
      } else {
        assert c !in acc.keys;
        assert BookCategory(acc, t).keys == acc.keys + [c];
      }
    }
  }

  lemma BookCategoryStep(acc: Tally<CategoryTotal>, ps: seq<Transaction>, t: Transaction)
    requires acc.Valid() && CategoriesAccount(acc, ps) && t.kind == "expense"
    requires forall c :: c in acc.entries ==> c !in InheritedNames
    ensures CategoriesAccount(BookCategory(acc, t), ps + [t])
  {
    var ts := ps + [t];
    var r := BookCategory(acc, t);
    BookCategoryKeys(acc, ps, t);
    if t.category !in acc.entries && t.category !in InheritedNames {
      FirstOccurrencesSound(ChartedCategories(ps));
      NothingInUnseenCategory(ps, t.category);
    }
    forall c | c in r.entries
      ensures r.entries[c] == CategoryTotal(c, SpentOn(ts, c))
    {
      ExpensesAppend(ps, t, c);
    }
  }

  lemma {:induction false} CategoryFoldCorrect(ts: seq<Transaction>)
    ensures CategoriesAccount(CategoryFold(ExpenseTransactions(ts)), ts)
  {
    if ts != [] {
      var ps, t := ts[..|ts| - 1], ts[|ts| - 1];
      assert ps + [t] == ts;
      CategoryFoldCorrect(ps);
      CategoryFoldStep(ps, t);
      if t.kind == "expense" {
        BookCategoryStep(CategoryFold(ExpenseTransactions(ps)), ps, t);
      } else {
        ExpensesAppend(ps, t, t.category);
        assert ChartedCategories(ts) == ChartedCategories(ps) + [] == ChartedCategories(ps);
        forall c | c in CategoryFold(ExpenseTransactions(ts)).entries
          ensures SpentOn(ts, c) == SpentOn(ps, c)
        {
          ExpensesAppend(ps, t, c);
        }
      }
    }
  }

  /** There is one slice per distinct expense category that is not an
      inherited name, in order of first appearance, holding exactly the total
      spent in that category. */
  lemma CategoryTotalsCorrect(ts: seq<Transaction>)
    ensures var slices, names := CategoryTotals(ts), FirstOccurrences(ChartedCategories(ts));
      && |slices| == |names|
      && forall i :: 0 <= i < |slices| ==> slices[i] == CategoryTotal(names[i], SpentOn(ts, names[i]))
  {
    CategoryFoldCorrect(ts);
  }

  /** Appending a transaction of any type but `"expense"` (an income, say)
      leaves the category slices as they were. */
  lemma IncomeNotInCategories(ts: seq<Transaction>, t: Transaction)
    requires t.kind != "expense"
    ensures CategoryTotals(ts + [t]) == CategoryTotals(ts)
  {
    CategoryFoldStep(ts, t);
  }

  lemma {:induction false} ValuesAfterUpdate(cs: seq<CategoryTotal>, j: nat, c: CategoryTotal)
    requires j < |cs|
    ensures SumValues(cs[j := c]) == SumValues(cs) - cs[j].value + c.value
    decreases |cs|
  {
    var n := |cs| - 1;
    if j < n {
      assert cs[j := c][..n] == cs[..n][j := c];
      ValuesAfterUpdate(cs[..n], j, c);
    } else {
      assert cs[j := c][..n] == cs[..n];
    }
  }

  lemma BookCategorySumExisting(acc: Tally<CategoryTotal>, t: Transaction, i: nat)
    requires acc.Valid() && i < |acc.keys| && acc.keys[i] == t.category
    ensures SumValues(BookCategory(acc, t).Values()) == SumValues(acc.Values()) + t.amount
  {
    var c := t.category;
    var s := acc.entries[c].(value := acc.entries[c].value + t.amount);
    assert BookCategory(acc, t) == acc.Put(c, s);
    PutValuesExisting(acc, c, s, i);
    assert acc.Values()[i].value == acc.entries[c].value;
    ValuesAfterUpdate(acc.Values(), i, s);
  }

  lemma BookCategorySumNew(acc: Tally<CategoryTotal>, t: Transaction)
    requires acc.Valid() && t.category !in acc.entries && t.category !in InheritedNames
    ensures SumValues(BookCategory(acc, t).Values()) == SumValues(acc.Values()) + t.amount
  {
    var c := t.category;
    var s := CategoryTotal(c, 0.0 + t.amount);
    PutValuesNew(acc, c, s);
    var vs := acc.Values() + [s];
    assert vs[..|vs| - 1] == acc.Values();
  }

  /** One reducer step adds the amount to exactly one slice, or to none when
      the category is an inherited name without an own entry. */
  lemma BookCategorySum(acc: Tally<CategoryTotal>, t: Transaction)
    requires acc.Valid()
    ensures SumValues(BookCategory(acc, t).Values()) == SumValues(acc.Values()) +
      if t.category !in acc.entries && t.category in InheritedNames then 0.0 else t.amount
  {
    if t.category in acc.entries {
      var i :| 0 <= i < |acc.keys| && acc.keys[i] == t.category;
      BookCategorySumExisting(acc, t, i);
    } else if t.category !in InheritedNames {
      BookCategorySumNew(acc, t);
    }
  }

  /** The slices add up to the amounts of all `"expense"` transactions but
      those filed under an inherited name. */
  lemma {:induction false} CategorySum(ts: seq<Transaction>)
    ensures SumValues(CategoryTotals(ts)) + HiddenTotal(ts) == ExpenseTotal(ts)
  {
    if ts != [] {
      var ps, t := ts[..|ts| - 1], ts[|ts| - 1];
      CategorySum(ps);
      assert ps + [t] == ts;
      CategoryFoldStep(ps, t);
      ExpensesAppend(ps, t, t.category);
      if t.kind == "expense" {
        BookCategorySum(CategoryFold(ExpenseTransactions(ps)), t);
      }
    }
  }

  /** Nothing is hidden when no category is an inherited name. */
  lemma {:induction false} NothingHidden(ts: seq<Transaction>)
    requires forall i :: 0 <= i < |ts| ==> ts[i].category !in InheritedNames
    ensures HiddenTotal(ts) == 0.0
  {
    if ts != [] {
      NothingHidden(ts[..|ts| - 1]);
    }
  }

  predicate WellTyped(ts: seq<Transaction>)
  {
    forall i :: 0 <= i < |ts| ==> ts[i].kind == "income" || ts[i].kind == "expense"
  }

  lemma {:induction false} NonIncomeIsExpense(ts: seq<Transaction>)
    requires WellTyped(ts)
    ensures NonIncomeTotal(ts) == ExpenseTotal(ts)
  {
    if ts != [] {
      NonIncomeIsExpense(ts[..|ts| - 1]);
    }
  }

  /** When every stored type is `"income"` or `"expense"`, the category chart
      shows the expenses of the monthly chart but those filed under an
      inherited name, and exactly those expenses when no category is one. */
  lemma CategoriesMatchMonthlyExpenses(ts: seq<Transaction>)
    requires WellTyped(ts)
    ensures SumValues(CategoryTotals(ts)) + HiddenTotal(ts) == SumExpenses(MonthlyTotals(ts))
    ensures (forall i :: 0 <= i < |ts| ==> ts[i].category !in InheritedNames) ==>
      SumValues(CategoryTotals(ts)) == SumExpenses(MonthlyTotals(ts))
  {
    CategorySum(ts);
    MonthlySums(ts);
    NonIncomeIsExpense(ts);
    if forall i :: 0 <= i < |ts| ==> ts[i].category !in InheritedNames {
      NothingHidden(ts);
    }
  }

  /** A stored transaction of another type counts as an expense in the monthly
      chart but appears in no category. */
  lemma OtherTypeOnlyInMonthly()
    ensures var ts := [Transaction(1, "transfer", 5.0, "Rent", "", "2024-01-01")];
      SumExpenses(MonthlyTotals(ts)) == 5.0 && CategoryTotals(ts) == []
  {
    var ts := [Transaction(1, "transfer", 5.0, "Rent", "", "2024-01-01")];
    MonthlySums(ts);
    assert ts[..0] == [];
  }

  /** An expense filed under "toString" shows in the monthly chart but gets
      no slice. */
  lemma InheritedCategoryDropped()
    ensures var ts := [Transaction(1, "expense", 5.0, "toString", "", "2024-01-01")];
      SumExpenses(MonthlyTotals(ts)) == 5.0 && CategoryTotals(ts) == []
  {
    var ts := [Transaction(1, "expense", 5.0, "toString", "", "2024-01-01")];
    MonthlySums(ts);
    assert ts[..0] == [];
    assert ExpenseTransactions(ts) == ts;
    var es := ExpenseTransactions(ts);
    assert es[..0] == [];
  }

  // ---------------------------------------------------------------------------
  // The reducers as the component runs them

  lemma MonthFoldPrefix(ts: seq<Transaction>, i: nat)
    requires i < |ts|
    ensures MonthFold(Labelled(ts[..i + 1])) == BookMonth(MonthFold(Labelled(ts[..i])), Dated(MonthLabel(ts[i].date), ts[i]))
  {
    var ds := Labelled(ts[..i + 1]);
    assert ds[..i] == Labelled(ts[..i]);
  }

  lemma CategoryFoldPrefix(es: seq<Transaction>, i: nat)
    requires i < |es|
    ensures CategoryFold(es[..i + 1]) == BookCategory(CategoryFold(es[..i]), es[i])
  {
    assert es[..i + 1][..i] == es[..i];
  }

  /** The monthly reducer's callback: labels the transaction's date and books
      it under that label. */
  method MonthCallback(acc: Tally<MonthTotals>, t: Transaction) returns (next: Tally<MonthTotals>)
    ensures next == BookMonth(acc, Dated(MonthLabel(t.date), t))
  {
    var monthYear := MonthLabel(t.date);
    next := BookUnder(acc, monthYear, t);
  }

  /** The callback's body after the label: creates the bar of `monthYear`
      when missing, then adds the amount to its income or expenses. */
  method BookUnder(acc: Tally<MonthTotals>, monthYear: string, t: Transaction) returns (next: Tally<MonthTotals>)
    ensures next == BookMonth(acc, Dated(monthYear, t))
  {
    next := acc;
    if monthYear !in next.entries {
      next := next.Put(monthYear, MonthTotals(monthYear, 0.0, 0.0));
    }
    var bar := next.entries[monthYear];
    if t.kind == "income" {
      next := next.Put(monthYear, bar.(income := bar.income + t.amount));
    } else {
      next := next.Put(monthYear, bar.(expenses := bar.expenses + t.amount));
    }
    PutPut(acc, monthYear, MonthTotals(monthYear, 0.0, 0.0), AddToMonth(t, bar));
  }

  /** A second `Put` of the same key overrides the first. */
  lemma PutPut<V>(o: Tally<V>, k: string, v: V, w: V)
    ensures o.Put(k, v).Put(k, w) == o.Put(k, w)
  {
  }

  /** The category reducer's callback: creates the slice of the category when
      `acc[category]` is missing (neither an own entry nor an inherited
      member), then adds the amount to the own entry, if there is one. */
  method CategoryCallback(acc: Tally<CategoryTotal>, t: Transaction) returns (next: Tally<CategoryTotal>)
    ensures next == BookCategory(acc, t)
  {
    next := acc;
    var c := t.category;
    if c !in next.entries && c !in InheritedNames {
      next := next.Put(c, CategoryTotal(c, 0.0));
    }
    if c in next.entries {
      var slice := next.entries[c];
      next := next.Put(c, slice.(value := slice.value + t.amount));
    }
  }

  /** The monthly `reduce` from `{}`, then `Object.values`. */
  method MonthlyReduce(ts: seq<Transaction>) returns (bars: seq<MonthTotals>)
    ensures bars == MonthlyTotals(ts)
  {
    var acc: Tally<MonthTotals> := Tally([], map[]);
    var i := 0;
    while i < |ts|
      invariant 0 <= i <= |ts|
      invariant acc == MonthFold(Labelled(ts[..i]))
    {
      acc := MonthCallback(acc, ts[i]);
      MonthFoldPrefix(ts, i);
      i := i + 1;
    }
    assert ts[..|ts|] == ts;
    bars := acc.Values();
  }

  /** The category `filter`, the `reduce` from `{}`, then `Object.values`. */
  method CategoryReduce(ts: seq<Transaction>) returns (slices: seq<CategoryTotal>)
    ensures slices == CategoryTotals(ts)
  {
    var expenses := ExpenseTransactions(ts);
    var acc: Tally<CategoryTotal> := Tally([], map[]);
    var i := 0;
    while i < |expenses|
      invariant 0 <= i <= |expenses|
      invariant acc == CategoryFold(expenses[..i])
    {
      acc := CategoryCallback(acc, expenses[i]);
      CategoryFoldPrefix(expenses, i);
      i := i + 1;
    }
    assert expenses[..|expenses|] == expenses;
    slices := acc.Values();
  }

  /** The component's two chart series. */
  class FinancialOverview {
    var monthlyData: seq<MonthTotals>
    var categoryData: seq<CategoryTotal>

    constructor ()
      ensures monthlyData == [] && categoryData == []
    {
      monthlyData := [];
      categoryData := [];
    }

    /** `calculateData`: `saved` is the parsed stored list, `None` when the
        storage item is missing or empty. Both series are replaced. */
    method CalculateData(saved: Option<seq<Transaction>>)
      modifies this
      ensures saved.None? ==> monthlyData == [] && categoryData == []
      ensures saved.Some? ==>
        monthlyData == MonthlyTotals(saved.value) && categoryData == CategoryTotals(saved.value)
    {
      if saved.None? {
        monthlyData := [];
        categoryData := [];
        return;
      }
      var transactions := saved.value;
      var monthlyTotals := MonthlyReduce(transactions);
      var categoryTotals := CategoryReduce(transactions);
      monthlyData := monthlyTotals;
      categoryData := categoryTotals;
    }
  }
}
