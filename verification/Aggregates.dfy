/** Reconciling a counter database: the hourly counts of one path, and the daily and dimension tables that
    must repeat them and hold nothing else. */
module Aggregates {
  import opened Shapes
  import opened Json

  // ---------------------------------------------------------------------------------------------
  // Sums over dictionaries

  ghost function MapSum(m: map<string, nat>): nat
    decreases |m|
  {
    if m == map[] then 0
    else
      var k :| k in m;
      m[k] + MapSum(m - {k})
  }

  lemma {:induction false} MapSumWithout(m: map<string, nat>, k: string)
    requires k in m
    ensures MapSum(m) == m[k] + MapSum(m - {k})
    decreases |m|
  {
    var j :| j in m && MapSum(m) == m[j] + MapSum(m - {j});
    if j != k {
      MapSumWithout(m - {j}, k);
      MapSumWithout(m - {k}, j);
      assert m - {j} - {k} == m - {k} - {j};
    }
  }

  lemma MapSumSet(m: map<string, nat>, k: string, v: nat)
    ensures MapSum(m[k := v]) == MapSum(m) - (if k in m then m[k] else 0) + v
  {
    MapSumWithout(m[k := v], k);
    if k in m {
      MapSumWithout(m, k);
      assert m[k := v] - {k} == m - {k};
    } else {
      assert m[k := v] - {k} == m;
    }
  }

  method SumValues(m: map<string, nat>) returns (sum: nat)
    ensures sum == MapSum(m)
  {
    sum := 0;
    var rest := m;
    while rest != map[]
      invariant sum + MapSum(rest) == MapSum(m)
      decreases |rest|
    {
      var k :| k in rest;
      MapSumWithout(rest, k);
      sum := sum + rest[k];
      rest := rest - {k};
    }
  }

  // ---------------------------------------------------------------------------------------------
  // Hours and days

  /** Which ten characters are a date, as the start of an hour and on their own. */
  datatype Dates = Dates(ofHours: string -> bool, ofDays: string -> bool)

  predicate Digit(c: char) {
    '0' <= c <= '9'
  }

  function HourOf(s: string): nat
    requires |s| == 19 && Digit(s[11]) && Digit(s[12])
  {
    (s[11] as int - '0' as int) * 10 + (s[12] as int - '0' as int)
  }

  function DayOf(s: string): string
    requires |s| == 19
  {
    s[..10]
  }

  /** `YYYY-MM-DD HH:00:00` */
  predicate IsHour(s: string, dates: Dates) {
    |s| == 19 && dates.ofHours(s[..10]) && s[10] == ' ' && Digit(s[11]) && Digit(s[12]) && HourOf(s) < 24
    && s[13..] == ":00:00"
  }

  predicate IsTime(v: Value, hours: bool, dates: Dates) {
    v.Str? && if hours then IsHour(v.text, dates) else dates.ofDays(v.text)
  }

  function HourKey(day: string, h: nat): (s: string)
    requires h < 24
    ensures |day| == 10 ==> |s| == 19 && s[..10] == day
  {
    day + " " + [(h / 10 + '0' as int) as char, (h % 10 + '0' as int) as char] + ":00:00"
  }

  lemma HourKeyIs(s: string, dates: Dates)
    requires IsHour(s, dates)
    ensures s == HourKey(DayOf(s), HourOf(s))
  {
    var t := HourKey(DayOf(s), HourOf(s));
    assert s[..10] == t[..10] && s[13..] == t[13..] && s[10] == t[10] && s[11] == t[11] && s[12] == t[12];
    assert s == s[..10] + [s[10]] + [s[11]] + [s[12]] + s[13..];
    assert t == t[..10] + [t[10]] + [t[11]] + [t[12]] + t[13..];
  }

  lemma HourKeyDiffers(day: string, h: nat, other: string, g: nat)
    requires |day| == 10 && |other| == 10 && h < 24 && g < 24
    ensures HourKey(day, h) == HourKey(other, g) <==> day == other && h == g
  {
    var s, t := HourKey(day, h), HourKey(other, g);
    if s == t {
      assert s[..10] == t[..10];
      assert s[11] == t[11] && s[12] == t[12];
    }
  }

  // ---------------------------------------------------------------------------------------------
  // Tables

  /** A row of a table of totals: what it is of, its hour or day, its count. */
  datatype Row = Row(site: int, path: int, dimension: Value, at: Value, total: Value)

  datatype StatsRow = StatsRow(site: int, path: int, day: Value, stats: Option<Value>)

  /** What the rows must be of. */
  datatype Scope = Scope(site: int, path: int, dates: Dates)

  predicate RowOk(r: Row, s: Scope, dimension: Value, hours: bool) {
    r.site == s.site && r.path == s.path && r.dimension == dimension
    && r.total.Num? && r.total.number >= 1 && IsTime(r.at, hours, s.dates)
  }

  /** All rows in scope, no hour or day twice. */
  predicate TableOk(rows: seq<Row>, s: Scope, dimension: Value, hours: bool) {
    (forall r :: r in rows ==> RowOk(r, s, dimension, hours))
    && forall i, j :: 0 <= i < j < |rows| ==> rows[i].at != rows[j].at
  }

  predicate Typed(rows: seq<Row>) {
    forall r :: r in rows ==> r.at.Str? && r.total.Num? && r.total.number >= 1
  }

  function Table(rows: seq<Row>): map<string, nat>
    requires Typed(rows)
  {
    if rows == [] then map[]
    else
      var last := rows[|rows| - 1];
      Table(rows[..|rows| - 1])[last.at.text := last.total.number]
  }

  function Total(rows: seq<Row>): nat
    requires Typed(rows)
  {
    if rows == [] then 0 else Total(rows[..|rows| - 1]) + rows[|rows| - 1].total.number
  }

  lemma {:induction false} TableKeys(rows: seq<Row>)
    requires Typed(rows)
    ensures forall k :: k in Table(rows) <==> exists i :: 0 <= i < |rows| && rows[i].at == Str(k)
  {
    if rows != [] {
      var front, last := rows[..|rows| - 1], rows[|rows| - 1];
      TableKeys(front);
      forall k ensures k in Table(rows) <==> exists i :: 0 <= i < |rows| && rows[i].at == Str(k) {
        if k in Table(rows) {
          if k == last.at.text {
            assert rows[|rows| - 1].at == Str(k);
          } else {
            var i :| 0 <= i < |front| && front[i].at == Str(k);
            assert rows[i].at == Str(k);
          }
        } else {
          assert forall i :: 0 <= i < |front| ==> rows[i] == front[i];
        }
      }
    }
  }

  /** A table's rows add up to its dictionary's values. */
  lemma {:induction false} TableSum(rows: seq<Row>)
    requires Typed(rows) && forall i, j :: 0 <= i < j < |rows| ==> rows[i].at != rows[j].at
    ensures MapSum(Table(rows)) == Total(rows)
  {
    if rows != [] {
      var front, last := rows[..|rows| - 1], rows[|rows| - 1];
      TableSum(front);
      TableKeys(front);
      assert last.at == Str(last.at.text);
      MapSumSet(Table(front), last.at.text, last.total.number);
    }
  }

  lemma TableTyped(rows: seq<Row>, s: Scope, dimension: Value, hours: bool)
    requires TableOk(rows, s, dimension, hours)
    ensures Typed(rows)
  {
    hide IsTime;
    forall r | r in rows ensures r.at.Str? {
      TimeIsText(r.at, hours, s.dates);
    }
  }

  lemma TableAppend(front: seq<Row>, row: Row, s: Scope, dimension: Value, hours: bool)
    requires TableOk(front, s, dimension, hours) && Typed(front)
    ensures TableOk(front + [row], s, dimension, hours) <==>
              RowOk(row, s, dimension, hours) && row.at.text !in Table(front)
  {
    hide IsTime, Table;
    var rows := front + [row];
    assert row in rows;
    assert forall r :: r in rows <==> r in front || r == row;
    TimeIsText(row.at, hours, s.dates);
    TableKeys(front);
    if RowOk(row, s, dimension, hours) {
      if row.at.text in Table(front) {
        var j :| 0 <= j < |front| && front[j].at == Str(row.at.text);
        assert rows[j].at == rows[|front|].at;
      } else {
        var k := row.at.text;
        assert forall j :: 0 <= j < |front| ==> front[j].at != Str(k);
      }
    }
  }

  lemma TableMore(front: seq<Row>, row: Row)
    requires Typed(front) && row.at.Str? && row.total.Num? && row.total.number >= 1
    ensures Typed(front + [row]) && Table(front + [row]) == Table(front)[row.at.text := row.total.number]
  {
    assert (front + [row])[..|front|] == front;
  }

  lemma TableFront(rows: seq<Row>, n: nat, s: Scope, dimension: Value, hours: bool)
    requires n <= |rows| && TableOk(rows, s, dimension, hours)
    ensures TableOk(rows[..n], s, dimension, hours)
  {
    hide RowOk;
  }

  method Gather(rows: seq<Row>, s: Scope, dimension: Value, hours: bool, table: string)
    returns (r: Result<map<string, nat>>)
    ensures r.Ok? <==> TableOk(rows, s, dimension, hours)
    ensures r.Ok? ==> Typed(rows) && r.value == Table(rows)
  {
    hide IsTime, TableOk, Table, Typed;
    var gathered: map<string, nat> := map[];
    assert TableOk([], s, dimension, hours) && Typed([]) && Table([]) == map[] by { EmptyTable(s, dimension, hours); }
    for i := 0 to |rows|
      invariant TableOk(rows[..i], s, dimension, hours)
      invariant Typed(rows[..i]) && gathered == Table(rows[..i])
    {
      var row := rows[i];
      assert rows[..i + 1] == rows[..i] + [row];
      TableTyped(rows[..i], s, dimension, hours);
      TableAppend(rows[..i], row, s, dimension, hours);
      if TableOk(rows, s, dimension, hours) {
        TableFront(rows, i + 1, s, dimension, hours);
      }
      if !RowOk(row, s, dimension, hours) {
        return Stop(table + "_AGGREGATE_ROW_INVALID");
      }
      TimeIsText(row.at, hours, s.dates);
      TableMore(rows[..i], row);
      if row.at.text in gathered {
        return Stop(table + "_AGGREGATE_DUPLICATE");
      }
      gathered := gathered[row.at.text := row.total.number];
    }
    assert rows[..|rows|] == rows;
    return Ok(gathered);
  }

  lemma EmptyTable(s: Scope, dimension: Value, hours: bool)
    ensures TableOk([], s, dimension, hours) && Typed([]) && Table([]) == map[]
  {
  }

  lemma TimeIsText(v: Value, hours: bool, dates: Dates)
    ensures IsTime(v, hours, dates) ==> v.Str?
  {
  }

  // ---------------------------------------------------------------------------------------------
  // Days

  function NoHours(): (s: seq<nat>)
    ensures |s| == 24
  {
    seq(24, i => 0)
  }

  function Sum(s: seq<nat>): nat {
    if s == [] then 0 else Sum(s[..|s| - 1]) + s[|s| - 1]
  }

  lemma {:induction false} SumSet(s: seq<nat>, i: nat, v: nat)
    requires i < |s|
    ensures Sum(s[i := v]) == Sum(s) - s[i] + v && s[i] <= Sum(s)
  {
    var last := |s| - 1;
    if i == last {
      assert s[i := v][..last] == s[..last];
    } else {
      SumSet(s[..last], i, v);
      assert s[i := v][..last] == s[..last][i := v];
    }
  }

  lemma {:induction false} SumZero(n: nat)
    ensures Sum(seq(n, i => 0)) == 0
  {
    if n > 0 {
      SumZero(n - 1);
      assert seq<nat>(n, i => 0)[..n - 1] == seq<nat>(n - 1, i => 0);
    }
  }

  predicate AllHours(hourly: map<string, nat>, dates: Dates) {
    forall k :: k in hourly ==> IsHour(k, dates)
  }

  /** The counts of a day's 24 hours. */
  function DayHours(hourly: map<string, nat>, day: string): (s: seq<nat>)
    ensures |s| == 24
  {
    seq(24, h requires 0 <= h < 24 => if HourKey(day, h) in hourly then hourly[HourKey(day, h)] else 0)
  }

  function Days(hourly: map<string, nat>): set<string> {
    set k | k in hourly && |k| == 19 :: DayOf(k)
  }

  /** Each day that has a count, with the counts of its hours. */
  function Regrouped(hourly: map<string, nat>): map<string, seq<nat>> {
    map d | d in Days(hourly) :: DayHours(hourly, d)
  }

  function DayTotals(daily: map<string, seq<nat>>): map<string, nat> {
    map d | d in daily :: Sum(daily[d])
  }

  lemma OtherDays(done: map<string, nat>, k: string, total: nat, day: string, dates: Dates)
    requires IsHour(k, dates) && |day| == 10 && day != DayOf(k)
    ensures DayHours(done[k := total], day) == DayHours(done, day)
  {
    forall g: nat | g < 24 ensures HourKey(day, g) != k {
      assert DayOf(HourKey(day, g)) == day;
    }
  }

  lemma SameDay(done: map<string, nat>, k: string, total: nat, dates: Dates)
    requires IsHour(k, dates) && k !in done
    ensures var d, h := DayOf(k), HourOf(k);
            DayHours(done, d)[h] == 0 && DayHours(done[k := total], d) == DayHours(done, d)[h := total]
  {
    var d, h := DayOf(k), HourOf(k);
    HourKeyIs(k, dates);
    forall g: nat | g < 24 && g != h ensures HourKey(d, g) != k {
      HourKeyDiffers(d, h, d, g);
    }
  }

  lemma NewDay(done: map<string, nat>, day: string)
    requires |day| == 10 && day !in Days(done)
    ensures DayHours(done, day) == NoHours()
  {
    forall g: nat | g < 24 ensures HourKey(day, g) !in done {
      assert DayOf(HourKey(day, g)) == day;
    }
  }

  /** An hour's place in the day can be read off it. */
  predicate Timed(k: string) {
    |k| == 19 && Digit(k[11]) && Digit(k[12]) && HourOf(k) < 24
  }

  /** The daily lists with an hour's total added at its place, in a list of zeros for a new day. */
  function Added(daily: map<string, seq<nat>>, k: string, total: nat): map<string, seq<nat>>
    requires Timed(k) && forall d :: d in daily ==> |daily[d]| == 24
  {
    var hours: seq<nat> := if DayOf(k) in daily then daily[DayOf(k)] else NoHours();
    var h := HourOf(k);
    daily[DayOf(k) := hours[h := hours[h] + total]]
  }

  lemma RegroupStep(done: map<string, nat>, k: string, total: nat, dates: Dates)
    requires k !in done && IsHour(k, dates)
    ensures Timed(k) && (forall d :: d in Regrouped(done) ==> |Regrouped(done)[d]| == 24)
    ensures Regrouped(done[k := total]) == Added(Regrouped(done), k, total)
  {
    hide DayHours, IsHour;
    IsHourShape(k, dates);
    var d, h := DayOf(k), HourOf(k);
    var more := done[k := total];
    assert Days(more) == Days(done) + {d};
    SameDay(done, k, total, dates);
    if d !in Days(done) {
      NewDay(done, d);
    }
    forall e | e in Days(done) && e != d ensures DayHours(more, e) == DayHours(done, e) {
      OtherDays(done, k, total, e, dates);
    }
    var was := DayHours(done, d);
    assert d in Regrouped(done) ==> Regrouped(done)[d] == was;
    var next := Added(Regrouped(done), k, total);
    assert Regrouped(more).Keys == next.Keys;
    forall e | e in next ensures Regrouped(more)[e] == next[e] {
    }
  }

  /** A dictionary in two parts. */
  ghost predicate Parts(m: map<string, nat>, a: map<string, nat>, b: map<string, nat>) {
    a.Keys !! b.Keys && m == a + b
  }

  lemma MovePart(m: map<string, nat>, a: map<string, nat>, b: map<string, nat>, k: string)
    requires Parts(m, a, b) && k in b
    ensures k !in a && k in m && b[k] == m[k] && Parts(m, a[k := b[k]], b - {k})
  {
  }

  lemma AllMoved(m: map<string, nat>, a: map<string, nat>)
    ensures Parts(m, map[], m)
    ensures Parts(m, a, map[]) ==> m == a
  {
  }

  method Regroup(hourly: map<string, nat>, dates: Dates) returns (daily: map<string, seq<nat>>)
    requires AllHours(hourly, dates)
    ensures daily == Regrouped(hourly)
  {
    hide IsHour, Regrouped, Added, Timed, Parts;
    AllMoved(hourly, map[]);
    daily := map[];
    var rest := hourly;
    ghost var done: map<string, nat> := map[];
    NothingRegrouped();
    while rest != map[]
      invariant daily == Regrouped(done)
      invariant Parts(hourly, done, rest)
      decreases |rest|
    {
      var k :| k in rest;
      var total := rest[k];
      MovePart(hourly, done, rest, k);
      RegroupStep(done, k, total, dates);
      daily := Added(daily, k, total);
      done := done[k := total];
      rest := rest - {k};
    }
    assert done == hourly by { AllMoved(hourly, done); }
  }

  lemma NothingRegrouped()
    ensures Regrouped(map[]) == map[]
  {
    assert Days(map[]) == {};
  }

  lemma IsHourShape(s: string, dates: Dates)
    ensures IsHour(s, dates) ==> Timed(s)
  {
  }

  lemma AddedAddsUp(daily: map<string, seq<nat>>, k: string, total: nat)
    requires Timed(k) && forall d :: d in daily ==> |daily[d]| == 24
    ensures MapSum(DayTotals(Added(daily, k, total))) == MapSum(DayTotals(daily)) + total
  {
    hide MapSum, HourOf, DayOf;
    var day, h := DayOf(k), HourOf(k);
    var hours: seq<nat> := if day in daily then daily[day] else NoHours();
    SumSet(hours, h, hours[h] + total);
    SumZero(24);
    var sum := Sum(hours) + total;
    assert DayTotals(Added(daily, k, total)) == DayTotals(daily)[day := sum];
    MapSumSet(DayTotals(daily), day, sum);
  }

  predicate IsHours(v: Option<Value>) {
    v.Some? && v.value.Arr? && |v.value.items| == 24 && forall x :: x in v.value.items ==> x.Num? && x.number >= 0
  }

  function Hours(v: Value): seq<nat>
    requires IsHours(Some(v))
  {
    seq(24, i requires 0 <= i < 24 => v.items[i].number)
  }

  predicate StatsRowOk(r: StatsRow, s: Scope) {
    r.site == s.site && r.path == s.path && IsTime(r.day, false, s.dates) && IsHours(r.stats)
  }

  predicate StatsOk(rows: seq<StatsRow>, s: Scope) {
    (forall r :: r in rows ==> StatsRowOk(r, s))
    && forall i, j :: 0 <= i < j < |rows| ==> rows[i].day != rows[j].day
  }

  predicate StatsTyped(rows: seq<StatsRow>) {
    forall r :: r in rows ==> r.day.Str? && IsHours(r.stats)
  }

  function StatsTable(rows: seq<StatsRow>): map<string, seq<nat>>
    requires StatsTyped(rows)
  {
    if rows == [] then map[]
    else
      var last := rows[|rows| - 1];
      StatsTable(rows[..|rows| - 1])[last.day.text := Hours(last.stats.value)]
  }

  lemma {:induction false} StatsTableKeys(rows: seq<StatsRow>)
    requires StatsTyped(rows)
    ensures forall k :: k in StatsTable(rows) <==> exists i :: 0 <= i < |rows| && rows[i].day == Str(k)
  {
    hide IsHours;
    if rows != [] {
      var front, last := rows[..|rows| - 1], rows[|rows| - 1];
      StatsTableKeys(front);
      assert forall i :: 0 <= i < |front| ==> rows[i] == front[i];
      forall k ensures k in StatsTable(rows) <==> exists i :: 0 <= i < |rows| && rows[i].day == Str(k) {
        if k == last.day.text {
          assert rows[|rows| - 1].day == Str(k);
        } else if k in StatsTable(rows) {
          var i :| 0 <= i < |front| && front[i].day == Str(k);
          assert rows[i].day == Str(k);
        }
      }
    }
  }

  lemma StatsMore(front: seq<StatsRow>, row: StatsRow, s: Scope)
    requires StatsTyped(front) && StatsRowOk(row, s)
    ensures row.day.Str? && IsHours(Some(row.stats.value)) && StatsTyped(front + [row])
    ensures StatsTable(front + [row]) == StatsTable(front)[row.day.text := Hours(row.stats.value)]
  {
    hide IsTime, IsHours, Hours;
    TimeIsText(row.day, false, s.dates);
    IsHoursSome(row.stats);
    assert (front + [row])[..|front|] == front;
  }

  lemma StatsAppend(front: seq<StatsRow>, row: StatsRow, s: Scope)
    requires StatsOk(front, s)
    ensures StatsTyped(front)
    ensures StatsOk(front + [row], s) <==> StatsRowOk(row, s) && row.day.text !in StatsTable(front)
    ensures StatsRowOk(row, s) ==>
              IsHours(Some(row.stats.value)) && StatsTyped(front + [row])
              && StatsTable(front + [row]) == StatsTable(front)[row.day.text := Hours(row.stats.value)]
  {
    hide IsTime, IsHours, StatsTable, Hours;
    var rows := front + [row];
    forall r | r in front ensures StatsRowOk(r, s) && r.day.Str? {
      TimeIsText(r.day, false, s.dates);
    }
    assert row in rows && forall i :: 0 <= i < |front| ==> rows[i] == front[i];
    if StatsRowOk(row, s) {
      StatsMore(front, row, s);
      StatsTableKeys(front);
      if row.day.text in StatsTable(front) {
        var j :| 0 <= j < |front| && front[j].day == Str(row.day.text);
        assert rows[j].day == rows[|front|].day;
      } else {
        assert forall j :: 0 <= j < |front| ==> front[j].day != row.day;
      }
    }
  }

  lemma StatsFront(rows: seq<StatsRow>, n: nat, s: Scope)
    requires n <= |rows| && StatsOk(rows, s)
    ensures StatsOk(rows[..n], s)
  {
    hide StatsRowOk;
  }

  method GatherStats(rows: seq<StatsRow>, s: Scope) returns (r: Result<map<string, seq<nat>>>)
    ensures r.Ok? <==> StatsOk(rows, s)
    ensures r.Ok? ==> StatsTyped(rows) && r.value == StatsTable(rows)
  {
    hide IsTime, IsHours, StatsOk, StatsTyped, StatsTable;
    var daily: map<string, seq<nat>> := map[];
    EmptyStats(s);
    for i := 0 to |rows|
      invariant StatsOk(rows[..i], s)
      invariant StatsTyped(rows[..i]) && daily == StatsTable(rows[..i])
    {
      var row := rows[i];
      assert rows[..i + 1] == rows[..i] + [row];
      StatsAppend(rows[..i], row, s);
      if StatsOk(rows, s) {
        StatsFront(rows, i + 1, s);
      }
      if row.site != s.site || row.path != s.path || !IsTime(row.day, false, s.dates) {
        return Stop("DAILY_ROW_INVALID");
      }
      TimeIsText(row.day, false, s.dates);
      if row.day.text in daily {
        return Stop("DAILY_ROW_DUPLICATE");
      }
      if !IsHours(row.stats) {
        return Stop("DAILY_STATS_FORMAT");
      }
      IsHoursSome(row.stats);
      daily := daily[row.day.text := Hours(row.stats.value)];
    }
    assert rows[..|rows|] == rows;
    return Ok(daily);
  }

  lemma EmptyStats(s: Scope)
    ensures StatsOk([], s) && StatsTyped([]) && StatsTable([]) == map[]
  {
  }

  lemma IsHoursSome(v: Option<Value>)
    ensures IsHours(v) ==> v.Some? && IsHours(Some(v.value))
  {
  }

  // ---------------------------------------------------------------------------------------------
  // Reconciliation

  datatype Tables = Tables(
    hits: seq<Row>, refs: seq<Row>, daily: seq<StatsRow>, language: seq<Row>, location: seq<Row>, size: seq<Row>)

  /** A dimension's table repeats the day totals of the daily table. */
  ghost predicate Repeats(rows: seq<Row>, s: Scope, blank: Value, daily: map<string, seq<nat>>) {
    TableOk(rows, s, blank, false) && Typed(rows) && Table(rows) == DayTotals(daily)
  }

  /** Everything is the hourly counts told again, by reference, by day and hour, and by day for each
      dimension, all without a value, and they add up to the views made. */
  ghost predicate Reconciled(t: Tables, s: Scope, views: nat) {
    t.hits != [] && TableOk(t.hits, s, Null, true) && Typed(t.hits) && MapSum(Table(t.hits)) == views
    && TableOk(t.refs, s, Num(1), true) && Typed(t.refs) && Table(t.refs) == Table(t.hits)
    && t.daily != [] && StatsOk(t.daily, s) && StatsTyped(t.daily)
    && StatsTable(t.daily) == Regrouped(Table(t.hits))
    && Repeats(t.language, s, Str(""), StatsTable(t.daily))
    && Repeats(t.location, s, Str(""), StatsTable(t.daily))
    && Repeats(t.size, s, Num(0), StatsTable(t.daily))
  }

  lemma {:induction false} HourTable(rows: seq<Row>, s: Scope, dimension: Value)
    requires TableOk(rows, s, dimension, true) && Typed(rows)
    ensures AllHours(Table(rows), s.dates)
  {
    TableKeys(rows);
    forall k | k in Table(rows) ensures IsHour(k, s.dates) {
      var i :| 0 <= i < |rows| && rows[i].at == Str(k);
      assert RowOk(rows[i], s, dimension, true);
    }
  }

  method CheckDimension(rows: seq<Row>, s: Scope, blank: Value, daily: map<string, seq<nat>>, table: string)
    returns (stop: Option<string>)
    ensures stop.None? <==> Repeats(rows, s, blank, daily)
  {
    var gathered := Gather(rows, s, blank, false, table);
    if gathered.Stop? {
      return Some(gathered.code);
    }
    return if gathered.value != DayTotals(daily) then Some(table + "_AGGREGATE_MISMATCH") else None;
  }

  /** A pass exactly when everything is reconciled. */
  method InspectAggregates(t: Tables, s: Scope, views: nat) returns (stop: Option<string>)
    ensures stop.None? <==> Reconciled(t, s, views)
  {
    hide TableOk, StatsOk, Table, StatsTable, Regrouped, Repeats, Typed, StatsTyped, MapSum, AllHours;
    if t.hits == [] {
      return Some("NO_AGGREGATE_COUNTS");
    }
    var hits := Gather(t.hits, s, Null, true, "HIT");
    if hits.Stop? {
      return Some(hits.code);
    }
    var hourly := hits.value;
    var sum := SumValues(hourly);
    if sum != views {
      return Some("PAGEVIEW_TOTAL_MISMATCH");
    }
    var refs := Gather(t.refs, s, Num(1), true, "REF");
    if refs.Stop? {
      return Some(refs.code);
    }
    if refs.value != hourly {
      return Some("REF_AGGREGATE_MISMATCH");
    }
    HourTable(t.hits, s, Null);
    var expected := Regroup(hourly, s.dates);
    if t.daily == [] {
      return Some("NO_DAILY_STATS");
    }
    var actual := GatherStats(t.daily, s);
    if actual.Stop? {
      return Some(actual.code);
    }
    if actual.value != expected {
      return Some("DAILY_COUNTS_MISMATCH");
    }
    stop := CheckDimension(t.language, s, Str(""), expected, "LANGUAGE");
    if stop.Some? {
      return;
    }
    stop := CheckDimension(t.location, s, Str(""), expected, "LOCATION");
    if stop.Some? {
      return;
    }
    stop := CheckDimension(t.size, s, Num(0), expected, "SIZE");
  }

  /** In a reconciled database every table adds up to the views made: none were lost or made up in any of
      the regroupings. */
  lemma EveryTableAddsUp(t: Tables, s: Scope, views: nat)
    requires Reconciled(t, s, views)
    ensures Total(t.hits) == Total(t.refs) == Total(t.language) == Total(t.location) == Total(t.size) == views
    ensures MapSum(DayTotals(StatsTable(t.daily))) == views
  {
    hide MapSum, Regrouped, IsHours;
    TableSum(t.hits);
    TableSum(t.refs);
    TableSum(t.language);
    TableSum(t.location);
    TableSum(t.size);
    HourTable(t.hits, s, Null);
    RegroupingAddsUp(Table(t.hits), s.dates);
  }

  lemma {:induction false} TableAt(rows: seq<Row>, r: Row)
    requires Typed(rows) && (forall i, j :: 0 <= i < j < |rows| ==> rows[i].at != rows[j].at) && r in rows
    ensures r.at.text in Table(rows) && Table(rows)[r.at.text] == r.total.number
  {
    var front, last := rows[..|rows| - 1], rows[|rows| - 1];
    assert rows == front + [last];
    if r != last {
      TableAt(front, r);
      var i :| 0 <= i < |front| && front[i] == r;
      assert rows[i].at != last.at;
    }
  }

  /** The rows have each other's hours and counts. */
  ghost predicate Mirrors(a: seq<Row>, b: seq<Row>) {
    forall x :: x in a ==> exists y :: y in b && y.at == x.at && y.total == x.total
  }

  lemma SameTableMirrors(a: seq<Row>, b: seq<Row>, s: Scope, da: Value, db: Value)
    requires TableOk(a, s, da, true) && Typed(a) && TableOk(b, s, db, true) && Typed(b) && Table(a) == Table(b)
    ensures Mirrors(a, b)
  {
    hide Table, RowOk;
    forall x | x in a ensures exists y :: y in b && y.at == x.at && y.total == x.total {
      TableAt(a, x);
      TableKeys(b);
      var i :| 0 <= i < |b| && b[i].at == Str(x.at.text);
      TableAt(b, b[i]);
    }
  }

  /** A row of a day: of the scope, of no visitor's anything, with the views of the day's hours. */
  ghost predicate OfDay(r: Row, s: Scope, blank: Value, hourly: map<string, nat>) {
    r.site == s.site && r.path == s.path && r.dimension == blank && r.at.Str? && s.dates.ofDays(r.at.text)
    && r.total == Num(Sum(DayHours(hourly, r.at.text)))
  }

  lemma RepeatsOfDays(rows: seq<Row>, s: Scope, blank: Value, hourly: map<string, nat>)
    requires Repeats(rows, s, blank, Regrouped(hourly))
    ensures forall r :: r in rows ==> OfDay(r, s, blank, hourly)
  {
    hide Table, Sum, DayHours;
    forall r | r in rows ensures OfDay(r, s, blank, hourly) {
      assert RowOk(r, s, blank, false);
      TableAt(rows, r);
      assert r.at.text in DayTotals(Regrouped(hourly));
    }
  }

  /** What a passing database holds, row by row: the hourly counts of the one path, the same again under
      the one blank reference, and for each day the views of its hours, under no language, no location and
      no screen size. */
  lemma RowsAre(t: Tables, s: Scope, views: nat)
    requires Reconciled(t, s, views)
    ensures forall r :: r in t.hits ==>
              r.site == s.site && r.path == s.path && r.at.Str? && IsHour(r.at.text, s.dates)
              && r.total.Num? && r.total.number >= 1
    ensures forall r :: r in t.refs ==> r.site == s.site && r.path == s.path && r.dimension == Num(1)
    ensures Mirrors(t.hits, t.refs) && Mirrors(t.refs, t.hits) && Typed(t.hits)
    ensures forall r :: r in t.language || r in t.location ==> OfDay(r, s, Str(""), Table(t.hits))
    ensures forall r :: r in t.size ==> OfDay(r, s, Num(0), Table(t.hits))
  {
    hide IsHour, StatsOk, StatsTable, StatsTyped, MapSum, Mirrors, OfDay, Repeats, Table, Regrouped;
    SameTableMirrors(t.hits, t.refs, s, Null, Num(1));
    SameTableMirrors(t.refs, t.hits, s, Num(1), Null);
    RepeatsOfDays(t.language, s, Str(""), Table(t.hits));
    RepeatsOfDays(t.location, s, Str(""), Table(t.hits));
    RepeatsOfDays(t.size, s, Num(0), Table(t.hits));
  }

  lemma NoTotals()
    ensures DayTotals(map[]) == map[]
  {
  }

  /** Regrouping hours into days keeps their sum. */
  lemma {:induction false} RegroupingAddsUp(hourly: map<string, nat>, dates: Dates)
    requires AllHours(hourly, dates)
    ensures MapSum(DayTotals(Regrouped(hourly))) == MapSum(hourly)
    decreases |hourly|
  {
    hide IsHour, Regrouped, Added, Timed, MapSum, DayTotals;
    if hourly == map[] {
      NothingRegrouped();
      NoTotals();
    } else {
      var k :| k in hourly;
      var fewer := hourly - {k};
      RegroupingAddsUp(fewer, dates);
      RegroupStep(fewer, k, hourly[k], dates);
      AddedAddsUp(Regrouped(fewer), k, hourly[k]);
      MapSumSet(fewer, k, hourly[k]);
      assert fewer[k := hourly[k]] == hourly;
    }
  }
}
