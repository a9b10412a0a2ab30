/**
 Yearly figures by month of a zone and by province: days under warning,
 earthquakes and burnt areas (app/analytics/queries/zones.py).
 */
module Zones {
  import opened Common
  import opened NotificationTables

  /** A civil day in Europe/Madrid. */
  datatype Day = Day(n: int)

  datatype Calendar = Calendar(year: Day -> int, month: Day -> int)

  ghost predicate IsCalendar(cal: Calendar) {
    && (forall a: Day, b: Day :: a.n <= b.n ==> cal.year(a) <= cal.year(b))
    && (forall d: Day :: 1 <= cal.month(d) <= 12)
  }

  /** A row of a snapshot. The days are the local dates of starts_at and of
      coalesce(ends_at, starts_at); an event superseded before it starts has
      `lastDay` < `firstDay`. `inCircle` tells ST_DWithin of the circle asked for. */
  datatype Event = Event(
    hazardType: HazardType, severity: int, province: Option<string>, firstDay: Day, lastDay: Day,
    kind: string, magnitude: Option<real>, inCircle: bool)

  datatype Zone = Everywhere | InProvince(code: string) | InCircle

  predicate InZone(e: Event, zone: Zone) {
    match zone
    case Everywhere => true
    case InProvince(code) => e.province == Some(code)
    case InCircle => e.inCircle
  }

  datatype Grouping = ByMonth | ByProvince

  datatype Key = Month(m: int) | Province(code: string)

  // ----- Days under warning, as the query computes them -----

  predicate IsWarning(e: Event) { e.hazardType == WeatherWarning && e.severity >= 2 }

  predicate Covers(e: Event, d: Day) { e.firstDay.n <= d.n <= e.lastDay.n }

  /** WHERE: the year of the first and of the last day bound the year asked for. */
  predicate Kept(e: Event, zone: Zone, cal: Calendar, year: int) {
    IsWarning(e) && cal.year(e.firstDay) <= year && cal.year(e.lastDay) >= year && InZone(e, zone)
  }

  function Filtered(es: seq<Event>, zone: Zone, cal: Calendar, year: int): seq<Event> {
    if es == [] then []
    else Filtered(es[..|es| - 1], zone, cal, year) + if Kept(es[|es| - 1], zone, cal, year) then [es[|es| - 1]] else []
  }

  /** A day of a province, or of the whole zone. */
  datatype Cell = Cell(province: Option<string>, day: Day)

  function CellOf(g: Grouping, e: Event, d: Day): Cell { Cell(if g == ByProvince then e.province else None, d) }

  /** unnest(generate_series(d0, d1)), grouped. */
  function Cells(es: seq<Event>, g: Grouping): set<Cell> {
    if es == [] then {}
    else
      var e := es[|es| - 1];
      Cells(es[..|es| - 1], g) + (set n | e.firstDay.n <= n <= e.lastDay.n :: CellOf(g, e, Day(n)))
  }

  /** max(severity) of a group; 0 for no row. */
  function CellLevel(es: seq<Event>, g: Grouping, c: Cell): int {
    if es == [] then 0
    else
      var (before, e) := (CellLevel(es[..|es| - 1], g, c), es[|es| - 1]);
      if CellOf(g, e, c.day) == c && Covers(e, c.day) then Max(before, e.severity) else before
  }

  function Worst(es: seq<Event>, g: Grouping, zone: Zone, cal: Calendar, year: int): map<Cell, int> {
    var kept := Filtered(es, zone, cal, year);
    map c | c in Cells(kept, g) && cal.year(c.day) == year :: CellLevel(kept, g, c)
  }

  function KeyOf(g: Grouping, cal: Calendar, c: Cell): Option<Key> {
    match g
    case ByMonth => Some(Month(cal.month(c.day)))
    case ByProvince => if c.province.Some? then Some(Province(c.province.value)) else None
  }

  function CellsWith(worst: map<Cell, int>, g: Grouping, cal: Calendar, k: Key, level: int): set<Cell> {
    set c | c in worst && KeyOf(g, cal, c) == Some(k) && worst[c] == level
  }

  datatype Row = Row(key: Key, level: int, days: nat)

  /** `rows` is the answer to the query: one row per key and level that occurs. */
  ghost predicate IsCount(rows: seq<Row>, worst: map<Cell, int>, g: Grouping, cal: Calendar) {
    && (forall r :: r in rows ==> r.days == |CellsWith(worst, g, cal, r.key, r.level)| > 0)
    && (forall i, j :: 0 <= i < j < |rows| ==> rows[i].key != rows[j].key || rows[i].level != rows[j].level)
    && (forall k, l :: CellsWith(worst, g, cal, k, l) != {} ==> exists r :: r in rows && r.key == k && r.level == l)
  }

  predicate HasRow(rows: seq<Row>, k: Key, level: int) { exists r :: r in rows && r.key == k && r.level == level }

  type DayTable = map<Key, map<int, nat>>

  /** `days.get(k, {}).get(level, 0)`. */
  function DaysAt(t: DayTable, k: Key, level: int): nat {
    if k in t && level in t[k] then t[k][level] else 0
  }

  /** `out.setdefault(key, {})[level] = days`. */
  function Put(t: DayTable, r: Row): DayTable {
    var levels: map<int, nat> := if r.key in t then t[r.key] else map[];
    t[r.key := levels[r.level := r.days]]
  }

  function Filled(rows: seq<Row>): DayTable {
    if rows == [] then map[] else Put(Filled(rows[..|rows| - 1]), rows[|rows| - 1])
  }

  lemma PutTells(t: DayTable, r: Row, k: Key, level: int)
    ensures DaysAt(Put(t, r), k, level) == if k == r.key && level == r.level then r.days else DaysAt(t, k, level)
  {
  }

  /** The dict holds the days of the row of each key and level, and nothing else. */
  lemma {:induction false} FilledTells(rows: seq<Row>, k: Key, level: int)
    requires forall i, j :: 0 <= i < j < |rows| ==> rows[i].key != rows[j].key || rows[i].level != rows[j].level
    ensures forall r :: r in rows && r.key == k && r.level == level ==> DaysAt(Filled(rows), k, level) == r.days
    ensures !HasRow(rows, k, level) ==> DaysAt(Filled(rows), k, level) == 0
  {
    if rows != [] {
      var (init, r) := (rows[..|rows| - 1], rows[|rows| - 1]);
      assert rows == init + [r];
      FilledTells(init, k, level);
      PutTells(Filled(init), r, k, level);
      if k == r.key && level == r.level {
        assert forall x :: x in init ==> x.key != k || x.level != level;
      }
      hide Put, DaysAt;
    }
  }

  /** The loop that fills the nested dict from the answer of the query. */
  method WarningDays(
    rows: seq<Row>, ghost worst: map<Cell, int>, ghost g: Grouping, ghost cal: Calendar) returns (out: DayTable)
    requires IsCount(rows, worst, g, cal)
    ensures out == Filled(rows)
    ensures forall k, l :: DaysAt(out, k, l) == |CellsWith(worst, g, cal, k, l)|
  {
    FilledCounts(rows, worst, g, cal);
    hide IsCount, CellsWith, DaysAt;
    out := map[];
    for i := 0 to |rows|
      invariant out == Filled(rows[..i])
    {
      assert rows[..i + 1][..i] == rows[..i];
      var r := rows[i];
      if r.key !in out { out := out[r.key := map[]]; }
      var levels: map<int, nat> := out[r.key];
      levels := levels[r.level := r.days];
      out := out[r.key := levels];
    }
    assert rows[..|rows|] == rows;
  }

  lemma FilledCounts(rows: seq<Row>, worst: map<Cell, int>, g: Grouping, cal: Calendar)
    requires IsCount(rows, worst, g, cal)
    ensures forall k, l :: DaysAt(Filled(rows), k, l) == |CellsWith(worst, g, cal, k, l)|
  {
    hide CellsWith, Filled, DaysAt;
    forall k, l ensures DaysAt(Filled(rows), k, l) == |CellsWith(worst, g, cal, k, l)| {
      FilledTells(rows, k, l);
      if CellsWith(worst, g, cal, k, l) != {} {
        var r :| r in rows && r.key == k && r.level == l;
      } else {
        assert !HasRow(rows, k, l);
      }
    }
  }

  // ----- The plain definition -----

  /** The worst warning that covers the day in the zone; 0 if none does. */
  function Level(es: seq<Event>, zone: Zone, d: Day): int {
    if es == [] then 0
    else
      var (before, e) := (Level(es[..|es| - 1], zone, d), es[|es| - 1]);
      if IsWarning(e) && InZone(e, zone) && Covers(e, d) then Max(before, e.severity) else before
  }

  function Span(e: Event): set<Day> { set n | e.firstDay.n <= n <= e.lastDay.n :: Day(n) }

  function DaysOf(es: seq<Event>): set<Day> {
    if es == [] then {}
    else DaysOf(es[..|es| - 1]) + Span(es[|es| - 1])
  }

  /** The days of the year at this level. */
  function YearDays(es: seq<Event>, zone: Zone, cal: Calendar, year: int, level: int): set<Day> {
    set d | d in DaysOf(es) && cal.year(d) == year && Level(es, zone, d) == level
  }

  function MonthDays(es: seq<Event>, zone: Zone, cal: Calendar, year: int, m: int, level: int): set<Day> {
    set d | d in YearDays(es, zone, cal, year, level) && cal.month(d) == m
  }

  lemma {:induction false} LevelIsWorst(es: seq<Event>, zone: Zone, d: Day)
    ensures Level(es, zone, d) == 0 || Level(es, zone, d) >= 2
    ensures Level(es, zone, d) > 0 ==>
              d in DaysOf(es) && exists e ::
                  e in es && IsWarning(e) && InZone(e, zone) && Covers(e, d) && e.severity == Level(es, zone, d)
    ensures forall e :: e in es && IsWarning(e) && InZone(e, zone) && Covers(e, d) ==> e.severity <= Level(es, zone, d)
  {
    if es != [] {
      var (init, e) := (es[..|es| - 1], es[|es| - 1]);
      assert es == init + [e];
      LevelIsWorst(init, zone, d);
      if IsWarning(e) && InZone(e, zone) && Covers(e, d) { assert e in es; }
    }
  }

  /** Dropping the events that do not touch the year, and grouping, loses no day
      and no level of that year. */
  lemma {:induction false} FilterKeepsLevel(
    es: seq<Event>, g: Grouping, zone: Zone, cal: Calendar, year: int, c: Cell, plain: Zone)
    requires IsCalendar(cal) && cal.year(c.day) == year
    requires forall e: Event :: InZone(e, zone) && CellOf(g, e, c.day) == c <==> InZone(e, plain)
    ensures var kept := Filtered(es, zone, cal, year);
            && CellLevel(kept, g, c) == Level(es, plain, c.day)
            && (c in Cells(kept, g) <==> Level(es, plain, c.day) > 0)
  {
    if es != [] {
      var (init, e) := (es[..|es| - 1], es[|es| - 1]);
      FilterKeepsLevel(init, g, zone, cal, year, c, plain);
      LevelIsWorst(init, plain, c.day);
      var before := Filtered(init, zone, cal, year);
      assert (InZone(e, zone) && CellOf(g, e, c.day) == c) <==> InZone(e, plain);
      assert Covers(e, c.day) ==> cal.year(e.firstDay) <= cal.year(c.day) <= cal.year(e.lastDay);
      assert Filtered(es, zone, cal, year) == if Kept(e, zone, cal, year) then before + [e] else before;
      assert IsWarning(e) ==> e.severity >= 2;
      hide IsCalendar, InZone, CellLevel, Cells, Filtered;
      OneMoreEvent(before, e, g, c);
    }
  }

  lemma OneMoreEvent(es: seq<Event>, e: Event, g: Grouping, c: Cell)
    ensures var hit := CellOf(g, e, c.day) == c && Covers(e, c.day);
            && CellLevel(es + [e], g, c) == (if hit then Max(CellLevel(es, g, c), e.severity) else CellLevel(es, g, c))
            && (c in Cells(es + [e], g) <==> c in Cells(es, g) || hit)
  {
    assert (es + [e])[..|es|] == es;
    if CellOf(g, e, c.day) == c && Covers(e, c.day) {
      assert c == CellOf(g, e, Day(c.day.n));
    }
  }

  function CellsOn(days: set<Day>, province: Option<string>): set<Cell> { set d | d in days :: Cell(province, d) }

  lemma {:induction false} SameSize(days: set<Day>, province: Option<string>)
    ensures |CellsOn(days, province)| == |days|
  {
    if days != {} {
      var d :| d in days;
      SameSize(days - {d}, province);
      assert CellsOn(days, province) == CellsOn(days - {d}, province) + {Cell(province, d)};
    }
  }

  /** By month: each day of the year counts once, at the level of its worst warning. */
  lemma MonthsAreExact(es: seq<Event>, zone: Zone, cal: Calendar, year: int, m: int, level: int)
    requires IsCalendar(cal) && level >= 2
    ensures |CellsWith(Worst(es, ByMonth, zone, cal, year), ByMonth, cal, Month(m), level)|
        == |MonthDays(es, zone, cal, year, m, level)|
  {
    var days := MonthDays(es, zone, cal, year, m, level);
    var worst := Worst(es, ByMonth, zone, cal, year);
    forall c ensures c in CellsWith(worst, ByMonth, cal, Month(m), level) <==> c in CellsOn(days, None) {
      if c in worst { InCellsHasNoProvince(Filtered(es, zone, cal, year), c); }
      if c.province.None? && cal.year(c.day) == year {
        FilterKeepsLevel(es, ByMonth, zone, cal, year, c, zone);
        LevelIsWorst(es, zone, c.day);
      }
      hide CellLevel, Level, Cells, Filtered, DaysOf, IsCalendar;
    }
    SameSize(days, None);
    hide *;
    assert CellsWith(worst, ByMonth, cal, Month(m), level) == CellsOn(days, None);
  }

  lemma {:induction false} InCellsHasNoProvince(es: seq<Event>, c: Cell)
    requires c in Cells(es, ByMonth)
    ensures c.province.None?
  {
    if c in Cells(es[..|es| - 1], ByMonth) { InCellsHasNoProvince(es[..|es| - 1], c); }
  }

  /** By province: the same days, grouped per province in one query. */
  lemma ProvincesAreExact(es: seq<Event>, cal: Calendar, year: int, code: string, level: int)
    requires IsCalendar(cal) && level >= 2
    ensures |CellsWith(Worst(es, ByProvince, Everywhere, cal, year), ByProvince, cal, Province(code), level)|
            == |YearDays(es, InProvince(code), cal, year, level)|
  {
    var days := YearDays(es, InProvince(code), cal, year, level);
    var worst := Worst(es, ByProvince, Everywhere, cal, year);
    forall c ensures c in CellsWith(worst, ByProvince, cal, Province(code), level) <==> c in CellsOn(days, Some(code)) {
      if c.province == Some(code) && cal.year(c.day) == year {
        FilterKeepsLevel(es, ByProvince, Everywhere, cal, year, c, InProvince(code));
        LevelIsWorst(es, InProvince(code), c.day);
      }
      hide CellLevel, Level, Cells, Filtered, DaysOf, IsCalendar;
    }
    SameSize(days, Some(code));
    hide *;
    assert CellsWith(worst, ByProvince, cal, Province(code), level) == CellsOn(days, Some(code));
  }

  /** A warning that is nowhere the worst changes no figure: an Update that
      replaces a warning adds no days. */
  lemma DominatedChangesNothing(es: seq<Event>, e: Event, zone: Zone, cal: Calendar, year: int, level: int)
    requires level >= 2
    requires forall d | cal.year(d) == year && Covers(e, d) && IsWarning(e) && InZone(e, zone) ::
        e.severity <= Level(es, zone, d)
    ensures YearDays(es + [e], zone, cal, year, level) == YearDays(es, zone, cal, year, level)
    ensures forall m :: MonthDays(es + [e], zone, cal, year, m, level) == MonthDays(es, zone, cal, year, m, level)
  {
    assert (es + [e])[..|es|] == es;
    forall d ensures d in YearDays(es + [e], zone, cal, year, level) <==> d in YearDays(es, zone, cal, year, level) {
      LevelIsWorst(es, zone, d);
      LevelIsWorst(es + [e], zone, d);
    }
  }

  // ----- Earthquakes and burnt areas -----

  datatype Figure = Quakes | Fires

  predicate Counts(e: Event, f: Figure, zone: Zone, cal: Calendar, year: int) {
    && (match f
        case Quakes => e.hazardType == Earthquake
        case Fires => e.hazardType == Wildfire && e.kind == "burnt_area")
    && cal.year(e.firstDay) == year && InZone(e, zone)
  }

  function EventKey(g: Grouping, cal: Calendar, e: Event): Option<Key> {
    match g
    case ByMonth => Some(Month(cal.month(e.firstDay)))
    case ByProvince => if e.province.Some? then Some(Province(e.province.value)) else None
  }

  function Stronger(a: Option<real>, b: Option<real>): Option<real> {
    match (a, b)
    case (None, _) => b
    case (_, None) => a
    case (Some(x), Some(y)) => Some(if x < y then y else x)
  }

  datatype Total = Total(count: nat, magnitude: Option<real>)

  function Plus(a: Total, b: Total): Total { Total(a.count + b.count, Stronger(a.magnitude, b.magnitude)) }

  const ZERO := Total(0, None)

  function Once(e: Event, f: Figure): Total { Total(1, if f == Quakes then e.magnitude else None) }

  /** count(*) and max(magnitude) of a group of the query. */
  function Grouped(es: seq<Event>, f: Figure, g: Grouping, zone: Zone, cal: Calendar, year: int, k: Key): Total {
    if es == [] then ZERO
    else
      var (before, e) := (Grouped(es[..|es| - 1], f, g, zone, cal, year, k), es[|es| - 1]);
      if Counts(e, f, zone, cal, year) && EventKey(g, cal, e) == Some(k) then Plus(before, Once(e, f)) else before
  }

  // ----- What the figures mean -----

  predicate Inside(e: Event, zone: Zone) {
    (zone.InProvince? ==> e.province == Some(zone.code)) && (zone.InCircle? ==> e.inCircle)
  }

  /** An earthquake, or a burnt area, that began that year in the zone and belongs to
      the month or province. */
  predicate IsCounted(e: Event, f: Figure, zone: Zone, cal: Calendar, year: int, k: Key) {
    && (f == Quakes ==> e.hazardType == Earthquake)
    && (f == Fires ==> e.hazardType == Wildfire && e.kind == "burnt_area")
    && cal.year(e.firstDay) == year && Inside(e, zone)
    && (k.Month? ==> cal.month(e.firstDay) == k.m)
    && (k.Province? ==> e.province == Some(k.code))
  }

  datatype Index = Index(i: nat)

  /** The places of the counted events. */
  function CountedAt(es: seq<Event>, f: Figure, zone: Zone, cal: Calendar, year: int, k: Key): set<Index> {
    set i: nat | i < |es| && IsCounted(es[i], f, zone, cal, year, k) :: Index(i)
  }

  /** The strongest magnitude among the counted events; none if none has one. */
  ghost predicate IsStrongest(m: Option<real>, es: seq<Event>, zone: Zone, cal: Calendar, year: int, k: Key) {
    match m
    case None => forall e :: e in es && IsCounted(e, Quakes, zone, cal, year, k) ==> e.magnitude.None?
    case Some(x) =>
      && (exists e :: e in es && IsCounted(e, Quakes, zone, cal, year, k) && e.magnitude == Some(x))
      && forall e :: e in es && IsCounted(e, Quakes, zone, cal, year, k) && e.magnitude.Some? ==> e.magnitude.value <= x
  }

  predicate SameKind(g: Grouping, k: Key) { g == ByMonth <==> k.Month? }

  lemma CountedGrows(es: seq<Event>, e: Event, f: Figure, zone: Zone, cal: Calendar, year: int, k: Key)
    ensures |CountedAt(es + [e], f, zone, cal, year, k)|
            == |CountedAt(es, f, zone, cal, year, k)| + if IsCounted(e, f, zone, cal, year, k) then 1 else 0
  {
    hide IsCounted;
    var (before, after) := (CountedAt(es, f, zone, cal, year, k), CountedAt(es + [e], f, zone, cal, year, k));
    var here := if IsCounted(e, f, zone, cal, year, k) then {Index(|es|)} else {};
    forall x ensures x in after <==> x in before || x in here {
      InCounted(es, f, zone, cal, year, k, x);
      InCounted(es + [e], f, zone, cal, year, k, x);
    }
    InCounted(es, f, zone, cal, year, k, Index(|es|));
    hide *;
    assert after == before + here && before !! here;
  }

  lemma InCounted(es: seq<Event>, f: Figure, zone: Zone, cal: Calendar, year: int, k: Key, x: Index)
    ensures x in CountedAt(es, f, zone, cal, year, k) <==> x.i < |es| && IsCounted(es[x.i], f, zone, cal, year, k)
  {
    hide IsCounted;
  }

  lemma StrongestGrows(m: Option<real>, es: seq<Event>, e: Event, zone: Zone, cal: Calendar, year: int, k: Key)
    requires IsStrongest(m, es, zone, cal, year, k)
    ensures IsStrongest(
              if IsCounted(e, Quakes, zone, cal, year, k) then Stronger(m, e.magnitude)
                  else m, es + [e], zone, cal, year, k)
  {
    assert forall x :: x in es + [e] <==> x in es || x == e;
    hide IsCounted;
  }

  /** A figure of a table counts each event of its month or province once and shows
      the strongest magnitude among them. */
  lemma {:induction false} FigureIsExact(
    es: seq<Event>, f: Figure, g: Grouping, zone: Zone, cal: Calendar, year: int, k: Key)
    requires SameKind(g, k)
    ensures Grouped(es, f, g, zone, cal, year, k).count == |CountedAt(es, f, zone, cal, year, k)|
    ensures f == Quakes ==> IsStrongest(Grouped(es, f, g, zone, cal, year, k).magnitude, es, zone, cal, year, k)
  {
    if es != [] {
      var (init, e) := (es[..|es| - 1], es[|es| - 1]);
      assert es == init + [e];
      FigureIsExact(init, f, g, zone, cal, year, k);
      CountedGrows(init, e, f, zone, cal, year, k);
      var t := Grouped(init, f, g, zone, cal, year, k);
      if f == Quakes { StrongestGrows(t.magnitude, init, e, zone, cal, year, k); }
      CountedIsKept(e, f, g, zone, cal, year, k);
      hide IsCounted, CountedAt, IsStrongest, Counts, EventKey;
    } else {
      assert CountedAt([], f, zone, cal, year, k) == {};
    }
  }

  lemma CountedIsKept(e: Event, f: Figure, g: Grouping, zone: Zone, cal: Calendar, year: int, k: Key)
    requires SameKind(g, k)
    ensures Counts(e, f, zone, cal, year) && EventKey(g, cal, e) == Some(k) <==> IsCounted(e, f, zone, cal, year, k)
  {
  }

  /** The level is that of a weather warning that covers the day in the zone, at
      least yellow, and none is worse. */
  ghost predicate IsWorst(es: seq<Event>, zone: Zone, d: Day, level: int) {
    && (exists e :: e in es && e.hazardType == WeatherWarning && Inside(e, zone)
                    && e.firstDay.n <= d.n <= e.lastDay.n && e.severity == level >= 2)
    && (forall e | e in es && e.hazardType == WeatherWarning && Inside(e, zone) && e.firstDay.n <= d.n <= e.lastDay.n ::
          e.severity <= level)
  }

  /** The days of a year or of a month at a level. */
  lemma DaysAreWorst(es: seq<Event>, zone: Zone, cal: Calendar, year: int, m: int, level: int, d: Day)
    requires level >= 2
    ensures d in YearDays(es, zone, cal, year, level) <==> cal.year(d) == year && IsWorst(es, zone, d, level)
    ensures d in MonthDays(es, zone, cal, year, m, level) <==>
              cal.year(d) == year && cal.month(d) == m && IsWorst(es, zone, d, level)
  {
    LevelIsWorst(es, zone, d);
    hide Level, DaysOf;
    var actual := Level(es, zone, d);
    if actual > 0 {
      var e :| e in es && IsWarning(e) && InZone(e, zone) && Covers(e, d) && e.severity == actual;
      assert IsWorst(es, zone, d, actual);
    }
    if e :| e in es && e.hazardType == WeatherWarning && Inside(e, zone) && e.firstDay.n <= d.n <= e.lastDay.n
            && e.severity == level
    {
      assert IsWarning(e) && InZone(e, zone) && Covers(e, d);
    }
  }

  // ----- The two tables -----

  datatype Snapshots = Snapshots(aemet: Option<seq<Event>>, ign: Option<seq<Event>>, effis: Option<seq<Event>>)

  /** A source without a snapshot has no events. */
  function EventsOf(snapshot: Option<seq<Event>>): seq<Event> { if snapshot.Some? then snapshot.value else [] }

  datatype Metrics = Metrics(yellow: nat, orange: nat, red: nat, quakes: Total, fires: nat)

  function MonthRow(s: Snapshots, zone: Zone, cal: Calendar, year: int, m: int): Metrics {
    var days := (level: int) => |CellsWith(Worst(EventsOf(s.aemet), ByMonth, zone, cal, year), ByMonth, cal,
        Month(m), level)|;
    Metrics(days(2), days(3), days(4),
            Grouped(EventsOf(s.ign), Quakes, ByMonth, zone, cal, year, Month(m)),
            Grouped(EventsOf(s.effis), Fires, ByMonth, zone, cal, year, Month(m)).count)
  }

  function ProvinceRow(s: Snapshots, cal: Calendar, year: int, code: string): Metrics {
    var days := (level: int) => |CellsWith(Worst(EventsOf(s.aemet), ByProvince, Everywhere, cal, year), ByProvince,
        cal, Province(code), level)|;
    Metrics(days(2), days(3), days(4),
            Grouped(EventsOf(s.ign), Quakes, ByProvince, Everywhere, cal, year, Province(code)),
            Grouped(EventsOf(s.effis), Fires, ByProvince, Everywhere, cal, year, Province(code)).count)
  }

  /** The earthquakes, their strongest magnitude and the burnt areas of a row. */
  ghost predicate FiguresTell(row: Metrics, s: Snapshots, zone: Zone, cal: Calendar, year: int, k: Key) {
    && row.quakes.count == |CountedAt(EventsOf(s.ign), Quakes, zone, cal, year, k)|
    && IsStrongest(row.quakes.magnitude, EventsOf(s.ign), zone, cal, year, k)
    && row.fires == |CountedAt(EventsOf(s.effis), Fires, zone, cal, year, k)|
  }

  lemma MonthFiguresTell(s: Snapshots, zone: Zone, cal: Calendar, year: int, m: int)
    ensures FiguresTell(MonthRow(s, zone, cal, year, m), s, zone, cal, year, Month(m))
  {
    hide CountedAt, IsStrongest, Grouped;
    FigureIsExact(EventsOf(s.ign), Quakes, ByMonth, zone, cal, year, Month(m));
    FigureIsExact(EventsOf(s.effis), Fires, ByMonth, zone, cal, year, Month(m));
  }

  lemma ProvinceFiguresTell(s: Snapshots, cal: Calendar, year: int, code: string)
    ensures FiguresTell(ProvinceRow(s, cal, year, code), s, Everywhere, cal, year, Province(code))
  {
    hide CountedAt, IsStrongest, Grouped;
    FigureIsExact(EventsOf(s.ign), Quakes, ByProvince, Everywhere, cal, year, Province(code));
    FigureIsExact(EventsOf(s.effis), Fires, ByProvince, Everywhere, cal, year, Province(code));
  }

  /** The days of a row at each level, yellow being 2, orange 3 and red 4. */
  lemma MonthDaysTell(s: Snapshots, zone: Zone, cal: Calendar, year: int, m: int)
    requires IsCalendar(cal)
    ensures var (row, es) := (MonthRow(s, zone, cal, year, m), EventsOf(s.aemet));
            && row.yellow == |MonthDays(es, zone, cal, year, m, 2)|
            && row.orange == |MonthDays(es, zone, cal, year, m, 3)|
            && row.red == |MonthDays(es, zone, cal, year, m, 4)|
  {
    forall level | 2 <= level <= 4
      ensures |CellsWith(Worst(EventsOf(s.aemet), ByMonth, zone, cal, year), ByMonth, cal, Month(m), level)|
              == |MonthDays(EventsOf(s.aemet), zone, cal, year, m, level)|
    {
      MonthsAreExact(EventsOf(s.aemet), zone, cal, year, m, level);
    }
    hide Worst, CellsWith, MonthDays, Grouped, IsCalendar;
  }

  lemma ProvinceDaysTell(s: Snapshots, cal: Calendar, year: int, code: string)
    requires IsCalendar(cal)
    ensures var (row, es) := (ProvinceRow(s, cal, year, code), EventsOf(s.aemet));
            && row.yellow == |YearDays(es, InProvince(code), cal, year, 2)|
            && row.orange == |YearDays(es, InProvince(code), cal, year, 3)|
            && row.red == |YearDays(es, InProvince(code), cal, year, 4)|
  {
    forall level | 2 <= level <= 4
      ensures |CellsWith(Worst(EventsOf(s.aemet), ByProvince, Everywhere, cal, year), ByProvince, cal,
          Province(code), level)|
              == |YearDays(EventsOf(s.aemet), InProvince(code), cal, year, level)|
    {
      ProvincesAreExact(EventsOf(s.aemet), cal, year, code, level);
    }
    hide Worst, CellsWith, YearDays, Grouped, IsCalendar;
  }

  datatype TotalRow = TotalRow(key: Key, total: Total)

  /** `rows` is the answer to the query of a figure: one row per key that occurs. */
  ghost predicate IsTotals(
    rows: seq<TotalRow>, es: seq<Event>, f: Figure, g: Grouping, zone: Zone, cal: Calendar, year: int) {
    && (forall r :: r in rows ==> r.total == Grouped(es, f, g, zone, cal, year, r.key))
    && (forall k :: Grouped(es, f, g, zone, cal, year, k).count > 0 ==> exists r :: r in rows && r.key == k)
  }

  /** The dict built from the answer, read with a default of nothing. */
  function TotalAt(rows: seq<TotalRow>, k: Key): Total {
    if rows == [] then ZERO
    else if rows[|rows| - 1].key == k then rows[|rows| - 1].total
    else TotalAt(rows[..|rows| - 1], k)
  }

  lemma {:induction false} TotalIsRead(rows: seq<TotalRow>, k: Key)
    ensures if exists r :: r in rows && r.key == k then exists r ::
        r in rows && r.key == k && r.total == TotalAt(rows, k)
            else TotalAt(rows, k) == ZERO
  {
    if rows != [] {
      TotalIsRead(rows[..|rows| - 1], k);
      assert rows == rows[..|rows| - 1] + [rows[|rows| - 1]];
    }
  }

  lemma {:induction false} NothingCounted(
    es: seq<Event>, f: Figure, g: Grouping, zone: Zone, cal: Calendar, year: int, k: Key)
    ensures Grouped(es, f, g, zone, cal, year, k).count == 0 ==> Grouped(es, f, g, zone, cal, year, k) == ZERO
  {
    if es != [] { NothingCounted(es[..|es| - 1], f, g, zone, cal, year, k); }
  }

  lemma TotalsAreGrouped(
    rows: seq<TotalRow>, es: seq<Event>, f: Figure, g: Grouping, zone: Zone, cal: Calendar, year: int, k: Key)
    requires IsTotals(rows, es, f, g, zone, cal, year)
    ensures TotalAt(rows, k) == Grouped(es, f, g, zone, cal, year, k)
  {
    TotalIsRead(rows, k);
    NothingCounted(es, f, g, zone, cal, year, k);
    hide Grouped, TotalAt;
  }

  function MetricsOf(days: DayTable, quakes: seq<TotalRow>, fires: seq<TotalRow>, k: Key): Metrics {
    Metrics(DaysAt(days, k, 2), DaysAt(days, k, 3), DaysAt(days, k, 4), TotalAt(quakes, k), TotalAt(fires, k).count)
  }

  /** The twelve months of a zone, zeros included, from the answers of the three queries. */
  method ZoneMonthly(
    days: seq<Row>, quakes: seq<TotalRow>, fires: seq<TotalRow>, ghost s: Snapshots, ghost zone: Zone,
    ghost cal: Calendar, ghost year: int)
    returns (rows: seq<Metrics>)
    requires IsCount(days, Worst(EventsOf(s.aemet), ByMonth, zone, cal, year), ByMonth, cal)
    requires IsTotals(quakes, EventsOf(s.ign), Quakes, ByMonth, zone, cal, year)
    requires IsTotals(fires, EventsOf(s.effis), Fires, ByMonth, zone, cal, year)
    ensures |rows| == 12 && forall m :: 1 <= m <= 12 ==> rows[m - 1] == MonthRow(s, zone, cal, year, m)
    ensures forall m :: 1 <= m <= 12 ==> FiguresTell(rows[m - 1], s, zone, cal, year, Month(m))
  {
    var table := WarningDays(days, Worst(EventsOf(s.aemet), ByMonth, zone, cal, year), ByMonth, cal);
    rows := seq(12, i => MetricsOf(table, quakes, fires, Month(i + 1)));
    forall m | 1 <= m <= 12
      ensures rows[m - 1] == MonthRow(s, zone, cal, year, m) && FiguresTell(rows[m - 1], s, zone, cal, year, Month(m))
    {
      TotalsAreGrouped(quakes, EventsOf(s.ign), Quakes, ByMonth, zone, cal, year, Month(m));
      TotalsAreGrouped(fires, EventsOf(s.effis), Fires, ByMonth, zone, cal, year, Month(m));
      MonthFiguresTell(s, zone, cal, year, m);
      hide IsCount, IsTotals, CellsWith, Grouped, TotalAt, DaysAt, Worst;
    }
  }

  /** One row per province, zeros included. */
  method ProvincesSummary(
    days: seq<Row>, quakes: seq<TotalRow>, fires: seq<TotalRow>, codes: seq<string>, ghost s: Snapshots,
    ghost cal: Calendar, ghost year: int)
    returns (rows: seq<Metrics>)
    requires IsCount(days, Worst(EventsOf(s.aemet), ByProvince, Everywhere, cal, year), ByProvince, cal)
    requires IsTotals(quakes, EventsOf(s.ign), Quakes, ByProvince, Everywhere, cal, year)
    requires IsTotals(fires, EventsOf(s.effis), Fires, ByProvince, Everywhere, cal, year)
    ensures |rows| == |codes| && forall i :: 0 <= i < |codes| ==> rows[i] == ProvinceRow(s, cal, year, codes[i])
    ensures forall i :: 0 <= i < |codes| ==> FiguresTell(rows[i], s, Everywhere, cal, year, Province(codes[i]))
  {
    var table := WarningDays(days, Worst(EventsOf(s.aemet), ByProvince, Everywhere, cal, year), ByProvince, cal);
    rows := seq(|codes|, i requires 0 <= i < |codes| => MetricsOf(table, quakes, fires, Province(codes[i])));
    forall i | 0 <= i < |codes|
      ensures rows[i] == ProvinceRow(s, cal, year, codes[i])
      ensures FiguresTell(rows[i], s, Everywhere, cal, year, Province(codes[i]))
    {
      TotalsAreGrouped(quakes, EventsOf(s.ign), Quakes, ByProvince, Everywhere, cal, year, Province(codes[i]));
      TotalsAreGrouped(fires, EventsOf(s.effis), Fires, ByProvince, Everywhere, cal, year, Province(codes[i]));
      ProvinceFiguresTell(s, cal, year, codes[i]);
      hide IsCount, IsTotals, CellsWith, Grouped, TotalAt, DaysAt, Worst;
    }
  }

  function Added(a: Metrics, b: Metrics): Metrics {
    Metrics(a.yellow + b.yellow, a.orange + b.orange, a.red + b.red, Plus(a.quakes, b.quakes), a.fires + b.fires)
  }

  /** The first `n` months of a zone, put together. */
  function FirstMonths(s: Snapshots, zone: Zone, cal: Calendar, year: int, n: nat): Metrics {
    if n == 0 then Metrics(0, 0, 0, ZERO, 0)
        else Added(FirstMonths(s, zone, cal, year, n - 1), MonthRow(s, zone, cal, year, n))
  }

  function UpTo(es: seq<Event>, zone: Zone, cal: Calendar, year: int, n: nat, level: int): set<Day> {
    set d | d in YearDays(es, zone, cal, year, level) && cal.month(d) <= n
  }

  lemma NextMonth(es: seq<Event>, zone: Zone, cal: Calendar, year: int, n: nat, level: int)
    requires IsCalendar(cal) && n > 0
    ensures |UpTo(es, zone, cal, year, n, level)|
        == |UpTo(es, zone, cal, year, n - 1, level)| + |MonthDays(es, zone, cal, year, n, level)|
    ensures UpTo(es, zone, cal, year, 0, level) == {}
  {
    hide YearDays;
    var (a, b) := (UpTo(es, zone, cal, year, n - 1, level), MonthDays(es, zone, cal, year, n, level));
    assert UpTo(es, zone, cal, year, n, level) == a + b && a !! b;
    forall d | d in YearDays(es, zone, cal, year, level) ensures cal.month(d) > 0 {}
  }

  /** The events of the first `n` months. */
  function GroupedUpTo(es: seq<Event>, f: Figure, zone: Zone, cal: Calendar, year: int, n: nat): Total {
    if es == [] then ZERO
    else
      var (before, e) := (GroupedUpTo(es[..|es| - 1], f, zone, cal, year, n), es[|es| - 1]);
      if Counts(e, f, zone, cal, year) && cal.month(e.firstDay) <= n then Plus(before, Once(e, f)) else before
  }

  lemma PlusSwaps(a: Total, b: Total, c: Total)
    ensures Plus(Plus(a, b), c) == Plus(Plus(a, c), b) == Plus(a, Plus(b, c))
    ensures Plus(ZERO, ZERO) == ZERO
  {
  }

  lemma MonthNumbers(cal: Calendar, d: Day)
    requires IsCalendar(cal)
    ensures 1 <= cal.month(d) <= 12
  {
  }

  lemma {:induction false} GroupedNextMonth(es: seq<Event>, f: Figure, zone: Zone, cal: Calendar, year: int, n: nat)
    requires IsCalendar(cal) && n > 0
    ensures GroupedUpTo(es, f, zone, cal, year, n)
            == Plus(GroupedUpTo(es, f, zone, cal, year, n - 1), Grouped(es, f, ByMonth, zone, cal, year, Month(n)))
    ensures GroupedUpTo(es, f, zone, cal, year, 0) == ZERO
  {
    hide *;
    if es == [] {
      NothingGrouped(f, zone, cal, year, n);
    } else {
      var (init, e) := (es[..|es| - 1], es[|es| - 1]);
      GroupedNextMonth(init, f, zone, cal, year, n);
      GroupedStep(es, f, zone, cal, year, n);
      GroupedStep(es, f, zone, cal, year, n - 1);
      GroupedStep(es, f, zone, cal, year, 0);
      MonthNumbers(cal, e.firstDay);
      PlusSwaps(GroupedUpTo(init, f, zone, cal, year, n - 1), Grouped(init, f, ByMonth, zone, cal, year, Month(n)),
          Once(e, f));
    }
  }

  lemma NothingGrouped(f: Figure, zone: Zone, cal: Calendar, year: int, n: nat)
    requires n > 0
    ensures GroupedUpTo([], f, zone, cal, year, n)
            == Plus(GroupedUpTo([], f, zone, cal, year, n - 1), Grouped([], f, ByMonth, zone, cal, year, Month(n)))
    ensures GroupedUpTo([], f, zone, cal, year, 0) == ZERO
  {
  }

  lemma GroupedStep(es: seq<Event>, f: Figure, zone: Zone, cal: Calendar, year: int, n: nat)
    requires es != []
    ensures var (init, e) := (es[..|es| - 1], es[|es| - 1]);
            && GroupedUpTo(es, f, zone, cal, year, n)
               == (if Counts(e, f, zone, cal, year) && cal.month(e.firstDay) <= n
                   then Plus(GroupedUpTo(init, f, zone, cal, year, n), Once(e, f))
                       else GroupedUpTo(init, f, zone, cal, year, n))
            && Grouped(es, f, ByMonth, zone, cal, year, Month(n))
               == (if Counts(e, f, zone, cal, year) && cal.month(e.firstDay) == n
                   then Plus(Grouped(init, f, ByMonth, zone, cal, year, Month(n)), Once(e, f))
                       else Grouped(init, f, ByMonth, zone, cal, year, Month(n)))
  {
  }

  lemma {:induction false} GroupedYear(es: seq<Event>, f: Figure, cal: Calendar, year: int, code: string)
    requires IsCalendar(cal)
    ensures GroupedUpTo(es, f, InProvince(code), cal, year, 12)
        == Grouped(es, f, ByProvince, Everywhere, cal, year, Province(code))
  {
    if es != [] { GroupedYear(es[..|es| - 1], f, cal, year, code); }
  }

  lemma {:induction false} MonthsAddUp(s: Snapshots, zone: Zone, cal: Calendar, year: int, n: nat)
    requires IsCalendar(cal) && n <= 12
    ensures var (ws, t) := (EventsOf(s.aemet), FirstMonths(s, zone, cal, year, n));
            && t.yellow == |UpTo(ws, zone, cal, year, n, 2)| && t.orange == |UpTo(ws, zone, cal, year, n, 3)|
            && t.red == |UpTo(ws, zone, cal, year, n, 4)|
            && t.quakes == GroupedUpTo(EventsOf(s.ign), Quakes, zone, cal, year, n)
            && t.fires == GroupedUpTo(EventsOf(s.effis), Fires, zone, cal, year, n).count
  {
    var ws := EventsOf(s.aemet);
    hide UpTo, MonthDays, Worst, CellsWith, GroupedUpTo, Grouped, IsCalendar, EventsOf;
    if n == 0 {
      NextMonth(ws, zone, cal, year, 1, 2);
      NextMonth(ws, zone, cal, year, 1, 3);
      NextMonth(ws, zone, cal, year, 1, 4);
      GroupedNextMonth(EventsOf(s.ign), Quakes, zone, cal, year, 1);
      GroupedNextMonth(EventsOf(s.effis), Fires, zone, cal, year, 1);
    } else {
      MonthsAddUp(s, zone, cal, year, n - 1);
      forall level | 2 <= level <= 4
        ensures |UpTo(ws, zone, cal, year, n, level)| == |UpTo(ws, zone, cal, year, n - 1, level)|
                + |CellsWith(Worst(ws, ByMonth, zone, cal, year), ByMonth, cal, Month(n), level)|
      {
        NextMonth(ws, zone, cal, year, n, level);
        MonthsAreExact(ws, zone, cal, year, n, level);
      }
      GroupedNextMonth(EventsOf(s.ign), Quakes, zone, cal, year, n);
      GroupedNextMonth(EventsOf(s.effis), Fires, zone, cal, year, n);
    }
  }

  /** The twelve months of a province add up to its row of the yearly summary: days
      at each level, earthquakes, strongest magnitude and burnt areas. */
  lemma TwelveMonthsAreTheYear(s: Snapshots, cal: Calendar, year: int, code: string)
    requires IsCalendar(cal)
    ensures FirstMonths(s, InProvince(code), cal, year, 12) == ProvinceRow(s, cal, year, code)
  {
    var ws := EventsOf(s.aemet);
    MonthsAddUp(s, InProvince(code), cal, year, 12);
    forall level | 2 <= level <= 4
      ensures |UpTo(ws, InProvince(code), cal, year, 12, level)|
              == |CellsWith(Worst(ws, ByProvince, Everywhere, cal, year), ByProvince, cal, Province(code), level)|
    {
      ProvincesAreExact(ws, cal, year, code, level);
      assert UpTo(ws, InProvince(code), cal, year, 12, level) == YearDays(ws, InProvince(code), cal, year, level);
    }
    GroupedYear(EventsOf(s.ign), Quakes, cal, year, code);
    GroupedYear(EventsOf(s.effis), Fires, cal, year, code);
    hide UpTo, Worst, CellsWith, GroupedUpTo, Grouped, IsCalendar, EventsOf, FirstMonths;
  }
}
