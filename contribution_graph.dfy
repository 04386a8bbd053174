/** The contribution heat map of src/components/ContributionGraph.tsx: the grid
    of 52 weeks built by nested loops, the per-day counts looked up by date, and
    the colour buckets. Calendar arithmetic is a parameter: `dateKey(k)` is the
    `YYYY-MM-DD` key of the day `k` days before today and `weekday(k)` its
    `getDay()`. */
module ContributionGraph {
  import opened Seqs
  import opened Strings

  datatype ContributionDay = ContributionDay(date: string, count: int)

  datatype Cell = Cell(date: string, count: int, day: int)

  /** `new Map(data.map(d => [d.date, d.count]))`: entries are set in order, so
      a later entry for the same date replaces an earlier one. */
  function DataMap(data: seq<ContributionDay>): (m: map<string, int>)
    ensures forall key :: key in m <==> exists i :: 0 <= i < |data| && data[i].date == key
  {
    if data == [] then map[]
    else
      var last := data[|data| - 1];
      var m := DataMap(data[..|data| - 1])[last.date := last.count];
      assert forall key :: key in m <==> exists i :: 0 <= i < |data| && data[i].date == key by {
        forall key ensures key in m <==> exists i :: 0 <= i < |data| && data[i].date == key {
          if key in m && key != last.date {
            var i :| 0 <= i < |data| - 1 && data[..|data| - 1][i].date == key;
            assert data[i].date == key;
          }
          if key != last.date && exists i :: 0 <= i < |data| && data[i].date == key {
            var i :| 0 <= i < |data| && data[i].date == key;
            assert data[..|data| - 1][i].date == key;
          }
        }
      }
      m
  }

  /** Entry `i` is the last one for its date. */
  predicate IsLastEntry(data: seq<ContributionDay>, i: int) {
    0 <= i < |data| && forall j :: i < j < |data| ==> data[j].date != data[i].date
  }

  /** The count stored for a date is the one of its last entry. */
  lemma {:induction false} DataMapLastWins(data: seq<ContributionDay>, i: nat)
    requires IsLastEntry(data, i)
    ensures DataMap(data)[data[i].date] == data[i].count
  {
    if i < |data| - 1 {
      DataMapLastWins(data[..|data| - 1], i);
    }
  }

  /** `dataMap.get(key) || 0` */
  function CountFor(m: map<string, int>, key: string): (r: int)
    ensures key !in m ==> r == 0
    ensures key in m ==> r == m[key]
  {
    if key in m then m[key] else 0
  }

  const WeekCount := 52
  const DaysPerWeek := 7

  /** How many days before today week `wi` (0 is the oldest), day `d`, lies:
      the source's `w * 7 + (6 - d)` with `w = 51 - wi`. */
  function Offset(wi: int, d: int): int {
    (WeekCount - 1 - wi) * DaysPerWeek + (DaysPerWeek - 1 - d)
  }

  function CellAt(m: map<string, int>, dateKey: int -> string, weekday: int -> int, wi: int, d: int): Cell {
    var key := dateKey(Offset(wi, d));
    Cell(key, CountFor(m, key), weekday(Offset(wi, d)))
  }

  function WeekAt(m: map<string, int>, dateKey: int -> string, weekday: int -> int, wi: int): seq<Cell> {
    seq(DaysPerWeek, d => CellAt(m, dateKey, weekday, wi, d))
  }

  /** The grid the loops build, week by week from the oldest. */
  function Weeks(data: seq<ContributionDay>, dateKey: int -> string, weekday: int -> int): seq<seq<Cell>> {
    seq(WeekCount, wi => WeekAt(DataMap(data), dateKey, weekday, wi))
  }

  /** `weeks` */
  method BuildWeeks(data: seq<ContributionDay>, dateKey: int -> string, weekday: int -> int)
    returns (grid: seq<seq<Cell>>)
    ensures grid == Weeks(data, dateKey, weekday)
  {
    var dataMap := DataMap(data);
    ghost var spec := Weeks(data, dateKey, weekday);
    grid := [];
    var w := 51;
    while w >= 0
      invariant -1 <= w <= 51
      invariant grid == spec[..51 - w]
    {
      var week: seq<Cell> := [];
      var d := 0;
      while d < 7
        invariant 0 <= d <= 7
        invariant week == WeekAt(dataMap, dateKey, weekday, 51 - w)[..d]
      {
        var key := dateKey(w * 7 + (6 - d));
        week := week + [Cell(key, CountFor(dataMap, key), weekday(w * 7 + (6 - d)))];
        d := d + 1;
      }
      assert week == spec[51 - w];
      assert spec[..51 - w + 1] == spec[..51 - w] + [spec[51 - w]];
      grid := grid + [week];
      w := w - 1;
    }
  }

  /** Every week has seven days, and the flattened grid runs from 363 days ago
      down to today, one day per cell: each cell holds that day's date key, the
      count the data map gives for that key, and that day's weekday. */
  lemma WeeksShape(data: seq<ContributionDay>, dateKey: int -> string, weekday: int -> int)
    ensures |Weeks(data, dateKey, weekday)| == 52
    ensures forall wi :: 0 <= wi < 52 ==> |Weeks(data, dateKey, weekday)[wi]| == 7
    ensures forall wi, d :: 0 <= wi < 52 && 0 <= d < 7 ==>
      Weeks(data, dateKey, weekday)[wi][d].date == dateKey(363 - (wi * 7 + d))
    ensures forall wi, d :: 0 <= wi < 52 && 0 <= d < 7 ==>
      Weeks(data, dateKey, weekday)[wi][d].count == CountFor(DataMap(data), dateKey(363 - (wi * 7 + d)))
    ensures forall wi, d :: 0 <= wi < 52 && 0 <= d < 7 ==>
      Weeks(data, dateKey, weekday)[wi][d].day == weekday(363 - (wi * 7 + d))
  {
  }

  /** Offsets strictly decrease along the flattened grid, from 363 for the first
      cell to 0 for the last one. */
  lemma OffsetsDecrease(wi: int, d: int, wj: int, e: int)
    requires 0 <= wi < 52 && 0 <= d < 7 && 0 <= wj < 52 && 0 <= e < 7
    requires wi * 7 + d < wj * 7 + e
    ensures Offset(wi, d) > Offset(wj, e)
    ensures Offset(0, 0) == 363 && Offset(51, 6) == 0
  {
  }

  /** A cell's count is the count of the last entry for its date, and 0 when
      that date has no entry. */
  lemma CellCount(data: seq<ContributionDay>, dateKey: int -> string, weekday: int -> int, wi: nat, d: nat)
    requires wi < 52 && d < 7
    ensures var c := Weeks(data, dateKey, weekday)[wi][d];
            (forall i :: 0 <= i < |data| ==> data[i].date != c.date) ==> c.count == 0
    ensures var c := Weeks(data, dateKey, weekday)[wi][d];
            forall i :: IsLastEntry(data, i) && data[i].date == c.date ==> c.count == data[i].count
  {
    var c := Weeks(data, dateKey, weekday)[wi][d];
    forall i | IsLastEntry(data, i) && data[i].date == c.date
      ensures c.count == data[i].count
    {
      DataMapLastWins(data, i);
    }
  }

  /** The five shades, lightest first. */
  const Palette := ["bg-muted", "bg-primary/30", "bg-primary/50", "bg-primary/70", "bg-primary"]

  /** `getColor` */
  function GetColor(count: int): (r: string)
    ensures r in Palette
  {
    if count == 0 then "bg-muted"
    else if count == 1 then "bg-primary/30"
    else if count <= 3 then "bg-primary/50"
    else if count <= 5 then "bg-primary/70"
    else "bg-primary"
  }

  /** The thresholds at which the shade deepens. */
  const Thresholds := [1, 2, 4, 6]

  /** The number of thresholds a count reaches. */
  function Reached(count: int): nat {
    |Filter(Thresholds, t => count >= t)|
  }

  /** For a count of zero or more, the shade is the one of the number of
      thresholds it reaches: 0, 1, 2-3, 4-5 and 6 or more. */
  lemma GetColorByThresholds(count: int)
    requires count >= 0
    ensures Reached(count) < 5 && GetColor(count) == Palette[Reached(count)]
  {
    var p := t => count >= t;
    assert Thresholds[1..][1..][1..][1..] == [];
    assert Filter(Thresholds[1..][1..][1..], p) == if count >= 6 then [6] else [];
  }

  /** A negative count, which the chain never expects, falls into the 2-3 shade. */
  lemma GetColorNegative(count: int)
    requires count < 0
    ensures GetColor(count) == "bg-primary/50"
  {
  }

  /** A larger count never gets a lighter shade. */
  lemma GetColorMonotone(a: int, b: int)
    requires 0 <= a <= b
    ensures Reached(a) <= Reached(b)
    ensures GetColor(a) == Palette[Reached(a)] && GetColor(b) == Palette[Reached(b)]
  {
    GetColorByThresholds(a);
    GetColorByThresholds(b);
    ReachedMonotone(Thresholds, a, b);
  }

  lemma {:induction false} ReachedMonotone(ts: seq<int>, a: int, b: int)
    requires a <= b
    ensures |Filter(ts, t => a >= t)| <= |Filter(ts, t => b >= t)|
  {
    if ts != [] {
      ReachedMonotone(ts[1..], a, b);
    }
  }

  /** The legend samples show each of the five shades once, in order. */
  lemma LegendShowsEveryShade()
    ensures Map([0, 1, 3, 5, 7], GetColor) == Palette
    ensures Distinct(Palette)
  {
  }

  /** The tooltip text. */
  function Tooltip(c: Cell): string {
    IntToString(c.count) + " contribution" + (if c.count != 1 then "s" else "") + " on " + c.date
  }

  /** The tooltip uses the singular exactly for a count of one. */
  lemma TooltipSingularIff(c: Cell)
    ensures Tooltip(c) == IntToString(c.count) + " contribution on " + c.date <==> c.count == 1
  {
    if c.count != 1 {
      assert |Tooltip(c)| == |IntToString(c.count) + " contribution on " + c.date| + 1;
    }
  }
}
