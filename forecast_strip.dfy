/**
 * The drawing loop of `drawForecast`: at most seven of the selected hours are
 * drawn as columns.  Column `i` is placed at
 * `startingX + 30 + i * (width(label of column i - 1) + 30)`, with the empty
 * label before column 0: the gap is the previous label's width times `i`, not
 * a running sum of the widths.
 *
 * Text measurement (`ctx.measureText(..).width`) is the parameter `width`, and
 * the time-zone-aware `toLocaleTimeString` is the parameter `timeLabel`
 * (epoch seconds and time-zone id to text).
 */
module ForecastStrip {
  import opened Weather
  import opened ForecastSelector

  const MaxColumns := 7
  const Gutter: real := 30.0
  const IconSize: real := 64.0
  const TemperatureDrop: real := 80.0

  /**
   * What is drawn for one hour: its time label at (x, y), its icon at (x, y)
   * scaled to `iconSize` × `iconSize`, its temperature at y + 80.
   */
  datatype Column = Column(hour: Hour, timeText: string, x: real, y: real, iconUrl: string, iconSize: real,
                           temperatureY: real)

  function Min(a: int, b: int): int {
    if a < b then a else b
  }

  /** The label drawn in the column before column `i`, or "" for the first column. */
  function PreviousLabel(hours: seq<Hour>, i: nat, tz: string, timeLabel: (int, string) -> string): string
    requires i <= |hours|
  {
    if i == 0 then "" else timeLabel(hours[i - 1].timeEpoch, tz)
  }

  /** Column `i`, in closed form. */
  function ColumnAt(hours: seq<Hour>, i: nat, startX: real, y: real, tz: string,
                    timeLabel: (int, string) -> string, width: string -> real): Column
    requires i < |hours|
  {
    Column(hours[i], timeLabel(hours[i].timeEpoch, tz),
           startX + Gutter + (i as real) * (width(PreviousLabel(hours, i, tz, timeLabel)) + Gutter),
           y, "http:" + hours[i].condition.icon, IconSize, y + TemperatureDrop)
  }

  /** All columns drawn for `hours`. */
  function Placement(hours: seq<Hour>, startX: real, y: real, tz: string,
                     timeLabel: (int, string) -> string, width: string -> real): seq<Column>
  {
    seq(Min(MaxColumns, |hours|), i requires 0 <= i < Min(MaxColumns, |hours|) =>
      ColumnAt(hours, i, startX, y, tz, timeLabel, width))
  }

  /** The loop as the source runs it, carrying the previous label in `lastTimeInHour`. */
  method PlaceColumns(hours: seq<Hour>, startX: real, y: real, tz: string,
                      timeLabel: (int, string) -> string, width: string -> real)
    returns (columns: seq<Column>)
    ensures columns == Placement(hours, startX, y, tz, timeLabel, width)
  {
    columns := [];
    var lastTimeInHour := "";
    var i := 0;
    while i < MaxColumns && i < |hours|
      invariant 0 <= i <= Min(MaxColumns, |hours|)
      invariant lastTimeInHour == PreviousLabel(hours, i, tz, timeLabel)
      invariant |columns| == i
      invariant forall k | 0 <= k < i :: columns[k] == ColumnAt(hours, k, startX, y, tz, timeLabel, width)
    {
      var hour := hours[i];
      var timeInHour := timeLabel(hour.timeEpoch, tz);
      var iconUrl := "http:" + hour.condition.icon;
      var columnGap := width(lastTimeInHour) + Gutter;
      lastTimeInHour := timeInHour;
      var x := startX + Gutter + (i as real) * columnGap;
      columns := columns + [Column(hour, timeInHour, x, y, iconUrl, IconSize, y + TemperatureDrop)];
      i := i + 1;
    }
  }

  /**
   * `drawForecast` without the drawing: select today's hours, then place them.
   * When there is no forecast day, `today` is undefined and nothing is drawn.
   */
  method DrawForecast(data: WeatherData, startX: real, y: real,
                      timeLabel: (int, string) -> string, width: string -> real)
    returns (columns: seq<Column>)
    ensures data.forecastday == [] ==> columns == []
    ensures data.forecastday != [] ==>
      columns == Placement(Selected(data.forecastday[0].hour, data.current.lastUpdatedEpoch),
                           startX, y, data.location.tzId, timeLabel, width)
    ensures data.forecastday != [] ==>
      |columns| == Min(MaxColumns, |Selected(data.forecastday[0].hour, data.current.lastUpdatedEpoch)|)
    ensures forall k | 0 <= k < |columns| :: columns[k].hour.timeEpoch > data.current.lastUpdatedEpoch
  {
    columns := [];
    var today := Today(data);
    if today.Some? {
      var hours := SelectHours(today.value.hour, data.current.lastUpdatedEpoch);
      SelectedAreFuture(today.value.hour, data.current.lastUpdatedEpoch);
      columns := PlaceColumns(hours, startX, y, data.location.tzId, timeLabel, width);
    }
  }

  /**
   * With non-negative widths every column starts at least 30 to the right of
   * the strip's start, and the first one exactly there; all share one row.
   */
  lemma ColumnsRightOfStart(hours: seq<Hour>, startX: real, y: real, tz: string,
                            timeLabel: (int, string) -> string, width: string -> real)
    requires forall s :: width(s) >= 0.0
    ensures forall c | c in Placement(hours, startX, y, tz, timeLabel, width) ::
      c.x >= startX + Gutter && c.y == y && c.iconSize == IconSize && c.temperatureY == y + TemperatureDrop
    ensures hours != [] ==> Placement(hours, startX, y, tz, timeLabel, width)[0].x == startX + Gutter
  {
  }

  /** The x that a running sum of gaps would give: previous column's x plus its label's width plus 30. */
  function RunningX(hours: seq<Hour>, i: nat, startX: real, tz: string,
                    timeLabel: (int, string) -> string, width: string -> real): real
    requires i <= |hours|
  {
    if i == 0 then startX + Gutter
    else RunningX(hours, i - 1, startX, tz, timeLabel, width)
         + width(timeLabel(hours[i - 1].timeEpoch, tz)) + Gutter
  }

  /** When all labels before column `i` measure the same, the product rule gives the running sum. */
  lemma {:induction false} UniformWidthsMatchRunningSum(hours: seq<Hour>, i: nat, startX: real, y: real, tz: string,
                                                        timeLabel: (int, string) -> string, width: string -> real, w: real)
    requires i < |hours|
    requires forall j | 0 <= j < i :: width(timeLabel(hours[j].timeEpoch, tz)) == w
    ensures ColumnAt(hours, i, startX, y, tz, timeLabel, width).x == RunningX(hours, i, startX, tz, timeLabel, width)
  {
    if i > 1 {
      UniformWidthsMatchRunningSum(hours, i - 1, startX, y, tz, timeLabel, width, w);
      calc {
        ColumnAt(hours, i, startX, y, tz, timeLabel, width).x;
        startX + Gutter + (i as real) * (w + Gutter);
        startX + Gutter + ((i - 1) as real) * (w + Gutter) + (w + Gutter);
        ColumnAt(hours, i - 1, startX, y, tz, timeLabel, width).x + w + Gutter;
      }
    }
  }

  /** With labels of different widths the product rule and the running sum part. */
  lemma RunningSumDiffersExample()
    ensures var hours := [Hour(0, Condition("", "", 1)), Hour(1, Condition("", "", 2)), Hour(2, Condition("", "", 3))];
            var timeLabel := (e: int, tz: string) => if e == 0 then "10:00" else "11:00";
            var width := (s: string) => if s == "10:00" then 40.0 else 30.0;
            ColumnAt(hours, 2, 0.0, 0.0, "", timeLabel, width).x == 150.0 &&
            RunningX(hours, 2, 0.0, "", timeLabel, width) == 160.0
  {
  }
}
