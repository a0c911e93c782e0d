/**
 * `generateImage` as a whole: the card layout, then the forecast strip placed
 * after the wind text at the wind row's height, measured under the 20px font
 * that is still set when `drawForecast` runs.
 */
module Render {
  import opened Weather
  import opened ForecastSelector
  import opened ForecastStrip
  import opened Card

  /** `ctx.measureText(..).width` under the 20px font. */
  function StripWidth(measure: (nat, string) -> TextMetrics): string -> real {
    s => measure(20, s).width
  }

  method GenerateImage(data: WeatherData, text: Formatted, iconHeight: real,
                       measure: (nat, string) -> TextMetrics, timeLabel: (int, string) -> string)
    returns (card: CardLayout, columns: seq<Column>)
    ensures card == LayoutCard(data, text, iconHeight, measure)
    ensures columns == if data.forecastday == [] then []
      else Placement(Selected(data.forecastday[0].hour, data.current.lastUpdatedEpoch),
                     card.forecastX, card.forecastY, data.location.tzId, timeLabel, StripWidth(measure))
    ensures |columns| <= MaxColumns
    ensures columns != [] ==> columns[0].x == card.wind.x + measure(20, card.wind.text).width + Gutter
    ensures (forall size, s :: measure(size, s).width >= 0.0) ==>
      forall c | c in columns :: c.x >= card.wind.x + measure(20, card.wind.text).width + Gutter && c.y == card.wind.y
  {
    card := LayoutCard(data, text, iconHeight, measure);
    columns := DrawForecast(data, card.forecastX, card.forecastY, timeLabel, StripWidth(measure));
    if data.forecastday != [] && (forall size, s :: measure(size, s).width >= 0.0) {
      ColumnsRightOfStart(Selected(data.forecastday[0].hour, data.current.lastUpdatedEpoch),
                          card.forecastX, card.forecastY, data.location.tzId, timeLabel, StripWidth(measure));
    }
  }
}
