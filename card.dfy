/**
 * The fixed layout of the card drawn by `generateImage`, as coordinates, and
 * the rewrite of the current condition's icon URL.  Text measurement is the
 * parameter `measure` (font size in px and text to width and ascent), the
 * outputs of number and date formatting are given as text, and the loaded
 * icon's height is a parameter.
 */
module Card {
  import opened Weather

  /** `ctx.measureText(text)` under a font of the given size. */
  datatype TextMetrics = TextMetrics(width: real, ascent: real)

  /** One `fillText` call. */
  datatype Placed = Placed(text: string, x: real, y: real)

  /** Texts produced by number-to-string and date formatting, which this model does not compute. */
  datatype Formatted = Formatted(date: string, temperature: string, windKph: string, humidity: string)

  datatype CardLayout = CardLayout(
    heading: Placed,
    iconUrl: string, iconX: real, iconY: real,
    status: Placed,
    temperature: Placed,
    unit: Placed,
    wind: Placed,
    humidity: Placed,
    forecastX: real, forecastY: real)

  /** `s` holds `pat` starting at index `i`. */
  predicate OccursAt(s: string, pat: string, i: nat) {
    i + |pat| <= |s| && s[i..i + |pat|] == pat
  }

  predicate Contains(s: string, pat: string) {
    exists i: nat | i <= |s| :: OccursAt(s, pat, i)
  }

  /**
   * `s.replaceAll(pat, rep)` for a non-empty string pattern and a replacement
   * without `$` (which `replaceAll` would expand): left to right, non-overlapping.
   */
  function ReplaceAll(s: string, pat: string, rep: string): string
    requires pat != []
    decreases |s|
  {
    if |s| < |pat| then s
    else if s[..|pat|] == pat then rep + ReplaceAll(s[|pat|..], pat, rep)
    else [s[0]] + ReplaceAll(s[1..], pat, rep)
  }

  /** The URL the current condition's icon is loaded from (the 128px variant). */
  function UpgradeIcon(icon: string): string {
    ReplaceAll("https:" + icon, "64", "128")
  }

  /** A string without the pattern is left unchanged. */
  lemma {:induction false} ReplaceAllWithoutPattern(s: string, pat: string, rep: string)
    requires pat != [] && !Contains(s, pat)
    ensures ReplaceAll(s, pat, rep) == s
    decreases |s|
  {
    if |s| >= |pat| {
      assert !OccursAt(s, pat, 0);
      var t := s[1..];
      if Contains(t, pat) {
        var i: nat :| i <= |t| && OccursAt(t, pat, i);
        assert s[i + 1..i + 1 + |pat|] == t[i..i + |pat|];
        assert OccursAt(s, pat, i + 1);
      }
      ReplaceAllWithoutPattern(t, pat, rep);
      assert s == [s[0]] + t;
    }
  }

  /** A leading character that cannot start the pattern is copied through. */
  lemma ReplaceAllSkips(c: char, t: string, pat: string, rep: string)
    requires pat != [] && c != pat[0]
    ensures ReplaceAll([c] + t, pat, rep) == [c] + ReplaceAll(t, pat, rep)
  {
  }

  /** The first character of the result for the pattern "64" and replacement "128". */
  lemma FirstCharOfUpgrade(s: string)
    requires s != []
    ensures ReplaceAll(s, "64", "128") != []
    ensures ReplaceAll(s, "64", "128")[0] == if |s| >= 2 && s[0] == '6' && s[1] == '4' then '1' else s[0]
  {
    if |s| >= 2 {
      if s[0] == '6' && s[1] == '4' {
        assert s[..2] == "64";
      } else {
        assert s[..2][0] == s[0] && s[..2][1] == s[1];
      }
    }
  }

  /** Occurrence of "64" in terms of two characters. */
  lemma OccursAtPair(s: string, i: nat)
    ensures OccursAt(s, "64", i) <==> i + 1 < |s| && s[i] == '6' && s[i + 1] == '4'
  {
  }

  /** After the rewrite no "64" is left. */
  lemma {:induction false} NoSixtyFourLeft(s: string)
    ensures !Contains(ReplaceAll(s, "64", "128"), "64")
    decreases |s|
  {
    var r := ReplaceAll(s, "64", "128");
    if |s| < 2 {
      forall i: nat | i <= |r| ensures !OccursAt(r, "64", i) { OccursAtPair(r, i); }
    } else if s[..2] == "64" {
      var t := s[2..];
      var rt := ReplaceAll(t, "64", "128");
      NoSixtyFourLeft(t);
      assert r == "128" + rt;
      forall i: nat | i <= |r| ensures !OccursAt(r, "64", i) {
        OccursAtPair(r, i);
        if i >= 3 {
          OccursAtPair(rt, i - 3);
        } else if i == 2 && i + 1 < |r| {
          assert r[2] == '8';
        }
      }
    } else {
      var t := s[1..];
      var rt := ReplaceAll(t, "64", "128");
      NoSixtyFourLeft(t);
      assert r == [s[0]] + rt;
      FirstCharOfUpgrade(t);
      assert s[..2][0] == s[0] && s[..2][1] == s[1];
      forall i: nat | i <= |r| ensures !OccursAt(r, "64", i) {
        OccursAtPair(r, i);
        if i >= 1 {
          OccursAtPair(rt, i - 1);
        }
      }
    }
  }

  /** A prefix without the pattern's first character is copied through unchanged. */
  lemma {:induction false} ReplaceAllKeepsPrefix(p: string, t: string, pat: string, rep: string)
    requires pat != [] && forall k | 0 <= k < |p| :: p[k] != pat[0]
    ensures ReplaceAll(p + t, pat, rep) == p + ReplaceAll(t, pat, rep)
    decreases |p|
  {
    if p != [] {
      var q := p[1..];
      ReplaceAllKeepsPrefix(q, t, pat, rep);
      ReplaceAllSkips(p[0], q + t, pat, rep);
      assert p + t == [p[0]] + (q + t);
      assert p == [p[0]] + q;
    } else {
      assert p + t == t;
    }
  }

  /**
   * The icon URL starts with "https:", contains no "64", and is "https:" + icon
   * whenever the icon holds no "64"; "https:" itself is never rewritten.
   */
  lemma UpgradeIconProperties(icon: string)
    ensures UpgradeIcon(icon) == "https:" + ReplaceAll(icon, "64", "128")
    ensures !Contains(UpgradeIcon(icon), "64")
    ensures !Contains(icon, "64") ==> UpgradeIcon(icon) == "https:" + icon
  {
    ReplaceAllKeepsPrefix("https:", icon, "64", "128");
    NoSixtyFourLeft("https:" + icon);
    if !Contains(icon, "64") {
      ReplaceAllWithoutPattern(icon, "64", "128");
    }
  }

  /** The weather API's 64px icon path becomes its 128px variant. */
  lemma UpgradeIconExample()
    ensures UpgradeIcon("//x/64.png") == "https://x/128.png"
  {
    ReplaceAllKeepsPrefix("https://x/", "64.png", "64", "128");
    assert "https:" + "//x/64.png" == "https://x/" + "64.png";
    var tail := "64.png";
    assert tail[..2] == "64" && tail[2..] == ".png";
    assert ReplaceAll(tail, "64", "128") == "128" + ReplaceAll(".png", "64", "128");
    ReplaceAllKeepsPrefix(".png", "", "64", "128");
    assert ".png" + "" == ".png";
  }

  const TemperatureUnit := "°C"

  function WindText(windKph: string): string {
    "Wind: " + windKph + " KMPH"
  }

  function HumidityText(humidity: string): string {
    "humidity: " + humidity + "%"
  }

  /**
   * The positions `generateImage` gives each element.  Fonts: heading 40px,
   * status 25px, temperature 70px, unit 30px, wind and humidity 20px; the
   * wind row's y measures the unit text again, under the 20px font.
   */
  function LayoutCard(data: WeatherData, text: Formatted, iconHeight: real,
                      measure: (nat, string) -> TextMetrics): (c: CardLayout)
    ensures c.heading.text == data.location.name + ", " + data.location.country
    ensures c.heading.x == c.status.x == c.iconX == 62.0 && c.iconY == 52.0
    ensures c.heading.y == 25.0 + measure(40, c.heading.text).ascent
    ensures c.status.text == data.current.condition.text + " · " + text.date
    ensures c.status.y == 176.0 + measure(25, c.status.text).ascent
    ensures c.iconUrl == UpgradeIcon(data.current.condition.icon)
    ensures c.temperature == Placed(text.temperature, 200.0,
                                    iconHeight / 2.5 + 35.0 + measure(70, text.temperature).ascent)
    ensures c.unit == Placed(TemperatureUnit, 200.0 + measure(70, text.temperature).width,
                             90.0 + measure(30, TemperatureUnit).ascent)
    ensures c.unit.x == c.temperature.x + measure(70, c.temperature.text).width
    ensures c.wind.text == WindText(text.windKph)
    ensures c.wind.x == 250.0 + measure(70, text.temperature).width && c.wind.x == c.unit.x + 50.0
    ensures c.wind.y - c.unit.y == measure(20, TemperatureUnit).ascent - measure(30, TemperatureUnit).ascent
    ensures c.humidity.text == HumidityText(text.humidity)
    ensures c.humidity.x == c.wind.x && c.humidity.y == c.wind.y + 30.0
    ensures c.forecastX == c.wind.x + measure(20, WindText(text.windKph)).width
    ensures c.forecastY == c.wind.y
  {
    var heading := data.location.name + ", " + data.location.country;
    var status := data.current.condition.text + " · " + text.date;
    var temperatureWidth := measure(70, text.temperature).width;
    var windY := 90.0 + measure(20, TemperatureUnit).ascent;
    var windX := 250.0 + temperatureWidth;
    var wind := WindText(text.windKph);
    CardLayout(
      Placed(heading, 62.0, 25.0 + measure(40, heading).ascent),
      UpgradeIcon(data.current.condition.icon), 62.0, 52.0,
      Placed(status, 62.0, 176.0 + measure(25, status).ascent),
      Placed(text.temperature, 200.0, iconHeight / 2.5 + 70.0 / 2.0 + measure(70, text.temperature).ascent),
      Placed(TemperatureUnit, 200.0 + temperatureWidth, 90.0 + measure(30, TemperatureUnit).ascent),
      Placed(wind, windX, windY),
      Placed(HumidityText(text.humidity), windX, windY + 30.0),
      windX + measure(20, wind).width, windY)
  }
}
