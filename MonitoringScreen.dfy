/** The soil-monitoring screen: the interval tag it is opened with, the state
    one timer tick updates, the below-threshold flag on a log row and the
    series handed to the charts. The random draw and the clock are parameters
    of the tick; the timer itself is not modelled. */
module SoilMonitoringScreen {
  import opened SoilTypes

  const SecondMs: nat := 1000
  const MinuteMs: nat := 60 * SecondMs
  const HourMs: nat := 60 * MinuteMs
  const DayMs: nat := 24 * HourMs
  const WeekMs: nat := 7 * DayMs

  /** The cadence used for any tag the screen does not recognise. */
  const DefaultIntervalMs: nat := 10 * SecondMs

  /** The tags the screen's switch recognises. */
  const KnownTags: set<string> := {"10s", "1min", "2min", "1h", "2h", "1d", "1w"}

  /** The timer period for an interval tag; every tag has one. */
  function IntervalMs(tag: string): (ms: nat)
    ensures tag == "10s" ==> ms == 10 * SecondMs
    ensures tag == "1min" ==> ms == 1 * MinuteMs
    ensures tag == "2min" ==> ms == 2 * MinuteMs
    ensures tag == "1h" ==> ms == 1 * HourMs
    ensures tag == "2h" ==> ms == 2 * HourMs
    ensures tag == "1d" ==> ms == 1 * DayMs
    ensures tag == "1w" ==> ms == 1 * WeekMs
    ensures tag !in KnownTags ==> ms == DefaultIntervalMs
    ensures ms >= DefaultIntervalMs
  {
    if tag == "10s" then 10000
    else if tag == "1min" then 60000
    else if tag == "2min" then 120000
    else if tag == "1h" then 3600000
    else if tag == "2h" then 7200000
    else if tag == "1d" then 86400000
    else if tag == "1w" then 604800000
    else 10000
  }

  /** Distinct recognised tags give distinct periods; only "10s" shares its
      period with the fallback. */
  lemma IntervalMsDistinguishesKnownTags(a: string, b: string)
    requires a in KnownTags && b in KnownTags && a != b
    ensures IntervalMs(a) != IntervalMs(b)
  {
  }

  /** The moisture threshold the screen starts with and never changes. */
  const DefaultThreshold: int := 5

  const MinMoisture: int := 10
  const MaxMoisture: int := 60
  const MinTemperature: int := 15
  const MaxTemperature: int := 35
  const MinHumidity: int := 30
  const MaxHumidity: int := 70

  /** The ranges a tick draws its three readings from, bounds included: both
      percentages stay within 0..100 and moisture stays above the threshold. */
  function ReadingInRange(moisture: int, temperature: int, humidity: int): (ok: bool)
    ensures ok ==> 0 <= moisture <= 100 && 0 <= humidity <= 100
    ensures ok ==> moisture > DefaultThreshold
    ensures ok ==> 0 < temperature < 100
  {
    && MinMoisture <= moisture <= MaxMoisture
    && MinTemperature <= temperature <= MaxTemperature
    && MinHumidity <= humidity <= MaxHumidity
  }

  predicate LogInRange(log: SoilLog) {
    ReadingInRange(log.moisture, log.temperature, log.humidity)
  }

  /** A log row is highlighted when its moisture is strictly below the threshold. */
  function IsBelowThreshold(item: SoilLog, threshold: int): (flagged: bool)
    ensures item.moisture == threshold ==> !flagged
    ensures item.moisture + 1 == threshold ==> flagged
    ensures flagged <==> item.moisture + 1 <= threshold
  {
    item.moisture < threshold
  }

  /** The comparison is strict: a row exactly at the threshold is not flagged,
      one a unit below is. */
  lemma BelowThresholdIsStrict(item: SoilLog, threshold: int)
    ensures item.moisture == threshold ==> !IsBelowThreshold(item, threshold)
    ensures item.moisture == threshold - 1 ==> IsBelowThreshold(item, threshold)
    ensures IsBelowThreshold(item, threshold) <==> item.moisture + 1 <= threshold
  {
  }

  /** Rows produced by ticks are never flagged at the screen's fixed
      threshold: the smallest drawable moisture is above it. */
  lemma TickRowsNeverFlagged(logs: seq<SoilLog>)
    requires forall i :: 0 <= i < |logs| ==> LogInRange(logs[i])
    ensures forall i :: 0 <= i < |logs| ==> !IsBelowThreshold(logs[i], DefaultThreshold)
  {
  }

  /** The three charted quantities. */
  datatype Metric = Moisture | Temperature | Humidity

  function ReadingOf(log: SoilLog, metric: Metric): int {
    match metric
    case Moisture => log.moisture
    case Temperature => log.temperature
    case Humidity => log.humidity
  }

  /** Number of points a chart shows. */
  const ChartPoints: nat := 5

  /** The label of the point taken from log index `i`: "T-" followed by 5 - i. */
  function ChartLabel(i: nat): (tag: string)
    requires i < ChartPoints
    ensures tag == ["T-5", "T-4", "T-3", "T-2", "T-1"][i]
  {
    assert "012345"[ChartPoints - i] == "54321"[i];
    "T-" + ["012345"[ChartPoints - i]]
  }

  datatype ChartData = ChartData(labels: seq<string>, data: seq<int>)

  /** The chart for one metric: the newest five log entries, oldest of them
      first and newest last, labelled from "T-5" onwards. */
  function GenerateChartData(logs: seq<SoilLog>, metric: Metric): (c: ChartData)
    ensures |c.labels| == |c.data| == Min(ChartPoints, |logs|)
    ensures forall j :: 0 <= j < |c.data| ==> c.data[j] == ReadingOf(logs[|c.data| - 1 - j], metric)
    ensures logs != [] ==> c.data[|c.data| - 1] == ReadingOf(logs[0], metric)
    ensures c.labels == ["T-5", "T-4", "T-3", "T-2", "T-1"][..|c.labels|]
  {
    var recent := logs[..Min(ChartPoints, |logs|)];
    var labels := seq(|recent|, i requires 0 <= i < |recent| => ChartLabel(i));
    var values := seq(|recent|, i requires 0 <= i < |recent| => ReadingOf(recent[i], metric));
    ChartData(labels, Reversed(values))
  }

  /** The screen's state. `updateInterval` is the timer period chosen from the
      route's interval tag when the screen's effect runs. */
  class MonitoringScreen {
    var threshold: int
    var moistureLevel: int
    var temperature: int
    var humidity: int
    var logs: seq<SoilLog>
    var updateInterval: nat

    /** The threshold stays at its default, the log stays within capacity and
        holds only drawable readings, and the current readings are those of
        the newest row. */
    ghost predicate Valid()
      reads this
    {
      && threshold == DefaultThreshold
      && |logs| <= MaxLogEntries
      && (forall i :: 0 <= i < |logs| ==> LogInRange(logs[i]))
      && (logs != [] ==>
            && moistureLevel == logs[0].moisture
            && temperature == logs[0].temperature
            && humidity == logs[0].humidity)
    }

    /** Mounting the screen with the route's interval tag. */
    constructor (interval: string)
      ensures Valid()
      ensures threshold == DefaultThreshold
      ensures moistureLevel == 25 && temperature == 20 && humidity == 45
      ensures logs == []
      ensures updateInterval == IntervalMs(interval)
    {
      threshold := DefaultThreshold;
      moistureLevel, temperature, humidity := 25, 20, 45;
      logs := [];
      updateInterval := IntervalMs(interval);
    }

    /** New route parameters re-run the effect: only the period changes. */
    method OnRouteParams(interval: string)
      requires Valid()
      modifies this
      ensures Valid()
      ensures updateInterval == IntervalMs(interval)
      ensures threshold == old(threshold) && logs == old(logs)
      ensures moistureLevel == old(moistureLevel) && temperature == old(temperature) && humidity == old(humidity)
    {
      updateInterval := IntervalMs(interval);
    }

    /** One timer tick with the drawn readings and the current date and time:
        set the current triple, then push the new row onto the log. */
    method Tick(newMoisture: int, newTemperature: int, newHumidity: int, date: string, time: string)
      requires Valid()
      requires ReadingInRange(newMoisture, newTemperature, newHumidity)
      modifies this
      ensures Valid()
      ensures moistureLevel == newMoisture && temperature == newTemperature && humidity == newHumidity
      ensures logs == PushLog(SoilLog(date, time, newMoisture, newTemperature, newHumidity), old(logs))
      ensures logs[0] == SoilLog(date, time, moistureLevel, temperature, humidity)
      ensures threshold == old(threshold) && updateInterval == old(updateInterval)
    {
      moistureLevel := newMoisture;
      temperature := newTemperature;
      humidity := newHumidity;
      var newLog := SoilLog(date, time, newMoisture, newTemperature, newHumidity);
      logs := PushLog(newLog, logs);
    }

    /** Whether the log row is highlighted on this screen. */
    method RenderLogItemFlag(item: SoilLog) returns (flagged: bool)
      requires Valid()
      ensures flagged <==> item.moisture < DefaultThreshold
    {
      flagged := IsBelowThreshold(item, threshold);
    }
  }

  /** A run of ticks from a freshly mounted screen. */
  method TicksFromMount(interval: string, m: int, t: int, h: int, date: string, time: string)
    returns (flags: bool, chart: ChartData)
    requires ReadingInRange(m, t, h)
    ensures !flags
    ensures chart.data == [m, m] && chart.labels == ["T-5", "T-4"]
  {
    var screen := new MonitoringScreen(interval);
    screen.Tick(m, t, h, date, time);
    screen.Tick(m, t, h, date, time);
    flags := screen.RenderLogItemFlag(screen.logs[0]);
    chart := GenerateChartData(screen.logs, Moisture);
  }
}
