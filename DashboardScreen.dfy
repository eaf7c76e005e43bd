/** The dashboard: the fixed table of interval options, the selected option,
    the sensor-configuration form and its list of configured sensors, and the
    parameters handed to the monitoring screen. */
module DashboardScreen {
  import opened Wrappers
  import SoilMonitoringScreen

  datatype Interval = Interval(labelText: string, value: string)

  /** A configured sensor: its type name and moisture threshold. */
  datatype SensorConfig = SensorConfig(sensorType: string, threshold: int)

  /** What navigating to the monitoring screen passes along. */
  datatype RouteParams = RouteParams(interval: string, threshold: Option<int>)

  /** The options offered by the interval picker, in display order. */
  const Intervals: seq<Interval> := [
    Interval("10 sec", "10s"),
    Interval("1 minute", "1min"),
    Interval("2 minutes", "2min"),
    Interval("1 Hour", "1h"),
    Interval("2 Hours", "2h"),
    Interval("Daily", "1d"),
    Interval("Weekly", "1w"),
    Interval("Monthly", "1m")
  ]

  /** Eight options, no two with the same value, the first being "10s". */
  lemma IntervalsTable()
    ensures |Intervals| == 8
    ensures forall i, j :: 0 <= i < j < |Intervals| ==> Intervals[i].value != Intervals[j].value
    ensures Intervals[0].value == "10s"
  {
  }

  /** The period the monitoring screen derives from each option: the first
      seven are recognised, "Monthly" falls back to ten seconds. */
  lemma IntervalOptionPeriods()
    ensures SoilMonitoringScreen.IntervalMs(Intervals[0].value) == 10000
    ensures SoilMonitoringScreen.IntervalMs(Intervals[1].value) == 60000
    ensures SoilMonitoringScreen.IntervalMs(Intervals[2].value) == 120000
    ensures SoilMonitoringScreen.IntervalMs(Intervals[3].value) == 3600000
    ensures SoilMonitoringScreen.IntervalMs(Intervals[4].value) == 7200000
    ensures SoilMonitoringScreen.IntervalMs(Intervals[5].value) == 86400000
    ensures SoilMonitoringScreen.IntervalMs(Intervals[6].value) == 604800000
    ensures Intervals[7].value !in SoilMonitoringScreen.KnownTags
    ensures SoilMonitoringScreen.IntervalMs(Intervals[7].value) == SoilMonitoringScreen.DefaultIntervalMs
  {
  }

  /** `splice(index, 1)` on a copy: the element at `index` removed, or the
      list unchanged when `index` is past its end. */
  function RemoveAt<T>(s: seq<T>, index: nat): (r: seq<T>)
    ensures index < |s| ==> |r| == |s| - 1
    ensures index < |s| ==> forall i :: 0 <= i < index ==> r[i] == s[i]
    ensures index < |s| ==> forall i :: index <= i < |r| ==> r[i] == s[i + 1]
    ensures index >= |s| ==> r == s
    ensures multiset(r) <= multiset(s)
  {
    if index < |s| then
      assert s == s[..index] + [s[index]] + s[index + 1..];
      s[..index] + s[index + 1..]
    else s
  }

  class Dashboard {
    var selectedInterval: Interval
    var modalVisible: bool
    var sensorType: string
    var threshold: Option<int>
    var configuredSensors: seq<SensorConfig>
    var showConfiguredSensors: bool

    /** The selection is always one of the table's options and every
        configured sensor has a non-empty type. */
    ghost predicate Valid()
      reads this
    {
      && selectedInterval in Intervals
      && forall i :: 0 <= i < |configuredSensors| ==> configuredSensors[i].sensorType != ""
    }

    constructor ()
      ensures Valid()
      ensures selectedInterval == Intervals[0] && !modalVisible
      ensures sensorType == "" && threshold == None
      ensures configuredSensors == [] && !showConfiguredSensors
    {
      selectedInterval := Intervals[0];
      modalVisible := false;
      sensorType := "";
      threshold := None;
      configuredSensors := [];
      showConfiguredSensors := false;
    }

    /** Tapping the interval dropdown opens the picker. */
    method OpenIntervalPicker()
      requires Valid()
      modifies this
      ensures Valid()
      ensures modalVisible
      ensures selectedInterval == old(selectedInterval) && configuredSensors == old(configuredSensors)
      ensures sensorType == old(sensorType) && threshold == old(threshold)
      ensures showConfiguredSensors == old(showConfiguredSensors)
    {
      modalVisible := true;
    }

    /** The picker's close button or a back gesture closes it without a change. */
    method CloseIntervalPicker()
      requires Valid()
      modifies this
      ensures Valid()
      ensures !modalVisible
      ensures selectedInterval == old(selectedInterval) && configuredSensors == old(configuredSensors)
      ensures sensorType == old(sensorType) && threshold == old(threshold)
      ensures showConfiguredSensors == old(showConfiguredSensors)
    {
      modalVisible := false;
    }

    /** Picking an option selects it and closes the picker. */
    method HandleIntervalSelect(interval: Interval)
      requires Valid()
      requires interval in Intervals
      modifies this
      ensures Valid()
      ensures selectedInterval == interval && !modalVisible
      ensures configuredSensors == old(configuredSensors)
      ensures sensorType == old(sensorType) && threshold == old(threshold)
      ensures showConfiguredSensors == old(showConfiguredSensors)
    {
      selectedInterval := interval;
      modalVisible := false;
    }

    /** Typing into the sensor-type field. */
    method SetSensorType(text: string)
      requires Valid()
      modifies this
      ensures Valid()
      ensures sensorType == text
      ensures threshold == old(threshold) && configuredSensors == old(configuredSensors)
      ensures selectedInterval == old(selectedInterval) && modalVisible == old(modalVisible)
      ensures showConfiguredSensors == old(showConfiguredSensors)
    {
      sensorType := text;
    }

    /** Typing a number into the threshold field. */
    method SetThreshold(value: int)
      requires Valid()
      modifies this
      ensures Valid()
      ensures threshold == Some(value)
      ensures sensorType == old(sensorType) && configuredSensors == old(configuredSensors)
      ensures selectedInterval == old(selectedInterval) && modalVisible == old(modalVisible)
      ensures showConfiguredSensors == old(showConfiguredSensors)
    {
      threshold := Some(value);
    }

    /** With a non-empty type and a threshold entered, appends that sensor and
        clears the form; otherwise changes nothing. */
    method HandleSensorConfigSubmit()
      requires Valid()
      modifies this
      ensures Valid()
      ensures old(sensorType) != [] && old(threshold).Some? ==>
        && configuredSensors == old(configuredSensors) + [SensorConfig(old(sensorType), old(threshold).value)]
        && sensorType == ""
        && threshold == None
      ensures !(old(sensorType) != [] && old(threshold).Some?) ==>
        && configuredSensors == old(configuredSensors)
        && sensorType == old(sensorType)
        && threshold == old(threshold)
      ensures selectedInterval == old(selectedInterval) && modalVisible == old(modalVisible)
      ensures showConfiguredSensors == old(showConfiguredSensors)
    {
      if sensorType != [] && threshold.Some? {
        configuredSensors := configuredSensors + [SensorConfig(sensorType, threshold.value)];
        sensorType := "";
        threshold := None;
      }
    }

    /** The delete button on row `index` of the configured-sensor list. */
    method DeleteSensor(index: nat)
      requires Valid()
      modifies this
      ensures Valid()
      ensures configuredSensors == RemoveAt(old(configuredSensors), index)
      ensures sensorType == old(sensorType) && threshold == old(threshold)
      ensures selectedInterval == old(selectedInterval) && modalVisible == old(modalVisible)
      ensures showConfiguredSensors == old(showConfiguredSensors)
    {
      configuredSensors := RemoveAt(configuredSensors, index);
    }

    /** The "Display / Hide Configured Sensors" button. */
    method ToggleConfiguredSensors()
      requires Valid()
      modifies this
      ensures Valid()
      ensures showConfiguredSensors == !old(showConfiguredSensors)
      ensures configuredSensors == old(configuredSensors)
      ensures sensorType == old(sensorType) && threshold == old(threshold)
      ensures selectedInterval == old(selectedInterval) && modalVisible == old(modalVisible)
    {
      showConfiguredSensors := !showConfiguredSensors;
    }

    /** "Go to Soil Monitoring": the selected option's value and the threshold
        currently in the form. */
    method NavigateToMonitoring() returns (params: RouteParams)
      requires Valid()
      ensures params.interval == selectedInterval.value
      ensures params.threshold == threshold
      ensures params.interval == "1m" || params.interval in SoilMonitoringScreen.KnownTags
    {
      params := RouteParams(selectedInterval.value, threshold);
    }
  }
}
