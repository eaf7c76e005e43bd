/** The soil-reading records shared by the storage service and the monitoring
    screen, and the bounded, newest-first reading log both of them keep. */
module SoilTypes {
  import opened Wrappers

  /** One sample. Date and time are opaque display strings. */
  datatype SoilLog = SoilLog(
    date: string,
    time: string,
    moisture: int,
    temperature: int,
    humidity: int)

  /** The persisted aggregate: current readings, the log and an optional interval tag. */
  datatype SoilData = SoilData(
    currentMoisture: int,
    currentTemperature: int,
    currentHumidity: int,
    logs: seq<SoilLog>,
    interval: Option<string>)

  /** Capacity of the reading log. */
  const MaxLogEntries: nat := 50

  function Min(a: int, b: int): int {
    if a <= b then a else b
  }

  /** `[entry, ...logs].slice(0, 50)`: the new entry first, then the newest
      prefix of the old log, never more than MaxLogEntries entries. */
  function PushLog(entry: SoilLog, logs: seq<SoilLog>): (r: seq<SoilLog>)
    ensures |r| == Min(MaxLogEntries, |logs| + 1)
    ensures 1 <= |r| <= MaxLogEntries
    ensures r[0] == entry
    ensures forall i :: 0 <= i < |r| - 1 ==> r[i + 1] == logs[i]
  {
    ([entry] + logs)[..Min(MaxLogEntries, |logs| + 1)]
  }

  /** On a full log the push drops exactly the oldest entry. */
  lemma PushLogOnFullLog(entry: SoilLog, logs: seq<SoilLog>)
    requires |logs| == MaxLogEntries
    ensures PushLog(entry, logs) == [entry] + logs[..MaxLogEntries - 1]
  {
  }

  /** Below capacity nothing is dropped. */
  lemma PushLogBelowCapacity(entry: SoilLog, logs: seq<SoilLog>)
    requires |logs| < MaxLogEntries
    ensures PushLog(entry, logs) == [entry] + logs
  {
  }

  /** The sequence in reverse order. */
  function Reversed<T>(s: seq<T>): (r: seq<T>)
    ensures |r| == |s|
    ensures forall k :: 0 <= k < |s| ==> r[k] == s[|s| - 1 - k]
  {
    if s == [] then [] else Reversed(s[1..]) + [s[0]]
  }

  /** The log after pushing `entries` one at a time, `entries[0]` first. */
  function PushAll(logs: seq<SoilLog>, entries: seq<SoilLog>): seq<SoilLog>
    decreases |entries|
  {
    if entries == [] then logs else PushAll(PushLog(entries[0], logs), entries[1..])
  }

  /** Cutting `b` to the cap before appending it to `a` and then cutting the
      whole to the cap is the same as cutting `a + b` to the cap. */
  lemma PrefixOfCapped(a: seq<SoilLog>, b: seq<SoilLog>, capped: seq<SoilLog>)
    requires capped == b[..Min(MaxLogEntries, |b|)]
    ensures (a + capped)[..Min(MaxLogEntries, |a| + |capped|)] == (a + b)[..Min(MaxLogEntries, |a| + |b|)]
  {
    var lhs := (a + capped)[..Min(MaxLogEntries, |a| + |capped|)];
    var rhs := (a + b)[..Min(MaxLogEntries, |a| + |b|)];
    assert |lhs| == |rhs|;
    forall i | 0 <= i < |lhs|
      ensures lhs[i] == rhs[i]
    {
      if i >= |a| {
        assert lhs[i] == capped[i - |a|];
      }
    }
  }

  /** Reversing a non-empty series puts its first entry last. */
  lemma ReversedFirstLast(entries: seq<SoilLog>, logs: seq<SoilLog>)
    requires entries != []
    ensures Reversed(entries) + logs == Reversed(entries[1..]) + ([entries[0]] + logs)
  {
    var r, e := Reversed(entries[1..]), [entries[0]];
    assert Reversed(entries) == r + e;
    assert (r + e) + logs == r + (e + logs);
  }

  /** One push followed by the rest of a series, written as a single cut of
      the reversed series followed by the old log. */
  lemma PushThenRest(logs: seq<SoilLog>, entries: seq<SoilLog>)
    requires entries != []
    ensures var pushed := PushLog(entries[0], logs);
      (Reversed(entries[1..]) + pushed)[..Min(MaxLogEntries, |entries| - 1 + |pushed|)]
      == (Reversed(entries) + logs)[..Min(MaxLogEntries, |entries| + |logs|)]
  {
    var b := [entries[0]] + logs;
    PrefixOfCapped(Reversed(entries[1..]), b, PushLog(entries[0], logs));
    ReversedFirstLast(entries, logs);
  }

  /** Any series of pushes, in the order made, leaves the newest entries first
      and keeps min(50, prior length + pushes) entries. */
  lemma {:induction false} PushAllLogs(logs: seq<SoilLog>, entries: seq<SoilLog>)
    requires |logs| <= MaxLogEntries || entries != []
    ensures PushAll(logs, entries) == (Reversed(entries) + logs)[..Min(MaxLogEntries, |entries| + |logs|)]
    ensures |PushAll(logs, entries)| == Min(MaxLogEntries, |entries| + |logs|)
    decreases |entries|
  {
    if entries == [] {
      assert Reversed(entries) == [];
    } else {
      PushAllLogs(PushLog(entries[0], logs), entries[1..]);
      PushThenRest(logs, entries);
    }
  }
}
