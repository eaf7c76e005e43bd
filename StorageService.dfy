/** The soil-data store: one storage key holding an optional SoilData
    aggregate, read and written whole. Storage-layer faults arrive as boolean
    parameters; every one of them is swallowed, so no operation reports an
    error to its caller. */
module SoilMonitoringStorage {
  import opened Wrappers
  import opened SoilTypes

  /** The aggregate with `entry` pushed onto its log; everything else kept. */
  function WithLogEntry(data: SoilData, entry: SoilLog): (r: SoilData)
    ensures |r.logs| == Min(MaxLogEntries, |data.logs| + 1)
    ensures 1 <= |r.logs| <= MaxLogEntries && r.logs[0] == entry
    ensures forall i :: 0 <= i < |r.logs| - 1 ==> r.logs[i + 1] == data.logs[i]
    ensures r.currentMoisture == data.currentMoisture
    ensures r.currentTemperature == data.currentTemperature
    ensures r.currentHumidity == data.currentHumidity
    ensures r.interval == data.interval
  {
    data.(logs := PushLog(entry, data.logs))
  }

  /** The aggregate with its three current readings replaced; log and interval kept. */
  function WithCurrentReadings(data: SoilData, moisture: int, temperature: int, humidity: int): (r: SoilData)
    ensures r.currentMoisture == moisture
    ensures r.currentTemperature == temperature
    ensures r.currentHumidity == humidity
    ensures r.logs == data.logs && r.interval == data.interval
  {
    data.(currentMoisture := moisture, currentTemperature := temperature, currentHumidity := humidity)
  }

  /** Updating the current readings twice with the same values is updating them once. */
  lemma WithCurrentReadingsIdempotent(data: SoilData, moisture: int, temperature: int, humidity: int)
    ensures WithCurrentReadings(WithCurrentReadings(data, moisture, temperature, humidity), moisture, temperature, humidity)
         == WithCurrentReadings(data, moisture, temperature, humidity)
  {
  }

  /** Adding the same entry twice gives two rows: adding is not idempotent. */
  lemma WithLogEntryTwice(data: SoilData, entry: SoilLog)
    ensures var twice := WithLogEntry(WithLogEntry(data, entry), entry);
      |twice.logs| >= 2 && twice.logs[0] == entry && twice.logs[1] == entry
  {
    var once := WithLogEntry(data, entry);
    assert |once.logs| >= 1 && once.logs[0] == entry;
  }

  class SoilMonitoringStorageService {
    /** The value under the storage key "@SoilMonitoringData"; None when
        nothing is stored. */
    var stored: Option<SoilData>

    /** A device whose store holds nothing yet. */
    constructor ()
      ensures stored == None
    {
      stored := None;
    }

    /** Writes the whole aggregate, replacing any earlier value. A failed write
        is caught and leaves the slot as it was. */
    method SaveData(data: SoilData, saveFails: bool)
      modifies this
      ensures stored == if saveFails then old(stored) else Some(data)
    {
      if !saveFails {
        stored := Some(data);
      }
    }

    /** The stored aggregate, or None when the slot is empty or reading or
        parsing it fails. */
    method LoadData(loadFails: bool) returns (r: Option<SoilData>)
      ensures loadFails ==> r == None
      ensures !loadFails ==> r == stored
    {
      if loadFails {
        r := None;
      } else {
        r := stored;
      }
    }

    /** Removes the stored aggregate. A failed removal is caught and leaves the slot as it was. */
    method ClearData(clearFails: bool)
      modifies this
      ensures stored == if clearFails then old(stored) else None
    {
      if !clearFails {
        stored := None;
      }
    }

    /** Load, push `entry` onto the log, save. Does nothing when the slot is
        empty or a storage step fails; never initialises the slot. */
    method AddLogEntry(entry: SoilLog, loadFails: bool, saveFails: bool)
      modifies this
      ensures old(stored).None? ==> stored == None
      ensures stored == if old(stored).Some? && !loadFails && !saveFails
                        then Some(WithLogEntry(old(stored).value, entry))
                        else old(stored)
    {
      var current := LoadData(loadFails);
      if current.Some? {
        SaveData(WithLogEntry(current.value, entry), saveFails);
      }
    }

    /** Load, overwrite the three current readings, save. Does nothing when the
        slot is empty or a storage step fails; never initialises the slot. */
    method UpdateCurrentReadings(moisture: int, temperature: int, humidity: int, loadFails: bool, saveFails: bool)
      modifies this
      ensures old(stored).None? ==> stored == None
      ensures stored == if old(stored).Some? && !loadFails && !saveFails
                        then Some(WithCurrentReadings(old(stored).value, moisture, temperature, humidity))
                        else old(stored)
    {
      var current := LoadData(loadFails);
      if current.Some? {
        SaveData(WithCurrentReadings(current.value, moisture, temperature, humidity), saveFails);
      }
    }
  }

  /** Saving and then loading gives back exactly what was saved, whatever was
      stored before. */
  method SaveThenLoad(prior: Option<SoilData>, data: SoilData) returns (r: Option<SoilData>)
    ensures r == Some(data)
  {
    var service := new SoilMonitoringStorageService();
    if prior.Some? {
      service.SaveData(prior.value, false);
    }
    service.SaveData(data, false);
    r := service.LoadData(false);
  }

  /** After a successful clear, loading finds nothing, whatever was stored before. */
  method ClearThenLoad(prior: Option<SoilData>) returns (r: Option<SoilData>)
    ensures r == None
  {
    var service := new SoilMonitoringStorageService();
    if prior.Some? {
      service.SaveData(prior.value, false);
    }
    service.ClearData(false);
    r := service.LoadData(false);
  }

  /** Updating readings or adding a log entry on an empty store leaves it empty. */
  method MutateEmptyThenLoad(entry: SoilLog, moisture: int, temperature: int, humidity: int)
    returns (r: Option<SoilData>)
    ensures r == None
  {
    var service := new SoilMonitoringStorageService();
    service.UpdateCurrentReadings(moisture, temperature, humidity, false, false);
    service.AddLogEntry(entry, false, false);
    r := service.LoadData(false);
  }
}
