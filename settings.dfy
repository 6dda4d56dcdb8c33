/**
  The event settings store (`load_settings`, `save_settings`, bot.py:139-168):
  the date, time and location held in memory, the local settings.json and
  its remote backup copy. A failed file or Drive operation has no effect.
 */
module Settings {
  import opened Wrappers

  datatype EventSettings = EventSettings(date: string, time: string, location: string)

  /** The values in force before any settings are loaded. */
  const Defaults: EventSettings := EventSettings("18.02", "20:00", "Club XYZ")

  const DateKey: string := "event_date"
  const TimeKey: string := "event_time"
  const LocationKey: string := "event_location"

  /** The content of settings.json: a JSON object of strings, or text that json.load rejects. */
  datatype SettingsFile = Malformed | JsonObject(fields: map<string, string>)

  /** The object `save_settings` writes: the three settings under their keys. */
  function ToJson(s: EventSettings): (obj: map<string, string>)
    ensures obj.Keys == {DateKey, TimeKey, LocationKey}
  {
    map[DateKey := s.date, TimeKey := s.time, LocationKey := s.location]
  }

  /** `obj.get(key, default)`. */
  function Get(obj: map<string, string>, key: string, default: string): string {
    if key in obj then obj[key] else default
  }

  /** Lines 148-150: each persisted key wins; a missing key keeps the current value. */
  function Merged(current: EventSettings, obj: map<string, string>): EventSettings {
    EventSettings(
      Get(obj, DateKey, current.date),
      Get(obj, TimeKey, current.time),
      Get(obj, LocationKey, current.location))
  }

  /** What is saved is what is loaded back, whatever was in memory before. */
  lemma SaveLoadRoundTrip(current: EventSettings, saved: EventSettings)
    ensures Merged(current, ToJson(saved)) == saved
  {
  }

  /** An object without the three keys leaves the settings as they are. */
  lemma MergeWithoutKeys(current: EventSettings, obj: map<string, string>)
    requires DateKey !in obj && TimeKey !in obj && LocationKey !in obj
    ensures Merged(current, obj) == current
  {
  }

  /** Loading one object after another is loading their union, later keys winning. */
  lemma MergeTwice(current: EventSettings, first: map<string, string>, second: map<string, string>)
    ensures Merged(Merged(current, first), second) == Merged(current, first + second)
  {
  }

  class SettingsStore {
    /** The module globals `event_date`, `event_time`, `event_location`. */
    var current: EventSettings
    /** The local settings.json, if present. */
    var local: Option<SettingsFile>
    /** The settings.json backup on the remote file store, if present. */
    var remote: Option<SettingsFile>

    constructor (local: Option<SettingsFile>, remote: Option<SettingsFile>)
      ensures current == Defaults
      ensures this.local == local && this.remote == remote
    {
      current := Defaults;
      this.local := local;
      this.remote := remote;
    }

    /**
      `load_settings`: without a local file the remote copy is fetched, when
      the fetch works and there is one; then a readable local object is merged
      into the settings, and a malformed file is ignored.
     */
    method LoadSettings(downloadOk: bool)
      modifies this
      ensures remote == old(remote)
      ensures local == if old(local).None? && downloadOk then old(remote) else old(local)
      ensures current == if local.Some? && local.value.JsonObject?
                         then Merged(old(current), local.value.fields)
                         else old(current)
    {
      if local.None? && downloadOk {
        local := remote;
      }
      if local.Some? && local.value.JsonObject? {
        current := Merged(current, local.value.fields);
      }
    }

    /**
      `save_settings`: the whole settings object overwrites the local file,
      and the file is then uploaded when the upload works.
     */
    method SaveSettings(writeOk: bool, uploadOk: bool)
      modifies this
      ensures current == old(current)
      ensures local == if writeOk then Some(JsonObject(ToJson(current))) else old(local)
      ensures remote == if writeOk && uploadOk then Some(JsonObject(ToJson(current))) else old(remote)
    {
      if writeOk {
        local := Some(JsonObject(ToJson(current)));
        if uploadOk {
          remote := local;
        }
      }
    }
  }

  /**
    A restart after a successful save: a fresh store over the saved file
    loads exactly the saved settings; with no file anywhere it keeps the
    defaults.
   */
  method RestartAfterSave(saved: EventSettings) returns (loaded: EventSettings, withoutFile: EventSettings)
    ensures loaded == saved
    ensures withoutFile == Defaults
  {
    var before := new SettingsStore(None, None);
    before.current := saved;
    before.SaveSettings(true, true);
    var after := new SettingsStore(before.local, None);
    after.LoadSettings(true);
    SaveLoadRoundTrip(Defaults, saved);
    loaded := after.current;
    var empty := new SettingsStore(None, None);
    empty.LoadSettings(true);
    withoutFile := empty.current;
  }
}
