/**
 * The page's settings holder (src/app/page.tsx): a fixed default record,
 * the right-biased merge that every change goes through, and the record
 * built when the settings are exported.
 */
module Page {
  import opened Values

  /** The twelve fields of the page's settings interface. */
  const SettingsFields: set<string> := {
    "hdriIntensity", "directionalLightIntensity", "directionalLightAngle",
    "ambientLightColor", "ambientLightIntensity", "environmentRotation",
    "roughness", "metalness", "backgroundType", "backgroundColor",
    "enableShadows", "shadowOpacity"
  }

  const NumericFields: set<string> := {
    "hdriIntensity", "directionalLightIntensity", "directionalLightAngle",
    "ambientLightIntensity", "environmentRotation", "roughness", "metalness", "shadowOpacity"
  }

  const ColorFields: set<string> := {"ambientLightColor", "backgroundColor"}

  /** A value of the type the settings interface declares for `key`; keys outside the interface accept anything. */
  predicate FieldTyped(key: string, v: Value) {
    if key in NumericFields then v.Number?
    else if key in ColorFields then v.Text?
    else if key == "backgroundType" then v == Text("hdri") || v == Text("color") || v == Text("studio")
    else if key == "enableShadows" then v.Flag?
    else true
  }

  /** Every field a settings object carries has its declared type. */
  predicate WellTyped(s: Settings) {
    forall k :: k in s ==> FieldTyped(k, s[k])
  }

  /** A complete settings record: every interface field present, each with its declared type. */
  predicate Complete(s: Settings) {
    SettingsFields <= s.Keys && WellTyped(s)
  }

  /** The record the page starts from. */
  function DefaultSettings(): (s: Settings)
    ensures s.Keys == SettingsFields
    ensures Complete(s)
  {
    map[
      "hdriIntensity" := Number(Finite(1.0)),
      "directionalLightIntensity" := Number(Finite(1.0)),
      "directionalLightAngle" := Number(Finite(45.0)),
      "ambientLightColor" := Text("#ffffff"),
      "ambientLightIntensity" := Number(Finite(0.5)),
      "environmentRotation" := Number(Finite(0.0)),
      "roughness" := Number(Finite(0.5)),
      "metalness" := Number(Finite(0.0)),
      "backgroundType" := Text("hdri"),
      "backgroundColor" := Text("#2a2a2a"),
      "enableShadows" := Flag(true),
      "shadowOpacity" := Number(Finite(0.3))
    ]
  }

  /** `{...prev, ...partial}`: the partial's keys win, every other key keeps its value. */
  function Merge(prev: Settings, partial: Settings): (r: Settings)
    ensures r.Keys == prev.Keys + partial.Keys
    ensures forall k :: k in partial ==> r[k] == partial[k]
    ensures forall k :: k in prev && k !in partial ==> r[k] == prev[k]
  {
    prev + partial
  }

  lemma MergeEmptyIsIdentity(s: Settings)
    ensures Merge(s, map[]) == s
  {
  }

  lemma MergeTwiceIsMergeOnce(s: Settings, partial: Settings)
    ensures Merge(Merge(s, partial), partial) == Merge(s, partial)
  {
  }

  /** A merge of well-typed records is well typed, so a complete record stays complete. */
  lemma MergeKeepsComplete(s: Settings, partial: Settings)
    requires Complete(s) && WellTyped(partial)
    ensures Complete(Merge(s, partial))
  {
  }

  /** The settings held after a session's updates, applied in order, starting from the defaults. */
  function Session(updates: seq<Settings>): (r: Settings)
    ensures updates == [] ==> r == DefaultSettings()
    ensures updates != [] ==> forall k :: k in updates[|updates| - 1] ==> k in r && r[k] == updates[|updates| - 1][k]
    decreases |updates|
  {
    if updates == [] then DefaultSettings()
    else Merge(Session(updates[..|updates| - 1]), updates[|updates| - 1])
  }

  /** No sequence of updates removes a default field. */
  lemma {:induction false} SessionKeepsDefaultFields(updates: seq<Settings>)
    ensures SettingsFields <= Session(updates).Keys
    decreases |updates|
  {
    if updates != [] {
      SessionKeepsDefaultFields(updates[..|updates| - 1]);
    }
  }

  /** Well-typed updates keep the held record complete. */
  lemma {:induction false} SessionStaysComplete(updates: seq<Settings>)
    requires forall i :: 0 <= i < |updates| ==> WellTyped(updates[i])
    ensures Complete(Session(updates))
    decreases |updates|
  {
    if updates != [] {
      SessionStaysComplete(updates[..|updates| - 1]);
      MergeKeepsComplete(Session(updates[..|updates| - 1]), updates[|updates| - 1]);
    }
  }

  datatype Metadata = Metadata(version: string, description: string, usage: string)

  /** The exported object; `timestamp` is the ISO-8601 time the caller supplies. */
  datatype ExportData = ExportData(timestamp: string, settings: Settings, metadata: Metadata)

  const ExportMetadata: Metadata := Metadata(
    "1.0.0",
    "GLB Lighting Test Settings Export",
    "Import these settings into your production configurator")

  /** The export record of the settings `s` taken at time `timestamp`. */
  function BuildExport(s: Settings, timestamp: string): (d: ExportData)
    ensures d.timestamp == timestamp && d.settings == s
    ensures d.metadata == Metadata("1.0.0", "GLB Lighting Test Settings Export",
                                   "Import these settings into your production configurator")
  {
    ExportData(timestamp, s, ExportMetadata)
  }

  /** Merging a record that already carries every default field onto the defaults gives that record back. */
  lemma MergeOntoDefaults(s: Settings)
    requires SettingsFields <= s.Keys
    ensures Merge(DefaultSettings(), s) == s
  {
    assert Merge(DefaultSettings(), s).Keys == s.Keys;
  }

  /** Round trip: whatever a session exports, merged back onto the defaults, is exactly what was exported. */
  lemma ExportRoundTrip(updates: seq<Settings>, timestamp: string)
    ensures Merge(DefaultSettings(), BuildExport(Session(updates), timestamp).settings) == Session(updates)
  {
    SessionKeepsDefaultFields(updates);
    MergeOntoDefaults(Session(updates));
  }

  /** The `Home` component's state cell `lightingSettings`, replaced through `setLightingSettings`. */
  class Home {
    var lightingSettings: Settings

    constructor ()
      ensures lightingSettings == DefaultSettings()
    {
      lightingSettings := DefaultSettings();
    }

    /** `handleSettingsChange`: merge the partial update into the held settings. */
    method HandleSettingsChange(newSettings: Settings)
      modifies this
      ensures lightingSettings == Merge(old(lightingSettings), newSettings)
    {
      lightingSettings := Merge(lightingSettings, newSettings);
    }

    /** `handleExportSettings`: the record that is serialised and downloaded; the held settings are only read. */
    method HandleExportSettings(now: string) returns (exportData: ExportData)
      ensures exportData.timestamp == now
      ensures exportData.settings == lightingSettings
      ensures exportData.metadata == ExportMetadata
    {
      exportData := BuildExport(lightingSettings, now);
    }
  }
}
