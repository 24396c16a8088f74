/** How the recording hotkey drives recording (`RecordingMode`). */
module Recording {
  import opened Models

  datatype RecordingMode = Toggle | Hold

  function ModeRawValue(m: RecordingMode): string {
    match m
    case Toggle => "Toggle"
    case Hold => "Hold"
  }

  /** `RecordingMode(rawValue:)`, used when the persisted mode is read back. */
  function ModeFromRaw(s: string): (r: Option<RecordingMode>)
    ensures r.Some? ==> ModeRawValue(r.value) == s
  {
    if s == "Toggle" then Some(Toggle) else if s == "Hold" then Some(Hold) else None
  }

  /** Every mode survives being persisted by its raw value. */
  lemma ModeRawValueRoundTrip(m: RecordingMode)
    ensures ModeFromRaw(ModeRawValue(m)) == Some(m)
  {
  }
}
