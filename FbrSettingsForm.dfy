/**
 * The tax-authority settings screen (components/FBRSettings.tsx): the
 * change handler that copies the settings with one field replaced, and the
 * status line shown beside the switch.
 */
module FbrSettingsForm {
  import opened Types

  /**
   * An edit on one of the screen's inputs, as the change handler sees it: the
   * `enabled` checkbox, the text inputs `ntn` and `posId`, the password input
   * `apiKey`, and the number input `manualTaxRate` with its `parseFloat` value.
   */
  datatype SettingsChange =
    | EnabledToggled(checked: bool)
    | NtnTyped(text: string)
    | PosIdTyped(text: string)
    | ApiKeyTyped(text: string)
    | ManualTaxRateTyped(parsed: ParsedFloat)

  /** The connection state passed to the screen. */
  datatype ApiStatus = Idle | Loading | Success | Error

  /** The number input's value: the percentage divided by 100 for the tax rate, 0 in place of not-a-number. */
  function StoredRate(parsed: ParsedFloat): (r: real)
    ensures parsed.NaN? ==> r == 0.0
    ensures parsed.Num? ==> r * 100.0 == parsed.value
  {
    match parsed
    case NaN => 0.0
    case Num(v) => v / 100.0
  }

  /** `handleChange` (lines 12-29): the settings with the edited field replaced. */
  function ChangeSetting(settings: FbrSettings, change: SettingsChange): (r: FbrSettings)
    ensures r.enabled == (if change.EnabledToggled? then change.checked else settings.enabled)
    ensures r.ntn == (if change.NtnTyped? then change.text else settings.ntn)
    ensures r.posId == (if change.PosIdTyped? then change.text else settings.posId)
    ensures r.apiKey == (if change.ApiKeyTyped? then change.text else settings.apiKey)
    ensures r.manualTaxRate == (if change.ManualTaxRateTyped? then StoredRate(change.parsed) else settings.manualTaxRate)
  {
    match change
    case EnabledToggled(checked) => settings.(enabled := checked)
    case NtnTyped(text) => settings.(ntn := text)
    case PosIdTyped(text) => settings.(posId := text)
    case ApiKeyTyped(text) => settings.(apiKey := text)
    case ManualTaxRateTyped(parsed) => settings.(manualTaxRate := StoredRate(parsed))
  }

  /** The rate input shows `manualTaxRate * 100`; entering the shown value changes nothing. */
  lemma ShownRateRoundTrip(settings: FbrSettings)
    ensures ChangeSetting(settings, ManualTaxRateTyped(Num(settings.manualTaxRate * 100.0))) == settings
  {
  }

  /** Repeating an edit has no further effect. */
  lemma ChangeIdempotent(settings: FbrSettings, change: SettingsChange)
    ensures ChangeSetting(ChangeSetting(settings, change), change) == ChangeSetting(settings, change)
  {
  }

  /** The input an edit comes from. */
  function Input(change: SettingsChange): nat {
    match change
    case EnabledToggled(_) => 0
    case NtnTyped(_) => 1
    case PosIdTyped(_) => 2
    case ApiKeyTyped(_) => 3
    case ManualTaxRateTyped(_) => 4
  }

  /** Edits to different inputs commute, since each replaces only its own field. */
  lemma ChangesCommute(settings: FbrSettings, a: SettingsChange, b: SettingsChange)
    requires Input(a) != Input(b)
    ensures ChangeSetting(ChangeSetting(settings, a), b) == ChangeSetting(ChangeSetting(settings, b), a)
  {
  }

  /** Of two edits to the same input, the later one wins. */
  lemma LatestEditWins(settings: FbrSettings, a: SettingsChange, b: SettingsChange)
    requires Input(a) == Input(b)
    ensures ChangeSetting(ChangeSetting(settings, a), b) == ChangeSetting(settings, b)
  {
  }

  /** `getStatusIndicator` (lines 31-46): the text of the status line. */
  function StatusLabel(enabled: bool, status: ApiStatus): (r: string)
    ensures r == "Disabled" <==> !enabled
    ensures enabled ==> r == match status
      case Loading => "Connecting..."
      case Success => "Connected"
      case Error => "Connection Failed"
      case Idle => "Idle"
  {
    if !enabled then "Disabled"
    else match status
      case Loading => "Connecting..."
      case Success => "Connected"
      case Error => "Connection Failed"
      case Idle => "Idle"
  }

  /** With the integration switched on, distinct states show distinct labels. */
  lemma StatusLabelsDistinct(s: ApiStatus, t: ApiStatus)
    requires s != t
    ensures StatusLabel(true, s) != StatusLabel(true, t)
  {
  }
}
