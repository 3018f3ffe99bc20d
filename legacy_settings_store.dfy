/**
 * The settings store of the legacy client: the selected provider and model
 * and per-provider settings, loaded from browser storage at start and
 * written back after every change when a browser window exists. The text
 * last written is kept as ghost state.
 */
module LegacySettingsStore {
  import opened Wrappers

  /** `apiKey` and `baseUrl` are optional members; `None` is absent. */
  datatype ProviderSettings = ProviderSettings(apiKey: Option<string>, baseUrl: Option<string>)

  datatype SettingsState = SettingsState(selectedProvider: string, selectedModel: string,
                                         providerSettings: map<string, ProviderSettings>)

  const Defaults: SettingsState := SettingsState("openai", "gpt-4o-mini", map[])

  const NoSettings: ProviderSettings := ProviderSettings(None, None)

  /** The top-level members `JSON.parse` found in the stored text. */
  datatype SettingsPatch = SettingsPatch(selectedProvider: Option<string>, selectedModel: Option<string>,
                                         providerSettings: Option<map<string, ProviderSettings>>)

  /** `{ ...DEFAULTS, ...patch }`. */
  function Merged(patch: SettingsPatch): (r: SettingsState)
    ensures r.selectedProvider == patch.selectedProvider.GetOr(Defaults.selectedProvider)
    ensures r.selectedModel == patch.selectedModel.GetOr(Defaults.selectedModel)
    ensures r.providerSettings == patch.providerSettings.GetOr(Defaults.providerSettings)
  {
    SettingsState(patch.selectedProvider.GetOr(Defaults.selectedProvider),
                  patch.selectedModel.GetOr(Defaults.selectedModel),
                  patch.providerSettings.GetOr(Defaults.providerSettings))
  }

  /**
   * `loadFromStorage`: the defaults without a window, without stored text,
   * with empty stored text, or when parsing throws; otherwise the defaults
   * overlaid with what was stored.
   */
  function Loaded(hasWindow: bool, stored: Option<string>, parse: string -> Option<SettingsPatch>): (r: SettingsState)
    ensures !hasWindow || stored.None? || stored == Some("") ==> r == Defaults
    ensures hasWindow && stored.Some? && stored.value != "" && parse(stored.value).None? ==> r == Defaults
    ensures hasWindow && stored.Some? && stored.value != "" && parse(stored.value).Some? ==>
              r == Merged(parse(stored.value).value)
  {
    if !hasWindow then Defaults
    else match stored
      case None => Defaults
      case Some(text) =>
        if text == "" then Defaults
        else match parse(text)
          case None => Defaults
          case Some(patch) => Merged(patch)
  }

  /** A whole state, written and read back, is restored; an empty object reads as the defaults. */
  lemma MergeRestores(s: SettingsState)
    ensures Merged(SettingsPatch(Some(s.selectedProvider), Some(s.selectedModel), Some(s.providerSettings))) == s
    ensures Merged(SettingsPatch(None, None, None)) == Defaults
  {
  }

  /** `setProviderSettings`: the entry for `provider` replaced, the others kept. */
  function WithProviderSettings(s: SettingsState, provider: string, settings: ProviderSettings): (r: SettingsState)
    ensures r.providerSettings.Keys == s.providerSettings.Keys + {provider}
    ensures r.providerSettings[provider] == settings
    ensures forall p :: p in s.providerSettings && p != provider ==> r.providerSettings[p] == s.providerSettings[p]
    ensures r.selectedProvider == s.selectedProvider && r.selectedModel == s.selectedModel
  {
    s.(providerSettings := s.providerSettings[provider := settings])
  }

  /** `getSettings`: the provider's entry, or an empty settings object. */
  function SettingsFor(s: SettingsState, provider: string): (r: ProviderSettings)
    ensures provider in s.providerSettings ==> r == s.providerSettings[provider]
    ensures provider !in s.providerSettings ==> r == NoSettings
  {
    if provider in s.providerSettings then s.providerSettings[provider] else NoSettings
  }

  /** Reading a provider's settings returns what was last set for it, and setting one provider leaves the others alone. */
  lemma SetThenGet(s: SettingsState, provider: string, settings: ProviderSettings, other: string)
    ensures SettingsFor(WithProviderSettings(s, provider, settings), provider) == settings
    ensures other != provider ==> SettingsFor(WithProviderSettings(s, provider, settings), other) == SettingsFor(s, other)
  {
  }

  class LegacySettingsCell {
    var state: SettingsState
    /** Whether a browser window exists; without one nothing is written. */
    const hasWindow: bool
    /** The state last written to storage by this store. */
    ghost var stored: Option<SettingsState>

    constructor(hasWindow: bool, saved: Option<string>, parse: string -> Option<SettingsPatch>)
      ensures this.hasWindow == hasWindow && state == Loaded(hasWindow, saved, parse) && stored.None?
    {
      this.hasWindow := hasWindow;
      state := Loaded(hasWindow, saved, parse);
      stored := None;
    }

    method SetProvider(provider: string)
      modifies this
      ensures state == old(state).(selectedProvider := provider)
      ensures stored == if hasWindow then Some(state) else old(stored)
    {
      state := state.(selectedProvider := provider);
      if hasWindow {
        stored := Some(state);
      }
    }

    method SetModel(model: string)
      modifies this
      ensures state == old(state).(selectedModel := model)
      ensures stored == if hasWindow then Some(state) else old(stored)
    {
      state := state.(selectedModel := model);
      if hasWindow {
        stored := Some(state);
      }
    }

    method SetProviderSettings(provider: string, settings: ProviderSettings)
      modifies this
      ensures state == WithProviderSettings(old(state), provider, settings)
      ensures stored == if hasWindow then Some(state) else old(stored)
    {
      state := WithProviderSettings(state, provider, settings);
      if hasWindow {
        stored := Some(state);
      }
    }

    method GetSettings(provider: string) returns (settings: ProviderSettings)
      ensures settings == SettingsFor(state, provider)
    {
      settings := SettingsFor(state, provider);
    }
  }
}
