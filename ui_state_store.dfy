/**
 * The UI state store: sidebar, settings panel, theme, keyboard shortcuts and
 * modal. Sidebar, settings and theme actions write the new state to browser
 * storage; keyboard and modal actions do not. The last state written is kept
 * as ghost state, and the dark-mode media query is an input.
 */
module UiStateStore {
  import opened Wrappers
  import opened Json
  import DerivedStore

  datatype Panel = General | Providers | Appearance | Advanced
  datatype Theme = Light | Dark | System
  datatype ModalKind = About | Help | SettingsModal

  datatype Sidebar = Sidebar(open: bool, width: int)
  datatype SettingsView = SettingsView(open: bool, panel: Panel)
  datatype Shortcuts = Shortcuts(enabled: bool, activeShortcut: Option<string>)
  /** `data` is `None` when it is `undefined`. */
  datatype Modal = Modal(open: bool, kind: Option<ModalKind>, data: Option<Json>)

  datatype UIState = UIState(sidebar: Sidebar, settings: SettingsView, theme: Theme,
                             keyboardShortcuts: Shortcuts, modal: Modal)

  const DefaultSidebarWidth: int := 280
  const MinSidebarWidth: int := 200
  const MaxSidebarWidth: int := 400

  const InitialState: UIState :=
    UIState(Sidebar(true, DefaultSidebarWidth), SettingsView(false, General), System, Shortcuts(true, None),
            Modal(false, None, None))

  /** `Math.max(200, Math.min(400, width))` */
  function ClampWidth(width: int): (r: int)
    ensures MinSidebarWidth <= r <= MaxSidebarWidth
    ensures MinSidebarWidth <= width <= MaxSidebarWidth ==> r == width
    ensures width < MinSidebarWidth ==> r == MinSidebarWidth
    ensures width > MaxSidebarWidth ==> r == MaxSidebarWidth
  {
    var capped := if width < MaxSidebarWidth then width else MaxSidebarWidth;
    if capped > MinSidebarWidth then capped else MinSidebarWidth
  }

  /** `effectiveTheme`: the theme, or the system preference when the theme is `system`. */
  function EffectiveTheme(s: UIState, prefersDark: bool): (r: Theme)
    ensures r != System
    ensures s.theme != System ==> r == s.theme
    ensures s.theme == System ==> (r == Dark <==> prefersDark)
  {
    if s.theme == System then (if prefersDark then Dark else Light) else s.theme
  }

  /** As written, `effectiveTheme` is built by `derived(subscribe, …)`, and subscribing to it throws. */
  lemma EffectiveThemeThrowsAsWritten(s: UIState, prefersDark: bool)
    ensures DerivedStore.FirstValue(DerivedStore.BareSubscribe(s), (u: UIState) => EffectiveTheme(u, prefersDark))
              == DerivedStore.Throws(DerivedStore.NotAStore)
  {
  }

  /** As intended, `derived({ subscribe }, …)`: the view shows a concrete theme, the system's preference for `system`. */
  lemma EffectiveThemeAsIntended(s: UIState, prefersDark: bool)
    ensures var r := DerivedStore.FirstValue(DerivedStore.Store(s), (u: UIState) => EffectiveTheme(u, prefersDark));
      r.Value? && r.value != System && (s.theme != System ==> r.value == s.theme)
      && (s.theme == System ==> (r.value == Dark <==> prefersDark))
  {
  }

  // ---------------------------------------------------------------------------
  // Transitions
  // ---------------------------------------------------------------------------

  function SidebarToggled(s: UIState): (r: UIState)
    ensures r.sidebar.open == !s.sidebar.open && r.sidebar.width == s.sidebar.width
    ensures r.(sidebar := s.sidebar) == s
  {
    s.(sidebar := s.sidebar.(open := !s.sidebar.open))
  }

  function SidebarWidthSet(s: UIState, width: int): (r: UIState)
    ensures MinSidebarWidth <= r.sidebar.width <= MaxSidebarWidth
    ensures r.sidebar.open == s.sidebar.open
    ensures r.(sidebar := s.sidebar) == s
  {
    s.(sidebar := s.sidebar.(width := ClampWidth(width)))
  }

  /** Toggling the sidebar twice changes nothing. */
  lemma ToggleSidebarTwice(s: UIState)
    ensures SidebarToggled(SidebarToggled(s)) == s
  {
  }

  /** Setting the same width again changes nothing; the stored width is already clamped. */
  lemma SetWidthIdempotent(s: UIState, width: int)
    ensures SidebarWidthSet(SidebarWidthSet(s, width), width) == SidebarWidthSet(s, width)
    ensures ClampWidth(ClampWidth(width)) == ClampWidth(width)
  {
  }

  function SettingsOpened(s: UIState, panel: Option<Panel>): (r: UIState)
    ensures r.settings.open && r.settings.panel == panel.GetOr(General)
    ensures r.(settings := s.settings) == s
  {
    s.(settings := SettingsView(true, panel.GetOr(General)))
  }

  function SettingsClosed(s: UIState): (r: UIState)
    ensures !r.settings.open && r.settings.panel == s.settings.panel
    ensures r.(settings := s.settings) == s
  {
    s.(settings := s.settings.(open := false))
  }

  /** Closing the settings after opening them at a panel keeps that panel. */
  lemma ReopenKeepsPanel(s: UIState, panel: Option<Panel>)
    ensures SettingsClosed(SettingsOpened(s, panel)).settings == SettingsView(false, panel.GetOr(General))
  {
  }

  function ModalOpened(s: UIState, kind: ModalKind, data: Option<Json>): (r: UIState)
    ensures r.modal.open && r.modal.kind == Some(kind) && r.modal.data == data
    ensures r.(modal := s.modal) == s
  {
    s.(modal := Modal(true, Some(kind), data))
  }

  function ModalClosed(s: UIState): (r: UIState)
    ensures r.modal == Modal(false, None, None)
    ensures r.(modal := s.modal) == s
  {
    s.(modal := Modal(false, None, None))
  }

  /** Opening then closing a modal leaves the state as closing alone does. */
  lemma OpenThenCloseModal(s: UIState, kind: ModalKind, data: Option<Json>)
    ensures ModalClosed(ModalOpened(s, kind, data)) == ModalClosed(s)
  {
  }

  function ShortcutsToggled(s: UIState): (r: UIState)
    ensures r.keyboardShortcuts.enabled == !s.keyboardShortcuts.enabled
    ensures r.keyboardShortcuts.activeShortcut == s.keyboardShortcuts.activeShortcut
    ensures r.(keyboardShortcuts := s.keyboardShortcuts) == s
  {
    s.(keyboardShortcuts := s.keyboardShortcuts.(enabled := !s.keyboardShortcuts.enabled))
  }

  // ---------------------------------------------------------------------------
  // The store cell
  // ---------------------------------------------------------------------------

  class UiStateCell {
    var state: UIState
    /** The state this store last wrote to storage; `None` before any write and once the key is removed. */
    ghost var stored: Option<UIState>

    /** A cell holding a well-formed state, with nothing written yet. */
    constructor(start: UIState)
      ensures state == start && stored.None?
    {
      state := start;
      stored := None;
    }

    method ToggleSidebar()
      modifies this
      ensures state == SidebarToggled(old(state)) && stored == Some(state)
    {
      state := SidebarToggled(state);
      stored := Some(state);
    }

    method SetSidebarOpen(open: bool)
      modifies this
      ensures state == old(state).(sidebar := old(state).sidebar.(open := open)) && stored == Some(state)
    {
      state := state.(sidebar := state.sidebar.(open := open));
      stored := Some(state);
    }

    method SetSidebarWidth(width: int)
      modifies this
      ensures state == SidebarWidthSet(old(state), width) && stored == Some(state)
    {
      state := SidebarWidthSet(state, width);
      stored := Some(state);
    }

    method ToggleSettings()
      modifies this
      ensures state == old(state).(settings := old(state).settings.(open := !old(state).settings.open))
      ensures stored == Some(state)
    {
      state := state.(settings := state.settings.(open := !state.settings.open));
      stored := Some(state);
    }

    method OpenSettings(panel: Option<Panel>)
      modifies this
      ensures state == SettingsOpened(old(state), panel) && stored == Some(state)
    {
      state := SettingsOpened(state, panel);
      stored := Some(state);
    }

    method CloseSettings()
      modifies this
      ensures state == SettingsClosed(old(state)) && stored == Some(state)
    {
      state := SettingsClosed(state);
      stored := Some(state);
    }

    method SetTheme(theme: Theme)
      modifies this
      ensures state == old(state).(theme := theme) && stored == Some(state)
    {
      state := state.(theme := theme);
      stored := Some(state);
    }

    method ToggleKeyboardShortcuts()
      modifies this
      ensures state == ShortcutsToggled(old(state)) && stored == old(stored)
    {
      state := ShortcutsToggled(state);
    }

    method SetActiveShortcut(shortcut: Option<string>)
      modifies this
      ensures state == old(state).(keyboardShortcuts := old(state).keyboardShortcuts.(activeShortcut := shortcut))
      ensures stored == old(stored)
    {
      state := state.(keyboardShortcuts := state.keyboardShortcuts.(activeShortcut := shortcut));
    }

    method OpenModal(kind: ModalKind, data: Option<Json>)
      modifies this
      ensures state == ModalOpened(old(state), kind, data) && stored == old(stored)
    {
      state := ModalOpened(state, kind, data);
    }

    method CloseModal()
      modifies this
      ensures state == ModalClosed(old(state)) && stored == old(stored)
    {
      state := ModalClosed(state);
    }

    /** `reset`: the storage key removed and the initial state restored. */
    method Reset()
      modifies this
      ensures state == InitialState && stored.None?
    {
      stored := None;
      state := InitialState;
    }
  }
}
