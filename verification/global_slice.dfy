/** The global UI settings of src/store/redux/slices/globalSlice.ts: theme, language, sidebar, loading. */
module GlobalSlice {

  datatype Theme = Light | Dark
  datatype Language = ZhCN | EnUS

  /** The theme `toggleTheme` switches to. */
  function Toggled(t: Theme): (r: Theme)
    ensures r != t
  {
    if t == Light then Dark else Light
  }

  /** Toggling the theme twice restores it. */
  lemma ToggledTwice(t: Theme)
    ensures Toggled(Toggled(t)) == t
  {
  }

  /** `GlobalState`; each reducer changes only the field it names. */
  class GlobalState {
    var theme: Theme
    var language: Language
    var collapsed: bool
    var loading: bool

    /** `initialState`. */
    constructor ()
      ensures theme == Light && language == ZhCN && !collapsed && !loading
    {
      theme := Light;
      language := ZhCN;
      collapsed := false;
      loading := false;
    }

    method SetTheme(payload: Theme)
      modifies this`theme
      ensures theme == payload
    {
      theme := payload;
    }

    method SetLanguage(payload: Language)
      modifies this`language
      ensures language == payload
    {
      language := payload;
    }

    method SetCollapsed(payload: bool)
      modifies this`collapsed
      ensures collapsed == payload
    {
      collapsed := payload;
    }

    method SetLoading(payload: bool)
      modifies this`loading
      ensures loading == payload
    {
      loading := payload;
    }

    method ToggleTheme()
      modifies this`theme
      ensures theme == Toggled(old(theme))
    {
      theme := if theme == Light then Dark else Light;
    }

    method ToggleCollapsed()
      modifies this`collapsed
      ensures collapsed == !old(collapsed)
    {
      collapsed := !collapsed;
    }
  }

  /** Two theme toggles in a row leave every setting as it was. */
  method ToggleThemeTwice(s: GlobalState)
    modifies s`theme
    ensures s.theme == old(s.theme)
  {
    s.ToggleTheme();
    s.ToggleTheme();
    ToggledTwice(old(s.theme));
  }

  /** Two sidebar toggles in a row leave every setting as it was. */
  method ToggleCollapsedTwice(s: GlobalState)
    modifies s`collapsed
    ensures s.collapsed == old(s.collapsed)
  {
    s.ToggleCollapsed();
    s.ToggleCollapsed();
  }
}
