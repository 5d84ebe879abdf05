/** The theme preference binder: the active theme, the user's chosen theme,
    and the `theme_<user id>` keys they are persisted under. */
module ThemeContext {
  import opened AuthTypes
  import opened ThemeTypes
  import opened Storage

  /** The key a user's theme is stored under. */
  function ThemeKey(userId: string): (key: string)
    ensures |key| == 6 + |userId|
    ensures key[..6] == "theme_" && key[6..] == userId
  {
    "theme_" + userId
  }

  /** Different users have different theme keys. */
  lemma ThemeKeyInjective(a: string, b: string)
    requires ThemeKey(a) == ThemeKey(b)
    ensures a == b
  {
    assert a == ThemeKey(a)[6..];
    assert b == ThemeKey(b)[6..];
  }

  /** The `data-theme` attribute of the document element: removed for the
      default theme, the theme's id otherwise. */
  function DataTheme(t: Theme): (r: Option<string>)
    ensures r.None? <==> t == DefaultTheme
    ensures r.Some? ==> r.value == t.Id()
  {
    if t == CamposJordao then None else Some(t.Id())
  }

  /** The attribute tells the active theme apart from every other one. */
  lemma DataThemeDeterminesTheme(t1: Theme, t2: Theme)
    requires DataTheme(t1) == DataTheme(t2)
    ensures t1 == t2
  {
    if DataTheme(t1).Some? {
      IdInjective(t1, t2);
    }
  }

  /** The theme keys after `setUserTheme(t)` with `session` under
      `condominium_current_user`: only the session user's key is written, and
      only when there is a session. */
  function SaveUserTheme(themes: map<string, Theme>, session: Slot<User>, t: Theme): (r: map<string, Theme>)
    ensures session.Stored? ==> ThemeKey(session.value.id) in r && r[ThemeKey(session.value.id)] == t
    ensures !session.Stored? ==> r == themes
    ensures r.Keys <= themes.Keys + {ThemeKey(if session.Stored? then session.value.id else "")}
  {
    if session.Stored? then themes[ThemeKey(session.value.id) := t] else themes
  }

  /** Every other user's theme key keeps its value, or its absence. */
  lemma SaveUserThemeKeepsOthers(themes: map<string, Theme>, session: Slot<User>, t: Theme, other: string)
    requires session.Stored? ==> other != session.value.id
    ensures var r := SaveUserTheme(themes, session, t);
      && (ThemeKey(other) in r <==> ThemeKey(other) in themes)
      && (ThemeKey(other) in themes ==> r[ThemeKey(other)] == themes[ThemeKey(other)])
  {
    if session.Stored? && ThemeKey(other) == ThemeKey(session.value.id) {
      ThemeKeyInjective(other, session.value.id);
    }
  }

  /** `ThemeProvider`: the `theme` and `userTheme` React states over the store. */
  class ThemeProvider {
    var theme: Theme
    var userTheme: Option<Theme>
    const store: Store

    /** The initial state: the default theme and no user theme. */
    constructor (store: Store)
      ensures this.store == store
      ensures theme == DefaultTheme && userTheme == None
    {
      this.store := store;
      theme := CamposJordao;
      userTheme := None;
    }

    /** The mount effect: with a session whose user has a stored theme, that
        theme becomes both `theme` and `userTheme`; otherwise nothing changes. */
    method LoadUserTheme()
      modifies this`theme, this`userTheme
      ensures var session := store.currentUser;
        if session.Stored? && ThemeKey(session.value.id) in store.themes
        then theme == store.themes[ThemeKey(session.value.id)] && userTheme == Some(theme)
        else theme == old(theme) && userTheme == old(userTheme)
    {
      if store.currentUser.Stored? {
        var key := ThemeKey(store.currentUser.value.id);
        if key in store.themes {
          var saved := store.themes[key];
          userTheme := Some(saved);
          theme := saved;
        }
      }
    }

    /** `setUserTheme`: sets both states and persists the choice for the
        session user. */
    method SetUserTheme(t: Theme)
      modifies this`theme, this`userTheme, store`themes
      ensures theme == t && userTheme == Some(t)
      ensures store.themes == SaveUserTheme(old(store.themes), store.currentUser, t)
    {
      userTheme := Some(t);
      theme := t;
      if store.currentUser.Stored? {
        store.themes := store.themes[ThemeKey(store.currentUser.value.id) := t];
      }
    }

    /** `handleSetTheme`, exposed as `setTheme`: changes the active theme only. */
    method SetTheme(t: Theme)
      modifies this`theme
      ensures theme == t
    {
      theme := t;
    }
  }
}
