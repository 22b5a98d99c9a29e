/** The theme selector: the name of the current theme (initially "dark"),
    the list of subscribed listeners, and the preference store the choice
    is persisted under the key "appTheme". Listeners are identified by a
    number, standing for the identity of the callback. */
module Theme {
  import opened Common

  /** The colour table the screens style themselves from. */
  datatype Palette = Palette(
    bgPrimary: string, bgSecondary: string, bgCard: string, bgElevated: string,
    textPrimary: string, textSecondary: string, textGreeting: string, textMuted: string,
    border: string, cardBg: string, cardText: string, navBg: string, navBorder: string,
    activeTabIndicator: string, red: string, green: string, ringTrack: string, ringFill: string)

  const LightTheme: Palette := Palette(
    "#F5F7FA", "#ECEEF2", "#FFFFFF", "#F0F2F5",
    "#1A202C", "#718096", "#A0AEC0", "#A0AEC0",
    "rgba(0,0,0,0.07)", "#1A202C", "#FFFFFF", "#FFFFFF", "rgba(0,0,0,0.07)",
    "#1A202C", "#E53E3E", "#38A169", "rgba(0,0,0,0.07)", "#1A202C")

  const DarkTheme: Palette := Palette(
    "#1C2128", "#252D38", "#2D3748", "#323D4E",
    "#F0F4F8", "#8B9BAE", "#566475", "#566475",
    "rgba(255,255,255,0.07)", "#252D38", "#F0F4F8", "#181F29", "rgba(255,255,255,0.07)",
    "#FFFFFF", "#FF6B6B", "#4ECDC4", "rgba(255,255,255,0.08)", "#FFFFFF")

  const ThemeKey: string := "appTheme"

  type Listener = nat

  /** The key-value preference store; reads or writes may fail. */
  datatype Prefs = Prefs(items: map<string, string>, readable: bool, writable: bool)

  datatype ThemeState = ThemeState(current: string, listeners: seq<Listener>)

  const Initial: ThemeState := ThemeState("dark", [])

  /** A listener call: who was called, with which theme name. */
  datatype Notice = Notice(listener: Listener, theme: string)

  /** `getTheme`: the dark table for exactly "dark", the light one otherwise. */
  function GetTheme(s: ThemeState): (p: Palette)
    ensures p == DarkTheme <==> s.current == "dark"
    ensures p == LightTheme <==> s.current != "dark"
  {
    if s.current == "dark" then DarkTheme else LightTheme
  }

  /** What one `setTheme` call did. */
  datatype SetResult = SetResult(state: ThemeState, prefs: Prefs, notices: seq<Notice>, ok: bool)

  /** `setTheme(t)`: the current theme becomes `t` first; then the write to
      the store, and only when it succeeds are the listeners called, each
      once, in subscription order. A failed write rejects the call. */
  function SetTheme(s: ThemeState, prefs: Prefs, t: string): (r: SetResult)
    ensures r.state == s.(current := t)
    ensures r.ok == prefs.writable
    ensures r.ok ==> r.prefs == prefs.(items := prefs.items[ThemeKey := t])
    ensures !r.ok ==> r.prefs == prefs && r.notices == []
    ensures r.ok ==> |r.notices| == |s.listeners|
                     && forall i :: 0 <= i < |s.listeners| ==> r.notices[i] == Notice(s.listeners[i], t)
  {
    if !prefs.writable then SetResult(s.(current := t), prefs, [], false)
    else SetResult(s.(current := t), prefs.(items := prefs.items[ThemeKey := t]), Notify(s.listeners, t), true)
  }

  function Notify(ls: seq<Listener>, t: string): (ns: seq<Notice>)
    ensures |ns| == |ls|
    ensures forall i :: 0 <= i < |ls| ==> ns[i] == Notice(ls[i], t)
  {
    seq(|ls|, i requires 0 <= i < |ls| => Notice(ls[i], t))
  }

  /** `getCurrentTheme`. */
  function GetCurrentTheme(s: ThemeState): string {
    s.current
  }

  /** `loadTheme`: a stored non-empty name is adopted as it is, unchecked;
      an absent or empty entry, or a failing read, keeps the current one.
      The result is the theme afterwards. */
  function LoadTheme(s: ThemeState, prefs: Prefs): (r: (ThemeState, string))
    ensures r.1 == GetCurrentTheme(r.0) && r.0.listeners == s.listeners
    ensures prefs.readable && ThemeKey in prefs.items && prefs.items[ThemeKey] != "" ==>
              r.1 == prefs.items[ThemeKey]
    ensures !(prefs.readable && ThemeKey in prefs.items && prefs.items[ThemeKey] != "") ==>
              r.0 == s
  {
    if prefs.readable && ThemeKey in prefs.items && prefs.items[ThemeKey] != "" then
      (s.(current := prefs.items[ThemeKey]), prefs.items[ThemeKey])
    else (s, s.current)
  }

  function IsNot(l: Listener): Listener -> bool {
    x => x != l
  }

  /** `subscribeToTheme(l)`: `l` joins at the end. */
  function Subscribe(s: ThemeState, l: Listener): (r: ThemeState)
    ensures r.current == s.current
    ensures |r.listeners| == |s.listeners| + 1 && r.listeners[|s.listeners|] == l
    ensures r.listeners[..|s.listeners|] == s.listeners
  {
    s.(listeners := s.listeners + [l])
  }

  /** The function `subscribeToTheme` returns: every entry that is `l` goes,
      the others stay in order. */
  function Unsubscribe(s: ThemeState, l: Listener): (r: ThemeState)
    ensures r.current == s.current
  {
    s.(listeners := Filter(s.listeners, IsNot(l)))
  }

  /** After unsubscribing, `l` is gone and every other entry remains, as
      often as before and in its order. */
  lemma UnsubscribeRemovesAll(s: ThemeState, l: Listener)
    ensures var r := Unsubscribe(s, l);
            && l !in r.listeners
            && (forall x :: x in r.listeners <==> x in s.listeners && x != l)
            && IsSubseq(r.listeners, s.listeners)
            && (forall x :: x != l ==> multiset(r.listeners)[x] == multiset(s.listeners)[x])
  {
    FilterMembers(s.listeners, IsNot(l));
    FilterSubseq(s.listeners, IsNot(l));
    FilterCount(s.listeners, IsNot(l));
  }

  /** Subscribing and then calling the returned function restores the list
      when `l` was not subscribed before; if it was, every copy is gone. */
  lemma {:induction false} SubscribeThenUnsubscribe(s: ThemeState, l: Listener)
    ensures l !in s.listeners ==> Unsubscribe(Subscribe(s, l), l) == s
    ensures Unsubscribe(Subscribe(s, l), l) == Unsubscribe(s, l)
  {
    FilterSnoc(s.listeners, l, IsNot(l));
    if l !in s.listeners {
      FilterAll(s.listeners, IsNot(l));
    }
  }

  /** A theme that was set with a working store is the one a restarted app
      loads, unless it is the empty name, which a load ignores. */
  lemma SetThenLoadAfterRestart(s: ThemeState, prefs: Prefs, t: string)
    requires prefs.writable
    ensures var saved := SetTheme(s, prefs, t).prefs.(readable := true);
            LoadTheme(Initial, saved).1 == (if t == "" then "dark" else t)
  {
  }

  /** The palette the screens use after a set is the dark one exactly when
      the name set is "dark", whatever else it is. */
  lemma SetThenGetTheme(s: ThemeState, prefs: Prefs, t: string)
    ensures GetTheme(SetTheme(s, prefs, t).state) == (if t == "dark" then DarkTheme else LightTheme)
    ensures DarkTheme != LightTheme
  {
    assert DarkTheme.bgPrimary != LightTheme.bgPrimary;
  }
}
