/**
 A window's cached theme. Windows hear of changes through the store's broadcast
 and handle one event at a time, while the store may already have moved on.
 */
module Windows {
  import opened Prelude
  import opened Themes

  /** The colours a window renders. */
  datatype Palette = Palette(
    background: Color, text: Color, primary: Color, success: Color, warning: Color, danger: Color)

  /** The rendered theme; `Fallback` is the built-in dark one. */
  datatype WindowIcedTheme = Fallback | Custom(themeId: string, name: string, palette: Palette)

  function FromTheme(theme: Theme): WindowIcedTheme {
    var ui, terminal := theme.ui, theme.terminal;
    var palette := Palette(ui.background, ui.foreground, ui.accent, terminal.green, terminal.yellow, terminal.red);
    Custom(theme.id, theme.displayName, palette)
  }

  function IcedThemeFromStore(store: Store): WindowIcedTheme {
    if store.active.None? || Get(store, store.active.value).None? then Fallback
    else FromTheme(Get(store, store.active.value).value)
  }

  /** The look of the store, colour by colour: that of the custom theme with the active
      id, else of the bundled one, else the fallback. */
  lemma LookIs(store: Store)
    ensures var look := IcedThemeFromStore(store);
            if store.active.Some? && (store.active.value in store.custom || store.active.value in store.bundled) then
              var id := store.active.value;
              var theme := if id in store.custom then store.custom[id] else store.bundled[id];
              && look.Custom? && look.themeId == theme.id && look.name == theme.displayName
              && look.palette.background == theme.ui.background && look.palette.text == theme.ui.foreground
              && look.palette.primary == theme.ui.accent && look.palette.success == theme.terminal.green
              && look.palette.warning == theme.terminal.yellow && look.palette.danger == theme.terminal.red
            else look == Fallback
  {}

  /** Two themes look the same exactly when they agree on what is rendered. */
  lemma {:induction false} SameLookExactlyWhen(a: Theme, b: Theme)
    ensures FromTheme(a) == FromTheme(b) <==>
            a.id == b.id && a.displayName == b.displayName && a.ui == b.ui && a.terminal == b.terminal
  {}

  class WindowThemeState {
    var current: WindowIcedTheme

    constructor FromStore(store: Store)
      ensures current == IcedThemeFromStore(store)
    {
      current := IcedThemeFromStore(store);
    }

    /** Reports whether the window has to redraw. */
    method ApplyThemeChange(store: Store, change: ThemeChange) returns (changed: bool)
      modifies this
      ensures current == Refreshed(old(current), store, change)
      ensures changed <==> current != old(current)
    {
      if change.ActiveThemeChanged? {
        var next := IcedThemeFromStore(store);
        if next != current {
          current := next;
          return true;
        }
      }
      return false;
    }
  }

  function Refreshed(current: WindowIcedTheme, store: Store, change: ThemeChange): WindowIcedTheme {
    if change.ActiveThemeChanged? then IcedThemeFromStore(store) else current
  }

  // ------------------------------------------------------------------
  // Runs: reloads and active-theme changes, and the window handling events.
  // ------------------------------------------------------------------

  datatype Action = Reload(found: map<string, Theme>) | SetActive(id: Option<string>) | Handle

  /** `queue` holds the events sent and not yet handled. */
  datatype System = System(store: Store, queue: seq<ThemeChange>, window: WindowIcedTheme)

  ghost function Step(s: System, a: Action): System {
    match a
    case Reload(found) =>
      s.(store := AfterReload(s.store, found),
         queue := s.queue + ReloadEvents(s.store.custom, found, s.store.active))
    case SetActive(id) => s.(store := s.store.(active := id), queue := s.queue + [ActiveThemeChanged(id)])
    case Handle =>
      if s.queue == [] then s
      else s.(queue := s.queue[1..], window := Refreshed(s.window, s.store, s.queue[0]))
  }

  ghost function Exec(s: System, actions: seq<Action>): System {
    if actions == [] then s else Step(Exec(s, actions[..|actions| - 1]), actions[|actions| - 1])
  }

  /** An event that will make the window look at the store again is on its way. */
  ghost predicate Pending(s: System) {
    exists i :: 0 <= i < |s.queue| && s.queue[i].ActiveThemeChanged?
  }

  /** A reload that adds a custom theme under the active id and so changes what the
      active theme looks like: the one change no active-theme event announces. */
  predicate Missed(store: Store, found: map<string, Theme>) {
    && store.active.Some? && store.active.value !in store.custom && store.active.value in found
    && IcedThemeFromStore(store.(custom := found)) != IcedThemeFromStore(store)
  }

  /** A reload changes the active look without announcing it exactly when it is missed. */
  lemma {:induction false} SilentChangeExactlyWhenMissed(store: Store, found: map<string, Theme>)
    ensures var after := AfterReload(store, found);
            var announced := exists e <- ReloadEvents(store.custom, found, store.active) :: e.ActiveThemeChanged?;
            !announced && IcedThemeFromStore(after) != IcedThemeFromStore(store) <==> Missed(store, found)
  {
    var after := AfterReload(store, found);
    var events := ReloadEvents(store.custom, found, store.active);
    ReloadSays(store, found, ActiveThemeChanged(after.active));
    if store.active.Some? {
      forall e <- events | e.ActiveThemeChanged? ensures store.active.value in store.custom {
        ReloadSays(store, found, e);
      }
    } else {
      forall e <- events ensures !e.ActiveThemeChanged? {
        ReloadSays(store, found, e);
      }
    }
  }

  /** Whether the last missed reload is still waiting for some active-theme event,
      sent before or after it, to be handled. */
  ghost predicate Owes(s: System, actions: seq<Action>) {
    actions != [] &&
    var before := Exec(s, actions[..|actions| - 1]);
    match actions[|actions| - 1]
    case Reload(found) => Owes(s, actions[..|actions| - 1]) || Missed(before.store, found)
    case SetActive(_) => Owes(s, actions[..|actions| - 1])
    case Handle =>
      Owes(s, actions[..|actions| - 1]) && !(before.queue != [] && before.queue[0].ActiveThemeChanged?)
  }

  /** With no refresh on its way, the cache is current unless a missed reload is
      owed; an owed one's active theme is a custom theme, so no second can follow. */
  ghost predicate Settled(s: System, owes: bool) {
    !Pending(s) ==>
      && (s.window == IcedThemeFromStore(s.store) <==> !owes)
      && (owes ==> s.store.active.Some? && s.store.active.value in s.store.custom)
  }

  lemma {:induction false} PendingAfterSending(s: System, events: seq<ThemeChange>)
    ensures Pending(s.(queue := s.queue + events)) <==> Pending(s) || exists e <- events :: e.ActiveThemeChanged?
  {
    var after := s.(queue := s.queue + events);
    if Pending(s) {
      var i :| 0 <= i < |s.queue| && s.queue[i].ActiveThemeChanged?;
      assert after.queue[i].ActiveThemeChanged?;
    }
    forall j | 0 <= j < |events| ensures after.queue[|s.queue| + j] == events[j] {}
    if e :| e in events && e.ActiveThemeChanged? {
      var j :| 0 <= j < |events| && events[j] == e;
      assert after.queue[|s.queue| + j].ActiveThemeChanged?;
    }
  }

  lemma {:induction false} ReloadKeepsSettled(s: System, found: map<string, Theme>, owes: bool)
    requires Settled(s, owes)
    ensures Settled(Step(s, Reload(found)), owes || Missed(s.store, found))
  {
    var events := ReloadEvents(s.store.custom, found, s.store.active);
    var next := Step(s, Reload(found));
    PendingAfterSending(s, events);
    PendingAfterSending(s.(store := next.store), events);
    SilentChangeExactlyWhenMissed(s.store, found);
    ReloadSays(s.store, found, ActiveThemeChanged(next.store.active));
  }

  lemma {:induction false} HandleKeepsSettled(s: System, owes: bool)
    requires Settled(s, owes)
    ensures Settled(Step(s, Handle), owes && !(s.queue != [] && s.queue[0].ActiveThemeChanged?))
  {
    var next := Step(s, Handle);
    if s.queue != [] && !s.queue[0].ActiveThemeChanged? && Pending(s) {
      var i :| 0 <= i < |s.queue| && s.queue[i].ActiveThemeChanged?;
      assert next.queue[i - 1].ActiveThemeChanged?;
    }
  }

  lemma {:induction false} RunKeepsSettled(s: System, actions: seq<Action>)
    requires s.window == IcedThemeFromStore(s.store)
    ensures Settled(Exec(s, actions), Owes(s, actions))
    decreases |actions|
  {
    if actions != [] {
      var init, last := actions[..|actions| - 1], actions[|actions| - 1];
      var before := Exec(s, init);
      RunKeepsSettled(s, init);
      match last
      case Reload(found) => ReloadKeepsSettled(before, found, Owes(s, init));
      case SetActive(id) => PendingAfterSending(before.(store := before.store.(active := id)), [ActiveThemeChanged(id)]);
                            assert ActiveThemeChanged(id) in [ActiveThemeChanged(id)];
      case Handle => HandleKeepsSettled(before, Owes(s, init));
    }
  }

  /** Once a window has handled every event of any run, its cache equals the store's
      look exactly when no missed reload is still owed a refresh. */
  lemma {:induction false} CatchesUpExactlyWhen(s: System, actions: seq<Action>)
    requires s.window == IcedThemeFromStore(s.store) && Exec(s, actions).queue == []
    ensures var last := Exec(s, actions);
            last.window == IcedThemeFromStore(last.store) <==> !Owes(s, actions)
  {
    RunKeepsSettled(s, actions);
  }

  /** No reload of the run puts a custom theme under the id active at that moment. */
  ghost predicate NeverCreatesActive(s: System, actions: seq<Action>) {
    forall i :: 0 <= i < |actions| && actions[i].Reload? ==>
      var store := Exec(s, actions[..i]).store;
      !(store.active.Some? && store.active.value !in store.custom && store.active.value in actions[i].found)
  }

  /** The run-level guarantee a caller can check beforehand. */
  lemma {:induction false} CatchesUp(s: System, actions: seq<Action>)
    requires s.window == IcedThemeFromStore(s.store) && Exec(s, actions).queue == []
    requires NeverCreatesActive(s, actions)
    ensures Exec(s, actions).window == IcedThemeFromStore(Exec(s, actions).store)
  {
    NothingOwed(s, actions);
    CatchesUpExactlyWhen(s, actions);
  }

  lemma {:induction false} NothingOwed(s: System, actions: seq<Action>)
    requires NeverCreatesActive(s, actions)
    ensures !Owes(s, actions)
    decreases |actions|
  {
    if actions != [] {
      var init := actions[..|actions| - 1];
      forall i | 0 <= i < |init| && init[i].Reload? ensures init[..i] == actions[..i] && init[i] == actions[i] {}
      NothingOwed(s, init);
    }
  }

  /** The branch that creates a custom theme sends no active-theme event: a window
      whose active theme appears in the directory keeps the fallback. */
  lemma CreatedActiveThemeIsMissed(theme: Theme)
    ensures var s := System(Store(map[], map[], Some(theme.id)), [], Fallback);
            var after := Exec(s, [Reload(map[theme.id := theme]), Handle]);
            after.queue == [] && after.window == Fallback && IcedThemeFromStore(after.store) == FromTheme(theme)
  {
    var s := System(Store(map[], map[], Some(theme.id)), [], Fallback);
    var found := map[theme.id := theme];
    var run := [Reload(found), Handle];
    var first := Step(s, Reload(found));
    assert run[..1][..0] == [] && run[..1][0] == Reload(found);
    assert Exec(s, run[..1]) == first;
    FirstTheme(theme, Some(theme.id));
    ReloadSays(s.store, found, Created(theme.id));
    assert [] + [Created(theme.id)] == [Created(theme.id)];
    assert first.queue == [Created(theme.id)];
  }
}
