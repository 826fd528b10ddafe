/**
 The theme store, the reload of its custom directory with the events it sends,
 and the rendered theme a window caches and refreshes from those events.
 */
module Themes {
  import opened Prelude
  import opened SortedStrings

  datatype Color = Color(r: byte, g: byte, b: byte, a: byte)

  datatype UiTokens = UiTokens(background: Color, foreground: Color, accent: Color)
  datatype TerminalPalette = TerminalPalette(green: Color, yellow: Color, red: Color)

  /** `rest` is everything a theme file says that no window renders. */
  datatype Theme = Theme(id: string, displayName: string, ui: UiTokens, terminal: TerminalPalette, rest: string)

  datatype ThemeChange =
    | Created(id: string)
    | Reloaded(id: string)
    | Deleted(id: string)
    | ActiveThemeChanged(active: Option<string>)

  /** A file of the custom directory: not TOML, unreadable or malformed, or a theme. */
  datatype ThemeFile = NotToml | Broken(path: string, message: string) | Parsed(theme: Theme)

  datatype Diagnostic = Diagnostic(path: string, message: string)

  /** The state behind the store's locks. */
  datatype Store = Store(bundled: map<string, Theme>, custom: map<string, Theme>, active: Option<string>)

  /** Both tables are keyed by the id inside the theme. */
  predicate Keyed(themes: map<string, Theme>) {
    forall id <- themes :: themes[id].id == id
  }

  function Get(store: Store, id: string): Option<Theme> {
    if id in store.custom then Some(store.custom[id])
    else if id in store.bundled then Some(store.bundled[id])
    else None
  }

  // ------------------------------------------------------------------
  // The events of one reload.
  // ------------------------------------------------------------------

  function CreatedEvents(ids: seq<string>): seq<ThemeChange> {
    if ids == [] then [] else CreatedEvents(ids[..|ids| - 1]) + [Created(ids[|ids| - 1])]
  }

  function ReloadedEvent(id: string, before: map<string, Theme>, after: map<string, Theme>, active: Option<string>)
    : seq<ThemeChange>
    requires id in before && id in after
  {
    if before[id] == after[id] then []
    else if active == Some(id) then [Reloaded(id), ActiveThemeChanged(Some(id))]
    else [Reloaded(id)]
  }

  function ReloadedEvents(ids: seq<string>, before: map<string, Theme>, after: map<string, Theme>,
                          active: Option<string>): seq<ThemeChange>
    requires forall id <- ids :: id in before && id in after
  {
    if ids == [] then []
    else ReloadedEvents(ids[..|ids| - 1], before, after, active)
         + ReloadedEvent(ids[|ids| - 1], before, after, active)
  }

  /** The deletion events, and the active theme they leave. */
  function DeletedEvents(ids: seq<string>, active: Option<string>): (seq<ThemeChange>, Option<string>) {
    if ids == [] then ([], active)
    else
      var (sent, left) := DeletedEvents(ids[..|ids| - 1], active);
      var id := ids[|ids| - 1];
      if left == Some(id) then (sent + [Deleted(id), ActiveThemeChanged(None)], None)
      else (sent + [Deleted(id)], left)
  }

  /** The events for sorted lists of new, kept and missing ids, in sending order. */
  function EventsFor(created: seq<string>, kept: seq<string>, deleted: seq<string>,
                     before: map<string, Theme>, after: map<string, Theme>, active: Option<string>): seq<ThemeChange>
    requires forall id <- kept :: id in before && id in after
  {
    CreatedEvents(created) + ReloadedEvents(kept, before, after, active) + DeletedEvents(deleted, active).0
  }

  /** What a reload that finds `after` sends. */
  ghost function ReloadEvents(before: map<string, Theme>, after: map<string, Theme>, active: Option<string>)
    : seq<ThemeChange>
  {
    EventsFor(SortedKeys(after.Keys - before.Keys), SortedKeys(before.Keys * after.Keys),
              SortedKeys(before.Keys - after.Keys), before, after, active)
  }

  ghost function AfterReload(store: Store, after: map<string, Theme>): Store {
    store.(custom := after,
           active := DeletedEvents(SortedKeys(store.custom.Keys - after.Keys), store.active).1)
  }

  // ------------------------------------------------------------------
  // The store.
  // ------------------------------------------------------------------

  /** Loading the directory: the last file with an id wins. */
  function LoadCustom(files: seq<ThemeFile>): (map<string, Theme>, seq<Diagnostic>) {
    if files == [] then (map[], [])
    else
      var (themes, diagnostics) := LoadCustom(files[..|files| - 1]);
      match files[|files| - 1]
      case NotToml => (themes, diagnostics)
      case Broken(path, message) => (themes, diagnostics + [Diagnostic(path, message)])
      case Parsed(theme) => (themes[theme.id := theme], diagnostics)
  }

  /** A set's elements in order. */
  method Ordered(keys: set<string>) returns (l: seq<string>)
    ensures l == SortedKeys(keys) && forall k <- l :: k in keys
  {
    l := [];
    var rest := keys;
    ghost var done: set<string> := {};
    while rest != {}
      invariant rest <= keys && done == keys - rest
      invariant Lists(l, done)
      decreases |rest|
    {
      var k :| k in rest;
      InsertLists(k, l, done);
      l := Insert(k, l);
      rest, done := rest - {k}, done + {k};
    }
    assert done == keys;
    ListingIsUnique(l, SortedKeys(keys), keys);
  }

  lemma Regroup(a: seq<ThemeChange>, b: seq<ThemeChange>, c: seq<ThemeChange>, d: seq<ThemeChange>)
    ensures a + b + c + d == a + (b + c + d)
  {}

  class ThemeStore {
    const bundled: map<string, Theme>
    var custom: map<string, Theme>
    var diagnostics: seq<Diagnostic>
    var activeTheme: Option<string>
    /** Everything broadcast so far. */
    var sent: seq<ThemeChange>

    ghost function View(): Store
      reads this
    {
      Store(bundled, custom, activeTheme)
    }

    constructor (bundled: map<string, Theme>, files: seq<ThemeFile>)
      ensures View() == Store(bundled, LoadCustom(files).0, None)
      ensures diagnostics == LoadCustom(files).1 && sent == []
    {
      var loaded := LoadCustom(files);
      this.bundled, custom, diagnostics := bundled, loaded.0, loaded.1;
      activeTheme, sent := None, [];
    }

    method SetActiveTheme(id: Option<string>)
      modifies this`activeTheme, this`sent
      ensures View() == old(View()).(active := id)
      ensures sent == old(sent) + [ActiveThemeChanged(id)]
    {
      activeTheme := id;
      sent := sent + [ActiveThemeChanged(id)];
    }

    method List() returns (themes: seq<Theme>)
      ensures themes == Listing(View())
    {
      var all := bundled + custom;
      var ids := Ordered(all.Keys);
      themes := [];
      for i := 0 to |ids|
        invariant themes == Listing(View())[..i]
      {
        themes := themes + [all[ids[i]]];
      }
    }

    method SendCreated(ids: seq<string>)
      modifies this`sent
      ensures sent == old(sent) + CreatedEvents(ids)
    {
      for i := 0 to |ids|
        invariant sent == old(sent) + CreatedEvents(ids[..i])
      {
        assert ids[..i + 1][..i] == ids[..i];
        sent := sent + [Created(ids[i])];
      }
      assert ids[..|ids|] == ids;
    }

    method SendReloaded(ids: seq<string>, before: map<string, Theme>, after: map<string, Theme>)
      requires forall id <- ids :: id in before && id in after
      modifies this`sent
      ensures sent == old(sent) + ReloadedEvents(ids, before, after, activeTheme)
    {
      for i := 0 to |ids|
        invariant sent == old(sent) + ReloadedEvents(ids[..i], before, after, activeTheme)
      {
        assert ids[..i + 1][..i] == ids[..i];
        if before[ids[i]] != after[ids[i]] {
          sent := sent + [Reloaded(ids[i])];
          if activeTheme == Some(ids[i]) {
            sent := sent + [ActiveThemeChanged(Some(ids[i]))];
          }
        }
      }
      assert ids[..|ids|] == ids;
    }

    method SendDeleted(ids: seq<string>)
      modifies this`sent, this`activeTheme
      ensures sent == old(sent) + DeletedEvents(ids, old(activeTheme)).0
      ensures activeTheme == DeletedEvents(ids, old(activeTheme)).1
    {
      for i := 0 to |ids|
        invariant sent == old(sent) + DeletedEvents(ids[..i], old(activeTheme)).0
        invariant activeTheme == DeletedEvents(ids[..i], old(activeTheme)).1
      {
        assert ids[..i + 1][..i] == ids[..i];
        sent := sent + [Deleted(ids[i])];
        if activeTheme == Some(ids[i]) {
          activeTheme := None;
          sent := sent + [ActiveThemeChanged(None)];
        }
      }
      assert ids[..|ids|] == ids;
    }

    method Announce(created: seq<string>, kept: seq<string>, deleted: seq<string>,
                    before: map<string, Theme>, after: map<string, Theme>)
      requires forall id <- kept :: id in before && id in after
      modifies this`sent, this`activeTheme
      ensures sent == old(sent) + EventsFor(created, kept, deleted, before, after, old(activeTheme))
      ensures activeTheme == DeletedEvents(deleted, old(activeTheme)).1
    {
      SendCreated(created);
      SendReloaded(kept, before, after);
      SendDeleted(deleted);
      Regroup(old(sent), CreatedEvents(created), ReloadedEvents(kept, before, after, old(activeTheme)),
              DeletedEvents(deleted, old(activeTheme)).0);
    }

    method ReloadThemes(files: seq<ThemeFile>)
      modifies this
      ensures View() == AfterReload(old(View()), LoadCustom(files).0)
      ensures diagnostics == LoadCustom(files).1
      ensures sent == old(sent) + ReloadEvents(old(custom), LoadCustom(files).0, old(activeTheme))
    {
      var before, loaded := custom, LoadCustom(files);
      var after := loaded.0;
      custom, diagnostics := after, loaded.1;
      var created := Ordered(after.Keys - before.Keys);
      var kept := Ordered(before.Keys * after.Keys);
      var deleted := Ordered(before.Keys - after.Keys);
      Announce(created, kept, deleted, before, after);
    }
  }

  ghost function Listing(store: Store): (themes: seq<Theme>) {
    var all := store.bundled + store.custom;
    var ids := SortedKeys(all.Keys);
    seq(|ids|, i requires 0 <= i < |ids| => all[ids[i]])
  }

  /** The listing holds exactly the themes a lookup finds, in id order. */
  lemma {:induction false} ListingAgreesWithGet(store: Store)
    requires Keyed(store.bundled) && Keyed(store.custom)
    ensures forall t: Theme :: t in Listing(store) <==> Get(store, t.id) == Some(t)
    ensures forall i, j :: 0 <= i < j < |Listing(store)| ==> Before(Listing(store)[i].id, Listing(store)[j].id)
  {
    var all := store.bundled + store.custom;
    var ids := SortedKeys(all.Keys);
    forall t: Theme | Get(store, t.id) == Some(t) ensures t in Listing(store) {
      assert t.id in ids;
      var i :| 0 <= i < |ids| && ids[i] == t.id;
      assert Listing(store)[i] == t;
    }
    forall i | 0 <= i < |ids| ensures Listing(store)[i].id == ids[i] && Get(store, ids[i]) == Some(Listing(store)[i]) {
      assert ids[i] in ids;
    }
  }

  lemma {:induction false} LoadedIsKeyed(files: seq<ThemeFile>)
    ensures Keyed(LoadCustom(files).0)
    decreases |files|
  {
    if files != [] {
      LoadedIsKeyed(files[..|files| - 1]);
    }
  }

  /** The last file with the id, if any, decides. */
  ghost predicate LastWithId(files: seq<ThemeFile>, id: string, i: nat) {
    && i < |files| && files[i].Parsed? && files[i].theme.id == id
    && forall j :: i < j < |files| && files[j].Parsed? ==> files[j].theme.id != id
  }

  /** The complaints about the broken files, in directory order. */
  function Complaints(files: seq<ThemeFile>): seq<Diagnostic> {
    if files == [] then [] else Complaint(files[0]) + Complaints(files[1..])
  }

  function Complaint(file: ThemeFile): seq<Diagnostic> {
    match file case Broken(path, message) => [Diagnostic(path, message)] case _ => []
  }

  /** Loading finds, under every id, the theme of the last file with that id, and
      complains about every broken file, in order. */
  lemma {:induction false} LoadingExactly(files: seq<ThemeFile>, id: string)
    ensures id in LoadCustom(files).0 <==> exists i: nat :: LastWithId(files, id, i)
    ensures forall i: nat :: LastWithId(files, id, i) && id in LoadCustom(files).0 ==>
              LoadCustom(files).0[id] == files[i].theme
    ensures LoadCustom(files).1 == Complaints(files)
    decreases |files|
  {
    if files != [] {
      var init, last := files[..|files| - 1], files[|files| - 1];
      assert files == init + [last];
      LoadingExactly(init, id);
      ComplaintsConcat(init, last);
      if last.Parsed? && last.theme.id == id {
        assert LastWithId(files, id, |init|);
      } else {
        assert forall i: nat :: LastWithId(init, id, i) <==> LastWithId(files, id, i);
      }
    }
  }

  lemma {:induction false} ComplaintsConcat(init: seq<ThemeFile>, last: ThemeFile)
    ensures Complaints(init + [last]) == Complaints(init) + Complaint(last)
    decreases |init|
  {
    if init == [] {
      assert init + [last] == [last] && [last][1..] == [];
    } else {
      assert (init + [last])[0] == init[0] && (init + [last])[1..] == init[1..] + [last];
      ComplaintsConcat(init[1..], last);
      Associative(Complaint(init[0]), Complaints(init[1..]), Complaint(last));
    }
  }

  /** A custom theme hides a bundled one with its id. */
  lemma CustomHidesBundled(store: Store, id: string)
    ensures id in store.custom ==> Get(store, id) == Some(store.custom[id])
    ensures id !in store.custom && id in store.bundled ==> Get(store, id) == Some(store.bundled[id])
    ensures id !in store.custom && id !in store.bundled ==> Get(store, id) == None
  {}

  // ------------------------------------------------------------------
  // What a reload's events say.
  // ------------------------------------------------------------------

  lemma {:induction false} CreatedSays(ids: seq<string>, e: ThemeChange)
    ensures e in CreatedEvents(ids) <==> e.Created? && e.id in ids
    decreases |ids|
  {
    if ids != [] {
      assert ids == ids[..|ids| - 1] + [ids[|ids| - 1]];
      CreatedSays(ids[..|ids| - 1], e);
    }
  }

  lemma {:induction false} ReloadedSays(
    ids: seq<string>, before: map<string, Theme>, after: map<string, Theme>, active: Option<string>, e: ThemeChange)
    requires forall id <- ids :: id in before && id in after
    ensures e in ReloadedEvents(ids, before, after, active) <==>
            || (e.Reloaded? && e.id in ids && before[e.id] != after[e.id])
            || (e.ActiveThemeChanged? && e.active == active && active.Some? && active.value in ids
                && before[active.value] != after[active.value])
    decreases |ids|
  {
    if ids != [] {
      assert ids == ids[..|ids| - 1] + [ids[|ids| - 1]];
      ReloadedSays(ids[..|ids| - 1], before, after, active, e);
    }
  }

  lemma {:induction false} DeletedSays(ids: seq<string>, active: Option<string>, e: ThemeChange)
    ensures var gone := active.Some? && active.value in ids;
            && (e in DeletedEvents(ids, active).0 <==>
                || (e.Deleted? && e.id in ids)
                || (e == ActiveThemeChanged(None) && gone))
            && DeletedEvents(ids, active).1 == (if gone then None else active)
    decreases |ids|
  {
    if ids != [] {
      assert ids == ids[..|ids| - 1] + [ids[|ids| - 1]];
      DeletedSays(ids[..|ids| - 1], active, e);
    }
  }

  /** A reload announces exactly the ids that appeared, changed and disappeared, and
      the active theme exactly when its custom file changed or disappeared. */
  lemma {:induction false} ReloadSays(store: Store, after: map<string, Theme>, e: ThemeChange)
    ensures var before := store.custom;
            e in ReloadEvents(before, after, store.active) <==>
            match e
            case Created(id) => id in after && id !in before
            case Reloaded(id) => id in before && id in after && before[id] != after[id]
            case Deleted(id) => id in before && id !in after
            case ActiveThemeChanged(active) =>
              && store.active.Some? && store.active.value in before
              && active == AfterReload(store, after).active
              && (store.active.value in after ==> before[store.active.value] != after[store.active.value])
    ensures AfterReload(store, after).active ==
            if store.active.Some? && store.active.value in store.custom && store.active.value !in after
            then None else store.active
  {
    var before := store.custom;
    CreatedSays(SortedKeys(after.Keys - before.Keys), e);
    ReloadedSays(SortedKeys(before.Keys * after.Keys), before, after, store.active, e);
    DeletedSays(SortedKeys(before.Keys - after.Keys), store.active, e);
  }

  /** The events about single themes. */
  function Plain(events: seq<ThemeChange>): seq<ThemeChange> {
    if events == [] then []
    else Plain(events[..|events| - 1]) +
         if events[|events| - 1].ActiveThemeChanged? then [] else [events[|events| - 1]]
  }

  lemma {:induction false} PlainConcat(a: seq<ThemeChange>, b: seq<ThemeChange>)
    ensures Plain(a + b) == Plain(a) + Plain(b)
    decreases |b|
  {
    if b == [] {
      assert a + b == a;
    } else {
      assert (a + b)[..|a + b| - 1] == a + b[..|b| - 1];
      PlainConcat(a, b[..|b| - 1]);
      Associative(Plain(a), Plain(b[..|b| - 1]), if b[|b| - 1].ActiveThemeChanged? then [] else [b[|b| - 1]]);
    }
  }

  /** One event of a kind for each id, in order. */
  function Each(ids: seq<string>, kind: string -> ThemeChange): seq<ThemeChange> {
    if ids == [] then [] else Each(ids[..|ids| - 1], kind) + [kind(ids[|ids| - 1])]
  }

  /** The ids whose theme differs. */
  function Differing(ids: seq<string>, before: map<string, Theme>, after: map<string, Theme>): seq<string>
    requires forall id <- ids :: id in before && id in after
  {
    if ids == [] then []
    else Differing(ids[..|ids| - 1], before, after) +
         if before[ids[|ids| - 1]] == after[ids[|ids| - 1]] then [] else [ids[|ids| - 1]]
  }

  lemma PlainLast(a: seq<ThemeChange>, e: ThemeChange)
    ensures Plain(a + [e]) == Plain(a) + if e.ActiveThemeChanged? then [] else [e]
  {
    assert (a + [e])[..|a|] == a;
  }

  lemma PlainTwo(a: seq<ThemeChange>, e: ThemeChange, active: Option<string>)
    requires !e.ActiveThemeChanged?
    ensures Plain(a + [e, ActiveThemeChanged(active)]) == Plain(a) + [e]
  {
    assert a + [e, ActiveThemeChanged(active)] == a + [e] + [ActiveThemeChanged(active)];
    PlainLast(a, e);
    PlainLast(a + [e], ActiveThemeChanged(active));
    assert Plain(a + [e]) + [] == Plain(a + [e]);
  }

  lemma {:induction false} PlainCreated(ids: seq<string>)
    ensures Plain(CreatedEvents(ids)) == Each(ids, id => Created(id))
    decreases |ids|
  {
    if ids != [] {
      PlainCreated(ids[..|ids| - 1]);
      PlainLast(CreatedEvents(ids[..|ids| - 1]), Created(ids[|ids| - 1]));
    }
  }
  lemma {:induction false} PlainReloaded(
    ids: seq<string>, before: map<string, Theme>, after: map<string, Theme>, active: Option<string>)
    requires forall id <- ids :: id in before && id in after
    ensures Plain(ReloadedEvents(ids, before, after, active)) == Each(Differing(ids, before, after), id => Reloaded(id))
    decreases |ids|
  {
    if ids != [] {
      var init, id := ids[..|ids| - 1], ids[|ids| - 1];
      var sent, named := ReloadedEvents(init, before, after, active), Differing(init, before, after);
      PlainReloaded(init, before, after, active);
      if before[id] == after[id] {
        assert sent + [] == sent && named + [] == named;
      } else {
        PlainLast(sent, Reloaded(id));
        PlainTwo(sent, Reloaded(id), Some(id));
        assert (named + [id])[..|named|] == named;
      }
    }
  }

  lemma {:induction false} PlainDeleted(ids: seq<string>, active: Option<string>)
    ensures Plain(DeletedEvents(ids, active).0) == Each(ids, id => Deleted(id))
    decreases |ids|
  {
    if ids != [] {
      var (sent, left) := DeletedEvents(ids[..|ids| - 1], active);
      PlainDeleted(ids[..|ids| - 1], active);
      PlainLast(sent, Deleted(ids[|ids| - 1]));
      PlainTwo(sent, Deleted(ids[|ids| - 1]), None);
    }
  }

  lemma {:induction false} DifferingLists(
    ids: seq<string>, before: map<string, Theme>, after: map<string, Theme>)
    requires StrictlySorted(ids) && forall id <- ids :: id in before && id in after
    ensures Lists(Differing(ids, before, after), set id | id in ids && before[id] != after[id])
    decreases |ids|
  {
    if ids != [] {
      var init, last := ids[..|ids| - 1], ids[|ids| - 1];
      var kept, named := Differing(init, before, after), set id | id in init && before[id] != after[id];
      DifferingLists(init, before, after);
      assert ids == init + [last];
      if before[last] == after[last] {
        assert kept + [] == kept && (set id | id in ids && before[id] != after[id]) == named;
      } else {
        forall k <- kept ensures Before(k, last) {
          BeforeTheLast(ids, k);
        }
        AppendLists(kept, last, named);
        assert (set id | id in ids && before[id] != after[id]) == named + {last};
      }
    }
  }

  /** An announcement of the active theme directly follows the event that caused it. */
  ghost predicate Caused(events: seq<ThemeChange>, active: Option<string>) {
    forall i :: 0 <= i < |events| && events[i].ActiveThemeChanged? ==> FollowsItsCause(events, i, active)
  }

  ghost predicate FollowsItsCause(events: seq<ThemeChange>, i: nat, active: Option<string>)
    requires i < |events|
  {
    && i > 0 && active.Some?
    && ( || (events[i - 1] == Reloaded(active.value) && events[i] == ActiveThemeChanged(active))
         || (events[i - 1] == Deleted(active.value) && events[i] == ActiveThemeChanged(None)))
  }

  lemma {:induction false} CausedConcat(a: seq<ThemeChange>, b: seq<ThemeChange>, active: Option<string>)
    requires Caused(a, active) && Caused(b, active)
    ensures Caused(a + b, active)
  {
    var events := a + b;
    forall i | 0 <= i < |events| && events[i].ActiveThemeChanged? ensures FollowsItsCause(events, i, active) {
      if i < |a| {
        assert a[i] == events[i] && FollowsItsCause(a, i, active);
      } else {
        assert b[i - |a|] == events[i] && FollowsItsCause(b, i - |a|, active);
      }
    }
  }

  lemma CausedOne(e: ThemeChange, active: Option<string>)
    requires !e.ActiveThemeChanged?
    ensures Caused([e], active)
    ensures e == Reloaded(if active.Some? then active.value else "") && active.Some? ==>
              Caused([e, ActiveThemeChanged(active)], active)
    ensures e == Deleted(if active.Some? then active.value else "") && active.Some? ==>
              Caused([e, ActiveThemeChanged(None)], active)
  {}

  lemma {:induction false} CausedByCreation(ids: seq<string>, active: Option<string>)
    ensures Caused(CreatedEvents(ids), active)
    decreases |ids|
  {
    if ids != [] {
      CausedByCreation(ids[..|ids| - 1], active);
      CausedOne(Created(ids[|ids| - 1]), active);
      CausedConcat(CreatedEvents(ids[..|ids| - 1]), [Created(ids[|ids| - 1])], active);
    }
  }

  lemma {:induction false} CausedByReload(
    ids: seq<string>, before: map<string, Theme>, after: map<string, Theme>, active: Option<string>)
    requires forall id <- ids :: id in before && id in after
    ensures Caused(ReloadedEvents(ids, before, after, active), active)
    decreases |ids|
  {
    if ids != [] {
      var init, id := ids[..|ids| - 1], ids[|ids| - 1];
      CausedByReload(init, before, after, active);
      CausedOne(Reloaded(id), active);
      CausedConcat(ReloadedEvents(init, before, after, active), ReloadedEvent(id, before, after, active), active);
    }
  }

  lemma {:induction false} CausedByDeletion(ids: seq<string>, active: Option<string>)
    ensures Caused(DeletedEvents(ids, active).0, active)
    decreases |ids|
  {
    if ids != [] {
      var (sent, left) := DeletedEvents(ids[..|ids| - 1], active);
      var id := ids[|ids| - 1];
      CausedByDeletion(ids[..|ids| - 1], active);
      DeletedSays(ids[..|ids| - 1], active, Deleted(id));
      CausedOne(Deleted(id), active);
      CausedConcat(sent, if left == Some(id) then [Deleted(id), ActiveThemeChanged(None)] else [Deleted(id)], active);
    }
  }

  /** The order of a reload's events and how often each comes: one Created for every new
      id, one Reloaded for every changed one, one Deleted for every missing one, each
      group in id order, and the active theme announced right behind what changed it. */
  lemma {:induction false} ReloadInOrder(store: Store, after: map<string, Theme>)
    ensures var before := store.custom;
            var changed := set id | id in before && id in after && before[id] != after[id];
            var events := ReloadEvents(before, after, store.active);
            && Plain(events) == Each(SortedKeys(after.Keys - before.Keys), id => Created(id))
                                + Each(SortedKeys(changed), id => Reloaded(id))
                                + Each(SortedKeys(before.Keys - after.Keys), id => Deleted(id))
            && Caused(events, store.active)
  {
    var before, active := store.custom, store.active;
    var created, deleted := SortedKeys(after.Keys - before.Keys), SortedKeys(before.Keys - after.Keys);
    var kept := SortedKeys(before.Keys * after.Keys);
    var c, r, d := CreatedEvents(created), ReloadedEvents(kept, before, after, active), DeletedEvents(deleted, active).0;
    PlainConcat(c + r, d);
    PlainConcat(c, r);
    PlainCreated(created);
    PlainReloaded(kept, before, after, active);
    PlainDeleted(deleted, active);
    ChangedAreListed(before, after);
    CausedByCreation(created, active);
    CausedByReload(kept, before, after, active);
    CausedByDeletion(deleted, active);
    CausedConcat(c, r, active);
    CausedConcat(c + r, d, active);
  }

  lemma ChangedAreListed(before: map<string, Theme>, after: map<string, Theme>)
    ensures Differing(SortedKeys(before.Keys * after.Keys), before, after)
         == SortedKeys(set id | id in before && id in after && before[id] != after[id])
  {
    var kept := SortedKeys(before.Keys * after.Keys);
    var changed := set id | id in before && id in after && before[id] != after[id];
    DifferingLists(kept, before, after);
    assert (set id | id in kept && before[id] != after[id]) == changed;
    ListingIsUnique(Differing(kept, before, after), SortedKeys(changed), changed);
  }

  /** A subscriber's copy of the custom ids. */
  function Replay(ids: set<string>, events: seq<ThemeChange>): set<string> {
    if events == [] then ids
    else
      var before := Replay(ids, events[..|events| - 1]);
      match events[|events| - 1]
      case Created(id) => before + {id}
      case Deleted(id) => before - {id}
      case Reloaded(_) => before
      case ActiveThemeChanged(_) => before
  }

  lemma {:induction false} ReplayConcat(ids: set<string>, a: seq<ThemeChange>, b: seq<ThemeChange>)
    ensures Replay(ids, a + b) == Replay(Replay(ids, a), b)
    decreases |b|
  {
    if b == [] {
      assert a + b == a;
    } else {
      assert (a + b)[..|a + b| - 1] == a + b[..|b| - 1];
      ReplayConcat(ids, a, b[..|b| - 1]);
    }
  }

  lemma {:induction false} ReplayCreated(ids: set<string>, l: seq<string>)
    ensures Replay(ids, CreatedEvents(l)) == ids + (set id <- l)
    decreases |l|
  {
    if l != [] {
      ReplayCreated(ids, l[..|l| - 1]);
      assert l == l[..|l| - 1] + [l[|l| - 1]];
    }
  }

  lemma ReplayReloadedOne(
    ids: set<string>, id: string, before: map<string, Theme>, after: map<string, Theme>, active: Option<string>)
    requires id in before && id in after
    ensures Replay(ids, ReloadedEvent(id, before, after, active)) == ids
  {
    var events := ReloadedEvent(id, before, after, active);
    var one: seq<ThemeChange> := [Reloaded(id)];
    assert one[..0] == [] && Replay(ids, one) == ids;
    if events != [] && events != one {
      assert events[..1] == one;
      assert Replay(ids, events) == Replay(ids, one);
    }
  }

  lemma {:induction false} ReplayReloaded(
    ids: set<string>, l: seq<string>, before: map<string, Theme>, after: map<string, Theme>, active: Option<string>)
    requires forall id <- l :: id in before && id in after
    ensures Replay(ids, ReloadedEvents(l, before, after, active)) == ids
    decreases |l|
  {
    if l != [] {
      ReplayReloaded(ids, l[..|l| - 1], before, after, active);
      ReplayReloadedOne(ids, l[|l| - 1], before, after, active);
      ReplayConcat(ids, ReloadedEvents(l[..|l| - 1], before, after, active),
                   ReloadedEvent(l[|l| - 1], before, after, active));
    }
  }

  lemma ReplayDeletedOne(ids: set<string>, id: string, active: Option<string>)
    ensures Replay(ids, [Deleted(id)]) == ids - {id}
    ensures Replay(ids, [Deleted(id), ActiveThemeChanged(active)]) == ids - {id}
  {
    var one: seq<ThemeChange> := [Deleted(id)];
    assert one[..0] == [] && [Deleted(id), ActiveThemeChanged(active)][..1] == one;
  }

  lemma {:induction false} ReplayDeleted(ids: set<string>, l: seq<string>, active: Option<string>)
    ensures Replay(ids, DeletedEvents(l, active).0) == ids - (set id <- l)
    decreases |l|
  {
    if l != [] {
      var init, id := l[..|l| - 1], l[|l| - 1];
      var (sent, left) := DeletedEvents(init, active);
      ReplayDeleted(ids, init, active);
      ReplayConcat(ids, sent, if left == Some(id) then [Deleted(id), ActiveThemeChanged(None)] else [Deleted(id)]);
      ReplayDeletedOne(ids - (set x <- init), id, None);
      assert l == init + [id];
      assert (set x <- l) == (set x <- init) + {id};
    }
  }

  /** Replaying a reload's events turns the old id set into the new one. */
  lemma {:induction false} ReplayGivesTheNewIds(store: Store, after: map<string, Theme>)
    ensures Replay(store.custom.Keys, ReloadEvents(store.custom, after, store.active)) == after.Keys
  {
    var before := store.custom;
    var created, kept := SortedKeys(after.Keys - before.Keys), SortedKeys(before.Keys * after.Keys);
    var deleted := SortedKeys(before.Keys - after.Keys);
    ReplayThree(before.Keys, created, kept, deleted, before, after, store.active);
    assert (set id <- created) == after.Keys - before.Keys && (set id <- deleted) == before.Keys - after.Keys;
    assert before.Keys + (after.Keys - before.Keys) - (before.Keys - after.Keys) == after.Keys;
  }

  lemma ReplayThree(ids: set<string>, created: seq<string>, kept: seq<string>, deleted: seq<string>,
                    before: map<string, Theme>, after: map<string, Theme>, active: Option<string>)
    requires forall id <- kept :: id in before && id in after
    ensures Replay(ids, EventsFor(created, kept, deleted, before, after, active))
         == ids + (set id <- created) - (set id <- deleted)
  {
    var c, r := CreatedEvents(created), ReloadedEvents(kept, before, after, active);
    var d := DeletedEvents(deleted, active).0;
    ReplayConcat(ids, c + r, d);
    ReplayConcat(ids, c, r);
    ReplayCreated(ids, created);
    ReplayReloaded(ids + (set id <- created), kept, before, after, active);
    ReplayDeleted(ids + (set id <- created), deleted, active);
  }

  /** A reload that finds one file in an empty directory announces its creation. */
  lemma {:induction false} FirstTheme(theme: Theme, active: Option<string>)
    ensures ReloadEvents(map[], map[theme.id := theme], active) == [Created(theme.id)]
  {
    var before: map<string, Theme>, after := map[], map[theme.id := theme];
    ListingIsUnique(SortedKeys({theme.id}), [theme.id], {theme.id});
    assert after.Keys - before.Keys == {theme.id};
    assert before.Keys * after.Keys == {} && before.Keys - after.Keys == {};
    var ids := [theme.id];
    assert ids[..0] == [] && CreatedEvents([]) == [];
    assert CreatedEvents(ids) == [Created(theme.id)];
  }
}
