/**
 The settings store as a protocol: serialised edits, a watcher thread that does
 not take the edit lock, and external writers of the same file. A run is any
 sequence of actions; an action that is not enabled leaves the state as it is,
 so every interleaving is a run, and stopping at any point is a crash there.
 */
module SettingsProtocol {
  import opened Prelude

  type Settings = map<string, string>
  type Mutator = Settings -> Settings

  /** TOML, abstractly: printing may fail, parsing may fail. */
  datatype Codec = Codec(parse: string -> Option<Settings>, print_: Settings -> Option<string>)

  /** What is printed parses back to the same settings. */
  ghost predicate Lawful(c: Codec) {
    forall v :: c.print_(v).Some? ==> c.parse(c.print_(v).value) == Some(v)
  }

  // ------------------------------------------------------------------
  // States and actions.
  // ------------------------------------------------------------------

  /** Where the holder of the write lock is. */
  datatype EditPhase =
    | NoEdit
    | Drafted(mutator: Mutator, draft: Settings, text: string)
    | Writing(mutator: Mutator, draft: Settings, text: string)
    | Synced(mutator: Mutator, draft: Settings, text: string)
    | Renamed(mutator: Mutator, draft: Settings)

  datatype WatcherPhase =
    | NotStarted
    | Waiting
    | Draining(relevant: bool)
    | Reading
    | Loaded(value: Settings)
    | Publishing(value: Settings)
    | Announcing(value: Settings)

  /** `queue` holds the undelivered file events: whether each names the target. */
  datatype State = State(
    disk: Option<string>,
    temp: Option<string>,
    snapshot: Settings,
    queue: seq<bool>,
    edit: EditPhase,
    watcher: WatcherPhase,
    broadcasts: seq<Settings>)

  datatype Action =
    | Begin(mutator: Mutator)
    | CreateTemp
    | WriteMore(upTo: nat)
    | Sync
    | WriteFails
    | Rename
    | RenameFails
    | Publish
    | External(content: Option<string>)
    | Event(relevant: bool)
    | StartWatching
    | Receive
    | ReceiveMore
    | WindowCloses
    | Read
    | ReadFails
    | Compare
    | Reload
    | Announce

  /** File events are delivered only once the directory is being watched. */
  function Notify(s: State, relevant: bool): State {
    if s.watcher.NotStarted? then s else s.(queue := s.queue + [relevant])
  }

  /** Take the lock and draft from the snapshot; a failed print ends the edit. */
  function BeginEdit(c: Codec, s: State, mutator: Mutator): State {
    if !s.edit.NoEdit? || s.watcher.NotStarted? then s else
    var draft := mutator(s.snapshot);
    var printed := c.print_(draft);
    if printed.None? then s else s.(edit := Drafted(mutator, draft, printed.value))
  }

  function Step(c: Codec, s: State, a: Action): State {
    var e, w := s.edit, s.watcher;
    match a
    // The edit and the atomic write it dispatches.
    case Begin(mutator) => BeginEdit(c, s, mutator)
    case CreateTemp =>
      if e.Drafted? then s.(temp := Some(""), edit := Writing(e.mutator, e.draft, e.text)) else s
    case WriteMore(n) =>
      if e.Writing? && s.temp.Some? && |s.temp.value| <= n <= |e.text| then s.(temp := Some(e.text[..n])) else s
    case Sync =>
      if e.Writing? && s.temp == Some(e.text) then s.(edit := Synced(e.mutator, e.draft, e.text)) else s
    case WriteFails => if e.Drafted? || e.Writing? then s.(edit := NoEdit) else s
    case Rename =>
      if e.Synced? then s.(disk := s.temp, temp := None, queue := s.queue + [true], edit := Renamed(e.mutator, e.draft))
      else s
    case RenameFails => if e.Synced? then s.(temp := None, edit := NoEdit) else s
    case Publish => if e.Renamed? then s.(snapshot := e.draft, edit := NoEdit) else s
    // Other writers, and file events of any cause.
    case External(content) => Notify(s.(disk := content), true)
    case Event(relevant) => Notify(s, relevant)
    // The watcher thread: receive, debounce, and one reload.
    case StartWatching => if w.NotStarted? then s.(watcher := Waiting) else s
    case Receive =>
      if w.Waiting? && s.queue != [] then s.(queue := s.queue[1..], watcher := Draining(s.queue[0])) else s
    case ReceiveMore =>
      if w.Draining? && s.queue != [] then s.(queue := s.queue[1..], watcher := Draining(w.relevant || s.queue[0]))
      else s
    case WindowCloses => if w.Draining? then s.(watcher := if w.relevant then Reading else Waiting) else s
    case Read =>
      if w.Reading? then s.(watcher := if Value(c, s).None? then Waiting else Loaded(Value(c, s).value)) else s
    case ReadFails => if w.Reading? then s.(watcher := Waiting) else s
    case Compare =>
      if w.Loaded? then s.(watcher := if s.snapshot == w.value then Waiting else Publishing(w.value)) else s
    case Reload => if w.Publishing? then s.(snapshot := w.value, watcher := Announcing(w.value)) else s
    case Announce => if w.Announcing? then s.(broadcasts := s.broadcasts + [w.value], watcher := Waiting) else s
  }

  function Exec(c: Codec, s: State, actions: seq<Action>): State {
    if actions == [] then s else Step(c, Exec(c, s, actions[..|actions| - 1]), actions[|actions| - 1])
  }

  /** The settings the target file parses to, if any. */
  function Value(c: Codec, s: State): Option<Settings> {
    if s.disk.Some? then c.parse(s.disk.value) else None
  }

  /** Right after `load` has read the file: the default, or what it parses to. */
  predicate Initial(c: Codec, s: State) {
    && s.temp == None && s.queue == [] && s.edit.NoEdit? && s.watcher.NotStarted? && s.broadcasts == []
    && (s.disk.Some? ==> Value(c, s) == Some(s.snapshot))
  }

  // ------------------------------------------------------------------
  // Atomicity: the target is never partially written.
  // ------------------------------------------------------------------

  /** The temp file holds a prefix of the text until it is synced in full. */
  ghost predicate EditCoherent(c: Codec, s: State) {
    match s.edit
    case NoEdit => true
    case Drafted(_, draft, text) => c.print_(draft) == Some(text)
    case Writing(_, draft, text) => c.print_(draft) == Some(text) && s.temp.Some? && s.temp.value <= text
    case Synced(_, draft, text) => c.print_(draft) == Some(text) && s.temp == Some(text)
    case Renamed(_, _) => true
  }

  lemma {:induction false} StaysCoherent(c: Codec, s0: State, actions: seq<Action>)
    requires Initial(c, s0)
    ensures EditCoherent(c, Exec(c, s0, actions))
    decreases |actions|
  {
    if actions != [] {
      StaysCoherent(c, s0, actions[..|actions| - 1]);
    }
  }

  /** The mutators of the edits that renamed, in lock order. */
  function Committed(c: Codec, s0: State, actions: seq<Action>): seq<Mutator> {
    if actions == [] then []
    else
      var before := actions[..|actions| - 1];
      var s := Exec(c, s0, before);
      Committed(c, s0, before)
      + (if actions[|actions| - 1].Rename? && s.edit.Synced? then [s.edit.mutator] else [])
  }

  ghost predicate NoExternal(actions: seq<Action>) {
    forall a <- actions :: !a.External?
  }

  ghost predicate NoWatcher(actions: seq<Action>) {
    forall a <- actions :: !a.Reload?
  }

  /** The text of the latest edit that renamed, or else the initial content. */
  function LatestCommit(c: Codec, s0: State, actions: seq<Action>): Option<string> {
    if actions == [] then s0.disk
    else
      var before := actions[..|actions| - 1];
      var s := Exec(c, s0, before);
      if actions[|actions| - 1].Rename? && s.edit.Synced? then Some(s.edit.text) else LatestCommit(c, s0, before)
  }

  /** At every point of every run written only by edits - so after a crash at any
      point, and whatever writes or renames fail - the file is the complete text
      of the latest edit that renamed, or else its initial content. */
  lemma {:induction false} TargetIsAlwaysComplete(c: Codec, s0: State, actions: seq<Action>)
    requires Initial(c, s0) && NoExternal(actions)
    ensures var disk := Exec(c, s0, actions).disk;
            && disk == LatestCommit(c, s0, actions)
            && (disk == s0.disk || exists v :: c.print_(v).Some? && disk == c.print_(v))
    decreases |actions|
  {
    if actions != [] {
      var before, a := actions[..|actions| - 1], actions[|actions| - 1];
      TargetIsAlwaysComplete(c, s0, before);
      StaysCoherent(c, s0, before);
      var s := Exec(c, s0, before);
      assert a in actions;
      if a.Rename? && s.edit.Synced? {
        assert c.print_(s.edit.draft).Some? && Step(c, s, a).disk == c.print_(s.edit.draft);
      } else {
        assert Step(c, s, a).disk == s.disk;
      }
    }
  }

  /** The actions of the holder of the write lock. */
  predicate IsEditAction(a: Action) {
    a.Begin? || a.CreateTemp? || a.WriteMore? || a.Sync? || a.WriteFails? || a.Rename? || a.RenameFails? || a.Publish?
  }

  /** What the watcher and the other writers do in a run. */
  function Others(actions: seq<Action>): seq<Action> {
    if actions == [] then []
    else Others(actions[..|actions| - 1])
         + (if IsEditAction(actions[|actions| - 1]) then [] else [actions[|actions| - 1]])
  }

  /** No edit of the run gets as far as renaming its file. */
  ghost predicate NoneCommits(c: Codec, s: State, actions: seq<Action>) {
    forall i :: 0 <= i < |actions| ==> !(actions[i].Rename? && Exec(c, s, actions[..i]).edit.Synced?)
  }

  ghost predicate SameButForEdit(s: State, t: State) {
    t == s.(edit := t.edit, temp := t.temp)
  }

  lemma UncommittedStep(c: Codec, s: State, t: State, a: Action)
    requires SameButForEdit(s, t) && !s.edit.Renamed? && !(a.Rename? && s.edit.Synced?)
    ensures !Step(c, s, a).edit.Renamed?
    ensures SameButForEdit(Step(c, s, a), if IsEditAction(a) then t else Step(c, t, a))
  {}

  /** However an edit fails, and whatever the watcher and other writers do
      meanwhile: file, snapshot, pending events, broadcasts and watcher end up as
      if the edit had never been attempted. */
  lemma {:induction false} FailedEditChangesNothing(c: Codec, s: State, actions: seq<Action>)
    requires s.edit.NoEdit? && NoneCommits(c, s, actions)
    ensures SameButForEdit(Exec(c, s, actions), Exec(c, s, Others(actions)))
    ensures !Exec(c, s, actions).edit.Renamed?
    decreases |actions|
  {
    if actions != [] {
      var before, a := actions[..|actions| - 1], actions[|actions| - 1];
      forall i | 0 <= i < |before| ensures before[i] == actions[i] && before[..i] == actions[..i] {}
      FailedEditChangesNothing(c, s, before);
      UncommittedStep(c, Exec(c, s, before), Exec(c, s, Others(before)), a);
      var rest := Others(before);
      if IsEditAction(a) {
        assert rest + [] == rest;
      } else {
        assert (rest + [a])[..|rest|] == rest;
      }
    }
  }

  // ------------------------------------------------------------------
  // Provenance: nothing is ever published that was not loaded or on disk.
  // ------------------------------------------------------------------

  /** The loaded settings and every value the file ever parsed to. */
  ghost function Seen(c: Codec, s0: State, actions: seq<Action>): set<Settings> {
    var value := Value(c, Exec(c, s0, actions));
    (if actions == [] then {s0.snapshot} else Seen(c, s0, actions[..|actions| - 1]))
    + (if value.Some? then {value.value} else {})
  }

  predicate Holds(w: WatcherPhase) {
    w.Loaded? || w.Publishing? || w.Announcing?
  }

  /** Everything held or published is among the values seen. */
  ghost predicate FromSeen(s: State, seen: set<Settings>) {
    && s.snapshot in seen
    && (forall v <- s.broadcasts :: v in seen)
    && (Holds(s.watcher) ==> s.watcher.value in seen)
    && (s.edit.Renamed? ==> s.edit.draft in seen)
  }

  lemma FromSeenStep(c: Codec, s: State, a: Action, seen: set<Settings>)
    requires Lawful(c) && EditCoherent(c, s) && FromSeen(s, seen)
    requires Value(c, s).Some? ==> Value(c, s).value in seen
    requires var t := Step(c, s, a); Value(c, t).Some? ==> Value(c, t).value in seen
    ensures FromSeen(Step(c, s, a), seen)
  {
    if a.Rename? && s.edit.Synced? {
      assert Value(c, Step(c, s, a)) == Some(s.edit.draft);
    }
  }

  lemma {:induction false} OnlySeenIsPublished(c: Codec, s0: State, actions: seq<Action>)
    requires Lawful(c) && Initial(c, s0)
    ensures FromSeen(Exec(c, s0, actions), Seen(c, s0, actions))
    decreases |actions|
  {
    if actions != [] {
      var before, a := actions[..|actions| - 1], actions[|actions| - 1];
      OnlySeenIsPublished(c, s0, before);
      StaysCoherent(c, s0, before);
      var s, seen := Exec(c, s0, before), Seen(c, s0, before);
      assert FromSeen(s, Seen(c, s0, actions)) && seen <= Seen(c, s0, actions);
      FromSeenStep(c, s, a, Seen(c, s0, actions));
    }
  }

  // ------------------------------------------------------------------
  // Convergence: when the snapshot agrees with the file.
  // ------------------------------------------------------------------

  /** No edit in flight, the watcher idle, and no event for the file pending. */
  predicate Quiescent(s: State) {
    s.edit.NoEdit? && s.watcher.Waiting? && true !in s.queue
  }

  predicate Stale(c: Codec, s: State) {
    Value(c, s).Some? && Value(c, s).value != s.snapshot
  }

  /** A reload of what is now on disk is certain to follow. */
  predicate Covered(c: Codec, s: State) {
    || true in s.queue
    || s.watcher.Reading?
    || (s.watcher.Draining? && s.watcher.relevant)
    || ((s.watcher.Loaded? || s.watcher.Publishing?) && Value(c, s) == Some(s.watcher.value))
  }

  /** A change of the file that nobody will notice, by the history of the run:
      the latest of (1) a write before watching started, (2) a failed read,
      (3) an edit publishing over a file that is no longer its own after its own
      event was consumed - with no event for the file since. */
  ghost predicate Unnoticed(c: Codec, s0: State, actions: seq<Action>) {
    actions != [] &&
    var before, a := actions[..|actions| - 1], actions[|actions| - 1];
    var s := Exec(c, s0, before);
    var t := Step(c, s, a);
    if a.External? then s.watcher.NotStarted? && Stale(c, t)
    else if a.Event? && a.relevant && !s.watcher.NotStarted? then false
    else if a.Rename? && s.edit.Synced? then false
    else if a.ReadFails? && s.watcher.Reading? then Stale(c, s) && true !in s.queue && !s.edit.Renamed?
    else if a.Publish? && s.edit.Renamed? then Stale(c, t) && !Covered(c, s)
    else Unnoticed(c, s0, before)
  }

  /** A watcher holding a value that is not on disk any more has an event coming. */
  predicate HoldsOrNotified(c: Codec, s: State) {
    s.watcher.Loaded? || s.watcher.Publishing? ==> Value(c, s) == Some(s.watcher.value) || true in s.queue
  }

  predicate Unwatched(s: State) {
    s.watcher.NotStarted? ==> s.edit.NoEdit? && s.queue == []
  }

  lemma {:induction false} StaleExactlyWhenUnnoticed(c: Codec, s0: State, actions: seq<Action>)
    requires Initial(c, s0)
    ensures var s := Exec(c, s0, actions);
            && HoldsOrNotified(c, s) && Unwatched(s)
            && (Unnoticed(c, s0, actions) <==> Stale(c, s) && !Covered(c, s) && !s.edit.Renamed?)
    decreases |actions|
  {
    if actions != [] {
      var before, a := actions[..|actions| - 1], actions[|actions| - 1];
      StaleExactlyWhenUnnoticed(c, s0, before);
      UnnoticedStep(c, Exec(c, s0, before), a);
    }
  }

  predicate Adrift(c: Codec, s: State) {
    Stale(c, s) && !Covered(c, s) && !s.edit.Renamed?
  }

  /** When an action leaves the store adrift. */
  predicate LeavesAdrift(c: Codec, s: State, a: Action) {
    var t := Step(c, s, a);
    if a.External? then s.watcher.NotStarted? && Stale(c, t)
    else if a.Event? && a.relevant && !s.watcher.NotStarted? then false
    else if a.Rename? && s.edit.Synced? then false
    else if a.ReadFails? && s.watcher.Reading? then Stale(c, s) && true !in s.queue && !s.edit.Renamed?
    else if a.Publish? && s.edit.Renamed? then Stale(c, t) && !Covered(c, s)
    else Adrift(c, s)
  }

  lemma QueueStep(c: Codec, s: State, a: Action)
    ensures var t := Step(c, s, a);
            || t.queue == s.queue
            || (s.queue != [] && t.queue == s.queue[1..] && (true in s.queue <==> s.queue[0] || true in t.queue))
            || (exists b :: t.queue == s.queue + [b] && (true in t.queue <==> b || true in s.queue))
  {
    var t := Step(c, s, a);
    if t.queue != s.queue {
      if |t.queue| > |s.queue| {
        var b := t.queue[|s.queue|];
        assert t.queue == s.queue + [b];
      } else {
        assert s.queue == [s.queue[0]] + t.queue;
      }
    }
  }

  lemma {:induction false} UnnoticedEditStep(c: Codec, s: State, a: Action)
    requires HoldsOrNotified(c, s) && Unwatched(s) && IsEditAction(a)
    ensures var t := Step(c, s, a);
            HoldsOrNotified(c, t) && Unwatched(t) && (Adrift(c, t) <==> LeavesAdrift(c, s, a))
  {
    QueueStep(c, s, a);
  }

  lemma {:induction false} UnnoticedOtherStep(c: Codec, s: State, a: Action)
    requires HoldsOrNotified(c, s) && Unwatched(s) && !IsEditAction(a)
    ensures var t := Step(c, s, a);
            HoldsOrNotified(c, t) && Unwatched(t) && (Adrift(c, t) <==> LeavesAdrift(c, s, a))
  {
    QueueStep(c, s, a);
  }

  lemma {:induction false} UnnoticedStep(c: Codec, s: State, a: Action)
    requires HoldsOrNotified(c, s) && Unwatched(s)
    ensures var t := Step(c, s, a);
            HoldsOrNotified(c, t) && Unwatched(t) && (Adrift(c, t) <==> LeavesAdrift(c, s, a))
  {
    if IsEditAction(a) {
      UnnoticedEditStep(c, s, a);
    } else {
      UnnoticedOtherStep(c, s, a);
    }
  }

  /** In every interleaving, at every quiescent point: the snapshot disagrees with
      a file that parses exactly when the run holds an unnoticed change. */
  lemma {:induction false} AgreesExactlyWhenNoticed(c: Codec, s0: State, actions: seq<Action>)
    requires Initial(c, s0) && Quiescent(Exec(c, s0, actions))
    ensures var s := Exec(c, s0, actions);
            (Value(c, s).Some? ==> s.snapshot == Value(c, s).value) <==> !Unnoticed(c, s0, actions)
  {
    StaleExactlyWhenUnnoticed(c, s0, actions);
  }

  /** No external write before watching started or between an edit's rename and
      its publish, and no failed read of an existing file. */
  ghost predicate WellTimed(c: Codec, s0: State, actions: seq<Action>) {
    actions == [] ||
    var before, a := actions[..|actions| - 1], actions[|actions| - 1];
    var s := Exec(c, s0, before);
    && WellTimed(c, s0, before)
    && (a.External? ==> !s.watcher.NotStarted? && !s.edit.Renamed?)
    && (a.ReadFails? && s.watcher.Reading? ==> s.disk.None?)
  }

  lemma {:induction false} WellTimedIsNoticed(c: Codec, s0: State, actions: seq<Action>)
    requires Lawful(c) && Initial(c, s0) && WellTimed(c, s0, actions)
    ensures !Unnoticed(c, s0, actions)
    ensures RenamedIsOnDisk(c, Exec(c, s0, actions))
    decreases |actions|
  {
    if actions != [] {
      var before, a := actions[..|actions| - 1], actions[|actions| - 1];
      WellTimedIsNoticed(c, s0, before);
      StaysCoherent(c, s0, before);
      RenamedStep(c, Exec(c, s0, before), a);
    }
  }

  predicate RenamedIsOnDisk(c: Codec, s: State) {
    s.edit.Renamed? ==> Value(c, s) == Some(s.edit.draft)
  }

  lemma RenamedStep(c: Codec, s: State, a: Action)
    requires Lawful(c) && EditCoherent(c, s) && RenamedIsOnDisk(c, s)
    requires a.External? ==> !s.edit.Renamed?
    ensures RenamedIsOnDisk(c, Step(c, s, a))
    ensures var t := Step(c, s, a);
            a.Publish? && s.edit.Renamed? ==> Value(c, t) == Some(t.snapshot)
  {}

  /** The store's promise: in every interleaving of edits, watcher steps and
      external writes that is well timed, whenever no edit is in flight, the
      watcher is idle and no file event is pending, the snapshot is what the file
      parses to, if it parses. */
  lemma {:induction false} SnapshotConverges(c: Codec, s0: State, actions: seq<Action>)
    requires Lawful(c) && Initial(c, s0) && WellTimed(c, s0, actions)
    requires Quiescent(Exec(c, s0, actions))
    ensures var s := Exec(c, s0, actions);
            Value(c, s).Some? ==> s.snapshot == Value(c, s).value
  {
    WellTimedIsNoticed(c, s0, actions);
    AgreesExactlyWhenNoticed(c, s0, actions);
  }

  // ------------------------------------------------------------------
  // Lost updates: what an edit drafts from.
  // ------------------------------------------------------------------

  /** What is on disk, with the loaded default standing in for an absent file. */
  function OnDisk(c: Codec, s0: State, s: State): Settings {
    if Value(c, s).Some? then Value(c, s).value else s0.snapshot
  }

  /** The last value published came from a reload of a file replaced since. */
  ghost predicate Late(c: Codec, s0: State, actions: seq<Action>) {
    actions != [] &&
    var before, a := actions[..|actions| - 1], actions[|actions| - 1];
    var s := Exec(c, s0, before);
    if a.Reload? && s.watcher.Publishing? then Value(c, s) != Some(s.watcher.value)
    else if a.Publish? && s.edit.Renamed? then false
    else Late(c, s0, before)
  }

  function ApplyAll(mutators: seq<Mutator>, v: Settings): Settings {
    if mutators == [] then v else mutators[|mutators| - 1](ApplyAll(mutators[..|mutators| - 1], v))
  }

  /** The edit in flight drafted while a late reload was the snapshot. */
  ghost predicate DraftedLate(c: Codec, s0: State, actions: seq<Action>) {
    actions != [] &&
    var before, a := actions[..|actions| - 1], actions[|actions| - 1];
    if a.Begin? && Exec(c, s0, before).edit.NoEdit? then Late(c, s0, before) else DraftedLate(c, s0, before)
  }

  /** No edit that renames drafted from a late reload. */
  ghost predicate CommitsAreFresh(c: Codec, s0: State, actions: seq<Action>) {
    actions == [] ||
    var before, a := actions[..|actions| - 1], actions[|actions| - 1];
    && CommitsAreFresh(c, s0, before)
    && (a.Rename? && Exec(c, s0, before).edit.Synced? ==> !DraftedLate(c, s0, before))
  }

  /** The facts about a store that only edits write. */
  ghost predicate EditOwned(c: Codec, initial: Settings, s: State, late: bool) {
    && EditCoherent(c, s) && RenamedIsOnDisk(c, s)
    && (s.disk.Some? ==> Value(c, s).Some?)
    && (s.watcher.Loaded? || s.watcher.Publishing? ==> s.disk.Some?)
    && (!s.edit.Renamed? ==> (s.snapshot == (if Value(c, s).Some? then Value(c, s).value else initial) <==> !late))
  }

  predicate LateAfter(c: Codec, s: State, a: Action, late: bool) {
    if a.Reload? && s.watcher.Publishing? then Value(c, s) != Some(s.watcher.value)
    else if a.Publish? && s.edit.Renamed? then false
    else late
  }

  lemma EditOwnedEditStep(c: Codec, initial: Settings, s: State, a: Action, late: bool)
    requires Lawful(c) && EditOwned(c, initial, s, late) && IsEditAction(a)
    ensures EditOwned(c, initial, Step(c, s, a), LateAfter(c, s, a, late))
  {
    RenamedStep(c, s, a);
  }

  lemma EditOwnedOtherStep(c: Codec, initial: Settings, s: State, a: Action, late: bool)
    requires Lawful(c) && EditOwned(c, initial, s, late) && !IsEditAction(a) && !a.External?
    ensures EditOwned(c, initial, Step(c, s, a), LateAfter(c, s, a, late))
  {
    RenamedStep(c, s, a);
  }

  lemma EditOwnedStep(c: Codec, initial: Settings, s: State, a: Action, late: bool)
    requires Lawful(c) && EditOwned(c, initial, s, late) && !a.External?
    ensures EditOwned(c, initial, Step(c, s, a), LateAfter(c, s, a, late))
  {
    if IsEditAction(a) {
      EditOwnedEditStep(c, initial, s, a, late);
    } else {
      EditOwnedOtherStep(c, initial, s, a, late);
    }
  }

  /** Written only by edits, the snapshot an edit would draft from differs from
      the file exactly when a late reload published it. */
  lemma {:induction false} DraftsFromDiskExactlyUnlessLate(c: Codec, s0: State, actions: seq<Action>)
    requires Lawful(c) && Initial(c, s0) && NoExternal(actions)
    ensures var s := Exec(c, s0, actions);
            && EditOwned(c, s0.snapshot, s, Late(c, s0, actions))
            && (!s.edit.Renamed? ==> (s.snapshot == OnDisk(c, s0, s) <==> !Late(c, s0, actions)))
    decreases |actions|
  {
    if actions != [] {
      var before, a := actions[..|actions| - 1], actions[|actions| - 1];
      assert a in actions;
      DraftsFromDiskExactlyUnlessLate(c, s0, before);
      EditOwnedStep(c, s0.snapshot, Exec(c, s0, before), a, Late(c, s0, before));
    }
  }

  /** The edit in flight applied its mutator to what is on disk, unless it was late. */
  predicate DraftedFrom(s: State, onDisk: Settings, late: bool) {
    s.edit.Drafted? || s.edit.Writing? || s.edit.Synced? ==> late || s.edit.draft == s.edit.mutator(onDisk)
  }

  lemma DraftedFromStep(c: Codec, s0: State, s: State, a: Action, late: bool, begunLate: bool)
    requires Lawful(c) && EditCoherent(c, s) && !a.External?
    requires DraftedFrom(s, OnDisk(c, s0, s), late)
    requires a.Begin? && s.edit.NoEdit? && !begunLate ==> s.snapshot == OnDisk(c, s0, s)
    requires a.Rename? && s.edit.Synced? ==> !late
    ensures var t := Step(c, s, a);
            && DraftedFrom(t, OnDisk(c, s0, t), if a.Begin? && s.edit.NoEdit? then begunLate else late)
            && OnDisk(c, s0, t) ==
               if a.Rename? && s.edit.Synced? then s.edit.mutator(OnDisk(c, s0, s)) else OnDisk(c, s0, s)
  {}

  /** Written only by edits, none of which renames a draft of a late reload, the
      file holds the successful mutators applied in lock order. */
  lemma {:induction false} DiskIsTheFold(c: Codec, s0: State, actions: seq<Action>)
    requires Lawful(c) && Initial(c, s0) && NoExternal(actions) && CommitsAreFresh(c, s0, actions)
    ensures var s := Exec(c, s0, actions);
            && OnDisk(c, s0, s) == ApplyAll(Committed(c, s0, actions), s0.snapshot)
            && DraftedFrom(s, OnDisk(c, s0, s), DraftedLate(c, s0, actions))
    decreases |actions|
  {
    if actions != [] {
      var before, a := actions[..|actions| - 1], actions[|actions| - 1];
      assert a in actions;
      DiskIsTheFold(c, s0, before);
      DraftsFromDiskExactlyUnlessLate(c, s0, before);
      var s, done := Exec(c, s0, before), Committed(c, s0, before);
      DraftedFromStep(c, s0, s, a, DraftedLate(c, s0, before), Late(c, s0, before));
      if a.Rename? && s.edit.Synced? {
        assert (done + [s.edit.mutator])[..|done|] == done;
      } else {
        assert done + [] == done;
      }
    }
  }

  /** Without a watcher no reload is ever late, so edits alone are the fold. */
  lemma {:induction false} EditsAloneAreTheFold(c: Codec, s0: State, actions: seq<Action>)
    requires Lawful(c) && Initial(c, s0) && NoExternal(actions) && NoWatcher(actions)
    ensures OnDisk(c, s0, Exec(c, s0, actions)) == ApplyAll(Committed(c, s0, actions), s0.snapshot)
  {
    NeverLate(c, s0, actions);
    DiskIsTheFold(c, s0, actions);
  }

  lemma {:induction false} NeverLate(c: Codec, s0: State, actions: seq<Action>)
    requires NoWatcher(actions)
    ensures !Late(c, s0, actions) && !DraftedLate(c, s0, actions) && CommitsAreFresh(c, s0, actions)
    decreases |actions|
  {
    if actions != [] {
      assert actions[|actions| - 1] in actions;
      NeverLate(c, s0, actions[..|actions| - 1]);
    }
  }
}
