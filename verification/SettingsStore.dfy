/**
 The settings store itself: the methods that run when nothing interleaves with
 them, each equal to a run of the protocol, and the interleavings that go wrong.
 */
module SettingsStore {
  import opened Prelude
  import opened SettingsProtocol

  datatype PersistenceError = SerializationError | IoError

  /** How the atomic write fails: after part of the temp file, or at the rename. */
  datatype WriteFault = NoFault | FailsAfter(written: nat) | RenameFault

  lemma {:induction false} ExecConcat(c: Codec, s: State, a: seq<Action>, b: seq<Action>)
    ensures Exec(c, s, a + b) == Exec(c, Exec(c, s, a), b)
    decreases |b|
  {
    if b == [] {
      assert a + b == a;
    } else {
      assert (a + b)[..|a + b| - 1] == a + b[..|b| - 1];
      ExecConcat(c, s, a, b[..|b| - 1]);
    }
  }

  /** One more action at the end of a run. */
  lemma ExecMore(c: Codec, s: State, run: seq<Action>, a: Action)
    ensures Exec(c, s, run + [a]) == Step(c, Exec(c, s, run), a)
  {
    assert (run + [a])[..|run|] == run;
  }

  function Four(a: Action, b: Action, d: Action, e: Action): seq<Action> {
    [a] + [b] + [d] + [e]
  }

  lemma ExecFour(c: Codec, s: State, a: Action, b: Action, d: Action, e: Action)
    ensures Exec(c, s, Four(a, b, d, e)) == Step(c, Step(c, Step(c, Step(c, s, a), b), d), e)
  {
    ExecThree(c, s, a, b, d);
    ExecMore(c, s, [a] + [b] + [d], e);
  }

  lemma ExecThree(c: Codec, s: State, a: Action, b: Action, d: Action)
    ensures Exec(c, s, [a] + [b] + [d]) == Step(c, Step(c, Step(c, s, a), b), d)
  {
    ExecMore(c, s, [], a);
    assert [] + [a] == [a];
    ExecMore(c, s, [a], b);
    ExecMore(c, s, [a] + [b], d);
  }

  /** The write half of an edit, up to the fault or the rename. */
  function WriteActions(text: string, fault: WriteFault): seq<Action> {
    match fault
    case NoFault => Four(CreateTemp, WriteMore(|text|), Sync, Rename)
    case FailsAfter(n) => [CreateTemp] + [WriteMore(n)] + [WriteFails]
    case RenameFault => Four(CreateTemp, WriteMore(|text|), Sync, RenameFails)
  }

  function EditActions(c: Codec, snapshot: Settings, mutator: Mutator, fault: WriteFault): seq<Action> {
    var printed := c.print_(mutator(snapshot));
    [Begin(mutator)]
    + (if printed.None? then [] else WriteActions(printed.value, fault)) + [Publish]
  }

  lemma WriteOutcome(c: Codec, s: State, fault: WriteFault)
    requires s.edit.Drafted? && (fault.FailsAfter? ==> fault.written <= |s.edit.text|)
    ensures Exec(c, s, WriteActions(s.edit.text, fault)) == AfterWrite(s, fault)
  {
    var created := s.(temp := Some(""), edit := Writing(s.edit.mutator, s.edit.draft, s.edit.text));
    match fault {
      case FailsAfter(n) =>
        ExecThree(c, s, CreateTemp, WriteMore(n), WriteFails);
      case NoFault =>
        ExecFour(c, s, CreateTemp, WriteMore(|s.edit.text|), Sync, Rename);
        WrittenAndSynced(c, created);
      case RenameFault =>
        ExecFour(c, s, CreateTemp, WriteMore(|s.edit.text|), Sync, RenameFails);
        WrittenAndSynced(c, created);
    }
  }

  /** The state a drafted edit leaves once it renamed or failed. */
  function AfterWrite(s: State, fault: WriteFault): State
    requires s.edit.Drafted? && (fault.FailsAfter? ==> fault.written <= |s.edit.text|)
  {
    match fault
    case NoFault => s.(disk := Some(s.edit.text), temp := None, queue := s.queue + [true],
                       edit := Renamed(s.edit.mutator, s.edit.draft))
    case FailsAfter(n) => s.(temp := Some(s.edit.text[..n]), edit := NoEdit)
    case RenameFault => s.(temp := None, edit := NoEdit)
  }

  lemma WrittenAndSynced(c: Codec, s: State)
    requires s.edit.Writing? && s.temp == Some("")
    ensures Step(c, Step(c, s, WriteMore(|s.edit.text|)), Sync)
         == s.(temp := Some(s.edit.text), edit := Synced(s.edit.mutator, s.edit.draft, s.edit.text))
  {
    assert s.edit.text[..|s.edit.text|] == s.edit.text;
  }

  /** An edit that nothing interleaves with, up to its rename or failure. */
  lemma UninterruptedWrite(c: Codec, s: State, mutator: Mutator, fault: WriteFault)
    requires s.edit.NoEdit? && !s.watcher.NotStarted? && c.print_(mutator(s.snapshot)).Some?
    requires fault.FailsAfter? ==> fault.written <= |c.print_(mutator(s.snapshot)).value|
    ensures var text := c.print_(mutator(s.snapshot)).value;
            Exec(c, s, [Begin(mutator)] + WriteActions(text, fault)) ==
              match fault
              case NoFault => s.(disk := Some(text), temp := None, queue := s.queue + [true],
                                 edit := Renamed(mutator, mutator(s.snapshot)))
              case FailsAfter(n) => s.(temp := Some(text[..n]))
              case RenameFault => s.(temp := None)
  {
    var text := c.print_(mutator(s.snapshot)).value;
    ExecMore(c, s, [], Begin(mutator));
    assert [] + [Begin(mutator)] == [Begin(mutator)];
    ExecConcat(c, s, [Begin(mutator)], WriteActions(text, fault));
    WriteOutcome(c, s.(edit := Drafted(mutator, mutator(s.snapshot), text)), fault);
  }

  /** The actions of one `perform_reload`. */
  const RELOAD := Four(Read, Compare, Reload, Announce)

  /** The outcome of one uninterrupted reload. */
  lemma ReloadOutcome(c: Codec, s: State)
    requires s.watcher.Reading?
    ensures Exec(c, s, RELOAD) ==
              if Value(c, s).None? || Value(c, s).value == s.snapshot then s.(watcher := Waiting)
              else s.(watcher := Waiting, snapshot := Value(c, s).value, broadcasts := s.broadcasts + [Value(c, s).value])
  {
    ExecFour(c, s, Read, Compare, Reload, Announce);
    if Value(c, s).Some? {
      var v := Value(c, s).value;
      assert Step(c, s, Read) == s.(watcher := Loaded(v));
      if v != s.snapshot {
        assert Step(c, s.(watcher := Loaded(v)), Compare) == s.(watcher := Publishing(v));
      }
    }
  }

  lemma IdleReload(c: Codec, s: State)
    requires s.watcher.Waiting?
    ensures Exec(c, s, RELOAD) == s
  {
    ExecFour(c, s, Read, Compare, Reload, Announce);
  }

  function Arrive(batch: seq<bool>): seq<Action> {
    if batch == [] then [] else Arrive(batch[..|batch| - 1]) + [Event(batch[|batch| - 1])]
  }

  /** A debounce window: the first event, and then one receive after each batch of
      arriving events; with none pending a receive goes on waiting. */
  function Window(batches: seq<seq<bool>>): seq<Action> {
    if batches == [] then [Receive]
    else Window(batches[..|batches| - 1]) + (Arrive(batches[|batches| - 1]) + [ReceiveMore])
  }

  lemma {:induction false} ArriveOutcome(c: Codec, s: State, batch: seq<bool>)
    requires !s.watcher.NotStarted?
    ensures Exec(c, s, Arrive(batch)) == s.(queue := s.queue + batch)
    decreases |batch|
  {
    if batch == [] {
      assert s.queue + [] == s.queue;
    } else {
      var init, last := batch[..|batch| - 1], batch[|batch| - 1];
      ArriveOutcome(c, s, init);
      ExecMore(c, s, Arrive(init), Event(last));
      assert s.queue + init + [last] == s.queue + batch;
    }
  }

  function Flatten(batches: seq<seq<bool>>): seq<bool> {
    if batches == [] then [] else Flatten(batches[..|batches| - 1]) + batches[|batches| - 1]
  }

  /** The watcher having taken in the first `n` of all events. */
  function Taken(s: State, all: seq<bool>, n: nat): State
    requires n <= |all|
  {
    s.(queue := all[n..], watcher := Draining(true in all[..n]))
  }

  lemma TakesFirst(c: Codec, s: State)
    requires s.watcher.Waiting? && s.queue != []
    ensures Step(c, s, Receive) == Taken(s, s.queue, 1)
  {
    assert s.queue[..1] == [s.queue[0]];
  }

  lemma TakesOneMore(c: Codec, s: State, all: seq<bool>, n: nat)
    requires n <= |all|
    ensures Step(c, Taken(s, all, n), ReceiveMore) == Taken(s, all, if n < |all| then n + 1 else n)
  {
    if n < |all| {
      assert all[n..][0] == all[n] && all[n..][1..] == all[n + 1..];
      assert all[..n + 1] == all[..n] + [all[n]];
    }
  }

  lemma TakenThenMore(s: State, all: seq<bool>, n: nat, batch: seq<bool>)
    requires n <= |all|
    ensures Taken(s, all, n).(queue := all[n..] + batch) == Taken(s, all + batch, n)
  {
    assert (all + batch)[n..] == all[n..] + batch && (all + batch)[..n] == all[..n];
  }

  /** A window takes events off the front of all that were there or arrive, in
      order, loses none, and remembers whether any it took names the file. */
  lemma {:induction false} WindowOutcome(c: Codec, s: State, batches: seq<seq<bool>>) returns (n: nat)
    requires s.watcher.Waiting? && s.queue != []
    ensures var all := s.queue + Flatten(batches);
            1 <= n <= |all| && n <= 1 + |batches| && Exec(c, s, Window(batches)) == Taken(s, all, n)
    decreases |batches|
  {
    if batches == [] {
      n := 1;
      TakesFirst(c, s);
      ExecMore(c, s, [], Receive);
      assert [] + [Receive] == [Receive] && s.queue + [] == s.queue;
    } else {
      var init, batch := batches[..|batches| - 1], batches[|batches| - 1];
      var i := WindowOutcome(c, s, init);
      var all := s.queue + Flatten(init);
      WindowStep(c, s, Window(init), all, i, batch);
      n := if i < |all + batch| then i + 1 else i;
      assert s.queue + (Flatten(init) + batch) == all + batch;
    }
  }

  lemma WindowStep(c: Codec, s: State, run: seq<Action>, all: seq<bool>, i: nat, batch: seq<bool>)
    requires i <= |all| && Exec(c, s, run) == Taken(s, all, i)
    ensures Exec(c, s, run + (Arrive(batch) + [ReceiveMore]))
         == Taken(s, all + batch, if i < |all + batch| then i + 1 else i)
  {
    ExecConcat(c, s, run, Arrive(batch) + [ReceiveMore]);
    ReceiveAfter(c, Taken(s, all, i), batch);
    TakenThenMore(s, all, i, batch);
    TakesOneMore(c, s, all + batch, i);
  }

  lemma ReceiveAfter(c: Codec, s: State, batch: seq<bool>)
    requires !s.watcher.NotStarted?
    ensures Exec(c, s, Arrive(batch) + [ReceiveMore]) == Step(c, s.(queue := s.queue + batch), ReceiveMore)
  {
    ArriveOutcome(c, s, batch);
    ExecMore(c, s, Arrive(batch), ReceiveMore);
  }

  class SettingsStore {
    const codec: Codec
    var target: Option<string>
    var temp: Option<string>
    var snapshot: Settings
    var events: seq<bool>
    var broadcasts: seq<Settings>

    /** The store between two calls: no edit in flight, the watcher idle. */
    ghost function View(): State
      reads this
    {
      State(target, temp, snapshot, events, NoEdit, Waiting, broadcasts)
    }

    constructor (codec: Codec, target: Option<string>, loaded: Settings)
      ensures this.codec == codec && View() == State(target, None, loaded, [], NoEdit, Waiting, [])
    {
      this.codec, this.target, snapshot := codec, target, loaded;
      temp, events, broadcasts := None, [], [];
    }

    /** Open the store on a file that may be absent, unreadable, or unwatchable. */
    static method Load(codec: Codec, target: Option<string>, readFails: bool, watchFails: bool, default: Settings)
      returns (r: Result<SettingsStore, PersistenceError>)
      ensures r.Failure? <==> (target.Some? && (readFails || codec.parse(target.value).None?)) || watchFails
      ensures r == Failure(SerializationError) <==> target.Some? && !readFails && codec.parse(target.value).None?
      ensures r.Success? ==>
                && fresh(r.value) && r.value.codec == codec && r.value.target == target
                && r.value.snapshot == (if target.Some? then codec.parse(target.value).value else default)
                && exists s :: Initial(codec, s) && r.value.View() == Exec(codec, s, [StartWatching])
    {
      var settings := default;
      if target.Some? {
        if readFails {
          return Failure(IoError);
        }
        var parsed := codec.parse(target.value);
        if parsed.None? {
          return Failure(SerializationError);
        }
        settings := parsed.value;
      }
      if watchFails {
        return Failure(IoError);
      }
      var store := new SettingsStore(codec, target, settings);
      ghost var s := State(target, None, settings, [], NoEdit, NotStarted, []);
      ExecMore(codec, s, [], StartWatching);
      assert [] + [StartWatching] == [StartWatching];
      assert Initial(codec, s);
      return Success(store);
    }

    method Edit(mutator: Mutator, fault: WriteFault) returns (r: Result<(), PersistenceError>)
      requires fault.FailsAfter? ==>
                 var printed := codec.print_(mutator(snapshot));
                 printed.Some? ==> fault.written <= |printed.value|
      modifies this
      ensures View() == Exec(codec, old(View()), EditActions(codec, old(snapshot), mutator, fault))
      ensures var draft := mutator(old(snapshot));
              match r
              case Success(_) => snapshot == draft && target.Some? && target == codec.print_(draft)
              case Failure(error) => && View() == old(View()).(temp := temp)
                                     && (error == SerializationError <==> codec.print_(draft).None?)
    {
      ghost var before := View();
      var draft := mutator(snapshot);
      var printed := codec.print_(draft);
      ghost var actions := EditActions(codec, snapshot, mutator, fault);
      if printed.None? {
        assert actions == [Begin(mutator)] + [Publish];
        ExecMore(codec, before, [], Begin(mutator));
        assert [] + [Begin(mutator)] == [Begin(mutator)];
        ExecMore(codec, before, [Begin(mutator)], Publish);
        return Failure(SerializationError);
      }
      UninterruptedWrite(codec, before, mutator, fault);
      ExecMore(codec, before, [Begin(mutator)] + WriteActions(printed.value, fault), Publish);
      var ok := WriteAtomically(printed.value, fault);
      if !ok {
        return Failure(IoError);
      }
      snapshot := draft;
      return Success(());
    }

    /** Temp file first, in full, then the rename that also raises an event. */
    method WriteAtomically(text: string, fault: WriteFault) returns (ok: bool)
      requires fault.FailsAfter? ==> fault.written <= |text|
      modifies this`target, this`temp, this`events
      ensures ok == fault.NoFault?
      ensures ok ==> target == Some(text) && temp == None && events == old(events) + [true]
      ensures !ok ==> target == old(target) && events == old(events)
      ensures fault.FailsAfter? ==> temp == Some(text[..fault.written])
      ensures fault.RenameFault? ==> temp == None
    {
      temp := Some("");
      if fault.FailsAfter? {
        temp := Some(text[..fault.written]);
        return false;
      }
      temp := Some(text);
      if fault.RenameFault? {
        temp := None;
        return false;
      }
      target, temp := temp, None;
      events := events + [true];
      return true;
    }

    method PerformReload()
      modifies this`snapshot, this`broadcasts
      ensures View() == Exec(codec, old(View()).(watcher := Reading), RELOAD)
    {
      ReloadOutcome(codec, View().(watcher := Reading));
      if target.None? {
        return;
      }
      var parsed := codec.parse(target.value);
      if parsed.None? || parsed.value == snapshot {
        return;
      }
      snapshot := parsed.value;
      broadcasts := broadcasts + [parsed.value];
    }

    /** One receive of the window, after a batch of events arrived. */
    method ReceiveOne(relevant: bool, batch: seq<bool>) returns (r: bool)
      modifies this`events
      ensures View().(watcher := Draining(r))
           == Exec(codec, old(View()).(watcher := Draining(relevant)), Arrive(batch) + [ReceiveMore])
    {
      ReceiveAfter(codec, View().(watcher := Draining(relevant)), batch);
      r := relevant;
      events := events + batch;
      if events != [] {
        r := r || events[0];
        events := events[1..];
      }
    }

    /** The debounce window, with a batch of events arriving ahead of each receive. */
    method DrainWindow(batches: seq<seq<bool>>) returns (relevant: bool)
      requires events != []
      modifies this`events
      ensures View().(watcher := Draining(relevant)) == Exec(codec, old(View()), Window(batches))
    {
      ghost var before := View();
      ExecMore(codec, before, [], Receive);
      assert [] + [Receive] == [Receive] && batches[..0] == [];
      relevant := events[0];
      events := events[1..];
      for i := 0 to |batches|
        invariant View().(watcher := Draining(relevant)) == Exec(codec, before, Window(batches[..i]))
      {
        assert batches[..i + 1][..i] == batches[..i];
        ExecConcat(codec, before, Window(batches[..i]), Arrive(batches[i]) + [ReceiveMore]);
        relevant := ReceiveOne(relevant, batches[i]);
      }
      assert batches[..|batches|] == batches;
    }

    /** One turn of the driver loop, with events arriving during its window. */
    method DriverTurn(batches: seq<seq<bool>>)
      requires events != []
      modifies this
      ensures View() == Exec(codec, old(View()), Window(batches) + [WindowCloses] + RELOAD)
    {
      ghost var before := View();
      ExecMore(codec, before, Window(batches), WindowCloses);
      ExecConcat(codec, before, Window(batches) + [WindowCloses], RELOAD);
      var relevant := DrainWindow(batches);
      if relevant {
        PerformReload();
      } else {
        IdleReload(codec, View());
      }
    }
  }

  // ------------------------------------------------------------------
  // The interleavings that go wrong.
  // ------------------------------------------------------------------

  function EditUpToRename(mutator: Mutator, text: string): seq<Action> {
    [Begin(mutator)] + WriteActions(text, NoFault)
  }

  /** An edit renames, an external write follows, the watcher reloads it, and
      only then the edit publishes its own draft. */
  function WriteInTheWindow(mutator: Mutator, text: string, outside: string): seq<Action> {
    EditUpToRename(mutator, text)
    + Four(External(Some(outside)), Receive, ReceiveMore, WindowCloses) + RELOAD + [Publish]
  }

  lemma ReceiveBoth(c: Codec, s: State, outside: string)
    requires s.watcher.Waiting? && s.queue == [true]
    ensures Exec(c, s, Four(External(Some(outside)), Receive, ReceiveMore, WindowCloses))
         == s.(disk := Some(outside), queue := [], watcher := Reading)
  {
    ExecFour(c, s, External(Some(outside)), Receive, ReceiveMore, WindowCloses);
    assert ([true] + [true])[1..] == [true] && [true][1..] == [];
  }

  /** Snapshot and file are then apart with nothing pending that would tell. */
  lemma {:induction false} WriteInTheWindowIsMissed(
    c: Codec, s: State, mutator: Mutator, text: string, outside: string, v: Settings)
    requires Quiescent(s) && s.queue == [] && c.print_(mutator(s.snapshot)) == Some(text)
    requires c.parse(outside) == Some(v) && v != mutator(s.snapshot)
    ensures var t := Exec(c, s, WriteInTheWindow(mutator, text, outside));
            Quiescent(t) && Value(c, t) == Some(v) && t.snapshot == mutator(s.snapshot) != v
  {
    var edit, events := EditUpToRename(mutator, text), Four(External(Some(outside)), Receive, ReceiveMore, WindowCloses);
    UninterruptedWrite(c, s, mutator, NoFault);
    assert [] + [true] == [true];
    var a := Exec(c, s, edit);
    ExecConcat(c, s, edit, events);
    ReceiveBoth(c, a, outside);
    ExecConcat(c, s, edit + events, RELOAD);
    ReloadOutcome(c, Exec(c, s, edit + events));
    ExecMore(c, s, edit + events + RELOAD, Publish);
  }

  /** A write between loading and watching raises no event: nobody ever notices. */
  lemma {:induction false} WriteBeforeWatchingIsMissed(c: Codec, s: State, outside: string, v: Settings)
    requires Initial(c, s) && c.parse(outside) == Some(v) && v != s.snapshot
    ensures var t := Exec(c, s, [External(Some(outside))] + [StartWatching]);
            Quiescent(t) && Value(c, t) == Some(v) && t.snapshot == s.snapshot != v
  {
    ExecMore(c, s, [], External(Some(outside)));
    assert [] + [External(Some(outside))] == [External(Some(outside))];
    ExecMore(c, s, [External(Some(outside))], StartWatching);
  }

  /** An edit that drafts before an external write is reloaded overwrites it,
      whatever was written. */
  lemma {:induction false} UnseenWriteIsOverwritten(c: Codec, s: State, outside: string, mutator: Mutator, text: string)
    requires Quiescent(s) && c.print_(mutator(s.snapshot)) == Some(text)
    ensures var t := Exec(c, s, [External(Some(outside))] + EditUpToRename(mutator, text) + [Publish]);
            t.disk == Some(text) && t.snapshot == mutator(s.snapshot)
  {
    var write, edit := [External(Some(outside))], EditUpToRename(mutator, text);
    var a := s.(disk := Some(outside), queue := s.queue + [true]);
    ExecMore(c, s, [], External(Some(outside)));
    assert [] + write == write;
    ExecConcat(c, s, write, edit);
    UninterruptedWrite(c, a, mutator, NoFault);
    ExecMore(c, s, write + edit, Publish);
  }

  /** A reload that fails to read a file that is there is not repeated. */
  lemma {:induction false} FailedReadIsMissed(c: Codec, s: State, outside: string, v: Settings)
    requires Quiescent(s) && s.queue == [] && c.parse(outside) == Some(v) && v != s.snapshot
    ensures var t := Exec(c, s, Four(External(Some(outside)), Receive, WindowCloses, ReadFails));
            Quiescent(t) && Value(c, t) == Some(v) && t.snapshot == s.snapshot != v
  {
    ExecFour(c, s, External(Some(outside)), Receive, WindowCloses, ReadFails);
    assert ([] + [true])[1..] == [];
  }

  /** A reload reads the file, an edit renames and publishes, the reload publishes
      what it had read, and a second edit drafts from that. */
  function LateReloadRun(first: Mutator, firstText: string, second: Mutator, secondText: string): seq<Action> {
    Four(Event(true), Receive, WindowCloses, Read)
    + EditUpToRename(first, firstText) + Four(Publish, Compare, Reload, Announce)
    + EditUpToRename(second, secondText) + [Publish]
  }

  lemma ReadsTheFile(c: Codec, s: State)
    requires Quiescent(s) && s.queue == [] && Value(c, s).Some?
    ensures Exec(c, s, Four(Event(true), Receive, WindowCloses, Read)) == s.(watcher := Loaded(Value(c, s).value))
  {
    ExecFour(c, s, Event(true), Receive, WindowCloses, Read);
    assert ([] + [true])[1..] == [];
  }

  lemma PublishesLate(c: Codec, s: State)
    requires s.edit.Renamed? && s.watcher.Loaded? && s.watcher.value != s.edit.draft
    ensures Exec(c, s, Four(Publish, Compare, Reload, Announce))
         == s.(edit := NoEdit, snapshot := s.watcher.value, watcher := Waiting,
               broadcasts := s.broadcasts + [s.watcher.value])
  {
    ExecFour(c, s, Publish, Compare, Reload, Announce);
  }

  /** The first edit succeeded, yet the file only shows the second. */
  lemma {:induction false} LateReloadLosesAnEdit(
    c: Codec, s: State, first: Mutator, firstText: string, second: Mutator, secondText: string)
    requires Quiescent(s) && s.queue == [] && Value(c, s) == Some(s.snapshot)
    requires c.print_(first(s.snapshot)) == Some(firstText) && first(s.snapshot) != s.snapshot
    requires c.print_(second(s.snapshot)) == Some(secondText)
    ensures var t := Exec(c, s, LateReloadRun(first, firstText, second, secondText));
            t.disk == Some(secondText) && t.snapshot == second(s.snapshot)
  {
    var read, publish := Four(Event(true), Receive, WindowCloses, Read), Four(Publish, Compare, Reload, Announce);
    var edit1, edit2 := EditUpToRename(first, firstText), EditUpToRename(second, secondText);
    ReadsTheFile(c, s);
    var a := s.(watcher := Loaded(s.snapshot));
    ExecConcat(c, s, read, edit1);
    UninterruptedWrite(c, a, first, NoFault);
    var b := Exec(c, a, edit1);
    ExecConcat(c, s, read + edit1, publish);
    PublishesLate(c, b);
    var d := Exec(c, b, publish);
    ExecConcat(c, s, read + edit1 + publish, edit2);
    UninterruptedWrite(c, d, second, NoFault);
    ExecMore(c, s, read + edit1 + publish + edit2, Publish);
  }
}
