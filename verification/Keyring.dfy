/**
 The keychain-backed secret store: every secret is an entry of its own, and an
 index entry lists the keys. Two writes per change, over a backend in which any
 call may fail without effect.
 */
module Keyring {
  import opened Prelude
  import opened SortedStrings

  const INDEX_KEY := "openspace.__index"

  datatype BackendError = Unreachable(reason: string) | OtherError(reason: string)
  datatype SecretError = Unavailable(reason: string) | Backend(reason: string)

  const RESERVED := Backend("key \"openspace.__index\" is reserved by KeyringSecretStore")
  const CORRUPT := Backend("list_keys index decode failed")

  /** The JSON encoding of the index. */
  datatype Codec = Codec(encode: seq<string> -> string, decode: string -> Option<seq<string>>)

  ghost predicate Lawful(c: Codec) {
    forall index :: c.decode(c.encode(index)) == Some(index)
  }

  function MapError(e: BackendError): SecretError {
    match e
    case Unreachable(reason) => Unavailable(reason)
    case OtherError(reason) => Backend(reason)
  }

  // ------------------------------------------------------------------
  // The backend: entries, and which of the coming calls will fail.
  // ------------------------------------------------------------------

  datatype Vault = Vault(entries: map<string, string>, faults: seq<Option<BackendError>>)

  /** The failure of the next call, if it is to fail. */
  function Fault(v: Vault): Option<BackendError> {
    if v.faults == [] then None else v.faults[0]
  }

  function Called(v: Vault): Vault {
    if v.faults == [] then v else v.(faults := v.faults[1..])
  }

  function Store(v: Vault, key: string, value: string): Vault {
    if Fault(v).Some? then Called(v) else Called(v).(entries := v.entries[key := value])
  }

  function Remove(v: Vault, key: string): Vault {
    if Fault(v).Some? then Called(v) else Called(v).(entries := v.entries - {key})
  }

  function Lookup(entries: map<string, string>, key: string): Option<string> {
    if key in entries then Some(entries[key]) else None
  }

  class KeyringBackend {
    var entries: map<string, string>
    var faults: seq<Option<BackendError>>

    ghost function View(): Vault
      reads this
    {
      Vault(entries, faults)
    }

    constructor (faults: seq<Option<BackendError>>)
      ensures View() == Vault(map[], faults)
    {
      entries, this.faults := map[], faults;
    }

    method Call() returns (fault: Option<BackendError>)
      modifies this`faults
      ensures fault == Fault(old(View())) && View() == Called(old(View()))
    {
      fault := None;
      if faults != [] {
        fault := faults[0];
        faults := faults[1..];
      }
    }

    method SetPassword(key: string, value: string) returns (error: Option<BackendError>)
      modifies this
      ensures error == Fault(old(View())) && View() == Store(old(View()), key, value)
    {
      error := Call();
      if error.None? {
        entries := entries[key := value];
      }
    }

    method GetPassword(key: string) returns (r: Result<Option<string>, BackendError>)
      modifies this
      ensures View() == Called(old(View()))
      ensures r == if Fault(old(View())).Some? then Failure(Fault(old(View())).value) else Success(Lookup(entries, key))
    {
      var error := Call();
      r := if error.Some? then Failure(error.value) else Success(Lookup(entries, key));
    }

    method DeletePassword(key: string) returns (error: Option<BackendError>)
      modifies this
      ensures error == Fault(old(View())) && View() == Remove(old(View()), key)
    {
      error := Call();
      if error.None? {
        entries := entries - {key};
      }
    }
  }

  // ------------------------------------------------------------------
  // The store.
  // ------------------------------------------------------------------

  /** The index as stored; absent means empty, undecodable means None. */
  function Index(c: Codec, entries: map<string, string>): Option<seq<string>> {
    if INDEX_KEY in entries then c.decode(entries[INDEX_KEY]) else Some([])
  }

  function ReadIndexResult(c: Codec, v: Vault): Result<seq<string>, SecretError> {
    if Fault(v).Some? then Failure(MapError(Fault(v).value))
    else if Index(c, v.entries).None? then Failure(CORRUPT)
    else Success(Index(c, v.entries).value)
  }

  function Outcome(fault: Option<BackendError>): Result<(), SecretError> {
    if fault.Some? then Failure(MapError(fault.value)) else Success(())
  }

  function SetSecret(c: Codec, v: Vault, key: string, value: string): (Vault, Result<(), SecretError>) {
    if key == INDEX_KEY then (v, Failure(RESERVED))
    else if Fault(v).Some? then (Called(v), Outcome(Fault(v)))
    else
      var stored := Store(v, key, value);
      var index := ReadIndexResult(c, stored);
      if index.Failure? then (Called(stored), Failure(index.error))
      else if key in index.value then (Called(stored), Success(()))
      else
        var read := Called(stored);
        (Store(read, INDEX_KEY, c.encode(Sort(index.value + [key]))), Outcome(Fault(read)))
  }

  function DeleteSecret(c: Codec, v: Vault, key: string): (Vault, Result<(), SecretError>) {
    if key == INDEX_KEY then (v, Failure(RESERVED))
    else if Fault(v).Some? then (Called(v), Outcome(Fault(v)))
    else
      var removed := Remove(v, key);
      var index := ReadIndexResult(c, removed);
      if index.Failure? then (Called(removed), Failure(index.error))
      else
        var kept := Without(index.value, key);
        if |kept| == |index.value| then (Called(removed), Success(()))
        else
          var read := Called(removed);
          (Store(read, INDEX_KEY, c.encode(kept)), Outcome(Fault(read)))
  }

  function GetSecret(v: Vault, key: string): (Vault, Result<Option<string>, SecretError>) {
    if key == INDEX_KEY then (v, Failure(RESERVED))
    else (Called(v), if Fault(v).Some? then Failure(MapError(Fault(v).value)) else Success(Lookup(v.entries, key)))
  }

  class KeyringSecretStore {
    const codec: Codec
    const backend: KeyringBackend

    constructor (codec: Codec, backend: KeyringBackend)
      ensures this.codec == codec && this.backend == backend
    {
      this.codec, this.backend := codec, backend;
    }

    method ReadIndex() returns (r: Result<seq<string>, SecretError>)
      modifies backend
      ensures backend.View() == Called(old(backend.View()))
      ensures r == ReadIndexResult(codec, old(backend.View()))
    {
      var raw := backend.GetPassword(INDEX_KEY);
      if raw.Failure? {
        return Failure(MapError(raw.error));
      }
      if raw.value.None? {
        return Success([]);
      }
      var decoded := codec.decode(raw.value.value);
      r := if decoded.Some? then Success(decoded.value) else Failure(CORRUPT);
    }

    method WriteIndex(index: seq<string>) returns (r: Result<(), SecretError>)
      modifies backend
      ensures backend.View() == Store(old(backend.View()), INDEX_KEY, codec.encode(index))
      ensures r == Outcome(Fault(old(backend.View())))
    {
      var error := backend.SetPassword(INDEX_KEY, codec.encode(index));
      r := Outcome(error);
    }

    method Set(key: string, value: string) returns (r: Result<(), SecretError>)
      modifies backend
      ensures (backend.View(), r) == SetSecret(codec, old(backend.View()), key, value)
    {
      if key == INDEX_KEY {
        return Failure(RESERVED);
      }
      var error := backend.SetPassword(key, value);
      if error.Some? {
        return Outcome(error);
      }
      var read := ReadIndex();
      if read.Failure? {
        return Failure(read.error);
      }
      var index := read.value;
      if key in index {
        return Success(());
      }
      index := index + [key];
      index := Sort(index);
      r := WriteIndex(index);
    }

    method Get(key: string) returns (r: Result<Option<string>, SecretError>)
      modifies backend
      ensures (backend.View(), r) == GetSecret(old(backend.View()), key)
    {
      if key == INDEX_KEY {
        return Failure(RESERVED);
      }
      var raw := backend.GetPassword(key);
      r := if raw.Success? then Success(raw.value) else Failure(MapError(raw.error));
    }

    method Delete(key: string) returns (r: Result<(), SecretError>)
      modifies backend
      ensures (backend.View(), r) == DeleteSecret(codec, old(backend.View()), key)
    {
      if key == INDEX_KEY {
        return Failure(RESERVED);
      }
      var error := backend.DeletePassword(key);
      if error.Some? {
        return Outcome(error);
      }
      var read := ReadIndex();
      if read.Failure? {
        return Failure(read.error);
      }
      var index := read.value;
      var originalLen := |index|;
      index := Without(index, key);
      if |index| == originalLen {
        return Success(());
      }
      r := WriteIndex(index);
    }

    method ListKeys() returns (r: Result<seq<string>, SecretError>)
      modifies backend
      ensures backend.View() == Called(old(backend.View()))
      ensures r == ReadIndexResult(codec, old(backend.View()))
    {
      r := ReadIndex();
    }
  }

  // ------------------------------------------------------------------
  // Runs.
  // ------------------------------------------------------------------

  datatype Op = Set(key: string, value: string) | Get(key: string) | Delete(key: string) | ListKeys

  datatype Response =
    | Unit(unit: Result<(), SecretError>)
    | Secret(secret: Result<Option<string>, SecretError>)
    | Keys(keys: Result<seq<string>, SecretError>)

  function Apply(c: Codec, v: Vault, op: Op): (Vault, Response) {
    match op
    case Set(key, value) => var (w, r) := SetSecret(c, v, key, value); (w, Unit(r))
    case Get(key) => var (w, r) := GetSecret(v, key); (w, Secret(r))
    case Delete(key) => var (w, r) := DeleteSecret(c, v, key); (w, Unit(r))
    case ListKeys => (Called(v), Keys(ReadIndexResult(c, v)))
  }

  function Run(c: Codec, faults: seq<Option<BackendError>>, ops: seq<Op>): Vault {
    if ops == [] then Vault(map[], faults) else Apply(c, Run(c, faults, ops[..|ops| - 1]), ops[|ops| - 1]).0
  }

  /** The index is decodable, sorted and free of duplicates. */
  ghost predicate IndexSound(c: Codec, v: Vault) {
    Index(c, v.entries).Some? && StrictlySorted(Index(c, v.entries).value)
  }

  /** The index lists a key without a value, or misses one that has a value. */
  predicate Disagrees(c: Codec, v: Vault, key: string) {
    && key != INDEX_KEY
    && Index(c, v.entries).Some?
    && (key in Index(c, v.entries).value) != (key in v.entries)
  }

  function Elements(l: seq<string>): set<string> {
    set k | k in l
  }

  lemma {:induction false} SortRegisters(index: seq<string>, key: string)
    requires StrictlySorted(index) && key !in index
    ensures var l := Sort(index + [key]);
            StrictlySorted(l) && forall k :: k in l <==> k in index || k == key
  {
    assert Lists(index, Elements(index));
    InsertLists(key, index, Elements(index));
    SortKeepsSorted(index);
    assert (index + [key])[..|index|] == index;
    assert Sort(index + [key]) == Insert(key, index);
  }

  lemma IndexWrite(c: Codec, v: Vault, index: seq<string>)
    requires Lawful(c)
    ensures var w := Store(v, INDEX_KEY, c.encode(index));
            && Index(c, w.entries) == (if Fault(v).Some? then Index(c, v.entries) else Some(index))
            && w.entries - {INDEX_KEY} == v.entries - {INDEX_KEY}
  {}

  /** What a write of `key` (setting it, or deleting it) does, call by call. */
  lemma {:induction false} SetEffect(c: Codec, v: Vault, key: string, value: string)
    requires Lawful(c) && IndexSound(c, v) && key != INDEX_KEY
    ensures var (w, r) := SetSecret(c, v, key, value);
            && IndexSound(c, w)
            && w.entries - {INDEX_KEY} == (if Fault(v).Some? then v.entries else v.entries[key := value]) - {INDEX_KEY}
            && (forall k :: k != key ==> (k in Index(c, w.entries).value <==> k in Index(c, v.entries).value))
            && (r.Success? ==> Fault(v).None? && key in Index(c, w.entries).value)
            && (r.Failure? ==> Index(c, w.entries) == Index(c, v.entries))
  {
    if Fault(v).None? {
      var index := Index(c, v.entries).value;
      var stored := Store(v, key, value);
      assert Index(c, stored.entries) == Index(c, v.entries);
      if key !in index {
        SortRegisters(index, key);
        IndexWrite(c, Called(stored), Sort(index + [key]));
      }
    }
  }

  lemma {:induction false} DeleteEffect(c: Codec, v: Vault, key: string)
    requires Lawful(c) && IndexSound(c, v) && key != INDEX_KEY
    ensures var (w, r) := DeleteSecret(c, v, key);
            && IndexSound(c, w)
            && w.entries - {INDEX_KEY} == (if Fault(v).Some? then v.entries else v.entries - {key}) - {INDEX_KEY}
            && (forall k :: k != key ==> (k in Index(c, w.entries).value <==> k in Index(c, v.entries).value))
            && (r.Success? ==> Fault(v).None? && key !in Index(c, w.entries).value)
            && (r.Failure? ==> Index(c, w.entries) == Index(c, v.entries))
  {
    if Fault(v).None? {
      var index := Index(c, v.entries).value;
      var removed := Remove(v, key);
      assert Index(c, removed.entries) == Index(c, v.entries);
      assert Lists(index, Elements(index));
      WithoutLists(index, key, Elements(index));
      assert forall k :: k in Without(index, key) <==> k in Elements(index) - {key};
      IndexWrite(c, Called(removed), Without(index, key));
    }
  }

  // ------------------------------------------------------------------
  // Without faults the store is a plain ordered map.
  // ------------------------------------------------------------------

  /** The in-memory store: an ordered map. */
  ghost function ApplyMemory(m: map<string, string>, op: Op): (map<string, string>, Response) {
    match op
    case Set(key, value) => (m[key := value], Unit(Success(())))
    case Get(key) => (m, Secret(Success(Lookup(m, key))))
    case Delete(key) => (m - {key}, Unit(Success(())))
    case ListKeys => (m, Keys(Success(SortedKeys(m.Keys))))
  }

  ghost function RunMemory(ops: seq<Op>): map<string, string> {
    if ops == [] then map[] else ApplyMemory(RunMemory(ops[..|ops| - 1]), ops[|ops| - 1]).0
  }

  predicate Touches(op: Op, key: string) {
    !op.ListKeys? && op.key == key
  }

  /** The vault holds the map, and the index lists its keys in order. */
  ghost predicate Represents(c: Codec, v: Vault, m: map<string, string>) {
    && v.faults == []
    && v.entries - {INDEX_KEY} == m
    && Index(c, v.entries).Some?
    && Lists(Index(c, v.entries).value, m.Keys)
  }

  lemma EntriesAndIndex(entries: map<string, string>, key: string, value: string)
    requires key != INDEX_KEY
    ensures entries[key := value] - {INDEX_KEY} == (entries - {INDEX_KEY})[key := value]
    ensures entries - {key} - {INDEX_KEY} == entries - {INDEX_KEY} - {key}
  {}

  lemma FaultFreeWrites(c: Codec, v: Vault, key: string, value: string)
    requires v.faults == [] && key != INDEX_KEY && Index(c, v.entries).Some?
    ensures var (w, r) := SetSecret(c, v, key, value); w.faults == [] && r == Success(())
    ensures var (w, r) := DeleteSecret(c, v, key); w.faults == [] && r == Success(())
  {
    assert Index(c, v.entries[key := value]) == Index(c, v.entries);
    assert Index(c, v.entries - {key}) == Index(c, v.entries);
  }

  lemma {:induction false} SetRefines(c: Codec, v: Vault, m: map<string, string>, key: string, value: string)
    requires Lawful(c) && Represents(c, v, m) && key != INDEX_KEY
    ensures var (w, r) := SetSecret(c, v, key, value);
            Represents(c, w, m[key := value]) && r == Success(())
  {
    var w := SetSecret(c, v, key, value).0;
    FaultFreeWrites(c, v, key, value);
    SetEffect(c, v, key, value);
    EntriesAndIndex(v.entries, key, value);
    var before, now := Index(c, v.entries).value, Index(c, w.entries).value;
    forall k ensures k in now <==> k in m[key := value].Keys {
      assert k != key ==> (k in now <==> k in before);
    }
  }

  lemma {:induction false} DeleteRefines(c: Codec, v: Vault, m: map<string, string>, key: string)
    requires Lawful(c) && Represents(c, v, m) && key != INDEX_KEY
    ensures var (w, r) := DeleteSecret(c, v, key);
            Represents(c, w, m - {key}) && r == Success(())
  {
    var w := DeleteSecret(c, v, key).0;
    FaultFreeWrites(c, v, key, "");
    DeleteEffect(c, v, key);
    EntriesAndIndex(v.entries, key, "");
    var before, now := Index(c, v.entries).value, Index(c, w.entries).value;
    forall k ensures k in now <==> k in (m - {key}).Keys {
      assert k != key ==> (k in now <==> k in before);
    }
  }

  lemma {:induction false} ApplyRefines(c: Codec, v: Vault, m: map<string, string>, op: Op)
    requires Lawful(c) && Represents(c, v, m) && !Touches(op, INDEX_KEY)
    ensures var (w, response) := Apply(c, v, op);
            Represents(c, w, ApplyMemory(m, op).0) && response == ApplyMemory(m, op).1
  {
    match op {
      case Set(key, value) => SetRefines(c, v, m, key, value);
      case Delete(key) => DeleteRefines(c, v, m, key);
      case Get(key) => assert key in v.entries <==> key in v.entries - {INDEX_KEY};
      case ListKeys => ListingIsUnique(Index(c, v.entries).value, SortedKeys(m.Keys), m.Keys);
    }
  }

  lemma {:induction false} RunRepresents(c: Codec, ops: seq<Op>)
    requires Lawful(c) && forall op <- ops :: !Touches(op, INDEX_KEY)
    ensures Represents(c, Run(c, [], ops), RunMemory(ops))
    decreases |ops|
  {
    if ops != [] {
      assert ops[|ops| - 1] in ops;
      RunRepresents(c, ops[..|ops| - 1]);
      ApplyRefines(c, Run(c, [], ops[..|ops| - 1]), RunMemory(ops[..|ops| - 1]), ops[|ops| - 1]);
    }
  }

  /** Without faults every operation of every run that leaves the reserved key
      alone answers as the plain ordered map does, key order included. */
  lemma {:induction false} RefinesOrderedMap(c: Codec, ops: seq<Op>, op: Op)
    requires Lawful(c) && (forall o <- ops :: !Touches(o, INDEX_KEY)) && !Touches(op, INDEX_KEY)
    ensures Apply(c, Run(c, [], ops), op).1 == ApplyMemory(RunMemory(ops), op).1
  {
    RunRepresents(c, ops);
    ApplyRefines(c, Run(c, [], ops), RunMemory(ops), op);
  }

  /** The reserved key is refused, and refusing it touches nothing. */
  lemma ReservedKeyIsRefused(c: Codec, v: Vault, op: Op)
    requires Touches(op, "openspace.__index")
    ensures var refusal := Backend("key \"openspace.__index\" is reserved by KeyringSecretStore");
            Apply(c, v, op) == (v, if op.Get? then Secret(Failure(refusal)) else Unit(Failure(refusal)))
  {}

  // ------------------------------------------------------------------
  // With faults: what each operation answers.
  // ------------------------------------------------------------------

  /** The failure ahead of the call after `n` others. */
  function FaultAt(v: Vault, n: nat): Option<BackendError> {
    if n < |v.faults| then v.faults[n] else None
  }

  /** The caller learns whether the keychain was unreachable, and why the call failed. */
  ghost predicate Reports<T>(r: Result<T, SecretError>, fault: BackendError) {
    match fault
    case Unreachable(reason) => r == Failure(Unavailable(reason))
    case OtherError(reason) => r == Failure(Backend(reason))
  }

  /** A lookup is one call: its failure, or the value as stored. */
  lemma {:induction false} GetAnswers(c: Codec, v: Vault, key: string)
    requires key != "openspace.__index"
    ensures var (w, response) := Apply(c, v, Get(key));
            && w.entries == v.entries
            && match FaultAt(v, 0)
               case Some(Unreachable(reason)) => response == Secret(Failure(Unavailable(reason)))
               case Some(OtherError(reason)) => response == Secret(Failure(Backend(reason)))
               case None => response == Secret(Success(if key in v.entries then Some(v.entries[key]) else None))
  {}

  /** A listing is one call: its failure, or the index as stored, empty at first. */
  lemma {:induction false} ListingAnswers(c: Codec, v: Vault)
    ensures var (w, response) := Apply(c, v, ListKeys);
            && w.entries == v.entries && response.Keys?
            && match FaultAt(v, 0)
               case Some(fault) => Reports(response.keys, fault)
               case None =>
                 if "openspace.__index" !in v.entries then response.keys == Success([])
                 else match c.decode(v.entries["openspace.__index"])
                   case None => response.keys == Failure(Backend("list_keys index decode failed"))
                   case Some(index) => response.keys == Success(index)
  {}

  /** A write answers with the failure of the first of its calls that fails - the value,
      the index read, and the index write when the index has to change - or with the
      decoder's, and with success when none does. */
  ghost predicate Answers(c: Codec, v: Vault, r: Result<(), SecretError>, changes: bool) {
    if FaultAt(v, 0).Some? then Reports(r, FaultAt(v, 0).value)
    else if FaultAt(v, 1).Some? then Reports(r, FaultAt(v, 1).value)
    else if Index(c, v.entries).None? then r == Failure(Backend("list_keys index decode failed"))
    else if changes && FaultAt(v, 2).Some? then Reports(r, FaultAt(v, 2).value)
    else r == Success(())
  }

  lemma {:induction false} SetAnswers(c: Codec, v: Vault, key: string, value: string)
    requires key != "openspace.__index"
    ensures var response := Apply(c, v, Set(key, value)).1;
            var index := Index(c, v.entries);
            response.Unit? && Answers(c, v, response.unit, index.Some? && key !in index.value)
  {
    FaultsInTurn(v);
    if Fault(v).None? {
      assert Index(c, Store(v, key, value).entries) == Index(c, v.entries);
    }
  }

  /** The value is written or removed exactly when its own call goes through. */
  lemma {:induction false} WritesItsValue(c: Codec, v: Vault, op: Op)
    requires Writes(op)
    ensures Lookup(Apply(c, v, op).0.entries, op.key)
         == if FaultAt(v, 0).Some? then Lookup(v.entries, op.key) else if op.Set? then Some(op.value) else None
  {
    if Fault(v).None? {
      var stored := if op.Set? then Store(v, op.key, op.value) else Remove(v, op.key);
      var index := ReadIndexResult(c, stored);
      if index.Success? {
        OtherEntriesStay(Called(stored), c.encode(Sort(index.value + [op.key])), op.key);
        OtherEntriesStay(Called(stored), c.encode(Without(index.value, op.key)), op.key);
      }
    }
  }

  lemma FaultsInTurn(v: Vault)
    ensures Fault(v) == FaultAt(v, 0) && Fault(Called(v)) == FaultAt(v, 1) && Fault(Called(Called(v))) == FaultAt(v, 2)
  {}

  lemma OtherEntriesStay(v: Vault, text: string, key: string)
    requires key != INDEX_KEY
    ensures Lookup(Store(v, INDEX_KEY, text).entries, key) == Lookup(v.entries, key)
  {}

  lemma {:induction false} DeleteAnswers(c: Codec, v: Vault, key: string)
    requires key != "openspace.__index"
    ensures var response := Apply(c, v, Delete(key)).1;
            var index := Index(c, v.entries);
            response.Unit? && Answers(c, v, response.unit, index.Some? && key in index.value)
  {
    FaultsInTurn(v);
    assert Index(c, v.entries - {key}) == Index(c, v.entries);
    if Index(c, v.entries).Some? {
      WithoutShrinks(Index(c, v.entries).value, key);
    }
  }

  lemma {:induction false} WithoutShrinks(index: seq<string>, key: string)
    ensures |Without(index, key)| <= |index|
    ensures |Without(index, key)| == |index| <==> key !in index
    decreases |index|
  {
    if index != [] {
      WithoutShrinks(index[1..], key);
      assert key in index <==> key == index[0] || key in index[1..];
    }
  }

  // ------------------------------------------------------------------
  // With faults: exactly which keys can drift.
  // ------------------------------------------------------------------

  /** The keys whose most recent `set` or `delete` returned an error. */
  function Failed(c: Codec, faults: seq<Option<BackendError>>, ops: seq<Op>): set<string> {
    if ops == [] then {}
    else
      var before, op := ops[..|ops| - 1], ops[|ops| - 1];
      var response := Apply(c, Run(c, faults, before), op).1;
      if !(op.Set? || op.Delete?) || op.key == INDEX_KEY then Failed(c, faults, before)
      else if response.unit.Failure? then Failed(c, faults, before) + {op.key}
      else Failed(c, faults, before) - {op.key}
  }

  /** Whatever calls fail, over any run: the index stays sorted and free of
      duplicates, and it disagrees with the stored values only on keys whose most
      recent `set` or `delete` returned an error. */
  lemma {:induction false} DriftIsBounded(c: Codec, faults: seq<Option<BackendError>>, ops: seq<Op>)
    requires Lawful(c)
    ensures var v := Run(c, faults, ops);
            IndexSound(c, v) && forall key :: Disagrees(c, v, key) ==> key in Failed(c, faults, ops)
    decreases |ops|
  {
    RunIsSound(c, faults, ops);
    if ops != [] {
      var before, op := ops[..|ops| - 1], ops[|ops| - 1];
      var v := Run(c, faults, before);
      DriftIsBounded(c, faults, before);
      if Writes(op) && Apply(c, v, op).1.unit.Success? {
        SuccessReconciles(c, v, op);
      }
      forall key | !Writes(op) || key != op.key
        ensures Disagrees(c, Apply(c, v, op).0, key) ==> key in Failed(c, faults, before)
      {
        OthersKeepTheirAgreement(c, v, op, key);
      }
    }
  }

  /** A successful write of a key reconciles it, whatever drift there was. */
  lemma {:induction false} SuccessReconciles(c: Codec, v: Vault, op: Op)
    requires Lawful(c) && IndexSound(c, v) && (op.Set? || op.Delete?) && op.key != INDEX_KEY
    requires Apply(c, v, op).1.unit.Success?
    ensures var w := Apply(c, v, op).0;
            && !Disagrees(c, w, op.key)
            && Lookup(w.entries, op.key) == (if op.Set? then Some(op.value) else None)
  {
    var w := Apply(c, v, op).0;
    if op.Set? {
      SetEffect(c, v, op.key, op.value);
    } else {
      DeleteEffect(c, v, op.key);
    }
    assert Lookup(w.entries, op.key) == Lookup(w.entries - {INDEX_KEY}, op.key);
  }

  predicate Writes(op: Op) {
    (op.Set? || op.Delete?) && op.key != INDEX_KEY
  }

  /** Whether the faults ahead leave the key of a write in disagreement: a failing
      value call changes nothing; otherwise the index has to change when it lists
      the key and should not, or should and does not, and then both the index read
      and the index write have to go through. */
  predicate FaultsLeaveDrift(c: Codec, v: Vault, op: Op)
    requires Writes(op) && Index(c, v.entries).Some?
  {
    var listed := op.key in Index(c, v.entries).value;
    if Fault(v).Some? then Disagrees(c, v, op.key)
    else listed != op.Set? && (Fault(Called(v)).Some? || Fault(Called(Called(v))).Some?)
  }

  lemma {:induction false} SetDriftsExactlyWhen(c: Codec, v: Vault, op: Op)
    requires Lawful(c) && IndexSound(c, v) && Writes(op) && op.Set?
    ensures Disagrees(c, Apply(c, v, op).0, op.key) <==> FaultsLeaveDrift(c, v, op)
  {
    var w := SetSecret(c, v, op.key, op.value).0;
    SetEffect(c, v, op.key, op.value);
    SameKeys(v.entries, v.entries, op.key);
    SameKeys(w.entries, if Fault(v).Some? then v.entries else v.entries[op.key := op.value], op.key);
    assert Index(c, Store(v, op.key, op.value).entries) == Index(c, v.entries);
  }

  lemma {:induction false} DeleteDriftsExactlyWhen(c: Codec, v: Vault, op: Op)
    requires Lawful(c) && IndexSound(c, v) && Writes(op) && op.Delete?
    ensures Disagrees(c, Apply(c, v, op).0, op.key) <==> FaultsLeaveDrift(c, v, op)
  {
    var w := DeleteSecret(c, v, op.key).0;
    var index := Index(c, v.entries).value;
    DeleteEffect(c, v, op.key);
    assert Lists(index, Elements(index));
    WithoutLists(index, op.key, Elements(index));
    SameKeys(w.entries, if Fault(v).Some? then v.entries else v.entries - {op.key}, op.key);
    assert Index(c, Remove(v, op.key).entries) == Index(c, v.entries);
  }

  lemma SameKeys(a: map<string, string>, b: map<string, string>, key: string)
    requires a - {INDEX_KEY} == b - {INDEX_KEY} && key != INDEX_KEY
    ensures key in a <==> key in b
  {
    assert key in a <==> key in a - {INDEX_KEY};
    assert key in b <==> key in b - {INDEX_KEY};
  }

  /** From any sound state, drifted or not, a write leaves its key in disagreement
      exactly when the faults ahead of its three calls say so. */
  lemma {:induction false} DriftsExactlyWhen(c: Codec, v: Vault, op: Op)
    requires Lawful(c) && IndexSound(c, v) && Writes(op)
    ensures Disagrees(c, Apply(c, v, op).0, op.key) <==> FaultsLeaveDrift(c, v, op)
  {
    if op.Set? {
      SetDriftsExactlyWhen(c, v, op);
    } else {
      DeleteDriftsExactlyWhen(c, v, op);
    }
  }

  /** No operation touches the agreement of any other key, nor a sound index. */
  lemma {:induction false} OthersKeepTheirAgreement(c: Codec, v: Vault, op: Op, key: string)
    requires Lawful(c) && IndexSound(c, v) && (Writes(op) ==> op.key != key)
    ensures IndexSound(c, Apply(c, v, op).0)
    ensures Disagrees(c, Apply(c, v, op).0, key) <==> Disagrees(c, v, key)
  {
    if Writes(op) && key != INDEX_KEY {
      var w := Apply(c, v, op).0;
      if op.Set? {
        SetEffect(c, v, op.key, op.value);
        SameKeys(w.entries, if Fault(v).Some? then v.entries else v.entries[op.key := op.value], key);
      } else {
        DeleteEffect(c, v, op.key);
        SameKeys(w.entries, if Fault(v).Some? then v.entries else v.entries - {op.key}, key);
      }
    } else if Writes(op) {
      IndexStaysSound(c, v, op);
    }
  }

  lemma {:induction false} IndexStaysSound(c: Codec, v: Vault, op: Op)
    requires Lawful(c) && IndexSound(c, v)
    ensures IndexSound(c, Apply(c, v, op).0)
  {
    if Writes(op) {
      if op.Set? {
        SetEffect(c, v, op.key, op.value);
      } else {
        DeleteEffect(c, v, op.key);
      }
    }
  }

  lemma {:induction false} RunIsSound(c: Codec, faults: seq<Option<BackendError>>, ops: seq<Op>)
    requires Lawful(c)
    ensures IndexSound(c, Run(c, faults, ops))
    decreases |ops|
  {
    if ops != [] {
      RunIsSound(c, faults, ops[..|ops| - 1]);
      IndexStaysSound(c, Run(c, faults, ops[..|ops| - 1]), ops[|ops| - 1]);
    }
  }

  /** The keys whose latest write met faults that leave it in disagreement. */
  ghost function Drifted(c: Codec, faults: seq<Option<BackendError>>, ops: seq<Op>): set<string>
    requires Lawful(c)
  {
    if ops == [] then {}
    else
      var before, op := ops[..|ops| - 1], ops[|ops| - 1];
      RunIsSound(c, faults, before);
      if !Writes(op) then Drifted(c, faults, before)
      else if FaultsLeaveDrift(c, Run(c, faults, before), op) then Drifted(c, faults, before) + {op.key}
      else Drifted(c, faults, before) - {op.key}
  }

  /** Over any run with any failing calls: the index stays sorted and free of
      duplicates, and the keys on which it disagrees with the stored values are
      exactly those. */
  lemma {:induction false} DriftIsExactly(c: Codec, faults: seq<Option<BackendError>>, ops: seq<Op>)
    requires Lawful(c)
    ensures var v := Run(c, faults, ops);
            IndexSound(c, v) && forall key :: Disagrees(c, v, key) <==> key in Drifted(c, faults, ops)
    decreases |ops|
  {
    RunIsSound(c, faults, ops);
    if ops != [] {
      var before, op := ops[..|ops| - 1], ops[|ops| - 1];
      var v := Run(c, faults, before);
      DriftIsExactly(c, faults, before);
      if Writes(op) {
        DriftsExactlyWhen(c, v, op);
      }
      forall key | !Writes(op) || key != op.key
        ensures Disagrees(c, Apply(c, v, op).0, key) <==> key in Drifted(c, faults, before)
      {
        OthersKeepTheirAgreement(c, v, op, key);
      }
    }
  }

  /** A `set` never leaves the index advertising a key without a value. */
  lemma {:induction false} SetNeverAdvertisesInVain(c: Codec, v: Vault, key: string, value: string)
    requires Lawful(c) && IndexSound(c, v) && key != INDEX_KEY
    requires key in Index(c, v.entries).value ==> key in v.entries
    ensures var w := SetSecret(c, v, key, value).0;
            key in Index(c, w.entries).value ==> key in w.entries
  {
    SetEffect(c, v, key, value);
    var w := SetSecret(c, v, key, value).0;
    assert key in w.entries <==> key in w.entries - {INDEX_KEY};
    assert key in v.entries <==> key in v.entries - {INDEX_KEY};
  }

  /** A `delete` can: the value goes, the index write fails, the key stays listed. */
  lemma {:induction false} DeleteCanAdvertiseInVain(c: Codec, v: Vault, key: string, e: BackendError)
    requires Lawful(c) && key != INDEX_KEY && v.faults == [None, None, Some(e)]
    requires key in v.entries && Index(c, v.entries) == Some([key])
    ensures var (w, r) := DeleteSecret(c, v, key);
            && r == Failure(MapError(e))
            && key !in w.entries && key in Index(c, w.entries).value
  {
    var removed := Remove(v, key);
    assert Index(c, removed.entries) == Index(c, v.entries);
    assert removed.faults == [None, Some(e)] && Called(removed).faults == [Some(e)];
    assert [key][1..] == [];
    assert Without([key], key) == [];
  }
}
