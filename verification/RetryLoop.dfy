/**
 The write-transaction loop: a transaction that meets a busy database is tried
 again after a growing pause, within a time budget. Durations are nanoseconds.
 */
module RetryLoop {
  import opened Prelude

  const MILLISECOND: nat := 1_000_000
  const WRITE_RETRY_BUDGET: nat := 5_000 * MILLISECOND
  const WRITE_RETRY_INITIAL_BACKOFF: nat := 10 * MILLISECOND
  const WRITE_RETRY_MAX_BACKOFF: nat := 250 * MILLISECOND

  // ------------------------------------------------------------------
  // Errors.
  // ------------------------------------------------------------------

  datatype Code = DatabaseBusy | DatabaseLockedCode | ConstraintViolation | OtherCode

  datatype SqlError =
    | SqliteFailure(code: Code, detail: string)
    | InvalidParameterName(message: string)
    | OtherError(text: string)

  datatype PersistenceError =
    | NotFound(message: string)
    | ConflictingWrite(message: string)
    | DatabaseLocked(detail: string)
    | IoError(detail: string)

  predicate IsBusy(e: SqlError) {
    e.SqliteFailure? && (e.code.DatabaseBusy? || e.code.DatabaseLockedCode?)
  }

  function TrimStartMatches(s: string, prefix: string): string
    requires prefix != ""
    decreases |s|
  {
    if prefix <= s then TrimStartMatches(s[|prefix|..], prefix) else s
  }

  function MapSqlError(e: SqlError): PersistenceError {
    match e
    case InvalidParameterName(message) =>
      if "not found:" <= message then NotFound(TrimStartMatches(message, "not found: "))
      else if "conflict:" <= message then ConflictingWrite(TrimStartMatches(message, "conflict: "))
      else IoError(message)
    case SqliteFailure(code, detail) =>
      (match code
       case DatabaseBusy => DatabaseLocked(detail)
       case DatabaseLockedCode => DatabaseLocked(detail)
       case ConstraintViolation => ConflictingWrite(detail)
       case OtherCode => IoError(detail))
    case OtherError(text) => IoError(text)
  }

  function NotFoundError(message: string): SqlError {
    InvalidParameterName("not found: " + message)
  }

  function ConflictError(message: string): SqlError {
    InvalidParameterName("conflict: " + message)
  }

  lemma {:induction false} TrimShortens(s: string, prefix: string)
    requires prefix != ""
    ensures |TrimStartMatches(s, prefix)| <= |s|
    decreases |s|
  {
    if prefix <= s {
      TrimShortens(s[|prefix|..], prefix);
    }
  }

  /** A repository's "not found" and "conflict" errors reach the caller with their
      message exactly when the message does not itself start with the marker. */
  lemma {:induction false} MarkedErrorsArriveExactlyWhen(message: string)
    ensures MapSqlError(NotFoundError(message)) == NotFound(message) <==> !("not found: " <= message)
    ensures MapSqlError(ConflictError(message)) == ConflictingWrite(message) <==> !("conflict: " <= message)
  {
    MarkerIsTrimmedOnce("not found: ", message);
    MarkerIsTrimmedOnce("conflict: ", message);
    assert "not found:" <= "not found: " <= "not found: " + message;
    assert "conflict:" <= "conflict: " <= "conflict: " + message;
    assert ("conflict: " + message)[0] != "not found:"[0];
  }

  /** Any such message loses its own marker on the way. */
  lemma {:induction false} StutteredMarkerIsLost(message: string)
    requires !("not found: " <= message)
    ensures MapSqlError(NotFoundError("not found: " + message)) == NotFound(message)
  {
    var marker := "not found: ";
    var once := marker + message;
    assert "not found:" <= marker <= marker + once;
    assert marker <= once && once[|marker|..] == message;
    assert marker <= marker + once && (marker + once)[|marker|..] == once;
    assert TrimStartMatches(once, marker) == TrimStartMatches(message, marker) == message;
  }

  lemma {:induction false} MarkerIsTrimmedOnce(marker: string, message: string)
    requires marker != ""
    ensures TrimStartMatches(marker + message, marker) == message <==> !(marker <= message)
  {
    assert marker <= marker + message && (marker + message)[|marker|..] == message;
    if marker <= message {
      TrimShortens(message[|marker|..], marker);
    }
  }

  function Copies(marker: string, n: nat): string {
    if n == 0 then "" else marker + Copies(marker, n - 1)
  }

  lemma {:induction false} TrimsEveryCopy(marker: string, n: nat, message: string)
    requires marker != "" && !(marker <= message)
    ensures TrimStartMatches(Copies(marker, n) + message, marker) == message
  {
    if n == 0 {
      assert "" + message == message;
    } else {
      var rest := Copies(marker, n - 1) + message;
      assert Copies(marker, n) + message == marker + rest && (marker + rest)[|marker|..] == rest;
      TrimsEveryCopy(marker, n - 1, message);
    }
  }

  /** What every error is for the caller: a message of neither kind and an unknown code
      are I/O errors, busy and locked alike are a locked database, and a marked message
      comes without any of its leading markers. */
  lemma {:induction false} ErrorsAre(e: SqlError, n: nat, message: string)
    ensures match e
            case SqliteFailure(DatabaseBusy, detail) => MapSqlError(e) == DatabaseLocked(detail)
            case SqliteFailure(DatabaseLockedCode, detail) => MapSqlError(e) == DatabaseLocked(detail)
            case SqliteFailure(ConstraintViolation, detail) => MapSqlError(e) == ConflictingWrite(detail)
            case SqliteFailure(OtherCode, detail) => MapSqlError(e) == IoError(detail)
            case InvalidParameterName(text) =>
              && (!("not found:" <= text) && !("conflict:" <= text) ==> MapSqlError(e) == IoError(text))
              && ("not found:" <= text == Copies("not found: ", n) + message && !("not found: " <= message) ==>
                    MapSqlError(e) == NotFound(message))
              && ("conflict:" <= text == Copies("conflict: ", n) + message && !("conflict: " <= message) ==>
                    MapSqlError(e) == ConflictingWrite(message))
            case OtherError(text) => MapSqlError(e) == IoError(text)
  {
    if e.InvalidParameterName? {
      if !("not found: " <= message) {
        TrimsEveryCopy("not found: ", n, message);
      }
      if !("conflict: " <= message) {
        TrimsEveryCopy("conflict: ", n, message);
      }
      assert "conflict:" <= e.message ==> e.message[0] == 'c';
      assert "not found:" <= e.message ==> e.message[0] == 'n';
    }
  }

  // ------------------------------------------------------------------
  // The loop.
  // ------------------------------------------------------------------

  /** What one attempt meets: the other writers' effect since the last attempt,
      whether beginning and committing fail, how long it takes and by how much
      the pause after it overruns. */
  datatype Attempt<!S> = Attempt(
    others: S -> S,
    begin: Option<SqlError>,
    commit: Option<SqlError>,
    took: nat,
    overslept: nat)

  /** The caller's closure: an output and the changed database, or an error. */
  type Operation<!S, +T> = S -> Result<(T, S), SqlError>

  /** One transaction on the state it finds; a failing one has no effect. */
  function Transact<S, T>(op: Operation<S, T>, a: Attempt<S>, state: S): Result<(T, S), SqlError> {
    if a.begin.Some? then Failure(a.begin.value)
    else if op(state).Failure? then op(state)
    else if a.commit.Some? then Failure(a.commit.value)
    else op(state)
  }

  class Database<S> {
    var state: S

    constructor (state: S)
      ensures this.state == state
    {
      this.state := state;
    }
  }

  /** The state attempt `i` finds when nothing was committed here before it. */
  function Found<S>(env: nat -> Attempt<S>, start: S, i: nat): S {
    env(i).others(if i == 0 then start else Found(env, start, i - 1))
  }

  function Outcome<S, T>(op: Operation<S, T>, env: nat -> Attempt<S>, start: S, i: nat): Result<(T, S), SqlError> {
    Transact(op, env(i), Found(env, start, i))
  }

  function Min(a: nat, b: nat): nat {
    if a <= b then a else b
  }

  function Backoff(i: nat): nat {
    if i == 0 then WRITE_RETRY_INITIAL_BACKOFF else Min(Backoff(i - 1) * 2, WRITE_RETRY_MAX_BACKOFF)
  }

  /** The clock when attempt `i` starts, and when it has ended. */
  function StartOf<S>(env: nat -> Attempt<S>, i: nat): nat
    decreases i, 0
  {
    if i == 0 then 0 else EndOf(env, i - 1) + Backoff(i - 1) + env(i - 1).overslept
  }

  function EndOf<S>(env: nat -> Attempt<S>, i: nat): nat
    decreases i, 1
  {
    StartOf(env, i) + env(i).took
  }

  /** Attempt `i` is followed by a pause and another attempt. */
  predicate Retried<S, T>(op: Operation<S, T>, env: nat -> Attempt<S>, start: S, i: nat) {
    var outcome := Outcome(op, env, start, i);
    outcome.Failure? && IsBusy(outcome.error) && EndOf(env, i) < WRITE_RETRY_BUDGET
  }

  /** So are all attempts before attempt `n`. */
  predicate AllRetried<S, T>(op: Operation<S, T>, env: nat -> Attempt<S>, start: S, n: nat) {
    n == 0 || (AllRetried(op, env, start, n - 1) && Retried(op, env, start, n - 1))
  }

  /** An attempt succeeds exactly when beginning, operation and commit do, and fails with
      the first of the three that does not. */
  lemma {:induction false} FirstFailureDecides<S(!new), T>(op: Operation<S, T>, a: Attempt<S>, state: S)
    ensures var r := Transact(op, a, state);
            && (r.Success? <==> a.begin == None && op(state).Success? && a.commit == None)
            && (r.Success? ==> r == op(state))
            && (forall e :: a.begin == Some(e) ==> r == Failure(e))
            && (a.begin == None && op(state).Failure? ==> r == Failure(op(state).error))
            && (forall e :: a.begin == None && op(state).Success? && a.commit == Some(e) ==> r == Failure(e))
  {}

  /** Attempt `i` finds what the other writers have made of the start, one after another. */
  lemma {:induction false} FoundIsTheirWork<S(!new)>(env: nat -> Attempt<S>, start: S, states: seq<S>, i: nat)
    requires i + 1 < |states| && states[0] == start
    requires forall k: nat :: k + 1 < |states| ==> states[k + 1] == env(k).others(states[k])
    ensures Found(env, start, i) == states[i + 1]
  {
    assert states[i + 1] == env(i).others(states[i]);
    if i > 0 {
      FoundIsTheirWork(env, start, states, i - 1);
    }
  }

  /** What attempts and overruns of the pauses have taken before attempt `i`. */
  function Spent<S>(env: nat -> Attempt<S>, i: nat): nat {
    if i == 0 then 0 else Spent(env, i - 1) + env(i - 1).took + env(i - 1).overslept
  }

  lemma {:induction false} ClockIs<S>(env: nat -> Attempt<S>, i: nat)
    ensures StartOf(env, i) == Spent(env, i) + Paused(i)
  {
    if i > 0 {
      ClockIs(env, i - 1);
    }
  }

  /** Another attempt follows exactly when one met a busy or locked database and ended
      within five seconds: of the pauses before it, of 10, 20, 40, 80, 160 and from then
      on 250 milliseconds, and of what attempts and overruns took. */
  lemma {:induction false} RetriedExactlyWhen<S(!new), T>(op: Operation<S, T>, env: nat -> Attempt<S>, start: S, i: nat)
    ensures var pauses := if i == 0 then 0 else if i == 1 then 10 else if i == 2 then 30 else if i == 3 then 70
                          else if i == 4 then 150 else 310 + 250 * (i - 5);
            var outcome := Outcome(op, env, start, i);
            Retried(op, env, start, i) <==>
              && (exists detail :: outcome == Failure(SqliteFailure(DatabaseBusy, detail))
                                   || outcome == Failure(SqliteFailure(DatabaseLockedCode, detail)))
              && Spent(env, i) + env(i).took + 1_000_000 * pauses < 5_000_000_000
  {
    ClockIs(env, i);
    PausesAre(i);
    var outcome := Outcome(op, env, start, i);
    if outcome.Failure? && IsBusy(outcome.error) {
      assert outcome == Failure(SqliteFailure(outcome.error.code, outcome.error.detail));
    }
  }

  lemma {:induction false} PausesAre(i: nat)
    ensures i == 0 ==> Paused(i) == 0
    ensures i == 1 ==> Paused(i) == 10_000_000
    ensures i == 2 ==> Paused(i) == 30_000_000
    ensures i == 3 ==> Paused(i) == 70_000_000
    ensures i == 4 ==> Paused(i) == 150_000_000
    ensures i >= 5 ==> Paused(i) == 310_000_000 + (i - 5) * 250_000_000
  {
    if i >= 5 {
      BackoffReachesItsCap(i);
    } else {
      assert Backoff(1) == 20 * MILLISECOND && Backoff(2) == 40 * MILLISECOND && Backoff(3) == 80 * MILLISECOND;
      assert Paused(1) == 10 * MILLISECOND && Paused(2) == 30 * MILLISECOND && Paused(3) == 70 * MILLISECOND;
    }
  }

  /** Begin, run the closure on the transaction's own copy, commit. */
  method TryOnce<S, T>(db: Database<S>, op: Operation<S, T>, a: Attempt<S>) returns (r: Result<T, SqlError>)
    modifies db
    ensures match Transact(op, a, old(db.state))
            case Success((output, after)) => r == Success(output) && db.state == after
            case Failure(e) => r == Failure(e) && db.state == old(db.state)
  {
    if a.begin.Some? {
      return Failure(a.begin.value);
    }
    var done := op(db.state);
    if done.Failure? {
      return Failure(done.error);
    }
    if a.commit.Some? {
      return Failure(a.commit.value);
    }
    db.state := done.value.1;
    return Success(done.value.0);
  }

  /** Runs the loop against whatever `env` brings. It returns after attempt `last`,
      having paused `last` times: every attempt before that one was busy and within
      the budget, and it is not. On success the operation has been applied once, to
      the state that attempt found; on failure only other writers have written. */
  method WriteTransaction<S, T>(db: Database<S>, op: Operation<S, T>, env: nat -> Attempt<S>)
    returns (r: Result<T, PersistenceError>, last: nat)
    modifies db
    ensures last <= 24
    ensures AllRetried(op, env, old(db.state), last)
    ensures !Retried(op, env, old(db.state), last)
    ensures match Outcome(op, env, old(db.state), last)
            case Success((output, after)) => r == Success(output) && db.state == after
            case Failure(e) => r == Failure(MapSqlError(e)) && db.state == Found(env, old(db.state), last)
  {
    var clock, backoff := 0, WRITE_RETRY_INITIAL_BACKOFF;
    last := 0;
    ghost var start := db.state;
    while true
      invariant AllRetried(op, env, start, last)
      invariant clock == StartOf(env, last) && backoff == Backoff(last)
      invariant last > 0 ==> db.state == Found(env, start, last - 1)
      invariant last == 0 ==> db.state == start
      invariant last <= 24
      decreases 24 - last
    {
      var attempt := env(last);
      db.state := attempt.others(db.state);
      var result := TryOnce(db, op, attempt);
      clock := clock + attempt.took;
      if result.Success? {
        return Success(result.value), last;
      }
      if IsBusy(result.error) && clock < WRITE_RETRY_BUDGET {
        clock := clock + backoff + attempt.overslept;
        backoff := Min(backoff * 2, WRITE_RETRY_MAX_BACKOFF);
        PausesAreBounded(env, last);
        last := last + 1;
      } else {
        return Failure(MapSqlError(result.error)), last;
      }
    }
  }

  // ------------------------------------------------------------------
  // At most 24 pauses.
  // ------------------------------------------------------------------

  /** The time requested by the first `n` pauses. */
  function Paused(n: nat): nat {
    if n == 0 then 0 else Paused(n - 1) + Backoff(n - 1)
  }

  lemma {:induction false} BackoffReachesItsCap(i: nat)
    requires i >= 5
    ensures Backoff(i) == WRITE_RETRY_MAX_BACKOFF
    ensures Paused(i) == 310 * MILLISECOND + (i - 5) * WRITE_RETRY_MAX_BACKOFF
  {
    if i == 5 {
      assert Backoff(1) == 20 * MILLISECOND && Backoff(2) == 40 * MILLISECOND;
      assert Backoff(3) == 80 * MILLISECOND && Backoff(4) == 160 * MILLISECOND;
      assert Paused(1) == 10 * MILLISECOND && Paused(2) == 30 * MILLISECOND;
      assert Paused(3) == 70 * MILLISECOND && Paused(4) == 150 * MILLISECOND;
    } else {
      BackoffReachesItsCap(i - 1);
    }
  }

  lemma {:induction false} BudgetIsSpentAt24()
    ensures Paused(23) < WRITE_RETRY_BUDGET <= Paused(24)
  {
    BackoffReachesItsCap(23);
    BackoffReachesItsCap(24);
  }

  lemma {:induction false} ClockCoversPauses<S>(env: nat -> Attempt<S>, i: nat)
    ensures StartOf(env, i) >= Paused(i)
  {
    if i > 0 {
      ClockCoversPauses(env, i - 1);
    }
  }

  lemma {:induction false} PausedGrows(i: nat, j: nat)
    requires i <= j
    ensures Paused(i) <= Paused(j)
    decreases j - i
  {
    if i < j {
      PausedGrows(i, j - 1);
    }
  }

  /** After 24 pauses the budget is spent, however short the attempts were. */
  lemma {:induction false} PausesAreBounded<S>(env: nat -> Attempt<S>, i: nat)
    requires EndOf(env, i) < WRITE_RETRY_BUDGET
    ensures i < 24
  {
    if i >= 24 {
      ClockCoversPauses(env, i);
      PausedGrows(24, i);
      BudgetIsSpentAt24();
    }
  }

  /** An always busy database with instantaneous attempts and exact pauses. */
  function AlwaysBusy(detail: string): nat -> Attempt<int> {
    i => Attempt(s => s, Some(SqliteFailure(DatabaseBusy, detail)), None, 0, 0)
  }

  lemma {:induction false} BusyClock(detail: string, i: nat)
    ensures StartOf(AlwaysBusy(detail), i) == EndOf(AlwaysBusy(detail), i) == Paused(i)
  {
    if i > 0 {
      BusyClock(detail, i - 1);
    }
  }

  /** The bound is met: against it exactly 24 pauses happen, and the call fails. */
  lemma {:induction false} BoundIsTight<T>(op: Operation<int, T>, detail: string, start: int)
    ensures AllRetried(op, AlwaysBusy(detail), start, 24)
    ensures !Retried(op, AlwaysBusy(detail), start, 24)
  {
    BudgetIsSpentAt24();
    BusyIsRetried(op, detail, start, 24);
    BusyClock(detail, 24);
  }

  lemma {:induction false} BusyIsRetried<T>(op: Operation<int, T>, detail: string, start: int, n: nat)
    requires n <= 24
    ensures AllRetried(op, AlwaysBusy(detail), start, n)
  {
    if n > 0 {
      BusyIsRetried(op, detail, start, n - 1);
      BusyClock(detail, n - 1);
      PausedGrows(n - 1, 23);
      BudgetIsSpentAt24();
    }
  }
}
