/**
 * `useAutoMigration`: on start-up the client asks the server whether the
 * `client_id` migration is complete and, if not, runs it; a completed
 * migration is remembered in `localStorage` for 24 hours so that later
 * start-ups skip the server.
 */
module AutoMigration {
  import opened Wrappers
  import opened Schema
  import MigrationStatus
  import ServerDb

  const CacheKey: string := "baby-tracker-migration-status"

  /** 24 hours, in milliseconds. */
  const CacheDuration: int := 24 * 60 * 60 * 1000

  /**
   * What `JSON.parse` makes of a stored cache entry: a status and a numeric
   * timestamp, or anything else (text that does not parse, or parses to
   * something without those fields).
   */
  datatype CacheEntry = Entry(status: string, timestamp: Time) | Unreadable

  /** `localStorage`, as far as this composable uses it. */
  type Cache = map<string, CacheEntry>

  /** `isMigrationRecentlyCompleted` at clock reading `now`. */
  predicate RecentlyCompleted(cache: Cache, now: Time) {
    && CacheKey in cache
    && cache[CacheKey].Entry?
    && cache[CacheKey].status == "complete"
    && now - cache[CacheKey].timestamp < CacheDuration
  }

  /** `cacheMigrationStatus(status)` at clock reading `now`. */
  function CacheStatus(cache: Cache, status: string, now: Time): (c: Cache)
    ensures CacheKey in c && c[CacheKey] == Entry(status, now)
    ensures forall k :: k != CacheKey ==> (k in c <==> k in cache)
    ensures forall k :: k in cache && k != CacheKey ==> c[k] == cache[k]
  {
    cache[CacheKey := Entry(status, now)]
  }

  /** `clearMigrationCache`. */
  function ClearCache(cache: Cache): (c: Cache)
    ensures CacheKey !in c
    ensures forall k :: k != CacheKey ==> (k in c <==> k in cache)
    ensures forall k :: k in c ==> c[k] == cache[k]
  {
    cache - {CacheKey}
  }

  /**
   * A cached `'complete'` counts as recent exactly for less than 24 hours
   * after it was written; a cached other status never does; and other
   * keys of the storage play no part.
   */
  lemma CacheWindow(cache: Cache, status: string, written: Time, now: Time)
    ensures RecentlyCompleted(CacheStatus(cache, status, written), now) <==> status == "complete" && now - written < CacheDuration
  {
  }

  /** After `clearMigrationCache` no start-up counts the migration as recent. */
  lemma ClearedNotRecent(cache: Cache, now: Time)
    ensures !RecentlyCompleted(ClearCache(cache), now)
  {
  }

  /** Whether an entry is recent only gets less likely as the clock advances. */
  lemma RecentEarlier(cache: Cache, now: Time, earlier: Time)
    requires earlier <= now && RecentlyCompleted(cache, now)
    ensures RecentlyCompleted(cache, earlier)
  {
  }

  /**
   * How a `fetch` of GET /api/feedings/migration-status ends: with the
   * handler's result (its error becomes the h3 error body, which has no
   * `success` field), or with an exception (network failure or a body
   * that is not JSON), which `checkMigrationStatus` catches.
   */
  datatype StatusAnswer = StatusAnswered(result: Result<MigrationStatus.StatusReply, HttpError>) | StatusUnreachable

  /** The object `checkMigrationStatus` returns; the record counts are absent from the two fallback objects. */
  datatype StatusCheck = StatusCheck(
    needsMigration: bool,
    status: string,
    progress: nat,
    totalRecords: Option<nat>,
    migratedRecords: Option<nat>)

  /** `checkMigrationStatus`: the `|| 0` defaults apply to the missing `progress_percentage`. */
  function CheckMigrationStatus(answer: StatusAnswer): StatusCheck {
    match answer
    case StatusAnswered(Ok(reply)) =>
      StatusCheck(
        MigrationStatus.StatusName(reply.status) != "complete",
        MigrationStatus.StatusName(reply.status),
        reply.progress.GetOr(0),
        Some(reply.total),
        Some(reply.migrated))
    case StatusAnswered(Err(_)) => StatusCheck(true, "unknown", 0, None, None)
    case StatusUnreachable => StatusCheck(true, "error", 0, None, None)
  }

  /**
   * A migration is needed unless the server answers with status
   * `complete`; an error reply gives `'unknown'` and an exception `'error'`,
   * both with progress 0.
   */
  lemma CheckFacts(answer: StatusAnswer)
    ensures !CheckMigrationStatus(answer).needsMigration <==>
      answer.StatusAnswered? && answer.result.Ok? && answer.result.value.status == MigrationStatus.Complete
    ensures answer.StatusAnswered? && answer.result.Err? ==> CheckMigrationStatus(answer) == StatusCheck(true, "unknown", 0, None, None)
    ensures answer.StatusUnreachable? ==> CheckMigrationStatus(answer) == StatusCheck(true, "error", 0, None, None)
  {
    if answer.StatusAnswered? && answer.result.Ok? {
      var s := answer.result.value.status;
      assert MigrationStatus.StatusName(s) == "complete" <==> s == MigrationStatus.Complete by {
        match s
        case NotStarted => assert MigrationStatus.StatusName(s)[0] == 'n';
        case InProgress => assert MigrationStatus.StatusName(s)[0] == 'i';
        case Complete =>
        case NoData => assert MigrationStatus.StatusName(s)[0] == 'n';
      }
    }
  }

  /**
   * Against the real handler over a table: the client skips the migration
   * exactly when the column exists, the table is not empty and every row
   * has a client id; the progress it reports is at most 100.
   */
  lemma CheckFromTable(column: Option<ColumnInfo>, rows: seq<Row>)
    ensures var check := CheckMigrationStatus(StatusAnswered(MigrationStatus.CheckStatus(column, rows, false)));
      && (!check.needsMigration <==> column.Some? && rows != [] && forall x :: x in rows ==> x.clientId.Some?)
      && check.progress <= 100
  {
    MigrationStatus.StatusFromTable(column, rows);
    CheckFacts(StatusAnswered(MigrationStatus.CheckStatus(column, rows, false)));
  }

  /** How a `fetch` of POST /api/feedings/auto-migrate ends: with the handler's result object, or with an exception and its message. */
  datatype MigrateAnswer = MigrateAnswered(reply: ServerDb.AutoReply) | MigrateUnreachable(message: string)

  /** The `message` field of the state, one constructor per text the composable writes. */
  datatype Message =
    | NoMessage
    | CheckingDatabase
    | MigrationCompleteWith(migrated: nat, total: nat)
    | MigrationFailedWith(error: string)
    | AlreadyCompleted
    | CheckingStatus
    | UpToDate
    | MigrationNeededAt(progress: nat)

  /** The result object's `message` of a failed run, or the exception's message. */
  function FailureMessage(answer: MigrateAnswer): string
    requires !(answer.MigrateAnswered? && answer.reply.Migrated?)
  {
    match answer
    case MigrateAnswered(_) => "Auto-migration failed"
    case MigrateUnreachable(message) => message
  }

  /** `data.progress_percentage || 100`. */
  function ShownProgress(percentage: nat): nat {
    if percentage == 0 then 100 else percentage
  }

  /** The progress shown after a successful run is a percentage and never 0. */
  lemma ShownProgressBounds(percentage: nat)
    requires percentage <= 100
    ensures 1 <= ShownProgress(percentage) <= 100
    ensures percentage > 0 ==> ShownProgress(percentage) == percentage
  {
  }

  /** The module-level `migrationStatus` object together with the browser's `localStorage`. */
  class MigrationState {
    var isChecking: bool
    var isMigrating: bool
    var isComplete: bool
    var hasError: bool
    var error: Option<string>
    var progress: nat
    var message: Message
    var cache: Cache

    /** The initial state over the storage as the browser has it. */
    constructor (cache: Cache)
      ensures !isChecking && !isMigrating && !isComplete && !hasError
      ensures error == None && progress == 0 && message == NoMessage && this.cache == cache
    {
      isChecking := false;
      isMigrating := false;
      isComplete := false;
      hasError := false;
      error := None;
      progress := 0;
      message := NoMessage;
      this.cache := cache;
    }

    /**
     * `runAutoMigration`: success marks the migration complete, shows the
     * server's percentage (100 when it is 0), caches `'complete'` at the
     * clock reading `now` and returns true; a failure records the error and
     * returns false. Either way `isMigrating` is false afterwards.
     */
    method RunAutoMigration(answer: MigrateAnswer, now: Time) returns (success: bool)
      modifies this
      ensures success <==> answer.MigrateAnswered? && answer.reply.Migrated?
      ensures !isMigrating && isChecking == old(isChecking)
      ensures success ==>
        && isComplete && !hasError && error == None
        && progress == ShownProgress(answer.reply.progressPercentage)
        && message == MigrationCompleteWith(answer.reply.migratedRecords, answer.reply.totalRecords)
        && cache == CacheStatus(old(cache), "complete", now)
      ensures !success ==>
        && hasError && error == Some(FailureMessage(answer))
        && message == MigrationFailedWith(FailureMessage(answer))
        && isComplete == old(isComplete) && progress == old(progress) && cache == old(cache)
    {
      isMigrating := true;
      hasError := false;
      error := None;
      message := CheckingDatabase;
      if answer.MigrateAnswered? && answer.reply.Migrated? {
        var data := answer.reply;
        isComplete := true;
        progress := ShownProgress(data.progressPercentage);
        message := MigrationCompleteWith(data.migratedRecords, data.totalRecords);
        cache := CacheStatus(cache, "complete", now);
        success := true;
      } else {
        var failure := FailureMessage(answer);
        hasError := true;
        error := Some(failure);
        message := MigrationFailedWith(failure);
        success := false;
      }
      isMigrating := false;
    }

    /**
     * `initializeAutoMigration`, with the clock read at `now` when the cache
     * is consulted and at `later` when the run ends: a recent cache entry
     * short-cuts to true without either request; a server reporting
     * `complete` caches it and gives true; otherwise the result is that of
     * `runAutoMigration`. When the server was asked, `isChecking` is false at
     * the end.
     */
    method Initialize(statusAnswer: StatusAnswer, migrateAnswer: MigrateAnswer, now: Time, later: Time) returns (done: bool)
      modifies this
      ensures RecentlyCompleted(old(cache), now) ==>
        && done && isComplete && message == AlreadyCompleted
        && cache == old(cache) && isChecking == old(isChecking) && isMigrating == old(isMigrating)
        && hasError == old(hasError) && error == old(error) && progress == old(progress)
      ensures !RecentlyCompleted(old(cache), now) ==> !isChecking
      ensures !RecentlyCompleted(old(cache), now) && !CheckMigrationStatus(statusAnswer).needsMigration ==>
        && done && isComplete && message == UpToDate
        && cache == CacheStatus(old(cache), "complete", later)
        && isMigrating == old(isMigrating)
        && hasError == old(hasError) && error == old(error) && progress == old(progress)
      ensures !RecentlyCompleted(old(cache), now) && CheckMigrationStatus(statusAnswer).needsMigration ==>
        && !isMigrating
        && (done <==> migrateAnswer.MigrateAnswered? && migrateAnswer.reply.Migrated?)
        && (done ==>
              && isComplete && !hasError && error == None
              && progress == ShownProgress(migrateAnswer.reply.progressPercentage)
              && message == MigrationCompleteWith(migrateAnswer.reply.migratedRecords, migrateAnswer.reply.totalRecords)
              && cache == CacheStatus(old(cache), "complete", later))
        && (!done ==>
              && hasError && error == Some(FailureMessage(migrateAnswer))
              && message == MigrationFailedWith(FailureMessage(migrateAnswer))
              && isComplete == old(isComplete) && progress == old(progress) && cache == old(cache))
    {
      if RecentlyCompleted(cache, now) {
        isComplete := true;
        message := AlreadyCompleted;
        return true;
      }
      isChecking := true;
      message := CheckingStatus;
      var status := CheckMigrationStatus(statusAnswer);
      if !status.needsMigration {
        isComplete := true;
        message := UpToDate;
        cache := CacheStatus(cache, "complete", later);
        done := true;
      } else {
        message := MigrationNeededAt(status.progress);
        done := RunAutoMigration(migrateAnswer, later);
      }
      isChecking := false;
    }

    /** `clearMigrationCache`: only the cache entry goes. */
    method ClearMigrationCache()
      modifies this
      ensures cache == ClearCache(old(cache))
      ensures isChecking == old(isChecking) && isMigrating == old(isMigrating) && isComplete == old(isComplete)
      ensures hasError == old(hasError) && error == old(error) && progress == old(progress) && message == old(message)
    {
      cache := ClearCache(cache);
    }
  }
}
