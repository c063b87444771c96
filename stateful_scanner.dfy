/**
 * Stateful scanning: a per-group set of post ids already processed, loaded
 * from the database and extended as posts are handled, and session counters
 * that stop a scan after a run of already-known posts.
 *
 * The database is not modelled: the rows a query returns, and the outcome of
 * an insert, are inputs. So is the processor callback's reply. The clock
 * reading `now` is in milliseconds.
 */
module StatefulScanner {
  import opened Common

  /** `config.stateTracking`; a `maxPostAgeHours` of 0 disables the age filter. */
  datatype Tracking = Tracking(enabled: bool, consecutiveKnownLimit: int, maxPostAgeHours: int)

  /** The tracking used when the configuration has none. */
  const DefaultTracking := Tracking(true, 3, 24)

  /** A row of `processed_posts`: the post id and when it was processed. */
  datatype Row = Row(externalId: string, processedAt: int)

  /** What the `processed_posts` query returned. */
  datatype Query = Rows(rows: seq<Row>) | QueryError(message: string)

  /** What the insert of a processed post returned. */
  datatype Insert = Inserted | InsertFailed(code: string) | InsertThrew(message: string)

  /** The error code of a unique-key violation: the post is already stored. */
  const DuplicateKeyCode := "23505"

  /** What the processor callback did: returned a value of the given
      truthiness, or threw. */
  datatype Reply = Returned(truthy: bool) | Threw(message: string)

  datatype SessionStats = SessionStats(
    newPosts: nat,
    skippedPosts: nat,
    consecutiveKnown: nat,
    totalProcessed: nat,
    startTime: int)

  /** What `processPost()` returns; `None` marks a field the object lacks. */
  datatype Report = Report(
    isNew: bool,
    processed: bool,
    result: Option<bool>,
    shouldStop: Option<bool>,
    consecutiveKnown: Option<nat>)

  const Hour := 60 * 60 * 1000

  /** The rows the age filter keeps: all of them when the filter is off,
      otherwise those processed strictly after `now - maxPostAgeHours`. */
  function KeptRows(rows: seq<Row>, maxPostAgeHours: int, now: int): (kept: seq<Row>)
    ensures |kept| <= |rows|
    ensures maxPostAgeHours == 0 ==> kept == rows
    ensures forall r :: r in kept <==>
      r in rows && (maxPostAgeHours == 0 || r.processedAt > now - maxPostAgeHours * Hour)
  {
    if maxPostAgeHours == 0 || |rows| == 0 then rows
    else
      var rest := KeptRows(rows[..|rows| - 1], maxPostAgeHours, now);
      var last := rows[|rows| - 1];
      assert forall r :: r in rows <==> r in rows[..|rows| - 1] || r == last;
      if last.processedAt > now - maxPostAgeHours * Hour then rest + [last] else rest
  }

  /** The ids loaded into a group's set. */
  function LoadedIds(rows: seq<Row>, maxPostAgeHours: int, now: int): (ids: set<string>)
    ensures forall id :: id in ids <==>
      exists r :: r in rows && r.externalId == id &&
        (maxPostAgeHours == 0 || r.processedAt > now - maxPostAgeHours * Hour)
  {
    var kept := KeptRows(rows, maxPostAgeHours, now);
    set r | r in kept :: r.externalId
  }

  /** The three ways `processPost()` can go once the callback (if called) has
      returned. */
  datatype Path = Untracked(truthy: bool) | Known | Fresh(truthy: bool, saved: bool)

  /** The session counters after handling one post. */
  function StatsAfter(s: SessionStats, path: Path): (t: SessionStats)
    ensures t.totalProcessed == s.totalProcessed + 1
    ensures t.startTime == s.startTime
    ensures path.Known? ==> t.skippedPosts == s.skippedPosts + 1 && t.consecutiveKnown == s.consecutiveKnown + 1
    ensures !path.Known? ==> t.skippedPosts == s.skippedPosts
    ensures path.Fresh? && path.truthy && path.saved ==> t.consecutiveKnown == 0
  {
    match path
    case Untracked(truthy) =>
      s.(newPosts := s.newPosts + (if truthy then 1 else 0), totalProcessed := s.totalProcessed + 1)
    case Known =>
      s.(skippedPosts := s.skippedPosts + 1,
         consecutiveKnown := s.consecutiveKnown + 1,
         totalProcessed := s.totalProcessed + 1)
    case Fresh(truthy, saved) =>
      if truthy && saved then
        s.(newPosts := s.newPosts + 1, consecutiveKnown := 0, totalProcessed := s.totalProcessed + 1)
      else
        s.(totalProcessed := s.totalProcessed + 1)
  }

  /** New and skipped posts together never exceed the posts handled. */
  predicate Tallied(s: SessionStats)
  {
    s.newPosts + s.skippedPosts <= s.totalProcessed
  }

  lemma StatsAfterTallied(s: SessionStats, path: Path)
    requires Tallied(s)
    ensures Tallied(StatsAfter(s, path))
  {
  }

  /** The counters after `n` known posts in a row. */
  function KnownRun(s: SessionStats, n: nat): SessionStats
  {
    if n == 0 then s else StatsAfter(KnownRun(s, n - 1), Known)
  }

  /** After `n` known posts in a row the run length has grown by `n`, and with
      a fresh run the scan stops exactly when `n` reaches the limit. */
  lemma {:induction false} KnownRunLength(s: SessionStats, n: nat, limit: int)
    ensures KnownRun(s, n).consecutiveKnown == s.consecutiveKnown + n
    ensures KnownRun(s, n).skippedPosts == s.skippedPosts + n
    ensures KnownRun(s, n).newPosts == s.newPosts
    ensures s.consecutiveKnown == 0 ==> (KnownRun(s, n).consecutiveKnown >= limit <==> n >= limit)
  {
    if n > 0 {
      KnownRunLength(s, n - 1, limit);
    }
  }

  /** A saved new post ends the run however long it was. */
  lemma SavedPostEndsRun(s: SessionStats, n: nat, limit: int)
    requires limit > 0
    ensures StatsAfter(KnownRun(s, n), Fresh(true, true)).consecutiveKnown < limit
  {
  }

  /** `markPostAsProcessed()`'s verdict on an insert: stored, or already there. */
  predicate Saved(write: Insert)
  {
    write.Inserted? || (write.InsertFailed? && write.code == DuplicateKeyCode)
  }

  class StatefulScanner {
    const config: Tracking
    var processedPostsCache: map<string, set<string>>
    var cacheLoaded: bool
    var sessionStats: SessionStats

    ghost predicate Valid()
      reads this
    {
      Tallied(sessionStats)
    }

    /** A scanner with the given tracking configuration, or the default. */
    constructor (stateTracking: Option<Tracking>, now: int)
      ensures Valid()
      ensures config == if stateTracking.Some? then stateTracking.value else DefaultTracking
      ensures processedPostsCache == map[] && !cacheLoaded
      ensures sessionStats == SessionStats(0, 0, 0, 0, now)
    {
      config := if stateTracking.Some? then stateTracking.value else DefaultTracking;
      processedPostsCache := map[];
      cacheLoaded := false;
      sessionStats := SessionStats(0, 0, 0, 0, now);
    }

    /** The ids known for a group; none when it has no set. */
    function GroupIds(groupId: string): set<string>
      reads this
    {
      if groupId in processedPostsCache then processedPostsCache[groupId] else {}
    }

    /** `initialize()` with the result of the group's query: the group's set
        becomes the ids of the rows the age filter keeps. A query error is
        thrown and changes nothing; with tracking off nothing is loaded. */
    method Initialize(groupId: string, query: Query, now: int) returns (r: Result<()>)
      requires Valid()
      modifies this
      ensures Valid()
      ensures !config.enabled ==> r == Ok(()) && unchanged(this)
      ensures config.enabled && query.QueryError? ==> r == Err(query.message) && unchanged(this)
      ensures config.enabled && query.Rows? ==>
        && r == Ok(())
        && processedPostsCache == old(processedPostsCache)[groupId := LoadedIds(query.rows, config.maxPostAgeHours, now)]
        && cacheLoaded
        && sessionStats == old(sessionStats)
    {
      if !config.enabled {
        return Ok(());
      }
      if query.QueryError? {
        return Err(query.message);
      }
      processedPostsCache := processedPostsCache[groupId := LoadedIds(query.rows, config.maxPostAgeHours, now)];
      cacheLoaded := true;
      r := Ok(());
    }

    /** `isPostProcessed()`: only a loaded, enabled cache knows any post. */
    predicate IsPostProcessed(groupId: string, externalId: string)
      reads this
      ensures !config.enabled || !cacheLoaded ==> !IsPostProcessed(groupId, externalId)
      ensures IsPostProcessed(groupId, externalId) ==> groupId in processedPostsCache && externalId in processedPostsCache[groupId]
    {
      config.enabled && cacheLoaded && groupId in processedPostsCache && externalId in processedPostsCache[groupId]
    }

    /** `markPostAsProcessed()` with the insert's outcome: the id joins the
        group's set before the write, so it stays there whatever the write
        did; the verdict is true for a stored or duplicate post. */
    method MarkPostAsProcessed(groupId: string, externalId: string, write: Insert) returns (saved: bool)
      requires Valid()
      modifies this
      ensures Valid()
      ensures !config.enabled ==> saved && unchanged(this)
      ensures config.enabled ==>
        && saved == Saved(write)
        && processedPostsCache == old(processedPostsCache)[groupId := old(GroupIds(groupId)) + {externalId}]
        && cacheLoaded == old(cacheLoaded) && sessionStats == old(sessionStats)
    {
      if !config.enabled {
        return true;
      }
      var groupPosts := GroupIds(groupId) + {externalId};
      processedPostsCache := processedPostsCache[groupId := groupPosts];
      match write
      case Inserted => saved := true;
      case InsertFailed(code) => saved := code == DuplicateKeyCode;
      case InsertThrew(_) => saved := false;
    }

    /** `processPost()` with the callback's reply and the insert's outcome.
        Returns the report, or the callback's error, and whether the callback
        was called. */
    method ProcessPost(groupId: string, externalId: string, reply: Reply, write: Insert)
      returns (r: Result<Report>, called: bool)
      requires Valid()
      modifies this
      ensures Valid()
      // A thrown callback error escapes before anything is counted or marked.
      ensures called && reply.Threw? ==> r == Err(reply.message) && unchanged(this)
      // Without tracking every post is new and processed.
      ensures !config.enabled ==>
        && called
        && (reply.Returned? ==>
              && r == Ok(Report(true, true, Some(reply.truthy), None, None))
              && sessionStats == StatsAfter(old(sessionStats), Untracked(reply.truthy))
              && processedPostsCache == old(processedPostsCache))
      // A known post is skipped without calling the processor.
      ensures config.enabled && old(IsPostProcessed(groupId, externalId)) ==>
        && !called
        && sessionStats == StatsAfter(old(sessionStats), Known)
        && r == Ok(Report(false, false, None,
                          Some(sessionStats.consecutiveKnown >= config.consecutiveKnownLimit),
                          Some(sessionStats.consecutiveKnown)))
        && processedPostsCache == old(processedPostsCache)
      // A new post is processed and marked, whatever the callback's verdict;
      // only a saved success ends the run of known posts.
      ensures config.enabled && !old(IsPostProcessed(groupId, externalId)) ==>
        && called
        && (reply.Returned? ==>
              && r == Ok(Report(true, true, Some(reply.truthy), Some(false), Some(0)))
              && sessionStats == StatsAfter(old(sessionStats), Fresh(reply.truthy, Saved(write)))
              && processedPostsCache == old(processedPostsCache)[groupId := old(GroupIds(groupId)) + {externalId}])
      ensures cacheLoaded == old(cacheLoaded)
    {
      if !config.enabled {
        called := true;
        if reply.Threw? {
          return Err(reply.message), called;
        }
        StatsAfterTallied(sessionStats, Untracked(reply.truthy));
        sessionStats := StatsAfter(sessionStats, Untracked(reply.truthy));
        return Ok(Report(true, true, Some(reply.truthy), None, None)), called;
      }
      if IsPostProcessed(groupId, externalId) {
        called := false;
        StatsAfterTallied(sessionStats, Known);
        sessionStats := StatsAfter(sessionStats, Known);
        var stop := ShouldStopScanning();
        return Ok(Report(false, false, None, Some(stop), Some(sessionStats.consecutiveKnown))), called;
      }
      called := true;
      if reply.Threw? {
        return Err(reply.message), called;
      }
      var saved := MarkPostAsProcessed(groupId, externalId, write);
      StatsAfterTallied(sessionStats, Fresh(reply.truthy, saved));
      sessionStats := StatsAfter(sessionStats, Fresh(reply.truthy, saved));
      r := Ok(Report(true, true, Some(reply.truthy), Some(false), Some(0)));
    }

    /** `shouldStopScanning()`. */
    predicate ShouldStopScanning()
      reads this
      ensures config.consecutiveKnownLimit <= 0 ==> ShouldStopScanning()
      ensures sessionStats.consecutiveKnown < config.consecutiveKnownLimit ==> !ShouldStopScanning()
    {
      sessionStats.consecutiveKnown >= config.consecutiveKnownLimit
    }

    /** `resetSessionStats()`: all counters zero, the session starting now. */
    method ResetSessionStats(now: int)
      requires Valid()
      modifies this
      ensures Valid()
      ensures sessionStats == SessionStats(0, 0, 0, 0, now)
      ensures processedPostsCache == old(processedPostsCache) && cacheLoaded == old(cacheLoaded)
    {
      sessionStats := SessionStats(0, 0, 0, 0, now);
    }

    /** `clearGroupCache()`: only that group's set goes. */
    method ClearGroupCache(groupId: string)
      requires Valid()
      modifies this
      ensures Valid()
      ensures processedPostsCache == old(processedPostsCache) - {groupId}
      ensures cacheLoaded == old(cacheLoaded) && sessionStats == old(sessionStats)
    {
      processedPostsCache := processedPostsCache - {groupId};
    }
  }
}
