/**
 * The duplicate cache of scraped posts: a dictionary of processed posts keyed
 * by a hash of author, text and address, and a dictionary of visited
 * addresses. Both are kept at most 10000 entries by evicting the oldest, can
 * be purged by age, and are consulted to filter a batch of posts.
 *
 * The hash is the identity on its lower-cased input, so two posts share a key
 * exactly when their hash inputs agree. Timestamps are milliseconds of a
 * clock passed in as `now`. Loading and saving the two dictionaries as JSON
 * files is not modelled: the constructor takes the dictionaries as loaded.
 */
module CacheManager {
  import opened Common

  /** The fields of a scraped post the cache looks at; `None` is `undefined`. */
  datatype Post = Post(
    textContent: Option<string>,
    content: Option<string>,
    author: Option<string>,
    url: Option<string>,
    postUrl: Option<string>)

  /** `a || fallback` for a string that may be missing: the empty string is
      falsy in JavaScript and falls through as well. */
  function OrElse(a: Option<string>, fallback: string): (s: string)
    ensures a.Some? && a.value != "" ==> s == a.value
    ensures a.None? || a.value == "" ==> s == fallback
  {
    if a.Some? && a.value != "" then a.value else fallback
  }

  /** `textContent || content || ''`. */
  function Content(p: Post): string
  {
    OrElse(p.textContent, OrElse(p.content, ""))
  }

  /** `author || ''`. */
  function Author(p: Post): string
  {
    OrElse(p.author, "")
  }

  /** `url || post_url`, with a missing address read as the (falsy) empty string. */
  function Address(p: Post): string
  {
    OrElse(p.url, OrElse(p.postUrl, ""))
  }

  /** `substring(0, n)`. */
  function Prefix(s: string, n: nat): (r: string)
    ensures |r| <= n && r <= s
    ensures |s| <= n ==> r == s
  {
    if |s| <= n then s else s[..n]
  }

  /** The length of text that goes into the hash. */
  const HashedTextLength := 200

  /** `generatePostHash()`: the lower-cased `author|text[0..200]|url`. */
  function PostKey(p: Post): (k: string)
    ensures |k| == |Author(p)| + |Prefix(Content(p), HashedTextLength)| + |Address(p)| + 2
    ensures Lower(k) == k
  {
    Lower(Author(p) + "|" + Prefix(Content(p), HashedTextLength) + "|" + Address(p))
  }

  /** Posts whose author, text and address differ only in letter case get the
      same key. */
  lemma KeyIgnoresCase(p: Post, q: Post)
    requires Lower(Author(p)) == Lower(Author(q))
    requires Lower(Content(p)) == Lower(Content(q))
    requires Lower(Address(p)) == Lower(Address(q))
    ensures PostKey(p) == PostKey(q)
  {
    LowerPrefixOf(Content(p));
    LowerPrefixOf(Content(q));
    LowerKey(p);
    LowerKey(q);
  }

  lemma LowerPrefixOf(s: string)
    ensures Lower(Prefix(s, HashedTextLength)) == Prefix(Lower(s), HashedTextLength)
  {
    if |s| > HashedTextLength {
      LowerPrefix(s, HashedTextLength);
    }
  }

  lemma LowerKey(p: Post)
    ensures PostKey(p) ==
      Lower(Author(p)) + "|" + Lower(Prefix(Content(p), HashedTextLength)) + "|" + Lower(Address(p))
  {
    var a, c, u := Author(p), Prefix(Content(p), HashedTextLength), Address(p);
    LowerAppend(a + "|" + c + "|", u);
    LowerAppend(a + "|" + c, "|");
    LowerAppend(a + "|", c);
    LowerAppend(a, "|");
    assert Lower("|") == "|";
  }

  /** Posts with the same author and address whose texts agree on their first
      200 characters get the same key, whatever follows. */
  lemma KeyIgnoresTextTail(p: Post, q: Post)
    requires Author(p) == Author(q) && Address(p) == Address(q)
    requires |Content(p)| >= HashedTextLength && |Content(q)| >= HashedTextLength
    requires Content(p)[..HashedTextLength] == Content(q)[..HashedTextLength]
    ensures PostKey(p) == PostKey(q)
  {
  }

  /** What `markPostProcessed()` stores for a post. */
  datatype PostRecord = PostRecord(processedAt: int, author: Option<string>, url: Option<string>, contentPreview: string)

  /** `url || post_url` as stored: a missing or empty `url` gives `post_url`
      as it is, possibly missing. */
  function StoredUrl(p: Post): Option<string>
  {
    if p.url.Some? && p.url.value != "" then p.url else p.postUrl
  }

  function RecordOf(p: Post, now: int): (r: PostRecord)
    ensures r.processedAt == now && r.author == p.author
    ensures r.contentPreview == Prefix(Content(p), 100)
  {
    PostRecord(now, p.author, StoredUrl(p), Prefix(Content(p), 100))
  }

  function PostStamp(r: PostRecord): int
  {
    r.processedAt
  }

  function UrlStamp(visitedAt: int): int
  {
    visitedAt
  }

  /** The post's key is in the processed dictionary. */
  predicate Processed(processed: map<string, PostRecord>, p: Post)
  {
    PostKey(p) in processed
  }

  /** `isUrlVisited(url)`: a falsy address is never visited. */
  predicate Visited(visited: map<string, int>, url: string)
  {
    url != "" && url in visited
  }

  /** A post `filterDuplicatePosts()` keeps: neither its key nor its address is
      known. */
  predicate IsFresh(processed: map<string, PostRecord>, visited: map<string, int>, p: Post)
  {
    !Processed(processed, p) && !Visited(visited, Address(p))
  }

  /** The fresh posts of a batch, in their order. */
  function FreshPosts(processed: map<string, PostRecord>, visited: map<string, int>, posts: seq<Post>): (r: seq<Post>)
    ensures |r| <= |posts|
  {
    if |posts| == 0 then []
    else
      var rest := FreshPosts(processed, visited, posts[..|posts| - 1]);
      var last := posts[|posts| - 1];
      if IsFresh(processed, visited, last) then rest + [last] else rest
  }

  /** A post is kept exactly when it is in the batch and fresh. */
  lemma {:induction false} FreshPostsMembers(processed: map<string, PostRecord>, visited: map<string, int>, posts: seq<Post>)
    ensures forall q :: q in FreshPosts(processed, visited, posts) <==> q in posts && IsFresh(processed, visited, q)
  {
    if |posts| > 0 {
      var init, last := posts[..|posts| - 1], posts[|posts| - 1];
      FreshPostsMembers(processed, visited, init);
      assert posts == init + [last];
    }
  }

  /** The loop of `filterDuplicatePosts()` over a snapshot of both
      dictionaries: a processed key or a visited address skips the post. */
  method SkipKnown(processed: map<string, PostRecord>, visited: map<string, int>, posts: seq<Post>)
    returns (unique: seq<Post>)
    ensures unique == FreshPosts(processed, visited, posts)
  {
    unique := [];
    for i := 0 to |posts|
      invariant unique == FreshPosts(processed, visited, posts[..i])
    {
      var post := posts[i];
      assert posts[..i + 1] == posts[..i] + [post];
      FreshPostsStep(processed, visited, posts[..i], post);
      if Processed(processed, post) {
        continue;
      }
      var postUrl := Address(post);
      if Visited(visited, postUrl) {
        continue;
      }
      unique := unique + [post];
    }
    assert posts[..|posts|] == posts;
  }

  /** One more post in the batch: kept at the end exactly when fresh. */
  lemma FreshPostsStep(processed: map<string, PostRecord>, visited: map<string, int>, init: seq<Post>, post: Post)
    ensures FreshPosts(processed, visited, init + [post]) ==
      FreshPosts(processed, visited, init) + (if IsFresh(processed, visited, post) then [post] else [])
  {
    assert (init + [post])[..|init|] == init;
  }

  /** Filtering a filtered batch again keeps all of it. */
  lemma {:induction false} FreshPostsIdempotent(processed: map<string, PostRecord>, visited: map<string, int>, posts: seq<Post>)
    ensures FreshPosts(processed, visited, FreshPosts(processed, visited, posts)) == FreshPosts(processed, visited, posts)
  {
    if |posts| > 0 {
      var kept := FreshPosts(processed, visited, posts);
      FreshPostsMembers(processed, visited, posts);
      assert forall i :: 0 <= i < |kept| ==> kept[i] in kept;
      FreshPostsOfFresh(processed, visited, kept);
    }
  }

  /** A batch of fresh posts passes the filter unchanged. */
  lemma {:induction false} FreshPostsOfFresh(processed: map<string, PostRecord>, visited: map<string, int>, posts: seq<Post>)
    requires forall i :: 0 <= i < |posts| ==> IsFresh(processed, visited, posts[i])
    ensures FreshPosts(processed, visited, posts) == posts
  {
    if |posts| > 0 {
      FreshPostsOfFresh(processed, visited, posts[..|posts| - 1]);
      assert posts[..|posts| - 1] + [posts[|posts| - 1]] == posts;
    }
  }

  /** The filter keeps a post exactly when it is fresh: the kept posts of
      `a + b` are those of `a` followed by those of `b`. */
  lemma {:induction false} FreshPostsAppend(processed: map<string, PostRecord>, visited: map<string, int>, a: seq<Post>, b: seq<Post>)
    ensures FreshPosts(processed, visited, a + b) == FreshPosts(processed, visited, a) + FreshPosts(processed, visited, b)
    decreases |b|
  {
    if |b| > 0 {
      assert (a + b)[..|a + b| - 1] == a + b[..|b| - 1];
      FreshPostsAppend(processed, visited, a, b[..|b| - 1]);
    } else {
      assert a + b == a;
    }
  }

  /** `cleanupCache()` on one dictionary, as a relation between the dictionary
      before and after: nothing changes when it has at most `max` entries;
      otherwise exactly `max` entries remain, unchanged, and no removed entry
      is newer than a kept one. */
  ghost predicate Evicted<V>(before: map<string, V>, after: map<string, V>, stamp: V -> int, max: nat)
  {
    if |before| <= max then after == before
    else
      && (forall k :: k in after ==> k in before && after[k] == before[k])
      && |after| == max
      && (forall k, j :: k in before && k !in after && j in after ==> stamp(before[k]) <= stamp(after[j]))
  }

  /** An entry strictly newer than every other one survives an eviction. */
  lemma EvictionKeepsNewest<V>(before: map<string, V>, after: map<string, V>, stamp: V -> int, max: nat, k: string)
    requires max >= 1
    requires Evicted(before, after, stamp, max)
    requires k in before
    requires forall j :: j in before && j != k ==> stamp(before[j]) < stamp(before[k])
    ensures k in after && after[k] == before[k]
  {
  }

  /** A key of a non-empty dictionary with the oldest stamp. */
  method OldestKey<V>(m: map<string, V>, stamp: V -> int) returns (k: string)
    requires |m| > 0
    ensures k in m
    ensures forall j :: j in m ==> stamp(m[k]) <= stamp(m[j])
  {
    var todo := m.Keys;
    k :| k in todo;
    while todo != {}
      invariant todo <= m.Keys && k in m
      invariant forall j :: j in m && j !in todo ==> stamp(m[k]) <= stamp(m[j])
      invariant forall j :: j in todo ==> j in m
      decreases |todo|
    {
      var j :| j in todo;
      if stamp(m[j]) < stamp(m[k]) {
        k := j;
      }
      todo := todo - {j};
    }
  }

  /** Removing the oldest entry one at a time until `max` remain. */
  method EvictOldest<V>(m: map<string, V>, stamp: V -> int, max: nat) returns (r: map<string, V>)
    ensures Evicted(m, r, stamp, max)
  {
    r := m;
    while |r| > max
      invariant forall k :: k in r ==> k in m && r[k] == m[k]
      invariant |m| <= max ==> r == m
      invariant |m| > max ==> |r| >= max
      invariant forall k, j :: k in m && k !in r && j in r ==> stamp(m[k]) <= stamp(r[j])
      decreases |r|
    {
      var k := OldestKey(r, stamp);
      assert r.Keys == (r - {k}).Keys + {k};
      r := r - {k};
    }
  }

  /** `removeOldEntries()` on one dictionary: the entries stamped at or after
      the cutoff. */
  function Purged<V>(m: map<string, V>, stamp: V -> int, cutoff: int): (r: map<string, V>)
    ensures forall k :: k in r <==> k in m && stamp(m[k]) >= cutoff
    ensures forall k :: k in r ==> r[k] == m[k]
  {
    map k | k in m && stamp(m[k]) >= cutoff :: m[k]
  }

  /** Purging at one cutoff and then at a later one is purging at the later. */
  lemma PurgedTwice<V>(m: map<string, V>, stamp: V -> int, c1: int, c2: int)
    requires c1 <= c2
    ensures Purged(Purged(m, stamp, c1), stamp, c2) == Purged(m, stamp, c2)
  {
  }

  /** Deleting every entry older than the cutoff, one key at a time. */
  method PurgeBefore<V>(m: map<string, V>, stamp: V -> int, cutoff: int) returns (r: map<string, V>)
    ensures r == Purged(m, stamp, cutoff)
  {
    r := m;
    var todo := m.Keys;
    while todo != {}
      invariant todo <= m.Keys
      invariant forall k :: k in r ==> k in m && r[k] == m[k]
      invariant forall k :: k in m && k !in todo ==> (k in r <==> stamp(m[k]) >= cutoff)
      invariant forall k :: k in todo ==> k in r
      decreases |todo|
    {
      var k :| k in todo;
      if stamp(m[k]) < cutoff {
        r := r - {k};
      }
      todo := todo - {k};
    }
  }

  /** One day in milliseconds. */
  const Day := 24 * 60 * 60 * 1000

  /** What the callback did with a post: returned a value (of the given
      truthiness), or threw. */
  datatype Reply = Returned(value: string, truthy: bool) | Threw(message: string)

  /** The values returned by the first `n` replies, in order. */
  function ReturnedValues(reply: nat -> Reply, n: nat): (vs: seq<string>)
    ensures |vs| <= n
  {
    if n == 0 then []
    else ReturnedValues(reply, n - 1) + (if reply(n - 1).Returned? then [reply(n - 1).value] else [])
  }

  /** How many of the first `n` replies returned a truthy value. */
  function TruthyCount(reply: nat -> Reply, n: nat): (c: nat)
    ensures c <= n
  {
    if n == 0 then 0
    else TruthyCount(reply, n - 1) + (if reply(n - 1).Returned? && reply(n - 1).truthy then 1 else 0)
  }

  /** The keys of the first `n` posts whose reply was truthy. */
  function MarkedKeys(posts: seq<Post>, reply: nat -> Reply, n: nat): set<string>
    requires n <= |posts|
  {
    if n == 0 then {}
    else
      var marks := reply(n - 1).Returned? && reply(n - 1).truthy;
      MarkedKeys(posts, reply, n - 1) + (if marks then {PostKey(posts[n - 1])} else {})
  }

  /** The non-empty addresses of the first `n` posts whose reply was truthy. */
  function MarkedUrls(posts: seq<Post>, reply: nat -> Reply, n: nat): set<string>
    requires n <= |posts|
  {
    if n == 0 then {}
    else
      var marks := reply(n - 1).Returned? && reply(n - 1).truthy && Address(posts[n - 1]) != "";
      MarkedUrls(posts, reply, n - 1) + (if marks then {Address(posts[n - 1])} else {})
  }

  /** `maxCacheSize`: the most entries a dictionary keeps after a cleanup. */
  const MaxCacheSize: nat := 10000

  /** `cacheCleanupInterval`: a cleanup runs on every 1000th mark. */
  const CacheCleanupInterval: nat := 1000

  /** How far the processing loop has got after `i` replies, given the key
      sets and counter it started from: one count per truthy reply, only the
      marked keys and addresses added, and all of them while no cleanup was
      due. */
  ghost predicate Progress(posts0: set<string>, urls0: set<string>, c0: nat, filtered: seq<Post>, reply: nat -> Reply,
                           i: nat, keys: set<string>, urls: set<string>, count: int)
    requires i <= |filtered|
  {
    && count == c0 + TruthyCount(reply, i)
    && keys <= posts0 + MarkedKeys(filtered, reply, i)
    && urls <= urls0 + MarkedUrls(filtered, reply, i)
    && (c0 % CacheCleanupInterval + TruthyCount(reply, i) < CacheCleanupInterval ==>
          keys == posts0 + MarkedKeys(filtered, reply, i) && urls == urls0 + MarkedUrls(filtered, reply, i))
  }

  lemma ProgressStep(posts0: set<string>, urls0: set<string>, c0: nat, filtered: seq<Post>, reply: nat -> Reply,
                     i: nat, keys: set<string>, urls: set<string>, count: int,
                     keys': set<string>, urls': set<string>, count': int)
    requires i < |filtered|
    requires Progress(posts0, urls0, c0, filtered, reply, i, keys, urls, count)
    requires !(reply(i).Returned? && reply(i).truthy) ==> keys' == keys && urls' == urls && count' == count
    requires reply(i).Returned? && reply(i).truthy ==>
      var addr := if Address(filtered[i]) != "" then {Address(filtered[i])} else {};
      && count' == count + 1
      && keys' <= keys + {PostKey(filtered[i])}
      && urls' <= urls + addr
      && (count' % CacheCleanupInterval != 0 ==> keys' == keys + {PostKey(filtered[i])} && urls' == urls + addr)
    ensures Progress(posts0, urls0, c0, filtered, reply, i + 1, keys', urls', count')
  {
    var t, t' := TruthyCount(reply, i), TruthyCount(reply, i + 1);
    var m, m' := MarkedKeys(filtered, reply, i), MarkedKeys(filtered, reply, i + 1);
    var n, n' := MarkedUrls(filtered, reply, i), MarkedUrls(filtered, reply, i + 1);
    if reply(i).Returned? && reply(i).truthy {
      var key := PostKey(filtered[i]);
      var addr := if Address(filtered[i]) != "" then {Address(filtered[i])} else {};
      assert t' == t + 1 && m' == m + {key} && n' == n + addr;
      assert keys' <= posts0 + m';
      assert urls' <= urls0 + n';
      if c0 % CacheCleanupInterval + t' < CacheCleanupInterval {
        ModuloStep(c0, t');
        assert count' % CacheCleanupInterval != 0;
        assert keys' == posts0 + m';
        assert urls' == urls0 + n';
      }
    } else {
      assert t' == t && m' == m && n' == n;
    }
  }

  lemma ModuloStep(c: int, t: nat)
    requires c >= 0 && c % CacheCleanupInterval + t < CacheCleanupInterval
    ensures (c + t) % CacheCleanupInterval == c % CacheCleanupInterval + t
  {
    var q := c / CacheCleanupInterval;
    assert c == CacheCleanupInterval * q + c % CacheCleanupInterval;
    assert c + t == CacheCleanupInterval * q + (c % CacheCleanupInterval + t);
  }

  /** The `daysOld` of `removeOldEntries`, with its default parameter 30. */
  function DaysOrDefault(daysOld: Option<int>): int
  {
    if daysOld.Some? then daysOld.value else 30
  }

  class CacheManager {
    var processedPosts: map<string, PostRecord>
    var visitedUrls: map<string, int>
    var processedCount: nat

    /** A manager over the dictionaries read from the cache files (empty ones
        when the files are missing or unreadable). */
    constructor (loadedPosts: map<string, PostRecord>, loadedUrls: map<string, int>)
      ensures processedPosts == loadedPosts && visitedUrls == loadedUrls
      ensures processedCount == 0
    {
      processedPosts := loadedPosts;
      visitedUrls := loadedUrls;
      processedCount := 0;
    }

    /** `isPostProcessed()`. */
    predicate IsPostProcessed(p: Post)
      reads this
      ensures IsPostProcessed(p) <==> PostKey(p) in processedPosts
    {
      Processed(processedPosts, p)
    }

    /** `isUrlVisited()`. */
    predicate IsUrlVisited(url: string)
      reads this
      ensures url == "" ==> !IsUrlVisited(url)
      ensures url != "" ==> (IsUrlVisited(url) <==> url in visitedUrls)
    {
      Visited(visitedUrls, url)
    }

    /** `cleanupCache()`: evict the oldest entries of each dictionary beyond
        `MaxCacheSize`. */
    method CleanupCache()
      modifies this
      ensures Evicted(old(processedPosts), processedPosts, PostStamp, MaxCacheSize)
      ensures Evicted(old(visitedUrls), visitedUrls, UrlStamp, MaxCacheSize)
      ensures processedCount == old(processedCount)
    {
      processedPosts := EvictOldest(processedPosts, PostStamp, MaxCacheSize);
      visitedUrls := EvictOldest(visitedUrls, UrlStamp, MaxCacheSize);
    }

    /** `markPostProcessed()`: store the post's record under its key and
        count it; every 1000th mark runs a cleanup. */
    method MarkPostProcessed(p: Post, now: int)
      modifies this
      ensures processedCount == old(processedCount) + 1
      ensures processedCount % CacheCleanupInterval != 0 ==>
        processedPosts == old(processedPosts)[PostKey(p) := RecordOf(p, now)] && visitedUrls == old(visitedUrls)
      ensures processedCount % CacheCleanupInterval == 0 ==>
        && Evicted(old(processedPosts)[PostKey(p) := RecordOf(p, now)], processedPosts, PostStamp, MaxCacheSize)
        && Evicted(old(visitedUrls), visitedUrls, UrlStamp, MaxCacheSize)
      // A mark stamped later than every other entry survives the cleanup.
      ensures (forall k :: k in old(processedPosts) && k != PostKey(p) ==> old(processedPosts)[k].processedAt < now) ==>
        IsPostProcessed(p)
    {
      var key := PostKey(p);
      var marked := processedPosts[key := RecordOf(p, now)];
      processedPosts := marked;
      processedCount := processedCount + 1;
      if processedCount % CacheCleanupInterval == 0 {
        CleanupCache();
        if forall k :: k in old(processedPosts) && k != key ==> old(processedPosts)[k].processedAt < now {
          EvictionKeepsNewest(marked, processedPosts, PostStamp, MaxCacheSize, key);
        }
      }
    }

    /** `markUrlVisited()`: a falsy address is ignored. */
    method MarkUrlVisited(url: string, now: int)
      modifies this
      ensures url == "" ==> visitedUrls == old(visitedUrls)
      ensures url != "" ==> visitedUrls == old(visitedUrls)[url := now]
      ensures processedPosts == old(processedPosts) && processedCount == old(processedCount)
    {
      if url == "" {
        return;
      }
      visitedUrls := visitedUrls[url := now];
    }

    /** `filterDuplicatePosts()`: the posts that are neither processed nor at
        a visited address, in order; the dictionaries are only read. */
    method FilterDuplicatePosts(posts: seq<Post>) returns (unique: seq<Post>)
      ensures unique == FreshPosts(processedPosts, visitedUrls, posts)
    {
      unique := SkipKnown(processedPosts, visitedUrls, posts);
    }

    /** `processPostsWithDuplicateFilter()`. The callback's reply to the `i`-th
        post that passed the filter is `reply(i)`, and the clock reads `now(i)`
        while that post is marked. Returns the filtered posts
        and the values the callback returned. Only posts with a truthy reply
        are marked, by key and (when they have one) by address. */
    method ProcessPostsWithDuplicateFilter(posts: seq<Post>, reply: nat -> Reply, now: nat -> int)
      returns (filtered: seq<Post>, results: seq<string>)
      modifies this
      ensures filtered == FreshPosts(old(processedPosts), old(visitedUrls), posts)
      ensures results == ReturnedValues(reply, |filtered|)
      ensures processedCount == old(processedCount) + TruthyCount(reply, |filtered|)
      ensures processedPosts.Keys <= old(processedPosts).Keys + MarkedKeys(filtered, reply, |filtered|)
      ensures visitedUrls.Keys <= old(visitedUrls).Keys + MarkedUrls(filtered, reply, |filtered|)
      // When no cleanup was due, exactly the truthy posts were added.
      ensures old(processedCount) % CacheCleanupInterval + TruthyCount(reply, |filtered|) < CacheCleanupInterval ==>
        && processedPosts.Keys == old(processedPosts).Keys + MarkedKeys(filtered, reply, |filtered|)
        && visitedUrls.Keys == old(visitedUrls).Keys + MarkedUrls(filtered, reply, |filtered|)
    {
      filtered := FilterDuplicatePosts(posts);
      results := [];
      ghost var c0, posts0, urls0 := processedCount, processedPosts.Keys, visitedUrls.Keys;
      for i := 0 to |filtered|
        invariant results == ReturnedValues(reply, i)
        invariant Progress(posts0, urls0, c0, filtered, reply, i, processedPosts.Keys, visitedUrls.Keys, processedCount)
      {
        ghost var keys, urls, count := processedPosts.Keys, visitedUrls.Keys, processedCount;
        var r := reply(i);
        if r.Returned? {
          results := results + [r.value];
          if r.truthy {
            MarkSucceeded(filtered[i], now(i));
          }
        }
        ProgressStep(posts0, urls0, c0, filtered, reply, i, keys, urls, count,
                     processedPosts.Keys, visitedUrls.Keys, processedCount);
      }
    }

    /** The marks for a post whose reply was truthy: its key, then its address
        when it has one. */
    method MarkSucceeded(post: Post, now: int)
      modifies this
      ensures processedCount == old(processedCount) + 1
      ensures processedPosts.Keys <= old(processedPosts).Keys + {PostKey(post)}
      ensures visitedUrls.Keys <= old(visitedUrls).Keys + (if Address(post) != "" then {Address(post)} else {})
      ensures processedCount % CacheCleanupInterval != 0 ==>
        && processedPosts.Keys == old(processedPosts).Keys + {PostKey(post)}
        && visitedUrls.Keys == old(visitedUrls).Keys + (if Address(post) != "" then {Address(post)} else {})
    {
      MarkPostProcessed(post, now);
      var postUrl := Address(post);
      if postUrl != "" {
        MarkUrlVisited(postUrl, now);
      }
    }

    /** `clearCache()`: both dictionaries empty. */
    method ClearCache()
      modifies this
      ensures processedPosts == map[] && visitedUrls == map[]
      ensures processedCount == old(processedCount)
    {
      processedPosts := map[];
      visitedUrls := map[];
    }

    /** `removeOldEntries(daysOld = 30)`: drop every entry stamped before
        `daysOld` days ago, keep all others; a missing argument means 30 days. */
    method RemoveOldEntries(now: int, daysOld: Option<int>)
      modifies this
      ensures processedPosts == Purged(old(processedPosts), PostStamp, now - DaysOrDefault(daysOld) * Day)
      ensures visitedUrls == Purged(old(visitedUrls), UrlStamp, now - DaysOrDefault(daysOld) * Day)
      ensures daysOld.None? ==> DaysOrDefault(daysOld) == 30
      ensures processedCount == old(processedCount)
    {
      var cutoff := now - DaysOrDefault(daysOld) * Day;
      processedPosts := PurgeBefore(processedPosts, PostStamp, cutoff);
      visitedUrls := PurgeBefore(visitedUrls, UrlStamp, cutoff);
    }
  }
}
