/**
 * The decision rules of the Facebook group scanner: which keywords a post
 * matches, the post id taken from its permalink, and which scraped posts are
 * sent on in one session.
 *
 * The keyword table (the categories of `config/keywords.json`, in their
 * order) and the session cap are parameters; so are the posts, as the text,
 * url and author the page yielded. The browser and the delivery to n8n are
 * not modelled.
 */
module ScannerBot {
  import opened Common

  /** A keyword category: its name and its keywords, in file order. */
  datatype Category = Category(name: string, keywords: seq<string>)

  /** What `matchKeywords()` returns; `None` is a missing or null category. */
  datatype MatchResult = MatchResult(matched: bool, keywords: seq<string>, category: Option<string>)

  /** The keywords of one category found in the lower-cased text, in order. */
  function Found(lower: string, keywords: seq<string>): (found: seq<string>)
    ensures forall k :: k in found <==> k in keywords && Includes(lower, Lower(k))
  {
    if |keywords| == 0 then []
    else
      var last := keywords[|keywords| - 1];
      var rest := Found(lower, keywords[..|keywords| - 1]);
      assert forall k :: k in keywords <==> k in keywords[..|keywords| - 1] || k == last;
      if Includes(lower, Lower(last)) then rest + [last] else rest
  }

  /** The keywords found, category after category. */
  function AllFound(table: seq<Category>, lower: string): seq<string>
  {
    if |table| == 0 then []
    else AllFound(table[..|table| - 1], lower) + Found(lower, table[|table| - 1].keywords)
  }

  /** A falsy category name (only the empty one) is overwritten by the next
      category with a match. */
  function CategoryStep(current: Option<string>, c: Category, lower: string): Option<string>
  {
    if |Found(lower, c.keywords)| > 0 && (current.None? || current.value == "") then Some(c.name) else current
  }

  function CategoryFold(table: seq<Category>, lower: string): Option<string>
  {
    if |table| == 0 then None
    else CategoryStep(CategoryFold(table[..|table| - 1], lower), table[|table| - 1], lower)
  }

  /** `matchKeywords(text)` over a keyword table. */
  function KeywordMatch(table: seq<Category>, text: string): (r: MatchResult)
    ensures text == "" ==> r == MatchResult(false, [], None)
    ensures r.matched <==> |r.keywords| > 0
  {
    if text == "" then MatchResult(false, [], None)
    else
      var lower := Lower(text);
      var found := AllFound(table, lower);
      MatchResult(|found| > 0, found, CategoryFold(table, lower))
  }

  /** The inner loop of `matchKeywords()` over one category's keywords:
      each one found is appended, and a falsy category match so far is
      replaced by this category. */
  method ScanCategory(c: Category, lower: string, found0: seq<string>, match0: Option<string>)
    returns (found: seq<string>, categoryMatch: Option<string>)
    ensures found == found0 + Found(lower, c.keywords)
    ensures categoryMatch == CategoryStep(match0, c, lower)
  {
    found, categoryMatch := found0, match0;
    var j := 0;
    while j < |c.keywords|
      invariant 0 <= j <= |c.keywords|
      invariant found == found0 + Found(lower, c.keywords[..j])
      invariant categoryMatch ==
        if |Found(lower, c.keywords[..j])| > 0 && (match0.None? || match0.value == "") then Some(c.name) else match0
    {
      var keyword := c.keywords[j];
      assert c.keywords[..j + 1][..j] == c.keywords[..j];
      if Includes(lower, Lower(keyword)) {
        found := found + [keyword];
        if categoryMatch.None? || categoryMatch.value == "" {
          categoryMatch := Some(c.name);
        }
      }
      j := j + 1;
    }
    assert c.keywords[..j] == c.keywords;
  }

  /** `matchKeywords()`: the outer loop over the categories, in order. */
  method MatchKeywords(table: seq<Category>, text: string) returns (r: MatchResult)
    ensures r == KeywordMatch(table, text)
  {
    if text == "" {
      return MatchResult(false, [], None);
    }
    var lower := Lower(text);
    var found: seq<string> := [];
    var categoryMatch: Option<string> := None;
    var i := 0;
    while i < |table|
      invariant 0 <= i <= |table|
      invariant found == AllFound(table[..i], lower)
      invariant categoryMatch == CategoryFold(table[..i], lower)
    {
      assert table[..i + 1][..i] == table[..i];
      found, categoryMatch := ScanCategory(table[i], lower, found, categoryMatch);
      i := i + 1;
    }
    assert table[..i] == table;
    r := MatchResult(|found| > 0, found, categoryMatch);
  }

  /** Exactly the keywords that occur in the text, ignoring case, are
      returned. */
  lemma {:induction false} AllFoundMeaning(table: seq<Category>, lower: string)
    ensures forall k :: k in AllFound(table, lower) <==>
      (exists c :: c in table && k in c.keywords) && Includes(lower, Lower(k))
  {
    if |table| > 0 {
      var init := table[..|table| - 1];
      AllFoundMeaning(init, lower);
      assert forall c :: c in table <==> c in init || c == table[|table| - 1];
    }
  }

  /** Keywords come in category order: those of earlier categories first. */
  lemma {:induction false} AllFoundAppend(a: seq<Category>, b: seq<Category>, lower: string)
    ensures AllFound(a + b, lower) == AllFound(a, lower) + AllFound(b, lower)
  {
    if |b| > 0 {
      assert (a + b)[..|a + b| - 1] == a + b[..|b| - 1];
      AllFoundAppend(a, b[..|b| - 1], lower);
    } else {
      assert a + b == a;
    }
  }

  /** For a non-empty text the keywords returned are exactly the table's
      keywords that occur in it, ignoring case. */
  lemma KeywordsOfText(table: seq<Category>, text: string)
    requires text != ""
    ensures forall k :: k in KeywordMatch(table, text).keywords <==>
      (exists c :: c in table && k in c.keywords) && Includes(Lower(text), Lower(k))
  {
    AllFoundMeaning(table, Lower(text));
  }

  /** With non-empty category names, the category is that of the first
      category with a match, and none when no category matched. */
  lemma {:induction false} CategoryIsFirstMatch(table: seq<Category>, lower: string) returns (i: nat)
    requires forall c :: c in table ==> c.name != ""
    ensures CategoryFold(table, lower).None? <==> forall j :: 0 <= j < |table| ==> |Found(lower, table[j].keywords)| == 0
    ensures CategoryFold(table, lower).Some? ==>
      && i < |table|
      && CategoryFold(table, lower) == Some(table[i].name)
      && |Found(lower, table[i].keywords)| > 0
      && forall j :: 0 <= j < i ==> |Found(lower, table[j].keywords)| == 0
  {
    i := 0;
    if |table| > 0 {
      var init := table[..|table| - 1];
      assert forall j :: 0 <= j < |init| ==> init[j] == table[j];
      i := CategoryIsFirstMatch(init, lower);
      if CategoryFold(init, lower).None? {
        i := |table| - 1;
      }
    }
  }

  const PostsMarker := "/posts/"
  const PermalinkMarker := "/permalink/"

  predicate IsDigit(c: char)
  {
    '0' <= c <= '9'
  }

  /** The regular expression `marker(\d+)` can match at position `i`. */
  predicate MatchAt(url: string, marker: string, i: nat)
  {
    OccursAt(url, marker, i) && i + |marker| < |url| && IsDigit(url[i + |marker|])
  }

  /** The leftmost position from `from` on where the pattern matches. */
  function FindFrom(url: string, marker: string, from: nat): (r: Option<nat>)
    ensures r.Some? ==> from <= r.value && MatchAt(url, marker, r.value)
    ensures r.Some? ==> forall j :: from <= j < r.value ==> !MatchAt(url, marker, j)
    ensures r.None? ==> forall j :: from <= j ==> !MatchAt(url, marker, j)
    decreases |url| - from
  {
    if from >= |url| then None
    else if MatchAt(url, marker, from) then Some(from)
    else FindFrom(url, marker, from + 1)
  }

  /** The longest run of digits at the start of `s`: what the greedy `\d+`
      takes. */
  function DigitRun(s: string): (d: string)
    ensures d <= s
    ensures forall k :: 0 <= k < |d| ==> IsDigit(d[k])
    ensures |d| == |s| || !IsDigit(s[|d|])
  {
    if |s| == 0 || !IsDigit(s[0]) then ""
    else [s[0]] + DigitRun(s[1..])
  }

  /** The digits after the leftmost match of the pattern, if any: the
      longest digit run that starts right after the marker. */
  function DigitsAfter(url: string, marker: string): (r: Option<string>)
    ensures r.Some? <==> exists i :: MatchAt(url, marker, i)
    ensures r.Some? ==> |r.value| > 0 && forall k :: 0 <= k < |r.value| ==> IsDigit(r.value[k])
    ensures r.Some? ==>
      && FindFrom(url, marker, 0).Some?
      && var start := FindFrom(url, marker, 0).value + |marker|;
      && r.value <= url[start..]
      && (start + |r.value| == |url| || !IsDigit(url[start + |r.value|]))
  {
    match FindFrom(url, marker, 0)
    case None => None
    case Some(i) => Some(DigitRun(url[i + |marker|..]))
  }

  /** The post id: the digits after `/posts/`, or else after `/permalink/`,
      and empty when the url is empty or neither pattern matches. */
  function ExternalId(url: string): (id: string)
    ensures url == "" ==> id == ""
    ensures forall k :: 0 <= k < |id| ==> IsDigit(id[k])
    ensures id == "" <==> forall i :: !MatchAt(url, PostsMarker, i) && !MatchAt(url, PermalinkMarker, i)
    ensures url != "" && DigitsAfter(url, PostsMarker).Some? ==> id == DigitsAfter(url, PostsMarker).value
    ensures url != "" && DigitsAfter(url, PostsMarker).None? && DigitsAfter(url, PermalinkMarker).Some? ==>
      id == DigitsAfter(url, PermalinkMarker).value
  {
    if url == "" then ""
    else
      match DigitsAfter(url, PostsMarker)
      case Some(d) => d
      case None =>
        match DigitsAfter(url, PermalinkMarker)
        case Some(d) => d
        case None => ""
  }

  /** A url made of a prefix with no match of `/posts/<digit>` in it, then
      `/posts/`, an id and a tail that does not go on with a digit, yields
      that id, whatever follows in the tail. */
  lemma ExternalIdOfPostUrl(prefix: string, id: string, tail: string)
    requires |id| > 0 && forall k :: 0 <= k < |id| ==> IsDigit(id[k])
    requires tail == "" || !IsDigit(tail[0])
    requires forall j :: 0 <= j < |prefix| ==> !MatchAt(prefix + PostsMarker + id + tail, PostsMarker, j)
    ensures ExternalId(prefix + PostsMarker + id + tail) == id
  {
    var url := prefix + PostsMarker + id + tail;
    MarkedRun(prefix, PostsMarker, id, tail);
    assert url[|prefix| + |PostsMarker|..] == id + tail;
    DigitRunOf(id, tail);
  }

  /** With no `/posts/<digit>` anywhere, a url made of a prefix with no
      `/permalink/<digit>` in it, then `/permalink/`, an id and a non-digit
      tail yields that id. */
  lemma ExternalIdOfPermalinkUrl(prefix: string, id: string, tail: string)
    requires |id| > 0 && forall k :: 0 <= k < |id| ==> IsDigit(id[k])
    requires tail == "" || !IsDigit(tail[0])
    requires forall j :: !MatchAt(prefix + PermalinkMarker + id + tail, PostsMarker, j)
    requires forall j :: 0 <= j < |prefix| ==> !MatchAt(prefix + PermalinkMarker + id + tail, PermalinkMarker, j)
    ensures ExternalId(prefix + PermalinkMarker + id + tail) == id
  {
    var url := prefix + PermalinkMarker + id + tail;
    MarkedRun(prefix, PermalinkMarker, id, tail);
    assert url[|prefix| + |PermalinkMarker|..] == id + tail;
    DigitRunOf(id, tail);
  }

  /** The marker sits at the end of the prefix and is followed by a digit,
      so the leftmost match is there when the prefix holds none. */
  lemma MarkedRun(prefix: string, marker: string, id: string, tail: string)
    requires |id| > 0 && IsDigit(id[0])
    requires forall j :: 0 <= j < |prefix| ==> !MatchAt(prefix + marker + id + tail, marker, j)
    ensures FindFrom(prefix + marker + id + tail, marker, 0) == Some(|prefix|)
  {
    var url := prefix + marker + id + tail;
    assert url[|prefix|..|prefix| + |marker|] == marker;
    assert url[|prefix| + |marker|] == id[0];
    assert MatchAt(url, marker, |prefix|);
  }

  /** A posts match wins over an earlier permalink match: a permalink url
      that goes on to a post yields the post's id. */
  lemma PostsTakesPrecedence()
    ensures ExternalId("/permalink/1/posts/2") == "2"
  {
    var prefix := "/permalink/1";
    var url := prefix + PostsMarker + "2" + "";
    assert url == "/permalink/1/posts/2";
    assert 'o' !in prefix;
    forall j | 0 <= j < |prefix|
      ensures !MatchAt(url, PostsMarker, j)
    {
      if OccursAt(url, PostsMarker, j) {
        ThirdOfPostsMarker(url, j);
        assert false;
      }
    }
    ExternalIdOfPostUrl(prefix, "2", "");
  }

  lemma ThirdOfPostsMarker(url: string, j: int)
    requires OccursAt(url, PostsMarker, j)
    ensures url[j + 2] == 'o'
  {
    assert url[j..j + |PostsMarker|][2] == url[j + 2];
  }

  lemma {:induction false} DigitRunOf(id: string, tail: string)
    requires forall k :: 0 <= k < |id| ==> IsDigit(id[k])
    requires tail == "" || !IsDigit(tail[0])
    ensures DigitRun(id + tail) == id
  {
    if |id| > 0 {
      assert (id + tail)[1..] == id[1..] + tail;
      DigitRunOf(id[1..], tail);
    } else {
      assert id + tail == tail;
    }
  }

  /** A scraped post, as far as the rules below look at it. */
  datatype PostData = PostData(textContent: string, url: string, author: string)

  /** What is sent on for a matched post. */
  datatype Sent = Sent(post: PostData, externalId: string, keywords: seq<string>, category: Option<string>)

  /** A post needs a text of at least five characters and a url. */
  predicate Valid(p: PostData)
  {
    |p.textContent| >= 5 && p.url != ""
  }

  /** The valid posts whose text matches, with their match, in page order:
      every post sent is valid and matched, and carries its own id, keywords
      and category; every valid matched post is sent. */
  function Eligible(posts: seq<PostData>, table: seq<Category>): (sent: seq<Sent>)
    ensures forall k :: 0 <= k < |sent| ==>
      && sent[k].post in posts && Valid(sent[k].post)
      && KeywordMatch(table, sent[k].post.textContent).matched
    ensures forall k :: 0 <= k < |sent| ==>
      && sent[k].externalId == ExternalId(sent[k].post.url)
      && sent[k].keywords == KeywordMatch(table, sent[k].post.textContent).keywords
      && sent[k].category == KeywordMatch(table, sent[k].post.textContent).category
    ensures forall p :: p in posts && Valid(p) && KeywordMatch(table, p.textContent).matched ==>
      exists k :: 0 <= k < |sent| && sent[k].post == p
  {
    if |posts| == 0 then []
    else
      var rest := Eligible(posts[..|posts| - 1], table);
      var p := posts[|posts| - 1];
      var m := KeywordMatch(table, p.textContent);
      assert forall q :: q in posts ==> q in posts[..|posts| - 1] || q == p;
      if Valid(p) && m.matched then
        var sent := rest + [Sent(p, ExternalId(p.url), m.keywords, m.category)];
        assert sent[|rest|].post == p;
        assert forall k :: 0 <= k < |rest| ==> sent[k] == rest[k];
        sent
      else rest
  }

  lemma {:induction false} EligibleAppend(a: seq<PostData>, b: seq<PostData>, table: seq<Category>)
    ensures Eligible(a + b, table) == Eligible(a, table) + Eligible(b, table)
  {
    if |b| > 0 {
      assert (a + b)[..|a + b| - 1] == a + b[..|b| - 1];
      EligibleAppend(a, b[..|b| - 1], table);
    } else {
      assert a + b == a;
    }
  }

  /** The first `n` of a list, all of it when shorter, none for `n <= 0`. */
  function Take<T>(s: seq<T>, n: int): (r: seq<T>)
    ensures |r| <= |s| && (n <= 0 ==> r == []) && (n > 0 ==> |r| <= n)
    ensures r <= s
  {
    if n <= 0 then [] else if n >= |s| then s else s[..n]
  }

  /** The per-post loop of a scan session: stop before the next post once
      `maxPosts` matched posts have been sent, skip invalid posts, and send
      the matched ones. The posts sent are the first `maxPosts` eligible
      posts. */
  method SelectPosts(posts: seq<PostData>, table: seq<Category>, maxPosts: int) returns (sent: seq<Sent>)
    ensures sent == Take(Eligible(posts, table), maxPosts)
    ensures forall k :: 0 <= k < |sent| ==>
      && Valid(sent[k].post) && KeywordMatch(table, sent[k].post.textContent).matched
      && sent[k].externalId == ExternalId(sent[k].post.url)
    ensures |sent| == if maxPosts <= 0 then 0 else if maxPosts < |Eligible(posts, table)| then maxPosts else |Eligible(posts, table)|
    ensures maxPosts >= |Eligible(posts, table)| ==>
      forall p :: p in posts && Valid(p) && KeywordMatch(table, p.textContent).matched ==>
        exists k :: 0 <= k < |sent| && sent[k].post == p
  {
    sent := [];
    var processedCount := 0;
    var i := 0;
    while i < |posts|
      invariant 0 <= i <= |posts|
      invariant processedCount == |sent|
      invariant sent == Eligible(posts[..i], table)
      invariant maxPosts > 0 ==> processedCount <= maxPosts
      invariant processedCount > 0 ==> processedCount <= maxPosts
    {
      if processedCount >= maxPosts {
        break;
      }
      var p := posts[i];
      assert posts[..i + 1][..i] == posts[..i];
      i := i + 1;
      if |p.textContent| < 5 {
        continue;
      }
      if p.url == "" {
        continue;
      }
      var m := MatchKeywords(table, p.textContent);
      if m.matched {
        sent := sent + [Sent(p, ExternalId(p.url), m.keywords, m.category)];
        processedCount := processedCount + 1;
      }
    }
    assert posts == posts[..i] + posts[i..];
    EligibleAppend(posts[..i], posts[i..], table);
    TakeEligible(posts, table, maxPosts);
  }

  /** What the first `maxPosts` eligible posts are. */
  lemma TakeEligible(posts: seq<PostData>, table: seq<Category>, maxPosts: int)
    ensures var sent := Take(Eligible(posts, table), maxPosts);
      && (forall k :: 0 <= k < |sent| ==>
            && Valid(sent[k].post) && KeywordMatch(table, sent[k].post.textContent).matched
            && sent[k].externalId == ExternalId(sent[k].post.url))
      && |sent| == (if maxPosts <= 0 then 0 else if maxPosts < |Eligible(posts, table)| then maxPosts else |Eligible(posts, table)|)
      && (maxPosts >= |Eligible(posts, table)| ==> sent == Eligible(posts, table))
  {
    var all := Take(Eligible(posts, table), maxPosts);
    assert forall k :: 0 <= k < |all| ==> all[k] == Eligible(posts, table)[k];
  }
}
