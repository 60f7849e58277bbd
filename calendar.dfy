/** The calendar page: it loads the user's roadmap (sorted by day), and when a day
    is clicked fills a per-topic cache of video search results for that day's
    topics, fetching only the topics the cache does not hold yet. */
module Calendar {
  import opened Wrappers
  import opened Text
  import opened Browser
  import opened DaySection

  /** The reply to the `users.target` query. */
  datatype TargetReply = TargetError | TargetRow(target: Option<string>)

  /** The reply to the `roadmap` query: an error, data that is not an array, or rows. */
  datatype RoadmapReply = RoadmapError | NotAnArray | Rows(rows: seq<RoadmapItem>)

  // ---- sorting by day -------------------------------------------------------

  predicate SortedByDay(s: seq<RoadmapItem>) {
    forall i, j :: 0 <= i < j < |s| ==> s[i].day <= s[j].day
  }

  /** The rows of one day, in their order. */
  function OfDay(s: seq<RoadmapItem>, d: int): seq<RoadmapItem> {
    if s == [] then [] else (if s[0].day == d then [s[0]] else []) + OfDay(s[1..], d)
  }

  /** `x` placed before the first row whose day is not smaller. */
  function InsertByDay(x: RoadmapItem, s: seq<RoadmapItem>): (r: seq<RoadmapItem>)
    ensures |r| == |s| + 1
  {
    if s == [] || x.day <= s[0].day then [x] + s else [s[0]] + InsertByDay(x, s[1..])
  }

  /** Inserting into a sorted list keeps it sorted and adds exactly `x`. */
  lemma InsertByDaySpec(x: RoadmapItem, s: seq<RoadmapItem>)
    requires SortedByDay(s)
    ensures SortedByDay(InsertByDay(x, s))
    ensures multiset(InsertByDay(x, s)) == multiset(s) + multiset{x}
    ensures forall y :: y in InsertByDay(x, s) ==> y == x || y in s
  {
    InsertByDayMultiset(x, s);
    InsertByDaySorted(x, s);
    forall y | y in InsertByDay(x, s) ensures y == x || y in s {
      assert y in multiset(InsertByDay(x, s));
    }
  }

  lemma {:induction false} InsertByDayMultiset(x: RoadmapItem, s: seq<RoadmapItem>)
    ensures multiset(InsertByDay(x, s)) == multiset(s) + multiset{x}
  {
    if s != [] && x.day > s[0].day {
      InsertByDayMultiset(x, s[1..]);
      assert s == [s[0]] + s[1..];
    }
  }

  /** A lower bound on every day, `x`'s included, bounds the result's days. */
  lemma {:induction false} InsertByDayLower(x: RoadmapItem, s: seq<RoadmapItem>, d: int)
    requires d <= x.day && forall k :: 0 <= k < |s| ==> d <= s[k].day
    ensures forall k :: 0 <= k < |InsertByDay(x, s)| ==> d <= InsertByDay(x, s)[k].day
  {
    if s != [] && x.day > s[0].day {
      var rest := InsertByDay(x, s[1..]);
      InsertByDayLower(x, s[1..], d) by {
        forall k | 0 <= k < |s[1..]| ensures d <= s[1..][k].day {
          assert s[1..][k] == s[k + 1];
        }
      }
      assert InsertByDay(x, s) == [s[0]] + rest;
    }
  }

  lemma {:induction false} InsertByDaySorted(x: RoadmapItem, s: seq<RoadmapItem>)
    requires SortedByDay(s)
    ensures SortedByDay(InsertByDay(x, s))
  {
    var r := InsertByDay(x, s);
    if s == [] || x.day <= s[0].day {
      forall i, j | 0 <= i < j < |r| ensures r[i].day <= r[j].day {
        if i > 0 {
          assert r[i] == s[i - 1] && r[j] == s[j - 1];
        } else {
          assert r[j] == s[j - 1];
        }
      }
    } else {
      var rest := InsertByDay(x, s[1..]);
      assert SortedByDay(s[1..]) by {
        forall i, j | 0 <= i < j < |s[1..]| ensures s[1..][i].day <= s[1..][j].day {
          assert s[1..][i] == s[i + 1] && s[1..][j] == s[j + 1];
        }
      }
      InsertByDaySorted(x, s[1..]);
      InsertByDayLower(x, s[1..], s[0].day) by {
        forall k | 0 <= k < |s[1..]| ensures s[0].day <= s[1..][k].day {
          assert s[1..][k] == s[k + 1];
        }
      }
      assert r == [s[0]] + rest;
      forall i, j | 0 <= i < j < |r| ensures r[i].day <= r[j].day {
        if i > 0 {
          assert r[i] == rest[i - 1] && r[j] == rest[j - 1];
        } else {
          assert r[j] == rest[j - 1];
        }
      }
    }
  }

  lemma {:induction false} InsertByDayOfDay(x: RoadmapItem, s: seq<RoadmapItem>, d: int)
    ensures OfDay(InsertByDay(x, s), d) == (if x.day == d then [x] else []) + OfDay(s, d)
  {
    var r := InsertByDay(x, s);
    if s == [] || x.day <= s[0].day {
      assert r[0] == x && r[1..] == s;
    } else {
      assert r[0] == s[0] && r[1..] == InsertByDay(x, s[1..]);
      InsertByDayOfDay(x, s[1..], d);
      assert OfDay(r, d) == (if s[0].day == d then [s[0]] else []) + OfDay(r[1..], d);
      assert OfDay(s, d) == (if s[0].day == d then [s[0]] else []) + OfDay(s[1..], d);
      if x.day == d {
        assert s[0].day != d;
      }
    }
  }

  /** `[...data].sort((a, b) => Number(a.day) - Number(b.day))`: a sorted copy
      that holds the same rows. */
  function SortByDay(s: seq<RoadmapItem>): (r: seq<RoadmapItem>)
    ensures SortedByDay(r)
    ensures multiset(r) == multiset(s)
    ensures |r| == |s|
  {
    if s == [] then []
    else
      var rest := SortByDay(s[1..]);
      InsertByDaySpec(s[0], rest);
      assert s == [s[0]] + s[1..];
      InsertByDay(s[0], rest)
  }

  /** The sort is stable: the rows of any one day keep their relative order. */
  lemma {:induction false} SortByDayStable(s: seq<RoadmapItem>, d: int)
    ensures OfDay(SortByDay(s), d) == OfDay(s, d)
  {
    if s != [] {
      SortByDayStable(s[1..], d);
      InsertByDayOfDay(s[0], SortByDay(s[1..]), d);
    }
  }

  // ---- finding a day --------------------------------------------------------

  /** The index of the first row of that day, or `|s|` when there is none. */
  function FirstOfDay(s: seq<RoadmapItem>, day: int): (k: nat)
    ensures k <= |s|
    ensures forall j :: 0 <= j < k ==> s[j].day != day
    ensures k < |s| ==> s[k].day == day
  {
    if s == [] || s[0].day == day then 0 else 1 + FirstOfDay(s[1..], day)
  }

  /** `roadmap.find((i) => i.day === day)`: the first row of that day. */
  function FindDay(s: seq<RoadmapItem>, day: int): (r: Option<RoadmapItem>)
    ensures r.None? <==> forall i :: 0 <= i < |s| ==> s[i].day != day
    ensures r.Some? ==> r.value.day == day && r.value == s[FirstOfDay(s, day)]
  {
    var k := FirstOfDay(s, day);
    if k < |s| then Some(s[k]) else None
  }

  // ---- the per-topic video cache -------------------------------------------

  /** The body of the search request for a topic: `${topic} for ${target}`. */
  function SearchQuery(topic: string, target: string): string {
    topic + " for " + target
  }

  /** The list cached for a topic from its search outcome: the results, or an empty
      list when the request failed (threw, was not OK, had no JSON) or the body was null. */
  function Cached(outcome: Option<seq<Video>>): seq<Video> {
    outcome.GetOr([])
  }

  /** What the cache receives for a topic: the cached outcome of searching its query. */
  function Fetcher(search: string -> Option<seq<Video>>, target: string): string -> seq<Video> {
    t => Cached(search(SearchQuery(t, target)))
  }

  /** The cache after filling the given topics: every topic that had an entry keeps
      it, every other topic gets its fetched list. */
  function Filled(cache: map<string, seq<Video>>, topics: seq<string>, fetched: string -> seq<Video>): map<string, seq<Video>> {
    map k | k in cache.Keys + (set t | t in topics) :: if k in cache then cache[k] else fetched(k)
  }

  /** The topics that are searched for, in order (a topic listed twice is searched twice). */
  function Missing(cache: map<string, seq<Video>>, topics: seq<string>): seq<string> {
    if topics == [] then []
    else (if topics[0] !in cache then [topics[0]] else []) + Missing(cache, topics[1..])
  }

  /** A topic is searched for exactly when it is listed and has no entry. */
  lemma {:induction false} MissingSpec(cache: map<string, seq<Video>>, topics: seq<string>, t: string)
    ensures t in Missing(cache, topics) <==> t in topics && t !in cache
  {
    if topics != [] {
      MissingSpec(cache, topics[1..], t);
      assert topics == [topics[0]] + topics[1..];
    }
  }

  /** After a fill every topic has an entry, and what was cached before is unchanged. */
  lemma FilledSpec(cache: map<string, seq<Video>>, topics: seq<string>, fetched: string -> seq<Video>)
    ensures Filled(cache, topics, fetched).Keys == cache.Keys + (set t | t in topics)
    ensures forall k :: k in cache ==> Filled(cache, topics, fetched)[k] == cache[k]
    ensures forall t :: t in topics && t !in cache ==> Filled(cache, topics, fetched)[t] == fetched(t)
  {
  }

  /** When every topic already has an entry (an empty list counts), nothing is
      searched and the cache is unchanged. */
  lemma FilledAllPresent(cache: map<string, seq<Video>>, topics: seq<string>, fetched: string -> seq<Video>)
    requires forall t :: t in topics ==> t in cache
    ensures Missing(cache, topics) == []
    ensures Filled(cache, topics, fetched) == cache
  {
    var m := Missing(cache, topics);
    if m != [] {
      MissingSpec(cache, topics, m[0]);
    }
  }

  /** Filling the same day again searches nothing and changes nothing. */
  lemma FilledIdempotent(cache: map<string, seq<Video>>, topics: seq<string>, f: string -> seq<Video>, g: string -> seq<Video>)
    ensures Missing(Filled(cache, topics, f), topics) == []
    ensures Filled(Filled(cache, topics, f), topics, g) == Filled(cache, topics, f)
  {
    FilledAllPresent(Filled(cache, topics, f), topics, g);
  }

  /** The `for ... of` with `break`: is some topic of the day without an entry? */
  method NeedFetch(cache: map<string, seq<Video>>, topics: seq<string>) returns (needFetch: bool)
    ensures needFetch <==> exists t :: t in topics && t !in cache
  {
    needFetch := false;
    var i := 0;
    while i < |topics|
      invariant 0 <= i <= |topics|
      invariant forall j :: 0 <= j < i ==> topics[j] in cache
    {
      if topics[i] !in cache {
        needFetch := true;
        break;
      }
      i := i + 1;
    }
  }

  /** The `Promise.all` over the day's topics, run one topic after another. Every
      topic checks the copy taken before any result arrived, so a topic listed twice
      is searched twice; both searches send the same query, so the cache ends the
      same as when the requests interleave. */
  method FillMissing(cache: map<string, seq<Video>>, topics: seq<string>, target: string,
                     search: string -> Option<seq<Video>>)
    returns (filled: map<string, seq<Video>>, queries: seq<string>)
    ensures filled == Filled(cache, topics, Fetcher(search, target))
    ensures queries == Queries(Missing(cache, topics), target)
  {
    var fetch := Fetcher(search, target);
    filled := cache;
    queries := [];
    var i := 0;
    while i < |topics|
      invariant 0 <= i <= |topics|
      invariant filled == Filled(cache, topics[..i], fetch)
      invariant queries == Queries(Missing(cache, topics[..i]), target)
    {
      var topic := topics[i];
      ghost var seen := topics[..i];
      PrefixSnoc(topics, i);
      FilledSnoc(cache, seen, topic, fetch);
      MissingQueriesSnoc(cache, seen, topic, target);
      if topic !in cache {
        filled := filled[topic := fetch(topic)];
        queries := queries + [SearchQuery(topic, target)];
      }
      i := i + 1;
    }
    assert topics[..|topics|] == topics;
  }

  lemma PrefixSnoc<T>(s: seq<T>, i: nat)
    requires i < |s|
    ensures s[..i + 1] == s[..i] + [s[i]]
  {
  }

  /** The search queries for a list of topics. */
  function Queries(topics: seq<string>, target: string): (r: seq<string>)
    ensures |r| == |topics|
  {
    if topics == [] then [] else [SearchQuery(topics[0], target)] + Queries(topics[1..], target)
  }

  lemma FilledSnoc(cache: map<string, seq<Video>>, topics: seq<string>, t: string, f: string -> seq<Video>)
    ensures Filled(cache, topics + [t], f) ==
            if t in cache then Filled(cache, topics, f) else Filled(cache, topics, f)[t := f(t)]
  {
    var a := Filled(cache, topics + [t], f);
    var b := if t in cache then Filled(cache, topics, f) else Filled(cache, topics, f)[t := f(t)];
    assert (set u | u in topics + [t]) == (set u | u in topics) + {t};
    assert a.Keys == b.Keys;
    forall k | k in a.Keys ensures a[k] == b[k] {
    }
  }

  lemma MissingQueriesSnoc(cache: map<string, seq<Video>>, seen: seq<string>, t: string, target: string)
    ensures Queries(Missing(cache, seen + [t]), target) ==
            Queries(Missing(cache, seen), target) + (if t !in cache then [SearchQuery(t, target)] else [])
  {
    MissingSnoc(cache, seen, t);
    if t !in cache {
      QueriesSnoc(Missing(cache, seen), [t], target);
    } else {
      assert Missing(cache, seen + [t]) == Missing(cache, seen);
    }
  }

  lemma {:induction false} QueriesSnoc(a: seq<string>, b: seq<string>, target: string)
    ensures Queries(a + b, target) == Queries(a, target) + Queries(b, target)
  {
    if a != [] {
      assert (a + b)[1..] == a[1..] + b;
      QueriesSnoc(a[1..], b, target);
    } else {
      assert a + b == b;
    }
  }

  lemma {:induction false} MissingSnoc(cache: map<string, seq<Video>>, topics: seq<string>, t: string)
    ensures Missing(cache, topics + [t]) == Missing(cache, topics) + (if t !in cache then [t] else [])
  {
    if topics != [] {
      assert (topics + [t])[1..] == topics[1..] + [t];
      MissingSnoc(cache, topics[1..], t);
    } else {
      assert Missing(cache, [t][1..]) == [];
    }
  }

  // ---- the page -------------------------------------------------------------

  /** The item handed to `DaySection`: its `topics` made
      `topics ?? (topic ? [topic] : [])`. */
  function HandedItem(item: RoadmapItem): (r: RoadmapItem)
    ensures r.topics != Absent
    ensures r.day == item.day && r.topic == item.topic && r.subtasks == item.subtasks
  {
    if item.topics.Absent? then item.(topics := List(if HasTopic(item) then [item.topic.value] else []))
    else item
  }

  /** The section shows exactly the topics the page fetched videos for. */
  lemma HandedTopicsAgree(item: RoadmapItem)
    ensures NormalizeTopics(HandedItem(item)) == NormalizeTopics(item)
  {
  }

  /** The topics whose videos were searched for ended with an empty list exactly
      when their search failed or returned nothing. After such a fill, the section
      as written shows "Loading videos..." for a topic whose search has finished. */
  lemma FailedSearchShowsLoading(cache: map<string, seq<Video>>, topics: seq<string>, target: string,
                                 search: string -> Option<seq<Video>>, t: string)
    requires t in topics && t !in cache && search(SearchQuery(t, target)).None?
    ensures VideoPanelAsWritten(Filled(cache, topics, Fetcher(search, target)), t) == LoadingPlaceholder
  {
  }

  /** With the intended panel, no topic of a filled day shows the loading text, and a
      failed search shows the notice instead. */
  lemma FilledNeverLoading(cache: map<string, seq<Video>>, topics: seq<string>, target: string,
                           search: string -> Option<seq<Video>>, t: string)
    requires t in topics
    ensures VideoPanelIntended(Filled(cache, topics, Fetcher(search, target)), t) != LoadingPlaceholder
    ensures t !in cache && search(SearchQuery(t, target)).None? ==>
              VideoPanelIntended(Filled(cache, topics, Fetcher(search, target)), t) == NoVideosNotice
  {
  }

  /** The topics of the first roadmap row of that day, when there is one. */
  function DayTopics(roadmap: seq<RoadmapItem>, day: int): (r: Option<seq<string>>)
    ensures r.None? <==> forall i :: 0 <= i < |roadmap| ==> roadmap[i].day != day
  {
    var found := FindDay(roadmap, day);
    if found.None? then None else Some(NormalizeTopics(found.value))
  }

  /** Whether `fetchVideosForDay` searches anything: the day is in the roadmap and
      one of its topics has no entry. */
  predicate NeedsFetch(cache: map<string, seq<Video>>, roadmap: seq<RoadmapItem>, day: int) {
    DayTopics(roadmap, day).Some? && Missing(cache, DayTopics(roadmap, day).value) != []
  }

  /** The cache `fetchVideosForDay` leaves behind. */
  function CacheAfter(cache: map<string, seq<Video>>, roadmap: seq<RoadmapItem>, day: int, target: string,
                      search: string -> Option<seq<Video>>): map<string, seq<Video>> {
    if DayTopics(roadmap, day).None? then cache
    else Filled(cache, DayTopics(roadmap, day).value, Fetcher(search, target))
  }

  /** The search queries `fetchVideosForDay` sends, in order. */
  function QueriesFor(cache: map<string, seq<Video>>, roadmap: seq<RoadmapItem>, day: int, target: string): seq<string> {
    if DayTopics(roadmap, day).None? then []
    else Queries(Missing(cache, DayTopics(roadmap, day).value), target)
  }

  /** The cache work of `fetchVideosForDay` on a snapshot of the page: whether any
      search is made, the searches, and the cache to store. */
  method FillForDay(cache: map<string, seq<Video>>, roadmap: seq<RoadmapItem>, day: int, target: string,
                    search: string -> Option<seq<Video>>)
    returns (filled: map<string, seq<Video>>, queries: seq<string>, needFetch: bool)
    ensures needFetch == NeedsFetch(cache, roadmap, day)
    ensures filled == CacheAfter(cache, roadmap, day, target, search)
    ensures queries == QueriesFor(cache, roadmap, day, target)
  {
    var found := FindDay(roadmap, day);
    if found.None? {
      return cache, [], false;
    }
    var topics := NormalizeTopics(found.value);
    needFetch := NeedFetch(cache, topics);
    ghost var missing := Missing(cache, topics);
    if !needFetch {
      FilledAllPresent(cache, topics, Fetcher(search, target));
      return cache, [], false;
    }
    assert missing != [] by {
      var t :| t in topics && t !in cache;
      MissingSpec(cache, topics, t);
    }
    filled, queries := FillMissing(cache, topics, target, search);
  }

  /** Nothing is searched exactly when the cache is left as it was, and then no
      query is sent. */
  lemma NoFetchNoChange(cache: map<string, seq<Video>>, roadmap: seq<RoadmapItem>, day: int, target: string,
                        search: string -> Option<seq<Video>>)
    requires !NeedsFetch(cache, roadmap, day)
    ensures CacheAfter(cache, roadmap, day, target, search) == cache
    ensures QueriesFor(cache, roadmap, day, target) == []
  {
    if DayTopics(roadmap, day).Some? {
      var topics := DayTopics(roadmap, day).value;
      forall t | t in topics ensures t in cache {
        MissingSpec(cache, topics, t);
      }
      FilledAllPresent(cache, DayTopics(roadmap, day).value, Fetcher(search, target));
    }
  }

  /** The target after the `users` query: a truthy `target` replaces the current one. */
  function TargetAfter(current: string, reply: TargetReply): string {
    if reply.TargetRow? && reply.target.Some? && reply.target.value != "" then reply.target.value else current
  }

  class CalendarPage {
    var loading: bool
    var roadmap: seq<RoadmapItem>
    var videoMap: map<string, seq<Video>>
    var selectedDay: Option<int>
    var target: string
    var userId: string
    var videoLoading: bool
    var effects: seq<Effect>
    var searches: seq<string>

    constructor ()
      ensures loading && roadmap == [] && videoMap == map[] && selectedDay == None
      ensures target == "" && userId == "" && !videoLoading && effects == [] && searches == []
    {
      loading := true;
      roadmap := [];
      videoMap := map[];
      selectedDay := None;
      target := "";
      userId := "";
      videoLoading := false;
      effects := [];
      searches := [];
    }

    /** `fetchRoadmap`. Without a session: a redirect to /login and nothing else, no
        query made. With one: the user id is stored, a truthy target replaces the
        current one, and then a roadmap error or non-array reply redirects to
        /analyze leaving the roadmap and the loading flag alone, while rows are
        stored sorted by day and loading ends. */
    method FetchRoadmap(session: Option<string>, targetReply: TargetReply, roadmapReply: RoadmapReply)
      returns (queried: bool)
      modifies this
      ensures queried <==> session.Some?
      ensures session.None? ==>
        && effects == old(effects) + [Replace("/login")]
        && userId == old(userId) && target == old(target) && roadmap == old(roadmap) && loading == old(loading)
      ensures session.Some? ==> userId == session.value
      ensures session.Some? ==> target == TargetAfter(old(target), targetReply)
      ensures session.Some? && !roadmapReply.Rows? ==>
        effects == old(effects) + [Replace("/analyze")] && roadmap == old(roadmap) && loading == old(loading)
      ensures session.Some? && roadmapReply.Rows? ==>
        effects == old(effects) && roadmap == SortByDay(roadmapReply.rows) && !loading
      ensures videoMap == old(videoMap) && selectedDay == old(selectedDay) && videoLoading == old(videoLoading)
      ensures searches == old(searches)
    {
      if session.None? {
        effects := effects + [Replace("/login")];
        return false;
      }
      queried := true;
      userId := session.value;
      target := TargetAfter(target, targetReply);
      LoadRows(roadmapReply);
    }

    /** The roadmap part of `fetchRoadmap`: an error or non-array reply redirects
        to /analyze; rows are stored sorted by day and loading ends. */
    method LoadRows(roadmapReply: RoadmapReply)
      modifies this
      ensures !roadmapReply.Rows? ==>
        effects == old(effects) + [Replace("/analyze")] && roadmap == old(roadmap) && loading == old(loading)
      ensures roadmapReply.Rows? ==>
        effects == old(effects) && roadmap == SortByDay(roadmapReply.rows) && !loading
      ensures userId == old(userId) && target == old(target)
      ensures videoMap == old(videoMap) && selectedDay == old(selectedDay) && videoLoading == old(videoLoading)
      ensures searches == old(searches)
    {
      if !roadmapReply.Rows? {
        effects := effects + [Replace("/analyze")];
        return;
      }
      roadmap := SortByDay(roadmapReply.rows);
      loading := false;
    }

    /** `fetchVideosForDay`. A day not in the roadmap changes nothing; a day whose
        topics all have entries changes nothing; otherwise the cache becomes its fill
        for the day's topics, each missing topic is searched once per listing, and
        the video spinner is off again at the end. */
    method FetchVideosForDay(day: int, search: string -> Option<seq<Video>>)
      modifies this
      ensures videoMap == CacheAfter(old(videoMap), old(roadmap), day, target, search)
      ensures searches == old(searches) + QueriesFor(old(videoMap), old(roadmap), day, target)
      ensures videoLoading == (old(videoLoading) && !NeedsFetch(old(videoMap), old(roadmap), day))
      ensures roadmap == old(roadmap) && target == old(target) && userId == old(userId) && loading == old(loading)
      ensures selectedDay == old(selectedDay) && effects == old(effects)
    {
      var filled, queries, needFetch := FillForDay(videoMap, roadmap, day, target, search);
      if needFetch {
        videoLoading := true;
        searches := searches + queries;
        videoMap := filled;
        videoLoading := false;
      } else {
        NoFetchNoChange(videoMap, roadmap, day, target, search);
      }
    }

    /** A click on a day button: select it, then fetch its videos. */
    method ClickDay(day: int, search: string -> Option<seq<Video>>)
      modifies this
      ensures selectedDay == Some(day)
      ensures videoMap == CacheAfter(old(videoMap), old(roadmap), day, target, search)
      ensures searches == old(searches) + QueriesFor(old(videoMap), old(roadmap), day, target)
      ensures videoLoading == (old(videoLoading) && !NeedsFetch(old(videoMap), old(roadmap), day))
      ensures roadmap == old(roadmap) && target == old(target) && userId == old(userId) && loading == old(loading)
      ensures effects == old(effects)
    {
      selectedDay := Some(day);
      FetchVideosForDay(day, search);
    }

    /** The item shown for the selected day, if the roadmap has one. */
    function SelectedItem(): (r: Option<RoadmapItem>)
      reads this
      ensures r.Some? <==> selectedDay.Some? && exists i :: 0 <= i < |roadmap| && roadmap[i].day == selectedDay.value
      ensures r.Some? ==> r.value.day == selectedDay.value && r.value.topics != Absent
    {
      if selectedDay.None? then None
      else
        var found := FindDay(roadmap, selectedDay.value);
        if found.None? then None else Some(HandedItem(found.value))
    }
  }
}
