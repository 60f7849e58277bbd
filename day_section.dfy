/** One day of the roadmap on the calendar page: its topics, a checkbox per topic
    whose state is rehydrated from the `progress` table, and the toggle that writes
    the new state back with an upsert and congratulates on a completion. */
module DaySection {
  import opened Wrappers
  import opened Text
  import opened Browser

  /** What a roadmap row's `topics` property holds. `Absent` is `undefined` or
      `null`; `NotList` is any other value that is not an array. */
  datatype TopicsField = Absent | List(items: seq<string>) | NotList

  /** A roadmap row: its day number, `topics` and `topic` (either may be present)
      and its subtasks. `topic = None` is `undefined` or `null`. */
  datatype RoadmapItem = RoadmapItem(day: int, topics: TopicsField, topic: Option<string>, subtasks: seq<string>)

  /** `item.topic` is truthy. */
  predicate HasTopic(item: RoadmapItem) {
    item.topic.Some? && item.topic.value != ""
  }

  /** The topics a day shows: its `topics` array when it has one, else its single
      `topic` when that is a non-empty string, else none. */
  function NormalizeTopics(item: RoadmapItem): (topics: seq<string>)
    ensures item.topics.List? ==> topics == item.topics.items
    ensures !item.topics.List? && HasTopic(item) ==> topics == [item.topic.value]
    ensures !item.topics.List? && !HasTopic(item) ==> topics == []
    ensures forall t :: t in topics ==> (item.topics.List? && t in item.topics.items) || Some(t) == item.topic
  {
    if item.topics.List? then item.topics.items
    else if HasTopic(item) then [item.topic.value]
    else []
  }

  /** The `day` column of the `progress` table for a roadmap day: `Day N`. */
  function DayLabel(day: int): (s: string)
    ensures StartsWith(s, "Day ") && s[4..] == IntToString(day)
  {
    "Day " + IntToString(day)
  }

  /** Distinct days have distinct labels, so progress rows of different days never
      share a conflict key. */
  lemma DayLabelInjective(a: int, b: int)
    requires DayLabel(a) == DayLabel(b)
    ensures a == b
  {
    assert DayLabel(a)[4..] == DayLabel(b)[4..];
    IntToStringInjective(a, b);
  }

  /** A row of the `progress` query: the task label and its completed flag. */
  datatype ProgressRow = ProgressRow(task: string, completed: bool)

  /** The progress query a section issues: rows of this user for this day label. */
  datatype ProgressQuery = ProgressQuery(userId: string, day: string)

  /** The conflict target of the progress upsert. */
  const ProgressConflict: string := "user_id,day,task"

  /** The key the `progress` table is unique on. */
  datatype ProgressKey = ProgressKey(userId: string, day: string, task: string)

  /** One `progress` upsert: the row written and its conflict target. */
  datatype ProgressUpsert = ProgressUpsert(userId: string, day: string, task: string, completed: bool, onConflict: string) {
    function Key(): ProgressKey {
      ProgressKey(userId, day, task)
    }
  }

  /** The map built from the rows in order, each row overwriting its task's entry. */
  function Rehydrated(rows: seq<ProgressRow>): map<string, bool> {
    if rows == [] then map[]
    else
      var last := rows[|rows| - 1];
      Rehydrated(rows[..|rows| - 1])[last.task := last.completed]
  }

  /** The rehydrated map holds exactly the tasks of the rows, and each task's value
      is the completed flag of the LAST row with that task. */
  lemma {:induction false} RehydratedSpec(rows: seq<ProgressRow>)
    ensures forall t :: t in Rehydrated(rows) <==> exists i :: 0 <= i < |rows| && rows[i].task == t
    ensures forall i :: 0 <= i < |rows| && (forall j :: i < j < |rows| ==> rows[j].task != rows[i].task)
              ==> Rehydrated(rows)[rows[i].task] == rows[i].completed
  {
    if rows != [] {
      var init := rows[..|rows| - 1];
      RehydratedSpec(init);
      assert forall i :: 0 <= i < |init| ==> init[i] == rows[i];
      forall t | t in Rehydrated(rows) ensures exists i :: 0 <= i < |rows| && rows[i].task == t {
        if t != rows[|rows| - 1].task {
          var i :| 0 <= i < |init| && init[i].task == t;
          assert rows[i].task == t;
        }
      }
    }
  }

  /** The `forEach` that fills `initial` from the fetched rows. */
  method RehydrateProgress(rows: seq<ProgressRow>) returns (initial: map<string, bool>)
    ensures initial == Rehydrated(rows)
  {
    initial := map[];
    var i := 0;
    while i < |rows|
      invariant 0 <= i <= |rows|
      invariant initial == Rehydrated(rows[..i])
    {
      assert rows[..i + 1][..i] == rows[..i];
      initial := initial[rows[i].task := rows[i].completed];
      i := i + 1;
    }
    assert rows[..|rows|] == rows;
  }

  /** `!!completed[topic]`: the checkbox is checked; an absent key is unchecked. */
  predicate Checked(m: map<string, bool>, topic: string) {
    topic in m && m[topic]
  }

  /** The map after toggling `topic`: it holds `!completed[topic]` there. */
  function Toggled(m: map<string, bool>, topic: string): map<string, bool> {
    m[topic := !Checked(m, topic)]
  }

  /** A toggle flips the toggled topic (an absent one becomes checked) and leaves
      every other entry, present or absent, as it was. */
  lemma ToggleFrame(m: map<string, bool>, topic: string)
    ensures topic in Toggled(m, topic) && Checked(Toggled(m, topic), topic) == !Checked(m, topic)
    ensures topic !in m ==> Toggled(m, topic)[topic]
    ensures forall k :: k != topic ==> (k in Toggled(m, topic) <==> k in m)
    ensures forall k :: k != topic && k in m ==> Toggled(m, topic)[k] == m[k]
  {
  }

  /** Toggling the same topic twice shows every checkbox as it was. */
  lemma ToggleTwiceRestores(m: map<string, bool>, topic: string)
    ensures forall k :: Checked(Toggled(Toggled(m, topic), topic), k) == Checked(m, k)
  {
  }

  /** The `progress` table holds one completion flag per key (an upsert
      overwrites); a key without a row reads as not completed. */
  predicate StoredDone(store: map<ProgressKey, bool>, key: ProgressKey) {
    key in store && store[key]
  }

  /** Every checkbox of this user's day shows what the table holds for it. */
  ghost predicate Mirrors(store: map<ProgressKey, bool>, userId: string, day: string, m: map<string, bool>) {
    forall t :: Checked(m, t) == StoredDone(store, ProgressKey(userId, day, t))
  }

  /** The rows the progress query returns for (user, day): each carries the stored
      flag of its key, and every stored key of that user and day appears. */
  ghost predicate RowsOf(store: map<ProgressKey, bool>, userId: string, day: string, rows: seq<ProgressRow>) {
    && (forall i :: 0 <= i < |rows| ==>
          (ProgressKey(userId, day, rows[i].task) in store
           && store[ProgressKey(userId, day, rows[i].task)] == rows[i].completed))
    && (forall k :: k in store && k.userId == userId && k.day == day ==>
          exists i :: 0 <= i < |rows| && rows[i].task == k.task)
  }

  /** Rehydrating from the table's rows shows exactly what the table holds. */
  lemma RehydrateMirrorsStore(store: map<ProgressKey, bool>, userId: string, day: string, rows: seq<ProgressRow>)
    requires RowsOf(store, userId, day, rows)
    ensures Mirrors(store, userId, day, Rehydrated(rows))
  {
    RehydratedSpec(rows);
    var m := Rehydrated(rows);
    forall t ensures Checked(m, t) == StoredDone(store, ProgressKey(userId, day, t)) {
      var key := ProgressKey(userId, day, t);
      if t in m {
        var i :| 0 <= i < |rows| && rows[i].task == t;
        var last := LastWith(rows, t, i);
        assert m[t] == rows[last].completed;
      }
    }
  }

  /** The index of the last row with task `t`, given one at `i`. */
  lemma LastWith(rows: seq<ProgressRow>, t: string, i: nat) returns (last: nat)
    requires i < |rows| && rows[i].task == t
    ensures i <= last < |rows| && rows[last].task == t
    ensures forall j :: last < j < |rows| ==> rows[j].task != t
    decreases |rows| - i
  {
    last := i;
    if j :| last < j < |rows| && rows[j].task == t {
      last := LastWith(rows, t, j);
    }
  }

  /** A toggle whose upsert is stored keeps the checkboxes and the table in step. */
  lemma ToggleKeepsMirror(store: map<ProgressKey, bool>, userId: string, day: string, m: map<string, bool>, topic: string)
    requires Mirrors(store, userId, day, m)
    ensures Mirrors(store[ProgressKey(userId, day, topic) := !Checked(m, topic)], userId, day, Toggled(m, topic))
  {
    var store' := store[ProgressKey(userId, day, topic) := !Checked(m, topic)];
    forall t ensures Checked(Toggled(m, topic), t) == StoredDone(store', ProgressKey(userId, day, t)) {
      assert Checked(m, t) == StoredDone(store, ProgressKey(userId, day, t));
    }
  }

  /** When the upsert fails, the optimistic state is not rolled back: the toggled
      checkbox no longer shows what the table holds. */
  lemma FailedUpsertDiverges(store: map<ProgressKey, bool>, userId: string, day: string, m: map<string, bool>, topic: string)
    requires Mirrors(store, userId, day, m)
    ensures !Mirrors(store, userId, day, Toggled(m, topic))
  {
    assert Checked(m, topic) == StoredDone(store, ProgressKey(userId, day, topic));
    assert Checked(Toggled(m, topic), topic) != StoredDone(store, ProgressKey(userId, day, topic));
  }

  /** The pop-up text after a completed topic. */
  function CompletionText(topic: string, day: int): string {
    "You have completed \"" + topic + "\" for Day " + IntToString(day) + "."
  }

  /** A video search result as the search route returns it. */
  datatype Video = Video(title: string, videoId: string, thumbnail: string, channel: string)

  /** What a topic's video area shows. */
  datatype VideoPanel = Videos(videos: seq<Video>) | LoadingPlaceholder | NoVideosNotice

  /** The video area as rendered: the videos when the topic's list is non-empty,
      otherwise "Loading videos..." (whether the list is missing or empty). */
  function VideoPanelAsWritten(videoMap: map<string, seq<Video>>, topic: string): (p: VideoPanel)
    ensures p.Videos? <==> topic in videoMap && |videoMap[topic]| > 0
    ensures p.Videos? ==> p.videos == videoMap[topic]
    ensures !p.Videos? ==> p == LoadingPlaceholder
  {
    if topic in videoMap && |videoMap[topic]| > 0 then Videos(videoMap[topic]) else LoadingPlaceholder
  }

  /** The video area as evidently intended: "Loading videos..." only while the
      topic has no cache entry yet, a notice when its list came back empty. */
  function VideoPanelIntended(videoMap: map<string, seq<Video>>, topic: string): (p: VideoPanel)
    ensures p == LoadingPlaceholder <==> topic !in videoMap
    ensures p == NoVideosNotice <==> topic in videoMap && videoMap[topic] == []
    ensures p.Videos? ==> topic in videoMap && p.videos == videoMap[topic] && p.videos != []
  {
    if topic !in videoMap then LoadingPlaceholder
    else if videoMap[topic] == [] then NoVideosNotice
    else Videos(videoMap[topic])
  }

  /** The state of one rendered `DaySection`. */
  class Section {
    const item: RoadmapItem
    var userId: Option<string>
    var completed: map<string, bool>
    var upserts: seq<ProgressUpsert>
    var effects: seq<Effect>

    constructor (item: RoadmapItem)
      ensures this.item == item
      ensures userId == None && completed == map[] && upserts == [] && effects == []
    {
      this.item := item;
      userId := None;
      completed := map[];
      upserts := [];
      effects := [];
    }

    /** The topic list this section renders. */
    function Topics(): seq<string> {
      NormalizeTopics(item)
    }

    /** `!userId` is false. */
    predicate HasUser()
      reads this
    {
      userId.Some? && userId.value != ""
    }

    /** The session effect: the user id is stored only when the session has one. */
    method LoadSession(sessionUserId: Option<string>)
      modifies this
      ensures userId == (if sessionUserId.Some? && sessionUserId.value != "" then sessionUserId else old(userId))
      ensures completed == old(completed) && upserts == old(upserts) && effects == old(effects)
    {
      if sessionUserId.Some? && sessionUserId.value != "" {
        userId := sessionUserId;
      }
    }

    /** `fetchProgress`: nothing is queried without a user; with one, the query is
        for this user and this day's label, and a reply with data replaces the map
        with its rehydration (an error reply leaves it as it was). */
    method FetchProgress(reply: Option<seq<ProgressRow>>) returns (query: Option<ProgressQuery>)
      modifies this
      ensures query == (if HasUser() then Some(ProgressQuery(userId.value, DayLabel(item.day))) else None)
      ensures completed == (if HasUser() && reply.Some? then Rehydrated(reply.value) else old(completed))
      ensures userId == old(userId) && upserts == old(upserts) && effects == old(effects)
    {
      if !HasUser() {
        return None;
      }
      query := Some(ProgressQuery(userId.value, DayLabel(item.day)));
      if reply.Some? {
        completed := RehydrateProgress(reply.value);
      }
    }

    /** `handleToggle`: without a user nothing happens. Otherwise the topic's entry
        becomes `!completed[topic]`, one upsert of that value is logged in either
        direction, and the success pop-up is shown exactly when the upsert reported
        no error and the topic became checked. */
    method HandleToggle(topic: string, upsertOk: bool)
      modifies this
      ensures userId == old(userId)
      ensures !old(HasUser()) ==>
        completed == old(completed) && upserts == old(upserts) && effects == old(effects)
      ensures old(HasUser()) ==>
        && completed == Toggled(old(completed), topic)
        && upserts == old(upserts) + [ProgressUpsert(userId.value, DayLabel(item.day), topic,
                                                     !Checked(old(completed), topic), ProgressConflict)]
        && effects == old(effects) + (if upsertOk && !Checked(old(completed), topic)
                                      then [Popup("success", "Completed", CompletionText(topic, item.day))]
                                      else [])
    {
      if !HasUser() {
        return;
      }
      var newValue := !Checked(completed, topic);
      completed := completed[topic := newValue];
      upserts := upserts + [ProgressUpsert(userId.value, DayLabel(item.day), topic, newValue, ProgressConflict)];
      if upsertOk && newValue {
        effects := effects + [Popup("success", "Completed", CompletionText(topic, item.day))];
      }
    }
  }
}
