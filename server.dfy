/**
 * The API server: the confessions and comments tables held in memory, the request
 * handlers that update them, and the queries that read them.
 */
module Server {
  import opened Wrappers
  import opened Records
  import Lists

  /** `datetime('now', '-1 day')` is this many seconds before now. */
  const Day: int := 86400

  /** The two `ORDER BY` clauses of the feed query. */
  datatype Order = Latest | Trending

  /** The feed query once the handler has read `mood` and `sort`: an optional WHERE and an ORDER BY. */
  datatype FeedQuery = FeedQuery(mood: Option<string>, order: Order)

  /**
   * How the feed handler reads one parameter of `req.query`: the value sent for that
   * key (its first occurrence), if it was sent at all.
   */
  function Param(ps: seq<(string, string)>, key: string): (v: Option<string>)
    ensures v.None? <==> forall i :: 0 <= i < |ps| ==> ps[i].0 != key
    ensures v.Some? ==> (key, v.value) in ps
    decreases |ps|
  {
    if ps == [] then None
    else if ps[0].0 == key then Some(ps[0].1)
    else
      var v := Param(ps[1..], key);
      assert v.Some? ==> (key, v.value) in ps[1..];
      v
  }

  /**
   * Which query the feed handler builds: a mood filter only for a truthy mood other
   * than "All", trending order only for `sort=trending`.
   */
  function PlanFeed(mood: Option<string>, sort: Option<string>): (q: FeedQuery)
    ensures q.mood.Some? <==> Filled(mood) && mood.value != "All"
    ensures q.mood.Some? ==> q.mood == mood
    ensures q.order == Trending <==> sort == Some("trending")
  {
    FeedQuery(if Filled(mood) && mood.value != "All" then mood else None,
              if sort == Some("trending") then Trending else Latest)
  }

  function OnConfession(id: int): Comment -> bool
  {
    (cm: Comment) => cm.confessionId == id
  }

  /** `COUNT(cm.id)` over `LEFT JOIN comments cm ON c.id = cm.confession_id` for one confession. */
  function CommentCount(cms: seq<Comment>, id: int): (n: nat)
    ensures n <= |cms|
    ensures n == 0 <==> forall cm :: cm in cms ==> cm.confessionId != id
  {
    Lists.FilterNone(cms, OnConfession(id));
    |Lists.Filter(cms, OnConfession(id))|
  }

  /** One more comment raises the comment count of its confession by one and of no other. */
  lemma CommentCountAfterAdd(cms: seq<Comment>, cm: Comment, id: int)
    ensures CommentCount(cms + [cm], id) == CommentCount(cms, id) + (if cm.confessionId == id then 1 else 0)
  {
    Lists.FilterAppend(cms, cm, OnConfession(id));
  }

  /** The LEFT JOIN with GROUP BY c.id: every confession, in order, with its comment count. */
  function Joined(cs: seq<Confession>, cms: seq<Comment>): (rows: seq<FeedRow>)
    ensures |rows| == |cs|
    ensures forall row :: row in rows <==>
      row.confession in cs && row.commentCount == CommentCount(cms, row.confession.id)
    ensures forall c :: c in cs ==> FeedRow(c, CommentCount(cms, c.id)) in rows
    decreases |cs|
  {
    if cs == [] then []
    else
      assert cs == [cs[0]] + cs[1..];
      [FeedRow(cs[0], CommentCount(cms, cs[0].id))] + Joined(cs[1..], cms)
  }

  function HasMood(mood: string): Confession -> bool
  {
    (c: Confession) => c.mood == mood
  }

  /** The WHERE clause, when there is one. */
  function Selected(cs: seq<Confession>, mood: Option<string>): (r: seq<Confession>)
    ensures forall c :: c in r <==> c in cs && (mood.Some? ==> c.mood == mood.value)
    ensures |r| <= |cs|
  {
    if mood.None? then cs else Lists.Filter(cs, HasMood(mood.value))
  }

  /** The trending score: the four reaction counters plus the comment count. */
  function TrendingScore(row: FeedRow): (n: int)
    ensures n >= row.commentCount
    ensures forall rx :: n >= row.confession.Reactions(rx)
  {
    row.confession.ReactionSum() + row.commentCount
  }

  function Recency(row: FeedRow): int
  {
    row.confession.createdAt
  }

  function OrderKey(order: Order): FeedRow -> int
  {
    match order
    case Trending => TrendingScore
    case Latest => Recency
  }

  /** What sorting by OrderKey(order), descending, means for each order. */
  lemma FeedOrder(rows: seq<FeedRow>, order: Order)
    requires Lists.SortedBy(rows, OrderKey(order), true)
    ensures order == Trending ==>
      forall i, j :: 0 <= i < j < |rows| ==> TrendingScore(rows[i]) >= TrendingScore(rows[j])
    ensures order == Latest ==>
      forall i, j :: 0 <= i < j < |rows| ==> rows[i].confession.createdAt >= rows[j].confession.createdAt
  {
    forall i, j | 0 <= i < j < |rows| ensures OrderKey(order)(rows[i]) >= OrderKey(order)(rows[j]) {
      assert Lists.InOrder(rows[i], rows[j], OrderKey(order), true);
    }
  }

  /**
   * The feed: exactly the confessions the mood filter keeps, each with its comment
   * count, in non-increasing trending score or non-increasing creation time.
   */
  function FeedRows(cs: seq<Confession>, cms: seq<Comment>, q: FeedQuery): (rows: seq<FeedRow>)
    ensures forall row :: row in rows <==>
      && row.confession in cs
      && row.commentCount == CommentCount(cms, row.confession.id)
      && (q.mood.Some? ==> row.confession.mood == q.mood.value)
    ensures q.mood.None? ==> |rows| == |cs|
    ensures q.mood.Some? ==> |rows| == |Lists.Filter(cs, HasMood(q.mood.value))|
    ensures q.order == Trending ==>
      forall i, j :: 0 <= i < j < |rows| ==> TrendingScore(rows[i]) >= TrendingScore(rows[j])
    ensures q.order == Latest ==>
      forall i, j :: 0 <= i < j < |rows| ==> rows[i].confession.createdAt >= rows[j].confession.createdAt
  {
    var rows := Lists.SortBy(Joined(Selected(cs, q.mood), cms), OrderKey(q.order), true);
    FeedOrder(rows, q.order);
    rows
  }

  function CreatedSince(t: int): Confession -> bool
  {
    (c: Confession) => c.createdAt >= t
  }

  function ReactionTotal(row: FeedRow): int
  {
    row.confession.ReactionSum()
  }

  /**
   * The confession of the day: absent when no confession was created in the last
   * day; otherwise one created in that window whose reaction sum no other in the
   * window exceeds, whatever older confessions have.
   */
  function DailyPick(cs: seq<Confession>, cms: seq<Comment>, now: int): (pick: Option<FeedRow>)
    ensures pick.None? <==> forall c :: c in cs ==> c.createdAt < now - Day
    ensures pick.Some? ==>
      && pick.value.confession in cs
      && pick.value.confession.createdAt >= now - Day
      && pick.value.commentCount == CommentCount(cms, pick.value.confession.id)
    ensures pick.Some? ==> forall c :: c in cs && c.createdAt >= now - Day ==>
      c.ReactionSum() <= pick.value.confession.ReactionSum()
  {
    var recent := Lists.Filter(cs, CreatedSince(now - Day));
    var window := Joined(recent, cms);
    if window == [] then None
    else
      var best := Lists.MaxBy(window, ReactionTotal);
      assert forall c :: c in cs && c.createdAt >= now - Day ==> FeedRow(c, CommentCount(cms, c.id)) in window;
      Some(best)
  }

  /**
   * The random pick: absent for an empty table, otherwise some confession with its
   * comment count. `roll` stands for `ORDER BY RANDOM()`.
   */
  function RandomPick(cs: seq<Confession>, cms: seq<Comment>, roll: nat): (pick: Option<FeedRow>)
    ensures pick.None? <==> cs == []
    ensures pick.Some? ==>
      pick.value.confession in cs && pick.value.commentCount == CommentCount(cms, pick.value.confession.id)
    ensures roll < |cs| ==> pick == Some(FeedRow(cs[roll], CommentCount(cms, cs[roll].id)))
  {
    if cs == [] then None
    else
      var k := roll % |cs|;
      assert roll < |cs| ==> k == roll;
      var c := cs[k];
      Some(FeedRow(c, CommentCount(cms, c.id)))
  }

  function CommentTime(cm: Comment): int
  {
    cm.createdAt
  }

  /** The comments of one confession, oldest first; there are as many as its comment count. */
  function CommentsOf(cms: seq<Comment>, id: int): (r: seq<Comment>)
    ensures forall cm :: cm in r <==> cm in cms && cm.confessionId == id
    ensures |r| == CommentCount(cms, id)
    ensures forall i, j :: 0 <= i < j < |r| ==> r[i].createdAt <= r[j].createdAt
  {
    var r := Lists.SortBy(Lists.Filter(cms, OnConfession(id)), CommentTime, false);
    assert forall i, j :: 0 <= i < j < |r| ==> Lists.InOrder(r[i], r[j], CommentTime, false);
    r
  }

  /** `parent_id || null`: a falsy parent is stored as NULL. */
  function StoredParent(parentId: Option<int>): (p: Option<int>)
    ensures p.Some? <==> IsSet(parentId)
    ensures p.Some? ==> p == parentId && p.value != 0
  {
    if IsSet(parentId) then parentId else None
  }

  /** A row of the built-in sample data: its fields, its counters, and how long ago it was created. */
  datatype SeedRow = SeedRow(
    content: string, category: string, color: string, mood: string,
    love: nat, relate: nat, shocked: nat, funny: nat, age: int)

  /** What a confession row says about the sample row it was inserted from. */
  function Unseeded(c: Confession, now: int): SeedRow
  {
    SeedRow(c.content, c.category, c.color, c.mood,
            c.reactionLove, c.reactionRelate, c.reactionShocked, c.reactionFunny, now - c.createdAt)
  }

  /**
   * The sample rows as inserted: one row per sample, in order, each carrying its
   * sample's fields, counters and age, with no reports and ids that rise strictly
   * within [firstId, firstId + |seed|).
   */
  function Seeded(seed: seq<SeedRow>, firstId: int, now: int): (cs: seq<Confession>)
    ensures |cs| == |seed|
    ensures forall i :: 0 <= i < |cs| ==> Unseeded(cs[i], now) == seed[i] && cs[i].reportCount == 0
    ensures forall i :: 0 <= i < |cs| ==> firstId <= cs[i].id < firstId + |seed|
    ensures forall i, j :: 0 <= i < j < |cs| ==> cs[i].id < cs[j].id
  {
    seq(|seed|, i requires 0 <= i < |seed| => Confession(
      firstId + i, seed[i].content, seed[i].category, seed[i].color, seed[i].mood,
      seed[i].love, seed[i].relate, seed[i].shocked, seed[i].funny, 0, now - seed[i].age))
  }

  /** The table after changing the rows whose id is id, and no others. */
  function UpdateWhere(cs: seq<Confession>, id: int, f: Confession -> Confession): seq<Confession>
  {
    seq(|cs|, i requires 0 <= i < |cs| => if cs[i].id == id then f(cs[i]) else cs[i])
  }

  /** `reaction_<type> = reaction_<type> + 1` as a row update. */
  function Reacting(rx: Reaction): Confession -> Confession
  {
    (c: Confession) => c.WithReaction(rx)
  }

  /** `report_count = report_count + 1` as a row update. */
  function Reporting(): Confession -> Confession
  {
    (c: Confession) => c.Reported()
  }

  /** The rows of before are still there, each the same record with no counter smaller. */
  ghost predicate Grew(before: seq<Confession>, after: seq<Confession>)
  {
    |before| <= |after| && forall i :: 0 <= i < |before| ==> CountersGrew(before[i], after[i])
  }

  /** Some row of the confessions table has this id. */
  predicate HasConfession(cs: seq<Confession>, id: int)
  {
    exists k :: 0 <= k < |cs| && cs[k].id == id
  }

  /** Some row of the comments table has this id. */
  predicate HasComment(cms: seq<Comment>, id: int)
  {
    exists k :: 0 <= k < |cms| && cms[k].id == id
  }

  /**
   * The foreign keys of a new comment: `confession_id` names a confession, and a
   * stored `parent_id` names a comment.
   */
  predicate KeysHold(cs: seq<Confession>, cms: seq<Comment>, confessionId: int, parent: Option<int>)
  {
    HasConfession(cs, confessionId) && (parent.Some? ==> HasComment(cms, parent.value))
  }

  /** An update that only grows counters keeps every id of the table. */
  lemma GrewKeepsIds(before: seq<Confession>, after: seq<Confession>)
    requires Grew(before, after)
    ensures forall id :: HasConfession(before, id) ==> HasConfession(after, id)
  {
    forall id | HasConfession(before, id)
      ensures HasConfession(after, id)
    {
      var k :| 0 <= k < |before| && before[k].id == id;
      assert CountersGrew(before[k], after[k]);
    }
  }

  /** The table after n reactions of one type on confession id. */
  function ReactedTimes(cs: seq<Confession>, id: int, rx: Reaction, n: nat): seq<Confession>
    decreases n
  {
    if n == 0 then cs else UpdateWhere(ReactedTimes(cs, id, rx, n - 1), id, Reacting(rx))
  }

  /**
   * Reacting n times raises that one counter of confession id by n and leaves the
   * other three counters, the report count and every other row as they were.
   */
  lemma {:induction false} ReactedTimesCounts(cs: seq<Confession>, id: int, rx: Reaction, n: nat)
    ensures |ReactedTimes(cs, id, rx, n)| == |cs|
    ensures forall i :: 0 <= i < |cs| && cs[i].id != id ==> ReactedTimes(cs, id, rx, n)[i] == cs[i]
    ensures forall i :: 0 <= i < |cs| && cs[i].id == id ==>
      var c := ReactedTimes(cs, id, rx, n)[i];
      && SameRecord(cs[i], c) && c.reportCount == cs[i].reportCount
      && c.Reactions(rx) == cs[i].Reactions(rx) + n
      && forall other :: other != rx ==> c.Reactions(other) == cs[i].Reactions(other)
    decreases n
  {
    if n > 0 {
      ReactedTimesCounts(cs, id, rx, n - 1);
      var before := ReactedTimes(cs, id, rx, n - 1);
      forall i | 0 <= i < |cs| && cs[i].id == id
        ensures Incremented(before[i], ReactedTimes(cs, id, rx, n)[i], rx)
      {
        assert before[i].id == id;
      }
    }
  }

  /**
   * A confession just submitted with mood m is in the feed asked for with mood m
   * (filtered by m, or the whole table when m is "All" or empty), and, when no
   * comment names its id, it shows no comments.
   */
  lemma SubmittedInFeed(cs: seq<Confession>, cms: seq<Comment>, c: Confession, sort: Option<string>)
    requires forall cm :: cm in cms ==> cm.confessionId != c.id
    ensures FeedRow(c, 0) in FeedRows(cs + [c], cms, PlanFeed(Some(c.mood), sort))
  {
    Lists.FilterNone(cms, OnConfession(c.id));
  }

  /** The two tables and the AUTOINCREMENT counters behind their ids. */
  class Store {
    var confessions: seq<Confession>
    var comments: seq<Comment>
    var nextConfessionId: int
    var nextCommentId: int

    /**
     * Ids are positive, below the next id to hand out, and increase with insertion
     * order (so they are unique); no stored parent id is 0; the foreign keys hold:
     * every comment names a confession, and every stored parent names a comment.
     */
    ghost predicate Valid()
      reads this
    {
      && 0 < nextConfessionId && 0 < nextCommentId
      && (forall i :: 0 <= i < |confessions| ==> 0 < confessions[i].id < nextConfessionId)
      && (forall i, j :: 0 <= i < j < |confessions| ==> confessions[i].id < confessions[j].id)
      && (forall i :: 0 <= i < |comments| ==> 0 < comments[i].id < nextCommentId)
      && (forall i, j :: 0 <= i < j < |comments| ==> comments[i].id < comments[j].id)
      && (forall i :: 0 <= i < |comments| ==> comments[i].parentId != Some(0))
      && (forall i :: 0 <= i < |comments| ==> HasConfession(confessions, comments[i].confessionId))
      && (forall i :: 0 <= i < |comments| && comments[i].parentId.Some? ==>
            HasComment(comments, comments[i].parentId.value))
    }

    /** A fresh database: both tables empty. */
    constructor ()
      ensures Valid()
      ensures confessions == [] && comments == []
    {
      confessions, comments := [], [];
      nextConfessionId, nextCommentId := 1, 1;
    }

    /** Inserts the sample rows when, and only when, the confessions table is empty. */
    method SeedIfEmpty(seed: seq<SeedRow>, now: int)
      requires Valid()
      modifies this
      ensures Valid()
      ensures comments == old(comments) && nextCommentId == old(nextCommentId)
      ensures old(confessions) != [] ==>
        confessions == old(confessions) && nextConfessionId == old(nextConfessionId)
      ensures old(confessions) == [] ==>
        && confessions == Seeded(seed, old(nextConfessionId), now)
        && nextConfessionId == old(nextConfessionId) + |seed|
    {
      if |confessions| == 0 {
        confessions := Seeded(seed, nextConfessionId, now);
        nextConfessionId := nextConfessionId + |seed|;
      }
    }

    /** GET /api/confessions. */
    method ListConfessions(mood: Option<string>, sort: Option<string>) returns (rows: seq<FeedRow>)
      ensures rows == FeedRows(confessions, comments, PlanFeed(mood, sort))
    {
      var filter: Option<string> := None;
      if Filled(mood) && mood.value != "All" {
        filter := mood;
      }
      var order := if sort == Some("trending") then Trending else Latest;
      rows := FeedRows(confessions, comments, FeedQuery(filter, order));
    }

    /** GET /api/confessions/daily. */
    method Daily(now: int) returns (pick: Option<FeedRow>)
      ensures pick == DailyPick(confessions, comments, now)
    {
      pick := DailyPick(confessions, comments, now);
    }

    /** GET /api/confessions/random. */
    method Random(roll: nat) returns (pick: Option<FeedRow>)
      ensures pick == RandomPick(confessions, comments, roll)
    {
      pick := RandomPick(confessions, comments, roll);
    }

    /**
     * POST /api/confessions: rejects a missing or empty field; otherwise appends one
     * row with the given fields, every counter at 0 and the creation time now, and
     * answers with its new id.
     */
    method Submit(content: Option<string>, category: Option<string>, color: Option<string>,
                  mood: Option<string>, now: int) returns (r: Result<int>)
      requires Valid()
      modifies this
      ensures Valid()
      ensures comments == old(comments) && nextCommentId == old(nextCommentId)
      ensures Grew(old(confessions), confessions)
      ensures !(Filled(content) && Filled(category) && Filled(color) && Filled(mood)) ==>
        && r == Err("Missing required fields")
        && confessions == old(confessions) && nextConfessionId == old(nextConfessionId)
      ensures Filled(content) && Filled(category) && Filled(color) && Filled(mood) ==>
        && r == Ok(old(nextConfessionId))
        && (forall c :: c in old(confessions) ==> c.id != r.value)
        && confessions == old(confessions) +
             [Confession(r.value, content.value, category.value, color.value, mood.value, 0, 0, 0, 0, 0, now)]
        && nextConfessionId == old(nextConfessionId) + 1
        && CommentCount(comments, r.value) == 0
    {
      if !Filled(content) || !Filled(category) || !Filled(color) || !Filled(mood) {
        return Err("Missing required fields");
      }
      var id := nextConfessionId;
      forall cm | cm in comments
        ensures cm.confessionId != id
      {
        var i :| 0 <= i < |comments| && comments[i] == cm;
        assert HasConfession(confessions, cm.confessionId);
      }
      var before := confessions;
      confessions := confessions + [Confession(id, content.value, category.value, color.value, mood.value, 0, 0, 0, 0, 0, now)];
      nextConfessionId := nextConfessionId + 1;
      GrewKeepsIds(before, confessions);
      r := Ok(id);
    }

    /**
     * POST /api/confessions/:id/react: rejects a type that is not one of the four;
     * otherwise raises that one counter by one on the row with this id (no row: no
     * change, still a success).
     */
    method React(id: int, kind: Option<string>) returns (r: Result<()>)
      requires Valid()
      modifies this
      ensures Valid()
      ensures comments == old(comments)
      ensures nextConfessionId == old(nextConfessionId) && nextCommentId == old(nextCommentId)
      ensures Grew(old(confessions), confessions)
      ensures ParseReaction(kind).None? ==> r == Err("Invalid reaction type") && confessions == old(confessions)
      ensures ParseReaction(kind).Some? ==>
        && r == Ok(())
        && |confessions| == |old(confessions)|
        && forall i :: 0 <= i < |confessions| ==>
             if old(confessions)[i].id == id then Incremented(old(confessions)[i], confessions[i], ParseReaction(kind).value)
             else confessions[i] == old(confessions)[i]
    {
      var rx := ParseReaction(kind);
      if rx.None? {
        return Err("Invalid reaction type");
      }
      var before := confessions;
      confessions := UpdateWhere(confessions, id, Reacting(rx.value));
      GrewKeepsIds(before, confessions);
      r := Ok(());
    }

    /** POST /api/confessions/:id/report: raises the report count of the row with this id by one. */
    method Report(id: int) returns (r: Result<()>)
      requires Valid()
      modifies this
      ensures Valid()
      ensures comments == old(comments)
      ensures nextConfessionId == old(nextConfessionId) && nextCommentId == old(nextCommentId)
      ensures Grew(old(confessions), confessions)
      ensures r == Ok(())
      ensures |confessions| == |old(confessions)|
      ensures forall i :: 0 <= i < |confessions| ==>
        if old(confessions)[i].id == id then
          && SameRecord(old(confessions)[i], confessions[i])
          && confessions[i].reportCount == old(confessions)[i].reportCount + 1
          && forall rx :: confessions[i].Reactions(rx) == old(confessions)[i].Reactions(rx)
        else confessions[i] == old(confessions)[i]
    {
      var before := confessions;
      confessions := UpdateWhere(confessions, id, Reporting());
      GrewKeepsIds(before, confessions);
      r := Ok(());
    }

    /** GET /api/confessions/:id/comments. */
    method ListComments(id: int) returns (r: seq<Comment>)
      ensures r == CommentsOf(comments, id)
    {
      r := CommentsOf(comments, id);
    }

    /**
     * POST /api/confessions/:id/comments: rejects missing or empty content; stores a
     * falsy parent id as NULL; an INSERT that names no confession, or a parent that
     * is neither a stored comment nor the new row itself, breaks a foreign key and
     * adds nothing (the request fails with SQLite's error); otherwise appends one
     * comment and answers with its id. SQLite checks a self-referencing key against
     * the table with the new row in it, so a parent equal to the id the row is about
     * to get is accepted.
     */
    method AddComment(confessionId: int, content: Option<string>, parentId: Option<int>, now: int)
      returns (r: Result<int>)
      requires Valid()
      modifies this
      ensures Valid()
      ensures confessions == old(confessions) && nextConfessionId == old(nextConfessionId)
      ensures !Filled(content) ==>
        r == Err("Missing content") && comments == old(comments) && nextCommentId == old(nextCommentId)
      ensures Filled(content) && !KeysHold(old(confessions),
          old(comments) + [Comment(old(nextCommentId), confessionId, StoredParent(parentId), content.value, now)],
          confessionId, StoredParent(parentId)) ==>
        r == Err("FOREIGN KEY constraint failed") && comments == old(comments) && nextCommentId == old(nextCommentId)
      ensures Filled(content) && KeysHold(old(confessions),
          old(comments) + [Comment(old(nextCommentId), confessionId, StoredParent(parentId), content.value, now)],
          confessionId, StoredParent(parentId)) ==>
        && r == Ok(old(nextCommentId))
        && (forall cm :: cm in old(comments) ==> cm.id != r.value)
        && comments == old(comments) + [Comment(r.value, confessionId, StoredParent(parentId), content.value, now)]
        && nextCommentId == old(nextCommentId) + 1
    {
      if !Filled(content) {
        return Err("Missing content");
      }
      var parent := StoredParent(parentId);
      var id := nextCommentId;
      var cm := Comment(id, confessionId, parent, content.value, now);
      if !KeysHold(confessions, comments + [cm], confessionId, parent) {
        return Err("FOREIGN KEY constraint failed");
      }
      var before := comments;
      comments := comments + [cm];
      nextCommentId := nextCommentId + 1;
      forall i | 0 <= i < |before| && comments[i].parentId.Some?
        ensures HasComment(comments, comments[i].parentId.value)
      {
        var k :| 0 <= k < |before| && before[k].id == comments[i].parentId.value;
        assert comments[k] == before[k];
      }
      r := Ok(id);
    }
  }
}
