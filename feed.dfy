/**
 * The feed page: the list of confessions and the daily card it holds, how it
 * updates them after a reaction or a random pick, its search box, and the query
 * it sends for the feed.
 */
module Feed {
  import opened Wrappers
  import opened Records
  import Lists
  import Text
  import Server

  /** A row with one reaction counter raised, as the page's object spread builds it. */
  function Bumped(row: FeedRow, rx: Reaction): FeedRow
  {
    row.(confession := row.confession.WithReaction(rx))
  }

  /**
   * The list after a reaction on confession id: same length and order, the rows
   * with that id have exactly the reacted counter one higher, the rest are unchanged.
   */
  function ReactLocally(rows: seq<FeedRow>, id: int, rx: Reaction): (r: seq<FeedRow>)
    ensures |r| == |rows|
    ensures forall i :: 0 <= i < |rows| ==>
      if rows[i].confession.id == id then
        r[i].commentCount == rows[i].commentCount && Incremented(rows[i].confession, r[i].confession, rx)
      else r[i] == rows[i]
  {
    seq(|rows|, i requires 0 <= i < |rows| => if rows[i].confession.id == id then Bumped(rows[i], rx) else rows[i])
  }

  /** The daily card after a reaction: changed only when it is the reacted confession. */
  function ReactOnDaily(daily: Option<FeedRow>, id: int, rx: Reaction): (r: Option<FeedRow>)
    ensures daily.Some? && daily.value.confession.id == id ==>
      && r.Some?
      && r.value.commentCount == daily.value.commentCount
      && Incremented(daily.value.confession, r.value.confession, rx)
    ensures !(daily.Some? && daily.value.confession.id == id) ==> r == daily
  {
    if daily.Some? && daily.value.confession.id == id then Some(Bumped(daily.value, rx)) else daily
  }

  /**
   * The optimistic update agrees with the server: once updated locally, a fetched
   * feed holds exactly the rows the same feed query returns after the server applied
   * the same reaction (with no other writes in between), possibly in another order.
   */
  lemma OptimisticMatchesServer(cs: seq<Confession>, cms: seq<Comment>, q: Server.FeedQuery, id: int, rx: Reaction)
    ensures forall row :: row in ReactLocally(Server.FeedRows(cs, cms, q), id, rx) <==>
      row in Server.FeedRows(Server.UpdateWhere(cs, id, Server.Reacting(rx)), cms, q)
  {
    LocalRowsOnServer(cs, cms, q, id, rx);
    ServerRowsLocal(cs, cms, q, id, rx);
  }

  /** Every locally updated row is a row of the server's feed after the reaction. */
  lemma LocalRowsOnServer(cs: seq<Confession>, cms: seq<Comment>, q: Server.FeedQuery, id: int, rx: Reaction)
    ensures forall row :: row in ReactLocally(Server.FeedRows(cs, cms, q), id, rx) ==>
      row in Server.FeedRows(Server.UpdateWhere(cs, id, Server.Reacting(rx)), cms, q)
  {
    forall row | row in ReactLocally(Server.FeedRows(cs, cms, q), id, rx)
      ensures row in Server.FeedRows(Server.UpdateWhere(cs, id, Server.Reacting(rx)), cms, q)
    {
      LocalRowOnServer(cs, cms, q, id, rx, row);
    }
  }

  /** One locally updated row, found in the server's feed after the reaction. */
  lemma LocalRowOnServer(cs: seq<Confession>, cms: seq<Comment>, q: Server.FeedQuery, id: int, rx: Reaction, row: FeedRow)
    requires row in ReactLocally(Server.FeedRows(cs, cms, q), id, rx)
    ensures row in Server.FeedRows(Server.UpdateWhere(cs, id, Server.Reacting(rx)), cms, q)
  {
    var rows := Server.FeedRows(cs, cms, q);
    var i :| 0 <= i < |rows| && ReactLocally(rows, id, rx)[i] == row;
    LocalAt(rows, id, rx, i);
    assert rows[i] in rows;
    UpdatedTo(cs, id, rx, rows[i].confession);
  }

  /** A confession of the table before the reaction is in the table after it, raised when it has the id. */
  lemma UpdatedTo(cs: seq<Confession>, id: int, rx: Reaction, c: Confession)
    requires c in cs
    ensures (if c.id == id then c.WithReaction(rx) else c) in Server.UpdateWhere(cs, id, Server.Reacting(rx))
  {
    var k :| 0 <= k < |cs| && cs[k] == c;
    assert Server.UpdateWhere(cs, id, Server.Reacting(rx))[k] == if c.id == id then c.WithReaction(rx) else c;
  }

  /** Every row of the server's feed after the reaction is a locally updated row. */
  lemma ServerRowsLocal(cs: seq<Confession>, cms: seq<Comment>, q: Server.FeedQuery, id: int, rx: Reaction)
    ensures forall row :: row in Server.FeedRows(Server.UpdateWhere(cs, id, Server.Reacting(rx)), cms, q) ==>
      row in ReactLocally(Server.FeedRows(cs, cms, q), id, rx)
  {
    forall row | row in Server.FeedRows(Server.UpdateWhere(cs, id, Server.Reacting(rx)), cms, q)
      ensures row in ReactLocally(Server.FeedRows(cs, cms, q), id, rx)
    {
      ServerRowLocal(cs, cms, q, id, rx, row);
    }
  }

  /** One row of the server's feed after the reaction, found in the locally updated list. */
  lemma ServerRowLocal(cs: seq<Confession>, cms: seq<Comment>, q: Server.FeedQuery, id: int, rx: Reaction, row: FeedRow)
    ensures row in Server.FeedRows(Server.UpdateWhere(cs, id, Server.Reacting(rx)), cms, q) ==>
      row in ReactLocally(Server.FeedRows(cs, cms, q), id, rx)
  {
    if row in Server.FeedRows(Server.UpdateWhere(cs, id, Server.Reacting(rx)), cms, q) {
      var c := UpdatedFrom(cs, id, rx, row.confession);
      var rows := Server.FeedRows(cs, cms, q);
      var orig := FeedRow(c, row.commentCount);
      assert orig in rows;
      var i :| 0 <= i < |rows| && rows[i] == orig;
      LocalAt(rows, id, rx, i);
    }
  }

  /** A confession of the table after the reaction is one of the table before, raised when it had the id. */
  lemma UpdatedFrom(cs: seq<Confession>, id: int, rx: Reaction, after: Confession) returns (c: Confession)
    requires after in Server.UpdateWhere(cs, id, Server.Reacting(rx))
    ensures c in cs
    ensures after == if c.id == id then c.WithReaction(rx) else c
  {
    var k :| 0 <= k < |cs| && Server.UpdateWhere(cs, id, Server.Reacting(rx))[k] == after;
    c := cs[k];
  }

  /** Row i of the locally updated list. */
  lemma LocalAt(rows: seq<FeedRow>, id: int, rx: Reaction, i: int)
    requires 0 <= i < |rows|
    ensures ReactLocally(rows, id, rx)[i] == if rows[i].confession.id == id then Bumped(rows[i], rx) else rows[i]
  {
  }

  /**
   * The search box's test: the lower-cased content contains the lower-cased query.
   * Every row passes the empty query.
   */
  function Matches(query: string): (m: FeedRow -> bool)
    ensures forall row :: m(row) <==>
      exists i :: Text.OccursAt(Text.Lower(row.confession.content), Text.Lower(query), i)
    ensures query == "" ==> forall row :: m(row)
  {
    (row: FeedRow) => Text.Includes(Text.Lower(row.confession.content), Text.Lower(query))
  }

  /**
   * `filteredConfessions`: the rows whose content contains the query, ignoring the
   * case of ASCII letters, in their order; an empty query keeps every row.
   */
  function SearchFilter(rows: seq<FeedRow>, query: string): (r: seq<FeedRow>)
    ensures forall row :: row in r <==>
      row in rows && Text.Includes(Text.Lower(row.confession.content), Text.Lower(query))
    ensures Lists.IsSubseq(r, rows)
    ensures forall row :: multiset(r)[row] == if Matches(query)(row) then multiset(rows)[row] else 0
    ensures query == "" ==> r == rows
  {
    Lists.FilterSubseq(rows, Matches(query));
    Lists.FilterCounts(rows, Matches(query));
    if query == "" then
      Lists.FilterKeepsAll(rows, Matches(query));
      Lists.Filter(rows, Matches(query))
    else
      Lists.Filter(rows, Matches(query))
  }

  /** Two queries that differ only in the case of ASCII letters find the same rows. */
  lemma SearchIgnoresCase(rows: seq<FeedRow>, q1: string, q2: string)
    requires Text.Lower(q1) == Text.Lower(q2)
    ensures SearchFilter(rows, q1) == SearchFilter(rows, q2)
  {
    Lists.FilterAgree(rows, Matches(q1), Matches(q2));
  }

  /**
   * The query parameters of the feed request: `mood` unless the active mood is
   * "All", then `sort=trending` when sorting by trending, in that order.
   */
  function FeedParams(activeMood: string, sortBy: string): (ps: seq<(string, string)>)
    ensures ("mood", activeMood) in ps <==> activeMood != "All"
    ensures ("sort", "trending") in ps <==> sortBy == "trending"
    ensures forall p :: p in ps ==> p == ("mood", activeMood) || p == ("sort", "trending")
  {
    (if activeMood != "All" then [("mood", activeMood)] else [])
      + (if sortBy == "trending" then [("sort", "trending")] else [])
  }

  /**
   * What the server makes of the page's parameters: it filters by the active mood
   * unless that is "All" (or empty), and orders by trending score iff the page sorts
   * by trending.
   */
  lemma ParamsReachServer(activeMood: string, sortBy: string)
    ensures var ps := FeedParams(activeMood, sortBy);
      var q := Server.PlanFeed(Server.Param(ps, "mood"), Server.Param(ps, "sort"));
      && q.mood == (if activeMood != "All" && activeMood != "" then Some(activeMood) else None)
      && (q.order == Server.Trending <==> sortBy == "trending")
  {
    var ps := FeedParams(activeMood, sortBy);
    if activeMood != "All" {
      assert ps[0] == ("mood", activeMood);
    } else {
      assert forall i :: 0 <= i < |ps| ==> ps[i].0 != "mood";
    }
    if sortBy == "trending" {
      assert ps[|ps| - 1] == ("sort", "trending");
      assert forall i :: 0 <= i < |ps| - 1 ==> ps[i].0 != "sort";
    } else {
      assert forall i :: 0 <= i < |ps| ==> ps[i].0 != "sort";
    }
  }

  /** The page's state that these operations read and replace. */
  class FeedPage {
    var confessions: seq<FeedRow>
    var daily: Option<FeedRow>
    var activeMood: string
    var sortBy: string
    var searchQuery: string

    /** The page as first rendered: nothing fetched, every mood, latest first, no search. */
    constructor ()
      ensures confessions == [] && daily == None
      ensures activeMood == "All" && sortBy == "latest" && searchQuery == ""
    {
      confessions, daily := [], None;
      activeMood, sortBy, searchQuery := "All", "latest", "";
    }

    /** The cards shown: the fetched list narrowed by the search box. */
    function Filtered(): (r: seq<FeedRow>)
      reads this
      ensures Lists.IsSubseq(r, confessions)
    {
      SearchFilter(confessions, searchQuery)
    }

    /** "No secrets found" is shown exactly when no fetched row matches the search. */
    function ShowsEmptyState(): (b: bool)
      reads this
      ensures b <==> forall row :: row in confessions ==>
        !Text.Includes(Text.Lower(row.confession.content), Text.Lower(searchQuery))
    {
      var r := Filtered();
      assert r != [] ==> r[0] in r;
      |r| == 0
    }

    /**
     * The parameters `fetchConfessions` appends to the feed URL; the server reads
     * from them the page's mood (unless it is "All" or empty) and its sort order.
     */
    function RequestParams(): (ps: seq<(string, string)>)
      reads this
      ensures Server.PlanFeed(Server.Param(ps, "mood"), Server.Param(ps, "sort")).mood
        == (if activeMood != "All" && activeMood != "" then Some(activeMood) else None)
      ensures Server.PlanFeed(Server.Param(ps, "mood"), Server.Param(ps, "sort")).order == Server.Trending
        <==> sortBy == "trending"
    {
      ParamsReachServer(activeMood, sortBy);
      FeedParams(activeMood, sortBy)
    }

    /**
     * `handleReact`: once the request went through, the list and the daily card get
     * the new count; when it failed, the page is left as it was.
     */
    method HandleReact(id: int, rx: Reaction, delivered: bool)
      modifies this
      ensures delivered ==> confessions == ReactLocally(old(confessions), id, rx)
      ensures delivered ==> daily == ReactOnDaily(old(daily), id, rx)
      ensures !delivered ==> confessions == old(confessions) && daily == old(daily)
      ensures activeMood == old(activeMood) && sortBy == old(sortBy) && searchQuery == old(searchQuery)
    {
      if !delivered {
        return;
      }
      confessions := ReactLocally(confessions, id, rx);
      if daily.Some? && daily.value.confession.id == id {
        daily := Some(Bumped(daily.value, rx));
      }
    }

    /**
     * `fetchRandomConfession`, after the request: a pick replaces the list by itself
     * alone and selects "All"; no pick changes nothing.
     */
    method ShowRandom(data: Option<FeedRow>)
      modifies this
      ensures data.Some? ==> confessions == [data.value] && activeMood == "All"
      ensures data.None? ==> confessions == old(confessions) && activeMood == old(activeMood)
      ensures daily == old(daily) && sortBy == old(sortBy) && searchQuery == old(searchQuery)
    {
      if data.Some? {
        confessions := [data.value];
        activeMood := "All";
      }
    }
  }
}
