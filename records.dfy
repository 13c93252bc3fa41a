/** The rows of the two tables and the values the handlers exchange about them. */
module Records {
  import opened Wrappers

  /** The four reaction counters; each names one `reaction_<type>` column. */
  datatype Reaction = Love | Relate | Shocked | Funny

  /** The `type` a client sends for a reaction. */
  function ReactionName(rx: Reaction): string
  {
    match rx
    case Love => "love"
    case Relate => "relate"
    case Shocked => "shocked"
    case Funny => "funny"
  }

  /**
   * The server's check of a request's `type` against the list of valid types: a
   * missing type, or any other string, is not a reaction.
   */
  function ParseReaction(kind: Option<string>): (r: Option<Reaction>)
    ensures r.Some? <==> kind.Some? && kind.value in ["love", "relate", "shocked", "funny"]
    ensures r.Some? ==> kind == Some(ReactionName(r.value))
  {
    match kind
    case Some("love") => Some(Love)
    case Some("relate") => Some(Relate)
    case Some("shocked") => Some(Shocked)
    case Some("funny") => Some(Funny)
    case _ => None
  }

  /** Every reaction's own name passes the server's check and reads back as that reaction. */
  lemma ReactionNameRoundTrip(rx: Reaction)
    ensures ParseReaction(Some(ReactionName(rx))) == Some(rx)
  {
  }

  /** JavaScript truthiness of a string field of a request body: present and non-empty. */
  predicate Filled(field: Option<string>)
  {
    field.Some? && field.value != ""
  }

  /** JavaScript truthiness of a numeric `parent_id`: present and not 0. */
  predicate IsSet(parent: Option<int>)
  {
    parent.Some? && parent.value != 0
  }

  /** A row of the confessions table; `createdAt` is a timestamp in seconds. */
  datatype Confession = Confession(
    id: int,
    content: string,
    category: string,
    color: string,
    mood: string,
    reactionLove: nat,
    reactionRelate: nat,
    reactionShocked: nat,
    reactionFunny: nat,
    reportCount: nat,
    createdAt: int)
  {
    /** The column a reaction type names. */
    function Reactions(rx: Reaction): nat
    {
      match rx
      case Love => reactionLove
      case Relate => reactionRelate
      case Shocked => reactionShocked
      case Funny => reactionFunny
    }

    /** The sum of the four reaction counters, the daily pick's ranking. */
    function ReactionSum(): (n: nat)
      ensures forall rx :: Reactions(rx) <= n
      ensures n == 0 <==> forall rx :: Reactions(rx) == 0
    {
      assert Reactions(Love) == reactionLove && Reactions(Relate) == reactionRelate;
      assert Reactions(Shocked) == reactionShocked && Reactions(Funny) == reactionFunny;
      reactionLove + reactionRelate + reactionShocked + reactionFunny
    }

    /** `reaction_<type> = reaction_<type> + 1` on this row. */
    function WithReaction(rx: Reaction): (c: Confession)
      ensures Incremented(this, c, rx)
      ensures c.ReactionSum() == ReactionSum() + 1
    {
      match rx
      case Love => this.(reactionLove := reactionLove + 1)
      case Relate => this.(reactionRelate := reactionRelate + 1)
      case Shocked => this.(reactionShocked := reactionShocked + 1)
      case Funny => this.(reactionFunny := reactionFunny + 1)
    }

    /** `report_count = report_count + 1` on this row. */
    function Reported(): (c: Confession)
      ensures SameRecord(this, c) && c.reportCount == reportCount + 1
      ensures forall rx :: c.Reactions(rx) == Reactions(rx)
      ensures c.ReactionSum() == ReactionSum()
    {
      this.(reportCount := reportCount + 1)
    }
  }

  /** a and b are the same confession, whatever their counters say. */
  predicate SameRecord(a: Confession, b: Confession)
  {
    && a.id == b.id && a.content == b.content && a.category == b.category
    && a.color == b.color && a.mood == b.mood && a.createdAt == b.createdAt
  }

  /**
   * after is before with exactly the counter rx raised by one: every other field,
   * the other three counters and the report count are as they were.
   */
  ghost predicate Incremented(before: Confession, after: Confession, rx: Reaction)
  {
    && SameRecord(before, after)
    && after.reportCount == before.reportCount
    && after.Reactions(rx) == before.Reactions(rx) + 1
    && forall other :: other != rx ==> after.Reactions(other) == before.Reactions(other)
  }

  /** No counter of before is larger in after, and the record itself is the same. */
  ghost predicate CountersGrew(before: Confession, after: Confession)
  {
    && SameRecord(before, after)
    && after.reportCount >= before.reportCount
    && forall rx :: after.Reactions(rx) >= before.Reactions(rx)
  }

  /**
   * A row of the comments table. `parentId` is None for a top-level comment (SQL
   * NULL) and otherwise the id of the comment it answers.
   */
  datatype Comment = Comment(id: int, confessionId: int, parentId: Option<int>, content: string, createdAt: int)

  /** A confession as the feed, daily and random handlers return it, with `comment_count`. */
  datatype FeedRow = FeedRow(confession: Confession, commentCount: nat)
}
