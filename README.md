# BlushBox, modelled in Dafny

BlushBox is an anonymous confession board. Visitors post short confessions tagged
with a mood. They browse a feed filtered by mood and sorted by recency or by a
trending score. They react with four emoji counters, report confessions and
comment, with replies one level deep. The server keeps two tables, `confessions`
and `comments`, and answers one HTTP handler per operation. The client is three
React views.

The model has one module per part of the system:

- `Wrappers` (wrappers.dfy): `Option` and the handlers' `Result` (a payload, or an error message: a 400, or the engine's error as a 500).
- `Lists` (lists.dfy): `filter`, a stable sort standing for SQL `ORDER BY`, and an arg-max standing for `ORDER BY … DESC LIMIT 1`.
- `Text` (text.dfy): JavaScript `trim`, `toLowerCase` over ASCII letters, and `includes`.
- `Records` (records.dfy): the two tables' rows, the reaction enum, the feed row with its `comment_count`, and the JavaScript truthiness tests on request fields.
- `Server` (server.dfy): class `Store` holds the two tables as sequences, plus the AUTOINCREMENT counters. Its methods are the handlers. The handlers' queries are functions over the tables.
- `Feed` (feed.dfy): the feed page's state, class `FeedPage`; the optimistic reaction update; the search filter; the query parameters.
- `CommentModal` (comment_modal.dfy): the split into top-level comments and replies, what gets rendered, and the reply form, class `CommentBox`.
- `Landing` (landing.dfy): the submission form, class `LandingForm`, with its guard, its random category and colour, and its reset.

Modelling choices:

- A request-body field is an `Option<string>`; "falsy" means absent or `""`.
- A `parent_id` is an `Option<int>`; falsy means absent or `0`.
- Timestamps are integers in seconds. "now" is a parameter of every operation that reads the clock. One day is 86400 seconds.
- `ORDER BY RANDOM()` becomes a `roll` parameter. `Math.random()` becomes a real `roll` in [0, 1).
- Whether a client request went through (`fetch` did not throw) is the parameter `delivered`.
- Rows with equal sort keys come out in table order, because the sort is stable. The contracts promise only what SQL promises: the key order, and that the result is a permutation of the input. The daily pick is the same: its contract says only that the pick is in the window and has a maximal reaction sum.

Behaviour of the code that the model follows:

- The server does not check the submitted mood against the five moods. Any non-empty string is stored.
- The daily window is `created_at >= now - 1 day`, so a row stamped in the future also qualifies.
- The handler that adds a comment checks neither the confession id nor the parent id itself. The schema's two FOREIGN KEY clauses (server.ts:34-35) do, because better-sqlite3 builds SQLite with foreign keys switched on by default. An INSERT naming no confession fails with SQLite's "FOREIGN KEY constraint failed", and so does one whose parent is neither a stored comment nor the new row itself. The request then ends in a 500 and nothing is added. SQLite checks the self-referencing `parent_id` against the table with the new row in it. A parent equal to the id the new comment is about to get (predictable under AUTOINCREMENT) is therefore accepted: that comment is its own parent. `Store.Valid` records that every comment names a stored confession and every stored parent names a stored comment. A newly submitted confession then has no comments (`Store.Submit`), which is what `Server.SubmittedInFeed` requires.
- `!c.parent_id` also treats a parent id of `0` as top-level. So `getReplies(0)` overlaps the top-level list. The server never stores `0`, because it stores a falsy parent as NULL; `Store.Valid` records this.
- A reply to a reply is stored and counted in the modal's header, but it is rendered nowhere (`CommentModal.NestedReplyHidden`).

## Model

| member | source | states |
|---|---|---|
| Records.ParseReaction | server.ts:180-183 | a type is accepted iff it is one of "love", "relate", "shocked", "funny"; an accepted type is the name of the reaction it yields |
| Records.ReactionNameRoundTrip | server.ts:178-185 | every reaction's name passes the server's type check and reads back as the same reaction, so the four columns and the four names correspond one to one |
| Records.Confession.WithReaction | server.ts:185 | exactly the named counter rises by one; the other counters, the report count and every other field keep their values; the daily ranking rises by exactly one |
| Records.Confession.Reported | server.ts:192 | the report count rises by one; the record, all four reaction counters and the daily ranking keep their values |
| Lists.Filter | src/pages/Feed.tsx:112-114 | `filter` keeps exactly the elements that pass, and never lengthens the list |
| Lists.FilterNone | server.ts:118-120 | `filter` gives the empty list iff no element passes |
| Lists.FilterSubseq | src/pages/Feed.tsx:112-114 | `filter` keeps the order of the input: its result is a subsequence of it |
| Lists.FilterCounts | src/pages/Feed.tsx:112-114 | `filter` keeps every occurrence of each element that passes and nothing else |
| Lists.SortBy | server.ts:131-135 | the result is ordered by the key and is a permutation of the input (same multiset, same members, same length) |
| Lists.MaxBy | server.ts:148-149 | the result is an element of the input whose key no element exceeds |
| Server.Param | server.ts:116 | a parameter is read iff it was sent, and then it is a value sent for it |
| Server.PlanFeed | server.ts:124-135 | the mood filter is present iff mood is truthy and not "All", and then it is that mood; trending order iff sort is "trending" |
| Server.CommentCount | server.ts:118-120 | `COUNT(cm.id)` of the LEFT JOIN is at most the number of comments, and 0 iff no comment names the confession |
| Server.Selected | server.ts:124-126 | the WHERE clause keeps exactly the confessions with the mood, when there is one, and all of them otherwise |
| Server.TrendingScore | server.ts:132 | the trending score is at least the comment count and at least each reaction counter; the feed's trending order is stated by `Server.FeedOrder` and `Server.FeedRows` |
| Records.Confession.ReactionSum | server.ts:148 | the daily ranking is at least each reaction counter, and it is 0 iff no reaction was given; how a reaction and a report move it is stated by `WithReaction` (one higher) and `Reported` (unchanged) |
| Server.Joined | server.ts:117-129 | one row per confession; a row is in the result iff its confession is in the table and its comment count is that confession's number of comments |
| Server.CommentCountAfterAdd | server.ts:118-120 | appending a comment raises its own confession's comment count by one and no other confession's |
| Server.FeedOrder | server.ts:131-135 | sorting descending by the order's key means a non-increasing trending score, or non-increasing creation time |
| Server.FeedRows | server.ts:115-139 | the feed holds exactly the confessions the mood filter keeps, each with its true comment count, as many rows as such confessions, in non-increasing trending score or creation time |
| Server.DailyPick | server.ts:141-152 | absent iff no confession was created in the last day; otherwise a confession from that window with its comment count, whose reaction sum no window member exceeds |
| Server.RandomPick | server.ts:154-164 | absent iff the table is empty; otherwise some confession of the table with its comment count; every row is reachable by some roll |
| Server.CommentsOf | server.ts:197-201 | exactly the comments of that confession, as many as its comment count, in non-decreasing creation time |
| Server.StoredParent | server.ts:210 | a falsy parent id is stored as NULL, a truthy one as given; the stored parent is never 0 |
| Server.Seeded | server.ts:51-60 | one row per sample, in order; each row reads back as its sample (fields, counters, and age before now) and has no reports; the ids rise strictly within [firstId, firstId + number of samples) |
| Server.GrewKeepsIds | server.ts:185-192 | an UPDATE that only raises counters keeps every id of the table, so the comments' foreign keys stay valid |
| Server.ReactedTimesCounts | server.ts:185-187 | n reactions of one type raise that counter of the confession by n; the other counters, the report count and the other rows are unchanged |
| Server.SubmittedInFeed | server.ts:166-173 | a confession just submitted with any mood m appears in the feed asked for with mood m (the whole feed when m is "All" or empty), with zero counters and zero comments, provided no comment names its id |
| Server.Store.constructor | server.ts:12-36 | both tables start empty |
| Server.Store.SeedIfEmpty | server.ts:48-51 | the sample rows are inserted iff the confessions table is empty; otherwise nothing changes |
| Server.Store.ListConfessions | server.ts:115-139 | the handler builds the filter and the order step by step and answers the feed for them |
| Server.Store.Daily | server.ts:141-152 | the handler answers the daily pick of the current tables |
| Server.Store.Random | server.ts:154-164 | the handler answers the random pick of the current tables |
| Server.Store.Submit | server.ts:166-174 | a missing or empty field yields "Missing required fields" and no change; otherwise exactly one row is appended with the given fields, zero counters and time now, and its fresh id is returned; the new confession has no comments; no counter decreases |
| Server.Store.React | server.ts:176-188 | an invalid type yields "Invalid reaction type" and no change; otherwise success, and only the named counter of the rows with that id rises by one (no such row: no change) |
| Server.Store.Report | server.ts:190-195 | always success; only the report count of the rows with that id rises by one |
| Server.Store.ListComments | server.ts:197-201 | the handler answers the comments of that confession, oldest first |
| Server.Store.AddComment | server.ts:203-212 | missing or empty content yields "Missing content" and no change; a confession id that names no confession, or a stored parent that names neither a stored comment nor the new comment itself, yields SQLite's FOREIGN KEY error and no change; otherwise exactly one comment is appended, with a falsy parent stored as NULL, and its fresh id is returned; the foreign keys of every stored comment keep holding |
| Text.Trim | src/pages/Landing.tsx:21 | the result is the input with only leading and trailing white space removed: it occurs in the input with nothing but white space before and after it, it neither starts nor ends with white space, and it is empty iff the input is blank |
| Text.Lower | src/pages/Feed.tsx:113 | same length, every character lower-cased over ASCII, and no upper-case ASCII letter left in the result |
| Text.Includes | src/pages/Feed.tsx:113 | true iff the needle occurs at some position of the haystack; the empty needle always occurs |
| Feed.ReactLocally | src/pages/Feed.tsx:88-93 | same length and order; rows with the reacted id have exactly that counter one higher and the same comment count; all other rows unchanged |
| Feed.ReactOnDaily | src/pages/Feed.tsx:95-97 | the daily card changes only when its id is the reacted id, and then only the reacted counter rises by one |
| Feed.OptimisticMatchesServer | src/pages/Feed.tsx:80-97 | the locally updated feed holds exactly the rows the server's feed returns after the same reaction, possibly in another order |
| Feed.LocalRowsOnServer | src/pages/Feed.tsx:88-93 | every locally updated row is a row of the server's feed after the reaction |
| Feed.ServerRowsLocal | src/pages/Feed.tsx:88-93 | every row of the server's feed after the reaction is a locally updated row |
| Feed.Matches | src/pages/Feed.tsx:113 | a row matches iff the lower-cased query occurs in its lower-cased content; the empty query matches every row |
| Feed.SearchFilter | src/pages/Feed.tsx:112-114 | the order-preserving subsequence of the rows whose lower-cased content includes the lower-cased query; an empty query keeps every row |
| Feed.SearchIgnoresCase | src/pages/Feed.tsx:113 | queries equal up to ASCII case give the same result |
| Feed.FeedParams | src/pages/Feed.tsx:45-47 | the mood parameter is present iff the active mood is not "All"; the sort parameter iff sorting by trending; nothing else |
| Feed.ParamsReachServer | src/pages/Feed.tsx:43-51 | the server filters by the page's active mood unless it is "All" or empty, and orders by trending iff the page sorts by trending |
| Feed.FeedPage.constructor | src/pages/Feed.tsx:22-26 | the page starts with no rows, no daily card, mood "All", latest first, no search |
| Feed.FeedPage.Filtered | src/pages/Feed.tsx:244-247 | the cards shown are a subsequence of the fetched list |
| Feed.FeedPage.ShowsEmptyState | src/pages/Feed.tsx:250 | the empty-state message is shown iff no fetched row matches the search |
| Feed.FeedPage.RequestParams | src/pages/Feed.tsx:45-47 | the URL `fetchConfessions` builds makes the server filter by the page's mood unless it is "All" or empty, and order by trending iff the page sorts by trending |
| Feed.FeedPage.HandleReact | src/pages/Feed.tsx:80-101 | once the request went through, the list and the daily card are replaced by their reacted versions; when it failed (the catch branch), neither changes; the filters never change |
| Feed.FeedPage.ShowRandom | src/pages/Feed.tsx:67-78 | a pick replaces the list by that one row and selects "All"; no pick changes nothing |
| CommentModal.IsTopLevel | src/components/CommentModal.tsx:75 | a comment is top-level iff it names no non-zero parent |
| CommentModal.TopLevel | src/components/CommentModal.tsx:75 | the order-preserving subsequence of the comments whose parent is null or 0, keeping every occurrence of each and nothing else |
| CommentModal.Replies | src/components/CommentModal.tsx:76 | the order-preserving subsequence of the comments whose parent is the given id, keeping every occurrence of each and nothing else |
| CommentModal.TopLevelIsNoReply | src/components/CommentModal.tsx:75-76 | for a non-zero parent id, no comment is both top-level and a reply to it |
| CommentModal.OneParent | src/components/CommentModal.tsx:76 | a comment is among the replies of at most one parent id |
| CommentModal.Threads | src/components/CommentModal.tsx:111-141 | thread i is the i-th top-level comment, rendered with its replies in list order |
| CommentModal.ShownExactly | src/components/CommentModal.tsx:111-141 | a comment is rendered iff it is top-level or replies to a top-level comment of the list |
| CommentModal.ShownIsThreaded | src/components/CommentModal.tsx:111-141 | a rendered comment is in the list and is top-level or replies to a top-level comment |
| CommentModal.ThreadedIsShown | src/components/CommentModal.tsx:111-141 | every top-level comment, and every reply to one, is rendered |
| CommentModal.TopLevelIsShown | src/components/CommentModal.tsx:111-127 | a top-level comment of the list heads a rendered thread |
| CommentModal.ReplyIsShown | src/components/CommentModal.tsx:139-141 | a reply to a top-level comment of the list is rendered in that comment's thread |
| CommentModal.NestedReplyHidden | src/components/CommentModal.tsx:139-141 | with unique ids, a reply to a reply is rendered nowhere, although it is in the list and its count |
| CommentModal.ShowsNoComments | src/components/CommentModal.tsx:104 | "No comments yet." is shown iff no comment is top-level, even when replies exist |
| CommentModal.PostAccepted | src/components/CommentModal.tsx:62 | a non-blank post passes the server's content check, and a reply to a positive id is stored as a reply to it |
| CommentModal.CommentBox.constructor | src/components/CommentModal.tsx:34-37 | no comments, empty text, not submitting, not replying |
| CommentModal.CommentBox.StartReply | src/components/CommentModal.tsx:130 | the form now replies to that comment; nothing else changes |
| CommentModal.CommentBox.CancelReply | src/components/CommentModal.tsx:172 | the form no longer replies to a comment; nothing else changes |
| CommentModal.CommentBox.SubmitDisabled | src/components/CommentModal.tsx:185 | the send button is disabled iff the text is blank or a post is in flight |
| CommentModal.CommentBox.HandleSubmit | src/components/CommentModal.tsx:53-73 | blank text sends nothing and changes nothing; otherwise it posts the text with replyingTo as parent, clears the text and the reply target once delivered, and ends not submitting |
| Landing.CanSubmit | src/pages/Landing.tsx:21 | the form goes ahead iff the text is not blank and has at most 500 characters |
| Landing.RandomIndex | src/pages/Landing.tsx:27-28 | the index drawn from a roll in [0, 1) lies in [0, n), so the category and the colour are always from the fixed lists |
| Landing.PostAccepted | src/pages/Landing.tsx:30-34 | every post the form can send passes the server's required-field check |
| Landing.LandingForm.constructor | src/pages/Landing.tsx:6-9 | empty text, mood "Secret", no confirmation, not submitting |
| Landing.LandingForm.SelectMood | src/pages/Landing.tsx:76 | the mood becomes the chosen button's mood |
| Landing.LandingForm.Edit | src/pages/Landing.tsx:91 | the text becomes what was typed |
| Landing.LandingForm.SendDisabled | src/pages/Landing.tsx:106 | the button is disabled iff a post is in flight, the text is blank, or it is over 500 characters; enabled implies the guard accepts |
| Landing.LandingForm.HandleSubmit | src/pages/Landing.tsx:20-43 | a blank or over-long text does nothing; otherwise it posts the text and mood with a category and colour from the fixed lists, shows the confirmation and resets text and mood to "" and "Secret" once delivered, and ends not submitting |

## Left out

- SQLite, Express, Vite and static serving (server.ts:1-9, 108-113, 214-233): foreign libraries and I/O. The tables are in-memory sequences.
- Schema creation and the `ALTER TABLE` migrations (server.ts:12-46): DDL against the engine, whose failures are swallowed. The model starts from the final schema. The unused `likes` column is not modelled.
- The sample rows' text and numbers (server.ts:53-105): they are data. `SeedIfEmpty` takes the rows as a parameter and models only the "seed iff empty" guard.
- Ties in `ORDER BY`: SQLite leaves their order open. The model breaks them by table order, and no contract depends on it.
- Server.DailyPick: does not say which of several equally ranked confessions is picked, because the query does not fix it.
- Server.RandomPick: does not model the uniform distribution of `RANDOM()`, only that the pick is some row.
- Landing.RandomIndex: does not model the distribution of `Math.random()`, only its range.
- SQL `datetime` text and `formatDistanceToNow`: the model uses integer seconds.
- Request parameters that arrive as arrays, or as JSON values of another type: the body's text fields are strings or absent, `parent_id` is an integer or absent, and the `:id` path parameter is an integer.
- A database created before `parent_id` existed, where `ALTER TABLE` added the column without its foreign key (server.ts:46), and a connection with foreign keys switched off: the model enforces both foreign keys.
- Every `fetch`, the JSON decoding, `alert`, `console.error`, and the calls to `fetchComments` and `onCommentAdded` after a comment is posted: I/O. `handleReport` in the feed page is a request and an alert, so it is not modelled; its server side is `Store.Report`. The plain assignments of fetched data (`setConfessions(data)`, `setDailyConfession(data)`, `setComments(data)`) are not modelled either.
- The `useEffect` refetch that a changed `activeMood` triggers: effects are scheduling. After a random pick from a mood other than "All", the page refetches the full feed, and that can replace the single random row.
- The mood, sort and search setters of the feed page, JSX rendering and styling, Navbar.tsx and App.tsx: pure UI with no logic.
- The in-flight window of `isSubmitting`: each `HandleSubmit` is one step from the request to its end. The model keeps only the final state and the guard the disabled button applies.
- Concurrent requests and the drift of the client's optimistic counts: concurrency is the engine's concern. `OptimisticMatchesServer` holds when no other write comes in between.
- Reaction, report and comment counts are unbounded naturals: SQLite's INTEGER is 64-bit, and the client's `+ 1` is exact only up to 2^53. Nothing in the model depends on a bound.
- Text.Lower: folds only ASCII letters, not all of Unicode.
- Landing.CanSubmit: counts Unicode scalar values, while JavaScript's `length` counts UTF-16 code units, so text with characters outside the Basic Multilingual Plane is measured shorter than in the browser.
- The textarea's `maxLength` attribute: it is the browser's own limit on typing, and `Edit` accepts any text.
