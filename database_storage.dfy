/** The PostgreSQL-backed storage: rating upsert with re-aggregation, recommendations,
    the follow graph, activity feed, yearly goals, challenge progress and the leaderboard.
    Tables that a query reads in `ORDER BY` order are sequences of rows with a unique key;
    tables only reached through their key are maps (or a set, for the follow edges). */
module DatabaseStore {
  import opened Common
  import opened Schema
  import opened Ordering

  /** A row of `media_items` as these queries see it: one average, `avgRating`. */
  datatype CatalogItem = CatalogItem(
    id: int,
    title: string,
    mediaType: string,
    author: Option<string>,
    description: Option<string>,
    imageUrl: Option<string>,
    avgRating: real,
    totalRatings: int)

  /** A row of `user_media_ratings`; timestamps are logical times supplied by the caller. */
  datatype RatingRow = RatingRow(
    id: int,
    userId: string,
    mediaId: int,
    rating: int,
    review: Option<string>,
    dateConsumed: Option<int>,
    createdAt: int,
    updatedAt: int)

  /** A submitted rating; an omitted review or consumption date leaves the stored one alone
      on update and is NULL on insert. */
  datatype RatingInput = RatingInput(
    userId: string,
    mediaId: int,
    rating: int,
    review: Field<Option<string>>,
    dateConsumed: Field<Option<int>>)

  /** One row of the activity feed: a rating joined with its media item and its author. */
  datatype ActivityEntry = ActivityEntry(
    id: int,
    userId: string,
    rating: int,
    review: Option<string>,
    createdAt: int,
    mediaTitle: string,
    mediaType: string,
    userFirstName: Option<string>,
    userLastName: Option<string>,
    userProfileImageUrl: Option<string>)

  datatype YearlyGoal = YearlyGoal(
    id: int,
    userId: string,
    year: int,
    booksTarget: int,
    coursesTarget: int,
    debatesTarget: int,
    podcastsTarget: int,
    booksCompleted: int,
    coursesCompleted: int,
    debatesCompleted: int,
    podcastsCompleted: int,
    createdAt: int,
    updatedAt: int)

  datatype GoalInput = GoalInput(
    userId: string,
    year: int,
    booksTarget: Field<int>,
    coursesTarget: Field<int>,
    debatesTarget: Field<int>,
    podcastsTarget: Field<int>,
    booksCompleted: Field<int>,
    coursesCompleted: Field<int>,
    debatesCompleted: Field<int>,
    podcastsCompleted: Field<int>)

  datatype ChallengeProgress = ChallengeProgress(
    id: int,
    userId: string,
    challengeId: int,
    progress: ProgressBody,
    completed: bool,
    createdAt: int,
    updatedAt: int)

  /** The `progress` value of a challenge-progress request: `undefined` or `null`, a JSON object,
      or a JSON array (the shape the table declaration describes). */
  datatype ProgressBody = NoProgress | ProgressObject(fields: map<string, JsValue>) | ProgressArray(elements: seq<JsValue>)

  /** How a write fails: PostgreSQL's error for a row that names a user, media item or challenge
      that does not exist, its error for text that is not a boolean, or the TypeError of reading
      a property of `undefined` or `null`. */
  datatype DbError = ForeignKeyViolation | InvalidBooleanInput | PropertyOfNullish

  // ---------------------------------------------------------------- keys and lookups

  function UserIdSet(users: seq<User>): set<string> {
    set u | u in users :: u.id
  }

  function ItemIdSet(items: seq<CatalogItem>): set<int> {
    set x | x in items :: x.id
  }

  ghost predicate UniqueUserIds(users: seq<User>) {
    forall i, j :: 0 <= i < |users| && 0 <= j < |users| && users[i].id == users[j].id ==> i == j
  }

  ghost predicate UniqueItemIds(items: seq<CatalogItem>) {
    forall i, j :: 0 <= i < |items| && 0 <= j < |items| && items[i].id == items[j].id ==> i == j
  }

  /** The conflict target of the rating upsert, (userId, mediaId), identifies a row. */
  ghost predicate UniqueRatingKeys(rows: seq<RatingRow>) {
    forall i, j :: 0 <= i < |rows| && 0 <= j < |rows| && SameKey(rows[i], rows[j]) ==> i == j
  }

  predicate SameKey(a: RatingRow, b: RatingRow) {
    a.userId == b.userId && a.mediaId == b.mediaId
  }

  /** The position of the rating row for (userId, mediaId), or -1. */
  function RatingIndex(rows: seq<RatingRow>, userId: string, mediaId: int): (k: int)
    ensures -1 <= k < |rows|
    ensures k == -1 <==> forall r :: r in rows ==> !(r.userId == userId && r.mediaId == mediaId)
    ensures 0 <= k ==> rows[k].userId == userId && rows[k].mediaId == mediaId
  {
    FirstIndex(rows, (r: RatingRow) => r.userId == userId && r.mediaId == mediaId)
  }

  // ---------------------------------------------------------------- rating upsert and aggregation

  /** The rating upsert keyed on (userId, mediaId): the row for
      the key is overwritten in place (keeping its id and creation time), or a new row is appended. */
  function Upserted(rows: seq<RatingRow>, input: RatingInput, freshId: int, now: int): seq<RatingRow> {
    var k := RatingIndex(rows, input.userId, input.mediaId);
    if k == -1 then
      rows + [RatingRow(freshId, input.userId, input.mediaId, input.rating,
                        input.review.Over(None), input.dateConsumed.Over(None), now, now)]
    else
      rows[k := rows[k].(rating := input.rating,
                         review := input.review.Over(rows[k].review),
                         dateConsumed := input.dateConsumed.Over(rows[k].dateConsumed),
                         updatedAt := now)]
  }

  /** The `rating` column of every row for one media item, in row order. */
  function RatingsOf(rows: seq<RatingRow>, mediaId: int): seq<int>
    decreases |rows|
  {
    if rows == [] then []
    else (if rows[0].mediaId == mediaId then [rows[0].rating] else []) + RatingsOf(rows[1..], mediaId)
  }

  function Sum(xs: seq<int>): int
    decreases |xs|
  {
    if xs == [] then 0 else xs[0] + Sum(xs[1..])
  }

  /** `AVG(rating)` over a non-empty group: the exact arithmetic mean. */
  function Mean(xs: seq<int>): (m: real)
    requires |xs| > 0
    ensures m * |xs| as real == Sum(xs) as real
  {
    Sum(xs) as real / |xs| as real
  }

  /** Every media item that has ratings carries their mean and count. */
  ghost predicate AggregatesConsistent(items: seq<CatalogItem>, rows: seq<RatingRow>) {
    forall i :: 0 <= i < |items| && |RatingsOf(rows, items[i].id)| > 0 ==>
      && items[i].avgRating == Mean(RatingsOf(rows, items[i].id))
      && items[i].totalRatings == |RatingsOf(rows, items[i].id)|
  }

  /** Sets the average and count of the media item with that id; every other item is untouched. */
  function WithAggregate(items: seq<CatalogItem>, mediaId: int, avg: real, total: int): (r: seq<CatalogItem>)
    ensures |r| == |items|
    ensures forall i :: 0 <= i < |items| && items[i].id != mediaId ==> r[i] == items[i]
    ensures forall i :: 0 <= i < |items| && items[i].id == mediaId ==>
      r[i] == items[i].(avgRating := avg, totalRatings := total)
  {
    seq(|items|, i requires 0 <= i < |items| =>
      if items[i].id == mediaId then items[i].(avgRating := avg, totalRatings := total) else items[i])
  }

  lemma {:induction false} RatingsOfAppend(rows: seq<RatingRow>, row: RatingRow, mediaId: int)
    ensures RatingsOf(rows + [row], mediaId)
         == RatingsOf(rows, mediaId) + (if row.mediaId == mediaId then [row.rating] else [])
    decreases |rows|
  {
    if rows == [] {
      assert [row][1..] == [];
    } else {
      var tail := if row.mediaId == mediaId then [row.rating] else [];
      var head := if rows[0].mediaId == mediaId then [rows[0].rating] else [];
      assert (rows + [row])[0] == rows[0];
      assert (rows + [row])[1..] == rows[1..] + [row];
      RatingsOfAppend(rows[1..], row, mediaId);
      assert RatingsOf(rows + [row], mediaId) == head + (RatingsOf(rows[1..], mediaId) + tail);
      assert head + (RatingsOf(rows[1..], mediaId) + tail) == (head + RatingsOf(rows[1..], mediaId)) + tail;
    }
  }

  /** Rewriting one row in place, keeping its media id, changes only that media item's
      ratings, and not their number. */
  lemma {:induction false} RatingsOfUpdate(rows: seq<RatingRow>, k: nat, row: RatingRow, mediaId: int)
    requires k < |rows| && row.mediaId == rows[k].mediaId
    ensures |RatingsOf(rows[k := row], mediaId)| == |RatingsOf(rows, mediaId)|
    ensures mediaId != row.mediaId ==> RatingsOf(rows[k := row], mediaId) == RatingsOf(rows, mediaId)
    decreases |rows|
  {
    if k == 0 {
      assert rows[k := row][1..] == rows[1..];
    } else {
      assert rows[k := row][1..] == rows[1..][k - 1 := row];
      RatingsOfUpdate(rows[1..], k - 1, row, mediaId);
    }
  }

  /** An upsert changes no other media item's ratings. */
  lemma UpsertOtherMediaUnchanged(rows: seq<RatingRow>, input: RatingInput, freshId: int, now: int, mediaId: int)
    requires mediaId != input.mediaId
    ensures RatingsOf(Upserted(rows, input, freshId, now), mediaId) == RatingsOf(rows, mediaId)
  {
    var k := RatingIndex(rows, input.userId, input.mediaId);
    if k == -1 {
      RatingsOfAppend(rows, RatingRow(freshId, input.userId, input.mediaId, input.rating,
                                      input.review.Over(None), input.dateConsumed.Over(None), now, now), mediaId);
    } else {
      var row := rows[k].(rating := input.rating,
                          review := input.review.Over(rows[k].review),
                          dateConsumed := input.dateConsumed.Over(rows[k].dateConsumed),
                          updatedAt := now);
      RatingsOfUpdate(rows, k, row, mediaId);
    }
  }

  /** After an upsert there is exactly one row for the key, and it carries the submitted
      rating; a resubmission for an existing key adds no row and no rating to the item's count. */
  lemma UpsertKeyedRow(rows: seq<RatingRow>, input: RatingInput, freshId: int, now: int)
    requires UniqueRatingKeys(rows)
    ensures var rows' := Upserted(rows, input, freshId, now);
      var k := RatingIndex(rows', input.userId, input.mediaId);
      && UniqueRatingKeys(rows')
      && 0 <= k
      && rows'[k].rating == input.rating
      && (forall j :: 0 <= j < |rows'| && rows'[j].userId == input.userId && rows'[j].mediaId == input.mediaId ==> j == k)
    ensures RatingIndex(rows, input.userId, input.mediaId) != -1 ==>
      && |Upserted(rows, input, freshId, now)| == |rows|
      && |RatingsOf(Upserted(rows, input, freshId, now), input.mediaId)| == |RatingsOf(rows, input.mediaId)|
    ensures RatingIndex(rows, input.userId, input.mediaId) == -1 ==>
      && |Upserted(rows, input, freshId, now)| == |rows| + 1
      && RatingsOf(Upserted(rows, input, freshId, now), input.mediaId) == RatingsOf(rows, input.mediaId) + [input.rating]
  {
    var k := RatingIndex(rows, input.userId, input.mediaId);
    var rows' := Upserted(rows, input, freshId, now);
    var k' := RatingIndex(rows', input.userId, input.mediaId);
    if k == -1 {
      var row := RatingRow(freshId, input.userId, input.mediaId, input.rating,
                           input.review.Over(None), input.dateConsumed.Over(None), now, now);
      RatingsOfAppend(rows, row, input.mediaId);
      assert rows' == rows + [row];
      assert rows'[|rows|] == row;
      forall j | 0 <= j < |rows| ensures !SameKey(rows'[j], row) {
        assert rows[j] in rows;
      }
      assert k' == |rows|;
    } else {
      var row := rows[k].(rating := input.rating,
                          review := input.review.Over(rows[k].review),
                          dateConsumed := input.dateConsumed.Over(rows[k].dateConsumed),
                          updatedAt := now);
      RatingsOfUpdate(rows, k, row, input.mediaId);
      assert rows' == rows[k := row];
      assert forall j :: 0 <= j < |rows'| ==> SameKey(rows'[j], rows[j]);
      assert SameKey(rows[k'], rows[k]);
    }
  }

  /** The first rating of an item that had none makes its mean exactly that rating. */
  lemma FirstRatingSetsMean(rows: seq<RatingRow>, input: RatingInput, freshId: int, now: int)
    requires UniqueRatingKeys(rows)
    requires RatingsOf(rows, input.mediaId) == []
    ensures RatingsOf(Upserted(rows, input, freshId, now), input.mediaId) == [input.rating]
    ensures Mean([input.rating]) == input.rating as real
  {
    var k := RatingIndex(rows, input.userId, input.mediaId);
    if k != -1 {
      RatingInRatingsOf(rows, k);
      assert false;
    }
    UpsertKeyedRow(rows, input, freshId, now);
    assert [input.rating][1..] == [];
    assert Sum([input.rating]) == input.rating;
    assert Mean([input.rating]) * 1.0 == input.rating as real;
  }

  lemma {:induction false} RatingInRatingsOf(rows: seq<RatingRow>, k: nat)
    requires k < |rows|
    ensures |RatingsOf(rows, rows[k].mediaId)| > 0
    decreases |rows|
  {
    if k > 0 {
      RatingInRatingsOf(rows[1..], k - 1);
      assert rows[1..][k - 1] == rows[k];
    }
  }

  /** Rewriting one item's aggregates keeps the set of item ids and their uniqueness. */
  lemma WithAggregateKeepsIds(items: seq<CatalogItem>, mediaId: int, avg: real, total: int)
    ensures ItemIdSet(WithAggregate(items, mediaId, avg, total)) == ItemIdSet(items)
    ensures UniqueItemIds(items) ==> UniqueItemIds(WithAggregate(items, mediaId, avg, total))
  {
    var items' := WithAggregate(items, mediaId, avg, total);
    assert forall i :: 0 <= i < |items| ==> items'[i].id == items[i].id;
    forall id | id in ItemIdSet(items) ensures id in ItemIdSet(items') {
      var i :| 0 <= i < |items| && items[i].id == id;
      assert items'[i] in items';
    }
    forall id | id in ItemIdSet(items') ensures id in ItemIdSet(items) {
      var i :| 0 <= i < |items'| && items'[i].id == id;
      assert items[i] in items;
    }
  }

  /** An upsert whose user and media item exist keeps every rating's foreign keys valid. */
  lemma UpsertKeepsForeignKeys(rows: seq<RatingRow>, input: RatingInput, freshId: int, now: int,
                               userIds: set<string>, itemIds: set<int>)
    requires forall r :: r in rows ==> r.userId in userIds && r.mediaId in itemIds
    requires input.userId in userIds && input.mediaId in itemIds
    ensures forall r :: r in Upserted(rows, input, freshId, now) ==> r.userId in userIds && r.mediaId in itemIds
  {
    var k := RatingIndex(rows, input.userId, input.mediaId);
    if k != -1 {
      var rows' := Upserted(rows, input, freshId, now);
      forall r | r in rows' ensures r.userId in userIds && r.mediaId in itemIds {
        var j :| 0 <= j < |rows'| && rows'[j] == r;
        assert rows[j] in rows;
      }
    }
  }

  /** The upsert followed by the re-aggregation of the rated item keeps every item's
      average and count equal to the mean and number of its ratings. */
  lemma UpsertKeepsAggregates(items: seq<CatalogItem>, rows: seq<RatingRow>, input: RatingInput, freshId: int, now: int)
    requires UniqueRatingKeys(rows)
    requires AggregatesConsistent(items, rows)
    ensures var scores := RatingsOf(Upserted(rows, input, freshId, now), input.mediaId);
      && |scores| > 0
      && AggregatesConsistent(WithAggregate(items, input.mediaId, Mean(scores), |scores|), Upserted(rows, input, freshId, now))
  {
    var rows' := Upserted(rows, input, freshId, now);
    var scores := RatingsOf(rows', input.mediaId);
    UpsertKeyedRow(rows, input, freshId, now);
    RatingInRatingsOf(rows', RatingIndex(rows', input.userId, input.mediaId));
    var items' := WithAggregate(items, input.mediaId, Mean(scores), |scores|);
    forall i | 0 <= i < |items'| && |RatingsOf(rows', items'[i].id)| > 0
      ensures items'[i].avgRating == Mean(RatingsOf(rows', items'[i].id))
      ensures items'[i].totalRatings == |RatingsOf(rows', items'[i].id)|
    {
      if items[i].id != input.mediaId {
        UpsertOtherMediaUnchanged(rows, input, freshId, now, items[i].id);
      }
    }
  }

  /** The rating tables' part of the store invariant: unique keys, existing foreign keys, and
      every rated item carrying the mean and count of its ratings. */
  ghost predicate RatingTablesValid(users: seq<User>, items: seq<CatalogItem>, rows: seq<RatingRow>) {
    && UniqueItemIds(items)
    && UniqueRatingKeys(rows)
    && (forall r :: r in rows ==> r.userId in UserIdSet(users) && r.mediaId in ItemIdSet(items))
    && AggregatesConsistent(items, rows)
  }

  /** The upsert of a rating whose user and item exist, followed by the re-aggregation of its
      item, keeps the rating tables valid and leaves one row for the key, with the new score. */
  lemma UpsertKeepsRatingTables(users: seq<User>, items: seq<CatalogItem>, rows: seq<RatingRow>,
                                input: RatingInput, freshId: int, now: int)
    requires RatingTablesValid(users, items, rows)
    requires input.userId in UserIdSet(users) && input.mediaId in ItemIdSet(items)
    ensures var rows' := Upserted(rows, input, freshId, now);
      var scores := RatingsOf(rows', input.mediaId);
      var k := RatingIndex(rows', input.userId, input.mediaId);
      && |scores| > 0
      && RatingTablesValid(users, WithAggregate(items, input.mediaId, Mean(scores), |scores|), rows')
      && 0 <= k && rows'[k].rating == input.rating
      && forall j :: 0 <= j < |rows'| && SameKey(rows'[j], rows'[k]) ==> j == k
  {
    var rows' := Upserted(rows, input, freshId, now);
    var scores := RatingsOf(rows', input.mediaId);
    UpsertKeyedRow(rows, input, freshId, now);
    UpsertKeepsForeignKeys(rows, input, freshId, now, UserIdSet(users), ItemIdSet(items));
    UpsertKeepsAggregates(items, rows, input, freshId, now);
    WithAggregateKeepsIds(items, input.mediaId, Mean(scores), |scores|);
  }

  // ---------------------------------------------------------------- follow graph and activity

  /** The users that follow `u` (the join of `users` with edges into `u`). */
  function FollowersOf(users: seq<User>, follows: set<(string, string)>, u: string): set<User> {
    set x | x in users && (x.id, u) in follows
  }

  /** The users that `u` follows. */
  function FollowingOf(users: seq<User>, follows: set<(string, string)>, u: string): set<User> {
    set x | x in users && (u, x.id) in follows
  }

  function IdsOf(us: set<User>): set<string> {
    set x | x in us :: x.id
  }

  /** Both lists read one edge set: v follows u exactly when u is among the users v follows. */
  lemma FollowersMirrorFollowing(users: seq<User>, follows: set<(string, string)>, u: string, v: string)
    requires forall e :: e in follows ==> e.0 in UserIdSet(users) && e.1 in UserIdSet(users)
    ensures v in IdsOf(FollowersOf(users, follows, u)) <==> u in IdsOf(FollowingOf(users, follows, v))
  {
    if v in IdsOf(FollowersOf(users, follows, u)) {
      assert (v, u) in follows;
      var y :| y in users && y.id == u;
      assert y in FollowingOf(users, follows, v);
    }
    if u in IdsOf(FollowingOf(users, follows, v)) {
      assert (v, u) in follows;
      var x :| x in users && x.id == v;
      assert x in FollowersOf(users, follows, u);
    }
  }

  function FindUser(users: seq<User>, id: string): (r: Option<User>)
    ensures r.Some? ==> r.value in users && r.value.id == id
    ensures r.None? ==> id !in UserIdSet(users)
  {
    var k := FirstIndex(users, (x: User) => x.id == id);
    if k == -1 then None else Some(users[k])
  }

  function FindItem(items: seq<CatalogItem>, id: int): (r: Option<CatalogItem>)
    ensures r.Some? ==> r.value in items && r.value.id == id
    ensures r.None? ==> id !in ItemIdSet(items)
  {
    var k := FirstIndex(items, (x: CatalogItem) => x.id == id);
    if k == -1 then None else Some(items[k])
  }

  /** The feed row for one rating: the inner joins with its media item and its author,
      which drop the rating when either is missing. */
  function EntryFor(r: RatingRow, items: seq<CatalogItem>, users: seq<User>): (e: Option<ActivityEntry>)
    ensures e.Some? <==> r.mediaId in ItemIdSet(items) && r.userId in UserIdSet(users)
    ensures e.Some? ==> (e.value.id == r.id && e.value.userId == r.userId && e.value.rating == r.rating
                         && e.value.review == r.review && e.value.createdAt == r.createdAt)
  {
    match (FindItem(items, r.mediaId), FindUser(users, r.userId))
    case (Some(m), Some(u)) =>
      Some(ActivityEntry(r.id, r.userId, r.rating, r.review, r.createdAt, m.title, m.mediaType,
                         u.firstName, u.lastName, u.profileImageUrl))
    case _ => None
  }

  /** `WHERE userId IN authors` over the joined ratings, in row order. */
  function Activity(rows: seq<RatingRow>, items: seq<CatalogItem>, users: seq<User>, authors: set<string>)
    : (es: seq<ActivityEntry>)
    ensures |es| <= |rows|
    ensures authors == {} ==> es == []
    ensures forall e :: e in es ==> e.userId in authors
    decreases |rows|
  {
    if rows == [] then []
    else
      var rest := Activity(rows[1..], items, users, authors);
      match EntryFor(rows[0], items, users)
      case Some(e) => if rows[0].userId in authors then [e] + rest else rest
      case None => rest
  }

  /** Every feed entry comes from a rating by one of the authors. */
  lemma {:induction false} ActivitySound(rows: seq<RatingRow>, items: seq<CatalogItem>, users: seq<User>,
                                         authors: set<string>, e: ActivityEntry)
    requires e in Activity(rows, items, users, authors)
    ensures exists r :: r in rows && r.userId in authors && EntryFor(r, items, users) == Some(e)
    decreases |rows|
  {
    var rest := Activity(rows[1..], items, users, authors);
    if e in rest {
      ActivitySound(rows[1..], items, users, authors, e);
      var r :| r in rows[1..] && r.userId in authors && EntryFor(r, items, users) == Some(e);
      assert r in rows;
    } else {
      assert rows[0] in rows;
    }
  }

  /** Every rating by one of the authors whose media item and author exist is in the feed. */
  lemma {:induction false} ActivityComplete(rows: seq<RatingRow>, items: seq<CatalogItem>, users: seq<User>,
                                            authors: set<string>, k: nat)
    requires k < |rows| && rows[k].userId in authors
    requires rows[k].mediaId in ItemIdSet(items) && rows[k].userId in UserIdSet(users)
    ensures EntryFor(rows[k], items, users).value in Activity(rows, items, users, authors)
    decreases |rows|
  {
    if k > 0 {
      ActivityComplete(rows[1..], items, users, authors, k - 1);
      assert rows[1..][k - 1] == rows[k];
    }
  }

  function EntryTime(e: ActivityEntry): real { e.createdAt as real }

  // ---------------------------------------------------------------- recommendations and leaderboard

  /** The media ids `u` has rated. */
  function RatedIds(rows: seq<RatingRow>, u: string): set<int> {
    set r | r in rows && r.userId == u :: r.mediaId
  }

  /** `if (type)`: a type argument filters unless absent or empty. */
  predicate TypeGiven(t: Option<string>) {
    t.Some? && t.value != ""
  }

  /** The `WHERE` of the recommendation query: not already rated (`NOT IN`, only when the
      user has rated something) and of the given type. */
  predicate Recommendable(rated: set<int>, t: Option<string>, x: CatalogItem) {
    && (|rated| == 0 || x.id !in rated)
    && (!TypeGiven(t) || x.mediaType == t.value)
  }

  function ItemRating(x: CatalogItem): real { x.avgRating }

  function WisdomKey(u: User): real { u.wisdomScore as real }

  /** The rows the recommendation query selects, in table order. */
  function Candidates(items: seq<CatalogItem>, rated: set<int>, t: Option<string>): (c: seq<CatalogItem>)
    ensures forall x :: x in c <==> x in items && Recommendable(rated, t, x)
    ensures multiset(c) <= multiset(items)
    decreases |items|
  {
    if items == [] then []
    else
      assert items == [items[0]] + items[1..];
      (if Recommendable(rated, t, items[0]) then [items[0]] else []) + Candidates(items[1..], rated, t)
  }

  /** Nothing is recommended from a type whose every item the user has rated. */
  lemma {:induction false} AllRatedMeansNoCandidates(items: seq<CatalogItem>, rows: seq<RatingRow>, u: string,
                                                     t: Option<string>)
    requires TypeGiven(t)
    requires forall x :: x in items && x.mediaType == t.value ==> x.id in RatedIds(rows, u)
    ensures Candidates(items, RatedIds(rows, u), t) == []
    decreases |items|
  {
    if items != [] {
      assert items[0] in items;
      AllRatedMeansNoCandidates(items[1..], rows, u, t);
    }
  }

  // ---------------------------------------------------------------- goals and challenge progress

  /** The goal row after the upsert keyed on (userId, year):
      the given counts are written; omitted counts keep their stored value, or 0 on insert. */
  function GoalAfter(existing: Option<YearlyGoal>, g: GoalInput, freshId: int, now: int): (r: YearlyGoal)
    ensures r.userId == g.userId && r.year == g.year && r.updatedAt == now
    ensures existing.None? ==> r.id == freshId && r.createdAt == now
    ensures existing.Some? && existing.value.userId == g.userId && existing.value.year == g.year ==>
      r.id == existing.value.id && r.createdAt == existing.value.createdAt
    ensures g.booksTarget.Given? ==> r.booksTarget == g.booksTarget.value
    ensures g.booksTarget.Omitted? ==> r.booksTarget == if existing.Some? then existing.value.booksTarget else 0
    ensures g.coursesTarget.Given? ==> r.coursesTarget == g.coursesTarget.value
    ensures g.coursesTarget.Omitted? ==> r.coursesTarget == if existing.Some? then existing.value.coursesTarget else 0
    ensures g.debatesTarget.Given? ==> r.debatesTarget == g.debatesTarget.value
    ensures g.debatesTarget.Omitted? ==> r.debatesTarget == if existing.Some? then existing.value.debatesTarget else 0
    ensures g.podcastsTarget.Given? ==> r.podcastsTarget == g.podcastsTarget.value
    ensures g.podcastsTarget.Omitted? ==> r.podcastsTarget == if existing.Some? then existing.value.podcastsTarget else 0
    ensures g.booksCompleted.Given? ==> r.booksCompleted == g.booksCompleted.value
    ensures g.booksCompleted.Omitted? ==> r.booksCompleted == if existing.Some? then existing.value.booksCompleted else 0
    ensures g.coursesCompleted.Given? ==> r.coursesCompleted == g.coursesCompleted.value
    ensures g.coursesCompleted.Omitted? ==> r.coursesCompleted == if existing.Some? then existing.value.coursesCompleted else 0
    ensures g.debatesCompleted.Given? ==> r.debatesCompleted == g.debatesCompleted.value
    ensures g.debatesCompleted.Omitted? ==> r.debatesCompleted == if existing.Some? then existing.value.debatesCompleted else 0
    ensures g.podcastsCompleted.Given? ==> r.podcastsCompleted == g.podcastsCompleted.value
    ensures g.podcastsCompleted.Omitted? ==> r.podcastsCompleted == if existing.Some? then existing.value.podcastsCompleted else 0
  {
    match existing
    case None =>
      YearlyGoal(freshId, g.userId, g.year,
        g.booksTarget.Over(0), g.coursesTarget.Over(0), g.debatesTarget.Over(0), g.podcastsTarget.Over(0),
        g.booksCompleted.Over(0), g.coursesCompleted.Over(0), g.debatesCompleted.Over(0), g.podcastsCompleted.Over(0),
        now, now)
    case Some(e) =>
      e.(userId := g.userId, year := g.year,
         booksTarget := g.booksTarget.Over(e.booksTarget),
         coursesTarget := g.coursesTarget.Over(e.coursesTarget),
         debatesTarget := g.debatesTarget.Over(e.debatesTarget),
         podcastsTarget := g.podcastsTarget.Over(e.podcastsTarget),
         booksCompleted := g.booksCompleted.Over(e.booksCompleted),
         coursesCompleted := g.coursesCompleted.Over(e.coursesCompleted),
         debatesCompleted := g.debatesCompleted.Over(e.debatesCompleted),
         podcastsCompleted := g.podcastsCompleted.Over(e.podcastsCompleted),
         updatedAt := now)
  }

  /** Submitting the same goal again changes nothing but the update time. */
  lemma GoalResubmission(existing: Option<YearlyGoal>, g: GoalInput, id1: int, id2: int, t1: int, t2: int)
    requires existing.Some? ==> existing.value.userId == g.userId && existing.value.year == g.year
    ensures GoalAfter(Some(GoalAfter(existing, g, id1, t1)), g, id2, t2)
         == GoalAfter(existing, g, id1, t1).(updatedAt := t2)
  {
  }

  /** `progress.completed`: the object's property, `undefined` on an array. */
  function CompletedProperty(body: ProgressBody): JsValue
    requires !body.NoProgress?
  {
    if body.ProgressObject? then Property(body.fields, "completed") else JsUndefined
  }

  /** The white space C's `isspace` sees. */
  predicate IsSpace(c: char) {
    c == ' ' || c == '\t' || c == '\n' || c == '\r' || c == '\U{000B}' || c == '\U{000C}'
  }

  /** The text with its leading white space removed. */
  function TrimStart(s: string): (t: string)
    ensures |t| <= |s| && t == s[|s| - |t|..]
    ensures t != [] ==> !IsSpace(t[0])
    ensures forall i :: 0 <= i < |s| - |t| ==> IsSpace(s[i])
  {
    if s != [] && IsSpace(s[0]) then TrimStart(s[1..]) else s
  }

  /** The text with its trailing white space removed. */
  function TrimEnd(s: string): (t: string)
    ensures |t| <= |s| && t == s[..|t|]
    ensures t != [] ==> !IsSpace(t[|t| - 1])
    ensures forall i :: |t| <= i < |s| ==> IsSpace(s[i])
  {
    if s != [] && IsSpace(s[|s| - 1]) then TrimEnd(s[..|s| - 1]) else s
  }

  /** The text with the white space around it removed. */
  function Trim(s: string): string {
    TrimEnd(TrimStart(s))
  }

  /** `t` is `word` cut to at least `least` of its letters, in any mix of cases. */
  predicate Abbreviates(t: string, word: string, least: nat) {
    least <= |t| <= |word| && Lower(t) == word[..|t|]
  }

  /** PostgreSQL's boolean input: white space around the text is ignored; `true`, `yes`, `on`
      and `1` read as true, `false`, `no`, `off` and `0` as false, the words in any case and
      cut to any prefix (at least two letters for `on` and `off`); any other text is rejected. */
  function ParseBoolText(s: string): Option<bool> {
    ReadBoolWord(Trim(s))
  }

  /** The boolean a trimmed text names, if any. */
  function ReadBoolWord(t: string): Option<bool> {
    if Abbreviates(t, "true", 1) || Abbreviates(t, "yes", 1) || Abbreviates(t, "on", 2) || t == "1" then Some(true)
    else if Abbreviates(t, "false", 1) || Abbreviates(t, "no", 1) || Abbreviates(t, "off", 2) || t == "0" then Some(false)
    else None
  }

  /** Leading white space does not change where trimming stops. */
  lemma {:induction false} TrimStartSkipsSpace(pre: string, x: string)
    requires forall i :: 0 <= i < |pre| ==> IsSpace(pre[i])
    ensures TrimStart(pre + x) == TrimStart(x)
  {
    if pre != [] {
      assert (pre + x)[1..] == pre[1..] + x;
      TrimStartSkipsSpace(pre[1..], x);
    } else {
      assert pre + x == x;
    }
  }

  /** Trailing white space does not change where trimming stops. */
  lemma {:induction false} TrimEndSkipsSpace(x: string, post: string)
    requires forall i :: 0 <= i < |post| ==> IsSpace(post[i])
    ensures TrimEnd(x + post) == TrimEnd(x)
  {
    if post != [] {
      assert (x + post)[..|x + post| - 1] == x + post[..|post| - 1];
      TrimEndSkipsSpace(x, post[..|post| - 1]);
    } else {
      assert x + post == x;
    }
  }

  /** Text after a non-blank part survives trimming from the start. */
  lemma {:induction false} TrimStartAppend(s: string, post: string)
    requires TrimStart(s) != []
    ensures TrimStart(s + post) == TrimStart(s) + post
  {
    assert (s + post)[0] == s[0];
    if IsSpace(s[0]) {
      assert TrimStart(s) == TrimStart(s[1..]);
      assert (s + post)[1..] == s[1..] + post;
      TrimStartAppend(s[1..], post);
    } else {
      assert TrimStart(s) == s && TrimStart(s + post) == s + post;
    }
  }

  /** White space around a boolean's text never changes how it reads. */
  lemma ParseBoolIgnoresSpace(pre: string, s: string, post: string)
    requires forall i :: 0 <= i < |pre| ==> IsSpace(pre[i])
    requires forall i :: 0 <= i < |post| ==> IsSpace(post[i])
    ensures ParseBoolText(pre + s + post) == ParseBoolText(s)
  {
    TrimIgnoresSpace(pre, s, post);
  }

  /** Trimming removes exactly the white space added around a text. */
  lemma TrimIgnoresSpace(pre: string, s: string, post: string)
    requires forall i :: 0 <= i < |pre| ==> IsSpace(pre[i])
    requires forall i :: 0 <= i < |post| ==> IsSpace(post[i])
    ensures Trim(pre + s + post) == Trim(s)
  {
    assert pre + s + post == pre + (s + post);
    TrimStartSkipsSpace(pre, s + post);
    if TrimStart(s) != [] {
      TrimStartAppend(s, post);
      TrimEndSkipsSpace(TrimStart(s), post);
    } else {
      assert forall i :: 0 <= i < |s + post| ==> IsSpace((s + post)[i]);
      TrimStartSkipsSpace(s + post, []);
      assert s + post + [] == s + post;
    }
  }

  /** What `progress.completed || false` stores in the boolean `completed` column, or `None` when
      PostgreSQL rejects the value. The driver sends a boolean as `true` or `false`, a number as its
      decimal text (a boolean's text only for 1), an object as JSON text (never a boolean's text)
      and a string as it is. */
  function StoredCompleted(v: JsValue): (r: Option<bool>)
    ensures !Truthy(v) ==> r == Some(false)
    ensures v.JsBool? ==> r == Some(v.b)
    ensures v.JsString? && v.s != "" ==> r == ParseBoolText(v.s)
    ensures v.JsObject? ==> r.None?
    ensures r == Some(true) ==> Truthy(v)
  {
    if !Truthy(v) then Some(false)
    else match v
      case JsBool(b) => Some(b)
      case JsNumber(n) => if n == 1.0 then Some(true) else None
      case JsString(s) => ParseBoolText(s)
      case _ => None
  }

  /** A text that is already trimmed and lower-case reads by the word list alone. */
  lemma ReadsAsWord(w: string)
    requires w != [] && !IsSpace(w[0]) && !IsSpace(w[|w| - 1])
    requires forall i :: 0 <= i < |w| ==> !('A' <= w[i] <= 'Z')
    ensures ParseBoolText(w) == ReadBoolWord(w)
    ensures Lower(w) == w
  {
  }

  /** The texts "false", "f", "no", "n", "off" and "0", true to JavaScript, store false. */
  lemma FalseTextsStoreFalse(w: string)
    requires w in ["false", "f", "no", "n", "off", "0"]
    ensures Truthy(JsString(w)) && StoredCompleted(JsString(w)) == Some(false)
  {
    ReadsAsWord(w);
  }

  /** A number other than 0 and 1 is refused. */
  lemma RefusedNumber()
    ensures StoredCompleted(JsNumber(2.0)).None?
  {
  }

  /** A text outside the word list is refused. */
  lemma RefusedText()
    ensures StoredCompleted(JsString("abc")).None?
  {
    ReadsAsWord("abc");
    assert !Abbreviates("abc", "true", 1) by { assert "abc"[0] != "true"[0]; }
  }

  /** "o" is refused: it could start both "on" and "off". */
  lemma RefusedAmbiguousText()
    ensures StoredCompleted(JsString("o")).None?
  {
    assert Trim("o") == "o";
    assert ReadBoolWord("o").None? by { assert Lower("o")[0] == 'o'; }
  }

  function ProgressAfter(existing: Option<ChallengeProgress>, userId: string, challengeId: int,
                         progress: ProgressBody, completed: bool, freshId: int, now: int): (r: ChallengeProgress)
    ensures r.userId == userId && r.challengeId == challengeId
    ensures r.progress == progress && r.completed == completed && r.updatedAt == now
    ensures existing.None? ==> r.id == freshId && r.createdAt == now
    ensures existing.Some? && existing.value.userId == userId && existing.value.challengeId == challengeId ==>
      r.id == existing.value.id && r.createdAt == existing.value.createdAt
  {
    match existing
    case None => ChallengeProgress(freshId, userId, challengeId, progress, completed, now, now)
    case Some(e) => e.(userId := userId, challengeId := challengeId, progress := progress,
                       completed := completed, updatedAt := now)
  }

  // ---------------------------------------------------------------- the storage object

  /** Both ends of every follow edge are existing users. */
  ghost predicate FollowsValid(users: seq<User>, follows: set<(string, string)>) {
    forall e :: e in follows ==> e.0 in UserIdSet(users) && e.1 in UserIdSet(users)
  }

  /** Every goal is stored under its own (userId, year) key, for an existing user. */
  ghost predicate GoalsValid(users: seq<User>, goals: map<(string, int), YearlyGoal>) {
    forall k :: k in goals ==> goals[k].userId == k.0 && goals[k].year == k.1 && k.0 in UserIdSet(users)
  }

  /** Every progress row is stored under its own (userId, challengeId) key, for an existing
      user and challenge. */
  ghost predicate ProgressValid(users: seq<User>, challengeIds: set<int>, progress: map<(string, int), ChallengeProgress>) {
    forall k :: k in progress ==>
      progress[k].userId == k.0 && progress[k].challengeId == k.1
      && k.0 in UserIdSet(users) && k.1 in challengeIds
  }

  class DatabaseStorage {
    var users: seq<User>
    var mediaItems: seq<CatalogItem>
    var ratings: seq<RatingRow>
    var ratingIdSeq: int
    var follows: set<(string, string)>
    var goals: map<(string, int), YearlyGoal>
    var goalIdSeq: int
    var challengeIds: set<int>
    var progress: map<(string, int), ChallengeProgress>
    var progressIdSeq: int

    /** Keys are unique, every foreign key names an existing row, and every rated item
        carries the mean and count of its ratings. */
    ghost predicate Valid()
      reads this
    {
      && UniqueUserIds(users)
      && RatingTablesValid(users, mediaItems, ratings)
      && FollowsValid(users, follows)
      && GoalsValid(users, goals)
      && ProgressValid(users, challengeIds, progress)
    }

    /** A database holding the given users, media items and challenges, and nothing else yet. */
    constructor (users0: seq<User>, items0: seq<CatalogItem>, challenges0: set<int>)
      requires UniqueUserIds(users0) && UniqueItemIds(items0)
      ensures Valid()
      ensures users == users0 && mediaItems == items0 && challengeIds == challenges0
      ensures ratings == [] && follows == {} && goals == map[] && progress == map[]
    {
      users := users0;
      mediaItems := items0;
      ratings := [];
      ratingIdSeq := 1;
      follows := {};
      goals := map[];
      goalIdSeq := 1;
      challengeIds := challenges0;
      progress := map[];
      progressIdSeq := 1;
    }

    /** Upserts the rating for (userId, mediaId), then sets that item's average and count to
        the mean and number of all its ratings. The id sequence advances on every attempt. */
    method CreateOrUpdateUserMediaRating(input: RatingInput, now: int) returns (r: Result<RatingRow, DbError>)
      requires Valid()
      modifies this`ratings, this`ratingIdSeq, this`mediaItems
      ensures Valid()
      ensures ratingIdSeq == old(ratingIdSeq) + 1
      ensures r.Failure? <==> input.userId !in UserIdSet(users) || input.mediaId !in ItemIdSet(old(mediaItems))
      ensures r.Failure? ==> ratings == old(ratings) && mediaItems == old(mediaItems)
      ensures r.Success? ==> ratings == Upserted(old(ratings), input, old(ratingIdSeq), now)
      ensures r.Success? ==>
        && r.value in ratings
        && r.value.userId == input.userId && r.value.mediaId == input.mediaId && r.value.rating == input.rating
        && (forall j :: 0 <= j < |ratings| && SameKey(ratings[j], r.value) ==> ratings[j] == r.value)
      ensures r.Success? ==>
        var scores := RatingsOf(ratings, input.mediaId);
        && |scores| > 0
        && mediaItems == WithAggregate(old(mediaItems), input.mediaId, Mean(scores), |scores|)
    {
      var freshId := ratingIdSeq;
      ratingIdSeq := ratingIdSeq + 1;
      if input.userId !in UserIdSet(users) || input.mediaId !in ItemIdSet(mediaItems) {
        r := Failure(ForeignKeyViolation);
      } else {
        var row := ApplyRating(input, freshId, now);
        r := Success(row);
      }
    }

    /** The upsert and re-aggregation of a rating whose user and item exist. */
    method ApplyRating(input: RatingInput, freshId: int, now: int) returns (row: RatingRow)
      requires Valid()
      requires input.userId in UserIdSet(users) && input.mediaId in ItemIdSet(mediaItems)
      modifies this`ratings, this`mediaItems
      ensures Valid()
      ensures ratings == Upserted(old(ratings), input, freshId, now)
      ensures row in ratings
      ensures row.userId == input.userId && row.mediaId == input.mediaId && row.rating == input.rating
      ensures forall j :: 0 <= j < |ratings| && SameKey(ratings[j], row) ==> ratings[j] == row
      ensures var scores := RatingsOf(ratings, input.mediaId);
        && |scores| > 0
        && mediaItems == WithAggregate(old(mediaItems), input.mediaId, Mean(scores), |scores|)
    {
      var rows := Upserted(ratings, input, freshId, now);
      var scores := RatingsOf(rows, input.mediaId);
      var k := RatingIndex(rows, input.userId, input.mediaId);
      UpsertKeepsRatingTables(users, mediaItems, ratings, input, freshId, now);
      ratings := rows;
      mediaItems := WithAggregate(mediaItems, input.mediaId, Mean(scores), |scores|);
      row := rows[k];
    }

    /** `ON CONFLICT DO NOTHING`: following is idempotent. */
    method FollowUser(followerId: string, followingId: string) returns (r: Outcome<DbError>)
      requires Valid()
      modifies this`follows
      ensures Valid()
      ensures r.Fail? <==> followerId !in UserIdSet(users) || followingId !in UserIdSet(users)
      ensures follows == if r.Pass? then old(follows) + {(followerId, followingId)} else old(follows)
      ensures (followerId, followingId) in old(follows) ==> follows == old(follows)
    {
      if followerId !in UserIdSet(users) || followingId !in UserIdSet(users) {
        return Fail(ForeignKeyViolation);
      }
      follows := follows + {(followerId, followingId)};
      r := Pass;
    }

    /** Deletes exactly the one edge. */
    method UnfollowUser(followerId: string, followingId: string)
      requires Valid()
      modifies this`follows
      ensures Valid()
      ensures follows == old(follows) - {(followerId, followingId)}
    {
      follows := follows - {(followerId, followingId)};
    }

    method GetFollowers(u: string) returns (r: set<User>)
      requires Valid()
      ensures forall x :: x in r <==> x in users && (x.id, u) in follows
    {
      r := FollowersOf(users, follows, u);
    }

    method GetFollowing(u: string) returns (r: set<User>)
      requires Valid()
      ensures forall x :: x in r <==> x in users && (u, x.id) in follows
    {
      r := FollowingOf(users, follows, u);
    }

    /** The 20 newest ratings by users that `u` follows; nothing when `u` follows nobody. */
    method GetRecentActivity(u: string) returns (r: seq<ActivityEntry>)
      requires Valid()
      ensures IdsOf(FollowingOf(users, follows, u)) == {} ==> r == []
      ensures |r| <= 20
      ensures SortedDesc(r, EntryTime)
      ensures forall e :: e in r ==> e.userId in IdsOf(FollowingOf(users, follows, u))
      ensures var all := Activity(ratings, mediaItems, users, IdsOf(FollowingOf(users, follows, u)));
        && (forall e :: e in r ==> e in all)
        && multiset(r) <= multiset(all)
        && |r| == Min(20, |all|)
        && forall x, y :: x in multiset(all) - multiset(r) && y in r ==> x.createdAt <= y.createdAt
    {
      var ids := IdsOf(FollowingOf(users, follows, u));
      var all := Activity(ratings, mediaItems, users, ids);
      if ids == {} {
        return [];
      }
      r := TopN(all, EntryTime, 20);
      forall e | e in r ensures e in all {
        assert e in multiset(all);
      }
    }

    /** Up to ten items the user has not rated, of the given type, best average first. */
    method GetRecommendations(userId: string, t: Option<string>) returns (r: seq<CatalogItem>)
      requires Valid()
      ensures |r| <= 10
      ensures forall x :: x in r ==> x in mediaItems && x.id !in RatedIds(ratings, userId)
      ensures TypeGiven(t) ==> forall x :: x in r ==> x.mediaType == t.value
      ensures SortedDesc(r, ItemRating)
      ensures var candidates := Candidates(mediaItems, RatedIds(ratings, userId), t);
        && |r| == Min(10, |candidates|)
        && multiset(r) <= multiset(candidates)
        && forall x, y :: x in multiset(candidates) - multiset(r) && y in r ==> x.avgRating <= y.avgRating
    {
      var rated := RatedIds(ratings, userId);
      var candidates := Candidates(mediaItems, rated, t);
      r := TopN(candidates, ItemRating, 10);
      forall x | x in r ensures x in candidates {
        assert x in multiset(candidates);
      }
    }

    /** The ten users with the highest wisdom score, highest first. */
    method GetTopUsers() returns (r: seq<User>)
      requires Valid()
      ensures |r| == Min(10, |users|)
      ensures SortedDesc(r, WisdomKey)
      ensures multiset(r) <= multiset(users)
      ensures forall x, y :: x in multiset(users) - multiset(r) && y in r ==> x.wisdomScore <= y.wisdomScore
    {
      r := TopN(users, WisdomKey, 10);
    }

    /** Writes the goal for (userId, year), inserting or overwriting the given counts. */
    method CreateOrUpdateYearlyGoal(g: GoalInput, now: int) returns (r: Result<YearlyGoal, DbError>)
      requires Valid()
      modifies this`goals, this`goalIdSeq
      ensures Valid()
      ensures goalIdSeq == old(goalIdSeq) + 1
      ensures r.Failure? <==> g.userId !in UserIdSet(users)
      ensures r.Failure? ==> goals == old(goals)
      ensures r.Success? ==>
        && r.value == GoalAfter(if (g.userId, g.year) in old(goals) then Some(old(goals)[(g.userId, g.year)]) else None,
                                g, old(goalIdSeq), now)
        && goals == old(goals)[(g.userId, g.year) := r.value]
    {
      var freshId := goalIdSeq;
      goalIdSeq := goalIdSeq + 1;
      if g.userId !in UserIdSet(users) {
        return Failure(ForeignKeyViolation);
      }
      var key := (g.userId, g.year);
      var existing := if key in goals then Some(goals[key]) else None;
      var row := GoalAfter(existing, g, freshId, now);
      goals := goals[key := row];
      r := Success(row);
    }

    /** Writes the progress row for (userId, challengeId) with `completed = progress.completed || false`.
        Reading `completed` off a missing `progress` throws before anything is sent; a value the
        boolean column rejects fails before the id sequence is drawn. */
    method UpdateChallengeProgress(userId: string, challengeId: int, p: ProgressBody, now: int)
      returns (r: Outcome<DbError>)
      requires Valid()
      modifies this`progress, this`progressIdSeq
      ensures Valid()
      ensures p.NoProgress? ==> r == Fail(PropertyOfNullish)
      ensures !p.NoProgress? && StoredCompleted(CompletedProperty(p)).None? ==> r == Fail(InvalidBooleanInput)
      ensures !p.NoProgress? && StoredCompleted(CompletedProperty(p)).Some? ==>
        progressIdSeq == old(progressIdSeq) + 1
        && (r == Fail(ForeignKeyViolation) <==> userId !in UserIdSet(users) || challengeId !in challengeIds)
      ensures r.Fail? && r.error != ForeignKeyViolation ==> progressIdSeq == old(progressIdSeq)
      ensures r.Fail? ==> progress == old(progress)
      ensures r.Pass? ==>
        !p.NoProgress? && StoredCompleted(CompletedProperty(p)).Some?
        && progress == old(progress)[(userId, challengeId) :=
          ProgressAfter(if (userId, challengeId) in old(progress) then Some(old(progress)[(userId, challengeId)]) else None,
                        userId, challengeId, p, StoredCompleted(CompletedProperty(p)).value, old(progressIdSeq), now)]
    {
      if p.NoProgress? {
        return Fail(PropertyOfNullish);
      }
      var completed := StoredCompleted(CompletedProperty(p));
      if completed.None? {
        return Fail(InvalidBooleanInput);
      }
      var freshId := progressIdSeq;
      progressIdSeq := progressIdSeq + 1;
      if userId !in UserIdSet(users) || challengeId !in challengeIds {
        return Fail(ForeignKeyViolation);
      }
      var key := (userId, challengeId);
      var existing := if key in progress then Some(progress[key]) else None;
      progress := progress[key := ProgressAfter(existing, userId, challengeId, p, completed.value, freshId, now)];
      r := Pass;
    }
  }
}
