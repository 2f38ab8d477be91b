/** The in-memory catalogue of the standalone server: media items, weekly challenges and
    guiding questions, each a list with its own identifier counter. */
module SimpleStore {
  import opened Common
  import opened Schema

  datatype MediaItem = MediaItem(
    id: int,
    title: string,
    mediaType: string,
    author: Option<string>,
    description: Option<string>,
    imageUrl: Option<string>,
    externalId: Option<string>,
    avgMindExpanding: real,
    avgInformative: real,
    avgEntertaining: real,
    totalRatings: int)

  /** The fields a new media item arrives with. Its averages and count, when present, are discarded. */
  datatype NewMediaItem = NewMediaItem(
    title: string,
    mediaType: string,
    author: Option<string>,
    description: Option<string>,
    imageUrl: Option<string>,
    externalId: Option<string>,
    avgMindExpanding: Option<real>,
    avgInformative: Option<real>,
    avgEntertaining: Option<real>,
    totalRatings: Option<int>)

  /** A weekly challenge; dates are milliseconds since the epoch, requirements are JSON text.
      A challenge stored without an `active` flag reads as inactive, so it is stored as false. */
  datatype WeeklyChallenge = WeeklyChallenge(
    id: int,
    title: string,
    description: string,
    startDate: int,
    endDate: int,
    requirements: string,
    active: bool)

  datatype NewChallenge = NewChallenge(
    title: string,
    description: string,
    startDate: int,
    endDate: int,
    requirements: string,
    active: Option<bool>)

  /** A partial update of a challenge: only the given fields are written. */
  datatype ChallengePatch = ChallengePatch(
    title: Field<string>,
    description: Field<string>,
    startDate: Field<int>,
    endDate: Field<int>,
    requirements: Field<string>,
    active: Field<bool>)

  datatype GuidingQuestion = GuidingQuestion(id: int, userId: Option<string>, question: string)

  function ItemId(x: MediaItem): int { x.id }

  /** The items whose id differs from `id`, in stored order. */
  function WithoutId(items: seq<MediaItem>, id: int): (r: seq<MediaItem>)
    ensures forall x :: x in r <==> x in items && x.id != id
    decreases |items|
  {
    if items == [] then []
    else
      assert items == [items[0]] + items[1..];
      (if items[0].id != id then [items[0]] else []) + WithoutId(items[1..], id)
  }
  function ChallengeId(c: WeeklyChallenge): int { c.id }
  function QuestionId(q: GuidingQuestion): int { q.id }

  /** Whether a type argument restricts the listing: present, non-empty and not 'all'. */
  predicate FiltersType(t: Option<string>) {
    t.Some? && t.value != "" && t.value != "all"
  }

  predicate HasType(t: Option<string>, x: MediaItem) {
    !FiltersType(t) || x.mediaType == t.value
  }

  /** The `limit` argument of the item listing: omitted (the default, 20), an integer, or the NaN
      that `parseInt` gives for a query that is not a number. */
  datatype Limit = DefaultLimit | LimitTo(n: int) | NaNLimit

  /** The end `slice` uses for a limit: NaN converts to 0, so it keeps nothing. */
  function LimitEnd(limit: Limit): (end: int)
    ensures limit.DefaultLimit? ==> end == 20
    ensures limit.NaNLimit? ==> end == 0
    ensures limit.LimitTo? ==> end == limit.n
  {
    match limit
    case DefaultLimit => 20
    case LimitTo(n) => n
    case NaNLimit => 0
  }

  /** The items a type argument lets through, in stored order. */
  function OfType(items: seq<MediaItem>, t: Option<string>): seq<MediaItem> {
    if FiltersType(t) then Filter(items, (x: MediaItem) => HasType(t, x)) else items
  }

  lemma OfTypeSpec(items: seq<MediaItem>, t: Option<string>)
    requires IncreasingIds(items, ItemId)
    ensures forall x :: x in OfType(items, t) <==> x in items && HasType(t, x)
    ensures multiset(OfType(items, t)) <= multiset(items)
    ensures IncreasingIds(OfType(items, t), ItemId)
    ensures !FiltersType(t) ==> OfType(items, t) == items
  {
    if FiltersType(t) {
      FilterKeepsIncreasing(items, (x: MediaItem) => HasType(t, x), ItemId);
    }
  }

  /** The search: the lower-cased query occurs in the lower-cased title, author or description. */
  predicate MatchesQuery(query: string, x: MediaItem) {
    var term := Lower(query);
    || Includes(Lower(x.title), term)
    || (x.author.Some? && Includes(Lower(x.author.value), term))
    || (x.description.Some? && Includes(Lower(x.description.value), term))
  }

  /** The item an insertion creates: the counter's id, the input's descriptive fields, and
      neutral averages with no ratings, whatever averages the input carried. */
  function Created(id: int, item: NewMediaItem): (x: MediaItem)
    ensures x.id == id
    ensures x.avgMindExpanding == 3.0 && x.avgInformative == 3.0 && x.avgEntertaining == 3.0
    ensures x.totalRatings == 0
    ensures x.title == item.title && x.mediaType == item.mediaType && x.author == item.author
    ensures x.description == item.description && x.imageUrl == item.imageUrl && x.externalId == item.externalId
  {
    MediaItem(id, item.title, item.mediaType, item.author, item.description, item.imageUrl,
              item.externalId, 3.0, 3.0, 3.0, 0)
  }

  /** Every challenge with its active flag cleared. */
  function Deactivated(cs: seq<WeeklyChallenge>): (r: seq<WeeklyChallenge>)
    ensures |r| == |cs|
    ensures forall i :: 0 <= i < |cs| ==> r[i] == cs[i].(active := false)
  {
    seq(|cs|, i requires 0 <= i < |cs| => cs[i].(active := false))
  }

  /** A challenge with a partial update spread over it: the given fields replace the stored ones. */
  function Patched(c: WeeklyChallenge, patch: ChallengePatch): WeeklyChallenge {
    WeeklyChallenge(c.id, patch.title.Over(c.title), patch.description.Over(c.description),
                    patch.startDate.Over(c.startDate), patch.endDate.Over(c.endDate),
                    patch.requirements.Over(c.requirements), patch.active.Over(c.active))
  }

  ghost predicate AtMostOneActive(cs: seq<WeeklyChallenge>) {
    forall i, j :: 0 <= i < |cs| && 0 <= j < |cs| && cs[i].active && cs[j].active ==> i == j
  }

  /** After every flag is cleared, the one challenge then written active is the only active one. */
  lemma ActivatedIsOnlyActive(cs: seq<WeeklyChallenge>, k: nat, c: WeeklyChallenge)
    requires k < |cs|
    ensures forall x :: x in Deactivated(cs)[k := c] && x.active ==> x == c
  {
    var r := Deactivated(cs)[k := c];
    forall x | x in r && x.active ensures x == c {
      var i :| 0 <= i < |r| && r[i] == x;
    }
  }

  /** Spreading a partial update over position `k` (after clearing every flag when it activates
      the challenge) keeps identifiers increasing and bounded, keeps at most one challenge active,
      and changes no other challenge but for its active flag. */
  lemma PatchKeepsChallenges(cs: seq<WeeklyChallenge>, next: int, k: nat, patch: ChallengePatch)
    requires IncreasingIds(cs, ChallengeId) && AtMostOneActive(cs)
    requires forall c :: c in cs ==> c.id < next
    requires k < |cs|
    ensures var base := if patch.active == Given(true) then Deactivated(cs) else cs;
      var r := base[k := Patched(base[k], patch)];
      && IncreasingIds(r, ChallengeId)
      && (forall c :: c in r ==> c.id < next)
      && AtMostOneActive(r)
      && (patch.active == Given(true) ==>
            Patched(base[k], patch).active && forall c :: c in r && c.active ==> c == Patched(base[k], patch))
      && forall j :: 0 <= j < |r| && r[j].id != cs[k].id ==> r[j].(active := false) == cs[j].(active := false)
  {
    var base := if patch.active == Given(true) then Deactivated(cs) else cs;
    var c := Patched(base[k], patch);
    var r := base[k := c];
    assert forall j :: 0 <= j < |r| ==> r[j].id == cs[j].id;
    forall x | x in r ensures x.id < next {
      var i :| 0 <= i < |r| && r[i] == x;
      assert cs[i] in cs;
    }
    if patch.active == Given(true) {
      ActivatedIsOnlyActive(cs, k, c);
      forall i, j | 0 <= i < |r| && 0 <= j < |r| && r[i].active && r[j].active ensures i == j {
        assert r[i] == c && r[j] == c;
      }
    }
  }

  /** Clearing every flag when the new challenge is active, then appending it under the counter's
      id, keeps identifiers increasing and at most one challenge active; an active new challenge
      is the only active one. */
  lemma AppendKeepsChallenges(cs: seq<WeeklyChallenge>, next: int, c: WeeklyChallenge)
    requires IncreasingIds(cs, ChallengeId) && AtMostOneActive(cs)
    requires forall x :: x in cs ==> x.id < next
    requires c.id == next
    ensures var r := (if c.active then Deactivated(cs) else cs) + [c];
      && IncreasingIds(r, ChallengeId)
      && (forall x :: x in r ==> x.id < next + 1)
      && AtMostOneActive(r)
      && (c.active ==> forall x :: x in r && x.active ==> x == c)
  {
    var base := if c.active then Deactivated(cs) else cs;
    var r := base + [c];
    assert forall j :: 0 <= j < |base| ==> base[j].id == cs[j].id && r[j] == base[j];
    forall x | x in r ensures x.id < next + 1 {
      var i :| 0 <= i < |r| && r[i] == x;
      if i < |cs| { assert cs[i] in cs; }
    }
    forall i, j | 0 <= i < j < |r| ensures r[i].id < r[j].id {
      if j == |cs| { assert cs[i] in cs; }
    }
    if c.active {
      forall x | x in r && x.active ensures x == c {
        var i :| 0 <= i < |r| && r[i] == x;
      }
    }
  }

  /** Removing one challenge keeps identifiers increasing and at most one challenge active. */
  lemma RemoveKeepsChallenges(cs: seq<WeeklyChallenge>, next: int, k: nat)
    requires k < |cs| && IncreasingIds(cs, ChallengeId) && AtMostOneActive(cs)
    requires forall x :: x in cs ==> x.id < next
    ensures IncreasingIds(RemoveAt(cs, k), ChallengeId)
    ensures forall x :: x in RemoveAt(cs, k) ==> x.id < next
    ensures AtMostOneActive(RemoveAt(cs, k))
  {
    RemoveAtKeepsIncreasing(cs, ChallengeId, k);
    var r := RemoveAt(cs, k);
    forall i, j | 0 <= i < |r| && 0 <= j < |r| && r[i].active && r[j].active ensures i == j {
      var i' := if i < k then i else i + 1;
      var j' := if j < k then j else j + 1;
      assert r[i] == cs[i'] && r[j] == cs[j'];
    }
  }

  /** With increasing identifiers, every item after position 0 has a larger identifier. */
  lemma TailIdsAbove(items: seq<MediaItem>)
    requires items != [] && IncreasingIds(items, ItemId)
    ensures forall x :: x in items[1..] ==> items[0].id < x.id
  {
    forall x | x in items[1..] ensures items[0].id < x.id {
      var j :| 0 <= j < |items[1..]| && items[1..][j] == x;
      assert items[j + 1] == x;
    }
  }

  lemma {:induction false} WithoutIdKeepsIncreasing(items: seq<MediaItem>, id: int)
    requires IncreasingIds(items, ItemId)
    ensures IncreasingIds(WithoutId(items, id), ItemId)
    decreases |items|
  {
    if items != [] {
      TailIdsAbove(items);
      WithoutIdKeepsIncreasing(items[1..], id);
    }
  }

  lemma {:induction false} WithoutAbsentId(items: seq<MediaItem>, id: int)
    requires forall x :: x in items ==> x.id != id
    ensures WithoutId(items, id) == items
    decreases |items|
  {
    if items != [] {
      assert items == [items[0]] + items[1..];
      WithoutAbsentId(items[1..], id);
    }
  }

  /** Deleting by identifier from a list with increasing identifiers removes exactly the
      element at that identifier's position and keeps the others in order. */
  lemma {:induction false} DeleteByIdIsRemoveAt(items: seq<MediaItem>, k: nat)
    requires IncreasingIds(items, ItemId)
    requires k < |items|
    ensures WithoutId(items, items[k].id) == RemoveAt(items, k)
    decreases |items|
  {
    var id := items[k].id;
    assert items == [items[0]] + items[1..];
    TailIdsAbove(items);
    if k == 0 {
      WithoutAbsentId(items[1..], id);
    } else {
      DeleteByIdIsRemoveAt(items[1..], k - 1);
      assert items[1..][k - 1] == items[k];
      assert RemoveAt(items, k) == [items[0]] + RemoveAt(items[1..], k - 1);
    }
  }

  const SeedMediaItems: seq<MediaItem> := [
    MediaItem(1, "The Pragmatic Programmer", "book", Some("Dave Thomas, Andy Hunt"),
      Some("A guide to becoming a better programmer"),
      Some("https://images.unsplash.com/photo-1544716278-ca5e3f4abd8c?w=400&h=600&fit=crop"), None,
      4.5, 4.7, 3.8, 120),
    MediaItem(2, "Clean Code", "book", Some("Robert C. Martin"),
      Some("A handbook of agile software craftsmanship"),
      Some("https://images.unsplash.com/photo-1532012197267-da84d127e765?w=400&h=600&fit=crop"), None,
      4.2, 4.8, 3.5, 89),
    MediaItem(3, "Machine Learning by Andrew Ng", "course", Some("Andrew Ng"),
      Some("Stanford's machine learning course"),
      Some("https://images.unsplash.com/photo-1677442136019-21780ecad995?w=400&h=600&fit=crop"), None,
      4.9, 4.8, 3.9, 1250),
    MediaItem(4, "Hardcore History", "podcast", Some("Dan Carlin"),
      Some("Hardcore History by Dan Carlin"),
      Some("https://images.unsplash.com/photo-1478737270239-2f02b77fc618?w=400&h=600&fit=crop"), None,
      4.7, 4.9, 4.3, 567),
    MediaItem(5, "Inception", "movie", Some("Christopher Nolan"),
      Some("A thief who steals corporate secrets through dream-sharing technology"),
      Some("https://images.unsplash.com/photo-1440404653325-ab127d49abc1?w=400&h=600&fit=crop"), None,
      4.8, 3.2, 4.7, 890),
    MediaItem(6, "Portal 2", "game", Some("Valve"),
      Some("A puzzle-platform game with innovative mechanics"),
      Some("https://images.unsplash.com/photo-1493711662062-fa541adb3fc8?w=400&h=600&fit=crop"), None,
      4.6, 3.8, 4.9, 445),
    MediaItem(7, "Intelligence Squared", "debate", Some("Various"),
      Some("Oxford-style debates on current affairs"),
      Some("https://images.unsplash.com/photo-1559223607-b4d0555ae227?w=400&h=600&fit=crop"), None,
      4.5, 4.7, 3.9, 334)
  ]

  /** The one seeded challenge, active, running 2024-01-01 to 2024-01-07. */
  const SeedChallenges: seq<WeeklyChallenge> := [
    WeeklyChallenge(1, "Read 5 High-Quality Articles",
      "Challenge yourself to read 5 high-quality articles this week from reputable sources",
      1704067200000, 1704585600000, "{\"target\":5,\"type\":\"articles\"}", true)
  ]

  const SampleUsers: seq<User> := [
    User("1", Some("john@example.com"), Some("John"), Some("Doe"),
      Some("https://images.unsplash.com/photo-1507003211169-0a1dd7228f2d?w=100&h=100&fit=crop&crop=face"),
      75, 4.2, 7, 2),
    User("2", Some("jane@example.com"), Some("Jane"), Some("Smith"),
      Some("https://images.unsplash.com/photo-1494790108755-2616b056d0e8?w=100&h=100&fit=crop&crop=face"),
      92, 4.8, 8, 1)
  ]

  /** Item identifiers increase and stay below the counter. */
  ghost predicate ItemsValid(items: seq<MediaItem>, next: int) {
    IncreasingIds(items, ItemId) && forall x :: x in items ==> x.id < next
  }

  /** Challenge identifiers increase and stay below the counter, and at most one challenge is active. */
  ghost predicate ChallengesValid(cs: seq<WeeklyChallenge>, next: int) {
    IncreasingIds(cs, ChallengeId) && (forall c :: c in cs ==> c.id < next) && AtMostOneActive(cs)
  }

  /** Question identifiers increase and stay below the counter. */
  ghost predicate QuestionsValid(qs: seq<GuidingQuestion>, next: int) {
    IncreasingIds(qs, QuestionId) && forall q :: q in qs ==> q.id < next
  }

  /** The position of the first challenge with that id, or -1. */
  function ChallengeIndex(cs: seq<WeeklyChallenge>, id: int): int {
    FirstIndex(cs, (c: WeeklyChallenge) => c.id == id)
  }

  /** The position of the first question with that id, or -1. */
  function QuestionIndex(qs: seq<GuidingQuestion>, id: int): int {
    FirstIndex(qs, (q: GuidingQuestion) => q.id == id)
  }

  /** The seeded items and challenge satisfy the store's invariant. */
  lemma SeedsValid()
    ensures IncreasingIds(SeedMediaItems, ItemId) && forall x :: x in SeedMediaItems ==> x.id < 8
    ensures IncreasingIds(SeedChallenges, ChallengeId) && forall c :: c in SeedChallenges ==> c.id < 2
    ensures AtMostOneActive(SeedChallenges)
  {
    IncreasingFromAdjacent(SeedMediaItems, ItemId);
  }

  class SimpleStorage {
    var mediaItems: seq<MediaItem>
    var nextId: int
    var weeklyChallenges: seq<WeeklyChallenge>
    var nextChallengeId: int
    var guidingQuestions: seq<GuidingQuestion>
    var nextQuestionId: int
    var sampleUsers: seq<User>

    /** Identifiers are handed out in increasing order and never reused, and at most one
        challenge is active. */
    ghost predicate Valid()
      reads this
    {
      && ItemsValid(mediaItems, nextId)
      && ChallengesValid(weeklyChallenges, nextChallengeId)
      && QuestionsValid(guidingQuestions, nextQuestionId)
    }

    constructor ()
      ensures Valid()
      ensures mediaItems == SeedMediaItems && nextId == 8
      ensures weeklyChallenges == SeedChallenges && nextChallengeId == 2
      ensures guidingQuestions == [] && nextQuestionId == 1
      ensures sampleUsers == SampleUsers
    {
      SeedsValid();
      mediaItems := SeedMediaItems;
      nextId := 8;
      weeklyChallenges := SeedChallenges;
      nextChallengeId := 2;
      guidingQuestions := [];
      nextQuestionId := 1;
      sampleUsers := SampleUsers;
    }

    /** The first `limit` items (`slice(0, limit)`, 20 when no limit is given) of the type-filtered list. */
    method GetMediaItems(t: Option<string>, limit: Limit) returns (items: seq<MediaItem>)
      requires Valid()
      ensures items <= OfType(mediaItems, t)
      ensures |items| == SliceEnd(|OfType(mediaItems, t)|, LimitEnd(limit))
      ensures limit.DefaultLimit? ==> items == OfType(mediaItems, t)[..Min(20, |OfType(mediaItems, t)|)]
      ensures limit.NaNLimit? ==> items == []
      ensures limit.LimitTo? && 0 <= limit.n ==> |items| <= limit.n
      ensures forall x :: x in items ==> x in mediaItems && HasType(t, x)
    {
      OfTypeSpec(mediaItems, t);
      items := SliceTo(OfType(mediaItems, t), LimitEnd(limit));
      assert forall x :: x in items ==> x in OfType(mediaItems, t);
    }

    method GetMediaItem(id: int) returns (item: Option<MediaItem>)
      requires Valid()
      ensures item.None? <==> forall x :: x in mediaItems ==> x.id != id
      ensures item.Some? ==> item.value in mediaItems && item.value.id == id
    {
      var k := FirstIndex(mediaItems, (x: MediaItem) => x.id == id);
      item := if k == -1 then None else Some(mediaItems[k]);
    }

    /** Appends a new item under the counter's id, which exceeds every stored id. */
    method CreateMediaItem(item: NewMediaItem) returns (created: MediaItem)
      requires Valid()
      modifies this`mediaItems, this`nextId
      ensures Valid()
      ensures created == Created(old(nextId), item)
      ensures forall x :: x in old(mediaItems) ==> x.id < created.id
      ensures mediaItems == old(mediaItems) + [created]
      ensures nextId == old(nextId) + 1
    {
      created := Created(nextId, item);
      nextId := nextId + 1;
      mediaItems := mediaItems + [created];
    }

    /** Removes every item with that id (there is at most one) and keeps the rest in order. */
    method DeleteMediaItem(id: int)
      requires Valid()
      modifies this`mediaItems
      ensures Valid()
      ensures mediaItems == WithoutId(old(mediaItems), id)
      ensures forall x :: x in mediaItems <==> x in old(mediaItems) && x.id != id
      ensures forall k :: 0 <= k < |old(mediaItems)| && old(mediaItems)[k].id == id ==>
        mediaItems == RemoveAt(old(mediaItems), k)
      ensures (forall x :: x in old(mediaItems) ==> x.id != id) ==> mediaItems == old(mediaItems)
    {
      WithoutIdKeepsIncreasing(mediaItems, id);
      forall k | 0 <= k < |mediaItems| && mediaItems[k].id == id
        ensures WithoutId(mediaItems, id) == RemoveAt(mediaItems, k)
      {
        DeleteByIdIsRemoveAt(mediaItems, k);
      }
      if forall x :: x in mediaItems ==> x.id != id {
        WithoutAbsentId(mediaItems, id);
      }
      mediaItems := WithoutId(mediaItems, id);
    }

    /** The type-filtered items matching the query, in stored order. */
    method SearchMediaItems(query: string, t: Option<string>) returns (items: seq<MediaItem>)
      requires Valid()
      ensures forall x :: x in items <==> x in mediaItems && HasType(t, x) && MatchesQuery(query, x)
      ensures IncreasingIds(items, ItemId)
    {
      OfTypeSpec(mediaItems, t);
      FilterKeepsIncreasing(OfType(mediaItems, t), (x: MediaItem) => MatchesQuery(query, x), ItemId);
      items := Filter(OfType(mediaItems, t), (x: MediaItem) => MatchesQuery(query, x));
    }

    /** The first active challenge, which is the only one. */
    method GetActiveWeeklyChallenge() returns (c: Option<WeeklyChallenge>)
      requires Valid()
      ensures c.None? <==> forall x :: x in weeklyChallenges ==> !x.active
      ensures c.Some? ==> c.value in weeklyChallenges && c.value.active
      ensures c.Some? ==> forall x :: x in weeklyChallenges && x.active ==> x == c.value
    {
      var k := FirstIndex(weeklyChallenges, (c: WeeklyChallenge) => c.active);
      c := if k == -1 then None else Some(weeklyChallenges[k]);
    }

    method GetAllWeeklyChallenges() returns (cs: seq<WeeklyChallenge>)
      ensures cs == weeklyChallenges
    {
      cs := weeklyChallenges;
    }

    /** Clears the active flag of every challenge, one at a time. */
    method DeactivateAll()
      modifies this`weeklyChallenges
      ensures weeklyChallenges == Deactivated(old(weeklyChallenges))
    {
      var i := 0;
      while i < |weeklyChallenges|
        invariant 0 <= i <= |weeklyChallenges| == |old(weeklyChallenges)|
        invariant forall k :: 0 <= k < i ==> weeklyChallenges[k] == old(weeklyChallenges)[k].(active := false)
        invariant forall k :: i <= k < |weeklyChallenges| ==> weeklyChallenges[k] == old(weeklyChallenges)[k]
      {
        weeklyChallenges := weeklyChallenges[i := weeklyChallenges[i].(active := false)];
        i := i + 1;
      }
    }

    /** Appends a new challenge; an active one first clears every other flag. */
    method CreateWeeklyChallenge(data: NewChallenge) returns (challenge: WeeklyChallenge)
      requires Valid()
      modifies this`weeklyChallenges, this`nextChallengeId
      ensures Valid()
      ensures challenge == WeeklyChallenge(old(nextChallengeId), data.title, data.description,
                                           data.startDate, data.endDate, data.requirements,
                                           data.active == Some(true))
      ensures weeklyChallenges ==
        (if data.active == Some(true) then Deactivated(old(weeklyChallenges)) else old(weeklyChallenges))
        + [challenge]
      ensures data.active == Some(true) ==> forall c :: c in weeklyChallenges && c.active ==> c == challenge
      ensures nextChallengeId == old(nextChallengeId) + 1
    {
      challenge := WeeklyChallenge(nextChallengeId, data.title, data.description, data.startDate,
                                   data.endDate, data.requirements, data.active == Some(true));
      AppendKeepsChallenges(weeklyChallenges, nextChallengeId, challenge);
      if data.active == Some(true) {
        DeactivateAll();
      }
      nextChallengeId := nextChallengeId + 1;
      weeklyChallenges := weeklyChallenges + [challenge];
    }

    /** Overwrites the given fields of the challenge with that id; activating it first clears
        every other flag. An unknown id is an error and changes nothing. */
    method UpdateWeeklyChallenge(id: int, patch: ChallengePatch) returns (r: Result<WeeklyChallenge, string>)
      requires Valid()
      modifies this`weeklyChallenges
      ensures Valid()
      ensures r.Failure? <==> forall c :: c in old(weeklyChallenges) ==> c.id != id
      ensures r.Failure? ==> r.error == "Weekly challenge not found" && weeklyChallenges == old(weeklyChallenges)
      ensures r.Success? ==>
        var k := ChallengeIndex(old(weeklyChallenges), id);
        var base := if patch.active == Given(true) then Deactivated(old(weeklyChallenges)) else old(weeklyChallenges);
        && 0 <= k
        && r.value == Patched(base[k], patch)
        && weeklyChallenges == base[k := r.value]
      ensures r.Success? ==> |weeklyChallenges| == |old(weeklyChallenges)|
      ensures r.Success? && patch.active == Given(true) ==>
        r.value.active && forall c :: c in weeklyChallenges && c.active ==> c == r.value
      ensures r.Success? ==>
        forall j :: 0 <= j < |weeklyChallenges| && weeklyChallenges[j].id != id ==>
          weeklyChallenges[j].(active := false) == old(weeklyChallenges)[j].(active := false)
    {
      var k := ChallengeIndex(weeklyChallenges, id);
      if k == -1 {
        return Failure("Weekly challenge not found");
      }
      PatchKeepsChallenges(weeklyChallenges, nextChallengeId, k, patch);
      if patch.active == Given(true) {
        DeactivateAll();
      }
      var updated := Patched(weeklyChallenges[k], patch);
      weeklyChallenges := weeklyChallenges[k := updated];
      r := Success(updated);
    }

    /** Removes the first challenge with that id, if there is one. */
    method DeleteWeeklyChallenge(id: int)
      requires Valid()
      modifies this`weeklyChallenges
      ensures Valid()
      ensures var k := ChallengeIndex(old(weeklyChallenges), id);
        weeklyChallenges == if k == -1 then old(weeklyChallenges) else RemoveAt(old(weeklyChallenges), k)
    {
      var k := ChallengeIndex(weeklyChallenges, id);
      if k != -1 {
        RemoveKeepsChallenges(weeklyChallenges, nextChallengeId, k);
        weeklyChallenges := RemoveAt(weeklyChallenges, k);
      }
    }

    /** Up to three type-filtered items, shuffled: any order of the candidates may come out. */
    method GetRecommendations(t: Option<string>) returns (items: seq<MediaItem>)
      requires Valid()
      ensures |items| == Min(3, |OfType(mediaItems, t)|)
      ensures multiset(items) <= multiset(OfType(mediaItems, t))
      ensures forall x :: x in items ==> x in mediaItems && HasType(t, x)
      ensures forall i, j :: 0 <= i < j < |items| ==> items[i].id != items[j].id
    {
      OfTypeSpec(mediaItems, t);
      var candidates := OfType(mediaItems, t);
      var shuffled :| multiset(shuffled) == multiset(candidates);
      assert |shuffled| == |multiset(shuffled)| == |candidates|;
      PrefixOfPermutation(shuffled, candidates, Min(3, |shuffled|));
      items := shuffled[..Min(3, |shuffled|)];
      SelectionHasDistinctIds(candidates, ItemId, items);
    }

    method GetTopUsers() returns (users: seq<User>)
      ensures users == sampleUsers
    {
      users := sampleUsers;
    }

    method GetGuidingQuestions() returns (qs: seq<GuidingQuestion>)
      ensures qs == guidingQuestions
    {
      qs := guidingQuestions;
    }

    /** Appends a new question under the counter's id. */
    method CreateGuidingQuestion(userId: Option<string>, question: string) returns (q: GuidingQuestion)
      requires Valid()
      modifies this`guidingQuestions, this`nextQuestionId
      ensures Valid()
      ensures q == GuidingQuestion(old(nextQuestionId), userId, question)
      ensures forall x :: x in old(guidingQuestions) ==> x.id < q.id
      ensures guidingQuestions == old(guidingQuestions) + [q]
      ensures nextQuestionId == old(nextQuestionId) + 1
    {
      q := GuidingQuestion(nextQuestionId, userId, question);
      nextQuestionId := nextQuestionId + 1;
      guidingQuestions := guidingQuestions + [q];
    }

    /** Removes the first question with that id, if there is one. */
    method DeleteGuidingQuestion(id: int)
      requires Valid()
      modifies this`guidingQuestions
      ensures Valid()
      ensures var k := QuestionIndex(old(guidingQuestions), id);
        guidingQuestions == if k == -1 then old(guidingQuestions) else RemoveAt(old(guidingQuestions), k)
    {
      var k := QuestionIndex(guidingQuestions, id);
      if k != -1 {
        RemoveAtKeepsIncreasing(guidingQuestions, QuestionId, k);
        guidingQuestions := RemoveAt(guidingQuestions, k);
      }
    }
  }
}
