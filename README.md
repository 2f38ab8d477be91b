# MediaNudge storage and client rules in Dafny

MediaNudge is a media-tracking site. Users rate books, courses, podcasts, movies, games and debates, follow each other, set yearly consumption goals and take weekly challenges. This project models the parts of it that hold logic, and proves what they promise:

- **The in-memory catalogue** (`SimpleStore.SimpleStorage`) of the standalone server. It is a class with three lists and three id counters:
  - media items, weekly challenges and guiding questions are created under fresh increasing ids and deleted by id;
  - items are listed with a type filter and a limit, and searched case-insensitively;
  - at most one weekly challenge is ever active;
  - recommendations are an arbitrary permutation of the candidates, cut to three.
- **The PostgreSQL storage** (`DatabaseStore.DatabaseStorage`). Its tables are sequences with unique keys, or maps and sets keyed by the upserts' conflict targets. It covers:
  - the rating upsert and the re-aggregation of the item's average and count;
  - the follow graph and the activity feed;
  - recommendations and the leaderboard, both `ORDER BY ... DESC LIMIT n`;
  - the yearly-goal and challenge-progress upserts.
- **The client rules**, as pure functions:
  - the wisdom tier and percentile badges and the follow button (`UserCard`);
  - the rating badge, the type icon and the thumbnail (`MediaCard`);
  - the star widget: a pure fill rule plus a class holding the hover state (`StarRating`);
  - the yearly progress percentage, the category bars and the goal form schema (`Progress`);
  - the admin form schemas and the media-item payload (`Admin`).

JavaScript semantics are written out where they matter:

- truthiness and `||` fallbacks;
- `slice` with a negative end;
- `toLowerCase` and `includes`;
- `findIndex` and `splice`;
- object spread over a partial update (`Common.Field`);
- `null` and `undefined` in arithmetic (`Progress.BarValue`).

JavaScript numbers are Dafny `real`s, and integers are unbounded.

The code uses a single `rating` per rating row and a single `avgRating` per media item, although the table declarations list three rating dimensions. The model follows the code.

The upserts are modelled with the keys their conflict targets name, (userId, mediaId), (userId, year) and (userId, challengeId). The table declarations do not declare those keys as unique.

`Ordering.TopN` models `ORDER BY key DESC LIMIT n`. Its contract states only what every order that SQL may choose among equal keys has in common: sorted, drawn from the input, of the right length, and no left-out row outranking a kept one.

Files:

- `common.dfy`: options, results, partial-update fields, JSON values and the JavaScript helpers;
- `ordering.dfy`: ordering and limits;
- `schema.dfy`: the user record;
- `simple_storage.dfy`, `database_storage.dfy`: the two storage back ends;
- `user_card.dfy`, `media_card.dfy`, `star_rating.dfy`, `progress.dfy`, `admin.dfy`: the client rules.

## Model

| member | source | states |
|---|---|---|
| Common.SliceEnd | server/storage-simple.ts:188 | the length `slice(0, end)` keeps: `end` clamped to the length, a negative end counting back from it |
| Common.SliceTo | server/storage-simple.ts:188 | `slice(0, end)` is a prefix, no longer than a non-negative `end` |
| Common.Lower | server/storage-simple.ts:215 | lower-casing keeps the length and maps each ASCII capital to its small letter, everything else unchanged |
| Common.Filter | server/storage-simple.ts:185 | `filter` keeps exactly the elements that satisfy the predicate, as a sub-multiset of the input |
| Common.FirstIndex | server/storage-simple.ts:254 | `findIndex` is -1 exactly when no element matches, otherwise the first matching index |
| Common.RemoveAt | server/storage-simple.ts:275 | `splice(k, 1)` drops position k and shifts the rest down by one, in order |
| Common.FilterKeepsIncreasing | server/storage-simple.ts:184-186 | filtering a list with increasing ids keeps the ids increasing |
| Common.FilterAll | server/storage-simple.ts:184-186 | filtering with a predicate every element meets returns the list unchanged |
| Common.IncreasingHasNoDuplicates | server/storage-simple.ts:197 | a list with increasing ids holds each element at most once |
| Common.SelectionHasDistinctIds | server/storage-simple.ts:288-289 | any selection, in any order, from a list with increasing ids has pairwise distinct ids |
| Common.RemoveAtKeepsIncreasing | server/storage-simple.ts:272-277 | `splice(k, 1)` keeps only stored elements and keeps identifiers increasing |
| Common.PrefixOfPermutation | server/storage-simple.ts:288-289 | the first n elements of a shuffle are drawn from the shuffled list |
| Common.Reached | client/src/components/UserCard.tsx:30-36 | the tier of a value in an increasing threshold chain is at most the number of thresholds |
| Common.ReachedMonotone | client/src/components/UserCard.tsx:30-36 | a larger value reaches at least as many thresholds |
| Ordering.InsertDesc | server/storage.ts:425 | inserting into a list sorted by descending key keeps it sorted and adds exactly the new row |
| Ordering.SortDesc | server/storage.ts:425 | `ORDER BY key DESC` gives a sorted permutation of the rows |
| Ordering.TopN | server/storage.ts:425-426 | `ORDER BY key DESC LIMIT n` returns min(n, rows) rows, sorted, drawn from the input, all rows when n covers them, and no left-out row has a larger key than a kept one |
| Ordering.TakeSplits | server/storage.ts:426 | cutting a sorted list keeps a sub-multiset, and every row cut off ranks no higher than every row kept |
| SimpleStore.OfTypeSpec | server/storage-simple.ts:184-186 | the type filter keeps exactly the items of the type (everything for an absent, empty or 'all' type), in order, with ids still increasing |
| SimpleStore.WithoutId | server/storage-simple.ts:211 | deleting by id keeps exactly the items with a different id |
| SimpleStore.Created | server/storage-simple.ts:196-204 | a new item takes the counter's id and the input's descriptive fields, with averages 3.0 and no ratings whatever the input carried |
| SimpleStore.Deactivated | server/storage-simple.ts:240 | clearing the flags changes every challenge's active flag to false and nothing else |
| SimpleStore.ActivatedIsOnlyActive | server/storage-simple.ts:259-267 | after all flags are cleared, the challenge then written active is the only active one |
| SimpleStore.PatchKeepsChallenges | server/storage-simple.ts:253-270 | a partial update keeps identifiers increasing and below the counter, keeps at most one challenge active, makes an activated challenge the only active one, and changes other challenges at most in their active flag |
| SimpleStore.AppendKeepsChallenges | server/storage-simple.ts:237-251 | appending a challenge under the counter's id, after clearing every flag when it is active, keeps identifiers increasing and at most one challenge active, and an active new challenge is the only active one |
| SimpleStore.RemoveKeepsChallenges | server/storage-simple.ts:272-277 | removing a challenge keeps identifiers increasing and at most one challenge active |
| SimpleStore.SeedsValid | server/storage-simple.ts:30-148 | the seeded items have increasing ids below 8, and the seeded challenge list has id 1 and one active challenge |
| SimpleStore.TailIdsAbove | server/storage-simple.ts:197 | with increasing ids, every later item has a larger id than the first |
| SimpleStore.WithoutIdKeepsIncreasing | server/storage-simple.ts:211 | deleting by id keeps the ids increasing |
| SimpleStore.WithoutAbsentId | server/storage-simple.ts:211 | deleting an id that no item has leaves the list unchanged |
| SimpleStore.DeleteByIdIsRemoveAt | server/storage-simple.ts:210-212 | with increasing ids, deleting an item's id removes exactly that position and keeps the others in order |
| SimpleStore.SimpleStorage.constructor | server/storage-simple.ts:30-148 | the store starts with the seven seeded items (ids 1-7, counter 8), the one active seeded challenge (counter 2), no questions (counter 1) and the two sample users |
| SimpleStore.LimitEnd | server/storage-simple.ts:181-188 | the end `slice` uses: 20 when no limit is given, 0 for NaN, otherwise the limit itself |
| SimpleStore.SimpleStorage.GetMediaItems | server/storage-simple.ts:181-189 | the result is the prefix of the type-filtered list that `slice(0, limit)` keeps: the first 20 when no limit is given, nothing for a NaN limit, at most `limit` items otherwise, all of the type, and nothing changes |
| SimpleStore.SimpleStorage.GetMediaItem | server/storage-simple.ts:191-193 | the stored item with that id, or nothing exactly when no item has it |
| SimpleStore.SimpleStorage.CreateMediaItem | server/storage-simple.ts:195-208 | appends the created item under the counter's id, larger than every stored id, and advances the counter |
| SimpleStore.SimpleStorage.DeleteMediaItem | server/storage-simple.ts:210-212 | removes exactly the items with that id, keeps the order of the rest, is a single `splice` at the id's position, and changes nothing for an absent id |
| SimpleStore.SimpleStorage.SearchMediaItems | server/storage-simple.ts:214-227 | returns exactly the type-filtered items whose lower-cased title, author or description contains the lower-cased query, in stored order |
| SimpleStore.SimpleStorage.GetActiveWeeklyChallenge | server/storage-simple.ts:229-231 | returns the active challenge, which is the only active one, or nothing when none is active |
| SimpleStore.SimpleStorage.GetAllWeeklyChallenges | server/storage-simple.ts:233-235 | returns the stored challenge list itself |
| SimpleStore.SimpleStorage.DeactivateAll | server/storage-simple.ts:240 | the loop clears every challenge's active flag and changes nothing else |
| SimpleStore.SimpleStorage.CreateWeeklyChallenge | server/storage-simple.ts:237-251 | appends the new challenge under the counter's id; an active one is then the only active challenge, because every other flag was cleared first |
| SimpleStore.SimpleStorage.UpdateWeeklyChallenge | server/storage-simple.ts:253-270 | an unknown id fails with "Weekly challenge not found" and changes nothing; otherwise the given fields overwrite the challenge, activation leaves it the only active one, and other challenges change at most their active flag |
| SimpleStore.SimpleStorage.DeleteWeeklyChallenge | server/storage-simple.ts:272-277 | removes the first challenge with that id, or changes nothing |
| SimpleStore.SimpleStorage.GetRecommendations | server/storage-simple.ts:279-290 | returns min(3, candidates) items, each drawn at most once from the type-filtered list, with distinct ids |
| SimpleStore.SimpleStorage.GetTopUsers | server/storage-simple.ts:292-294 | returns the sample users |
| SimpleStore.SimpleStorage.GetGuidingQuestions | server/storage-simple.ts:296-298 | returns the stored question list |
| SimpleStore.SimpleStorage.CreateGuidingQuestion | server/storage-simple.ts:300-310 | appends the question under the counter's id, larger than every stored id, and advances the counter |
| SimpleStore.SimpleStorage.DeleteGuidingQuestion | server/storage-simple.ts:312-317 | removes the first question with that id, or changes nothing |
| DatabaseStore.RatingIndex | server/storage.ts:207 | the position of the row with the conflict key (userId, mediaId), or -1 exactly when there is none |
| DatabaseStore.Mean | server/storage.ts:218 | the average times the number of ratings is their sum |
| DatabaseStore.WithAggregate | server/storage.ts:225-231 | the update sets the average and count of the items with that id and leaves every other item as it was |
| DatabaseStore.RatingsOfAppend | server/storage.ts:203-205 | inserting a row adds its rating to its own item's ratings and to no other item's |
| DatabaseStore.RatingsOfUpdate | server/storage.ts:206-212 | overwriting a row in place keeps the number of its item's ratings and leaves other items' ratings unchanged |
| DatabaseStore.UpsertOtherMediaUnchanged | server/storage.ts:202-213 | a rating upsert changes no other media item's ratings |
| DatabaseStore.UpsertKeyedRow | server/storage.ts:202-213 | after the upsert there is exactly one row for (userId, mediaId) and it carries the submitted rating; a resubmission adds no row and does not change the item's rating count, a first submission adds one row and one rating |
| DatabaseStore.FirstRatingSetsMean | server/storage.ts:202-232 | the first rating of an unrated item makes its ratings exactly that one rating, whose mean is the rating itself |
| DatabaseStore.RatingInRatingsOf | server/storage.ts:222 | an item that has a rating row has a non-empty rating group |
| DatabaseStore.WithAggregateKeepsIds | server/storage.ts:225-231 | re-aggregation keeps the set of item ids and their uniqueness |
| DatabaseStore.UpsertKeepsForeignKeys | server/storage.ts:203-205 | an upsert whose user and item exist keeps every row's user and item existing |
| DatabaseStore.UpsertKeepsAggregates | server/storage.ts:202-232 | after the upsert and the re-aggregation, every rated item's average and count are the mean and number of its ratings |
| DatabaseStore.UpsertKeepsRatingTables | server/storage.ts:202-232 | an upsert whose user and item exist, followed by the re-aggregation, keeps keys unique, foreign keys valid and every rated item's average and count equal to the mean and number of its ratings, and leaves one row for the key, with the submitted score |
| DatabaseStore.FollowersMirrorFollowing | server/storage.ts:256-274 | v is among u's followers exactly when u is among the users v follows |
| DatabaseStore.FindUser | server/storage.ts:305 | the joined user row with that id, or none exactly when no user has it |
| DatabaseStore.FindItem | server/storage.ts:304 | the joined media item with that id, or none exactly when no item has it |
| DatabaseStore.EntryFor | server/storage.ts:291-305 | a rating yields a feed row exactly when its item and its author exist, carrying the rating's id, author, score, review and time |
| DatabaseStore.Activity | server/storage.ts:303-306 | the feed has only authors from the followed set, is empty for an empty set, and is no longer than the ratings |
| DatabaseStore.ActivitySound | server/storage.ts:303-306 | every feed row comes from a rating by a followed user |
| DatabaseStore.ActivityComplete | server/storage.ts:303-306 | every rating by a followed user whose item and author exist appears in the feed |
| DatabaseStore.Candidates | server/storage.ts:411-424 | the candidates are exactly the items not rated by the user (the exclusion is skipped when nothing was rated) and of the given type |
| DatabaseStore.AllRatedMeansNoCandidates | server/storage.ts:401-424 | a user who rated every item of a type gets no recommendation of that type |
| DatabaseStore.GoalAfter | server/storage.ts:325-338 | the stored goal takes the given counts; omitted counts keep their stored value, or the column default 0 on insert; an update keeps the row's id and creation time |
| DatabaseStore.GoalResubmission | server/storage.ts:325-338 | submitting the same goal twice changes nothing but the update time |
| DatabaseStore.TrimStart | server/storage.ts:388 | removing leading white space leaves a suffix that starts with a non-space, and everything removed was white space |
| DatabaseStore.TrimEnd | server/storage.ts:388 | removing trailing white space leaves a prefix that ends with a non-space, and everything removed was white space |
| DatabaseStore.TrimIgnoresSpace | server/storage.ts:388 | trimming removes exactly the white space added around a text |
| DatabaseStore.ParseBoolIgnoresSpace | server/storage.ts:388 | white space around the text never changes what the boolean column reads from it |
| DatabaseStore.StoredCompleted | server/storage.ts:388 | what the boolean column stores for `progress.completed` with its fallback to false: false for every falsy value, a boolean as itself, a non-empty string as PostgreSQL's boolean input reads it, an object refused, and true only for a truthy value |
| DatabaseStore.ReadsAsWord | server/storage.ts:388 | a trimmed lower-case text is read by the word list alone |
| DatabaseStore.FalseTextsStoreFalse | server/storage.ts:388 | "false", "f", "no", "n", "off" and "0" are truthy strings, yet the column stores false for them |
| DatabaseStore.RefusedNumber | server/storage.ts:388 | the number 2 is refused by the boolean column |
| DatabaseStore.RefusedText | server/storage.ts:388 | a text outside the boolean word list is refused |
| DatabaseStore.RefusedAmbiguousText | server/storage.ts:388 | "o", which could start both "on" and "off", is refused |
| DatabaseStore.ProgressAfter | server/storage.ts:381-398 | the progress row stores the progress value and the given `completed` flag, and an update keeps id and creation time |
| DatabaseStore.DatabaseStorage.constructor | server/storage.ts:440 | a storage over given users, items and challenges, with no ratings, follows, goals or progress |
| DatabaseStore.DatabaseStorage.CreateOrUpdateUserMediaRating | server/storage.ts:202-235 | fails, changing nothing, exactly when the user or item does not exist; otherwise upserts the rating, leaves one row per key, and sets that item's average and count to the mean and number of its ratings, no other item changing; the id sequence advances on every call |
| DatabaseStore.DatabaseStorage.ApplyRating | server/storage.ts:202-232 | with user and item present, upserts the row and sets the item's average and count to the mean and number of its ratings, keeping the store's invariant |
| DatabaseStore.DatabaseStorage.FollowUser | server/storage.ts:238-243 | adds the edge when both users exist, fails otherwise; following twice leaves the edge set unchanged |
| DatabaseStore.DatabaseStorage.UnfollowUser | server/storage.ts:245-254 | removes exactly the one (follower, following) edge |
| DatabaseStore.DatabaseStorage.GetFollowers | server/storage.ts:256-264 | exactly the users with an edge into u |
| DatabaseStore.DatabaseStorage.GetFollowing | server/storage.ts:266-274 | exactly the users u has an edge to |
| DatabaseStore.DatabaseStorage.GetRecentActivity | server/storage.ts:276-309 | empty when u follows nobody; otherwise at most 20 feed rows of followed users, newest first, and no omitted row is newer than a returned one |
| DatabaseStore.DatabaseStorage.GetRecommendations | server/storage.ts:401-429 | at most 10 items, none rated by the user, all of the given type, by non-increasing average, and no omitted candidate has a higher average than a returned item |
| DatabaseStore.DatabaseStorage.GetTopUsers | server/storage.ts:431-437 | min(10, users) users by non-increasing wisdom score, and no omitted user has a higher score |
| DatabaseStore.DatabaseStorage.CreateOrUpdateYearlyGoal | server/storage.ts:325-338 | fails, changing nothing, for an unknown user; otherwise writes the single goal for (userId, year) as `GoalAfter` gives it |
| DatabaseStore.DatabaseStorage.UpdateChallengeProgress | server/storage.ts:381-398 | a missing or null `progress` throws a TypeError and a `completed` value the boolean column refuses fails, both before the id sequence advances; otherwise it fails for an unknown user or challenge, and else writes the single row for (userId, challengeId) with `completed` as `StoredCompleted` reads it |
| UserCard.WisdomLevel | client/src/components/UserCard.tsx:30-36 | the level is one of the five tier labels |
| UserCard.WisdomPercentile | client/src/components/UserCard.tsx:38-45 | the percentile is one of the five badges |
| UserCard.WisdomTier | client/src/components/UserCard.tsx:30-45 | level and percentile are the entries at the number of thresholds 200, 400, 600 and 800 that the score reaches |
| UserCard.WisdomMonotone | client/src/components/UserCard.tsx:30-36 | a higher score never yields a lower tier |
| UserCard.WisdomLockstep | client/src/components/UserCard.tsx:30-45 | each level comes with exactly its percentile: PhD with 95th, Master's with 87th, Senior+ with 70th, Junior with 50th, High School with 25th |
| UserCard.MissingScoreIsBottomTier | client/src/components/UserCard.tsx:72-75 | a missing score shows "High School" and "25th" |
| UserCard.FollowButtonFor | client/src/components/UserCard.tsx:99-107 | the button is shown exactly when asked for; it calls the unfollow handler and reads "Following" exactly when the user is followed, else calls follow and reads "Follow" |
| UserCard.FollowLabelMatchesAction | client/src/components/UserCard.tsx:103-106 | the caption reads "Following" exactly when the click unfollows |
| MediaCard.RatingColor | client/src/components/MediaCard.tsx:42-47 | the colour is one of the four badge classes |
| MediaCard.RatingLabel | client/src/components/MediaCard.tsx:49-54 | the label is one of the four badge labels |
| MediaCard.RatingTier | client/src/components/MediaCard.tsx:42-54 | label and colour are the entries at the number of thresholds 2.5, 3.5 and 4.5 that the rating reaches |
| MediaCard.ColorMatchesLabel | client/src/components/MediaCard.tsx:42-54 | colour and label always correspond: green, blue, yellow, red |
| MediaCard.LabelMonotone | client/src/components/MediaCard.tsx:49-54 | a higher average never yields a lower label |
| MediaCard.MissingRatingIsJunkFood | client/src/components/MediaCard.tsx:90-92 | a missing average shows "Junk Food" on red |
| MediaCard.TypeIconFor | client/src/components/MediaCard.tsx:23-40 | a type outside the six gets the book icon |
| MediaCard.TypeIconsDistinct | client/src/components/MediaCard.tsx:23-36 | the six known types have six different icons |
| MediaCard.UnknownTypeLooksLikeBook | client/src/components/MediaCard.tsx:37-38 | any other type is drawn with the book's icon |
| MediaCard.ThumbnailFor | client/src/components/MediaCard.tsx:61-69 | the image is shown exactly when the URL is non-empty, otherwise the type's icon |
| StarRating.FilledCount | client/src/components/StarRating.tsx:40-41 | the number of filled stars lies in [0, 5] |
| StarRating.FilledIsPrefix | client/src/components/StarRating.tsx:40-41 | star k is filled exactly when k is at most the floor of the shown value clamped to [0, 5], so the filled stars form a prefix |
| StarRating.StarRatingWidget.constructor | client/src/components/StarRating.tsx:11-12 | a widget starts without hover |
| StarRating.StarRatingWidget.MouseEnter | client/src/components/StarRating.tsx:26-30 | an editable widget hovers star k and shows stars 1..k filled; a read-only one does not change |
| StarRating.StarRatingWidget.MouseLeave | client/src/components/StarRating.tsx:32-36 | an editable widget drops the hover and shows the rating again; a read-only one does not change |
| StarRating.StarRatingWidget.Click | client/src/components/StarRating.tsx:20-24 | `onRate(k)` is called, with k in 1..5, exactly when the widget is editable and has a handler |
| Progress.ProgressPercentage | client/src/pages/progress.tsx:220-227 | 0 without a goal or when the targets sum to at most 0; otherwise the percentage times the total target is 100 times the total completed |
| Progress.ProgressAgainstHundred | client/src/pages/progress.tsx:226 | the percentage is unclamped: above 100 exactly when more was completed than targeted, 100 exactly when the totals agree, and never negative for non-negative completions |
| Progress.SignOfProduct | client/src/pages/progress.tsx:226 | multiplying by a positive total keeps the sign |
| Progress.MissingCountsAreZero | client/src/pages/progress.tsx:222-225 | absent and null counts weigh in the percentage exactly as 0 does |
| Progress.BarValue | client/src/pages/progress.tsx:457-458 | 0 when the category's target is not a positive number; NaN exactly when the target is positive and the completed count is absent; otherwise the bar times the target is 100 times the completed count |
| Progress.OverallIsWeightedMeanOfBars | client/src/pages/progress.tsx:220-226 | with positive targets and given counts, the overall percentage is the target-weighted mean of the four bars |
| Progress.FormDefaultsAccepted | client/src/pages/progress.tsx:41-47 | the goal form's initial values pass the schema exactly when no stored target is negative |
| Progress.WisdomCopiesAgree | client/src/pages/progress.tsx:204-218 | the page's wisdom helpers agree with the user card's on every score |
| Admin.ParseMediaForm | client/src/pages/admin.tsx:22-33 | accepted data has non-empty title, author and description and one of the six types, copied from the form; each average is the form's number, in [1, 5], or 3 when the field is omitted; the image URL is the form's empty or valid string, or absent when omitted |
| Admin.AcceptedExactly | client/src/pages/admin.tsx:22-33 | a form is accepted exactly when its text fields are non-empty strings, its type is one of the six, each average is omitted or a number in [1, 5] and the image URL is omitted, empty or a URL; an omitted average is then read as 3 |
| Admin.ParseFormOf | client/src/pages/admin.tsx:22-33 | every valid record written into the form is accepted and read back unchanged |
| Admin.AverageOutOfRangeRejected | client/src/pages/admin.tsx:29-31 | any of the three averages that is given but is not a number in [1, 5] rejects the form |
| Admin.InitialFormRejected | client/src/pages/admin.tsx:57-68 | the form's initial values are rejected until title, author and description are filled |
| Admin.Utf16Length | client/src/pages/admin.tsx:36 | a string's JavaScript length lies between its number of characters and twice that, and is 0 only for the empty string |
| Admin.Utf16LengthOfBmp | client/src/pages/admin.tsx:36 | without characters above U+FFFF the JavaScript length is the number of characters |
| Admin.ParseQuestion | client/src/pages/admin.tsx:35-37 | a question is accepted exactly when it is a string of 5 to 500 UTF-16 code units, so at least 3 characters |
| Admin.Payload | client/src/pages/admin.tsx:104-110 | the payload copies the text fields, never sends a zero average, and sends an image URL exactly when it is non-empty |
| Admin.PayloadOfValidData | client/src/pages/admin.tsx:104-110 | on accepted data the 3.0 fallbacks never fire and any image URL sent passes the URL check |

## Left out

- Time: every `new Date()` is a logical time passed in by the caller. The simple store's creation times are not kept. Challenge dates are milliseconds since the epoch.
- Randomness: the shuffle in the simple store's recommendations is an arbitrary permutation of the candidates.
- Asynchrony and concurrent requests: each operation runs to completion alone.
- Aliasing: arrays and objects handed out by the simple store are values in the model. A caller that holds a list returned earlier would, in the source, see later in-place flag changes.
- An update object whose `active` key is present but `undefined` is not modelled. A partial update either omits a field or gives it a value.
- Floating point: averages and percentages are exact reals. `AVG` stored into a `real` column, IEEE rounding and NaN inputs are not modelled.
- Lower-casing maps only ASCII letters.
- The PostgreSQL `ILIKE` search and the other database reads and writes outside the modelled operations: user upsert, item listing, creation and deletion, guiding questions, user content, and single-row getters.
- The unique keys (userId, mediaId), (userId, year) and (userId, challengeId) are assumed, as the upserts' conflict targets require. The table declarations do not declare them.
- DatabaseStore.GoalInput: a count field is omitted or an integer. An explicit `null`, which the insert schema admits for these nullable columns and the database then stores, is not modelled.
- DatabaseStore.DatabaseStorage.UpdateChallengeProgress: a `progress` that is a string, number or boolean is not modelled; nested JSON inside the progress value is not looked into; NaN, -0 and a text holding a NUL character as `completed` are not modelled.
- DatabaseStore.DatabaseStorage.GetTopUsers: `wisdom_score` is nullable and `ORDER BY ... DESC` puts NULL first; the model's score is always an integer, so rows with a NULL score are not modelled.
- The three rating dimensions of the table declarations are not modelled; the code's single `rating` and `avgRating` are.
- A duplicated counter declaration in the simple store is modelled as one counter starting at 8.
- A reference to an undefined question mutation on the progress page is not modelled.
- The URL test of the validation library is the parameter `isUrl`.
- Schema error messages are not modelled: a rejected form gives `None`.
- React rendering, hooks, toasts, routing and the Express handlers are not modelled.
- DatabaseStore.DatabaseStorage.GetRecentActivity: the order among ratings with equal creation times is left open, as SQL leaves it.
- DatabaseStore.DatabaseStorage.GetRecommendations: the order among items with equal averages is left open, as SQL leaves it.
