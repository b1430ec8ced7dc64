# is_reviewable rating engine, modelled in Dafny

`is_reviewable` is a Rails 2.3 plugin. It makes a record class reviewable: every object of that class can be rated and reviewed once per reviewer, where a reviewer is a record (a user, an account, …) or a bare IP address. This project models the engine behind it and proves what it does:

- **Configuration** (`scale.dfy`). `is_reviewable` rewrites its options into a rating scale and a display precision:
  - a float range is walked with `Float#step`;
  - an integer range or an array is converted to floats;
  - the precision comes from `:total_precision` or `:average_precision`, or otherwise from the printed lower bound.

  The rewriting is a method, `Configure`, proved equal to the staged function `ConfigOf`.
- **Reviewer identity** (`reviewer.dfy`).
  - `validate_reviewer` picks the first truthy value of `:by`, `:reviewer`, `:user` and `:ip`.
  - It classifies that value as a record or an IP address, and refuses blank input, a value of the wrong type, and an IP address when the class does not accept IPs.
  - `reviewer_conditions` turns the resolved identity into the columns a review row is looked up by.
- **The review record** (`reviews.dfy`): the reserved and content field lists, the presence validation, the row linkage, and the filter and order scopes of `review.rb` as functions over a sequence of reviews.
- **Building a review** (`upsert.dfy`). `build_review` and the validation of `save!` are one function, `Plan`. It drops the reserved keys and finds the reviewer's existing review, or starts a new one linked to this object. It then assigns the caller's values for the review's own columns and runs the review class's validations.
- **The reviewable object** (`reviewable.dfy`). It is a class holding:
  - its reviews, in table order;
  - the optional cache columns `ratings_total` and `ratings_count`;
  - the review class's `after_create` and `before_destroy` hooks;
  - `review!`, `unreview!` and `destroy`, as methods;
  - `total_reviews`, `average_rating`, `average_rating_by`, `reviewed?`, `review_by` and `reviewed_by?`, as functions.

  Its invariant: one review per reviewer, every review valid and linked to this object, `ratings_count` the number of reviews, and `ratings_total` what the hooks have added and taken off. Two ghost fields keep the counters traceable:
  - `recorded` is what each review added to `ratings_total` when it was created;
  - `drift` is what destroying a re-rated review has put out of step.

  Every method states exactly how it changes both ghost fields. The predicate `InStep` says each review's recorded contribution is its current one, with no drift. The constructor establishes it. `unreview!` and `destroy` keep it, and so does `review!` unless it re-rates a review to another whole part. The lemmas about the cached reads assume `InStep`, and the test runs in `scenarios.dfy` apply them.
- **The test suite's runs** (`scenarios.dfy`). The configurations of `test/test_helper.rb` and the calls of `test/is_reviewable_test.rb` are replayed on the class, with the counts and averages the tests expect.

The model keeps the source's quirks rather than fixing them, and proves each one:

- On the cached path, `total_reviews` returns `ratings_total`, the sum of the truncated ratings, not `ratings_count`. See `IsReviewable.Reviewable.CachedCounters` and `Scenarios.CachedCountersRun`: four reviews rated 4, 1, 5 and 2 give a cached `total_reviews` of 12, against a live count of 4.
- The hooks add and subtract `rating.to_i`, so the cached average differs from the live one as soon as a rating has a fraction (`Aggregates.CachedDivergesOnFraction`).
- Re-reviewing fires no hook, so changing a rating leaves the counters alone (`Scenarios.RateAgain`, `IsReviewable.Reviewable.Review`). A re-rated review that is later destroyed subtracts its new truncated rating, which the ghost field `drift` tracks.
- The `:by` reviewer classes are never consulted: any record is accepted as a reviewer (`Upsert.AnyRecordAccepted`).
- `:account` is documented as an identifier key but is not tried (`Reviewer.AccountKeyIgnored`).

Where the documentation and the code differ, the model follows the code:

- `validate_reviewer` uses `||`, so the candidate is the first *truthy* value: `false` is skipped like nil.
- `Float#round` takes halves away from zero, for negative values too.
- `String#strip` and `blank?` follow Ruby 1.9, as the source's encoding comment suggests: `strip` removes leading white space and any mix of trailing white space and NUL, and `blank?` does not count a vertical tab as blank.
- A float range walks up to its last bound even when the range excludes it (`...`).

## Model

| member | source | states |
|---|---|---|
| Values.StripIsPiece | lib/is_reviewable/reviewable.rb:185 | the stripped IP text is the piece of the input that starts after its leading white space |
| Values.StripShape | lib/is_reviewable/reviewable.rb:185 | stripped text begins and ends with no white space and ends with no NUL |
| Values.StripIdempotent | lib/is_reviewable/reviewable.rb:185 | stripping a stripped address changes nothing |
| Values.StripNothingToRemove | lib/is_reviewable/reviewable.rb:185 | text with nothing strippable at either end is its own strip |
| Scale.ScalePrecedence | lib/is_reviewable/reviewable.rb:36-41 | without `:scale`, giving `:values` configures the class as giving that `:scale` would, and so does `:range` without `:values`; once `:scale` is given, `:values` and `:range` change nothing |
| Scale.ToFloats | lib/is_reviewable/reviewable.rb:55 | an array scale becomes its elements' float values, in order and with the same length |
| Scale.FloatStepsShape | lib/is_reviewable/reviewable.rb:51-53 | a float range walked with a positive step starts at `first`, strictly increases, stays at or below `last`, and one more step would pass `last` |
| Scale.FloatStepsIncreasing | lib/is_reviewable/reviewable.rb:53 | the walked values strictly increase |
| Scale.FloatStepsBelow | lib/is_reviewable/reviewable.rb:53 | no walked value exceeds the last bound |
| Scale.FloatStepsReachLast | lib/is_reviewable/reviewable.rb:53 | the walk has at least one value and stops only when one more step would pass `last` |
| Scale.FloatStepsEmpty | lib/is_reviewable/reviewable.rb:53 | a float range whose first bound exceeds its last allows no rating |
| Scale.DefaultFloatStep | lib/is_reviewable/reviewable.rb:42-43 | with neither `:step` nor `:steps`, the step count is `last - first + 1`, so the step is 1; equal bounds divide by zero |
| Scale.FloatRangeIgnoresExclusion | lib/is_reviewable/reviewable.rb:51-53 | `1.0...5.0` and `1.0..5.0` give the same scale |
| Scale.IntRangeMembers | lib/is_reviewable/reviewable.rb:55 | an integer-started range holds exactly the whole numbers from `first` that it does not pass, increasing |
| Scale.ValuesIgnoreStep | lib/is_reviewable/reviewable.rb:54-55 | an array scale is its elements as floats, whatever `:step` and `:steps` say |
| Scale.PrecisionTextAfterDot | lib/is_reviewable/reviewable.rb:47 | the derived precision is the length after the last dot of the printed bound, or the whole length when it has no dot |
| Scale.IntBoundPrecision | lib/is_reviewable/reviewable.rb:47 | without a precision option, an integer lower bound gives the number of characters it prints as |
| Scale.IntBoundWidth | lib/is_reviewable/reviewable.rb:47 | lower bounds 0-9 give precision 1 and 10-99 give precision 2 |
| Scale.OneDigitBound | lib/is_reviewable/reviewable.rb:47 | the lower bound 1 gives precision 1 |
| Scale.EmptyValues | lib/is_reviewable/reviewable.rb:42-58 | an empty array fails on nil unless both a step and a precision are given, and otherwise allows no rating |
| Scale.ConfigStages | lib/is_reviewable/reviewable.rb:34-58 | the staged results (steps, a Fixnum precision, expanded scale) compose into the whole configuration |
| Scale.NonIntegerPrecisionRaises | lib/is_reviewable/reviewable.rb:47-58 | once the scale is built, a `:total_precision` (or, without it, an `:average_precision`) that is not a Fixnum (not an Integer, or a Bignum beyond the 64-bit Fixnum range) makes `is_reviewable` raise the precision error |
| Scale.BignumPrecisionRaises | lib/is_reviewable/reviewable.rb:58 | on the cached post's options, a precision one past either end of the Fixnum range raises the precision error, while the largest Fixnum is accepted |
| Scale.PostScale | test/test_helper.rb:49 | `1.0..5.0` with step 0.5 and average precision 2 gives the nine ratings 1.0 to 5.0 and accepts IPs: 1, 2.5 and 3 are in, 6 is not |
| Scale.ArticleScale | test/test_helper.rb:53 | `[1,2,3]` gives the scale `[1.0, 2.0, 3.0]`, precision 1, IPs refused |
| Scale.CachedPostScale | test/test_helper.rb:61 | `1..5` with total precision 2 gives the ratings 1.0 to 5.0 |
| Scale.DefaultConfig | lib/is_reviewable/reviewable.rb:10-13 | no options give the scale 1.0 to 5.0, precision 1, IPs refused, the default review class |
| Scale.WalkSteps | lib/is_reviewable/reviewable.rb:53 | the loop of `first.step(last, step)` yields `first + i * step` for each `i` below the step count |
| Scale.WalkIntRange | lib/is_reviewable/reviewable.rb:55 | the loop of `(first..last).to_a.collect! { to_f }` yields the integer range as floats |
| Scale.ConvertValues | lib/is_reviewable/reviewable.rb:55 | the loop of `collect! { to_f }` over an array gives its elements' float values |
| Scale.ExpandScale | lib/is_reviewable/reviewable.rb:51-56 | the `:scale` rewriting, including the step computed from `:steps` and its failures, equals `Expand` |
| Scale.Configure | lib/is_reviewable/reviewable.rb:34-58 | the option rewriting, step by step with its raises, equals the staged `ConfigOf` |
| Reviewer.FirstTruthy | lib/is_reviewable/reviewable.rb:183 | the chain of `or`s yields the first truthy value (no earlier key truthy), or the last key's value when none is truthy |
| Reviewer.CandidateOrder | lib/is_reviewable/reviewable.rb:183 | the candidate is `:by`, else `:reviewer`, else `:user`, else `:ip` |
| Reviewer.OtherKeyIgnored | lib/is_reviewable/reviewable.rb:183 | a key outside the four changes neither the candidate nor the resolution |
| Reviewer.AccountKeyIgnored | lib/is_reviewable/reviewable.rb:269 | the documented `:account` key changes nothing |
| Reviewer.ResolveOutcomes | lib/is_reviewable/reviewable.rb:181-192 | each outcome of `validate_reviewer`, with the exact condition producing it, in both directions |
| Reviewer.ResolvedIpIsStripped | lib/is_reviewable/reviewable.rb:184-185 | a resolved IP address is stripped: its own strip, with no white space at either end |
| Reviewer.Conditions | lib/is_reviewable/reviewable.rb:381-385 | a record is looked up by `reviewer_id` and `reviewer_type`, an IP by `ip` alone |
| Reviewer.ConditionsInjective | lib/is_reviewable/reviewable.rb:381-385 | two reviewers with the same conditions are the same reviewer |
| Reviews.ConditionsForSelect | lib/is_reviewable/reviewable.rb:379-387 | when the identifiers resolve, `reviewer_conditions(identifiers)` match a row exactly when it is the resolved reviewer's review |
| Reviews.FieldListsDisjoint | lib/is_reviewable/review.rb:6-16 | the five associative fields and the two content fields share no name |
| Reviews.RowLinkage | lib/is_reviewable/reviewable.rb:309-314 | a stored row names its reviewer by `reviewer_id`/`reviewer_type` or by `ip`, never both |
| Reviews.ReviewerConditionsSelect | lib/is_reviewable/reviewable.rb:379-387 | a row matches a reviewer's conditions exactly when it is that reviewer's review |
| Reviews.ReviewableConditionsSelect | lib/is_reviewable/reviewable.rb:372-375 | a row matches `reviewable_conditions` exactly when it belongs to that reviewable |
| Reviews.Filter | lib/is_reviewable/review.rb:47-51 | a filter scope keeps exactly the reviews passing its condition, counted with multiplicity |
| Reviews.FilterAppend | lib/is_reviewable/review.rb:47-51 | a filter scope keeps the collection's order: filtering a concatenation concatenates the filtered parts |
| Reviews.FilterPartition | lib/is_reviewable/review.rb:47-50 | a condition and its negation split a collection into two parts that make up all of it |
| Reviews.FilterFilter | lib/is_reviewable/review.rb:51 | two filters in a row keep the reviews that pass both |
| Reviews.FilterMembership | lib/is_reviewable/review.rb:47-51 | a review is in a filtered collection exactly when it is in the collection and passes the condition |
| Reviews.RatingPartition | lib/is_reviewable/review.rb:47-48 | `with_a_rating` and `without_a_rating` partition every collection by whether the rating is null |
| Reviews.BodyPartition | lib/is_reviewable/review.rb:49-50 | `with_a_body` and `without_a_body` partition every collection by a non-empty body |
| Reviews.CompleteIsRatedWithBody | lib/is_reviewable/review.rb:51 | `complete` is `with_a_rating` followed by `with_a_body` |
| Reviews.Since | lib/is_reviewable/review.rb:37 | `since(t)` keeps exactly the reviews created at or after `t` |
| Reviews.BetweenDates | lib/is_reviewable/review.rb:45 | `between_dates(a, b)` keeps exactly the reviews created from `a` to `b`, none when `a > b` |
| Reviews.WithRating | lib/is_reviewable/review.rb:46 | `with_rating(v)` keeps exactly the reviews rated `v` |
| Reviews.WithRatingIn | lib/is_reviewable/review.rb:46 | `with_rating(lo..hi)` keeps exactly the reviews rated from `lo` to `hi`, and `with_rating(lo...hi)` those rated from `lo` up to but not including `hi` |
| Reviews.WithNilRating | lib/is_reviewable/review.rb:46 | `with_rating(nil)` keeps exactly the reviews without a rating |
| Reviews.WithRatingAmong | lib/is_reviewable/review.rb:46 | `with_rating([v1, ...])` keeps exactly the rated reviews whose rating is one of the values |
| Reviews.Limit | lib/is_reviewable/review.rb:36 | `limit(n)` is a prefix of length `n`, or all of a shorter collection |
| Reviews.InsertSorted | lib/is_reviewable/review.rb:30-33 | inserting into a sorted collection keeps it sorted |
| Reviews.SortBySorted | lib/is_reviewable/review.rb:30-33 | an ORDER BY by a total preorder is sorted and a permutation of its input |
| Reviews.RatingOrders | lib/is_reviewable/review.rb:32-33 | `lowest_rating` and `highest_rating` sort by rating up and down, and only reorder |
| Reviews.DateOrders | lib/is_reviewable/review.rb:30-31 | `in_order` and `most_recent` sort by `created_at` up and down, and only reorder |
| Aggregates.TruncSpec | lib/is_reviewable/reviewable.rb:69 | `to_i` truncates toward zero: it loses less than one and keeps whole numbers |
| Aggregates.RoundToError | lib/is_reviewable/reviewable.rb:229 | `round(p)` lands within half a unit of the p-th place |
| Aggregates.RoundToExact | lib/is_reviewable/reviewable.rb:229 | a value with no digits past the p-th place is unchanged by `round(p)` |
| Aggregates.RoundToMonotone | lib/is_reviewable/reviewable.rb:229 | rounding never reverses two values |
| Aggregates.AggregatesAppend | lib/is_reviewable/reviewable.rb:233 | sum, count and truncated sum of two collections add up |
| Aggregates.AggregatesSingle | lib/is_reviewable/reviewable.rb:233 | one review's aggregates are its own rating and contribution |
| Aggregates.AggregatesRemove | lib/is_reviewable/reviewable.rb:77-85 | removing a review takes exactly its rating and contribution out of each aggregate |
| Aggregates.AggregatesReplace | lib/is_reviewable/reviewable.rb:301-304 | replacing a review swaps its rating for the new one in each aggregate |
| Aggregates.SumIntsAppend | lib/is_reviewable/reviewable.rb:69 | contributions add up over two collections |
| Aggregates.SumIntsRemove | lib/is_reviewable/reviewable.rb:80 | removing a contribution takes exactly it off the sum |
| Aggregates.SumBounds | lib/is_reviewable/reviewable.rb:233 | ratings between `lo` and `hi` sum to between `lo` and `hi` times their number |
| Aggregates.LiveAverageWithin | lib/is_reviewable/reviewable.rb:231-234 | the live average is 0.0 without ratings, and otherwise within any bounds of the ratings that rounding keeps |
| Aggregates.RatedMeanWithin | lib/is_reviewable/reviewable.rb:233 | the mean of ratings between `lo` and `hi` lies between them |
| Aggregates.IntegralTruncSum | lib/is_reviewable/reviewable.rb:69 | for whole-number ratings the truncated sum is the real sum |
| Aggregates.CachedMatchesLive | lib/is_reviewable/reviewable.rb:227-236 | counters equal to the review count and truncated sum give the live average when every rating is a whole number |
| Aggregates.CachedDivergesOnFraction | lib/is_reviewable/reviewable.rb:69 | one review rated 2.5 has cached average 2.0 but live average 2.5 |
| Upsert.FindReview | lib/is_reviewable/reviewable.rb:278-280 | `review_by` finds the first review by the reviewer, or none exactly when there is no such review |
| Upsert.FindUnique | lib/is_reviewable/reviewable.rb:278-280 | with one review per reviewer, each review is the one found for its reviewer |
| Upsert.ReviewsByFound | lib/is_reviewable/reviewable.rb:240-244 | with one review per reviewer, a reviewer's reviews are the found review or none |
| Upsert.ReviewValues | lib/is_reviewable/reviewable.rb:298 | `except(*ASSOCIATIVE_FIELDS)` keeps exactly the other keys with their values |
| Upsert.Assign | lib/is_reviewable/reviewable.rb:304-307 | assigning sets the rating, body, creation time and extra columns the caller gives for the review's columns, keeps the rest, and never touches the links |
| Upsert.ValidationErrors | lib/is_reviewable/reviewable.rb:90-94 | a review is valid exactly when the presence rule holds for a class that declares or inherits it and a non-nil rating is in the scale. The scale error appears exactly for an out-of-scale rating. A class without the rule never reports a blank body or rating |
| Upsert.PlanOutcomes | lib/is_reviewable/reviewable.rb:290-319 | `review!` raises the reviewer error exactly when the reviewer does not resolve. Once it resolves, it succeeds exactly when the built review passes validation, and otherwise raises a record error carrying exactly that review's validation errors |
| Upsert.PlanTarget | lib/is_reviewable/reviewable.rb:296-319 | a planned review belongs to the resolved reviewer. It is either the found review, with its links, or a new review of this object. Its creation time is the caller's `created_at` when given, else the found review's, else now. Its rating is nil or in the scale, and it gains no associative field |
| Upsert.ReservedKeysIgnored | lib/is_reviewable/reviewable.rb:298 | associative keys other than `ip` in the caller's input change nothing |
| Upsert.StorePreservesUnique | lib/is_reviewable/reviewable.rb:301-316 | storing keeps one review per reviewer, grows the collection only for a new reviewer, and leaves other reviewers' reviews alone |
| Upsert.RepeatReviewKeepsCount | lib/is_reviewable/reviewable.rb:301-304 | a re-review updates the existing review and adds none |
| Upsert.AnyRecordAccepted | lib/is_reviewable/reviewable.rb:98-104 | the `:by` classes do not affect the plan, and any record resolves as a reviewer |
| IsReviewable.CachingDefault | lib/is_reviewable/reviewable.rb:359-362 | with no field named, caching is on exactly when both `ratings_total` and `ratings_count` are columns |
| IsReviewable.SingleField | lib/is_reviewable/reviewable.rb:359-362 | the guard for one field holds exactly when it is a column |
| IsReviewable.CacheMaintenanceInert | lib/is_reviewable/reviewable.rb:338-349 | on the `ratings_*` schema every guard of `update_cache!` and `init_reviewable_caching_fields` is false |
| IsReviewable.RemoveAt | lib/is_reviewable/reviewable.rb:327 | destroying a review leaves the others in order |
| IsReviewable.RemovePreservesValid | lib/is_reviewable/reviewable.rb:323-332 | removing a review keeps the invariant of the others |
| IsReviewable.ReviewThenUnreview | lib/is_reviewable/reviewable.rb:323-327 | a new reviewer's review is found last, and removing it gives back the previous collection |
| IsReviewable.StorePreservesValid | lib/is_reviewable/reviewable.rb:290-319 | storing a valid planned review keeps the invariant |
| IsReviewable.DistinctReviewers | lib/is_reviewable/reviewable.rb:253 | with one review per reviewer there are as many distinct reviewers as reviews |
| IsReviewable.ReviewUndone | lib/is_reviewable/reviewable.rb:290-332 | `review!` by a reviewer with no review, then `unreview!` by the same identifiers, restores the reviews, both counters and their bookkeeping |
| IsReviewable.Reviewable.constructor | test/test_helper.rb:63-64 | a new object has no reviews and counters at their column default 0 |
| IsReviewable.Reviewable.AfterCreate | lib/is_reviewable/reviewable.rb:66-74 | on a caching object, `after_create` adds `rating.to_i` to `ratings_total` and 1 to `ratings_count`; otherwise nothing changes |
| IsReviewable.Reviewable.BeforeDestroy | lib/is_reviewable/reviewable.rb:77-85 | on a caching object, `before_destroy` subtracts the review's current `rating.to_i` and 1; otherwise nothing changes |
| IsReviewable.Reviewable.Review | lib/is_reviewable/reviewable.rb:290-294 | `review!` keeps the invariant. On failure it returns the plan's error and changes nothing. On success it stores the planned review; a re-review leaves the counters alone, and a new review runs the create hook. It keeps the cache in step unless it re-rates a review to another whole part |
| IsReviewable.Reviewable.Save | lib/is_reviewable/reviewable.rb:292 | `save!` replaces the reviewer's review or appends a new one, runs the create hook only for a new review, keeps the invariant, and keeps the cache in step unless the replacement changes the truncated rating |
| IsReviewable.Reviewable.DestroyReview | lib/is_reviewable/reviewable.rb:77-85 | `destroy` runs the destroy hook, removes exactly that review, keeps the invariant and keeps the cache in step |
| IsReviewable.Reviewable.Unreview | lib/is_reviewable/reviewable.rb:323-332 | `unreview!` fails with the reviewer error, or fails when the reviewer has no review, changing nothing; otherwise it destroys that review and adjusts the counters by its contribution. Either way the cache stays in step |
| IsReviewable.Reviewable.ReviewBy | lib/is_reviewable/reviewable.rb:278-280 | `review_by` fails exactly when the reviewer does not resolve, and otherwise gives that reviewer's stored review or none when there is none |
| IsReviewable.Reviewable.ReviewedBy | lib/is_reviewable/reviewable.rb:271-273 | `reviewed_by?` holds exactly when some stored review is by the resolved reviewer |
| IsReviewable.Reviewable.LiveTotalIsReviewerCount | lib/is_reviewable/reviewable.rb:253 | the recalculated `total_reviews` is the number of distinct reviewers of the object |
| IsReviewable.Reviewable.CachedCounters | lib/is_reviewable/reviewable.rb:249-252 | while the cache is in step, it holds the review count and the truncated sum, and the cached `total_reviews` is that sum, not the count |
| IsReviewable.Reviewable.AverageRatingByOwn | lib/is_reviewable/reviewable.rb:240-245 | `average_rating_by` is the rounded rating of the reviewer's one review, 0.0 without a rated one, and fails when the reviewer does not resolve |
| IsReviewable.Reviewable.LiveAverageInScale | lib/is_reviewable/reviewable.rb:227-236 | the recalculated average is 0.0 without ratings, and otherwise within any bounds of the scale that rounding keeps |
| IsReviewable.Reviewable.CachedAverageAgrees | lib/is_reviewable/reviewable.rb:227-236 | for whole-number ratings on every review, while the cache is in step, the cached average equals the recalculated one |
| IsReviewable.Reviewable.UnratedIsNotReviewed | lib/is_reviewable/reviewable.rb:249-262 | a caching object in step whose reviews carry no rating is not `reviewed?`, however many reviews it has |
| IsReviewable.OwnAverage | lib/is_reviewable/reviewable.rb:240-245 | with one review per reviewer, a reviewer's live average is the rounded rating of their review, or 0.0 |
| IsReviewable.RecordedIsTruncSum | lib/is_reviewable/reviewable.rb:69 | recorded contributions matching the reviews sum to their truncated total |
| IsReviewable.NoRatingsNoTotal | lib/is_reviewable/reviewable.rb:69 | reviews without a rating contribute nothing to `ratings_total` |
| Scenarios.RatedAssign | lib/is_reviewable/reviewable.rb:304 | `{:by, :rating[, :body]}` assigns the rating, and the body when given, and nothing else |
| Scenarios.RatedValidation | lib/is_reviewable/reviewable.rb:90-94 | a rated review of a class without presence validation is valid exactly when its rating is in the scale |
| Scenarios.RatedPlan | lib/is_reviewable/reviewable.rb:296-319 | a rated `review!` plans the found or new review with the rating set, or fails with the scale error alone |
| Scenarios.IpResolves | lib/is_reviewable/reviewable.rb:181-192 | a dotted address as `:by` resolves as that IP when IPs are accepted and is refused otherwise |
| Scenarios.RecordResolves | lib/is_reviewable/reviewable.rb:181-192 | a record as `:by` resolves as that record whatever its class |
| Scenarios.PairAverage | lib/is_reviewable/reviewable.rb:231-234 | two rated reviews average to the rounded mean of their ratings |
| Scenarios.TitleStored | test/is_reviewable_test.rb:168-169 | `:title => "My title"` is stored on the review |
| Scenarios.ReservedIdDropped | test/is_reviewable_test.rb:172-173 | `:reviewable_id => 666` does not change the review's link |
| Scenarios.RateNew | lib/is_reviewable/reviewable.rb:290-316 | a rated `review!` by a new reviewer appends exactly the new review, and a caching object's counters grow by its truncated rating and 1 |
| Scenarios.RateAgain | lib/is_reviewable/reviewable.rb:301-304 | a rated `review!` by an existing reviewer updates that review in place and leaves the counters alone |
| Scenarios.PostNotCaching | test/test_helper.rb:48-50 | the reviewable posts have no counter columns |
| Scenarios.IpAverages | test/is_reviewable_test.rb:92-98 | the IP ratings 1 and 2.5 average 1.75, and after the re-rating 1 and 3 average 2.0 |
| Scenarios.IpRateFirst | test/is_reviewable_test.rb:88 | 128.0.0.0 rating 1 is stored as the first review |
| Scenarios.IpRateSecond | test/is_reviewable_test.rb:89 | 128.0.0.1 rating 2.5 is stored as a second review |
| Scenarios.IpRerate | test/is_reviewable_test.rb:95 | 128.0.0.1 rating 3 updates its review and adds none |
| Scenarios.IpRateThird | test/is_reviewable_test.rb:101 | 128.0.0.3 rating 1 is stored as a third review |
| Scenarios.ThirdFound | test/is_reviewable_test.rb:102 | the third reviewer's review is the last, and removing it leaves the other two |
| Scenarios.IpUnreviewThird | test/is_reviewable_test.rb:102 | unreviewing by 128.0.0.3 leaves the first two reviews |
| Scenarios.PostIpRun | test/is_reviewable_test.rb:87-106 | total 2 and average 1.75, then 2 and 2.0 after the re-rating, then still 2 and 2.0 after a third review and its removal |
| Scenarios.ArticleRefusesIp | test/is_reviewable_test.rb:108-112 | an IP reviewer of an article is refused because IPs are disabled |
| Scenarios.PostRatings | test/is_reviewable_test.rb:88-95 | 1, 2.5 and 3 are in the posts' scale and 6 is not |
| Scenarios.PostRefusesSix | test/is_reviewable_test.rb:149-153 | rating 6 fails validation with the scale error and stores nothing |
| Scenarios.CachedIsCaching | test/test_helper.rb:60-65 | cached posts have both counter columns |
| Scenarios.InCachedScale | test/test_helper.rb:61 | ratings 1 to 5 are in the cached posts' scale |
| Scenarios.CachedFirst | test/is_reviewable_test.rb:189 | the second user's review with body "hi" is stored, and the counters grow by its rating and 1 |
| Scenarios.CachedSecond | test/is_reviewable_test.rb:190 | the first user's review with body "hello" is added, and the counters grow by its rating and 1 |
| Scenarios.CachedThird | test/is_reviewable_test.rb:191 | 127.0.0.1's review is added, and the counters grow by its rating and 1 |
| Scenarios.CachedFourth | test/is_reviewable_test.rb:192 | 192.0.0.1's review is added, and the counters grow by its rating and 1 |
| Scenarios.CachedTwo | test/is_reviewable_test.rb:189-190 | two reviews rated 4 and 1 leave count 2 and total 5 |
| Scenarios.CachedFour | test/is_reviewable_test.rb:189-196 | four reviews rated 4, 1, 5 and 2 leave count 4 and total 12 |
| Scenarios.CachedCountersRun | test/is_reviewable_test.rb:188-202 | count 4 and total 12, a cached `total_reviews` of 12 against a live 4, then 3 and 7 after destroying the third review; both totals are the truncated sum of the stored ratings |
| Scenarios.ThirteenThirds | test/is_reviewable_test.rb:210 | 13 / 3 rounded to two places is 4.33 |
| Scenarios.CachedAverageRun | test/is_reviewable_test.rb:204-211 | reviews rated 5, 5 and 3 give the cached average 4.33, which the recalculated average equals |
| Scenarios.CachedThree | test/is_reviewable_test.rb:205-207 | three reviews rated 5, 5 and 3 leave count 3 and total 13, with the cache in step |
| Scenarios.BodyOnlyPlan | lib/is_reviewable/reviewable.rb:90-94 | on a new cached post, `{:by => user, :body => "hi"}` plans a new review with no rating, which a class without presence validation accepts |
| Scenarios.CachedBodyOnlyRun | lib/is_reviewable/reviewable.rb:249-262 | after that review is stored, the cached post holds one review and `ratings_count` is 1, yet it is not `reviewed?` |

## Left out
- IsReviewable.Reviewable.ReviewedBy: the model gives the lookup the method intends, the same as `review_by` finds. As written, line 272 passes a find-options hash `{:conditions => …}` to `exists?`. ActiveRecord 2.3's `exists?` takes the conditions themselves, so it reads `conditions` as a table name, and the query would fail once the reviewer resolves. That ActiveRecord behaviour is not part of this model.
- IsReviewable.Reviewable.AfterCreate, IsReviewable.Reviewable.BeforeDestroy: the model's `ratingsTotal` and `ratingsCount` are the stored row's counters. The hooks update and save `record.reviewable`, a copy loaded from the database (lines 66-84; `before_destroy` reloads it). The object `review!` or `unreview!` was called on keeps its old counters until it is reloaded, so `TotalReviews(false)`, `AverageRating(false)` and `Reviewed()` describe a reloaded object.
- IsReviewable.Reviewable.DestroyReview: it takes off the stored review's rating. The source subtracts the rating held by the Ruby review object `destroy` is called on. `unreview!` loads that object fresh (line 324), so the two agree there, but a caller's stale copy could hold another rating.

- ActiveRecord wiring is not modelled: associations, the `reviewers` and `reviewables` queries (lib/is_reviewable/reviewable.rb:107-139), `reload` and SQL text. These are ORM behaviour; rows are modelled as values, and conditions as maps matched against rows.
- The `:dependent => :delete_all` cascade when a reviewable is destroyed is not modelled. The object's lifecycle is outside the model.
- `Support.is_ip?` is a parameter, a test on text. `Support.is_active_record?` is the `Record` form of a value. `Support.polymorphic_conditions_for` and `hash_conditions_as_array` are not part of this model.
- Reviewer class lookup by `constantize`, `class_eval` injection, the inheritable options and the `@@reviewable` memo are not modelled. This is reflection; the `:by` classes are kept only as the strings given.
- The accessors `reviewable?`, `reviewable_scale`, `reviewable_precision` and `reviewed_at` only read a field and carry nothing to prove.
- The scopes `recent` (it raises for any time argument), `of_reviewable_type`, `by_reviewer_type`, `on` and `by` are not modelled: they depend on the unseen polymorphic helper.
- Floats are exact reals. IEEE rounding, `Float#step`'s error margin and `Float#to_s` are not modelled; a float bound carries its printed text as data.
- Scale.StepOf: a computed step of `x / 0.0` (a single step) is reported as the error `NonFiniteStep`, not walked as an infinite or NaN step.
- Scale.ConfigOf: scale elements are numbers by construction, so the "numeric values only" check (lib/is_reviewable/reviewable.rb:57) cannot fail.
- Text ratings such as "3.5" are cast by a parameter `toF`, standing for the float column's typecast.
- IsReviewable.Reviewable.Review requires `WellTyped`: a caller's `:rating` must be nil, a number or text, and a `:body` nil or text. Casting other kinds of value into those columns is ActiveRecord behaviour outside the model.
- Upsert.ExtraValues: a caller's `id` is ignored, as mass assignment protects it. `updated_at` is not modelled, because no operation reads it; the source stores a caller-given value.
- Creation time is the caller's `created_at` when given, otherwise the parameter `now`; there is no clock. Upsert.WellTyped requires a given `created_at` to be a time; a nil one is not modelled.
- Scale.Options: an explicit `:scale => nil` or `:accept_ip => nil` is not modelled. `reverse_merge!` keeps such a nil, so the first makes the scale arithmetic fail on nil (at line 43 when no step is given), and the second refuses IP reviewers even with `:anonymous => true`.
- IsReviewable.Reviewable.AverageRating requires `ratings_count != 0` on the cached path. The source computes 0.0/0.0 there, and rounding NaN raises.
- `update_cache!` and `init_reviewable_caching_fields` test columns outside `CACHABLE_FIELDS`. They are modelled only by `IsReviewable.CacheMaintenanceInert`, which shows they do nothing on the counter schema.
- IsReviewable.Reviewable.Unreview: the source's failure (lib/is_reviewable/reviewable.rb:330) refers to undefined names; the model reports only that `unreview!` failed and why.
- Several review classes sharing one table, and the live reads querying the top-level review class, are not modelled. A reviewable sees only its own reviews, and each review class runs its hooks once.
- Concurrency is not modelled; the source has no locking.
