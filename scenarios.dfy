/**
 * Concrete runs of the engine on the configurations and calls of the gem's
 * own test suite, with the counts and averages those tests expect.
 */
module Scenarios {
  import opened Wrappers
  import opened Values
  import opened Reviewer
  import opened Reviews
  import opened Scale
  import opened Aggregates
  import opened Upsert
  import opened IsReviewable

  /** The review table's columns in the test schema. */
  const ReviewColumns: set<string> :=
    {"id", "reviewable_id", "reviewable_type", "reviewer_id", "reviewer_type", "ip", "rating", "body", "title",
     "created_at", "updated_at"}

  /** The configuration `1.0..5.0`, step 0.5, average precision 2, IPs accepted. */
  const PostConfig := Config([1.0, 1.5, 2.0, 2.5, 3.0, 3.5, 4.0, 4.5, 5.0], 2, true, ["users"], CustomReviewClass("Review", false))

  /** An IP shape test that accepts the addresses the tests use. */
  predicate DottedDigits(s: string) {
    |s| > 0 && '0' <= s[0] <= '9'
  }

  function NoText(s: string): Option<real> { None }

  /** The rating a number gives the float column. */
  function NumberRating(v: Value): real
    requires v.Int? || v.Num?
  {
    if v.Int? then v.i as real else v.x
  }

  /** The hash `{:by => who, :rating => v}`, with `:body => b` when a body is given. */
  function RatedInput(who0: Value, v: Value, body: Option<string>): map<string, Value> {
    if body.Some? then map["by" := who0, "rating" := v, "body" := Text(body.value)]
    else map["by" := who0, "rating" := v]
  }

  /** Assigning a rated input to a review sets its rating, and its body when one is given, and nothing else. */
  lemma RatedAssign(base: Review, who0: Value, v: Value, body: Option<string>)
    requires v.Int? || v.Num?
    ensures var input := RatedInput(who0, v, body);
      WellTyped(input) && ReviewValues(input) == input &&
      Assign(base, input, ReviewColumns, NoText) ==
        base.(rating := Some(NumberRating(v)), body := if body.Some? then body else base.body)
  {
    var input := RatedInput(who0, v, body);
    assert ReviewValues(input) == input;
    assert ExtraValues(input, ReviewColumns) == map[];
    assert base.extras + map[] == base.extras;
  }

  /** A rated review of a class without presence validation is valid exactly when its rating is in the scale. */
  lemma RatedValidation(cfg: Config, r: Review)
    requires r.rating.Some? && !DeclaresPresence(cfg.reviewClass)
    ensures ValidationErrors(cfg, r) == if r.rating.value in cfg.scale then [] else [RatingNotInScale]
  {
  }

  /** `review!(:by => who, :rating => v)` with a review class that has no presence validation. */
  lemma RatedPlan(ref: Ref, cfg: Config, s: seq<Review>, who0: Value, v: Value, body: Option<string>,
                  isIp: string -> bool, now: int)
    requires (v.Int? || v.Num?) && !DeclaresPresence(cfg.reviewClass)
    requires Resolve(RatedInput(who0, v, body), cfg.acceptIp, isIp).Success?
    ensures var input := RatedInput(who0, v, body);
      var who := Resolve(input, cfg.acceptIp, isIp).value;
      var found := FindReview(s, who);
      var base := if found.Some? then s[found.value] else Fresh(ref, who, now);
      var r := base.(rating := Some(NumberRating(v)), body := if body.Some? then body else base.body);
      WellTyped(input) &&
      Plan(ref, cfg, s, input, ReviewColumns, isIp, NoText, now) ==
        if NumberRating(v) in cfg.scale then Success((r, found)) else Failure(RecordInvalid([RatingNotInScale]))
  {
    var input := RatedInput(who0, v, body);
    var who := Resolve(input, cfg.acceptIp, isIp).value;
    var found := FindReview(s, who);
    var base := if found.Some? then s[found.value] else Fresh(ref, who, now);
    RatedAssign(base, who0, v, body);
    RatedValidation(cfg, base.(rating := Some(NumberRating(v)), body := if body.Some? then body else base.body));
  }

  /** A dotted address given as `:by` names an IP reviewer, accepted or refused by the configuration. */
  lemma IpResolves(a: string, v: Value, body: Option<string>, acceptIp: bool)
    requires |a| > 0 && '0' <= a[0] <= '9' && '0' <= a[|a| - 1] <= '9'
    ensures Resolve(RatedInput(Text(a), v, body), acceptIp, DottedDigits) ==
      if acceptIp then Success(Ip(a)) else Failure(IpDisabled)
  {
    var input := RatedInput(Text(a), v, body);
    CandidateOrder(input);
    assert "by" in input;
    StripNothingToRemove(a);
  }

  /** A record given as `:by` names that record as the reviewer, whatever its class. */
  lemma RecordResolves(t: string, n: int, v: Value, body: Option<string>, acceptIp: bool, isIp: string -> bool)
    ensures Resolve(RatedInput(Record(t, n), v, body), acceptIp, isIp) == Success(Account(t, n))
  {
    var input := RatedInput(Record(t, n), v, body);
    CandidateOrder(input);
    assert "by" in input;
  }

  /** The average of two rated reviews is the rounded mean of their ratings. */
  lemma PairAverage(x: Review, y: Review, p: int)
    requires x.rating.Some? && y.rating.Some?
    ensures LiveAverage([x, y], p) == RoundTo((x.rating.value + y.rating.value) / 2.0, p)
  {
    assert [x, y] == [x] + [y];
    AggregatesAppend([x], [y]);
    AggregatesSingle(x);
    AggregatesSingle(y);
  }

  /** A `:title` given with a rating is stored on the review as an extra column. */
  lemma TitleStored(base: Review)
    ensures var input := map["by" := Record("User", 1), "rating" := Int(4), "title" := Text("My title")];
      var r := Assign(base, ReviewValues(input), ReviewColumns, NoText);
      "title" in r.extras && r.extras["title"] == Text("My title") && r.rating == Some(4.0)
  {
    var input := map["by" := Record("User", 1), "rating" := Int(4), "title" := Text("My title")];
    assert "title" in ReviewValues(input) && "title" in ExtraValues(ReviewValues(input), ReviewColumns);
  }

  /** A `:reviewable_id` given by the caller is dropped: the review keeps its own link and gains no such column. */
  lemma ReservedIdDropped(base: Review)
    ensures var input := map["by" := Record("User", 2), "reviewable_id" := Int(666)];
      var r := Assign(base, ReviewValues(input), ReviewColumns, NoText);
      r.reviewable == base.reviewable && ("reviewable_id" in r.extras <==> "reviewable_id" in base.extras)
  {
    var input := map["by" := Record("User", 2), "reviewable_id" := Int(666)];
    assert "reviewable_id" in AssociativeFields;
    assert "reviewable_id" !in ReviewValues(input);
  }

  /** `review!` with a rated input in the scale by a reviewer who has not reviewed yet: a new review is added. */
  method RateNew(x: Reviewable, who0: Value, v: Value, body: Option<string>, now: int, who: Identity)
    requires x.Valid() && x.columns == ReviewColumns && x.toF == NoText
    requires (v.Int? || v.Num?) && !DeclaresPresence(x.config.reviewClass) && NumberRating(v) in x.config.scale
    requires Resolve(RatedInput(who0, v, body), x.config.acceptIp, x.isIp) == Success(who)
    requires forall j :: 0 <= j < |x.reviews| ==> x.reviews[j].reviewer != who
    modifies x
    ensures x.Valid()
    ensures x.reviews == old(x.reviews) + [Review(x.ref, who, Some(NumberRating(v)), body, map[], now)]
    ensures !x.Caching() ==> x.ratingsTotal == old(x.ratingsTotal) && x.ratingsCount == old(x.ratingsCount)
    ensures x.Caching() ==>
      x.ratingsTotal == old(x.ratingsTotal) + Trunc(NumberRating(v)) && x.ratingsCount == old(x.ratingsCount) + 1
    ensures old(x.InStep()) ==> x.InStep()
  {
    RatedPlan(x.ref, x.config, x.reviews, who0, v, body, x.isIp, now);
    var res := x.Review(RatedInput(who0, v, body), now);
  }

  /** `review!` with a rated input in the scale by the reviewer of the `i`th review: that review is updated. */
  method RateAgain(x: Reviewable, who0: Value, v: Value, body: Option<string>, now: int, i: nat)
    requires x.Valid() && x.columns == ReviewColumns && x.toF == NoText
    requires (v.Int? || v.Num?) && !DeclaresPresence(x.config.reviewClass) && NumberRating(v) in x.config.scale
    requires i < |x.reviews| && Resolve(RatedInput(who0, v, body), x.config.acceptIp, x.isIp) == Success(x.reviews[i].reviewer)
    modifies x
    ensures x.Valid()
    ensures x.reviews == old(x.reviews[i := x.reviews[i].(rating := Some(NumberRating(v)),
                                                           body := if body.Some? then body else x.reviews[i].body)])
    ensures x.ratingsTotal == old(x.ratingsTotal) && x.ratingsCount == old(x.ratingsCount)
    ensures old(x.InStep()) && Trunc(NumberRating(v)) == old(Contribution(x.reviews[i])) ==> x.InStep()
  {
    RatedPlan(x.ref, x.config, x.reviews, who0, v, body, x.isIp, now);
    FindUnique(x.reviews, i);
    var res := x.Review(RatedInput(who0, v, body), now);
  }

  /** The columns of a reviewable post: no cache. */
  const PostAttributes: set<string> := {"id", "created_at", "updated_at"}

  const PostRef := Ref("ReviewablePost", 1)

  /** A reviewable post of the test schema. */
  ghost predicate PostSetup(x: Reviewable) {
    && x.ref == PostRef && x.config == PostConfig && x.attributeNames == PostAttributes
    && x.columns == ReviewColumns && x.isIp == DottedDigits && x.toF == NoText
  }

  /** A post's review by an IP address, without a body. */
  function IpReview(a: string, rating: real, now: int): Review {
    Review(PostRef, Ip(a), Some(rating), None, map[], now)
  }

  const IpRated := [IpReview("128.0.0.0", 1.0, 0), IpReview("128.0.0.1", 2.5, 1)]
  const IpRerated := [IpReview("128.0.0.0", 1.0, 0), IpReview("128.0.0.1", 3.0, 1)]

  /** A post has no cache columns. */
  lemma PostNotCaching(x: Reviewable)
    requires x.attributeNames == PostAttributes
    ensures !x.Caching()
  {
    CachingDefault(PostAttributes);
  }

  /** The live averages of the IP reviews: 1.75 before the re-rating, 2.0 after. */
  lemma IpAverages()
    ensures LiveAverage(IpRated, 2) == 1.75 && LiveAverage(IpRerated, 2) == 2.0
  {
    PairAverage(IpRated[0], IpRated[1], 2);
    RoundToExact(1.75, 2, 175);
    PairAverage(IpRerated[0], IpRerated[1], 2);
    RoundToExact(2.0, 2, 200);
  }

  /** The addresses of the test differ in their last digit. */
  lemma AddressesDiffer()
    ensures "128.0.0.0" != "128.0.0.1" && "128.0.0.0" != "128.0.0.3" && "128.0.0.1" != "128.0.0.3"
  {
    assert "128.0.0.0"[8] == '0' && "128.0.0.1"[8] == '1' && "128.0.0.3"[8] == '3';
  }

  /** `128.0.0.0` rates 1: the post's first review. */
  method IpRateFirst(post: Reviewable)
    requires post.Valid() && PostSetup(post) && post.reviews == []
    modifies post
    ensures post.Valid() && post.reviews == [IpReview("128.0.0.0", 1.0, 0)]
  {
    PostRatings();
    IpResolves("128.0.0.0", Int(1), None, true);
    RateNew(post, Text("128.0.0.0"), Int(1), None, 0, Ip("128.0.0.0"));
  }

  /** `128.0.0.1` rates 2.5: a second review. */
  method IpRateSecond(post: Reviewable)
    requires post.Valid() && PostSetup(post) && post.reviews == [IpReview("128.0.0.0", 1.0, 0)]
    modifies post
    ensures post.Valid() && post.reviews == IpRated
  {
    AddressesDiffer();
    NoneOfFirst(post.reviews, Ip("128.0.0.1"));
    PostRatings();
    IpResolves("128.0.0.1", Num(2.5), None, true);
    RateNew(post, Text("128.0.0.1"), Num(2.5), None, 1, Ip("128.0.0.1"));
  }

  /** `128.0.0.1` rates 3: its review is updated, not added. */
  method IpRerate(post: Reviewable)
    requires post.Valid() && PostSetup(post) && post.reviews == IpRated
    modifies post
    ensures post.Valid() && post.reviews == IpRerated
  {
    PostRatings();
    IpResolves("128.0.0.1", Int(3), None, true);
    RateAgain(post, Text("128.0.0.1"), Int(3), None, 2, 1);
  }

  /** `128.0.0.3` rates 1: a third review. */
  method IpRateThird(post: Reviewable)
    requires post.Valid() && PostSetup(post) && post.reviews == IpRerated
    modifies post
    ensures post.Valid() && post.reviews == IpRerated + [IpReview("128.0.0.3", 1.0, 3)]
  {
    AddressesDiffer();
    NoneOfFirst(post.reviews, Ip("128.0.0.3"));
    PostRatings();
    IpResolves("128.0.0.3", Int(1), None, true);
    RateNew(post, Text("128.0.0.3"), Int(1), None, 3, Ip("128.0.0.3"));
  }

  /** The third reviewer's review is the last of three, and removing it leaves the other two. */
  lemma ThirdFound(s: seq<Review>)
    requires s == IpRerated + [IpReview("128.0.0.3", 1.0, 3)]
    ensures FindReview(s, Ip("128.0.0.3")) == Some(2) && RemoveAt(s, 2) == IpRerated
  {
    AddressesDiffer();
    assert s[0].reviewer != Ip("128.0.0.3") && s[1].reviewer != Ip("128.0.0.3") && s[2].reviewer == Ip("128.0.0.3");
    assert s[..2] == IpRerated && s[3..] == [];
  }

  /** `128.0.0.3` unreviews: its review is gone. */
  method IpUnreviewThird(post: Reviewable)
    requires post.Valid() && PostSetup(post) && post.reviews == IpRerated + [IpReview("128.0.0.3", 1.0, 3)]
    modifies post
    ensures post.Valid() && post.reviews == IpRerated
  {
    AddressesDiffer();
    IpResolves("128.0.0.3", Int(1), None, true);
    ThirdFound(post.reviews);
    var gone := post.Unreview(RatedInput(Text("128.0.0.3"), Int(1), None));
  }

  /**
   * Two IP reviewers rate a post 1 and 2.5, the second re-rates it 3, and a
   * third reviews and unreviews it: two reviews throughout, averaging 1.75,
   * then 2.0, then still 2.0.
   */
  method PostIpRun() returns (total1: int, average1: real, total2: int, average2: real, during: int, total3: int, average3: real)
    ensures total1 == 2 && average1 == 1.75
    ensures total2 == 2 && average2 == 2.0
    ensures total3 == 2 && average3 == 2.0 && during == 3
  {
    var post := new Reviewable(PostRef, PostConfig, PostAttributes, ReviewColumns, DottedDigits, NoText);
    PostNotCaching(post);
    IpAverages();
    IpRateFirst(post);
    IpRateSecond(post);
    total1, average1 := post.TotalReviews(false), post.AverageRating(false);
    IpRerate(post);
    total2, average2 := post.TotalReviews(false), post.AverageRating(false);
    IpRateThird(post);
    during := |post.reviews|;
    IpUnreviewThird(post);
    total3, average3 := post.TotalReviews(false), post.AverageRating(false);
  }

  // ----- Refused reviews -----

  /** The configuration of articles: ratings 1, 2 and 3, IPs refused. */
  const ArticleConfig := Config([1.0, 2.0, 3.0], 1, false, ["accounts", "users"], CustomReviewClass("Review", false))

  /** An IP reviewer is refused on articles, which do not accept IPs. */
  method ArticleRefusesIp() returns (result: Result<Review, ReviewError>)
    ensures result == Failure(InvalidReviewer(IpDisabled))
  {
    var article := new Reviewable(Ref("ReviewableArticle", 1), ArticleConfig, PostAttributes, ReviewColumns, DottedDigits, NoText);
    IpResolves("128.0.0.0", Int(1), None, false);
    result := article.Review(RatedInput(Text("128.0.0.0"), Int(1), None), 0);
  }

  /** The ratings the post tests use: 1, 2.5 and 3 are in the posts' scale, 6 is not. */
  lemma PostRatings()
    ensures 1.0 in PostConfig.scale && 2.5 in PostConfig.scale && 3.0 in PostConfig.scale
    ensures 6.0 !in PostConfig.scale
  {
    var s := PostConfig.scale;
    assert s[0] == 1.0 && s[3] == 2.5 && s[4] == 3.0;
    assert forall i :: 0 <= i < |s| ==> s[i] <= 5.0;
  }

  /** A rating of 6 is outside the posts' scale: the review is invalid and nothing is stored. */
  method PostRefusesSix() returns (result: Result<Review, ReviewError>, count: int)
    ensures result == Failure(RecordInvalid([RatingNotInScale])) && count == 0
  {
    var post := new Reviewable(PostRef, PostConfig, PostAttributes, ReviewColumns, DottedDigits, NoText);
    RecordResolves("User", 1, Int(6), None, true, DottedDigits);
    PostRatings();
    RatedPlan(post.ref, post.config, post.reviews, Record("User", 1), Int(6), None, DottedDigits, 0);
    result := post.Review(RatedInput(Record("User", 1), Int(6), None), 0);
    count := |post.reviews|;
  }

  // ----- The cache columns -----

  /** The columns of a cached reviewable post: both counters. */
  const CachedAttributes: set<string> := {"id", "ratings_total", "ratings_count", "created_at", "updated_at"}

  /** The configuration of cached posts: ratings 1 to 5, precision 2, IPs accepted, the review class MyReview. */
  const CachedConfig := Config([1.0, 2.0, 3.0, 4.0, 5.0], 2, true, ["users"], CustomReviewClass("MyReview", false))

  const CachedRef := Ref("CachedReviewablePost", 1)

  /** A cached reviewable post of the test schema. */
  ghost predicate CachedSetup(x: Reviewable) {
    && x.ref == CachedRef && x.config == CachedConfig && x.attributeNames == CachedAttributes
    && x.columns == ReviewColumns && x.isIp == DottedDigits && x.toF == NoText
  }

  /** A cached post keeps its counters. */
  lemma CachedIsCaching(x: Reviewable)
    requires x.attributeNames == CachedAttributes
    ensures x.Caching()
  {
    CachingDefault(CachedAttributes);
  }

  /** The four reviewers of the cache tests: two users and two IP addresses. */
  const UserTwo := Account("User", 2)
  const UserOne := Account("User", 1)
  const HostOne := Ip("127.0.0.1")
  const HostTwo := Ip("192.0.0.1")

  /** A cached post's review with a rating and a body. */
  function CachedReview(who: Identity, rating: real, body: string, now: int): Review {
    Review(CachedRef, who, Some(rating), Some(body), map[], now)
  }

  /** Every whole rating from 1 to 5 is in the cached posts' scale. */
  lemma InCachedScale(v: int)
    requires 1 <= v <= 5
    ensures v as real in CachedConfig.scale
  {
    assert CachedConfig.scale[v - 1] == v as real;
  }

  /** None of the first `n` reviews, up to three, is by `who`. */
  lemma NoneOfFirst(s: seq<Review>, who: Identity)
    requires |s| <= 3
    requires |s| > 0 ==> s[0].reviewer != who
    requires |s| > 1 ==> s[1].reviewer != who
    requires |s| > 2 ==> s[2].reviewer != who
    ensures forall j :: 0 <= j < |s| ==> s[j].reviewer != who
  {
  }

  /** The first user rates `v` with the body "hi". */
  method CachedFirst(post: Reviewable, v: int)
    requires post.Valid() && CachedSetup(post) && post.InStep() && post.reviews == []
    requires 1 <= v <= 5
    modifies post
    ensures post.Valid() && post.InStep() && post.reviews == [CachedReview(UserTwo, v as real, "hi", 0)]
    ensures post.ratingsTotal == old(post.ratingsTotal) + v && post.ratingsCount == old(post.ratingsCount) + 1
  {
    CachedIsCaching(post);
    InCachedScale(v);
    NoneOfFirst(post.reviews, UserTwo);
    RecordResolves("User", 2, Int(v), Some("hi"), true, DottedDigits);
    RateNew(post, Record("User", 2), Int(v), Some("hi"), 0, UserTwo);
  }

  /** The second user rates `v` with the body "hello". */
  method CachedSecond(post: Reviewable, v: int, ghost a: Review)
    requires post.Valid() && CachedSetup(post) && post.InStep() && post.reviews == [a] && a.reviewer == UserTwo
    requires 1 <= v <= 5
    modifies post
    ensures post.Valid() && post.InStep() && post.reviews == [a, CachedReview(UserOne, v as real, "hello", 1)]
    ensures post.ratingsTotal == old(post.ratingsTotal) + v && post.ratingsCount == old(post.ratingsCount) + 1
  {
    CachedIsCaching(post);
    InCachedScale(v);
    NoneOfFirst(post.reviews, UserOne);
    RecordResolves("User", 1, Int(v), Some("hello"), true, DottedDigits);
    RateNew(post, Record("User", 1), Int(v), Some("hello"), 1, UserOne);
  }

  /** The address 127.0.0.1 rates `v` with the body "what's up". */
  method CachedThird(post: Reviewable, v: int, ghost a: Review, ghost b: Review)
    requires post.Valid() && CachedSetup(post) && post.InStep() && post.reviews == [a, b]
    requires a.reviewer == UserTwo && b.reviewer == UserOne
    requires 1 <= v <= 5
    modifies post
    ensures post.Valid() && post.InStep() && post.reviews == [a, b, CachedReview(HostOne, v as real, "what's up", 2)]
    ensures post.ratingsTotal == old(post.ratingsTotal) + v && post.ratingsCount == old(post.ratingsCount) + 1
  {
    CachedIsCaching(post);
    InCachedScale(v);
    NoneOfFirst(post.reviews, HostOne);
    IpResolves("127.0.0.1", Int(v), Some("what's up"), true);
    RateNew(post, Text("127.0.0.1"), Int(v), Some("what's up"), 2, HostOne);
  }

  /** The addresses of the cache tests differ in their second character. */
  lemma HostsDiffer()
    ensures "127.0.0.1" != "192.0.0.1"
  {
    assert "127.0.0.1"[1] == '2' && "192.0.0.1"[1] == '9';
  }

  /** The address 192.0.0.1 rates `v` with the body "wat up". */
  method CachedFourth(post: Reviewable, v: int, ghost a: Review, ghost b: Review, ghost c: Review)
    requires post.Valid() && CachedSetup(post) && post.InStep() && post.reviews == [a, b, c]
    requires a.reviewer == UserTwo && b.reviewer == UserOne && c.reviewer == HostOne
    requires 1 <= v <= 5
    modifies post
    ensures post.Valid() && post.InStep() && post.reviews == [a, b, c, CachedReview(HostTwo, v as real, "wat up", 3)]
    ensures post.ratingsTotal == old(post.ratingsTotal) + v && post.ratingsCount == old(post.ratingsCount) + 1
  {
    CachedIsCaching(post);
    InCachedScale(v);
    HostsDiffer();
    NoneOfFirst(post.reviews, HostTwo);
    IpResolves("192.0.0.1", Int(v), Some("wat up"), true);
    RateNew(post, Text("192.0.0.1"), Int(v), Some("wat up"), 3, HostTwo);
  }

  /** The reviews of the counter test, rated 4, 1, 5 and 2. */
  const CounterReviews := [CachedReview(UserTwo, 4.0, "hi", 0), CachedReview(UserOne, 1.0, "hello", 1),
                           CachedReview(HostOne, 5.0, "what's up", 2), CachedReview(HostTwo, 2.0, "wat up", 3)]

  /** A new cached post reviewed by the two users: 2 reviews and a total of 5. */
  method CachedTwo() returns (post: Reviewable)
    ensures fresh(post) && post.Valid() && CachedSetup(post) && post.InStep()
    ensures post.reviews == [CounterReviews[0], CounterReviews[1]] && post.ratingsCount == 2 && post.ratingsTotal == 5
  {
    post := new Reviewable(CachedRef, CachedConfig, CachedAttributes, ReviewColumns, DottedDigits, NoText);
    CachedFirst(post, 4);
    CachedSecond(post, 1, CounterReviews[0]);
  }

  /** A new cached post reviewed four times: 4 reviews and a total of 12. */
  method CachedFour() returns (post: Reviewable)
    ensures fresh(post) && post.Valid() && CachedSetup(post) && post.InStep()
    ensures post.reviews == CounterReviews && post.ratingsCount == 4 && post.ratingsTotal == 12
  {
    post := CachedTwo();
    CachedThird(post, 5, CounterReviews[0], CounterReviews[1]);
    CachedFourth(post, 2, CounterReviews[0], CounterReviews[1], CounterReviews[2]);
  }

  /**
   * Four reviews rated 4, 1, 5 and 2 leave the counters at 4 and 12;
   * destroying the third takes them to 3 and 7. The cached total_reviews is
   * ratings_total, 12, where the recalculated one is 4; before and after the
   * destroy, ratings_total is the truncated sum of the stored ratings.
   */
  method CachedCountersRun() returns (count4: int, total4: int, cachedTotalReviews: int, liveTotalReviews: int,
                                      truncated4: int, count3: int, total3: int, truncated3: int)
    ensures count4 == 4 && total4 == 12
    ensures cachedTotalReviews == 12 && liveTotalReviews == 4
    ensures count3 == 3 && total3 == 7
    ensures truncated4 == total4 && truncated3 == total3
  {
    var post := CachedFour();
    CachedIsCaching(post);
    post.CachedCounters();
    count4, total4 := post.ratingsCount, post.ratingsTotal;
    cachedTotalReviews, liveTotalReviews := post.TotalReviews(false), post.TotalReviews(true);
    truncated4 := TruncSum(post.reviews);
    post.DestroyReview(2);
    post.CachedCounters();
    count3, total3 := post.ratingsCount, post.ratingsTotal;
    truncated3 := TruncSum(post.reviews);
  }

  /** `{:by => user 2, :body => "hi"}`: a review with a body and no rating. */
  const BodyOnlyInput := map["by" := Record("User", 2), "body" := Text("hi")]

  /** On a new cached post, the body-only review is valid for a class without presence validation, and is new. */
  lemma BodyOnlyPlan()
    ensures WellTyped(BodyOnlyInput)
    ensures Plan(CachedRef, CachedConfig, [], BodyOnlyInput, ReviewColumns, DottedDigits, NoText, 0) ==
      Success((Review(CachedRef, UserTwo, None, Some("hi"), map[], 0), None))
  {
    CandidateOrder(BodyOnlyInput);
    assert "by" in BodyOnlyInput;
    assert ReviewValues(BodyOnlyInput) == BodyOnlyInput;
    assert ExtraValues(BodyOnlyInput, ReviewColumns) == map[];
  }

  /**
   * A cached post reviewed once without a rating holds one review, and
   * ratings_count is 1, but reviewed? is false: total_reviews reads the
   * rating total, which is 0.
   */
  method CachedBodyOnlyRun() returns (stored: int, count: int, reviewed: bool)
    ensures stored == 1 && count == 1 && !reviewed
  {
    var post := new Reviewable(CachedRef, CachedConfig, CachedAttributes, ReviewColumns, DottedDigits, NoText);
    CachedIsCaching(post);
    BodyOnlyPlan();
    var res := post.Review(BodyOnlyInput, 0);
    post.UnratedIsNotReviewed();
    stored, count, reviewed := |post.reviews|, post.ratingsCount, post.Reviewed();
  }

  /** 13 over 3, rounded to two places, is 4.33. */
  lemma ThirteenThirds()
    ensures CachedAverage(13, 3, 2) == 4.33
  {
    var y := (13.0 / 3.0) * Pow10(2) + 0.5;
    assert Pow10(2) == 100.0;
    assert 433.0 <= y < 434.0;
    assert y.Floor == 433;
  }

  /** Reviews rated 5, 5 and 3 give the cached average 4.33, which the recalculated average agrees with. */
  method CachedAverageRun() returns (average: real, recalculated: real)
    ensures average == 4.33 && recalculated == average
  {
    var post := CachedThree();
    CachedIsCaching(post);
    ThirteenThirds();
    average := post.AverageRating(false);
    WholeRatings(post.reviews);
    post.CachedAverageAgrees();
    recalculated := post.AverageRating(true);
  }

  /** A new cached post reviewed three times, rated 5, 5 and 3: 3 reviews and a total of 13. */
  method CachedThree() returns (post: Reviewable)
    ensures fresh(post) && post.Valid() && CachedSetup(post) && post.InStep()
    ensures post.reviews == [CachedReview(UserTwo, 5.0, "hi", 0), CachedReview(UserOne, 5.0, "hello", 1),
                             CachedReview(HostOne, 3.0, "what's up", 2)]
    ensures post.ratingsCount == 3 && post.ratingsTotal == 13
  {
    post := new Reviewable(CachedRef, CachedConfig, CachedAttributes, ReviewColumns, DottedDigits, NoText);
    CachedFirst(post, 5);
    CachedSecond(post, 5, CachedReview(UserTwo, 5.0, "hi", 0));
    CachedThird(post, 3, CachedReview(UserTwo, 5.0, "hi", 0), CachedReview(UserOne, 5.0, "hello", 1));
  }

  /** The ratings 5, 5 and 3 are whole numbers. */
  lemma WholeRatings(s: seq<Review>)
    requires s == [CachedReview(UserTwo, 5.0, "hi", 0), CachedReview(UserOne, 5.0, "hello", 1),
                   CachedReview(HostOne, 3.0, "what's up", 2)]
    ensures AllIntegral(s)
  {
    assert (5.0).Floor == 5 && (3.0).Floor == 3;
  }
}
