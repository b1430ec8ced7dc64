/**
 * A reviewable object: its reviews, the optional cache columns
 * `ratings_total` and `ratings_count` that the review class's create and
 * destroy hooks keep, and the read and write operations `is_reviewable`
 * gives it.
 */
module IsReviewable {
  import opened Wrappers
  import opened Values
  import opened Reviewer
  import opened Reviews
  import opened Scale
  import opened Aggregates
  import opened Upsert

  /** CACHABLE_FIELDS. */
  const CachableFields: seq<string> := ["ratings_total", "ratings_count"]

  /** Every field named is a column. */
  predicate AllPresent(attributeNames: set<string>, fields: seq<string>) {
    forall i :: 0 <= i < |fields| ==> fields[i] in attributeNames
  }

  /** `reviewable_caching_fields?(*fields)`: every field asked for (by default the cachable ones) is a column. */
  predicate CachingFieldsPresent(attributeNames: set<string>, fields: seq<string>) {
    if fields == [] then AllPresent(attributeNames, CachableFields) else AllPresent(attributeNames, fields)
  }

  /** With no fields named, the cache is on exactly when both counter columns exist. */
  lemma CachingDefault(attributeNames: set<string>)
    ensures CachingFieldsPresent(attributeNames, []) <==>
      "ratings_total" in attributeNames && "ratings_count" in attributeNames
  {
    var fs := CachableFields;
    assert |fs| == 2 && fs[0] == "ratings_total" && fs[1] == "ratings_count";
    if "ratings_total" in attributeNames && "ratings_count" in attributeNames {
      forall i | 0 <= i < |fs|
        ensures fs[i] in attributeNames
      {
        if i == 0 {
          assert fs[i] == "ratings_total";
        } else {
          assert fs[i] == "ratings_count";
        }
      }
    }
  }

  /** The guard `reviewable_caching_fields?(:field)` for a single field. */
  lemma SingleField(attributeNames: set<string>, f: string)
    ensures CachingFieldsPresent(attributeNames, [f]) <==> f in attributeNames
  {
    assert [f][0] == f;
  }

  /**
   * `update_cache!` and `init_reviewable_caching_fields` ask for columns
   * outside CACHABLE_FIELDS; on a schema without them every one of their
   * guards is false, so they change nothing.
   */
  lemma CacheMaintenanceInert(attributeNames: set<string>)
    requires "total_reviews" !in attributeNames && "average_rating" !in attributeNames
    requires "cached_total_reviews" !in attributeNames
    ensures !CachingFieldsPresent(attributeNames, ["total_reviews"])
    ensures !CachingFieldsPresent(attributeNames, ["average_rating"])
    ensures !CachingFieldsPresent(attributeNames, ["cached_total_reviews"])
  {
    SingleField(attributeNames, "total_reviews");
    SingleField(attributeNames, "average_rating");
    SingleField(attributeNames, "cached_total_reviews");
  }

  /** Why `unreview!` fails: the reviewer does not resolve, or has no review to remove. */
  datatype UnreviewError = UnreviewInvalid(reason: ReviewerError) | NotReviewed

  /**
   * What every stored review of a reviewable satisfies: one per reviewer,
   * linked to the reviewable, valid for its class and scale, and without
   * associative fields among its extra columns.
   */
  predicate ReviewsValid(s: seq<Review>, ref: Ref, cfg: Config) {
    && UniqueReviewers(s)
    && (forall i :: 0 <= i < |s| ==> s[i].reviewable == ref && ValidationErrors(cfg, s[i]) == [])
    && (forall i, k :: 0 <= i < |s| && k in s[i].extras ==> k !in AssociativeFields)
  }

  /** The collection without its `i`th review. */
  function RemoveAt(s: seq<Review>, i: nat): (t: seq<Review>)
    requires i < |s|
    ensures |t| == |s| - 1
    ensures forall j :: 0 <= j < |t| ==> t[j] == s[if j < i then j else j + 1]
  {
    s[..i] + s[i + 1..]
  }

  /** Removing a review keeps the others valid. */
  lemma RemovePreservesValid(s: seq<Review>, ref: Ref, cfg: Config, i: nat)
    requires ReviewsValid(s, ref, cfg) && i < |s|
    ensures ReviewsValid(RemoveAt(s, i), ref, cfg)
  {
    var t := RemoveAt(s, i);
    forall a, b | 0 <= a < b < |t|
      ensures t[a].reviewer != t[b].reviewer
    {
      assert t[a] == s[if a < i then a else a + 1];
      assert t[b] == s[if b < i then b else b + 1];
    }
  }

  /** Removing the same position from the reviews and their recorded contributions keeps the two in step. */
  lemma RemoveKeepsStep(rec: seq<int>, s: seq<Review>, i: nat)
    requires |rec| == |s| && i < |s|
    requires forall j :: 0 <= j < |s| ==> rec[j] == Contribution(s[j])
    ensures var t := RemoveAt(s, i);
      forall j :: 0 <= j < |t| ==> (rec[..i] + rec[i + 1..])[j] == Contribution(t[j])
  {
  }

  /**
   * A new reviewer's review is the last one stored, and removing it again
   * gives back the collection as it was.
   */
  lemma ReviewThenUnreview(s: seq<Review>, r: Review)
    requires FindReview(s, r.reviewer).None?
    ensures FindReview(Store(s, r, None), r.reviewer) == Some(|s|)
    ensures RemoveAt(Store(s, r, None), |s|) == s
  {
    var t := s + [r];
    assert t == Store(s, r, None);
    assert t[|s|] == r;
    var f := FindReview(t, r.reviewer);
    assert f.Some?;
    assert t[..|s|] == s;
  }

  /**
   * Storing a review keeps every review valid when it is valid itself, it
   * replaces its reviewer's review or is new and linked here, and any
   * associative field among its extras was already on the review it replaces.
   */
  lemma StorePreservesValid(s: seq<Review>, ref: Ref, cfg: Config, r: Review)
    requires ReviewsValid(s, ref, cfg) && ValidationErrors(cfg, r) == []
    requires var found := FindReview(s, r.reviewer);
      && (found.Some? ==> r.reviewable == s[found.value].reviewable)
      && (found.None? ==> r.reviewable == ref)
      && (forall k :: k in r.extras && k in AssociativeFields ==> found.Some? && k in s[found.value].extras)
    ensures ReviewsValid(Store(s, r, FindReview(s, r.reviewer)), ref, cfg)
  {
    var found := FindReview(s, r.reviewer);
    StorePreservesUnique(s, r);
    var t := Store(s, r, found);
    forall j | 0 <= j < |t|
      ensures t[j].reviewable == ref && ValidationErrors(cfg, t[j]) == []
    {
      if found.Some? && j == found.value {
        assert t[j] == r;
      } else if j < |s| {
        assert t[j] == s[j];
      } else {
        assert t[j] == r;
      }
    }
    forall j, k | 0 <= j < |t| && k in t[j].extras
      ensures k !in AssociativeFields
    {
      if found.Some? && j == found.value {
        assert t[j] == r;
      } else if j < |s| {
        assert t[j] == s[j];
      } else {
        assert t[j] == r;
      }
    }
  }

  class Reviewable {
    /** This object's reviewable_type and id. */
    const ref: Ref
    /** The class's `is_reviewable_options` after rewriting. */
    const config: Config
    /** This object's column names. */
    const attributeNames: set<string>
    /** The review class's attribute names. */
    const columns: set<string>
    /** `Support.is_ip?` on text. */
    const isIp: string -> bool
    /** The rating column's conversion of text. */
    const toF: string -> Option<real>

    /** The reviews of this object, in table order. */
    var reviews: seq<Review>
    var ratingsTotal: int
    var ratingsCount: int

    /** What each review contributed to ratings_total when it was created. */
    ghost var recorded: seq<int>
    /** What destroying re-rated reviews has put out of step between ratings_total and `recorded`. */
    ghost var drift: int

    /** `reviewable_caching_fields?`: both counter columns exist. */
    predicate Caching() {
      CachingFieldsPresent(attributeNames, [])
    }

    ghost predicate Valid()
      reads this
    {
      && ReviewsValid(reviews, ref, config)
      && |recorded| == |reviews|
      && (Caching() ==> ratingsCount == |reviews| && ratingsTotal == SumInts(recorded) + drift)
    }

    /**
     * The cache is in step with the reviews: each review's recorded
     * contribution is its current one, and no destroyed review has left
     * a gap. Re-rating a review to another whole part is what breaks it.
     */
    ghost predicate InStep()
      reads this
    {
      && drift == 0 && |recorded| == |reviews|
      && forall i :: 0 <= i < |reviews| ==> recorded[i] == Contribution(reviews[i])
    }

    /** A new object: no reviews, and counters at their column default 0. */
    constructor (ref: Ref, config: Config, attributeNames: set<string>, columns: set<string>,
                 isIp: string -> bool, toF: string -> Option<real>)
      ensures Valid()
      ensures this.ref == ref && this.config == config && this.attributeNames == attributeNames
      ensures this.columns == columns && this.isIp == isIp && this.toF == toF
      ensures reviews == [] && ratingsTotal == 0 && ratingsCount == 0 && drift == 0 && recorded == []
      ensures InStep()
    {
      this.ref := ref;
      this.config := config;
      this.attributeNames := attributeNames;
      this.columns := columns;
      this.isIp := isIp;
      this.toF := toF;
      reviews := [];
      ratingsTotal := 0;
      ratingsCount := 0;
      recorded := [];
      drift := 0;
    }

    // ----- The review class's hooks -----

    /** after_create: add the new review's truncated rating and one review to the counters. */
    method AfterCreate(r: Review)
      modifies this
      ensures reviews == old(reviews) && drift == old(drift)
      ensures recorded == old(recorded) + [Contribution(r)]
      ensures Caching() ==> ratingsTotal == old(ratingsTotal) + Contribution(r) && ratingsCount == old(ratingsCount) + 1
      ensures !Caching() ==> ratingsTotal == old(ratingsTotal) && ratingsCount == old(ratingsCount)
    {
      if Caching() {
        ratingsTotal := ratingsTotal + Contribution(r);
        ratingsCount := ratingsCount + 1;
      }
      recorded := recorded + [Contribution(r)];
    }

    /** before_destroy: take the review's current truncated rating and one review off the counters. */
    method BeforeDestroy(i: nat)
      requires i < |reviews|
      modifies this
      ensures reviews == old(reviews)
      ensures old(i < |recorded|) ==>
        recorded == old(recorded[..i] + recorded[i + 1..]) && drift == old(drift + recorded[i] - Contribution(reviews[i]))
      ensures Caching() ==>
        ratingsTotal == old(ratingsTotal) - Contribution(old(reviews[i])) && ratingsCount == old(ratingsCount) - 1
      ensures !Caching() ==> ratingsTotal == old(ratingsTotal) && ratingsCount == old(ratingsCount)
    {
      var c := Contribution(reviews[i]);
      if Caching() {
        ratingsTotal := ratingsTotal - c;
        ratingsCount := ratingsCount - 1;
      }
      if i < |recorded| {
        drift := drift + recorded[i] - c;
        recorded := recorded[..i] + recorded[i + 1..];
      }
    }

    // ----- Writing -----

    /**
     * review!: build the reviewer's review (updating the existing one or
     * starting a new one), validate it, and save it. Only a new review runs
     * the create hook; updating one leaves the counters alone.
     */
    method Review(input: map<string, Value>, now: int) returns (result: Result<Review, ReviewError>)
      requires Valid() && WellTyped(input)
      modifies this
      ensures Valid()
      ensures var p := Plan(ref, config, old(reviews), input, columns, isIp, toF, now);
        && (p.Failure? ==>
              && result == Failure(p.error) && reviews == old(reviews)
              && ratingsTotal == old(ratingsTotal) && ratingsCount == old(ratingsCount))
        && (p.Success? ==>
              && result == Success(p.value.0)
              && reviews == Store(old(reviews), p.value.0, p.value.1))
        && (p.Success? && p.value.1.Some? ==> ratingsTotal == old(ratingsTotal) && ratingsCount == old(ratingsCount))
        && (p.Success? && p.value.1.None? && Caching() ==>
              ratingsTotal == old(ratingsTotal) + Contribution(p.value.0) && ratingsCount == old(ratingsCount) + 1)
        && (!Caching() ==> ratingsTotal == old(ratingsTotal) && ratingsCount == old(ratingsCount))
        && drift == old(drift)
        && (p.Failure? || p.value.1.Some? ==> recorded == old(recorded))
        && (p.Success? && p.value.1.None? ==> recorded == old(recorded) + [Contribution(p.value.0)])
        && (var keepsStep := p.Failure? || p.value.1.None? || Contribution(p.value.0) == Contribution(old(reviews)[p.value.1.value]);
            old(InStep()) && keepsStep ==> InStep())
    {
      var p := Plan(ref, config, reviews, input, columns, isIp, toF, now);
      if p.Failure? {
        return Failure(p.error);
      }
      var (r, found) := p.value;
      PlanTarget(ref, config, reviews, input, columns, isIp, toF, now);
      PlanOutcomes(ref, config, reviews, input, columns, isIp, toF, now);
      Save(r);
      result := Success(r);
    }

    /**
     * save! of a validated review: it replaces the reviewer's stored review,
     * or is appended and the create hook runs.
     */
    method Save(r: Review)
      requires Valid() && ValidationErrors(config, r) == []
      requires var found := FindReview(reviews, r.reviewer);
        && (found.Some? ==> r.reviewable == reviews[found.value].reviewable)
        && (found.None? ==> r.reviewable == ref)
        && (forall k :: k in r.extras && k in AssociativeFields ==> found.Some? && k in reviews[found.value].extras)
      modifies this
      ensures Valid()
      ensures reviews == Store(old(reviews), r, FindReview(old(reviews), r.reviewer))
      ensures FindReview(old(reviews), r.reviewer).Some? ==>
        ratingsTotal == old(ratingsTotal) && ratingsCount == old(ratingsCount)
      ensures FindReview(old(reviews), r.reviewer).None? && Caching() ==>
        ratingsTotal == old(ratingsTotal) + Contribution(r) && ratingsCount == old(ratingsCount) + 1
      ensures !Caching() ==> ratingsTotal == old(ratingsTotal) && ratingsCount == old(ratingsCount)
      ensures drift == old(drift)
      ensures FindReview(old(reviews), r.reviewer).Some? ==> recorded == old(recorded)
      ensures FindReview(old(reviews), r.reviewer).None? ==> recorded == old(recorded) + [Contribution(r)]
      ensures var found := FindReview(old(reviews), r.reviewer);
        old(InStep()) && (found.None? || Contribution(r) == Contribution(old(reviews)[found.value])) ==> InStep()
    {
      var found := FindReview(reviews, r.reviewer);
      StorePreservesValid(reviews, ref, config, r);
      if found.Some? {
        reviews := reviews[found.value := r];
      } else {
        reviews := reviews + [r];
        SumIntsAppend(recorded, [Contribution(r)]);
        AfterCreate(r);
      }
    }

    /** Review#destroy on the `i`th review: the destroy hook runs, then the review is gone. */
    method DestroyReview(i: nat)
      requires Valid() && i < |reviews|
      modifies this
      ensures Valid()
      ensures reviews == RemoveAt(old(reviews), i)
      ensures Caching() ==>
        ratingsTotal == old(ratingsTotal) - Contribution(old(reviews[i])) && ratingsCount == old(ratingsCount) - 1
      ensures !Caching() ==> ratingsTotal == old(ratingsTotal) && ratingsCount == old(ratingsCount)
      ensures recorded == old(recorded[..i] + recorded[i + 1..]) && drift == old(drift + recorded[i] - Contribution(reviews[i]))
      ensures old(InStep()) ==> InStep()
    {
      if Caching() {
        SumIntsRemove(recorded, i);
      }
      if InStep() {
        RemoveKeepsStep(recorded, reviews, i);
      }
      BeforeDestroy(i);
      RemovePreservesValid(reviews, ref, config, i);
      reviews := RemoveAt(reviews, i);
    }

    /**
     * unreview!: destroy the reviewer's review; fails when the reviewer does
     * not resolve or has no review. The cache update that follows touches
     * only columns this schema lacks.
     */
    method Unreview(ids: map<string, Value>) returns (result: Result<(), UnreviewError>)
      requires Valid()
      modifies this
      ensures Valid()
      ensures Resolve(ids, config.acceptIp, isIp).Failure? ==>
        && result == Failure(UnreviewInvalid(Resolve(ids, config.acceptIp, isIp).error))
        && reviews == old(reviews) && ratingsTotal == old(ratingsTotal) && ratingsCount == old(ratingsCount)
        && recorded == old(recorded) && drift == old(drift)
      ensures Resolve(ids, config.acceptIp, isIp).Success? ==>
        var found := FindReview(old(reviews), Resolve(ids, config.acceptIp, isIp).value);
        && (found.None? ==>
              && result == Failure(NotReviewed)
              && reviews == old(reviews) && ratingsTotal == old(ratingsTotal) && ratingsCount == old(ratingsCount)
              && recorded == old(recorded) && drift == old(drift))
        && (found.Some? ==>
              && result == Success(())
              && reviews == RemoveAt(old(reviews), found.value)
              && (Caching() ==>
                    && ratingsTotal == old(ratingsTotal) - Contribution(old(reviews)[found.value])
                    && ratingsCount == old(ratingsCount) - 1)
              && (!Caching() ==> ratingsTotal == old(ratingsTotal) && ratingsCount == old(ratingsCount))
              && recorded == old(recorded[..found.value] + recorded[found.value + 1..])
              && drift == old(drift + recorded[found.value] - Contribution(reviews[found.value])))
      ensures old(InStep()) ==> InStep()
    {
      var who := Resolve(ids, config.acceptIp, isIp);
      if who.Failure? {
        return Failure(UnreviewInvalid(who.error));
      }
      var found := FindReview(reviews, who.value);
      if found.None? {
        return Failure(NotReviewed);
      }
      DestroyReview(found.value);
      result := Success(());
    }

    // ----- Reading -----

    /** total_reviews: `ratings_total` from the cache (not `ratings_count`), or the live count of reviews. */
    function TotalReviews(recalculate: bool): int
      reads this
    {
      if !recalculate && Caching() then ratingsTotal else |reviews|
    }

    /** average_rating: the cached quotient, or the live mean of the non-nil ratings, rounded to the precision. */
    function AverageRating(recalculate: bool): real
      reads this
      requires !recalculate && Caching() ==> ratingsCount != 0
    {
      if !recalculate && Caching() then CachedAverage(ratingsTotal, ratingsCount, config.precision)
      else LiveAverage(reviews, config.precision)
    }

    /** reviewed?: whether total_reviews is positive. */
    predicate Reviewed()
      reads this
    {
      TotalReviews(false) > 0
    }

    /** review_by: the reviewer's review of this object, if any. */
    function ReviewBy(ids: map<string, Value>): (r: Result<Option<Review>, ReviewerError>)
      reads this
      ensures r.Failure? <==> Resolve(ids, config.acceptIp, isIp).Failure?
      ensures r.Success? && r.value.Some? ==>
        r.value.value in reviews && r.value.value.reviewer == Resolve(ids, config.acceptIp, isIp).value
      ensures r.Success? && r.value.None? ==>
        forall i :: 0 <= i < |reviews| ==> reviews[i].reviewer != Resolve(ids, config.acceptIp, isIp).value
    {
      match Resolve(ids, config.acceptIp, isIp)
      case Failure(e) => Failure(e)
      case Success(who) =>
        var found := FindReview(reviews, who);
        if found.Some? then Success(Some(reviews[found.value])) else Success(None)
    }

    /** reviewed_by?: whether the reviewer has a review of this object. */
    function ReviewedBy(ids: map<string, Value>): (r: Result<bool, ReviewerError>)
      reads this
      ensures r.Failure? <==> Resolve(ids, config.acceptIp, isIp).Failure?
      ensures r.Success? ==>
        (r.value <==> exists i :: 0 <= i < |reviews| && reviews[i].reviewer == Resolve(ids, config.acceptIp, isIp).value)
    {
      match Resolve(ids, config.acceptIp, isIp)
      case Failure(e) => Failure(e)
      case Success(who) => Success(FindReview(reviews, who).Some?)
    }

    /** average_rating_by: the rounded mean rating of the reviewer's reviews of this object. */
    function AverageRatingBy(ids: map<string, Value>): Result<real, ReviewerError>
      reads this
    {
      match Resolve(ids, config.acceptIp, isIp)
      case Failure(e) => Failure(e)
      case Success(who) => Success(LiveAverage(ReviewsBy(reviews, who), config.precision))
    }

    // ----- What the reads mean -----

    /** The live count is the number of distinct reviewers, each with one review. */
    lemma LiveTotalIsReviewerCount()
      requires Valid()
      ensures TotalReviews(true) == |reviews| == |ReviewerSet(reviews)|
      ensures forall i, j :: 0 <= i < j < |reviews| ==> reviews[i].reviewer != reviews[j].reviewer
    {
      DistinctReviewers(reviews);
    }

    /**
     * While the cache is in step (no review was re-rated to another whole
     * part; review!, unreview! and destroy keep it so otherwise), it holds the number of reviews and the sum of their truncated
     * ratings, and the cached total_reviews is that sum rather than the count.
     */
    lemma CachedCounters()
      requires Valid() && Caching() && InStep()
      ensures ratingsCount == |reviews| && ratingsTotal == TruncSum(reviews)
      ensures TotalReviews(false) == TruncSum(reviews) && TotalReviews(true) == |reviews|
    {
      RecordedIsTruncSum(recorded, reviews);
    }

    /** A reviewer's average is the rounded rating of their one review, or 0.0 without a rated one. */
    lemma AverageRatingByOwn(ids: map<string, Value>)
      requires Valid()
      ensures Resolve(ids, config.acceptIp, isIp).Failure? ==> AverageRatingBy(ids).Failure?
      ensures Resolve(ids, config.acceptIp, isIp).Success? ==>
        var found := FindReview(reviews, Resolve(ids, config.acceptIp, isIp).value);
        AverageRatingBy(ids) == Success(
          if found.Some? && reviews[found.value].rating.Some?
          then RoundTo(reviews[found.value].rating.value, config.precision)
          else 0.0)
    {
      if Resolve(ids, config.acceptIp, isIp).Success? {
        OwnAverage(reviews, Resolve(ids, config.acceptIp, isIp).value, config.precision);
      }
    }

    /** The live average of a reviewable lies within any bounds of its scale that rounding keeps. */
    lemma LiveAverageInScale(lo: real, hi: real)
      requires Valid()
      requires forall v :: v in config.scale ==> lo <= v <= hi
      requires RoundTo(lo, config.precision) == lo && RoundTo(hi, config.precision) == hi
      ensures RatedCount(reviews) == 0 ==> AverageRating(true) == 0.0
      ensures RatedCount(reviews) > 0 ==> lo <= AverageRating(true) <= hi
    {
      forall i | 0 <= i < |reviews| && reviews[i].rating.Some?
        ensures lo <= reviews[i].rating.value <= hi
      {
        assert ValidationErrors(config, reviews[i]) == [];
      }
      LiveAverageWithin(reviews, config.precision, lo, hi);
    }

    /**
     * For whole-number ratings present on every review, while the cache is
     * in step, the cached average equals the recalculated one.
     */
    lemma CachedAverageAgrees()
      requires Valid() && Caching() && InStep() && reviews != []
      requires AllIntegral(reviews)
      ensures AverageRating(false) == AverageRating(true)
    {
      RecordedIsTruncSum(recorded, reviews);
      CachedMatchesLive(reviews, ratingsTotal, ratingsCount, config.precision);
    }

    /** A cached reviewable whose reviews carry no rating counts as not reviewed, whatever it holds. */
    lemma UnratedIsNotReviewed()
      requires Valid() && Caching() && InStep()
      requires forall i :: 0 <= i < |reviews| ==> reviews[i].rating.None?
      ensures !Reviewed()
    {
      RecordedIsTruncSum(recorded, reviews);
      NoRatingsNoTotal(reviews);
    }
  }

  /**
   * review! by a reviewer who has not reviewed the object yet, then
   * unreview! by the same identifiers, leaves the object as it was: its
   * reviews, both counters and their ghost bookkeeping.
   */
  method ReviewUndone(x: Reviewable, input: map<string, Value>, now: int)
    requires x.Valid() && WellTyped(input)
    requires Resolve(input, x.config.acceptIp, x.isIp).Success?
    requires FindReview(x.reviews, Resolve(input, x.config.acceptIp, x.isIp).value).None?
    modifies x
    ensures x.Valid()
    ensures x.reviews == old(x.reviews) && x.ratingsTotal == old(x.ratingsTotal) && x.ratingsCount == old(x.ratingsCount)
    ensures x.recorded == old(x.recorded) && x.drift == old(x.drift)
  {
    ghost var s := x.reviews;
    ghost var who := Resolve(input, x.config.acceptIp, x.isIp).value;
    ghost var p := Plan(x.ref, x.config, s, input, x.columns, x.isIp, x.toF, now);
    if p.Success? {
      PlanTarget(x.ref, x.config, s, input, x.columns, x.isIp, x.toF, now);
      ReviewThenUnreview(s, p.value.0);
    }
    var reviewed := x.Review(input, now);
    var unreviewed := x.Unreview(input);
    if p.Success? {
      assert x.recorded == old(x.recorded + [Contribution(p.value.0)])[..|s|];
    }
  }

  /** The reviewers who have reviewed. */
  function ReviewerSet(s: seq<Review>): set<Identity> {
    set i | 0 <= i < |s| :: s[i].reviewer
  }

  /** With one review per reviewer there are as many reviewers as reviews. */
  lemma {:induction false} DistinctReviewers(s: seq<Review>)
    requires UniqueReviewers(s)
    ensures |ReviewerSet(s)| == |s|
  {
    if s != [] {
      var n := |s| - 1;
      var t := s[..n];
      assert forall i :: 0 <= i < n ==> t[i] == s[i];
      DistinctReviewers(t);
      var last := s[n].reviewer;
      assert ReviewerSet(s) == ReviewerSet(t) + {last} by {
        forall x | x in ReviewerSet(s)
          ensures x in ReviewerSet(t) + {last}
        {
          var i :| 0 <= i < |s| && s[i].reviewer == x;
          if i < n {
            assert t[i].reviewer == x;
          }
        }
        forall x | x in ReviewerSet(t)
          ensures x in ReviewerSet(s)
        {
          var i :| 0 <= i < n && t[i].reviewer == x;
          assert s[i].reviewer == x;
        }
        assert s[n].reviewer == last;
      }
      assert last !in ReviewerSet(t);
    }
  }

  /** With one review per reviewer, a reviewer's live average is the rounded rating of that review, or 0.0. */
  lemma OwnAverage(s: seq<Review>, who: Identity, p: int)
    requires UniqueReviewers(s)
    ensures var found := FindReview(s, who);
      LiveAverage(ReviewsBy(s, who), p) ==
        if found.Some? && s[found.value].rating.Some? then RoundTo(s[found.value].rating.value, p) else 0.0
  {
    ReviewsByFound(s, who);
    var found := FindReview(s, who);
    if found.Some? {
      var r := s[found.value];
      AggregatesSingle(r);
      assert RatingOf(r) / 1.0 == RatingOf(r);
    }
  }

  /** Recorded contributions that match the reviews sum to their truncated total. */
  lemma {:induction false} RecordedIsTruncSum(recorded: seq<int>, s: seq<Review>)
    requires |recorded| == |s| && forall i :: 0 <= i < |s| ==> recorded[i] == Contribution(s[i])
    ensures SumInts(recorded) == TruncSum(s)
  {
    if s != [] {
      RecordedIsTruncSum(recorded[1..], s[1..]);
    }
  }

  /** Reviews without a rating contribute nothing to the total. */
  lemma {:induction false} NoRatingsNoTotal(s: seq<Review>)
    requires forall i :: 0 <= i < |s| ==> s[i].rating.None?
    ensures TruncSum(s) == 0
  {
    if s != [] {
      NoRatingsNoTotal(s[1..]);
    }
  }
}
