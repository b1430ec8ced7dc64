/**
 * What `review!` does before it saves: `build_review` resolves the reviewer,
 * looks for that reviewer's review of this object (`review_by`), assigns the
 * caller's values to it or to a new review linked to this object and
 * reviewer, and the review class validates the result.
 */
module Upsert {
  import opened Wrappers
  import opened Values
  import opened Reviewer
  import opened Reviews
  import opened Scale

  /** The validation errors an invalid review carries, in the order the validations run. */
  datatype ValidationError = BodyBlank | RatingBlank | RatingNotInScale

  /** Why `review!` raises: InvalidReviewerError, or ActiveRecord::RecordInvalid with its errors. */
  datatype ReviewError = InvalidReviewer(reason: ReviewerError) | RecordInvalid(errors: seq<ValidationError>)

  /**
   * Columns a caller's value never reaches in the model: `id`, which mass
   * assignment protects by default, and `updated_at`, which no operation
   * reads and the model leaves out.
   */
  const UnassignedColumns: set<string> := {"id", "updated_at"}

  /** At most one review per reviewer. */
  predicate UniqueReviewers(s: seq<Review>) {
    forall i, j :: 0 <= i < j < |s| ==> s[i].reviewer != s[j].reviewer
  }

  /** `find(:first, :conditions => reviewer_conditions)`: the position of the first review by `who`. */
  function FindReview(s: seq<Review>, who: Identity): (r: Option<nat>)
    ensures r.Some? ==> r.value < |s| && s[r.value].reviewer == who
    ensures r.Some? ==> forall j :: 0 <= j < r.value ==> s[j].reviewer != who
    ensures r.None? <==> forall j :: 0 <= j < |s| ==> s[j].reviewer != who
  {
    if s == [] then None
    else if s[0].reviewer == who then Some(0)
    else
      match FindReview(s[1..], who)
      case None => None
      case Some(k) => Some(k + 1)
  }

  /** With one review per reviewer, the search for the `i`th review's reviewer finds that review. */
  lemma FindUnique(s: seq<Review>, i: nat)
    requires UniqueReviewers(s) && i < |s|
    ensures FindReview(s, s[i].reviewer) == Some(i)
  {
    var f := FindReview(s, s[i].reviewer);
    assert f.Some? && s[f.value].reviewer == s[i].reviewer;
  }

  /** The reviews written by `who`. */
  function ReviewsBy(s: seq<Review>, who: Identity): seq<Review> {
    Filter(s, (x: Review) => x.reviewer == who)
  }

  /** With one review per reviewer, a reviewer has the review `FindReview` finds, or none. */
  lemma {:induction false} ReviewsByFound(s: seq<Review>, who: Identity)
    requires UniqueReviewers(s)
    ensures FindReview(s, who).None? ==> ReviewsBy(s, who) == []
    ensures FindReview(s, who).Some? ==> ReviewsBy(s, who) == [s[FindReview(s, who).value]]
  {
    if s != [] {
      assert UniqueReviewers(s[1..]) by {
        forall i, j | 0 <= i < j < |s[1..]|
          ensures s[1..][i].reviewer != s[1..][j].reviewer
        {
          assert s[1..][i] == s[i + 1] && s[1..][j] == s[j + 1];
        }
      }
      ReviewsByFound(s[1..], who);
      if s[0].reviewer == who {
        assert FindReview(s[1..], who).None? by {
          forall j | 0 <= j < |s[1..]|
            ensures s[1..][j].reviewer != who
          {
            assert s[1..][j] == s[j + 1];
          }
        }
      }
    }
  }

  /** `identifiers_and_options.except(*ASSOCIATIVE_FIELDS)`. */
  function ReviewValues(input: map<string, Value>): (r: map<string, Value>)
    ensures forall k :: k in r <==> k in input && k !in AssociativeFields
    ensures forall k :: k in r ==> r[k] == input[k]
  {
    map k | k in input && k !in AssociativeFields :: input[k]
  }

  /** Values the float `rating` column can take from a caller: nil, numbers and text. */
  predicate RatingCastable(v: Value) {
    v.Nil? || v.Int? || v.Num? || v.Text?
  }

  /** Values the text `body` column takes from a caller: nil and text. */
  predicate BodyCastable(v: Value) {
    v.Nil? || v.Text?
  }

  /** The caller's content values have column-compatible types, and a given creation time is a time. */
  predicate WellTyped(input: map<string, Value>) {
    && ("rating" in input ==> RatingCastable(input["rating"]))
    && ("body" in input ==> BodyCastable(input["body"]))
    && ("created_at" in input ==> input["created_at"].Int?)
  }

  /** The rating column's reading of a value; `toF` is the column's conversion of text. */
  function CastRating(v: Value, toF: string -> Option<real>): Option<real>
    requires RatingCastable(v)
  {
    match v
    case Int(i) => Some(i as real)
    case Num(x) => Some(x)
    case Text(s) => toF(s)
    case _ => None
  }

  function CastBody(v: Value): Option<string>
    requires BodyCastable(v)
  {
    if v.Text? then Some(v.s) else None
  }

  /** The extra columns a caller sets: the review's own attribute names other than content, creation time and unassigned ones. */
  function ExtraValues(values: map<string, Value>, columns: set<string>): map<string, Value> {
    map k | k in values && k in columns && k !in UnassignedColumns && k != "rating" && k != "body" && k != "created_at" :: values[k]
  }

  /**
   * `review.attributes = review_values.slice(*review.attribute_names)`: the
   * values for the review's columns replace the old ones; what the caller
   * does not mention stays as it was. A given `created_at` is kept, also on
   * a new review, since the timestamp is only filled in when it is nil.
   */
  function Assign(base: Review, values: map<string, Value>, columns: set<string>, toF: string -> Option<real>): (r: Review)
    requires "rating" in values ==> RatingCastable(values["rating"])
    requires "body" in values ==> BodyCastable(values["body"])
    requires "created_at" in values ==> values["created_at"].Int?
    ensures r.reviewable == base.reviewable && r.reviewer == base.reviewer
    ensures r.createdAt == (if "created_at" in values && "created_at" in columns then values["created_at"].i else base.createdAt)
    ensures r.rating == (if "rating" in values && "rating" in columns then CastRating(values["rating"], toF) else base.rating)
    ensures r.body == (if "body" in values && "body" in columns then CastBody(values["body"]) else base.body)
    ensures forall k :: k in r.extras <==> k in base.extras || k in ExtraValues(values, columns)
    ensures forall k :: k in ExtraValues(values, columns) ==> r.extras[k] == values[k]
    ensures forall k :: k in base.extras && k !in ExtraValues(values, columns) ==> r.extras[k] == base.extras[k]
  {
    base.(
      rating := if "rating" in values && "rating" in columns then CastRating(values["rating"], toF) else base.rating,
      body := if "body" in values && "body" in columns then CastBody(values["body"]) else base.body,
      extras := base.extras + ExtraValues(values, columns),
      createdAt := if "created_at" in values && "created_at" in columns then values["created_at"].i else base.createdAt)
  }

  /** `reviews.build`: a review of `ref` by `who`, with nothing set yet. */
  function Fresh(ref: Ref, who: Identity, now: int): Review {
    Review(ref, who, None, None, map[], now)
  }

  /**
   * The review class's validations, in order: presence of body and rating
   * (declared by the default class and inherited by its subclasses), then
   * membership of a non-nil rating in the reviewable's scale.
   */
  function ValidationErrors(cfg: Config, r: Review): (errs: seq<ValidationError>)
    ensures errs == [] <==>
      (DeclaresPresence(cfg.reviewClass) ==> PresenceValid(r)) && (r.rating.Some? ==> r.rating.value in cfg.scale)
    ensures RatingNotInScale in errs <==> r.rating.Some? && r.rating.value !in cfg.scale
    ensures !DeclaresPresence(cfg.reviewClass) ==> BodyBlank !in errs && RatingBlank !in errs
  {
    var presence :=
      if DeclaresPresence(cfg.reviewClass) then
        (if r.body.None? || Blank(Text(r.body.value)) then [BodyBlank] else [])
        + (if r.rating.None? then [RatingBlank] else [])
      else [];
    presence + (if r.rating.Some? && r.rating.value !in cfg.scale then [RatingNotInScale] else [])
  }

  /**
   * `build_review` once the reviewer `who` is resolved: `who`'s review of
   * this object, or a new one created now, with the caller's values assigned.
   */
  function Built(ref: Ref, s: seq<Review>, input: map<string, Value>, columns: set<string>,
                 toF: string -> Option<real>, now: int, who: Identity): Review
    requires WellTyped(input)
  {
    var found := FindReview(s, who);
    var base := if found.Some? then s[found.value] else Fresh(ref, who, now);
    Assign(base, ReviewValues(input), columns, toF)
  }

  /**
   * `build_review` followed by the validation of `save!`: the review to
   * store and the position of the review it replaces, if any.
   */
  function Plan(ref: Ref, cfg: Config, s: seq<Review>, input: map<string, Value>, columns: set<string>,
                isIp: string -> bool, toF: string -> Option<real>, now: int): Result<(Review, Option<nat>), ReviewError>
    requires WellTyped(input)
  {
    match Resolve(input, cfg.acceptIp, isIp)
    case Failure(e) => Failure(InvalidReviewer(e))
    case Success(who) =>
      var r := Built(ref, s, input, columns, toF, now, who);
      var errs := ValidationErrors(cfg, r);
      if errs != [] then Failure(RecordInvalid(errs)) else Success((r, FindReview(s, who)))
  }

  /** Saving the planned review: replace the found review, or append the new one. */
  function Store(s: seq<Review>, r: Review, found: Option<nat>): seq<Review>
    requires found.Some? ==> found.value < |s|
  {
    if found.Some? then s[found.value := r] else s + [r]
  }

  // ----- What a planned review is -----

  /**
   * review! succeeds exactly when the reviewer resolves and the assigned
   * review passes validation; it fails with the reviewer error or with the
   * validation errors otherwise.
   */
  lemma PlanOutcomes(ref: Ref, cfg: Config, s: seq<Review>, input: map<string, Value>, columns: set<string>,
                     isIp: string -> bool, toF: string -> Option<real>, now: int)
    requires WellTyped(input)
    ensures var p := Plan(ref, cfg, s, input, columns, isIp, toF, now);
      && (forall e :: p == Failure(InvalidReviewer(e)) <==> Resolve(input, cfg.acceptIp, isIp) == Failure(e))
      && (p.Success? ==> Resolve(input, cfg.acceptIp, isIp).Success? && ValidationErrors(cfg, p.value.0) == [])
      && (p.Failure? && p.error.RecordInvalid? ==> p.error.errors != [])
      && (Resolve(input, cfg.acceptIp, isIp).Success? ==>
            var errs := ValidationErrors(cfg, Built(ref, s, input, columns, toF, now, Resolve(input, cfg.acceptIp, isIp).value));
            && (p.Success? <==> errs == [])
            && (p.Failure? ==> p.error == RecordInvalid(errs)))
  {
  }

  /**
   * A successful plan targets the reviewer's existing review when there is
   * one, keeping its links, and otherwise a new review of this object by
   * that reviewer; its creation time is the caller's `created_at` when given,
   * else the found review's, else now. Either way the rating is nil
   * or in the scale, the extras gain no associative field, and the reviewer
   * link is the resolved identity.
   */
  lemma PlanTarget(ref: Ref, cfg: Config, s: seq<Review>, input: map<string, Value>, columns: set<string>,
                   isIp: string -> bool, toF: string -> Option<real>, now: int)
    requires WellTyped(input)
    requires Plan(ref, cfg, s, input, columns, isIp, toF, now).Success?
    ensures var (r, found) := Plan(ref, cfg, s, input, columns, isIp, toF, now).value;
      && Resolve(input, cfg.acceptIp, isIp).Success?
      && r.reviewer == Resolve(input, cfg.acceptIp, isIp).value
      && found == FindReview(s, r.reviewer)
      && (found.Some? ==> r.reviewable == s[found.value].reviewable)
      && (found.None? ==> r.reviewable == ref)
      && r.createdAt == (if "created_at" in input && "created_at" in columns then input["created_at"].i
                         else if found.Some? then s[found.value].createdAt else now)
      && (r.rating.Some? ==> r.rating.value in cfg.scale)
      && (forall k :: k in r.extras && k in AssociativeFields ==> found.Some? && k in s[found.value].extras)
  {
  }

  /**
   * Associative fields in the caller's input other than `ip` change nothing:
   * they neither name the reviewer nor reach the review.
   */
  lemma ReservedKeysIgnored(ref: Ref, cfg: Config, s: seq<Review>, input: map<string, Value>, columns: set<string>,
                            isIp: string -> bool, toF: string -> Option<real>, now: int, k: string, v: Value)
    requires WellTyped(input) && |input| > 0
    requires k in AssociativeFields && k != "ip"
    ensures WellTyped(input[k := v])
    ensures Plan(ref, cfg, s, input[k := v], columns, isIp, toF, now) == Plan(ref, cfg, s, input, columns, isIp, toF, now)
  {
    var input' := input[k := v];
    assert ReviewValues(input') == ReviewValues(input);
    OtherKeyIgnored(input, k, v);
  }

  /** Storing a planned review keeps one review per reviewer and grows the collection only for a new reviewer. */
  lemma StorePreservesUnique(s: seq<Review>, r: Review)
    requires UniqueReviewers(s)
    ensures var found := FindReview(s, r.reviewer);
      && UniqueReviewers(Store(s, r, found))
      && |Store(s, r, found)| == |s| + (if found.Some? then 0 else 1)
      && r in Store(s, r, found)
      && (forall i :: 0 <= i < |s| && s[i].reviewer != r.reviewer ==> Store(s, r, found)[i] == s[i])
  {
    var found := FindReview(s, r.reviewer);
    var t := Store(s, r, found);
    if found.Some? {
      assert t[found.value] == r;
    } else {
      assert t[|s|] == r;
    }
  }

  /** A re-review: the same reviewer again updates its review and adds none. */
  lemma RepeatReviewKeepsCount(ref: Ref, cfg: Config, s: seq<Review>, input: map<string, Value>, columns: set<string>,
                               isIp: string -> bool, toF: string -> Option<real>, now: int)
    requires WellTyped(input) && UniqueReviewers(s)
    requires Plan(ref, cfg, s, input, columns, isIp, toF, now).Success?
    requires exists i :: 0 <= i < |s| && s[i].reviewer == Resolve(input, cfg.acceptIp, isIp).value
    ensures var (r, found) := Plan(ref, cfg, s, input, columns, isIp, toF, now).value;
      found.Some? && |Store(s, r, found)| == |s| && UniqueReviewers(Store(s, r, found))
  {
    var (r, found) := Plan(ref, cfg, s, input, columns, isIp, toF, now).value;
    PlanTarget(ref, cfg, s, input, columns, isIp, toF, now);
    StorePreservesUnique(s, r);
  }

  /** The classes given by `:by` play no part: any record resolves as a reviewer, and the plan ignores them. */
  lemma AnyRecordAccepted(ref: Ref, cfg: Config, s: seq<Review>, input: map<string, Value>, columns: set<string>,
                          isIp: string -> bool, toF: string -> Option<real>, now: int, types: seq<string>)
    requires WellTyped(input)
    ensures Plan(ref, cfg.(reviewerTypes := types), s, input, columns, isIp, toF, now) == Plan(ref, cfg, s, input, columns, isIp, toF, now)
    ensures |input| > 0 && Candidate(input).Record? ==>
      Resolve(input, cfg.acceptIp, isIp) == Success(Account(Candidate(input).recordType, Candidate(input).id))
  {
  }
}
