/**
 * The review record of is_reviewable (lib/is_reviewable/review.rb): its
 * reserved and content field lists, its presence validation, and its named
 * scopes, which filter or order a collection of reviews.
 */
module Reviews {
  import opened Wrappers
  import opened Values
  import opened Reviewer

  /** The reviewable a review belongs to: reviewable_type and reviewable_id. */
  datatype Ref = Ref(refType: string, id: int)

  /**
   * One review row. The reviewer link is an Identity, so a row carries either
   * reviewer_id/reviewer_type or ip. `extras` holds any further columns the
   * caller set (e.g. title).
   */
  datatype Review = Review(
    reviewable: Ref,
    reviewer: Identity,
    rating: Option<real>,
    body: Option<string>,
    extras: map<string, Value>,
    createdAt: int)

  /** ASSOCIATIVE_FIELDS: the linkage columns a caller may never set. */
  const AssociativeFields: seq<string> := ["reviewable_id", "reviewable_type", "reviewer_id", "reviewer_type", "ip"]

  /** CONTENT_FIELDS. */
  const ContentFields: seq<string> := ["rating", "body"]

  /** The two field lists have no name in common. */
  lemma FieldListsDisjoint()
    ensures forall i, j :: 0 <= i < |AssociativeFields| && 0 <= j < |ContentFields| ==>
      AssociativeFields[i] != ContentFields[j]
    ensures |AssociativeFields| == 5 && |ContentFields| == 2
  {
  }

  /** The row as the table stores it: extra columns, content columns and the linkage columns. */
  function Row(r: Review): map<string, Value> {
    var link := match r.reviewer
      case Account(t, n) => map["reviewer_id" := Int(n), "reviewer_type" := Text(t), "ip" := Nil]
      case Ip(a) => map["reviewer_id" := Nil, "reviewer_type" := Nil, "ip" := Text(a)];
    r.extras
      + map["rating" := (if r.rating.Some? then Num(r.rating.value) else Nil),
            "body" := (if r.body.Some? then Text(r.body.value) else Nil),
            "created_at" := Int(r.createdAt),
            "reviewable_id" := Int(r.reviewable.id),
            "reviewable_type" := Text(r.reviewable.refType)]
      + link
  }

  /** A row names its reviewer by reviewer_id and reviewer_type, or by ip, and never by both. */
  lemma RowLinkage(r: Review)
    ensures var row := Row(r);
      && "reviewer_id" in row && "reviewer_type" in row && "ip" in row
      && (row["reviewer_id"] == Nil <==> row["reviewer_type"] == Nil)
      && (row["ip"] == Nil <==> row["reviewer_id"] != Nil)
  {
  }

  /** A SQL equality condition: every column it names holds the given value. */
  predicate Matches(row: map<string, Value>, cond: map<string, Value>) {
    forall k :: k in cond ==> k in row && row[k] == cond[k]
  }

  /** reviewable_conditions: the row's reviewable_id and reviewable_type. */
  function ReviewableConditions(ref: Ref): map<string, Value> {
    map["reviewable_id" := Int(ref.id), "reviewable_type" := Text(ref.refType)]
  }

  /** Looking a row up by reviewer_conditions finds exactly the rows of that reviewer. */
  lemma ReviewerConditionsSelect(r: Review, who: Identity)
    ensures Matches(Row(r), Conditions(who)) <==> r.reviewer == who
  {
    var row := Row(r);
    if Matches(row, Conditions(who)) {
      match who
      case Account(t, n) =>
        assert row["reviewer_id"] == Int(n) && row["reviewer_type"] == Text(t);
      case Ip(a) =>
        assert row["ip"] == Text(a);
    }
  }

  /** reviewer_conditions(identifiers), when the identifiers resolve, select exactly the rows of the resolved reviewer. */
  lemma ConditionsForSelect(ids: map<string, Value>, acceptIp: bool, isIp: string -> bool, r: Review)
    requires ConditionsFor(ids, acceptIp, isIp).Success?
    ensures Matches(Row(r), ConditionsFor(ids, acceptIp, isIp).value) <==> r.reviewer == Resolve(ids, acceptIp, isIp).value
  {
    ReviewerConditionsSelect(r, Resolve(ids, acceptIp, isIp).value);
  }

  /** Looking rows up by reviewable_conditions finds exactly the reviews of that reviewable. */
  lemma ReviewableConditionsSelect(r: Review, ref: Ref)
    ensures Matches(Row(r), ReviewableConditions(ref)) <==> r.reviewable == ref
  {
    var row := Row(r);
    if Matches(row, ReviewableConditions(ref)) {
      assert row["reviewable_id"] == Int(ref.id);
      assert row["reviewable_type"] == Text(ref.refType);
    }
  }

  /** validates_presence_of :body, :rating, which the default review class declares. */
  predicate PresenceValid(r: Review) {
    r.rating.Some? && r.body.Some? && !Blank(Text(r.body.value))
  }

  // ----- Filter scopes -----

  /** The reviews of `s` that satisfy `p`, in their order in `s`. */
  function Filter(s: seq<Review>, p: Review -> bool): (r: seq<Review>)
    ensures |r| <= |s|
    ensures forall i :: 0 <= i < |r| ==> p(r[i])
    ensures forall x :: p(x) ==> multiset(r)[x] == multiset(s)[x]
    ensures forall x :: !p(x) ==> multiset(r)[x] == 0
  {
    if s == [] then []
    else
      var rest := Filter(s[1..], p);
      assert s == [s[0]] + s[1..];
      if p(s[0]) then [s[0]] + rest else rest
  }

  /** A predicate and its negation split a collection: together they are a permutation of it. */
  lemma FilterPartition(s: seq<Review>, p: Review -> bool, q: Review -> bool)
    requires forall x :: q(x) == !p(x)
    ensures multiset(Filter(s, p)) + multiset(Filter(s, q)) == multiset(s)
    ensures |Filter(s, p)| + |Filter(s, q)| == |s|
  {
    var a, b := Filter(s, p), Filter(s, q);
    assert forall x :: (multiset(a) + multiset(b))[x] == multiset(s)[x] by {
      forall x ensures (multiset(a) + multiset(b))[x] == multiset(s)[x] {
        if p(x) { assert !q(x); } else { assert q(x); }
      }
    }
    assert multiset(a) + multiset(b) == multiset(s);
    assert |multiset(a) + multiset(b)| == |multiset(s)|;
  }

  /** Filtering keeps the order: the filter of a concatenation is the concatenation of the filters. */
  lemma {:induction false} FilterAppend(a: seq<Review>, b: seq<Review>, p: Review -> bool)
    ensures Filter(a + b, p) == Filter(a, p) + Filter(b, p)
  {
    if a == [] {
      assert a + b == b;
    } else {
      assert (a + b)[0] == a[0] && (a + b)[1..] == a[1..] + b;
      FilterAppend(a[1..], b, p);
    }
  }

  /** Filtering twice keeps exactly the reviews that pass both filters. */
  lemma {:induction false} FilterFilter(s: seq<Review>, p: Review -> bool, q: Review -> bool, pq: Review -> bool)
    requires forall x :: pq(x) == (p(x) && q(x))
    ensures Filter(Filter(s, p), q) == Filter(s, pq)
  {
    if s != [] {
      FilterFilter(s[1..], p, q, pq);
    }
  }

  predicate HasRating(r: Review) { r.rating.Some? }
  predicate HasNoRating(r: Review) { r.rating.None? }
  /** `body IS NOT NULL AND LENGTH(body) > 0` */
  predicate HasBody(r: Review) { r.body.Some? && |r.body.value| > 0 }
  /** `body IS NULL OR LENGTH(body) = 0` */
  predicate HasNoBody(r: Review) { r.body.None? || |r.body.value| == 0 }
  predicate IsComplete(r: Review) { r.rating.Some? && r.body.Some? && |r.body.value| > 0 }

  function WithARating(s: seq<Review>): seq<Review> { Filter(s, HasRating) }
  function WithoutARating(s: seq<Review>): seq<Review> { Filter(s, HasNoRating) }
  function WithABody(s: seq<Review>): seq<Review> { Filter(s, HasBody) }
  function WithoutABody(s: seq<Review>): seq<Review> { Filter(s, HasNoBody) }
  function Complete(s: seq<Review>): seq<Review> { Filter(s, IsComplete) }

  /** with_a_rating and without_a_rating partition every collection. */
  lemma RatingPartition(s: seq<Review>)
    ensures multiset(WithARating(s)) + multiset(WithoutARating(s)) == multiset(s)
    ensures forall x :: x in WithARating(s) <==> x in s && x.rating.Some?
    ensures forall x :: x in WithoutARating(s) <==> x in s && x.rating.None?
  {
    FilterPartition(s, HasRating, HasNoRating);
    FilterMembership(s, HasRating);
    FilterMembership(s, HasNoRating);
  }

  /** with_a_body and without_a_body partition every collection. */
  lemma BodyPartition(s: seq<Review>)
    ensures multiset(WithABody(s)) + multiset(WithoutABody(s)) == multiset(s)
    ensures forall x :: x in WithABody(s) <==> x in s && x.body.Some? && |x.body.value| > 0
  {
    FilterPartition(s, HasBody, HasNoBody);
    FilterMembership(s, HasBody);
  }

  /** complete is with_a_rating followed by with_a_body. */
  lemma CompleteIsRatedWithBody(s: seq<Review>)
    ensures Complete(s) == WithABody(WithARating(s))
  {
    FilterFilter(s, HasRating, HasBody, IsComplete);
  }

  lemma FilterMembership(s: seq<Review>, p: Review -> bool)
    ensures forall x :: x in Filter(s, p) <==> x in s && p(x)
  {
    forall x ensures x in Filter(s, p) <==> x in s && p(x) {
      assert x in Filter(s, p) <==> multiset(Filter(s, p))[x] > 0;
      assert x in s <==> multiset(s)[x] > 0;
    }
  }

  /** since(t): `created_at >= t`. */
  function Since(s: seq<Review>, t: int): (r: seq<Review>)
    ensures forall x :: x in r <==> x in s && x.createdAt >= t
  {
    FilterMembership(s, (x: Review) => x.createdAt >= t);
    Filter(s, (x: Review) => x.createdAt >= t)
  }

  /** between_dates(a, b): `created_at` in the range a..b. */
  function BetweenDates(s: seq<Review>, a: int, b: int): (r: seq<Review>)
    ensures forall x :: x in r <==> x in s && a <= x.createdAt <= b
    ensures a > b ==> r == []
  {
    FilterMembership(s, (x: Review) => a <= x.createdAt <= b);
    Filter(s, (x: Review) => a <= x.createdAt <= b)
  }

  /** with_rating(v): `rating = v`. */
  function WithRating(s: seq<Review>, v: real): (r: seq<Review>)
    ensures forall x :: x in r <==> x in s && x.rating == Some(v)
  {
    FilterMembership(s, (x: Review) => x.rating == Some(v));
    Filter(s, (x: Review) => x.rating == Some(v))
  }

  /** with_rating(lo..hi): `rating BETWEEN lo AND hi`; with_rating(lo...hi): `rating >= lo AND rating < hi`. */
  function WithRatingIn(s: seq<Review>, lo: real, hi: real, exclusive: bool): (r: seq<Review>)
    ensures forall x :: x in r <==> x in s && x.rating.Some? && lo <= x.rating.value && Below(x.rating.value, hi, exclusive)
  {
    FilterMembership(s, (x: Review) => x.rating.Some? && lo <= x.rating.value && Below(x.rating.value, hi, exclusive));
    Filter(s, (x: Review) => x.rating.Some? && lo <= x.rating.value && Below(x.rating.value, hi, exclusive))
  }

  /** The upper end of a range condition: `< hi` for an exclusive range, `<= hi` otherwise. */
  predicate Below(v: real, hi: real, exclusive: bool) {
    if exclusive then v < hi else v <= hi
  }

  /** with_rating(nil): `rating IS NULL`. */
  function WithNilRating(s: seq<Review>): (r: seq<Review>)
    ensures forall x :: x in r <==> x in s && x.rating.None?
  {
    FilterMembership(s, HasNoRating);
    Filter(s, HasNoRating)
  }

  /** with_rating([v1, v2, ...]): `rating IN (v1, v2, ...)`, which no NULL rating satisfies. */
  function WithRatingAmong(s: seq<Review>, vs: seq<real>): (r: seq<Review>)
    ensures forall x :: x in r <==> x in s && x.rating.Some? && x.rating.value in vs
  {
    FilterMembership(s, (x: Review) => x.rating.Some? && x.rating.value in vs);
    Filter(s, (x: Review) => x.rating.Some? && x.rating.value in vs)
  }

  /** limit(n): the first n reviews, or all of them when there are fewer. */
  function Limit(s: seq<Review>, n: nat): (r: seq<Review>)
    ensures |r| <= n && |r| <= |s|
    ensures r == s[..|r|]
    ensures |r| == n || r == s
  {
    if n < |s| then s[..n] else s
  }

  // ----- Order scopes -----

  predicate Sorted(s: seq<Review>, le: (Review, Review) -> bool) {
    forall i, j :: 0 <= i < j < |s| ==> le(s[i], s[j])
  }

  ghost predicate TotalPreorder(le: (Review, Review) -> bool) {
    && (forall x, y :: le(x, y) || le(y, x))
    && (forall x, y, z :: le(x, y) && le(y, z) ==> le(x, z))
  }

  /** `x` inserted into sorted `s` before the first element it must precede. */
  function Insert(x: Review, s: seq<Review>, le: (Review, Review) -> bool): (r: seq<Review>)
    ensures multiset(r) == multiset(s) + multiset{x}
    ensures |r| == |s| + 1
  {
    if s == [] || le(x, s[0]) then [x] + s
    else
      assert s == [s[0]] + s[1..];
      [s[0]] + Insert(x, s[1..], le)
  }

  /** Insertion sort: the ORDER BY of a scope, for a total preorder `le`. */
  function SortBy(s: seq<Review>, le: (Review, Review) -> bool): (r: seq<Review>)
    ensures multiset(r) == multiset(s)
    ensures |r| == |s|
  {
    if s == [] then []
    else
      assert s == [s[0]] + s[1..];
      Insert(s[0], SortBy(s[1..], le), le)
  }

  lemma {:induction false} InsertSorted(x: Review, s: seq<Review>, le: (Review, Review) -> bool)
    requires TotalPreorder(le)
    requires Sorted(s, le)
    ensures Sorted(Insert(x, s, le), le)
  {
    if s == [] || le(x, s[0]) {
      var r := [x] + s;
      forall i, j | 0 <= i < j < |r| ensures le(r[i], r[j]) {
        if i == 0 { assert r[j] == s[j - 1]; if j > 1 { assert le(s[0], s[j - 1]); } }
        else { assert r[i] == s[i - 1] && r[j] == s[j - 1]; }
      }
    } else {
      var t := Insert(x, s[1..], le);
      InsertSorted(x, s[1..], le);
      assert le(s[0], x);
      var r := [s[0]] + t;
      assert multiset(t) == multiset(s[1..]) + multiset{x};
      forall k | 0 <= k < |t| ensures le(s[0], t[k]) {
        assert t[k] in multiset(t);
        if t[k] != x {
          assert t[k] in multiset(s[1..]);
          var m :| 0 <= m < |s[1..]| && s[1..][m] == t[k];
          assert s[1..][m] == s[m + 1];
        }
      }
      forall i, j | 0 <= i < j < |r| ensures le(r[i], r[j]) {
        if i == 0 { assert r[j] == t[j - 1]; }
        else { assert r[i] == t[i - 1] && r[j] == t[j - 1]; }
      }
    }
  }

  /** A sort is ordered by its key and holds exactly the reviews it was given. */
  lemma {:induction false} SortBySorted(s: seq<Review>, le: (Review, Review) -> bool)
    requires TotalPreorder(le)
    ensures Sorted(SortBy(s, le), le)
    ensures multiset(SortBy(s, le)) == multiset(s)
  {
    if s != [] {
      SortBySorted(s[1..], le);
      InsertSorted(s[0], SortBy(s[1..], le), le);
    }
  }

  /** `rating ASC`; a NULL rating sorts first, as in SQLite. */
  predicate RatingLe(a: Review, b: Review) {
    a.rating.None? || (b.rating.Some? && a.rating.value <= b.rating.value)
  }

  predicate RatingGe(a: Review, b: Review) { RatingLe(b, a) }
  predicate CreatedLe(a: Review, b: Review) { a.createdAt <= b.createdAt }
  predicate CreatedGe(a: Review, b: Review) { a.createdAt >= b.createdAt }

  function LowestRating(s: seq<Review>): seq<Review> { SortBy(s, RatingLe) }
  function HighestRating(s: seq<Review>): seq<Review> { SortBy(s, RatingGe) }
  function InOrder(s: seq<Review>): seq<Review> { SortBy(s, CreatedLe) }
  function MostRecent(s: seq<Review>): seq<Review> { SortBy(s, CreatedGe) }

  /** lowest_rating and highest_rating order by rating, upwards and downwards, and only reorder. */
  lemma RatingOrders(s: seq<Review>)
    ensures Sorted(LowestRating(s), RatingLe) && multiset(LowestRating(s)) == multiset(s)
    ensures Sorted(HighestRating(s), RatingGe) && multiset(HighestRating(s)) == multiset(s)
  {
    SortBySorted(s, RatingLe);
    SortBySorted(s, RatingGe);
  }

  /** in_order and most_recent order by created_at, oldest first and newest first, and only reorder. */
  lemma DateOrders(s: seq<Review>)
    ensures Sorted(InOrder(s), CreatedLe) && multiset(InOrder(s)) == multiset(s)
    ensures Sorted(MostRecent(s), CreatedGe) && multiset(MostRecent(s)) == multiset(s)
    ensures forall i, j :: 0 <= i < j < |InOrder(s)| ==> InOrder(s)[i].createdAt <= InOrder(s)[j].createdAt
  {
    SortBySorted(s, CreatedLe);
    SortBySorted(s, CreatedGe);
  }
}
