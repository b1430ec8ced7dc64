/**
 * The rating scale and precision that `is_reviewable` derives from its
 * options, before the class is set up: which option gives the scale, how
 * many steps a float range has when neither `:step` nor `:steps` is given,
 * how a float range is walked with its step, how any other scale becomes a
 * list of floats, and how the display precision is found.
 */
module Scale {
  import opened Wrappers

  /** A number as written in the options: an Integer, or a Float together with the text Ruby prints for it. */
  datatype Num = IntNum(i: int) | FloatNum(x: real, printed: string)

  function NumValue(n: Num): real {
    match n
    case IntNum(i) => i as real
    case FloatNum(x, _) => x
  }

  /** A scale option: a range `first..last` (or `first...last`) or an explicit array of numbers. */
  datatype RawScale = RangeOf(first: Num, last: Num, exclusive: bool) | ValuesOf(vs: seq<Num>)

  /** A precision option: an Integer, or anything else. */
  datatype PrecisionValue = IntPrecision(p: int) | NonIntPrecision

  /** The Fixnum range of a 64-bit Ruby 1.9: larger Integers are Bignums. */
  const FixnumMin: int := -0x4000_0000_0000_0000
  const FixnumMax: int := 0x3FFF_FFFF_FFFF_FFFF

  /** `is_a?(::Fixnum)`: an Integer within the Fixnum range. */
  predicate IsFixnum(v: PrecisionValue) {
    v.IntPrecision? && FixnumMin <= v.p <= FixnumMax
  }

  /**
   * The `:review_class` option: IsReviewable::Review, or another class, which
   * inherits the default class's presence validation when it subclasses it.
   */
  datatype ReviewClass = DefaultReviewClass | CustomReviewClass(name: string, inheritsPresence: bool)

  /** Whether the review class validates the presence of body and rating. */
  predicate DeclaresPresence(c: ReviewClass) {
    c.DefaultReviewClass? || c.inheritsPresence
  }

  /**
   * The options hash of `is_reviewable`; `None` is an absent key. For every
   * key but `:scale` and `:accept_ip` an explicit nil acts the same, since
   * those keys are read through `||`, `||=` or `blank?`; `reverse_merge!`
   * keeps an explicit nil for `:scale` and `:accept_ip`, which is not modelled.
   */
  datatype Options = Options(
    scale: Option<RawScale>,
    values: Option<RawScale>,
    range: Option<RawScale>,
    step: Option<real>,
    steps: Option<real>,
    totalPrecision: Option<PrecisionValue>,
    averagePrecision: Option<PrecisionValue>,
    acceptIp: Option<bool>,
    anonymous: Option<bool>,
    reviewerClasses: seq<string>,
    reviewClass: Option<ReviewClass>)

  /** The options a reviewable class keeps after `is_reviewable` has rewritten them. */
  datatype Config = Config(
    scale: seq<real>,
    precision: int,
    acceptIp: bool,
    reviewerTypes: seq<string>,
    reviewClass: ReviewClass)

  /**
   * Why `is_reviewable` raises: a method called on nil (an empty scale array),
   * `Float#step` with step 0, a step computed by dividing by zero (one step
   * only), or a precision that is not an Integer.
   */
  datatype ConfigError = NilReceiver | ZeroStep | NonFiniteStep | InvalidPrecision

  /** The default scale `1..5`. */
  const DefaultScale := RangeOf(IntNum(1), IntNum(5), false)

  // ----- Choosing the options -----

  /** `:scale`, else `:values`, else `:range`, else `1..5`. */
  function ChosenScale(o: Options): (r: RawScale)
    ensures o.scale.Some? ==> r == o.scale.value
    ensures o.scale.None? && o.values.Some? ==> r == o.values.value
    ensures o.scale.None? && o.values.None? && o.range.Some? ==> r == o.range.value
    ensures o.scale.None? && o.values.None? && o.range.None? ==> r == DefaultScale
  {
    if o.scale.Some? then o.scale.value
    else if o.values.Some? then o.values.value
    else if o.range.Some? then o.range.value
    else DefaultScale
  }

  /** `:accept_ip` when given, else whether `:anonymous` is true; false by default. */
  function AcceptIp(o: Options): bool {
    if o.acceptIp.Some? then o.acceptIp.value else o.anonymous == Some(true)
  }

  function ReviewClassOf(o: Options): ReviewClass {
    if o.reviewClass.Some? then o.reviewClass.value else DefaultReviewClass
  }

  /** `scale.first` of a range or an array; nil for an empty array. */
  function FirstBound(r: RawScale): Option<Num> {
    match r
    case RangeOf(first, _, _) => Some(first)
    case ValuesOf(vs) => if vs == [] then None else Some(vs[0])
  }

  /** `scale.last` of a range or an array; nil for an empty array. */
  function LastBound(r: RawScale): Option<Num> {
    match r
    case RangeOf(_, last, _) => Some(last)
    case ValuesOf(vs) => if vs == [] then None else Some(vs[|vs| - 1])
  }

  /**
   * The value of `:steps` once defaults are applied: `last - first + 1` when
   * neither `:step` nor `:steps` is given, which fails on the nil bounds of
   * an empty array; otherwise `:steps` as given.
   */
  function StepsOption(o: Options, r: RawScale): Result<Option<real>, ConfigError> {
    if o.step.None? && o.steps.None? then
      if FirstBound(r).Some? && LastBound(r).Some? then
        Success(Some(NumValue(LastBound(r).value) - NumValue(FirstBound(r).value) + 1.0))
      else
        Failure(NilReceiver)
    else
      Success(o.steps)
  }

  // ----- Precision -----

  function DigitChar(d: nat): char
    requires d < 10
  {
    "0123456789"[d]
  }

  /** The decimal digits of a natural number. */
  function Digits(n: nat): (s: string)
    ensures 1 <= |s|
    ensures forall i :: 0 <= i < |s| ==> '0' <= s[i] <= '9'
  {
    if n < 10 then [DigitChar(n)] else Digits(n / 10) + [DigitChar(n % 10)]
  }

  /** `Integer#to_s`. */
  function IntToString(i: int): string {
    if i < 0 then "-" + Digits(-i) else Digits(i)
  }

  /** `to_s` of the lower bound. */
  function Printed(n: Num): string {
    match n
    case IntNum(i) => IntToString(i)
    case FloatNum(_, printed) => printed
  }

  /** The text with its trailing dots removed (`split` drops trailing empty fields). */
  function DropTrailingDots(s: string): (t: string)
    ensures |t| <= |s|
  {
    if s == [] || s[|s| - 1] != '.' then s else DropTrailingDots(s[..|s| - 1])
  }

  /** The text after the last dot, or all of it when it has none. */
  function AfterLastDot(s: string): (t: string)
    ensures |t| <= |s|
  {
    if s == [] || s[|s| - 1] == '.' then [] else AfterLastDot(s[..|s| - 1]) + [s[|s| - 1]]
  }

  /** `s.split('.').last.size`; nil (and so an error) when every field is empty. */
  function PrecisionText(s: string): Option<int> {
    var t := DropTrailingDots(s);
    if t == [] then None else Some(|AfterLastDot(t)|)
  }

  /**
   * `:total_precision`, else `:average_precision`, else the precision read
   * off the printed lower bound; `nil.to_s` is empty, so an empty array fails.
   */
  function PrecisionOf(o: Options, r: RawScale): Result<PrecisionValue, ConfigError> {
    if o.totalPrecision.Some? then Success(o.totalPrecision.value)
    else if o.averagePrecision.Some? then Success(o.averagePrecision.value)
    else
      var text := if FirstBound(r).Some? then Printed(FirstBound(r).value) else "";
      match PrecisionText(text)
      case None => Failure(NilReceiver)
      case Some(k) => Success(IntPrecision(k))
  }

  // ----- Expanding the scale -----

  /** The step of a float range: `:step`, else `(last - first) / (steps - 1)`. */
  function StepOf(first: real, last: real, step: Option<real>, steps: Option<real>): Result<real, ConfigError> {
    if step.Some? then Success(step.value)
    else if steps.None? then Failure(NilReceiver)
    else if steps.value - 1.0 == 0.0 then Failure(NonFiniteStep)
    else Success((last - first) / (steps.value - 1.0))
  }

  /** How many values `first.step(last, step)` yields: `floor((last - first) / step) + 1`, or none. */
  function StepCount(first: real, last: real, step: real): nat
    requires step != 0.0
  {
    var k := ((last - first) / step).Floor + 1;
    if k < 0 then 0 else k
  }

  /** The first `n` values `first, first + step, ...`. */
  function FloatSteps(first: real, step: real, n: nat): seq<real> {
    seq(n, i => first + (i as real) * step)
  }

  /** Whether an Integer range with this last bound still contains `v`. */
  predicate Within(v: real, last: real, exclusive: bool) {
    if exclusive then v < last else v <= last
  }

  /** The largest Integer an Integer-started range with this last bound contains. */
  function TopInt(last: real, exclusive: bool): int {
    if exclusive && last.Floor as real == last then last.Floor - 1 else last.Floor
  }

  /** `(first..last).to_a` converted to floats. */
  function IntRangeValues(first: int, last: real, exclusive: bool): seq<real> {
    var n := TopInt(last, exclusive) - first + 1;
    seq(if n < 0 then 0 else n, i => (first + i) as real)
  }

  /** The array converted element by element with `to_f`. */
  function ToFloats(vs: seq<Num>): (r: seq<real>)
    ensures |r| == |vs|
    ensures forall i :: 0 <= i < |vs| ==> r[i] == NumValue(vs[i])
  {
    if vs == [] then [] else [NumValue(vs[0])] + ToFloats(vs[1..])
  }

  /**
   * The list of allowed ratings: a range whose first bound is a Float is
   * walked with its step (up to `last` whether or not the range excludes
   * it); any other scale is converted to floats.
   */
  function Expand(r: RawScale, step: Option<real>, steps: Option<real>): Result<seq<real>, ConfigError> {
    match r
    case RangeOf(FloatNum(first, _), last, _) =>
      (match StepOf(first, NumValue(last), step, steps)
       case Failure(e) => Failure(e)
       case Success(st) =>
         if st == 0.0 then Failure(ZeroStep)
         else Success(FloatSteps(first, st, StepCount(first, NumValue(last), st))))
    case RangeOf(IntNum(first), last, exclusive) => Success(IntRangeValues(first, NumValue(last), exclusive))
    case ValuesOf(vs) => Success(ToFloats(vs))
  }

  /** The whole rewriting of the options, in the order `is_reviewable` performs and checks it. */
  function ConfigOf(o: Options): Result<Config, ConfigError> {
    var raw := ChosenScale(o);
    match StepsOption(o, raw)
    case Failure(e) => Failure(e)
    case Success(steps) =>
      match PrecisionOf(o, raw)
      case Failure(e) => Failure(e)
      case Success(precision) =>
        match Expand(raw, o.step, steps)
        case Failure(e) => Failure(e)
        case Success(scale) =>
          if !IsFixnum(precision) then Failure(InvalidPrecision)
          else Success(Config(scale, precision.p, AcceptIp(o), o.reviewerClasses, ReviewClassOf(o)))
  }

  // ----- What the rewriting yields -----

  lemma MulMono(a: real, b: real, step: real)
    requires a <= b && step > 0.0
    ensures a * step <= b * step
  {
  }

  lemma MulStrict(a: real, b: real, step: real)
    requires a < b && step > 0.0
    ensures a * step < b * step
  {
    assert (b - a) * step > 0.0;
  }

  lemma DivSelf(d: real)
    requires d != 0.0
    ensures d / d == 1.0
  {
  }

  lemma DivMulCancel(d: real, step: real)
    requires step > 0.0
    ensures (d / step) * step == d
  {
  }

  /** The walked values increase strictly when the step is positive. */
  lemma FloatStepsIncreasing(first: real, step: real, n: nat)
    requires step > 0.0
    ensures forall i, j :: 0 <= i < j < n ==> FloatSteps(first, step, n)[i] < FloatSteps(first, step, n)[j]
  {
    var s := FloatSteps(first, step, n);
    forall i, j | 0 <= i < j < n
      ensures s[i] < s[j]
    {
      MulStrict(i as real, j as real, step);
    }
  }

  /** Every walked value stays at or below `last`. */
  lemma FloatStepsBelow(first: real, last: real, step: real)
    requires step > 0.0 && first <= last
    ensures forall i :: 0 <= i < StepCount(first, last, step) ==> FloatSteps(first, step, StepCount(first, last, step))[i] <= last
  {
    var q := (last - first) / step;
    var n := StepCount(first, last, step);
    var s := FloatSteps(first, step, n);
    assert n == q.Floor + 1;
    DivMulCancel(last - first, step);
    forall i | 0 <= i < n
      ensures s[i] <= last
    {
      assert i as real <= q;
      MulMono(i as real, q, step);
    }
  }

  /** One more step after the last walked value passes `last`. */
  lemma FloatStepsReachLast(first: real, last: real, step: real)
    requires step > 0.0 && first <= last
    ensures 1 <= StepCount(first, last, step)
    ensures last < FloatSteps(first, step, StepCount(first, last, step))[StepCount(first, last, step) - 1] + step
  {
    var q := (last - first) / step;
    DivMulCancel(last - first, step);
    assert 0.0 <= q by {
      if q < 0.0 {
        MulStrict(q, 0.0, step);
      }
    }
    var m := q.Floor;
    assert 0 <= m && q < m as real + 1.0;
    var n := StepCount(first, last, step);
    assert n == m + 1;
    MulStrict(q, m as real + 1.0, step);
    assert q * step == last - first;
    assert (m as real + 1.0) * step == (m as real) * step + step;
    assert last < first + (m as real) * step + step;
    assert FloatSteps(first, step, n)[n - 1] == first + (m as real) * step;
  }

  /**
   * A float range walked with a positive step, from a first bound no larger
   * than the last: it starts at `first`, strictly increases by `step`, stays
   * at or below `last`, and stops only when one more step would pass `last`.
   */
  lemma FloatStepsShape(first: real, last: real, step: real)
    requires step > 0.0 && first <= last
    ensures var s := FloatSteps(first, step, StepCount(first, last, step));
      && 1 <= |s| && s[0] == first
      && (forall i, j :: 0 <= i < j < |s| ==> s[i] < s[j])
      && (forall i :: 0 <= i < |s| ==> s[i] <= last)
      && last < s[|s| - 1] + step
  {
    FloatStepsIncreasing(first, step, StepCount(first, last, step));
    FloatStepsBelow(first, last, step);
    FloatStepsReachLast(first, last, step);
  }

  /** A float range walked with a positive step is empty when its first bound exceeds its last. */
  lemma FloatStepsEmpty(first: real, last: real, step: real)
    requires step > 0.0 && last < first
    ensures FloatSteps(first, step, StepCount(first, last, step)) == []
  {
    var q := (last - first) / step;
    assert q < 0.0;
  }

  /**
   * With neither `:step` nor `:steps`, a float range has `last - first + 1`
   * steps, so its step is 1; when both bounds are equal that step divides
   * by zero.
   */
  lemma DefaultFloatStep(o: Options, first: real, printed: string, last: Num, exclusive: bool)
    requires ChosenScale(o) == RangeOf(FloatNum(first, printed), last, exclusive)
    requires o.step.None? && o.steps.None?
    ensures StepsOption(o, ChosenScale(o)) == Success(Some(NumValue(last) - first + 1.0))
    ensures first == NumValue(last) ==> Expand(ChosenScale(o), o.step, Some(NumValue(last) - first + 1.0)) == Failure(NonFiniteStep)
    ensures first != NumValue(last) ==>
      Expand(ChosenScale(o), o.step, Some(NumValue(last) - first + 1.0)) == Success(FloatSteps(first, 1.0, StepCount(first, NumValue(last), 1.0)))
  {
    if first != NumValue(last) {
      var d := NumValue(last) - first;
      assert d + 1.0 - 1.0 == d;
      DivSelf(d);
    }
  }

  /** A float range ignores whether it excludes its last bound: `Float#step` always runs up to it. */
  lemma FloatRangeIgnoresExclusion(first: Num, last: Num, step: Option<real>, steps: Option<real>)
    requires first.FloatNum?
    ensures Expand(RangeOf(first, last, true), step, steps) == Expand(RangeOf(first, last, false), step, steps)
  {
  }

  /** Whether the Integer `v` lies in the range from `first` to `last`. */
  predicate InIntRange(first: int, last: real, exclusive: bool, v: int) {
    first <= v && Within(v as real, last, exclusive)
  }

  /** An Integer-started range holds exactly the whole numbers from `first` that it does not pass, in increasing order. */
  lemma IntRangeMembers(first: int, last: real, exclusive: bool)
    ensures var s := IntRangeValues(first, last, exclusive);
      && (forall i :: 0 <= i < |s| ==> s[i] == (first + i) as real && Within(s[i], last, exclusive))
      && (forall v: int :: InIntRange(first, last, exclusive, v) ==> (v as real) in s)
      && (forall i, j :: 0 <= i < j < |s| ==> s[i] < s[j])
  {
    var s := IntRangeValues(first, last, exclusive);
    forall i | 0 <= i < |s|
      ensures Within(s[i], last, exclusive)
    {
      WithinTop(first + i, last, exclusive);
    }
    forall v: int | InIntRange(first, last, exclusive, v)
      ensures (v as real) in s
    {
      WithinTop(v, last, exclusive);
      assert s[v - first] == v as real;
    }
  }

  /** An array scale becomes its elements as floats, in order, whatever `:step` and `:steps` say. */
  lemma ValuesIgnoreStep(vs: seq<Num>, step: Option<real>, steps: Option<real>)
    ensures Expand(ValuesOf(vs), step, steps) == Success(ToFloats(vs))
  {
  }

  /** The precision read off a printed number: the length after its last dot, or its whole length when it has none. */
  lemma {:induction false} PrecisionTextAfterDot(a: string, b: string)
    requires b != [] && forall i :: 0 <= i < |b| ==> b[i] != '.'
    ensures PrecisionText(a + "." + b) == Some(|b|)
    ensures PrecisionText(b) == Some(|b|)
  {
    var ab := a + "." + b;
    assert ab == (a + ".") + b;
    assert ab[|ab| - 1] == b[|b| - 1];
    AfterLastDotSuffix(a + ".", b);
    assert [] + b == b;
    AfterLastDotSuffix([], b);
  }

  lemma {:induction false} AfterLastDotSuffix(a: string, b: string)
    requires forall i :: 0 <= i < |b| ==> b[i] != '.'
    requires a == [] || a[|a| - 1] == '.'
    ensures AfterLastDot(a + b) == b
    decreases |b|
  {
    if b == [] {
      assert a + b == a;
    } else {
      var c := b[|b| - 1];
      var b' := b[..|b| - 1];
      assert b == b' + [c];
      var ab := a + b;
      assert ab == (a + b') + [c];
      assert ab[..|ab| - 1] == a + b';
      AfterLastDotSuffix(a, b');
    }
  }

  /** Without a precision option, an Integer lower bound gives its number of printed characters. */
  lemma IntBoundPrecision(o: Options, first: int, last: Num, exclusive: bool)
    requires ChosenScale(o) == RangeOf(IntNum(first), last, exclusive)
    requires o.totalPrecision.None? && o.averagePrecision.None?
    ensures PrecisionOf(o, ChosenScale(o)) == Success(IntPrecision(|IntToString(first)|))
  {
    var s := IntToString(first);
    assert forall i :: 0 <= i < |s| ==> s[i] != '.';
    PrecisionTextAfterDot([], s);
  }

  /** One printed digit for a lower bound from 0 to 9, but two from 10 to 99: the precision follows the bound's width. */
  lemma IntBoundWidth(i: int)
    ensures 0 <= i < 10 ==> |IntToString(i)| == 1
    ensures 10 <= i < 100 ==> |IntToString(i)| == 2
  {
    if 10 <= i < 100 {
      assert |Digits(i / 10)| == 1;
    }
  }

  /** The options of a float-scaled class: `1.0..5.0` in steps of 0.5, precision 2, IPs accepted. */
  const PostOptions := Options(Some(RangeOf(FloatNum(1.0, "1.0"), FloatNum(5.0, "5.0"), false)), None, None,
    Some(0.5), None, None, Some(IntPrecision(2)), Some(true), None, ["users"], Some(CustomReviewClass("Review", false)))

  /** The options of an array-scaled class: `[1, 2, 3]`, IPs refused. */
  const ArticleOptions := Options(Some(ValuesOf([IntNum(1), IntNum(2), IntNum(3)])), None, None,
    None, None, None, None, Some(false), None, ["accounts", "users"], Some(CustomReviewClass("Review", false)))

  /** The options of a cached class: `1..5`, total precision 2. */
  const CachedPostOptions := Options(Some(RangeOf(IntNum(1), IntNum(5), false)), None, None,
    None, None, Some(IntPrecision(2)), None, Some(true), None, ["users"], Some(CustomReviewClass("MyReview", false)))

  const EmptyOptions := Options(None, None, None, None, None, None, None, None, None, [], None)

  /** The lower bound 1 prints as one character and gives precision 1. */
  lemma OneDigitBound()
    ensures Printed(IntNum(1)) == "1" && PrecisionText("1") == Some(1)
  {
    assert DropTrailingDots("1") == "1";
    assert "1"[..0] == [];
    assert AfterLastDot("1") == "1";
  }

  /** The stages of the rewriting, each with its outcome, give the whole configuration. */
  lemma ConfigStages(o: Options, steps: Option<real>, p: int, scale: seq<real>)
    requires StepsOption(o, ChosenScale(o)) == Success(steps)
    requires PrecisionOf(o, ChosenScale(o)) == Success(IntPrecision(p)) && FixnumMin <= p <= FixnumMax
    requires Expand(ChosenScale(o), o.step, steps) == Success(scale)
    ensures ConfigOf(o) == Success(Config(scale, p, AcceptIp(o), o.reviewerClasses, ReviewClassOf(o)))
  {
  }

  /**
   * `reverse_merge!` fills `:scale` from `:values`, else `:range`: without a
   * `:scale`, giving `:values` configures the class as giving that scale
   * would, and so does `:range` without `:values`; a given `:scale` makes
   * `:values` and `:range` irrelevant.
   */
  lemma ScalePrecedence(o: Options, v: RawScale)
    ensures o.scale.None? ==>
      ConfigOf(o.(values := Some(v))) == ConfigOf(o.(scale := Some(v), values := None))
    ensures o.scale.None? && o.values.None? ==>
      ConfigOf(o.(range := Some(v))) == ConfigOf(o.(scale := Some(v), range := None))
    ensures ConfigOf(o.(scale := Some(v))) == ConfigOf(o.(scale := Some(v), values := None, range := None))
  {
  }

  /**
   * The precision check comes last: once the scale is built, a given
   * precision that is not a Fixnum (not an Integer, or a Bignum) raises.
   */
  lemma NonIntegerPrecisionRaises(o: Options, steps: Option<real>, scale: seq<real>)
    requires StepsOption(o, ChosenScale(o)) == Success(steps)
    requires Expand(ChosenScale(o), o.step, steps) == Success(scale)
    requires (o.totalPrecision.Some? && !IsFixnum(o.totalPrecision.value))
      || (o.totalPrecision.None? && o.averagePrecision.Some? && !IsFixnum(o.averagePrecision.value))
    ensures ConfigOf(o) == Failure(InvalidPrecision)
  {
  }

  /** One past the Fixnum range is a Bignum, which the check refuses like any non-Integer. */
  lemma BignumPrecisionRaises()
    ensures ConfigOf(CachedPostOptions.(totalPrecision := Some(IntPrecision(FixnumMax + 1)))) == Failure(InvalidPrecision)
    ensures ConfigOf(CachedPostOptions.(totalPrecision := Some(IntPrecision(FixnumMin - 1)))) == Failure(InvalidPrecision)
    ensures ConfigOf(CachedPostOptions.(totalPrecision := Some(IntPrecision(FixnumMax)))).Success?
  {
    CachedPostScale();
    var s := [1.0, 2.0, 3.0, 4.0, 5.0];
    var o := CachedPostOptions.(totalPrecision := Some(IntPrecision(FixnumMax)));
    assert ChosenScale(o) == ChosenScale(CachedPostOptions);
    assert IntRangeValues(1, 5.0, false) == s;
    ConfigStages(o, Some(5.0), FixnumMax, s);
  }

  lemma PostScale()
    ensures ConfigOf(PostOptions).Success?
    ensures ConfigOf(PostOptions).value.scale == [1.0, 1.5, 2.0, 2.5, 3.0, 3.5, 4.0, 4.5, 5.0]
    ensures ConfigOf(PostOptions).value.precision == 2 && ConfigOf(PostOptions).value.acceptIp
    ensures 1.0 in ConfigOf(PostOptions).value.scale && 2.5 in ConfigOf(PostOptions).value.scale
    ensures 3.0 in ConfigOf(PostOptions).value.scale && 6.0 !in ConfigOf(PostOptions).value.scale
  {
    var raw := RangeOf(FloatNum(1.0, "1.0"), FloatNum(5.0, "5.0"), false);
    assert StepCount(1.0, 5.0, 0.5) == 9;
    var s := FloatSteps(1.0, 0.5, 9);
    assert s == [1.0, 1.5, 2.0, 2.5, 3.0, 3.5, 4.0, 4.5, 5.0];
    assert Expand(raw, Some(0.5), None) == Success(s);
    ConfigStages(PostOptions, None, 2, s);
  }

  lemma ArticleScale()
    ensures ConfigOf(ArticleOptions) == Success(Config([1.0, 2.0, 3.0], 1, false, ["accounts", "users"], CustomReviewClass("Review", false)))
  {
    var raw := ValuesOf([IntNum(1), IntNum(2), IntNum(3)]);
    assert StepsOption(ArticleOptions, raw) == Success(Some(3.0));
    OneDigitBound();
    assert ToFloats([IntNum(1), IntNum(2), IntNum(3)]) == [1.0, 2.0, 3.0];
    ConfigStages(ArticleOptions, Some(3.0), 1, [1.0, 2.0, 3.0]);
  }

  lemma CachedPostScale()
    ensures ConfigOf(CachedPostOptions) == Success(Config([1.0, 2.0, 3.0, 4.0, 5.0], 2, true, ["users"], CustomReviewClass("MyReview", false)))
  {
    assert IntRangeValues(1, 5.0, false) == [1.0, 2.0, 3.0, 4.0, 5.0];
    ConfigStages(CachedPostOptions, Some(5.0), 2, [1.0, 2.0, 3.0, 4.0, 5.0]);
  }

  /** No options at all: the scale `1..5` as floats, precision 1, IPs refused, the default review class. */
  lemma DefaultConfig()
    ensures ConfigOf(EmptyOptions) == Success(Config([1.0, 2.0, 3.0, 4.0, 5.0], 1, false, [], DefaultReviewClass))
  {
    assert StepsOption(EmptyOptions, DefaultScale) == Success(Some(5.0));
    OneDigitBound();
    assert IntRangeValues(1, 5.0, false) == [1.0, 2.0, 3.0, 4.0, 5.0];
    ConfigStages(EmptyOptions, Some(5.0), 1, [1.0, 2.0, 3.0, 4.0, 5.0]);
  }

  /** An empty array scale fails on nil unless a step and a precision are given, and then it allows no rating. */
  lemma EmptyValues(o: Options)
    requires ChosenScale(o) == ValuesOf([])
    ensures o.step.None? && o.steps.None? ==> ConfigOf(o) == Failure(NilReceiver)
    ensures o.totalPrecision.None? && o.averagePrecision.None? ==> ConfigOf(o) == Failure(NilReceiver)
    ensures ConfigOf(o).Success? ==> ConfigOf(o).value.scale == []
  {
    assert PrecisionText("") == None;
  }

  // ----- The rewriting, step by step -----

  lemma WithinTop(v: int, last: real, exclusive: bool)
    ensures Within(v as real, last, exclusive) <==> v <= TopInt(last, exclusive)
  {
  }

  /** Walking one step further appends the next value. */
  lemma FloatStepsSnoc(first: real, step: real, i: nat)
    ensures FloatSteps(first, step, i + 1) == FloatSteps(first, step, i) + [first + (i as real) * step]
  {
    var a, b := FloatSteps(first, step, i + 1), FloatSteps(first, step, i) + [first + (i as real) * step];
    assert |a| == |b|;
    forall k | 0 <= k < |a|
      ensures a[k] == b[k]
    {
      if k < i {
        assert b[k] == FloatSteps(first, step, i)[k];
      }
    }
  }

  /** `first.step(last, step)`: the values `first + i * step` for `i` below the step count. */
  method WalkSteps(first: real, last: real, step: real) returns (out: seq<real>)
    requires step != 0.0
    ensures out == FloatSteps(first, step, StepCount(first, last, step))
  {
    var n := StepCount(first, last, step);
    out := [];
    var i := 0;
    while i < n
      invariant 0 <= i <= n
      invariant out == FloatSteps(first, step, i)
    {
      FloatStepsSnoc(first, step, i);
      out := out + [first + (i as real) * step];
      i := i + 1;
    }
  }

  /** `(first..last).to_a.collect! { |v| v.to_f }` for an Integer first bound. */
  method WalkIntRange(first: int, last: real, exclusive: bool) returns (out: seq<real>)
    ensures out == IntRangeValues(first, last, exclusive)
  {
    out := [];
    var v := first;
    WithinTop(v, last, exclusive);
    while Within(v as real, last, exclusive)
      invariant first <= v
      invariant v == first || v <= TopInt(last, exclusive) + 1
      invariant Within(v as real, last, exclusive) <==> v <= TopInt(last, exclusive)
      invariant out == seq(v - first, i => (first + i) as real)
      decreases TopInt(last, exclusive) - v
    {
      out := out + [v as real];
      v := v + 1;
      WithinTop(v, last, exclusive);
    }
  }

  /** `scale.to_a.collect! { |v| v.to_f }` for an array. */
  method ConvertValues(vs: seq<Num>) returns (out: seq<real>)
    ensures out == ToFloats(vs)
  {
    out := [];
    var i := 0;
    while i < |vs|
      invariant 0 <= i <= |vs|
      invariant out == ToFloats(vs[..i])
    {
      out := out + [NumValue(vs[i])];
      i := i + 1;
    }
    assert vs[..i] == vs;
  }

  /** The `:scale` rewriting: walk a float range with its step, convert any other scale to floats. */
  method ExpandScale(raw: RawScale, givenStep: Option<real>, steps: Option<real>) returns (r: Result<seq<real>, ConfigError>)
    ensures r == Expand(raw, givenStep, steps)
  {
    match raw {
      case RangeOf(FloatNum(first, _), lastNum, _) =>
        var last := NumValue(lastNum);
        var step: real;
        if givenStep.Some? {
          step := givenStep.value;
        } else if steps.None? {
          return Failure(NilReceiver);
        } else if steps.value - 1.0 == 0.0 {
          return Failure(NonFiniteStep);
        } else {
          step := (last - first) / (steps.value - 1.0);
        }
        if step == 0.0 {
          return Failure(ZeroStep);
        }
        var values := WalkSteps(first, last, step);
        r := Success(values);
      case RangeOf(IntNum(first), lastNum, exclusive) =>
        var values := WalkIntRange(first, NumValue(lastNum), exclusive);
        r := Success(values);
      case ValuesOf(vs) =>
        var values := ConvertValues(vs);
        r := Success(values);
    }
  }

  /**
   * `is_reviewable`'s rewriting of its options hash: default `:steps`,
   * derive `:total_precision`, compute `:step` for a float range and replace
   * `:scale` by the list of allowed ratings, then check the precision.
   */
  method Configure(o: Options) returns (r: Result<Config, ConfigError>)
    ensures r == ConfigOf(o)
  {
    var raw := ChosenScale(o);
    var steps := o.steps;
    if o.step.None? && o.steps.None? {
      var first, last := FirstBound(raw), LastBound(raw);
      if first.None? || last.None? {
        return Failure(NilReceiver);
      }
      steps := Some(NumValue(last.value) - NumValue(first.value) + 1.0);
    }
    var precision: PrecisionValue;
    if o.totalPrecision.Some? {
      precision := o.totalPrecision.value;
    } else if o.averagePrecision.Some? {
      precision := o.averagePrecision.value;
    } else {
      var text := if FirstBound(raw).Some? then Printed(FirstBound(raw).value) else "";
      var k := PrecisionText(text);
      if k.None? {
        return Failure(NilReceiver);
      }
      precision := IntPrecision(k.value);
    }
    var scale := ExpandScale(raw, o.step, steps);
    if scale.Failure? {
      return Failure(scale.error);
    }
    if !IsFixnum(precision) {
      return Failure(InvalidPrecision);
    }
    r := Success(Config(scale.value, precision.p, AcceptIp(o), o.reviewerClasses, ReviewClassOf(o)));
  }
}
