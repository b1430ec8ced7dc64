/**
 * Reviewer identity resolution: `validate_reviewer` picks the reviewer out of
 * an identifier hash and classifies it as a record or an IP address, and
 * `reviewer_conditions` turns the result into the columns a review row is
 * looked up by.
 */
module Reviewer {
  import opened Wrappers
  import opened Values

  /** Who wrote a review: a record (its class name and id) or a bare IP address. */
  datatype Identity = Account(accountType: string, id: int) | Ip(address: string)

  /** The three InvalidReviewerError messages of validate_reviewer. */
  datatype ReviewerError =
    | NilArgument   // "Argument can't be nil: no reviewer object or IP provided."
    | WrongType     // "Reviewer is of wrong type: ..."
    | IpDisabled    // "Reviewing based on IP is disabled."

  /** The identifier keys that may name the reviewer, in the order they are tried. */
  const PrecedenceKeys: seq<string> := ["by", "reviewer", "user", "ip"]

  /** `ids[k]`, which is nil for a missing key. */
  function Lookup(ids: map<string, Value>, k: string): Value {
    if k in ids then ids[k] else Nil
  }

  /**
   * `ids[k0] || ids[k1] || ... || ids[kn]`: the first truthy value, or the
   * value of the last key when none is truthy.
   */
  function FirstTruthy(ids: map<string, Value>, keys: seq<string>): (v: Value)
    requires keys != []
    ensures Truthy(v) <==> exists i :: 0 <= i < |keys| && Truthy(Lookup(ids, keys[i]))
    ensures Truthy(v) ==>
      (exists i :: 0 <= i < |keys| && v == Lookup(ids, keys[i]) &&
        forall j :: 0 <= j < i ==> !Truthy(Lookup(ids, keys[j])))
    ensures !Truthy(v) ==> v == Lookup(ids, keys[|keys| - 1])
  {
    if |keys| == 1 || Truthy(Lookup(ids, keys[0])) then Lookup(ids, keys[0])
    else
      var rest := FirstTruthy(ids, keys[1..]);
      assert forall i :: 1 <= i < |keys| ==> keys[i] == keys[1..][i - 1];
      rest
  }

  /** The reviewer candidate: `ids[:by] || ids[:reviewer] || ids[:user] || ids[:ip]`. */
  function Candidate(ids: map<string, Value>): Value {
    FirstTruthy(ids, PrecedenceKeys)
  }

  /** `Support.is_ip?` on the candidate; the shape test on text is the parameter `isIp`. */
  predicate IpCandidate(c: Value, isIp: string -> bool) {
    c.Text? && isIp(c.s)
  }

  /** validate_reviewer: the record, or the stripped IP address, that the identifiers name. */
  function Resolve(ids: map<string, Value>, acceptIp: bool, isIp: string -> bool): Result<Identity, ReviewerError> {
    if |ids| == 0 then Failure(NilArgument)
    else
      var c := Candidate(ids);
      var ip := IpCandidate(c, isIp);
      if !(c.Record? || ip) then Failure(WrongType)
      else if ip && !acceptIp then Failure(IpDisabled)
      else if c.Record? then Success(Account(c.recordType, c.id))
      else Success(Ip(Strip(c.s)))
  }

  /** The candidate is the first truthy value among :by, :reviewer, :user and :ip, in that order. */
  lemma CandidateOrder(ids: map<string, Value>)
    ensures Candidate(ids) ==
      if Truthy(Lookup(ids, "by")) then Lookup(ids, "by")
      else if Truthy(Lookup(ids, "reviewer")) then Lookup(ids, "reviewer")
      else if Truthy(Lookup(ids, "user")) then Lookup(ids, "user")
      else Lookup(ids, "ip")
  {
    var k1, k2, k3 := PrecedenceKeys[1..], PrecedenceKeys[2..], PrecedenceKeys[3..];
    assert k1 == ["reviewer", "user", "ip"] && k1[1..] == k2;
    assert k2 == ["user", "ip"] && k2[1..] == k3;
    assert k3 == ["ip"];
    assert FirstTruthy(ids, k3) == Lookup(ids, "ip");
    assert FirstTruthy(ids, k2) ==
      if Truthy(Lookup(ids, "user")) then Lookup(ids, "user") else FirstTruthy(ids, k3);
    assert FirstTruthy(ids, k1) ==
      if Truthy(Lookup(ids, "reviewer")) then Lookup(ids, "reviewer") else FirstTruthy(ids, k2);
    assert PrecedenceKeys[0] == "by";
  }

  /** A key outside the precedence list changes neither the candidate nor the outcome, once some key is present. */
  lemma OtherKeyIgnored(ids: map<string, Value>, k: string, v: Value)
    requires |ids| > 0 && k !in PrecedenceKeys
    ensures Candidate(ids[k := v]) == Candidate(ids)
    ensures forall acceptIp, isIp :: Resolve(ids[k := v], acceptIp, isIp) == Resolve(ids, acceptIp, isIp)
  {
    CandidateOrder(ids);
    CandidateOrder(ids[k := v]);
    assert |ids[k := v]| > 0 by {
      var k0 :| k0 in ids;
      assert k0 in ids[k := v];
    }
  }

  /** The documented :account key is not one of the keys tried: adding it changes nothing. */
  lemma AccountKeyIgnored(ids: map<string, Value>, v: Value)
    requires |ids| > 0
    ensures Candidate(ids["account" := v]) == Candidate(ids)
    ensures forall acceptIp, isIp :: Resolve(ids["account" := v], acceptIp, isIp) == Resolve(ids, acceptIp, isIp)
  {
    OtherKeyIgnored(ids, "account", v);
  }

  /** Every outcome of validate_reviewer, each with the exact condition that produces it. */
  lemma ResolveOutcomes(ids: map<string, Value>, acceptIp: bool, isIp: string -> bool)
    ensures Resolve(ids, acceptIp, isIp) == Failure(NilArgument) <==> |ids| == 0
    ensures Resolve(ids, acceptIp, isIp) == Failure(WrongType) <==>
      |ids| > 0 && !Candidate(ids).Record? && !IpCandidate(Candidate(ids), isIp)
    ensures Resolve(ids, acceptIp, isIp) == Failure(IpDisabled) <==>
      |ids| > 0 && IpCandidate(Candidate(ids), isIp) && !acceptIp
    ensures forall t, n :: Resolve(ids, acceptIp, isIp) == Success(Account(t, n)) <==>
      |ids| > 0 && Candidate(ids) == Record(t, n)
    ensures forall a :: Resolve(ids, acceptIp, isIp) == Success(Ip(a)) <==>
      |ids| > 0 && IpCandidate(Candidate(ids), isIp) && acceptIp && a == Strip(Candidate(ids).s)
  {
  }

  /** A resolved IP address has no white space left at either end. */
  lemma ResolvedIpIsStripped(ids: map<string, Value>, acceptIp: bool, isIp: string -> bool)
    requires Resolve(ids, acceptIp, isIp).Success? && Resolve(ids, acceptIp, isIp).value.Ip?
    ensures var a := Resolve(ids, acceptIp, isIp).value.address;
      a == Strip(a) && (a == [] || (!IsSpace(a[0]) && !IsSpace(a[|a| - 1])))
  {
    var s := Candidate(ids).s;
    StripIdempotent(s);
    StripShape(s);
  }

  /** reviewer_conditions for a resolved reviewer: the reviewer_id/reviewer_type pair, or the ip. */
  function Conditions(who: Identity): (c: map<string, Value>)
    ensures who.Account? ==> c.Keys == {"reviewer_id", "reviewer_type"}
    ensures who.Ip? ==> c.Keys == {"ip"}
  {
    match who
    case Account(t, n) => map["reviewer_id" := Int(n), "reviewer_type" := Text(t)]
    case Ip(a) => map["ip" := Text(a)]
  }

  /** Distinct reviewers never share conditions, so a lookup by conditions finds only its own reviews. */
  lemma ConditionsInjective(a: Identity, b: Identity)
    requires Conditions(a) == Conditions(b)
    ensures a == b
  {
    if a.Account? && b.Account? {
      assert Conditions(a)["reviewer_id"] == Int(a.id) && Conditions(b)["reviewer_id"] == Int(b.id);
      assert Conditions(a)["reviewer_type"] == Text(a.accountType);
      assert Conditions(b)["reviewer_type"] == Text(b.accountType);
    } else if a.Ip? && b.Ip? {
      assert Conditions(a)["ip"] == Text(a.address) && Conditions(b)["ip"] == Text(b.address);
    }
  }

  /** reviewer_conditions(identifiers): validate_reviewer, then the conditions of its result. */
  function ConditionsFor(ids: map<string, Value>, acceptIp: bool, isIp: string -> bool): (r: Result<map<string, Value>, ReviewerError>)
    ensures r.Failure? <==> Resolve(ids, acceptIp, isIp).Failure?
    ensures r.Failure? ==> r.error == Resolve(ids, acceptIp, isIp).error
    ensures r.Success? ==> exists who :: Resolve(ids, acceptIp, isIp) == Success(who) && r.value == Conditions(who)
  {
    match Resolve(ids, acceptIp, isIp)
    case Failure(e) => Failure(e)
    case Success(who) => Success(Conditions(who))
  }
}
