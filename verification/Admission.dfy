/**
  Which options a submission may carry: the id rules of
  src/job/types.rs:1493-1520 and the limits on the rest, each in its own words.
 */
module Admission {
  import opened Ordering
  import opened JobTypes

  // -- Decimal notation ---------------------------------------------------------------

  function Digit(d: nat): char
    requires d < 10
  {
    "0123456789"[d]
  }

  function Numeral(n: nat): string
  {
    (if n < 10 then "" else Numeral(n / 10)) + [Digit(n % 10)]
  }

  function Decimal(n: int): string
  {
    if n < 0 then "-" + Numeral(-n) else Numeral(n)
  }

  /** A numeral is a run of digits without a leading zero. */
  lemma {:induction false} NumeralIsCanonical(n: nat)
    ensures Numeral(n) != "" && AllDigits(Numeral(n))
    ensures if n == 0 then Numeral(n) == "0" else '1' <= Numeral(n)[0] <= '9'
  {
    if n >= 10 { NumeralIsCanonical(n / 10); }
  }

  /** Every such run is the numeral of a number. */
  lemma {:induction false} CanonicalIsNumeral(s: string) returns (n: nat)
    requires s != "" && AllDigits(s) && '1' <= s[0] <= '9'
    ensures n > 0 && Numeral(n) == s
    decreases |s|
  {
    var last := |s| - 1;
    assert s[last] in s && s == s[..last] + [s[last]];
    var d: nat := s[last] as int - '0' as int;
    assert Digit(d) == s[last];
    if last == 0 {
      n := d;
    } else {
      assert forall c | c in s[..last] :: c in s;
      var front := CanonicalIsNumeral(s[..last]);
      n := 10 * front + d;
    }
  }

  /** The integer ids are the decimal notations of the integers other than zero. */
  lemma IntegerIdIff(id: JobId)
    ensures IsIntegerJobId(id) <==> exists n: int :: n != 0 && id == Decimal(n)
  {
    if IsIntegerJobId(id) { IntegerIdIsDecimal(id); }
    if n: int :| n != 0 && id == Decimal(n) { DecimalIsIntegerId(n); }
  }

  lemma IntegerIdIsDecimal(id: JobId)
    requires IsIntegerJobId(id)
    ensures exists n: int :: n != 0 && id == Decimal(n)
  {
    if id[0] == '-' {
      assert id == "-" + id[1..] && id[1..] == [id[1]] + id[2..];
      var m: int := CanonicalIsNumeral(id[1..]);
      assert id == Decimal(-m);
    } else {
      assert id == [id[0]] + id[1..];
      var m := CanonicalIsNumeral(id);
      assert id == Decimal(m);
    }
  }

  lemma DecimalIsIntegerId(n: int)
    requires n != 0
    ensures IsIntegerJobId(Decimal(n))
  {
    var m: nat := if n < 0 then -n else n;
    NumeralIsCanonical(m);
    assert forall c | c in Numeral(m)[1..] :: c in Numeral(m);
    if n < 0 { assert Decimal(n)[1..] == Numeral(m) && Decimal(n)[2..] == Numeral(m)[1..]; }
  }

  /** A caller's own id holds something visible, is no integer written out, and leaves the prefix `0:` alone. */
  ghost predicate MayBeId(id: JobId)
  {
    && (exists k :: 0 <= k < |id| && !IsWhitespace(id[k]))
    && (forall n: int :: id != Decimal(n))
    && !(|id| >= 2 && id[0] == '0' && id[1] == ':')
  }

  lemma IdIsValidIff(id: JobId)
    ensures ValidJobId(id) <==> MayBeId(id)
  {
    IntegerIdIff(id);
    assert Decimal(0) == "0";
    assert "0:" <= id <==> |id| >= 2 && id[0] == '0' && id[1] == ':';
    forall k | 0 <= k < |id| ensures id[k] in id {}
    if !IsBlank(id) { var c :| c in id && !IsWhitespace(c); }
  }

  // -- Options --------------------------------------------------------------------------

  predicate MayRetain(retention: Option<JobRetention>)
  {
    match retention
    case None => true
    case Some(r) => !(r.age.None? && r.count.None?) && r.age != Some(0) && r.limit != Some(0)
  }

  predicate MayRepeat(repeat: Option<RepeatOptions>, now: Time)
  {
    match repeat
    case None => true
    case Some(r) =>
      && r.schedule != Every(0) && r.limit != Some(0)
      && match r.endAt case Some(end) => now <= end case None => true
  }

  predicate MayDeduplicate(deduplication: Option<DeduplicationOptions>)
  {
    match deduplication
    case None => true
    case Some(d) => (exists k :: 0 <= k < |d.id| && !IsWhitespace(d.id[k])) && d.ttl != Some(0)
  }

  /** No two ways of dealing with the failure of a child are asked for at once. */
  predicate AtMostOnePolicy(options: JobOptions)
  {
    && (options.failParentOnFailure ==> !options.continueParentOnFailure && !options.ignoreDependencyOnFailure && !options.removeDependencyOnFailure)
    && (options.continueParentOnFailure ==> !options.ignoreDependencyOnFailure && !options.removeDependencyOnFailure)
    && (options.ignoreDependencyOnFailure ==> !options.removeDependencyOnFailure)
  }

  ghost predicate MayBeSubmitted(options: JobOptions, now: Time)
  {
    && (match options.jobId case Some(id) => MayBeId(id) case None => true)
    && options.priority <= 2097152
    && MayRepeat(options.repeat, now) && MayDeduplicate(options.deduplication)
    && MayRetain(options.completionRetention) && MayRetain(options.failureRetention)
    && AtMostOnePolicy(options)
  }

  lemma BlankIff(s: string)
    ensures IsBlank(s) <==> !exists k :: 0 <= k < |s| && !IsWhitespace(s[k])
  {
    if !IsBlank(s) { var c :| c in s && !IsWhitespace(c); }
  }

  /** These are the options that pass validation. */
  lemma OptionsAreValidIff(options: JobOptions, now: Time)
    ensures options.ValidAt(now) <==> MayBeSubmitted(options, now)
  {
    if options.jobId.Some? { IdIsValidIff(options.jobId.value); }
    if options.deduplication.Some? { BlankIff(options.deduplication.value.id); }
  }
}
