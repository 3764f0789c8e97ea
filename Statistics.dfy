/**
 * The `GET /statistics` route: one pass over every challenge document,
 * summing `participants` and the number read from each `impactMetric`.
 * The document store's `find({}).toArray()` is an input (`Fetch`).
 */
module Statistics {
  import opened Wrappers
  import opened DigitRuns

  /** The `impactMetric` field as JavaScript sees it. */
  datatype Metric =
    | Absent            // undefined or null: `?.` short-circuits
    | Text(text: string)
    | NonText           // a number, object, ...: it has no `match` method

  datatype Challenge = Challenge(participants: Option<int>, impactMetric: Metric)

  /** What `c.impactMetric.match(...)` throws when `match` is not a function. */
  datatype Thrown = TypeError

  /** Outcome of `challengesCollection.find({}).toArray()`. */
  datatype Fetch = Fetched(docs: seq<Challenge>) | Rejected

  datatype Totals = Totals(participants: int, impact: nat)

  /** The body `res.json` sends, or the one sent with status 500 from the catch block. */
  datatype Response =
    | StatisticsJson(totalParticipants: int, totalImpact: nat)
    | ErrorJson(status: nat, error: string)

  const FailureMessage := "Failed to fetch statistics"

  /**
   * `c.participants || 0`: a missing or null count and the falsy 0 give the
   * right operand 0; any other integer is truthy and gives itself.
   */
  function ParticipantsOf(count: Option<int>): int {
    match count
    case None => 0
    case Some(n) => if n != 0 then n else 0
  }

  /** The `|| 0` default only replaces a missing count: a stored count adds exactly itself. */
  lemma ParticipantsOfCount(count: Option<int>)
    ensures count.None? ==> ParticipantsOf(count) == 0
    ensures count.Some? ==> ParticipantsOf(count) == count.value
  {
  }

  /** `parseFloat(c.impactMetric?.match(/\d+/)?.[0] || 0)`. */
  function ImpactOf(m: Metric): (r: Result<nat, Thrown>)
    ensures r.Failure? <==> m.NonText?
    ensures m.Absent? ==> r == Success(0)
    ensures m.Text? && NoDigits(m.text) ==> r == Success(0)
  {
    match m
    case Absent => Success(0)
    case NonText => Failure(TypeError)
    case Text(s) =>
      match MatchDigits(s)
      case None => Success(0)
      case Some(run) => Success(DigitsValue(run))
  }

  /**
   * A text adds the value of its first digit run, whatever follows the run:
   * the match stops at the first non-digit, so a later run is never read.
   */
  lemma ImpactOfFirstRun(before: string, run: string, after: string)
    requires NoDigits(before) && |run| > 0 && AllDigits(run)
    requires after == [] || !IsDigit(after[0])
    ensures ImpactOf(Text(before + run + after)) == Success(DigitsValue(run))
  {
    var s := before + run + after;
    assert s[|before|..|before| + |run|] == run;
    assert forall k :: 0 <= k < |before| ==> s[k] == before[k];
    assert |before| + |run| < |s| ==> s[|before| + |run|] == after[0];
    MatchDigitsComplete(s, |before|, run);
  }

  /** The number written in decimal after a digit-free prefix is the number added. */
  lemma ImpactOfDecimal(before: string, n: nat, after: string)
    requires NoDigits(before)
    requires after == [] || !IsDigit(after[0])
    ensures ImpactOf(Text(before + Decimal(n) + after)) == Success(n)
  {
    ImpactOfFirstRun(before, Decimal(n), after);
    DigitsValueDecimal(n);
  }

  /** The run stops at the decimal point: "2.5 kg" adds 2. */
  lemma DecimalPointStopsRun()
    ensures ImpactOf(Text("2.5 kg")) == Success(2)
  {
  }

  /** Only the first run counts: "10 kg / 3 trees" adds 10. */
  lemma SecondRunIgnored()
    ensures ImpactOf(Text("10 kg / 3 trees")) == Success(10)
  {
    var s := "10 kg / 3 trees";
    assert s[0..2] == "10";
    assert IsFirstRun(s, 0, "10");
    MatchDigitsComplete(s, 0, "10");
    assert DigitsValue("10") == 10;
  }

  /** There is no sign: "-5 kg" adds 5. */
  lemma MinusSignIgnored()
    ensures ImpactOf(Text("-5 kg")) == Success(5)
  {
  }

  /** Leading zeros are read away: "007 trees" adds 7. */
  lemma LeadingZerosRun()
    ensures ImpactOf(Text("007 trees")) == Success(7)
  {
    var s := "007 trees";
    assert s[0..3] == "007";
    assert IsFirstRun(s, 0, "007");
    MatchDigitsComplete(s, 0, "007");
    assert DigitsValue("007") == 7;
  }

  /** No document makes the loop throw. */
  predicate NoTypeError(cs: seq<Challenge>) {
    forall i :: 0 <= i < |cs| ==> !cs[i].impactMetric.NonText?
  }

  function Contribution(c: Challenge): Totals
    requires !c.impactMetric.NonText?
  {
    Totals(ParticipantsOf(c.participants), ImpactOf(c.impactMetric).value)
  }

  function Add(a: Totals, b: Totals): Totals {
    Totals(a.participants + b.participants, a.impact + b.impact)
  }

  /** The totals over `cs`, the last document added last, as the loop adds them. */
  function Total(cs: seq<Challenge>): Totals
    requires NoTypeError(cs)
  {
    if |cs| == 0 then Totals(0, 0)
    else Add(Total(cs[..|cs| - 1]), Contribution(cs[|cs| - 1]))
  }

  /**
   * The `forEach` loop with its two accumulators. A document whose
   * `impactMetric` is not a string throws out of the loop, so no totals
   * come back at all.
   */
  method ComputeTotals(cs: seq<Challenge>) returns (r: Result<Totals, Thrown>)
    ensures r.Failure? <==> !NoTypeError(cs)
    ensures r.Failure? ==> r.error == TypeError
    ensures r.Success? ==> NoTypeError(cs) && r.value == Total(cs)
  {
    var totalParticipants: int := 0;
    var totalImpact: nat := 0;
    var i := 0;
    while i < |cs|
      invariant 0 <= i <= |cs|
      invariant NoTypeError(cs[..i])
      invariant Totals(totalParticipants, totalImpact) == Total(cs[..i])
    {
      var c := cs[i];
      totalParticipants := totalParticipants + ParticipantsOf(c.participants);
      var value := ImpactOf(c.impactMetric);
      if value.Failure? {
        assert cs[i].impactMetric.NonText?;
        return Failure(value.error);
      }
      totalImpact := totalImpact + value.value;
      TotalStep(cs, i);
      i := i + 1;
    }
    assert cs[..i] == cs;
    return Success(Totals(totalParticipants, totalImpact));
  }

  /** One more iteration adds one more document's contribution. */
  lemma TotalStep(cs: seq<Challenge>, i: nat)
    requires i < |cs| && NoTypeError(cs[..i]) && !cs[i].impactMetric.NonText?
    ensures NoTypeError(cs[..i + 1])
    ensures Total(cs[..i + 1]) == Add(Total(cs[..i]), Contribution(cs[i]))
  {
    assert cs[..i + 1] == cs[..i] + [cs[i]];
    NoTypeErrorAppend(cs[..i], [cs[i]]);
  }

  /** The whole route: fetch, aggregate, respond; any throw becomes a 500. */
  method GetStatistics(fetch: Fetch) returns (resp: Response)
    ensures resp.ErrorJson? <==> fetch.Rejected? || !NoTypeError(fetch.docs)
    ensures resp.ErrorJson? ==> resp == ErrorJson(500, FailureMessage)
    ensures resp.StatisticsJson? ==>
              && fetch.Fetched? && NoTypeError(fetch.docs)
              && resp.totalParticipants == Total(fetch.docs).participants
              && resp.totalImpact == Total(fetch.docs).impact
    ensures fetch == Fetched([]) ==> resp == StatisticsJson(0, 0)
  {
    if fetch.Rejected? {
      return ErrorJson(500, FailureMessage);
    }
    var totals := ComputeTotals(fetch.docs);
    if totals.Failure? {
      return ErrorJson(500, FailureMessage);
    }
    resp := StatisticsJson(totals.value.participants, totals.value.impact);
  }

  /** A concatenation throws exactly when one of its parts does. */
  lemma NoTypeErrorAppend(xs: seq<Challenge>, ys: seq<Challenge>)
    ensures NoTypeError(xs + ys) <==> NoTypeError(xs) && NoTypeError(ys)
  {
    var zs := xs + ys;
    if NoTypeError(zs) {
      forall i | 0 <= i < |xs| ensures !xs[i].impactMetric.NonText? {
        assert xs[i] == zs[i];
      }
      forall i | 0 <= i < |ys| ensures !ys[i].impactMetric.NonText? {
        assert ys[i] == zs[|xs| + i];
      }
    }
  }

  /** Totals over a concatenation are the sum of the totals of the parts. */
  lemma {:induction false} TotalAppend(xs: seq<Challenge>, ys: seq<Challenge>)
    requires NoTypeError(xs + ys)
    ensures NoTypeError(xs) && NoTypeError(ys)
    ensures Total(xs + ys) == Add(Total(xs), Total(ys))
  {
    NoTypeErrorAppend(xs, ys);
    if |ys| == 0 {
      assert xs + ys == xs;
    } else {
      var zs := xs + ys;
      var ys' := ys[..|ys| - 1];
      assert zs[..|zs| - 1] == xs + ys';
      assert zs[|zs| - 1] == ys[|ys| - 1];
      NoTypeErrorAppend(ys', [ys[|ys| - 1]]);
      assert ys == ys' + [ys[|ys| - 1]];
      NoTypeErrorAppend(xs, ys');
      TotalAppend(xs, ys');
    }
  }

  /** Each document is counted exactly once, wherever it sits in the list. */
  lemma VisitedOnce(cs: seq<Challenge>, k: nat)
    requires NoTypeError(cs) && k < |cs|
    ensures NoTypeError(cs[..k]) && NoTypeError(cs[k + 1..])
    ensures Total(cs) == Add(Add(Total(cs[..k]), Contribution(cs[k])), Total(cs[k + 1..]))
  {
    NoTypeErrorParts(cs, k);
    NoTypeErrorParts(cs, k + 1);
    TotalStep(cs, k);
    assert cs == cs[..k + 1] + cs[k + 1..];
    TotalAppend(cs[..k + 1], cs[k + 1..]);
  }

  lemma NoTypeErrorParts(cs: seq<Challenge>, k: nat)
    requires NoTypeError(cs) && k <= |cs|
    ensures NoTypeError(cs[..k]) && NoTypeError(cs[k..])
  {
  }

  /** Taking one document out of the list takes exactly its contribution out of the totals. */
  lemma RemoveOne(cs: seq<Challenge>, k: nat)
    requires NoTypeError(cs) && k < |cs|
    ensures NoTypeError(cs[..k] + cs[k + 1..])
    ensures Total(cs) == Add(Total(cs[..k] + cs[k + 1..]), Contribution(cs[k]))
  {
    VisitedOnce(cs, k);
    NoTypeErrorAppend(cs[..k], cs[k + 1..]);
    TotalAppend(cs[..k], cs[k + 1..]);
  }

  /** A document without a number in its metric adds nothing to totalImpact, but its participants still count. */
  lemma NoImpactStillCounts(cs: seq<Challenge>, c: Challenge)
    requires NoTypeError(cs)
    requires c.impactMetric.Absent? || (c.impactMetric.Text? && NoDigits(c.impactMetric.text))
    ensures NoTypeError(cs + [c])
    ensures Total(cs + [c]) == Totals(Total(cs).participants + ParticipantsOf(c.participants), Total(cs).impact)
  {
  }

  /** totalImpact never decreases from one iteration to the next. */
  lemma ImpactNeverDecreases(cs: seq<Challenge>, i: nat, j: nat)
    requires NoTypeError(cs) && i <= j <= |cs|
    ensures NoTypeError(cs[..i]) && NoTypeError(cs[..j])
    ensures Total(cs[..i]).impact <= Total(cs[..j]).impact
  {
    assert cs[..j] == cs[..i] + cs[i..j];
    TotalAppend(cs[..i], cs[i..j]);
  }

  /** Reordering the documents cannot make a failing request succeed, nor the reverse. */
  lemma NoTypeErrorPermutation(a: seq<Challenge>, b: seq<Challenge>)
    requires multiset(a) == multiset(b) && NoTypeError(a)
    ensures NoTypeError(b)
  {
    forall i | 0 <= i < |b| ensures !b[i].impactMetric.NonText? {
      assert b[i] in multiset(a);
    }
  }

  /** The totals do not depend on the order the store returns the documents in. */
  lemma {:induction false} TotalPermutation(a: seq<Challenge>, b: seq<Challenge>)
    requires multiset(a) == multiset(b) && NoTypeError(a)
    ensures NoTypeError(b) && Total(a) == Total(b)
    decreases |a|
  {
    NoTypeErrorPermutation(a, b);
    if |a| == 0 {
      assert |b| == |multiset(b)| == 0;
    } else {
      var n := |a| - 1;
      var k := IndexOf(b, a[n]);
      var a' := a[..n] + a[n + 1..];
      var b' := b[..k] + b[k + 1..];
      MultisetRemoveOne(a, n);
      MultisetRemoveOne(b, k);
      RemoveOne(a, n);
      RemoveOne(b, k);
      TotalPermutation(a', b');
    }
  }

  lemma IndexOf<T>(s: seq<T>, x: T) returns (k: nat)
    requires x in multiset(s)
    ensures k < |s| && s[k] == x
  {
    assert x in s;
    k :| 0 <= k < |s| && s[k] == x;
  }

  lemma MultisetRemoveOne<T>(s: seq<T>, k: nat)
    requires k < |s|
    ensures multiset(s[..k] + s[k + 1..]) == multiset(s) - multiset{s[k]}
  {
    assert s == s[..k] + [s[k]] + s[k + 1..];
  }
}
