/** The counters of `vocabulary_trainer/__init__.py`: the integer quote, the
    `Stats` class with its in-place updates, `+`, the comparisons, `better_sum`
    and the dictionary form. */
module TrainerStats {
  import opened Wrappers
  import opened PyErrors
  import opened JsonValue

  /** What a `Stats` object counts, as a value. */
  datatype Counts = Counts(right: nat, wrong: nat)

  /** `int(((right + 1) / (total + 1)) * 100)`, computed exactly: floor division
      for non-negative counts. */
  function Quote(right: nat, total: nat): nat
  {
    (right + 1) * 100 / (total + 1)
  }

  /** The quote a `Stats` object holding these counts carries. */
  function QuoteOf(c: Counts): nat
  {
    Quote(c.right, c.right + c.wrong)
  }

  /** Floor division respects cross-multiplied order. */
  lemma DivLeCross(a: nat, b: nat, c: nat, d: nat)
    requires b > 0 && d > 0 && a * d <= c * b
    ensures a / b <= c / d
  {
    var q, s := a / b, c / d;
    DivBounds(a, b);
    DivBounds(c, d);
    if q > s {
      MulLe(s + 1, q, d);
      assert (s + 1) * d == s * d + d;
      assert c < q * d;
      MulLe(c + 1, q * d, b);
      MulLe(q * b, a, d);
      MulAssocSwap(q, b, d);
      assert false;
    }
  }

  /** The Euclidean facts about `a / b` for a positive divisor. */
  lemma DivBounds(a: nat, b: nat)
    requires b > 0
    ensures (a / b) * b <= a < (a / b) * b + b
  {
    assert a == (a / b) * b + a % b;
  }

  lemma MulLe(x: nat, y: nat, z: nat)
    requires x <= y
    ensures x * z <= y * z
  {
  }

  lemma MulAssocSwap(x: nat, y: nat, z: nat)
    ensures x * z * y == x * y * z
  {
  }

  /** `a / b == 0` exactly when `a < b`. */
  lemma DivZeroIff(a: nat, b: nat)
    requires b > 0
    ensures a / b == 0 <==> a < b
  {
    DivBounds(a, b);
    if a / b >= 1 {
      MulLe(1, a / b, b);
    }
  }

  /** The quote never exceeds 100. */
  lemma QuoteAtMost100(c: Counts)
    ensures QuoteOf(c) <= 100
  {
    DivLeCross((c.right + 1) * 100, c.right + c.wrong + 1, 100, 1);
  }

  /** The quote is 100 exactly when no wrong try has been counted. */
  lemma QuoteFullIffNoWrong(c: Counts)
    ensures QuoteOf(c) == 100 <==> c.wrong == 0
  {
    var b := c.right + c.wrong + 1;
    var a := (c.right + 1) * 100;
    if c.wrong == 0 {
      assert a == 100 * b;
      MulDiv(100, b);
    }
    if QuoteOf(c) == 100 {
      QuotientLowerBound(a, b, 100);
      assert 100 * b <= a;
    }
  }

  /** Dividing an exact multiple gives back the factor. */
  lemma MulDiv(k: nat, b: nat)
    requires b > 0
    ensures (k * b) / b == k
  {
    var q := (k * b) / b;
    DivBounds(k * b, b);
    assert (k + 1) * b == k * b + b && (q + 1) * b == q * b + b;
    MulMono(k + 1, q, b);
    MulMono(q + 1, k, b);
  }

  lemma MulMono(x: nat, y: nat, z: nat)
    ensures x <= y ==> x * z <= y * z
  {
  }

  /** A quotient times its divisor stays within the dividend. */
  lemma QuotientLowerBound(a: nat, b: nat, q: nat)
    requires b > 0 && a / b == q
    ensures q * b <= a
  {
    DivBounds(a, b);
  }

  /** The quote is 0 (a zero selection weight) exactly when the wrong count
      reaches 99 times the right count plus 100. */
  lemma QuoteZeroIff(c: Counts)
    ensures QuoteOf(c) == 0 <==> c.wrong >= 99 * c.right + 100
  {
    DivZeroIff((c.right + 1) * 100, c.right + c.wrong + 1);
  }

  lemma CrossRight(x: nat, y: nat, p: nat)
    requires x <= y
    ensures (100 * x) * (y + p) <= (100 * (x + p)) * y
  {
    assert (100 * x) * (y + p) == 100 * (x * y) + 100 * (x * p);
    assert (100 * (x + p)) * y == 100 * (x * y) + 100 * (p * y);
    MulLe(x, y, p);
  }

  /** A right try never lowers the quote. */
  lemma RightTryKeepsOrRaisesQuote(c: Counts, points: nat)
    ensures QuoteOf(Counts(c.right + points, c.wrong)) >= QuoteOf(c)
  {
    var x, y := c.right + 1, c.right + c.wrong + 1;
    CrossRight(x, y, points);
    DivLeCross(100 * x, y, 100 * (x + points), y + points);
  }

  /** A wrong try never raises the quote. */
  lemma WrongTryKeepsOrLowersQuote(c: Counts, points: nat)
    ensures QuoteOf(Counts(c.right, c.wrong + points)) <= QuoteOf(c)
  {
    var a := (c.right + 1) * 100;
    var b := c.right + c.wrong + 1;
    MulLe(b, b + points, a);
    DivLeCross(a, b + points, a, b);
  }

  /** Component-wise sum, the arithmetic of `Stats + Stats`. */
  function Plus(a: Counts, b: Counts): (r: Counts)
  {
    Counts(a.right + b.right, a.wrong + b.wrong)
  }

  /** The `dict` that `Stats.to_json` builds. */
  function StatsJson(c: Counts): Json
  {
    JObj(map[
      "tries_total" := JInt(c.right + c.wrong),
      "tries_right" := JInt(c.right),
      "tries_wrong" := JInt(c.wrong)
    ])
  }

  /** `Stats.from_dict`: `tries_right` becomes the right count and `tries_total`
      the WRONG count. */
  function StatsFromDict(j: Json): (r: Result<Counts, Exception>)
    ensures r.Success? ==> Get(j, "tries_right").Success? && Get(j, "tries_total").Success?
    ensures r.Success? ==> JInt(r.value.right) == j.fields["tries_right"]
    ensures r.Success? ==> JInt(r.value.wrong) == j.fields["tries_total"]
  {
    var right :- Get(j, "tries_right");
    var total :- Get(j, "tries_total");
    var r :- AsCount(right);
    var w :- AsCount(total);
    Success(Counts(r, w))
  }

  /** Writing and reading back moves the total into the wrong count. */
  lemma StatsFromDictOfToJson(c: Counts)
    ensures StatsFromDict(StatsJson(c)) == Success(Counts(c.right, c.right + c.wrong))
  {
  }

  /** ... so the dictionary form round-trips exactly when no right try was counted. */
  lemma StatsRoundTripIffNoRight(c: Counts)
    ensures StatsFromDict(StatsJson(c)) == Success(c) <==> c.right == 0
  {
    StatsFromDictOfToJson(c);
  }

  /** A Python `Stats` object: the two counters and the two derived fields that
      `_update_total_tries` keeps in step with them. */
  class Stats {
    var rightTries: nat
    var wrongTries: nat
    var totalTries: nat
    var quote: nat

    /** The derived fields agree with the counters. */
    ghost predicate Valid()
      reads this
    {
      totalTries == rightTries + wrongTries && quote == Quote(rightTries, totalTries)
    }

    function Value(): Counts
      reads this
    {
      Counts(rightTries, wrongTries)
    }

    /** The dataclass constructor followed by `__post_init__`. */
    constructor (right: nat, wrong: nat)
      ensures Valid() && Value() == Counts(right, wrong)
    {
      rightTries, wrongTries := right, wrong;
      new;
      UpdateTotalTries();
    }

    /** `_update_total_tries`: recompute the total and the quote. */
    method UpdateTotalTries()
      modifies this
      ensures Valid() && Value() == old(Value())
    {
      totalTries := rightTries + wrongTries;
      quote := (rightTries + 1) * 100 / (totalTries + 1);
    }

    /** `right_try(points)`: only the right counter grows. */
    method RightTry(points: nat := 1)
      modifies this
      ensures Valid()
      ensures Value() == Counts(old(rightTries) + points, old(wrongTries))
    {
      rightTries := rightTries + points;
      UpdateTotalTries();
    }

    /** `wrong_try(points)`: only the wrong counter grows. */
    method WrongTry(points: nat := 1)
      modifies this
      ensures Valid()
      ensures Value() == Counts(old(rightTries), old(wrongTries) + points)
    {
      wrongTries := wrongTries + points;
      UpdateTotalTries();
    }

    /** The `tries_total` property. */
    function TriesTotal(): (t: nat)
      reads this
      requires Valid()
      ensures t == rightTries + wrongTries
    {
      totalTries
    }

    /** `Stats + Stats`: a new object with the component-wise sums; neither
        operand changes (there is no `modifies` clause). */
    method Add(other: Stats) returns (r: Stats)
      ensures fresh(r) && r.Valid() && r.Value() == Plus(Value(), other.Value())
    {
      r := new Stats(rightTries + other.rightTries, wrongTries + other.wrongTries);
    }

    /** `to_json`: the total is read from the stored field. */
    function ToJson(): (j: Json)
      reads this
      requires Valid()
      ensures j == StatsJson(Value())
    {
      JObj(map[
        "tries_total" := JInt(totalTries),
        "tries_right" := JInt(rightTries),
        "tries_wrong" := JInt(wrongTries)
      ])
    }

    /** `__le__` and its five siblings compare the stored quotes and nothing else. */
    predicate Le(other: Stats) reads this, other { quote <= other.quote }
    predicate Lt(other: Stats) reads this, other { quote < other.quote }
    predicate Eq(other: Stats) reads this, other { quote == other.quote }
    predicate Ne(other: Stats) reads this, other { quote != other.quote }
    predicate Ge(other: Stats) reads this, other { quote >= other.quote }
    predicate Gt(other: Stats) reads this, other { quote > other.quote }
  }

  /** `Stats.from_dict`, building the object. */
  method StatsFromDictObject(j: Json) returns (r: Result<Stats, Exception>)
    ensures r.Success? <==> StatsFromDict(j).Success?
    ensures r.Success? ==> fresh(r.value) && r.value.Valid() && r.value.Value() == StatsFromDict(j).value
    ensures r.Failure? ==> r.error == StatsFromDict(j).error
  {
    var c := StatsFromDict(j);
    if c.Failure? {
      return Failure(c.error);
    }
    var s := new Stats(c.value.right, c.value.wrong);
    r := Success(s);
  }

  /** The six comparisons depend on the two quotes alone: objects whose counts
      differ compare equal when their quotes agree, e.g. `Stats(0, 0) == Stats(1, 0)`. */
  lemma ComparisonsSeeOnlyQuote(a: Stats, b: Stats, c: Stats, d: Stats)
    requires a.quote == c.quote && b.quote == d.quote
    ensures a.Le(b) == c.Le(d) && a.Lt(b) == c.Lt(d) && a.Eq(b) == c.Eq(d)
    ensures a.Ne(b) == c.Ne(d) && a.Ge(b) == c.Ge(d) && a.Gt(b) == c.Gt(d)
  {
  }

  lemma EqualQuotesForDifferentCounts()
    ensures QuoteOf(Counts(0, 0)) == QuoteOf(Counts(1, 0)) == 100
  {
  }

  /** The component-wise sum of a list of counts, folded from the left. */
  function SumCounts(cs: seq<Counts>): Counts
  {
    if cs == [] then Counts(0, 0) else Plus(SumCounts(cs[..|cs| - 1]), cs[|cs| - 1])
  }

  /** The counts of a list of `Stats` objects. */
  function Values(items: seq<Stats>): (r: seq<Counts>)
    reads items
    ensures |r| == |items|
    ensures forall i :: 0 <= i < |items| ==> r[i] == items[i].Value()
  {
    if items == [] then [] else Values(items[..|items| - 1]) + [items[|items| - 1].Value()]
  }

  /** `better_sum(items)`: `items[0]` itself, then `result = result + item` for the
      rest. An empty list raises `IndexError`. A one-element list yields that
      very object (not a copy); a longer one a freshly built `Stats`. */
  method BetterSum(items: seq<Stats>) returns (r: Result<Stats, Exception>)
    requires forall s | s in items :: s.Valid()
    ensures r.Success? <==> |items| > 0
    ensures r.Failure? ==> r.error == IndexError
    ensures r.Success? ==> r.value.Valid() && r.value.Value() == SumCounts(Values(items))
    ensures r.Success? && |items| == 1 ==> r.value == items[0]
    ensures r.Success? && |items| > 1 ==> fresh(r.value)
  {
    if |items| == 0 {
      return Failure(IndexError);
    }
    var result := items[0];
    assert Values(items[..1]) == [items[0].Value()];
    var i := 1;
    while i < |items|
      invariant 1 <= i <= |items|
      invariant result.Valid() && result.Value() == SumCounts(Values(items[..i]))
      invariant i == 1 ==> result == items[0]
      invariant i > 1 ==> fresh(result)
    {
      SumValuesSnoc(items, i);
      result := result.Add(items[i]);
      i := i + 1;
    }
    assert items[..i] == items;
    r := Success(result);
  }

  /** One more object adds its counts to the sum of a prefix. */
  lemma SumValuesSnoc(items: seq<Stats>, i: nat)
    requires i < |items|
    ensures SumCounts(Values(items[..i + 1])) == Plus(SumCounts(Values(items[..i])), items[i].Value())
  {
    assert items[..i + 1][..i] == items[..i];
  }

  /** A sum whose quote is positive has a summand with a positive quote: a group
      that can be drawn by weight always holds a member that can be drawn. */
  lemma {:induction false} PositiveSumQuoteHasPositiveMember(cs: seq<Counts>)
    requires |cs| > 0
    requires QuoteOf(SumCounts(cs)) > 0
    ensures exists i :: 0 <= i < |cs| && QuoteOf(cs[i]) > 0
  {
    if forall i :: 0 <= i < |cs| ==> QuoteOf(cs[i]) == 0 {
      AllZeroSumBound(cs);
      var s := SumCounts(cs);
      QuoteZeroIff(s);
      assert false;
    }
  }

  /** When every member's quote is 0, the summed wrong count is at least
      `99 * right + 100` for each member, hence for the sum. */
  lemma {:induction false} AllZeroSumBound(cs: seq<Counts>)
    requires |cs| > 0
    requires forall i :: 0 <= i < |cs| ==> QuoteOf(cs[i]) == 0
    ensures SumCounts(cs).wrong >= 99 * SumCounts(cs).right + 100 * |cs|
  {
    var n := |cs|;
    QuoteZeroIff(cs[n - 1]);
    if n > 1 {
      AllZeroSumBound(cs[..n - 1]);
    }
  }
}
