/** The `Tries` value of the quiz engine (`quiz_enchanter/tries.py`): a pair of
    right and wrong counts with a percentage `quote`, JSON conversion, operators
    that build new values and comparisons that look only at the quote. Nothing
    is ever mutated, so everything here is a function. */
module QuizTries {
  import opened Wrappers
  import opened PyErrors
  import opened JsonValue
  import Text

  /** Python ints: arithmetic may make either count negative. */
  datatype Tries = Tries(right: int, wrong: int) {
    /** `total_tries`. */
    function Total(): int
    {
      right + wrong
    }
  }

  /** `quote` AS WRITTEN: the walrus `total := self.total_tries != 0` binds the
      comparison's boolean, so the divisor in the taken branch is `True`, i.e. 1. */
  function QuoteAsWritten(t: Tries): real
  {
    var total := if t.Total() != 0 then 1 else 0;
    if total != 0 then (t.right as real / total as real) * 100.0 else 0.0
  }

  /** The as-written quote is a hundred times the right count whatever the
      wrong count, so it leaves 0..100 and tells `Tries(3, 1)` from
      `Tries(3, 100)` by nothing. */
  lemma QuoteAsWrittenIgnoresWrong(t: Tries, wrong: int)
    requires t.Total() != 0 && t.right + wrong != 0
    ensures QuoteAsWritten(t) == 100.0 * t.right as real
    ensures QuoteAsWritten(Tries(t.right, wrong)) == QuoteAsWritten(t)
  {
  }

  /** The input that exposes it: the test expects 75 for three right out of
      four, the code yields 300. */
  lemma QuoteAsWrittenCounterexample()
    ensures QuoteAsWritten(Tries(3, 1)) == 300.0
    ensures Quote(Tries(3, 1)) == 75.0
  {
  }

  /** `quote` as intended: the share of right tries in percent, 0 for no tries.
      The rest of the model uses this one. */
  function Quote(t: Tries): (q: real)
    ensures t.Total() == 0 ==> q == 0.0
    ensures t.Total() != 0 ==> q * t.Total() as real == 100.0 * t.right as real
    ensures t.right >= 0 && t.wrong >= 0 ==> 0.0 <= q <= 100.0
  {
    if t.Total() != 0 then (t.right as real / t.Total() as real) * 100.0 else 0.0
  }

  /** With non-negative counts and at least one try, the quote is 100 exactly
      when nothing was wrong and 0 exactly when nothing was right. */
  lemma QuoteExtremes(t: Tries)
    requires t.right >= 0 && t.wrong >= 0 && t.Total() > 0
    ensures Quote(t) == 100.0 <==> t.wrong == 0
    ensures Quote(t) == 0.0 <==> t.right == 0
  {
    var q := Quote(t);
    assert q * t.Total() as real == 100.0 * t.right as real;
  }

  /** Scaling both counts keeps the quote (`Tries(1, 1)` and `Tries(5, 5)`). */
  lemma QuoteScaleInvariant(t: Tries, k: int)
    requires k != 0
    ensures Quote(Mul(t, k)) == Quote(t)
  {
    var s := Mul(t, k);
    assert s.Total() == t.Total() * k;
    if t.Total() != 0 {
      var T, K, R := t.Total() as real, k as real, t.right as real;
      assert s.Total() as real == T * K;
      assert s.right as real == R * K;
      DivScale(R, T, K);
    }
  }

  /** A non-zero factor common to both sides of a quotient cancels. */
  lemma DivScale(a: real, b: real, c: real)
    requires b != 0.0 && c != 0.0
    ensures (a * c) / (b * c) == a / b
  {
    assert (a / b) * (b * c) == a * c;
  }

  /** `from_json`: the counts under `right_tries` and `wrong_tries`. */
  function FromJson(j: Json): (r: Result<Tries, Exception>)
    ensures r.Success? <==> HasKey(j, "right_tries") && HasKey(j, "wrong_tries")
                            && j.fields["right_tries"].JInt? && j.fields["wrong_tries"].JInt?
    ensures r.Failure? && !j.JObj? ==> r.error == TypeError
    ensures r.Failure? && j.JObj? && !("right_tries" in j.fields && "wrong_tries" in j.fields) ==> r.error == KeyError
  {
    var right :- Get(j, "right_tries");
    var wrong :- Get(j, "wrong_tries");
    var r :- AsInt(right);
    var w :- AsInt(wrong);
    Success(Tries(r, w))
  }

  /** The `json` property. */
  function ToJson(t: Tries): Json
  {
    JObj(map["right_tries" := JInt(t.right), "wrong_tries" := JInt(t.wrong)])
  }

  /** `from_json(t.json)` is `t`, component by component. */
  lemma FromJsonToJson(t: Tries)
    ensures FromJson(ToJson(t)) == Success(t)
  {
  }

  /** What `from_json` reads is all `json` writes: a dictionary that decodes to
      `t` agrees with `t.json` on both keys, whatever else it holds. */
  lemma ToJsonFromJson(j: Json, t: Tries)
    requires FromJson(j) == Success(t)
    ensures forall k :: k in ToJson(t).fields ==> k in j.fields && j.fields[k] == ToJson(t).fields[k]
  {
  }

  /** `+` with another `Tries` (and `__radd__`, the same helper). */
  function Add(a: Tries, b: Tries): Tries
  {
    Tries(a.right + b.right, a.wrong + b.wrong)
  }

  /** `-` with another `Tries`. */
  function Sub(a: Tries, b: Tries): Tries
  {
    Tries(a.right - b.right, a.wrong - b.wrong)
  }

  /** `__rsub__`: the same `(self, other)` helper as `__sub__`, not swapped. */
  function RSub(self: Tries, other: Tries): Tries
  {
    Sub(self, other)
  }

  /** Adding and subtracting are component-wise: totals add up, subtraction
      undoes addition, and the order of summands does not matter. */
  lemma AddSubLaws(a: Tries, b: Tries)
    ensures Add(a, b).Total() == a.Total() + b.Total()
    ensures Sub(a, b).Total() == a.Total() - b.Total()
    ensures Sub(Add(a, b), b) == a && Add(Sub(a, b), b) == a
    ensures Add(a, b) == Add(b, a)
  {
  }

  /** `__rsub__` is a reflected subtraction only when both operands are equal:
      `b.__rsub__(a)` computes `b - a`, not `a - b`. */
  lemma RSubNotReversed(a: Tries, b: Tries)
    ensures RSub(b, a) == Sub(a, b) <==> a == b
  {
  }

  /** The quote of a sum lies between the quotes of the summands. */
  lemma AddQuoteBetween(a: Tries, b: Tries)
    requires a.right >= 0 && a.wrong >= 0 && a.Total() > 0
    requires b.right >= 0 && b.wrong >= 0 && b.Total() > 0
    requires Quote(a) <= Quote(b)
    ensures Quote(a) <= Quote(Add(a, b)) <= Quote(b)
  {
    var qa, qb, qs := Quote(a), Quote(b), Quote(Add(a, b));
    var ta, tb := a.Total() as real, b.Total() as real;
    WeightedMean(qa, qb, qs, ta, tb);
  }

  /** A mean weighted by positive totals lies between its two values. */
  lemma WeightedMean(qa: real, qb: real, qs: real, ta: real, tb: real)
    requires ta > 0.0 && tb > 0.0 && qa <= qb
    requires qs * (ta + tb) == qa * ta + qb * tb
    ensures qa <= qs <= qb
  {
    assert qa * tb <= qb * tb;
    assert qa * ta <= qb * ta;
    assert qa * (ta + tb) <= qs * (ta + tb);
    assert qs * (ta + tb) <= qb * (ta + tb);
  }

  /** `*` by a number (and `__rmul__`, so `5 * t` is `Mul(t, 5)`). */
  function Mul(t: Tries, n: int): Tries
  {
    Tries(t.right * n, t.wrong * n)
  }

  /** Python's `//` on ints: the quotient rounded towards negative infinity. */
  function FloorDiv(a: int, b: int): int
    requires b != 0
  {
    if b > 0 then a / b else (-a) / (-b)
  }

  /** Python's `%` on ints: the remainder carries the divisor's sign. */
  function FloorMod(a: int, b: int): int
    requires b != 0
  {
    a - b * FloorDiv(a, b)
  }

  /** Python's division law: `a == b * (a // b) + a % b` with the remainder
      strictly between 0 and the divisor (0 included). */
  lemma FloorDivMod(a: int, b: int)
    requires b != 0
    ensures a == b * FloorDiv(a, b) + FloorMod(a, b)
    ensures b > 0 ==> 0 <= FloorMod(a, b) < b
    ensures b < 0 ==> b < FloorMod(a, b) <= 0
  {
    if b < 0 {
      var q := (-a) / (-b);
      assert -a == (-b) * q + (-a) % (-b);
      assert FloorMod(a, b) == -((-a) % (-b));
    }
  }

  /** `//` by a number; dividing by 0 raises `ZeroDivisionError`. */
  function FloorDivBy(t: Tries, n: int): (r: Result<Tries, Exception>)
    ensures r.Failure? <==> n == 0
    ensures r.Failure? ==> r.error == ZeroDivisionError
  {
    if n == 0 then Failure(ZeroDivisionError)
    else Success(Tries(FloorDiv(t.right, n), FloorDiv(t.wrong, n)))
  }

  /** `%` by a number; by 0 it raises `ZeroDivisionError`. */
  function ModBy(t: Tries, n: int): (r: Result<Tries, Exception>)
    ensures r.Failure? <==> n == 0
    ensures r.Failure? ==> r.error == ZeroDivisionError
  {
    if n == 0 then Failure(ZeroDivisionError)
    else Success(Tries(FloorMod(t.right, n), FloorMod(t.wrong, n)))
  }

  /** `t // n * n + t % n == t`, and every remainder count lies on the
      divisor's side of 0, below its size. */
  lemma DivModRecombine(t: Tries, n: int)
    requires n != 0
    ensures Add(Mul(FloorDivBy(t, n).value, n), ModBy(t, n).value) == t
    ensures var m := ModBy(t, n).value;
            if n > 0 then 0 <= m.right < n && 0 <= m.wrong < n
            else n < m.right <= 0 && n < m.wrong <= 0
  {
    FloorDivMod(t.right, n);
    FloorDivMod(t.wrong, n);
  }

  /** The six operators of `_compare_helper`. */
  datatype Comparison = Lt | Le | Eq | Ne | Gt | Ge

  /** The operator applied to two quotes. */
  function CompareQuotes(op: Comparison, x: real, y: real): bool
  {
    match op
    case Lt => x < y
    case Le => x <= y
    case Eq => x == y
    case Ne => x != y
    case Gt => x > y
    case Ge => x >= y
  }

  /** `a < b`, `a == b`, ...: the operator applied to the two intended quotes. */
  function Compare(op: Comparison, a: Tries, b: Tries): bool
  {
    CompareQuotes(op, Quote(a), Quote(b))
  }

  /** The operators AS WRITTEN, on the as-written quotes. */
  function CompareAsWritten(op: Comparison, a: Tries, b: Tries): bool
  {
    CompareQuotes(op, QuoteAsWritten(a), QuoteAsWritten(b))
  }

  /** As written, `==` between values with tries compares the right counts
      alone, so `Tries(1, 1) == Tries(5, 5)` is false although both are at 50
      percent. */
  lemma EqualityAsWritten(a: Tries, b: Tries)
    requires a.Total() != 0 && b.Total() != 0
    ensures CompareAsWritten(Eq, a, b) <==> a.right == b.right
    ensures !CompareAsWritten(Eq, Tries(1, 1), Tries(5, 5)) && Compare(Eq, Tries(1, 1), Tries(5, 5))
  {
    QuoteScaleInvariant(Tries(1, 1), 5);
  }

  /** Comparisons see nothing but the quotes: values with the same quotes
      compare alike, and the six operators form one total order on them. */
  lemma CompareSeesOnlyQuote(op: Comparison, a: Tries, b: Tries, c: Tries, d: Tries)
    requires Quote(a) == Quote(c) && Quote(b) == Quote(d)
    ensures Compare(op, a, b) == Compare(op, c, d)
    ensures Compare(Eq, a, b) <==> !Compare(Ne, a, b)
    ensures Compare(Lt, a, b) <==> !Compare(Ge, a, b)
    ensures Compare(Gt, a, b) <==> Compare(Lt, b, a)
    ensures Compare(Le, a, b) <==> Compare(Lt, a, b) || Compare(Eq, a, b)
  {
  }

  /** `==` is not equality of counts: `Tries(1, 1) == Tries(5, 5)` holds, and so
      does `Tries(1, 0) - Tries(1, 0) == Tries(0, 0)`. */
  lemma EqualityIsOnQuotes()
    ensures Compare(Eq, Tries(1, 1), Tries(5, 5))
    ensures Compare(Eq, Sub(Tries(1, 0), Tries(1, 0)), Tries(0, 0))
    ensures Compare(Lt, Tries(1, 5), Tries(2, 5)) && Compare(Gt, Tries(4, 5), Tries(3, 5))
  {
    QuoteScaleInvariant(Tries(1, 1), 5);
  }

  /** `reciprocal`: `1 / quote`, or 1 where that division by zero is caught. */
  function Reciprocal(t: Tries): (r: real)
    ensures Quote(t) != 0.0 ==> r * Quote(t) == 1.0
    ensures Quote(t) == 0.0 ==> r == 1.0
    ensures t.right >= 0 && t.wrong >= 0 ==> r > 0.0
  {
    if Quote(t) == 0.0 then 1.0 else 1.0 / Quote(t)
  }

  /** `reciprocal` AS WRITTEN, over the as-written quote. */
  function ReciprocalAsWritten(t: Tries): (r: real)
    ensures QuoteAsWritten(t) != 0.0 ==> r * QuoteAsWritten(t) == 1.0
    ensures QuoteAsWritten(t) == 0.0 ==> r == 1.0
  {
    if QuoteAsWritten(t) == 0.0 then 1.0 else 1.0 / QuoteAsWritten(t)
  }

  /** The weight of `Tries(3, 1)` in the draw is `1/300` as written, against
      `1/75` as intended. */
  lemma ReciprocalAsWrittenCounterexample()
    ensures ReciprocalAsWritten(Tries(3, 1)) == 1.0 / 300.0
    ensures Reciprocal(Tries(3, 1)) == 1.0 / 75.0
  {
    QuoteAsWrittenCounterexample();
  }

  /** `__rfloordiv__` and `__rmod__`: the same `(self, other)` helpers as `//`
      and `%`, so `n // t` computes `t // n`. */
  function RFloorDivBy(self: Tries, other: int): Result<Tries, Exception>
  {
    FloorDivBy(self, other)
  }

  function RModBy(self: Tries, other: int): Result<Tries, Exception>
  {
    ModBy(self, other)
  }

  /** `7 // Tries(2, 3)` divides the counts by 7 rather than 7 by the counts,
      and `7 % Tries(2, 3)` keeps the counts instead of giving `7 % 2` and
      `7 % 3`. */
  lemma ReflectedNumberOpsNotReversed()
    ensures RFloorDivBy(Tries(2, 3), 7) == Success(Tries(0, 0))
    ensures FloorDiv(7, 2) == 3 && FloorDiv(7, 3) == 2
    ensures RModBy(Tries(2, 3), 7) == Success(Tries(2, 3))
    ensures FloorMod(7, 2) == 1 && FloorMod(7, 3) == 1
  {
  }

  /** `str(t)`: `Tries: <right>/<total>`. */
  function Str(t: Tries): string
  {
    "Tries: " + Text.IntToString(t.right) + "/" + Text.IntToString(t.Total())
  }

  /** A rendered integer holds no `/`. */
  lemma NoSlashInInt(i: int)
    ensures '/' !in Text.IntToString(i)
  {
    var s := Text.IntToString(i);
    if i < 0 {
      assert s == "-" + Text.NatToString(-i);
      forall k | 0 <= k < |s| ensures s[k] != '/' {
        if k > 0 {
          assert s[k] == Text.NatToString(-i)[k - 1];
        }
      }
    }
  }

  /** In `x + "/" + y` with no `/` in `x`, the first `/` is at `|x|`. */
  lemma FirstSlashAt(x: string, y: string)
    requires '/' !in x
    ensures var s := x + "/" + y; s[|x|] == '/' && forall k :: 0 <= k < |x| ==> s[k] != '/'
  {
    var s := x + "/" + y;
    forall k | 0 <= k < |x| ensures s[k] != '/' {
      assert s[k] == x[k];
    }
  }

  /** Splitting at the first `/` is unambiguous. */
  lemma SplitAtSlash(x: string, y: string, x': string, y': string)
    requires '/' !in x && '/' !in x'
    requires x + "/" + y == x' + "/" + y'
    ensures x == x' && y == y'
  {
    FirstSlashAt(x, y);
    FirstSlashAt(x', y');
    var s := x + "/" + y;
    assert |x| == |x'|;
    assert x == s[..|x|] == x';
    assert y == s[|x| + 1..] == y';
  }

  /** Two values print alike exactly when their counts are the same, since the
      string shows the right count and the total. */
  lemma StrInjective(a: Tries, b: Tries)
    ensures Str(a) == Str(b) <==> a == b
  {
    if Str(a) == Str(b) {
      var p := "Tries: ";
      var ra, ta := Text.IntToString(a.right), Text.IntToString(a.Total());
      var rb, tb := Text.IntToString(b.right), Text.IntToString(b.Total());
      assert Str(a) == p + (ra + "/" + ta);
      assert Str(b) == p + (rb + "/" + tb);
      assert ra + "/" + ta == Str(a)[|p|..] == rb + "/" + tb;
      NoSlashInInt(a.right);
      NoSlashInInt(b.right);
      SplitAtSlash(ra, ta, rb, tb);
      Text.ParseIntToString(a.right);
      Text.ParseIntToString(b.right);
      Text.ParseIntToString(a.Total());
      Text.ParseIntToString(b.Total());
    }
  }
}
