/** Python's `random.choice`, `random.randint` and `random.choices`, modelled as
    nondeterministic choices: what can be drawn is stated, how likely it is is not. */
module Draw {
  import opened Wrappers
  import opened PyErrors

  /** `random.randint(0, n - 1)`: some index of a sequence of length `n`; for
      `n == 0` the empty range raises `ValueError`. */
  method RandInt(n: nat) returns (r: Result<nat, Exception>)
    ensures r.Success? <==> n > 0
    ensures r.Success? ==> r.value < n
    ensures r.Failure? ==> r.error == ValueError
  {
    if n == 0 {
      return Failure(ValueError);
    }
    var i :| 0 <= i < n;
    r := Success(i);
  }

  /** `random.choice(items)`: some member; `IndexError` on an empty sequence. */
  method Choice<T>(items: seq<T>) returns (r: Result<T, Exception>)
    ensures r.Success? <==> |items| > 0
    ensures r.Success? ==> r.value in items
    ensures r.Failure? ==> r.error == IndexError
  {
    if |items| == 0 {
      return Failure(IndexError);
    }
    var i :| 0 <= i < |items|;
    r := Success(items[i]);
  }

  function Sum(weights: seq<nat>): nat
  {
    if weights == [] then 0 else Sum(weights[..|weights| - 1]) + weights[|weights| - 1]
  }

  /** A positive total has a positive summand. */
  lemma {:induction false} PositiveSumHasPositiveWeight(weights: seq<nat>)
    requires Sum(weights) > 0
    ensures exists i :: 0 <= i < |weights| && weights[i] > 0
  {
    var n := |weights|;
    if weights[n - 1] == 0 {
      PositiveSumHasPositiveWeight(weights[..n - 1]);
      var i :| 0 <= i < n - 1 && weights[..n - 1][i] > 0;
      assert weights[i] > 0;
    }
  }

  /** Only all-zero weights sum to zero. */
  lemma {:induction false} ZeroSumIffAllZero(weights: seq<nat>)
    ensures Sum(weights) == 0 <==> forall i :: 0 <= i < |weights| ==> weights[i] == 0
  {
    if weights != [] {
      var n := |weights|;
      ZeroSumIffAllZero(weights[..n - 1]);
      if Sum(weights) == 0 {
        forall i | 0 <= i < n ensures weights[i] == 0 {
          if i < n - 1 {
            assert weights[..n - 1][i] == weights[i];
          }
        }
      } else {
        PositiveSumHasPositiveWeight(weights);
      }
    }
  }

  /** `random.choices(range(len(weights)), weights=weights)[0]` with non-negative
      weights: an empty population raises `IndexError`, a zero total raises
      `ValueError`, and otherwise the draw is an index whose weight is positive
      (cumulative-weight bisection never lands on a weight-zero entry). */
  method WeightedIndex(weights: seq<nat>) returns (r: Result<nat, Exception>)
    ensures r.Success? <==> Sum(weights) > 0
    ensures r.Success? ==> r.value < |weights| && weights[r.value] > 0
    ensures r.Failure? ==> r.error == (if |weights| == 0 then IndexError else ValueError)
  {
    if |weights| == 0 {
      return Failure(IndexError);
    }
    if Sum(weights) == 0 {
      return Failure(ValueError);
    }
    PositiveSumHasPositiveWeight(weights);
    var i :| 0 <= i < |weights| && weights[i] > 0;
    r := Success(i);
  }

  /** `random.choices` over a non-empty population whose weights are all positive
      (as with the `1 / quote` weights): any index can be drawn. */
  method PositiveWeightedIndex(n: nat) returns (r: Result<nat, Exception>)
    ensures r.Success? <==> n > 0
    ensures r.Success? ==> r.value < n
    ensures r.Failure? ==> r.error == IndexError
  {
    if n == 0 {
      return Failure(IndexError);
    }
    var i :| 0 <= i < n;
    r := Success(i);
  }
}
