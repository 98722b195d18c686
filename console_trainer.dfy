/** The console trainer of `main.py`: a `Vocabulary` that keeps its own counters
    and a real-valued quote, a `Vocabularies` deck drawing by the weights
    `1 / quote`, the summary `get_state`, and one round of the console loop. */
module ConsoleTrainer {
  import opened Wrappers
  import opened PyErrors
  import opened JsonValue
  import opened Directions
  import Draw
  import TS = TrainerStats

  /** The quote the `tries` setter stores:
      `100 / (tries + 1) * (tries_right + 1 / (tries_false + 2))`, in exact
      arithmetic (undefined where `tries + 1` is zero). */
  function SetterQuote(tries: int, right: nat, wrong: nat): real
    requires tries != -1
  {
    100.0 / (tries + 1) as real * (right as real + 1.0 / (wrong + 2) as real)
  }

  /** With the counters consistent, the quote lies strictly between 0 and 100, so
      every weight `1 / quote` is defined and positive. */
  lemma SetterQuoteBounds(right: nat, wrong: nat)
    ensures 0.0 < SetterQuote(right + wrong, right, wrong) < 100.0
  {
    var t := (right + wrong + 1) as real;
    var bonus := 1.0 / (wrong + 2) as real;
    assert 0.0 < bonus <= 0.5;
    var q := 100.0 / t * (right as real + bonus);
    assert q == 100.0 * (right as real + bonus) / t;
    assert right as real + bonus < t;
  }

  /** The fresh quote 50 is the setter's value for no tries at all. */
  lemma InitialQuoteIsSetterQuote()
    ensures SetterQuote(0, 0, 0) == 50.0
  {
  }

  /** A question: its terms, examples, counters, quote and direction. */
  class Vocabulary {
    const translations: seq<string>
    const sources: seq<string>
    const sourceExample: string
    const targetExample: string
    var quote: real
    var tries: int
    var triesRight: nat
    var triesFalse: nat
    var direction: Direction

    /** The counters agree, and the quote is the setter's. */
    ghost predicate Valid()
      reads this
    {
      tries == triesRight + triesFalse && quote == SetterQuote(tries, triesRight, triesFalse)
    }

    /** A fresh vocabulary: quote 50, every counter 0, FORWARD. */
    constructor (sources: seq<string>, translations: seq<string>, sourceExample: string, targetExample: string)
      ensures Valid()
      ensures this.sources == sources && this.translations == translations
      ensures this.sourceExample == sourceExample && this.targetExample == targetExample
      ensures quote == 50.0 && tries == 0 && triesRight == 0 && triesFalse == 0 && direction == Forward
    {
      this.translations := translations;
      this.sources := sources;
      this.sourceExample := sourceExample;
      this.targetExample := targetExample;
      quote := 50.0;
      tries := 0;
      triesRight := 0;
      triesFalse := 0;
      direction := Forward;
    }

    /** The `tries` setter: stores the value, then recomputes the quote; for the
        value -1 the division raises after the value has been stored. */
    method SetTries(value: int) returns (e: Option<Exception>)
      modifies this
      ensures tries == value && triesRight == old(triesRight) && triesFalse == old(triesFalse)
      ensures direction == old(direction)
      ensures value == -1 ==> e == Some(ZeroDivisionError) && quote == old(quote)
      ensures value != -1 ==> e == None && quote == SetterQuote(value, triesRight, triesFalse)
    {
      tries := value;
      if value + 1 == 0 {
        return Some(ZeroDivisionError);
      }
      quote := 100.0 / (tries + 1) as real * (triesRight as real + 1.0 / (triesFalse + 2) as real);
      e := None;
    }

    /** The scoring state: `tries`, `tries_right`, `tries_false` and the quote. */
    function Counters(): (int, nat, nat, real)
      reads this
    {
      (tries, triesRight, triesFalse, quote)
    }

    /** The side accepted as answers: `translations` FORWARD, `sources` BACKWARD. */
    function Accepted(): seq<string>
      reads this
    {
      if direction == Forward then translations else sources
    }

    /** `next_try(input_name)`: exact membership in the accepted side; exactly one
        counter grows by one, `tries` becomes their sum and the quote follows. */
    method NextTry(name: string) returns (correct: bool)
      requires Valid()
      modifies this
      ensures Valid() && direction == old(direction)
      ensures correct <==> name in old(Accepted())
      ensures correct ==> triesRight == old(triesRight) + 1 && triesFalse == old(triesFalse)
      ensures !correct ==> triesRight == old(triesRight) && triesFalse == old(triesFalse) + 1
      ensures 0.0 < quote < 100.0
    {
      if direction == Forward {
        correct := name in translations;
      } else {
        correct := name in sources;
      }
      if correct {
        triesRight := triesRight + 1;
      } else {
        triesFalse := triesFalse + 1;
      }
      var _ := SetTries(triesRight + triesFalse);
      SetterQuoteBounds(triesRight, triesFalse);
    }

    /** `set_random_direction`: either direction, unconditionally. */
    method SetRandomDirection()
      modifies this
      ensures tries == old(tries) && triesRight == old(triesRight) && triesFalse == old(triesFalse)
      ensures quote == old(quote)
    {
      var d: Direction :| true;
      direction := d;
    }

    /** The `name` property: a source FORWARD, a translation BACKWARD;
        `IndexError` when that side is empty. */
    method Name() returns (r: Result<string, Exception>)
      ensures r.Success? <==> |if direction == Forward then sources else translations| > 0
      ensures r.Success? ==> r.value in if direction == Forward then sources else translations
      ensures r.Failure? ==> r.error == IndexError
    {
      if direction == Forward {
        r := Draw.Choice(sources);
      } else {
        r := Draw.Choice(translations);
      }
    }
  }

  /** What `Vocabulary.from_json` reads: `word`, `translation` and the two
      examples under `example`. */
  datatype WordRecord = WordRecord(words: seq<string>, translations: seq<string>, source: string, target: string)

  /** `Vocabulary.from_json`'s lookups, in order: `example`, `word`, `translation`,
      `example["source"]`, `example["target"]`. */
  function DecodeWord(j: Json): Result<WordRecord, Exception>
  {
    var example :- Get(j, "example");
    var word :- Get(j, "word");
    var translation :- Get(j, "translation");
    var source :- Get(example, "source");
    var target :- Get(example, "target");
    var ws :- AsStrings(word);
    var ts :- AsStrings(translation);
    var s :- AsString(source);
    var t :- AsString(target);
    Success(WordRecord(ws, ts, s, t))
  }

  /** The object shape `from_json` expects. */
  function WordJson(w: WordRecord): Json
  {
    JObj(map[
      "word" := Strings(w.words),
      "translation" := Strings(w.translations),
      "example" := JObj(map["source" := JStr(w.source), "target" := JStr(w.target)])
    ])
  }

  /** Reading the expected shape gives back its contents. */
  lemma DecodeWordJson(w: WordRecord)
    ensures DecodeWord(WordJson(w)) == Success(w)
  {
    StringsRoundTrip(w.words);
    StringsRoundTrip(w.translations);
  }

  /** The first missing key decides the error: `example` is looked up before
      `word`, so an object lacking both fails on `example`. */
  lemma DecodeWordMissingKey(j: Json)
    requires j.JObj?
    ensures "example" !in j.fields ==> DecodeWord(j) == Failure(KeyError)
    ensures "example" in j.fields && "word" !in j.fields ==> DecodeWord(j) == Failure(KeyError)
    ensures "example" in j.fields && "word" in j.fields && "translation" !in j.fields ==> DecodeWord(j) == Failure(KeyError)
  {
  }

  /** `v` is the fresh vocabulary built from `w`: its terms and examples, every
      counter 0, quote 50, FORWARD. */
  ghost predicate BuiltFrom(v: Vocabulary, w: WordRecord)
    reads v
  {
    && v.sources == w.words && v.translations == w.translations
    && v.sourceExample == w.source && v.targetExample == w.target
    && v.Counters() == (0, 0, 0, 50.0) && v.direction == Forward
  }

  /** `Vocabulary.from_json`. */
  method VocabularyFromJson(j: Json) returns (r: Result<Vocabulary, Exception>)
    ensures r.Success? <==> DecodeWord(j).Success?
    ensures r.Failure? ==> r.error == DecodeWord(j).error
    ensures r.Success? ==> fresh(r.value) && r.value.Valid() && BuiltFrom(r.value, DecodeWord(j).value)
  {
    var d := DecodeWord(j);
    if d.Failure? {
      return Failure(d.error);
    }
    var w := d.value;
    var v := new Vocabulary(w.words, w.translations, w.source, w.target);
    r := Success(v);
  }

  /** The summed right tries of some vocabularies. */
  function SumRight(vs: seq<Vocabulary>): int
    reads set v | v in vs
  {
    if vs == [] then 0 else SumRight(vs[..|vs| - 1]) + vs[|vs| - 1].triesRight
  }

  /** The summed `tries` of some vocabularies. */
  function SumTries(vs: seq<Vocabulary>): int
    reads set v | v in vs
  {
    if vs == [] then 0 else SumTries(vs[..|vs| - 1]) + vs[|vs| - 1].tries
  }

  /** With consistent counters the right tries never exceed the tries. */
  lemma {:induction false} SumRightAtMostSumTries(vs: seq<Vocabulary>)
    requires forall v | v in vs :: v.Valid()
    ensures 0 <= SumRight(vs) <= SumTries(vs)
  {
    if vs != [] {
      var n := |vs|;
      assert vs[n - 1] in vs;
      assert forall v | v in vs[..n - 1] :: v in vs;
      SumRightAtMostSumTries(vs[..n - 1]);
    }
  }

  /** Python's `int(a / b)`: the quotient rounded toward zero. */
  function TruncDiv(a: int, b: int): int
    requires b != 0
  {
    var q := Abs(a) / Abs(b);
    if (a < 0) != (b < 0) then -q else q
  }

  function Abs(x: int): nat
  {
    if x < 0 then -x else x
  }

  /** `get_state`'s value: `(0, 0, 0)` when the summed tries are 0 (the caught
      division error), else the two sums and the truncated percentage. */
  function State(right: int, total: int): (s: (int, int, int))
  {
    if total == 0 then (0, 0, 0) else (right, total, TruncDiv(right * 100, total))
  }

  /** The percentage is a percentage: in 0..100 whenever the right tries are
      between 0 and the total, and 100 exactly when every try was right. */
  lemma StatePercentBounds(right: int, total: int)
    requires 0 <= right <= total
    ensures 0 <= State(right, total).2 <= 100
    ensures total > 0 ==> (State(right, total).2 == 100 <==> right == total)
  {
    if total > 0 {
      var a: nat := right * 100;
      assert TruncDiv(a, total) == a / total;
      TS.DivLeCross(a, total, 100, 1);
      if right == total {
        TS.MulDiv(100, total);
        assert a == 100 * total;
      }
      if a / total == 100 {
        TS.QuotientLowerBound(a, total, 100);
      }
    }
  }

  /** `Vocabularies`: the deck, the index of the current question and whether
      directions are randomized. */
  class Vocabularies {
    var vocabularies: seq<Vocabulary>
    var currentIndex: nat
    const randomDirection: bool

    ghost predicate Valid()
      reads this, set v | v in vocabularies
    {
      && (forall v | v in vocabularies :: v.Valid())
      && (|vocabularies| > 0 ==> currentIndex < |vocabularies|)
    }

    constructor (vocabularies: seq<Vocabulary>, randomDirection: bool)
      ensures this.vocabularies == vocabularies && currentIndex == 0 && this.randomDirection == randomDirection
    {
      this.vocabularies := vocabularies;
      currentIndex := 0;
      this.randomDirection := randomDirection;
    }

    /** `__add__(other)`: appends a `Vocabulary` in place (returning nothing) and
        ignores anything else. */
    method Add(other: object)
      modifies this
      ensures other is Vocabulary ==> vocabularies == old(vocabularies) + [other as Vocabulary]
      ensures !(other is Vocabulary) ==> vocabularies == old(vocabularies)
      ensures currentIndex == old(currentIndex)
    {
      if other is Vocabulary {
        vocabularies := vocabularies + [other as Vocabulary];
      }
    }

    /** `get_new_vocabulary`: some index (every weight `1 / quote` is positive), a
        new direction for that vocabulary when `random_direction` is set, and the
        vocabulary itself; `IndexError` for an empty deck. */
    method GetNewVocabulary() returns (r: Result<Vocabulary, Exception>)
      requires Valid()
      modifies this, set v | v in vocabularies
      ensures vocabularies == old(vocabularies) && Valid()
      ensures r.Success? <==> |vocabularies| > 0
      ensures r.Failure? ==> r.error == IndexError && currentIndex == old(currentIndex)
      ensures r.Success? ==> currentIndex < |vocabularies| && r.value == vocabularies[currentIndex]
      ensures forall v | v in vocabularies && (v != r.value || !randomDirection) :: v.direction == old(v.direction)
      ensures forall v | v in vocabularies :: v.Counters() == old(v.Counters())
    {
      forall v | v in vocabularies ensures 0.0 < 1.0 / v.quote {
        SetterQuoteBounds(v.triesRight, v.triesFalse);
      }
      var k := Draw.PositiveWeightedIndex(|vocabularies|);
      if k.Failure? {
        return Failure(k.error);
      }
      currentIndex := k.value;
      var v := vocabularies[currentIndex];
      if randomDirection {
        v.SetRandomDirection();
      }
      r := Success(v);
    }

    /** `next_try(name)`, answered by the current vocabulary; `IndexError` on an
        empty deck. */
    method NextTry(name: string) returns (r: Result<bool, Exception>)
      requires Valid()
      modifies if |vocabularies| > 0 then {vocabularies[currentIndex]} else {}
      ensures Valid()
      ensures |vocabularies| == 0 ==> r == Failure(IndexError)
      ensures |vocabularies| > 0 ==> r.Success? && (r.value <==> name in old(vocabularies[currentIndex].Accepted()))
      ensures |vocabularies| > 0 ==> AfterTry(vocabularies[currentIndex], old(vocabularies[currentIndex].Counters()), r.value)
      ensures |vocabularies| > 0 ==> vocabularies[currentIndex].direction == old(vocabularies[currentIndex].direction)
    {
      if |vocabularies| == 0 {
        return Failure(IndexError);
      }
      var v := vocabularies[currentIndex];
      var c := v.NextTry(name);
      r := Success(c);
    }

    /** `get_state`: the summed right tries, the summed tries and the percentage. */
    function GetState(): (s: (int, int, int))
      reads this, set v | v in vocabularies
      requires Valid()
      ensures s == State(SumRight(vocabularies), SumTries(vocabularies))
      ensures 0 <= s.2 <= 100
    {
      SumRightAtMostSumTries(vocabularies);
      StatePercentBounds(SumRight(vocabularies), SumTries(vocabularies));
      State(SumRight(vocabularies), SumTries(vocabularies))
    }
  }

  /** Item `i` is the first one that does not decode, and fails with `e`. */
  predicate FirstFailure(items: seq<Json>, i: int, e: Exception)
  {
    && 0 <= i < |items| && DecodeWord(items[i]) == Failure(e)
    && forall k :: 0 <= k < i ==> DecodeWord(items[k]).Success?
  }

  /** `Vocabularies.from_json(json_data, random_direction)`: one vocabulary per
      item iterated, the first failure raised. */
  method VocabulariesFromJson(j: Json, randomDirection: bool) returns (r: Result<Vocabularies, Exception>)
    ensures r.Success? <==> Iterate(j).Success? && forall i :: 0 <= i < |Iterate(j).value| ==> DecodeWord(Iterate(j).value[i]).Success?
    ensures r.Failure? && Iterate(j).Failure? ==> r.error == TypeError
    ensures r.Failure? && Iterate(j).Success? ==> exists i :: FirstFailure(Iterate(j).value, i, r.error)
    ensures r.Success? ==> && fresh(r.value) && r.value.Valid() && |r.value.vocabularies| == |Iterate(j).value|
                           && r.value.randomDirection == randomDirection && r.value.currentIndex == 0
                           && forall i :: 0 <= i < |Iterate(j).value| ==> BuiltFrom(r.value.vocabularies[i], DecodeWord(Iterate(j).value[i]).value)
  {
    var items := Iterate(j);
    if items.Failure? {
      return Failure(items.error);
    }
    var out: seq<Vocabulary> := [];
    var i := 0;
    while i < |items.value|
      invariant 0 <= i <= |items.value| && |out| == i
      invariant forall k :: 0 <= k < i ==> DecodeWord(items.value[k]).Success?
      invariant forall k :: 0 <= k < i ==> fresh(out[k]) && out[k].Valid() && BuiltFrom(out[k], DecodeWord(items.value[k]).value)
    {
      var v := VocabularyFromJson(items.value[i]);
      if v.Failure? {
        assert FirstFailure(items.value, i, v.error);
        return Failure(v.error);
      }
      out := out + [v.value];
      i := i + 1;
    }
    var deck := new Vocabularies(out, randomDirection);
    r := Success(deck);
  }

  /** What one round of the console loop does with the typed answer. */
  datatype Outcome =
    | Exit(state: (int, int, int))      // `exit`: the summary, then the loop ends
    | Summary(state: (int, int, int))   // `stats`: the summary, then the next round
    | Shown(translations: seq<string>)  // `skip`: the translations, nothing scored
    | Scored(correct: bool)             // anything else: `next_try`

  /** The counters after one scored answer: exactly one of `tries_right` and
      `tries_false` grew by one from `before`, `tries` is their sum and the quote
      is the setter's. */
  ghost predicate AfterTry(v: Vocabulary, before: (int, nat, nat, real), correct: bool)
    reads v
  {
    && v.triesRight == before.1 + (if correct then 1 else 0)
    && v.triesFalse == before.2 + (if correct then 0 else 1)
    && v.tries == v.triesRight + v.triesFalse
    && v.quote == SetterQuote(v.tries, v.triesRight, v.triesFalse)
  }

  /** One round after `vocabulary := get_new_vocabulary()`: the keywords `exit`,
      `stats` and `skip` are handled without scoring; any other answer is scored. */
  method Respond(deck: Vocabularies, vocabulary: Vocabulary, name: string) returns (o: Outcome)
    requires deck.Valid() && |deck.vocabularies| > 0 && vocabulary == deck.vocabularies[deck.currentIndex]
    modifies vocabulary
    ensures deck.Valid()
    ensures name == "exit" ==> o == Exit(old(deck.GetState())) && unchanged(vocabulary)
    ensures name == "stats" ==> o == Summary(old(deck.GetState())) && unchanged(vocabulary)
    ensures name == "skip" ==> o == Shown(vocabulary.translations) && unchanged(vocabulary)
    ensures name !in ["exit", "stats", "skip"] ==> && o.Scored? && (o.correct <==> name in old(vocabulary.Accepted()))
                                                   && AfterTry(vocabulary, old(vocabulary.Counters()), o.correct)
                                                   && vocabulary.direction == old(vocabulary.direction)
  {
    if name in ["exit", "stats"] {
      var s := deck.GetState();
      if name == "exit" {
        return Exit(s);
      }
      return Summary(s);
    } else if name == "skip" {
      return Shown(vocabulary.translations);
    }
    var c := deck.NextTry(name);
    o := Scored(c.value);
  }
}
