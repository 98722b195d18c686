/** The draft `new.py`: its `Stats` and `SimpleVocabulary` are the ones of
    `vocabulary_trainer/vocabularies.py` line for line, and are taken from that
    model; its `Vocabulary` adds a `max_tries` counter, never leaves FORWARD and
    reads a differently keyed dictionary. */
module NewVocabulary {
  import opened Wrappers
  import opened PyErrors
  import opened JsonValue
  import opened Directions
  import TS = TrainerStats
  import TV = TrainerVocabularies

  /** A two-sided vocabulary over ONE `Stats` object, with the `max_tries`
      counter (starting at the `tries` argument) and `current_tries` (always 0). */
  class Vocabulary {
    const forward: TV.SimpleVocabulary
    const backward: TV.SimpleVocabulary
    var direction: Direction
    const randomDirection: bool
    var maxTries: int
    var currentTries: int

    /** The two sides mirror each other over one `Stats`. */
    ghost predicate Valid()
      reads this, forward.stats
    {
      && backward.stats == forward.stats
      && backward.sources == forward.translations && backward.translations == forward.sources
      && backward.sourceExample == forward.targetExample && backward.targetExample == forward.sourceExample
      && forward.stats.Valid()
    }

    constructor (sources: seq<string>, translations: seq<string>, sourceExample: string,
                 targetExample: string, stats: TV.Stats, randomDirection: bool := true, tries: int := 1)
      requires stats.Valid()
      ensures Valid() && forward.stats == stats && this.randomDirection == randomDirection && direction == Forward
      ensures forward.sources == sources && forward.translations == translations
      ensures forward.sourceExample == sourceExample && forward.targetExample == targetExample
      ensures maxTries == tries && currentTries == 0
    {
      forward := new TV.SimpleVocabulary(sources, translations, sourceExample, targetExample, stats);
      backward := new TV.SimpleVocabulary(translations, sources, targetExample, sourceExample, stats);
      direction := Forward;
      this.randomDirection := randomDirection;
      maxTries := tries;
      currentTries := 0;
    }

    /** `next_try(name)`: `max_tries` grows by one whatever the answer, and the
        direction, which no method of this draft changes from FORWARD, picks the
        accepted side. */
    method NextTry(name: string) returns (r: TV.Reply)
      requires Valid()
      modifies this, forward.stats
      ensures Valid()
      ensures maxTries == old(maxTries) + 1 && currentTries == old(currentTries) && direction == old(direction)
      ensures r == TV.Check(if direction == Forward then forward.translations else forward.sources, name)
      ensures forward.stats.Value() ==
                if r.Hit? then TS.Counts(old(forward.stats.triesRight) + 1, old(forward.stats.triesFalse))
                else TS.Counts(old(forward.stats.triesRight), old(forward.stats.triesFalse) + 1)
    {
      maxTries := maxTries + 1;
      if direction == Forward {
        r := forward.NextTry(name);
      } else {
        r := backward.NextTry(name);
      }
    }

    /** The `translation` property. */
    method Translation() returns (r: Result<string, Exception>)
      requires Valid()
      ensures r.Success? <==> |if direction == Forward then forward.translations else forward.sources| > 0
      ensures r.Success? ==> r.value in if direction == Forward then forward.translations else forward.sources
      ensures r.Failure? ==> r.error == IndexError
    {
      if direction == Forward {
        r := forward.Translation();
      } else {
        r := backward.Translation();
      }
    }

    /** The `source` property. */
    method Source() returns (r: Result<string, Exception>)
      requires Valid()
      ensures r.Success? <==> |if direction == Forward then forward.sources else forward.translations| > 0
      ensures r.Success? ==> r.value in if direction == Forward then forward.sources else forward.translations
      ensures r.Failure? ==> r.error == IndexError
    {
      if direction == Forward {
        r := forward.Source();
      } else {
        r := backward.Source();
      }
    }
  }

  /** What `Vocabulary.from_json` reads. */
  datatype Record = Record(sources: seq<string>, translations: seq<string>, source: string, target: string,
                           stats: TS.Counts)

  /** `Vocabulary.from_json`'s lookups in the order Python evaluates them:
      `example`, `sources`, `translations`, `example["source"]`,
      `example["target"]`, `stats`, then `Stats.from_json` on the last. */
  function Decode(j: Json): Result<Record, Exception>
  {
    var example :- Get(j, "example");
    var sources :- Get(j, "sources");
    var translations :- Get(j, "translations");
    var source :- Get(example, "source");
    var target :- Get(example, "target");
    var stats :- Get(j, "stats");
    var counts :- TS.StatsFromDict(stats);
    var ss :- AsStrings(sources);
    var ts :- AsStrings(translations);
    var s :- AsString(source);
    var t :- AsString(target);
    Success(Record(ss, ts, s, t, counts))
  }

  /** The dictionary shape `from_json` expects, with the counters written as
      `tries_right` and `tries_total`. */
  function Encode(r: Record): Json
  {
    JObj(map[
      "sources" := Strings(r.sources),
      "translations" := Strings(r.translations),
      "example" := JObj(map["source" := JStr(r.source), "target" := JStr(r.target)]),
      "stats" := JObj(map["tries_right" := JInt(r.stats.right), "tries_total" := JInt(r.stats.wrong)])
    ])
  }

  /** Reading the expected shape gives back its contents: `tries_total` lands in
      the false counter. */
  lemma DecodeEncode(r: Record)
    ensures Decode(Encode(r)) == Success(r)
  {
    StringsRoundTrip(r.sources);
    StringsRoundTrip(r.translations);
  }

  /** `Vocabulary.from_json`: `random_direction` and `tries` at their defaults. */
  method FromJson(j: Json) returns (r: Result<Vocabulary, Exception>)
    ensures r.Success? <==> Decode(j).Success?
    ensures r.Failure? ==> r.error == Decode(j).error
    ensures r.Success? ==> && fresh(r.value) && fresh(r.value.forward.stats) && r.value.Valid()
                           && var d := Decode(j).value;
                              && r.value.forward.sources == d.sources && r.value.forward.translations == d.translations
                              && r.value.forward.sourceExample == d.source && r.value.forward.targetExample == d.target
                              && r.value.forward.stats.Value() == d.stats
                              && r.value.randomDirection && r.value.maxTries == 1 && r.value.direction == Forward
  {
    var d := Decode(j);
    if d.Failure? {
      return Failure(d.error);
    }
    var v := d.value;
    var stats := new TV.Stats(v.stats.right, v.stats.wrong);
    var voc := new Vocabulary(v.sources, v.translations, v.source, v.target, stats);
    r := Success(voc);
  }
}
