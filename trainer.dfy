/** The vocabulary classes of `vocabulary_trainer/__init__.py`: the one-sided
    `_SimpleVocabulary`, the two-directional `Vocabulary` whose two sides share one
    `Stats` object, the weighted `TreeVocabulary` group, the `VocabularyList` and the
    named `Vocabularies` deck, with their dictionary forms. */
module Trainer {
  import opened Wrappers
  import opened PyErrors
  import opened JsonValue
  import opened TrainerStats
  import opened TrainerJson
  import opened Directions
  import Draw

  /** The pair `next_try` returns: `(True, None)` on a hit, `(False, tuple(translations))`
      on a miss. */
  datatype TryResult = TryResult(correct: bool, expected: Option<seq<string>>)

  /** Scoring an answer against the accepted list: exact membership. */
  function Answer(accepted: seq<string>, name: string): TryResult
  {
    if name in accepted then TryResult(true, None) else TryResult(false, Some(accepted))
  }

  /** `_SimpleVocabulary`: one side of a vocabulary, scoring into a `Stats` object
      that it does not own exclusively. */
  class SimpleVocabulary {
    const stats: Stats
    const targetExample: string
    const sourceExample: string
    const translations: seq<string>
    const sources: seq<string>

    constructor (sources: seq<string>, translations: seq<string>, sourceExample: string,
                 targetExample: string, stats: Stats)
      ensures this.sources == sources && this.translations == translations
      ensures this.sourceExample == sourceExample && this.targetExample == targetExample
      ensures this.stats == stats
    {
      this.stats := stats;
      this.targetExample := targetExample;
      this.sourceExample := sourceExample;
      this.translations := translations;
      this.sources := sources;
    }

    /** The `translation` property: some translation; `IndexError` when there is none. */
    method Translation() returns (r: Result<string, Exception>)
      ensures r.Success? <==> |translations| > 0
      ensures r.Success? ==> r.value in translations
      ensures r.Failure? ==> r.error == IndexError
    {
      r := Draw.Choice(translations);
    }

    /** The `source` property: some source; `IndexError` when there is none. */
    method Source() returns (r: Result<string, Exception>)
      ensures r.Success? <==> |sources| > 0
      ensures r.Success? ==> r.value in sources
      ensures r.Failure? ==> r.error == IndexError
    {
      r := Draw.Choice(sources);
    }

    /** `next_try(name)`: a hit counts one right try, a miss one wrong try, and
        the miss reports the accepted translations. */
    method NextTry(name: string) returns (r: TryResult)
      requires stats.Valid()
      modifies stats
      ensures stats.Valid()
      ensures r.correct <==> name in translations
      ensures r.expected == if r.correct then None else Some(translations)
      ensures stats.Value() == if r.correct then Counts(old(stats.rightTries) + 1, old(stats.wrongTries))
                                          else Counts(old(stats.rightTries), old(stats.wrongTries) + 1)
    {
      if name in translations {
        stats.RightTry();
        return TryResult(true, None);
      } else {
        stats.WrongTry();
        return TryResult(false, Some(translations));
      }
    }
  }

  /** `Vocabulary`: a forward and a backward `_SimpleVocabulary` built over ONE
      `Stats` object, and the direction that picks between them. */
  class Vocabulary {
    const forward: SimpleVocabulary
    const backward: SimpleVocabulary
    var direction: Direction
    const randomDirection: bool
    const states: Stats

    /** The backward side mirrors the forward one, and both score into `states`. */
    ghost predicate Valid()
      reads states
    {
      && forward.stats == states && backward.stats == states
      && backward.sources == forward.translations && backward.translations == forward.sources
      && backward.sourceExample == forward.targetExample && backward.targetExample == forward.sourceExample
      && states.Valid()
    }

    constructor (sources: seq<string>, translations: seq<string>, sourceExample: string,
                 targetExample: string, stats: Stats, randomDirection: bool := true)
      requires stats.Valid()
      ensures Valid() && states == stats
      ensures Base() == VocabRecord(sources, translations, sourceExample, targetExample, stats.Value())
      ensures direction == Forward && this.randomDirection == randomDirection
    {
      forward := new SimpleVocabulary(sources, translations, sourceExample, targetExample, stats);
      backward := new SimpleVocabulary(translations, sources, targetExample, sourceExample, stats);
      direction := Forward;
      this.randomDirection := randomDirection;
      states := stats;
    }

    /** The vocabulary as it was constructed (its forward reading). */
    function Base(): VocabRecord
      reads states
    {
      VocabRecord(forward.sources, forward.translations, forward.sourceExample, forward.targetExample, states.Value())
    }

    /** The side the direction selects. */
    function Side(): (s: SimpleVocabulary)
      reads this
      ensures s == if direction == Forward then forward else backward
    {
      if direction == Forward then forward else backward
    }

    /** The `translations` property: the side accepted as answers. */
    function Translations(): (r: seq<string>)
      reads this, states
      requires Valid()
      ensures r == if direction == Forward then forward.translations else forward.sources
    {
      Side().translations
    }

    /** The `sources` property: the side asked about. */
    function Sources(): (r: seq<string>)
      reads this, states
      requires Valid()
      ensures r == if direction == Forward then forward.sources else forward.translations
    {
      Side().sources
    }

    /** The properties `to_json` reads: in BACKWARD, sources/targets and the two
        examples come out swapped. */
    function Record(): (r: VocabRecord)
      reads this, states
      requires Valid()
      ensures r == if direction == Forward then Base() else Swap(Base())
    {
      VocabRecord(Side().sources, Side().translations, Side().sourceExample, Side().targetExample, states.Value())
    }

    /** `to_json`. */
    function ToJson(): (j: Json)
      reads this, states
      requires Valid()
      ensures j == EncodeVocab(if direction == Forward then Base() else Swap(Base()))
    {
      var side := Side();
      JObj(map[
        "sources" := Strings(side.sources),
        "targets" := Strings(side.translations),
        "stats" := states.ToJson(),
        "examples" := JObj(map["target" := JStr(side.targetExample), "source" := JStr(side.sourceExample)])
      ])
    }

    /** The `translation` property. */
    method Translation() returns (r: Result<string, Exception>)
      requires Valid()
      ensures r.Success? <==> |Translations()| > 0
      ensures r.Success? ==> r.value in Translations()
      ensures r.Failure? ==> r.error == IndexError
    {
      r := Side().Translation();
    }

    /** The `source` property. */
    method Source() returns (r: Result<string, Exception>)
      requires Valid()
      ensures r.Success? <==> |Sources()| > 0
      ensures r.Success? ==> r.value in Sources()
      ensures r.Failure? ==> r.error == IndexError
    {
      r := Side().Source();
    }

    /** `next_try(name)`: scored by the side the direction selects, into the
        shared counters; in BACKWARD the accepted answers are the sources. */
    method NextTry(name: string) returns (r: TryResult)
      requires Valid()
      modifies states
      ensures Valid()
      ensures r == Answer(if direction == Forward then forward.translations else forward.sources, name)
      ensures states.Value() == if r.correct then Counts(old(states.rightTries) + 1, old(states.wrongTries))
                                           else Counts(old(states.rightTries), old(states.wrongTries) + 1)
    {
      if direction == Forward {
        r := forward.NextTry(name);
      } else {
        r := backward.NextTry(name);
      }
    }

    /** `randomize_vocabulary_direction`: some direction when `random_direction`
        is set, otherwise nothing changes. */
    method RandomizeDirection()
      modifies this
      ensures !randomDirection ==> direction == old(direction)
    {
      if randomDirection {
        var d: Direction :| true;
        direction := d;
      }
    }

    /** `Vocabulary.from_json(data, random_direction)`. */
    static method FromJson(j: Json, randomDirection: bool := true) returns (r: Result<Vocabulary, Exception>)
      ensures r.Success? <==> DecodeVocab(j).Success?
      ensures r.Failure? ==> r.error == DecodeVocab(j).error
      ensures r.Success? ==> && fresh(r.value) && fresh(r.value.states) && r.value.Valid()
                             && r.value.Base() == DecodeVocab(j).value
                             && r.value.direction == Forward && r.value.randomDirection == randomDirection
    {
      var d := DecodeVocab(j);
      if d.Failure? {
        return Failure(d.error);
      }
      var voc := FromRecord(d.value, randomDirection);
      r := Success(voc);
    }

    /** A fresh forward vocabulary holding `v`, over fresh counters. */
    static method FromRecord(v: VocabRecord, randomDirection: bool) returns (voc: Vocabulary)
      ensures fresh(voc) && fresh(voc.states) && voc.Valid() && voc.Base() == v
      ensures voc.direction == Forward && voc.randomDirection == randomDirection
    {
      var stats := new Stats(v.stats.right, v.stats.wrong);
      voc := new Vocabulary(v.sources, v.targets, v.sourceExample, v.targetExample, stats, randomDirection);
    }
  }

  /** Fresh forward vocabularies, each with `random_direction` set, holding `vs`. */
  method BuildVocabularies(vs: seq<VocabRecord>) returns (out: seq<Vocabulary>)
    ensures |out| == |vs|
    ensures forall i :: 0 <= i < |vs| ==> && fresh(out[i]) && fresh(out[i].states) && out[i].Valid()
                                          && out[i].direction == Forward && out[i].randomDirection
                                          && out[i].Record() == vs[i]
  {
    out := [];
    var i := 0;
    while i < |vs|
      invariant 0 <= i <= |vs| && |out| == i
      invariant forall k :: 0 <= k < i ==> && fresh(out[k]) && fresh(out[k].states) && out[k].Valid()
                                           && out[k].direction == Forward && out[k].randomDirection
                                           && out[k].Record() == vs[k]
    {
      var v := Vocabulary.FromRecord(vs[i], true);
      out := out + [v];
      i := i + 1;
    }
  }

  /** The `Stats` objects of some vocabularies. */
  function StatsList(vs: seq<Vocabulary>): (r: seq<Stats>)
    ensures |r| == |vs| && forall i :: 0 <= i < |vs| ==> r[i] == vs[i].states
  {
    seq(|vs|, i requires 0 <= i < |vs| => vs[i].states)
  }

  ghost function StatsObjects(vs: seq<Vocabulary>): set<Stats>
  {
    set v | v in vs :: v.states
  }

  ghost predicate AllValid(vs: seq<Vocabulary>)
    reads StatsObjects(vs)
  {
    forall i :: 0 <= i < |vs| ==> vs[i].Valid()
  }

  /** The stored quotes, the selection weights of `TreeVocabulary.get_new_vocabulary`
      (`quote / 100`, scaled by 100). */
  function Quotes(vs: seq<Vocabulary>): (r: seq<nat>)
    reads StatsObjects(vs)
    ensures |r| == |vs| && forall i :: 0 <= i < |vs| ==> r[i] == vs[i].states.quote
  {
    if vs == [] then [] else Quotes(vs[..|vs| - 1]) + [vs[|vs| - 1].states.quote]
  }

  /** Every member's stored quote is 0. */
  predicate AllQuotesZero(vs: seq<Vocabulary>)
    reads StatsObjects(vs)
  {
    forall i :: 0 <= i < |vs| ==> vs[i].states.quote == 0
  }

  /** The value of `vs` as `to_json` would write each. */
  function Records(vs: seq<Vocabulary>): (r: seq<VocabRecord>)
    reads (set v | v in vs), StatsObjects(vs)
    requires AllValid(vs)
    ensures |r| == |vs| && forall i :: 0 <= i < |vs| ==> r[i] == vs[i].Record()
  {
    if vs == [] then [] else Records(vs[..|vs| - 1]) + [vs[|vs| - 1].Record()]
  }

  /** `TreeVocabulary`: a main vocabulary with sub-vocabularies, one of which is
      current after a draw. */
  class TreeVocabulary {
    const main: Vocabulary
    const subs: seq<Vocabulary>
    const all: seq<Vocabulary>
    var current: Vocabulary?

    /** The member objects and their counters. */
    ghost const Members: set<Vocabulary>
    ghost const StatsSet: set<Stats>

    /** The footprints describe the members, and every member is consistent. */
    ghost predicate Sound()
      reads StatsSet
    {
      && all == subs + [main]
      && Members == (set v | v in all)
      && StatsSet == StatsObjects(all)
      && AllValid(all)
    }

    ghost predicate Valid()
      reads this, StatsSet
    {
      Sound() && (current != null ==> current in all)
    }

    /** Soundness depends on the members' counters alone. */
    twostate lemma SoundStays()
      requires old(Sound()) && unchanged(StatsSet)
      ensures Sound()
    {
    }

    lemma SoundParts()
      requires Sound()
      ensures main.Valid() && AllValid(subs)
      ensures forall v | v in subs :: v in all
    {
      assert all[|all| - 1] == main;
      forall i | 0 <= i < |subs| ensures subs[i].Valid() {
        assert all[i] == subs[i];
      }
    }

    constructor (main: Vocabulary, subs: seq<Vocabulary>)
      requires main.Valid() && AllValid(subs)
      ensures Valid() && this.main == main && this.subs == subs && current == null
    {
      this.main := main;
      this.subs := subs;
      all := subs + [main];
      current := null;
      Members := set v | v in subs + [main];
      StatsSet := StatsObjects(subs + [main]);
      new;
      assert forall i :: 0 <= i < |all| ==> all[i] == main || all[i] == subs[i];
    }

    /** The `states` property's value: the members' counts summed component-wise. */
    function Combined(): Counts
      reads StatsObjects(all)
    {
      SumCounts(Values(StatsList(all)))
    }

    /** The `states` property: `better_sum` over the members' `Stats` objects
        (the main vocabulary's own object when there are no sub-vocabularies). */
    method States() returns (s: Stats)
      requires Sound()
      ensures s.Valid() && s.Value() == Combined()
      ensures |subs| == 0 ==> s == main.states
      ensures |subs| > 0 ==> fresh(s)
    {
      var r := BetterSum(StatsList(all));
      s := r.value;
    }

    /** The weighted draw of `get_new_vocabulary`: a member whose quote is positive,
        `ValueError` when there is none. */
    method Pick() returns (k: Result<nat, Exception>)
      requires Sound()
      ensures k.Success? <==> !AllQuotesZero(all)
      ensures k.Failure? ==> k.error == ValueError
      ensures k.Success? ==> k.value < |all| && all[k.value].states.quote > 0
    {
      var weights := Quotes(all);
      assert |weights| == |subs| + 1;
      k := Draw.WeightedIndex(weights);
      Draw.ZeroSumIffAllZero(weights);
    }

    /** `get_new_vocabulary`: draw a member weighted by its quote (so a member whose
        quote is 0 is never drawn and an all-zero group raises `ValueError`),
        randomize its direction, return one of its sources. */
    method GetNewVocabulary() returns (r: Result<string, Exception>)
      requires Sound()
      modifies this, Members
      ensures Sound() && (old(Valid()) || !AllQuotesZero(all) ==> Valid())
      ensures AllQuotesZero(all) ==> r == Failure(ValueError) && current == old(current)
      ensures !AllQuotesZero(all) ==> && current != null && current.states.quote > 0
                                      && (r.Success? <==> |current.Sources()| > 0)
                                      && (r.Failure? ==> r.error == IndexError)
      ensures r.Success? ==> current != null && r.value in current.Sources()
      ensures forall v | v in all && v != current :: v.direction == old(v.direction)
      ensures forall v | v in all && !v.randomDirection :: v.direction == old(v.direction)
    {
      var k := Pick();
      if k.Failure? {
        return Failure(k.error);
      }
      var v := all[k.value];
      v.RandomizeDirection();
      current := v;
      r := v.Source();
    }

    /** `next_try(name)`: answered by the current member; `AttributeError` before
        any draw. */
    method NextTry(name: string) returns (r: Result<TryResult, Exception>)
      requires Valid()
      modifies if current != null then {current.states} else {}
      ensures Valid()
      ensures current == null ==> r == Failure(AttributeError)
      ensures current != null ==> && r == Success(Answer(old(current.Translations()), name))
                                  && current.states.Value() ==
                                       if r.value.correct then Counts(old(current.states.rightTries) + 1, old(current.states.wrongTries))
                                       else Counts(old(current.states.rightTries), old(current.states.wrongTries) + 1)
    {
      if current == null {
        return Failure(AttributeError);
      }
      var t := current.NextTry(name);
      r := Success(t);
    }

    /** The `translations` property, delegated to the current member. */
    function Translations(): (r: Result<seq<string>, Exception>)
      reads this, StatsSet, Members
      requires Valid()
      ensures current == null ==> r == Failure(AttributeError)
      ensures current != null ==> r == Success(current.Translations())
    {
      if current == null then Failure(AttributeError) else Success(current.Translations())
    }

    /** The `sources` property, delegated to the current member. */
    function Sources(): (r: Result<seq<string>, Exception>)
      reads this, Members, StatsSet
      requires Valid()
      ensures current == null ==> r == Failure(AttributeError)
      ensures current != null ==> r == Success(current.Sources())
    {
      if current == null then Failure(AttributeError) else Success(current.Sources())
    }

    /** The `translation` property of the current member. */
    method Translation() returns (r: Result<string, Exception>)
      requires Valid()
      ensures current == null ==> r == Failure(AttributeError)
      ensures current != null ==> (r.Success? <==> |current.Translations()| > 0)
      ensures r.Success? ==> current != null && r.value in current.Translations()
    {
      if current == null {
        return Failure(AttributeError);
      }
      r := current.Translation();
    }

    /** The `source` property of the current member. */
    method Source() returns (r: Result<string, Exception>)
      requires Valid()
      ensures current == null ==> r == Failure(AttributeError)
      ensures current != null ==> (r.Success? <==> |current.Sources()| > 0)
      ensures r.Success? ==> current != null && r.value in current.Sources()
    {
      if current == null {
        return Failure(AttributeError);
      }
      r := current.Source();
    }

    function Record(): TreeRecord
      reads this, Members, StatsSet
      requires Sound()
    {
      SoundParts();
      TreeRecord(main.Record(), Records(subs))
    }

    /** `to_json`: every member written in its current direction. */
    function ToJson(): (j: Json)
      reads this, Members, StatsSet
      requires Sound()
      ensures j == EncodeTree(Record())
    {
      SoundParts();
      JObj(main.ToJson().fields["subentries" := JArr(EncodeVocabs(Records(subs)))])
    }

    /** A fresh group holding `t`: every member forward, with `random_direction`
        at its default `True`, none current. */
    static method FromRecord(t: TreeRecord) returns (tree: TreeVocabulary)
      ensures fresh(tree) && tree.Valid() && tree.Record() == t && tree.current == null
      ensures forall i :: 0 <= i < |tree.all| ==> && fresh(tree.all[i]) && fresh(tree.all[i].states)
                                                  && tree.all[i].direction == Forward && tree.all[i].randomDirection
    {
      var subs := BuildVocabularies(t.subs);
      var main := Vocabulary.FromRecord(t.main, true);
      tree := new TreeVocabulary(main, subs);
      tree.SoundParts();
      assert Records(subs) == t.subs;
    }

    /** `TreeVocabulary.from_dict`. */
    static method FromDict(j: Json) returns (r: Result<TreeVocabulary, Exception>)
      ensures r.Success? <==> DecodeTree(j).Success?
      ensures r.Failure? ==> r.error == DecodeTree(j).error
      ensures r.Success? ==> r.value.Valid() && r.value.Record() == DecodeTree(j).value
      ensures r.Success? ==> fresh(r.value) && r.value.current == null
    {
      var d := DecodeTree(j);
      if d.Failure? {
        return Failure(d.error);
      }
      var tree := FromRecord(d.value);
      r := Success(tree);
    }
  }

  /** Both sides of the draw weight of a group: the group's combined quote is
      positive only when some member's own quote is. */
  lemma GroupHasDrawable(t: TreeVocabulary)
    requires t.Sound() && QuoteOf(t.Combined()) > 0
    ensures !AllQuotesZero(t.all)
  {
    var cs := Values(StatsList(t.all));
    PositiveSumQuoteHasPositiveMember(cs);
    var i :| 0 <= i < |cs| && QuoteOf(cs[i]) > 0;
    assert t.all[i].Valid();
  }

  /** `[voc.states.quote for voc in vocabularies]`, the group weights of
      `VocabularyList.get_new_vocabulary`, over groups whose counters lie in `fp`. */
  function GroupQuotes(ts: seq<TreeVocabulary>, ghost fp: set<Stats>): (r: seq<nat>)
    reads fp
    requires forall t | t in ts :: StatsObjects(t.all) <= fp
    ensures |r| == |ts| && forall i :: 0 <= i < |ts| ==> r[i] == QuoteOf(ts[i].Combined())
  {
    if ts == [] then []
    else
      assert ts[|ts| - 1] in ts;
      GroupQuotes(ts[..|ts| - 1], fp) + [QuoteOf(ts[|ts| - 1].Combined())]
  }

  /** The groups as `to_json` would write each. */
  function TreeRecords(ts: seq<TreeVocabulary>, ghost trees: set<TreeVocabulary>, ghost members: set<Vocabulary>,
                       ghost fp: set<Stats>): (r: seq<TreeRecord>)
    reads trees, members, fp
    requires forall t | t in ts :: t in trees && t.Members <= members && t.StatsSet <= fp
    requires forall t | t in ts :: t.Sound()
    ensures |r| == |ts| && forall i :: 0 <= i < |ts| ==> r[i] == ts[i].Record()
  {
    if ts == [] then []
    else
      assert ts[|ts| - 1] in ts;
      TreeRecords(ts[..|ts| - 1], trees, members, fp) + [ts[|ts| - 1].Record()]
  }

  /** Fresh groups holding `ts`, none current. */
  method BuildTrees(ts: seq<TreeRecord>) returns (out: seq<TreeVocabulary>)
    ensures |out| == |ts|
    ensures forall i :: 0 <= i < |ts| ==> fresh(out[i]) && out[i].Valid() && out[i].current == null && out[i].Record() == ts[i]
  {
    out := [];
    var i := 0;
    while i < |ts|
      invariant 0 <= i <= |ts| && |out| == i
      invariant forall k :: 0 <= k < i ==> fresh(out[k]) && out[k].Valid() && out[k].current == null && out[k].Record() == ts[k]
    {
      var t := TreeVocabulary.FromRecord(ts[i]);
      out := out + [t];
      i := i + 1;
    }
  }

  /** `VocabularyList`: groups drawn by their combined quote. */
  class VocabularyList {
    const vocabularies: seq<TreeVocabulary>
    var current: TreeVocabulary?

    /** The groups, their members and the members' counters. */
    ghost const Trees: set<TreeVocabulary>
    ghost const Members: set<Vocabulary>
    ghost const StatsSet: set<Stats>

    /** Every group is consistent, and once a group is current it has a current
        member (so `next_try` and `skip` never fail after a draw). */
    ghost predicate Valid()
      reads this, Trees, StatsSet
    {
      && Framed()
      && (forall t | t in vocabularies :: t.Sound())
      && (current != null ==> current in vocabularies && current.current != null && current.current in current.all)
    }

    /** The footprints cover every group (a fact about constants alone). */
    ghost predicate Framed()
    {
      forall t | t in vocabularies :: && t in Trees && t.Members <= Members && t.StatsSet <= StatsSet
                                      && StatsObjects(t.all) <= StatsSet
    }

    constructor (vocabularies: seq<TreeVocabulary>)
      requires forall t | t in vocabularies :: t.Sound()
      ensures Valid() && this.vocabularies == vocabularies && current == null
    {
      this.vocabularies := vocabularies;
      current := null;
      Trees := set t | t in vocabularies;
      Members := set t, v | t in vocabularies && v in t.Members :: v;
      StatsSet := set t, s | t in vocabularies && s in t.StatsSet :: s;
    }

    /** The group weights. */
    function Weights(): (r: seq<nat>)
      reads StatsSet
      requires Framed()
      ensures |r| == |vocabularies| && forall i :: 0 <= i < |vocabularies| ==> r[i] == QuoteOf(vocabularies[i].Combined())
    {
      GroupQuotes(vocabularies, StatsSet)
    }

    /** Every group's combined quote is 0 (vacuously so when there are none). */
    predicate AllGroupsZero()
      reads StatsSet
      requires Framed()
    {
      forall q | q in Weights() :: q == 0
    }

    /** The weighted draw of `get_new_vocabulary`: a group whose combined quote is
        positive; `IndexError` without groups, `ValueError` when all weigh 0. */
    method Pick() returns (k: Result<nat, Exception>)
      requires Framed()
      ensures k.Success? <==> !AllGroupsZero()
      ensures k.Failure? ==> k.error == if |vocabularies| == 0 then IndexError else ValueError
      ensures k.Success? ==> k.value < |vocabularies| && QuoteOf(vocabularies[k.value].Combined()) > 0
    {
      var weights := Weights();
      k := Draw.WeightedIndex(weights);
      Draw.ZeroSumIffAllZero(weights);
      if k.Success? {
        assert weights[k.value] in weights;
      }
    }

    /** `get_new_vocabulary`: draw a group weighted by its combined quote, then a
        member of it. A group of weight 0 is never drawn; when every group weighs 0
        the draw raises `ValueError`; the inner draw never does. */
    method GetNewVocabulary() returns (r: Result<string, Exception>)
      requires Valid()
      modifies this, Trees, Members
      ensures Valid()
      ensures |vocabularies| == 0 ==> r == Failure(IndexError) && current == old(current)
      ensures |vocabularies| > 0 && old(AllGroupsZero()) ==> r == Failure(ValueError) && current == old(current)
      ensures old(AllGroupsZero()) ==> unchanged(Trees) && unchanged(Members)
      ensures !old(AllGroupsZero()) ==> && current != null && current.current != null && current.current.states.quote > 0
                                         && exists i :: 0 <= i < |vocabularies| && current == vocabularies[i] && old(Weights())[i] > 0
      ensures !old(AllGroupsZero()) ==> && current != null && current.current != null
                                         && (r.Success? <==> |current.current.Sources()| > 0)
                                         && (r.Failure? ==> r.error == IndexError)
                                         && (forall u | u in Trees && u != current :: u.current == old(u.current))
                                         && (forall v | v in Members && v != current.current :: v.direction == old(v.direction))
      ensures forall v | v in Members && !v.randomDirection :: v.direction == old(v.direction)
      ensures r.Success? ==> current != null && current.current != null && r.value in current.current.Sources()
    {
      var k := Pick();
      if k.Failure? {
        return Failure(k.error);
      }
      var t := vocabularies[k.value];
      assert t in vocabularies;
      GroupHasDrawable(t);
      r := Enter(t);
      assert current == vocabularies[k.value];
    }

    /** Make `t` current and draw one of its members. */
    method Enter(t: TreeVocabulary) returns (r: Result<string, Exception>)
      requires Valid() && t in vocabularies && !AllQuotesZero(t.all)
      modifies this, t, t.Members
      ensures Valid() && current == t && t.current != null && t.current.states.quote > 0
      ensures r.Success? <==> |t.current.Sources()| > 0
      ensures r.Success? ==> r.value in t.current.Sources()
      ensures r.Failure? ==> r.error == IndexError
      ensures forall u | u in Trees && u != t :: u.current == old(u.current)
      ensures forall v | v in Members && v != t.current :: v.direction == old(v.direction)
      ensures forall v | v in Members && !v.randomDirection :: v.direction == old(v.direction)
    {
      label L:
      assert t.Members == set v | v in t.all;
      r := t.GetNewVocabulary();
      current := t;
      GroupsStaySound@L();
    }

    /** The groups' soundness depends on the counters alone. */
    twostate lemma GroupsStaySound()
      requires old(Valid()) && unchanged(StatsSet)
      ensures forall u | u in vocabularies :: u.Sound()
    {
      forall u | u in vocabularies ensures u.Sound() {
        u.SoundStays();
      }
    }

    /** `next_try(name)`, answered by the current member of the current group. */
    method NextTry(name: string) returns (r: Result<TryResult, Exception>)
      requires Valid()
      modifies if current != null && current.current != null then {current.current.states} else {}
      ensures Valid()
      ensures current == null ==> r == Failure(AttributeError)
      ensures current != null ==> && current.current != null
                                  && r == Success(Answer(old(current.current.Translations()), name))
                                  && current.current.states.Value() ==
                                       if r.value.correct then Counts(old(current.current.states.rightTries) + 1, old(current.current.states.wrongTries))
                                       else Counts(old(current.current.states.rightTries), old(current.current.states.wrongTries) + 1)
    {
      if current == null {
        return Failure(AttributeError);
      }
      r := current.NextTry(name);
    }

    /** `skip`: the answers of the vocabulary being asked. */
    function Skip(): (r: Result<seq<string>, Exception>)
      reads this, Trees, Members, StatsSet
      requires Valid()
      ensures current == null ==> r == Failure(AttributeError)
      ensures current != null ==> current.current != null && r == Success(current.current.Translations())
    {
      if current == null then Failure(AttributeError)
      else
          current.Translations()
    }

    /** The groups as `to_json` would write them. */
    function Records(): (r: seq<TreeRecord>)
      reads this, Trees, Members, StatsSet
      requires Valid()
      ensures |r| == |vocabularies| && forall i :: 0 <= i < |r| ==> r[i] == vocabularies[i].Record()
    {
      TreeRecords(vocabularies, Trees, Members, StatsSet)
    }

    /** A fresh list of fresh groups holding `ts`, none current. */
    static method FromRecords(ts: seq<TreeRecord>) returns (list: VocabularyList)
      ensures fresh(list) && list.Valid() && list.Records() == ts && list.current == null
    {
      var trees := BuildTrees(ts);
      list := new VocabularyList(trees);
    }

    /** `VocabularyList.from_dict`: the groups under `entries`. */
    static method FromDict(j: Json) returns (r: Result<VocabularyList, Exception>)
      ensures r.Success? <==> DecodeEntries(j).Success?
      ensures r.Failure? ==> r.error == DecodeEntries(j).error
      ensures r.Success? ==> r.value.Valid() && r.value.Records() == DecodeEntries(j).value
      ensures r.Success? ==> fresh(r.value) && r.value.current == null
    {
      var d := DecodeEntries(j);
      if d.Failure? {
        return Failure(d.error);
      }
      var list := FromRecords(d.value);
      r := Success(list);
    }
  }

  /** `Vocabularies`: a `VocabularyList` with a name and a `random_direction`
      flag, both stored as read. */
  class Vocabularies {
    const entries: VocabularyList
    const name: Json
    const randomDirection: Json

    constructor (entries: VocabularyList, name: Json, randomDirection: Json := JBool(true))
      ensures this.entries == entries && this.name == name && this.randomDirection == randomDirection
    {
      this.entries := entries;
      this.name := name;
      this.randomDirection := randomDirection;
    }

    function Record(): DeckRecord
      reads entries, entries.Trees, entries.Members, entries.StatsSet
      requires entries.Valid()
    {
      DeckRecord(entries.Records(), name, randomDirection)
    }

    /** `to_json`. */
    function ToJson(): (j: Json)
      reads entries, entries.Trees, entries.Members, entries.StatsSet
      requires entries.Valid()
      ensures j == EncodeDeck(Record())
    {
      JObj(map[
        "entries" := JArr(EncodeTrees(entries.Records())),
        "name" := name,
        "random_direction" := randomDirection
      ])
    }

    /** `Vocabularies.from_dict`. */
    static method FromDict(j: Json) returns (r: Result<Vocabularies, Exception>)
      ensures r.Success? <==> DecodeDeck(j).Success?
      ensures r.Failure? ==> r.error == DecodeDeck(j).error
      ensures r.Success? ==> r.value.entries.Valid() && r.value.Record() == DecodeDeck(j).value
      ensures r.Success? ==> fresh(r.value) && fresh(r.value.entries) && r.value.entries.current == null
    {
      var d := DecodeDeck(j);
      if d.Failure? {
        return Failure(d.error);
      }
      var list := VocabularyList.FromRecords(d.value.entries);
      var deck := new Vocabularies(list, d.value.name, d.value.randomDirection);
      r := Success(deck);
    }
  }
}
