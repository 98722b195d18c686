/** The earlier draft `vocabulary_trainer/vocabularies.py`: a `Stats` whose wrong
    counter is called `tries_false`, vocabularies that answer `(True,)` or
    `(False, translations)`, and groups and lists that pick their current entry by
    a uniform `random.randint` index. */
module TrainerVocabularies {
  import opened Wrappers
  import opened PyErrors
  import opened JsonValue
  import opened Directions
  import TS = TrainerStats
  import TJ = TrainerJson
  import Draw

  /** The counters: `tries_right`, `tries_false`, the derived `_tries_total` and
      the integer quote. */
  class Stats {
    var triesRight: nat
    var triesFalse: nat
    var triesTotal: nat
    var quote: nat

    ghost predicate Valid()
      reads this
    {
      triesTotal == triesRight + triesFalse && quote == TS.Quote(triesRight, triesTotal)
    }

    function Value(): TS.Counts
      reads this
    {
      TS.Counts(triesRight, triesFalse)
    }

    /** The dataclass constructor followed by `__post_init__`. */
    constructor (right: nat, wrong: nat)
      ensures Valid() && Value() == TS.Counts(right, wrong)
    {
      triesRight, triesFalse := right, wrong;
      new;
      UpdateTotalTries();
    }

    /** `_update_total_tries`. */
    method UpdateTotalTries()
      modifies this
      ensures Valid() && Value() == old(Value())
    {
      triesTotal := triesRight + triesFalse;
      quote := (triesRight + 1) * 100 / (triesTotal + 1);
    }

    /** `right_try(points)`: only `tries_right` grows. */
    method RightTry(points: nat := 1)
      modifies this
      ensures Valid() && Value() == TS.Counts(old(triesRight) + points, old(triesFalse))
    {
      triesRight := triesRight + points;
      UpdateTotalTries();
    }

    /** `false_try(points)`: only `tries_false` grows. */
    method FalseTry(points: nat := 1)
      modifies this
      ensures Valid() && Value() == TS.Counts(old(triesRight), old(triesFalse) + points)
    {
      triesFalse := triesFalse + points;
      UpdateTotalTries();
    }

    /** The `tries_total` property. */
    function TriesTotal(): (t: nat)
      reads this
      requires Valid()
      ensures t == triesRight + triesFalse
    {
      triesTotal
    }
  }

  /** `Stats.from_json`: `tries_right` and then `tries_total`, the latter stored
      as the FALSE count. */
  method StatsFromJson(j: Json) returns (r: Result<Stats, Exception>)
    ensures r.Success? <==> TS.StatsFromDict(j).Success?
    ensures r.Failure? ==> r.error == TS.StatsFromDict(j).error
    ensures r.Success? ==> && fresh(r.value) && r.value.Valid()
                           && JInt(r.value.triesRight) == j.fields["tries_right"]
                           && JInt(r.value.triesFalse) == j.fields["tries_total"]
  {
    var c := TS.StatsFromDict(j);
    if c.Failure? {
      return Failure(c.error);
    }
    var s := new Stats(c.value.right, c.value.wrong);
    r := Success(s);
  }

  /** What `next_try` returns: the 1-tuple `(True,)` or `(False, translations)`. */
  datatype Reply = Hit | Miss(expected: seq<string>)

  /** Exact membership in the accepted list. */
  function Check(accepted: seq<string>, name: string): (r: Reply)
    ensures r.Hit? <==> name in accepted
    ensures r.Miss? ==> r.expected == accepted
  {
    if name in accepted then Hit else Miss(accepted)
  }

  /** `SimpleVocabulary`: one side, scoring into a `Stats` it may share. */
  class SimpleVocabulary {
    const stats: Stats
    const targetExample: string
    const sourceExample: string
    const translations: seq<string>
    const sources: seq<string>

    constructor (sources: seq<string>, translations: seq<string>, sourceExample: string,
                 targetExample: string, stats: Stats)
      ensures this.sources == sources && this.translations == translations
      ensures this.sourceExample == sourceExample && this.targetExample == targetExample
      ensures this.stats == stats
    {
      this.stats := stats;
      this.targetExample := targetExample;
      this.sourceExample := sourceExample;
      this.translations := translations;
      this.sources := sources;
    }

    /** The `translation` property. */
    method Translation() returns (r: Result<string, Exception>)
      ensures r.Success? <==> |translations| > 0
      ensures r.Success? ==> r.value in translations
      ensures r.Failure? ==> r.error == IndexError
    {
      r := Draw.Choice(translations);
    }

    /** The `source` property. */
    method Source() returns (r: Result<string, Exception>)
      ensures r.Success? <==> |sources| > 0
      ensures r.Success? ==> r.value in sources
      ensures r.Failure? ==> r.error == IndexError
    {
      r := Draw.Choice(sources);
    }

    /** `next_try(name)`: a hit counts one right try, a miss one false try. */
    method NextTry(name: string) returns (r: Reply)
      requires stats.Valid()
      modifies stats
      ensures stats.Valid()
      ensures r.Hit? <==> name in translations
      ensures r.Miss? ==> r.expected == translations
      ensures stats.Value() == if r.Hit? then TS.Counts(old(stats.triesRight) + 1, old(stats.triesFalse))
                                         else TS.Counts(old(stats.triesRight), old(stats.triesFalse) + 1)
    {
      if name in translations {
        stats.RightTry();
        return Hit;
      } else {
        stats.FalseTry();
        return Miss(translations);
      }
    }
  }

  /** `Vocabulary`: two sides over ONE `Stats` object and a direction. */
  class Vocabulary {
    const forward: SimpleVocabulary
    const backward: SimpleVocabulary
    var direction: Direction
    const randomDirection: bool
    const states: Stats

    /** The backward side mirrors the forward one, and both score into `states`. */
    ghost predicate Valid()
      reads states
    {
      && forward.stats == states && backward.stats == states
      && backward.sources == forward.translations && backward.translations == forward.sources
      && backward.sourceExample == forward.targetExample && backward.targetExample == forward.sourceExample
      && states.Valid()
    }

    constructor (sources: seq<string>, translations: seq<string>, sourceExample: string,
                 targetExample: string, stats: Stats, randomDirection: bool := true)
      requires stats.Valid()
      ensures Valid() && states == stats && direction == Forward && this.randomDirection == randomDirection
      ensures forward.sources == sources && forward.translations == translations
      ensures forward.sourceExample == sourceExample && forward.targetExample == targetExample
    {
      forward := new SimpleVocabulary(sources, translations, sourceExample, targetExample, stats);
      backward := new SimpleVocabulary(translations, sources, targetExample, sourceExample, stats);
      direction := Forward;
      this.randomDirection := randomDirection;
      states := stats;
    }

    /** The vocabulary as constructed, independent of the direction. */
    function Base(): TJ.VocabRecord
      reads states
    {
      TJ.VocabRecord(forward.sources, forward.translations, forward.sourceExample, forward.targetExample, states.Value())
    }

    function Side(): (s: SimpleVocabulary)
      reads this
      ensures s == if direction == Forward then forward else backward
    {
      if direction == Forward then forward else backward
    }

    /** The `translations` property: in BACKWARD, the original sources. */
    function Translations(): (r: seq<string>)
      reads this, states
      requires Valid()
      ensures r == if direction == Forward then forward.translations else forward.sources
    {
      Side().translations
    }

    /** The `sources` property: in BACKWARD, the original translations. */
    function Sources(): (r: seq<string>)
      reads this, states
      requires Valid()
      ensures r == if direction == Forward then forward.sources else forward.translations
    {
      Side().sources
    }

    /** The `translation` property. */
    method Translation() returns (r: Result<string, Exception>)
      requires Valid()
      ensures r.Success? <==> |Translations()| > 0
      ensures r.Success? ==> r.value in Translations()
      ensures r.Failure? ==> r.error == IndexError
    {
      r := Side().Translation();
    }

    /** The `source` property. */
    method Source() returns (r: Result<string, Exception>)
      requires Valid()
      ensures r.Success? <==> |Sources()| > 0
      ensures r.Success? ==> r.value in Sources()
      ensures r.Failure? ==> r.error == IndexError
    {
      r := Side().Source();
    }

    /** `next_try(name)` by the side the direction selects, into the shared counters. */
    method NextTry(name: string) returns (r: Reply)
      requires Valid()
      modifies states
      ensures Valid()
      ensures r == Check(if direction == Forward then forward.translations else forward.sources, name)
      ensures states.Value() == if r.Hit? then TS.Counts(old(states.triesRight) + 1, old(states.triesFalse))
                                          else TS.Counts(old(states.triesRight), old(states.triesFalse) + 1)
    {
      if direction == Forward {
        r := forward.NextTry(name);
      } else {
        r := backward.NextTry(name);
      }
    }

    /** `set_random_direction`: some direction when `random_direction` is set,
        otherwise nothing changes. */
    method SetRandomDirection()
      modifies this
      ensures !randomDirection ==> direction == old(direction)
    {
      if randomDirection {
        var d: Direction :| true;
        direction := d;
      }
    }

    /** `Vocabulary.from_json(data, random_direction)`: the same keys, in the same
        order, as the dictionary form of `vocabulary_trainer/__init__.py`. */
    static method FromJson(j: Json, randomDirection: bool := true) returns (r: Result<Vocabulary, Exception>)
      ensures r.Success? <==> TJ.DecodeVocab(j).Success?
      ensures r.Failure? ==> r.error == TJ.DecodeVocab(j).error
      ensures r.Success? ==> && fresh(r.value) && fresh(r.value.states) && r.value.Valid()
                             && r.value.Base() == TJ.DecodeVocab(j).value
                             && r.value.direction == Forward && r.value.randomDirection == randomDirection
    {
      var d := TJ.DecodeVocab(j);
      if d.Failure? {
        return Failure(d.error);
      }
      var voc := FromRecord(d.value, randomDirection);
      r := Success(voc);
    }

    /** A fresh forward vocabulary holding `v`, over fresh counters. */
    static method FromRecord(v: TJ.VocabRecord, randomDirection: bool) returns (voc: Vocabulary)
      ensures fresh(voc) && fresh(voc.states) && voc.Valid() && voc.Base() == v
      ensures voc.direction == Forward && voc.randomDirection == randomDirection
    {
      var stats := new Stats(v.stats.right, v.stats.wrong);
      voc := new Vocabulary(v.sources, v.targets, v.sourceExample, v.targetExample, stats, randomDirection);
    }
  }

  /** The `Stats` objects of some vocabularies. */
  ghost function StatsObjects(vs: seq<Vocabulary>): set<Stats>
  {
    set v | v in vs :: v.states
  }

  ghost predicate AllValid(vs: seq<Vocabulary>)
    reads StatsObjects(vs)
  {
    forall i :: 0 <= i < |vs| ==> vs[i].Valid()
  }

  /** The vocabularies as constructed. */
  function Bases(vs: seq<Vocabulary>): (r: seq<TJ.VocabRecord>)
    reads StatsObjects(vs)
    ensures |r| == |vs| && forall i :: 0 <= i < |vs| ==> r[i] == vs[i].Base()
  {
    if vs == [] then [] else Bases(vs[..|vs| - 1]) + [vs[|vs| - 1].Base()]
  }

  /** Fresh forward vocabularies, each with `random_direction` set, holding `vs`. */
  method BuildVocabularies(vs: seq<TJ.VocabRecord>) returns (out: seq<Vocabulary>)
    ensures |out| == |vs|
    ensures forall i :: 0 <= i < |vs| ==> && fresh(out[i]) && fresh(out[i].states) && out[i].Valid()
                                          && out[i].direction == Forward && out[i].randomDirection
                                          && out[i].Base() == vs[i]
  {
    out := [];
    var i := 0;
    while i < |vs|
      invariant 0 <= i <= |vs| && |out| == i
      invariant forall k :: 0 <= k < i ==> && fresh(out[k]) && fresh(out[k].states) && out[k].Valid()
                                           && out[k].direction == Forward && out[k].randomDirection
                                           && out[k].Base() == vs[k]
    {
      var v := Vocabulary.FromRecord(vs[i], true);
      out := out + [v];
      i := i + 1;
    }
  }

  /** `VocabularyWithSubvocabularies`: sub-vocabularies and a main one, with the
      index of the current member (0 before any draw). */
  class Group {
    const main: Vocabulary
    const subs: seq<Vocabulary>
    const all: seq<Vocabulary>
    var currentIndex: nat

    ghost const Members: set<Vocabulary>
    ghost const StatsSet: set<Stats>

    /** The footprints describe the members, and every member is consistent. */
    ghost predicate Sound()
      reads StatsSet
    {
      && all == subs + [main]
      && Members == (set v | v in all)
      && StatsSet == StatsObjects(all)
      && AllValid(all)
    }

    /** ... and the current index is in range. */
    ghost predicate Valid()
      reads this, StatsSet
    {
      Sound() && currentIndex < |all|
    }

    /** Soundness depends on the members' counters alone. */
    twostate lemma SoundStays()
      requires old(Sound()) && unchanged(StatsSet)
      ensures Sound()
    {
    }

    constructor (main: Vocabulary, subs: seq<Vocabulary>)
      requires main.Valid() && AllValid(subs)
      ensures Valid() && this.main == main && this.subs == subs && currentIndex == 0
    {
      this.main := main;
      this.subs := subs;
      all := subs + [main];
      currentIndex := 0;
      Members := set v | v in subs + [main];
      StatsSet := StatsObjects(subs + [main]);
      new;
      assert forall i :: 0 <= i < |all| ==> all[i] == main || all[i] == subs[i];
    }

    /** The member `next_try` and the properties address: before any draw the
        first sub-vocabulary, or the main one when there are none. */
    function Current(): (v: Vocabulary)
      reads this, StatsSet
      requires Valid()
      ensures v in Members && v.Valid()
      ensures currentIndex == 0 ==> v == if |subs| > 0 then subs[0] else main
    {
      all[currentIndex]
    }

    /** `get_new_vocabulary`: some index (never out of range, as the group is never
        empty), a new direction for that member, and one of its sources. */
    method GetNewVocabulary() returns (r: Result<string, Exception>)
      requires Sound()
      modifies this, Members
      ensures Valid()
      ensures r.Success? <==> |Current().Sources()| > 0
      ensures r.Success? ==> r.value in Current().Sources()
      ensures r.Failure? ==> r.error == IndexError
      ensures forall v | v in all && v != Current() :: v.direction == old(v.direction)
    {
      var i := Draw.RandInt(|all|);
      currentIndex := i.value;
      var v := all[currentIndex];
      v.SetRandomDirection();
      r := v.Source();
    }

    /** `next_try(name)`, answered by the current member. */
    method NextTry(name: string) returns (r: Reply)
      requires Valid()
      modifies Current().states
      ensures Valid() && currentIndex == old(currentIndex)
      ensures r == Check(old(Current().Translations()), name)
      ensures Current().states.Value() ==
                if r.Hit? then TS.Counts(old(Current().states.triesRight) + 1, old(Current().states.triesFalse))
                else TS.Counts(old(Current().states.triesRight), old(Current().states.triesFalse) + 1)
    {
      r := all[currentIndex].NextTry(name);
    }

    /** The `translations` property. */
    function Translations(): (r: seq<string>)
      reads this, StatsSet, Members
      requires Valid()
      ensures r == Current().Translations()
    {
      all[currentIndex].Translations()
    }

    /** The `sources` property. */
    function Sources(): (r: seq<string>)
      reads this, StatsSet, Members
      requires Valid()
      ensures r == Current().Sources()
    {
      all[currentIndex].Sources()
    }

    /** The `translation` property. */
    method Translation() returns (r: Result<string, Exception>)
      requires Valid()
      ensures r.Success? <==> |Translations()| > 0
      ensures r.Success? ==> r.value in Translations()
      ensures r.Failure? ==> r.error == IndexError
    {
      r := all[currentIndex].Translation();
    }

    /** The `source` property. */
    method Source() returns (r: Result<string, Exception>)
      requires Valid()
      ensures r.Success? <==> |Sources()| > 0
      ensures r.Success? ==> r.value in Sources()
      ensures r.Failure? ==> r.error == IndexError
    {
      r := all[currentIndex].Source();
    }

    /** The group as constructed. */
    function Record(): TJ.TreeRecord
      reads StatsSet
      requires Sound()
    {
      assert StatsObjects(subs) <= StatsSet;
      TJ.TreeRecord(main.Base(), Bases(subs))
    }

    /** A fresh group holding `t`, its index at 0. */
    static method FromRecord(t: TJ.TreeRecord) returns (g: Group)
      ensures fresh(g) && g.Valid() && g.Record() == t && g.currentIndex == 0
    {
      var subs := BuildVocabularies(t.subs);
      var main := Vocabulary.FromRecord(t.main, true);
      g := new Group(main, subs);
      assert Bases(subs) == t.subs;
    }

    /** `VocabularyWithSubvocabularies.from_json`: the sub-vocabularies first,
        then the main one read from the same object. */
    static method FromJson(j: Json) returns (r: Result<Group, Exception>)
      ensures r.Success? <==> TJ.DecodeTree(j).Success?
      ensures r.Failure? ==> r.error == TJ.DecodeTree(j).error
      ensures r.Success? ==> fresh(r.value) && r.value.Valid() && r.value.Record() == TJ.DecodeTree(j).value
      ensures r.Success? ==> r.value.currentIndex == 0
    {
      var d := TJ.DecodeTree(j);
      if d.Failure? {
        return Failure(d.error);
      }
      var g := FromRecord(d.value);
      r := Success(g);
    }
  }

  /** Fresh groups holding `ts`. */
  method BuildGroups(ts: seq<TJ.TreeRecord>) returns (out: seq<Group>)
    ensures |out| == |ts|
    ensures forall i :: 0 <= i < |ts| ==> fresh(out[i]) && out[i].Valid() && out[i].Record() == ts[i]
  {
    out := [];
    var i := 0;
    while i < |ts|
      invariant 0 <= i <= |ts| && |out| == i
      invariant forall k :: 0 <= k < i ==> fresh(out[k]) && out[k].Valid() && out[k].Record() == ts[k]
    {
      var g := Group.FromRecord(ts[i]);
      out := out + [g];
      i := i + 1;
    }
  }

  /** `VocabularyList`: groups and the index of the current one (0 before any draw). */
  class VocabularyList {
    const vocabularies: seq<Group>
    var currentIndex: nat

    ghost const Groups: set<Group>
    ghost const Members: set<Vocabulary>
    ghost const StatsSet: set<Stats>

    /** The footprints cover every group (constants only). */
    ghost predicate Framed()
    {
      forall g | g in vocabularies :: g in Groups && g.Members <= Members && g.StatsSet <= StatsSet
    }

    /** Every group is sound, and a non-empty list points at a consistent group. */
    ghost predicate Valid()
      reads this, Groups, StatsSet
    {
      && Framed()
      && (forall g | g in vocabularies :: g.Sound())
      && (|vocabularies| > 0 ==> currentIndex < |vocabularies| && vocabularies[currentIndex].Valid())
    }

    constructor (vocabularies: seq<Group>)
      requires forall g | g in vocabularies :: g.Valid()
      ensures Valid() && this.vocabularies == vocabularies && currentIndex == 0
    {
      this.vocabularies := vocabularies;
      currentIndex := 0;
      Groups := set g | g in vocabularies;
      Members := set g, v | g in vocabularies && v in g.Members :: v;
      StatsSet := set g, s | g in vocabularies && s in g.StatsSet :: s;
      new;
      if |vocabularies| > 0 {
        assert vocabularies[0] in vocabularies;
      }
    }

    /** `get_new_vocabulary`: `random.randint(0, len - 1)`, which raises `ValueError`
        on an empty list; then the chosen group draws a member. */
    method GetNewVocabulary() returns (r: Result<string, Exception>)
      requires Valid()
      modifies this, Groups, Members
      ensures Valid()
      ensures |vocabularies| == 0 ==> r == Failure(ValueError) && currentIndex == old(currentIndex)
      ensures |vocabularies| == 0 ==> unchanged(Groups) && unchanged(Members)
      ensures |vocabularies| > 0 ==> && currentIndex < |vocabularies|
                                     && (r.Success? <==> |vocabularies[currentIndex].Sources()| > 0)
                                     && (r.Success? ==> r.value in vocabularies[currentIndex].Sources())
                                     && (r.Failure? ==> r.error == IndexError)
                                     && (forall g | g in Groups && g != vocabularies[currentIndex] :: g.currentIndex == old(g.currentIndex))
                                     && (forall v | v in Members && v != vocabularies[currentIndex].Current() :: v.direction == old(v.direction))
    {
      var i := Draw.RandInt(|vocabularies|);
      if i.Failure? {
        return Failure(i.error);
      }
      var g := vocabularies[i.value];
      assert g in vocabularies;
      r := Enter(i.value);
    }

    /** Make group `k` current and let it draw. */
    method Enter(k: nat) returns (r: Result<string, Exception>)
      requires Valid() && k < |vocabularies|
      modifies this, vocabularies[k], vocabularies[k].Members
      ensures Valid() && currentIndex == k
      ensures r.Success? <==> |vocabularies[k].Sources()| > 0
      ensures r.Success? ==> r.value in vocabularies[k].Sources()
      ensures r.Failure? ==> r.error == IndexError
      ensures forall g | g in Groups && g != vocabularies[k] :: g.currentIndex == old(g.currentIndex)
      ensures forall v | v in Members && v != vocabularies[k].Current() :: v.direction == old(v.direction)
    {
      var g := vocabularies[k];
      assert g in vocabularies;
      assert g.Members == set v | v in g.all;
      label L:
      r := g.GetNewVocabulary();
      currentIndex := k;
      GroupsStaySound@L();
    }

    /** The groups' soundness depends on the counters alone. */
    twostate lemma GroupsStaySound()
      requires old(Valid()) && unchanged(StatsSet)
      ensures forall h | h in vocabularies :: h.Sound()
    {
      forall h | h in vocabularies ensures h.Sound() {
        h.SoundStays();
      }
    }

    /** `next_try(name)`: answered by the current group; on an empty list the
        index 0 is out of range. */
    method NextTry(name: string) returns (r: Result<Reply, Exception>)
      requires Valid()
      modifies if |vocabularies| > 0 then {vocabularies[currentIndex].Current().states} else {}
      ensures Valid()
      ensures |vocabularies| == 0 ==> r == Failure(IndexError)
      ensures |vocabularies| > 0 ==> r == Success(Check(old(vocabularies[currentIndex].Translations()), name))
      ensures |vocabularies| > 0 ==>
                var s := vocabularies[currentIndex].Current().states;
                s.Value() == if r.value.Hit? then TS.Counts(old(s.triesRight) + 1, old(s.triesFalse))
                             else TS.Counts(old(s.triesRight), old(s.triesFalse) + 1)
    {
      if |vocabularies| == 0 {
        return Failure(IndexError);
      }
      var g := vocabularies[currentIndex];
      assert g in vocabularies;
      var reply := g.NextTry(name);
      r := Success(reply);
    }

    /** `VocabularyList.from_json`: the groups under `entries`. */
    static method FromJson(j: Json) returns (r: Result<VocabularyList, Exception>)
      ensures r.Success? <==> TJ.DecodeEntries(j).Success?
      ensures r.Failure? ==> r.error == TJ.DecodeEntries(j).error
      ensures r.Success? ==> && fresh(r.value) && r.value.Valid() && r.value.currentIndex == 0
                             && |r.value.vocabularies| == |TJ.DecodeEntries(j).value|
                             && forall i :: 0 <= i < |r.value.vocabularies| ==>
                                  r.value.vocabularies[i].Record() == TJ.DecodeEntries(j).value[i]
    {
      var d := TJ.DecodeEntries(j);
      if d.Failure? {
        return Failure(d.error);
      }
      var groups := BuildGroups(d.value);
      var list := new VocabularyList(groups);
      r := Success(list);
    }
  }
}
