/** The vocabulary quiz of the extension draft
    (`quiz_enchanter/extensions/vocabulary_extension/main.py`): two-sided
    vocabularies that are checked but not scored, grouped into a tree of
    `Vocabularies` read from JSON. */
module QuizVocabulary {
  import opened Wrappers
  import opened PyErrors
  import opened JsonValue
  import opened Directions
  import QT = QuizTries
  import TV = TrainerVocabularies
  import Draw

  /** What `Vocabulary.from_json` reads. */
  datatype Word = Word(sources: seq<string>, translations: seq<string>, sourceExample: string,
                       targetExample: string, tries: QT.Tries)

  /** An element of `entries`: a leaf vocabulary or a nested list. */
  datatype Entry = Leaf(word: Word) | Node(entries: seq<Entry>)

  /** `Vocabulary.from_json`: the keyword arguments in their order, then
      `Tries.from_json` on `stats`. */
  function DecodeWord(j: Json): Result<Word, Exception>
  {
    var sources :- Get(j, "sources");
    var translations :- Get(j, "translations");
    var sourceExample :- Get(j, "source_example");
    var targetExample :- Get(j, "target_example");
    var stats :- Get(j, "stats");
    var tries :- QT.FromJson(stats);
    var ss :- AsStrings(sources);
    var ts :- AsStrings(translations);
    var se :- AsString(sourceExample);
    var te :- AsString(targetExample);
    if tries.right < 0 || tries.wrong < 0 then Failure(NegativeCount)
    else Success(Word(ss, ts, se, te, tries))
  }

  /** The `json` property of a `Vocabulary`. */
  function EncodeWord(w: Word): Json
  {
    JObj(map[
      "sources" := Strings(w.sources),
      "translations" := Strings(w.translations),
      "source_example" := JStr(w.sourceExample),
      "target_example" := JStr(w.targetExample),
      "stats" := QT.ToJson(w.tries)
    ])
  }

  /** A vocabulary's `json` reads back to the same vocabulary. */
  lemma DecodeEncodeWord(w: Word)
    requires w.tries.right >= 0 && w.tries.wrong >= 0
    ensures DecodeWord(EncodeWord(w)) == Success(w)
  {
    StringsRoundTrip(w.sources);
    StringsRoundTrip(w.translations);
    QT.FromJsonToJson(w.tries);
  }

  /** `Vocabularies.from_json`: the elements of the `entries` list. */
  function DecodeNode(j: Json): Result<seq<Entry>, Exception>
    decreases j, 0
  {
    var entries :- Get(j, "entries");
    var items :- Iterate(entries);
    if entries.JArr? then DecodeItems(entries.items) else Success([])   // `{}` and `""` iterate nothing
  }

  /** One element: `case {"entries": _}` makes a nested list, any other value
      a leaf vocabulary. */
  function DecodeItem(j: Json): Result<Entry, Exception>
    decreases j, 1
  {
    if HasKey(j, "entries") then
      var es :- DecodeNode(j);
      Success(Node(es))
    else
      var w :- DecodeWord(j);
      Success(Leaf(w))
  }

  /** The loop over `json_data["entries"]`, appending in order. */
  function DecodeItems(items: seq<Json>): (r: Result<seq<Entry>, Exception>)
    ensures r.Success? ==> |r.value| == |items|
    decreases items, 0
  {
    if items == [] then Success([])
    else
      var init :- DecodeItems(items[..|items| - 1]);
      var last :- DecodeItem(items[|items| - 1]);
      Success(init + [last])
  }

  /** Every leaf of the tree holds non-negative counts. */
  predicate CountsOk(e: Entry)
  {
    match e
    case Leaf(w) => w.tries.right >= 0 && w.tries.wrong >= 0
    case Node(es) => forall i :: 0 <= i < |es| ==> CountsOk(es[i])
  }

  /** The `json` property of a `Vocabularies`: `{"entries": [...]}`. */
  function EncodeNode(es: seq<Entry>): Json
    decreases es, 1
  {
    JObj(map["entries" := JArr(EncodeItems(es))])
  }

  function EncodeItem(e: Entry): Json
    decreases e, 2
  {
    match e
    case Leaf(w) => EncodeWord(w)
    case Node(es) => EncodeNode(es)
  }

  function EncodeItems(es: seq<Entry>): (r: seq<Json>)
    ensures |r| == |es|
    decreases es, 0
  {
    if es == [] then [] else EncodeItems(es[..|es| - 1]) + [EncodeItem(es[|es| - 1])]
  }

  /** `Vocabularies.from_json(v.json)` restores the tree: same nesting, same
      order, same leaves. */
  lemma {:induction false} DecodeEncodeNode(es: seq<Entry>)
    requires forall i :: 0 <= i < |es| ==> CountsOk(es[i])
    ensures DecodeNode(EncodeNode(es)) == Success(es)
    decreases es, 1
  {
    DecodeEncodeItems(es);
  }

  lemma {:induction false} DecodeEncodeItem(e: Entry)
    requires CountsOk(e)
    ensures DecodeItem(EncodeItem(e)) == Success(e)
    decreases e, 2
  {
    match e
    case Leaf(w) =>
      assert !HasKey(EncodeWord(w), "entries");
      DecodeEncodeWord(w);
    case Node(es) =>
      DecodeEncodeNode(es);
  }

  lemma {:induction false} DecodeEncodeItems(es: seq<Entry>)
    requires forall i :: 0 <= i < |es| ==> CountsOk(es[i])
    ensures DecodeItems(EncodeItems(es)) == Success(es)
    decreases es, 0
  {
    if es != [] {
      var n := |es|;
      var init := es[..n - 1];
      DecodeEncodeItems(init);
      DecodeEncodeItem(es[n - 1]);
      var items := EncodeItems(es);
      assert items[..n - 1] == EncodeItems(init);
      assert es == init + [es[n - 1]];
    }
  }

  /** Every decoded tree has non-negative counts throughout. */
  lemma {:induction false} DecodedCountsOk(items: seq<Json>)
    requires DecodeItems(items).Success?
    ensures forall i :: 0 <= i < |items| ==> CountsOk(DecodeItems(items).value[i])
    decreases items, 0
  {
    if items != [] {
      var n := |items|;
      DecodedCountsOk(items[..n - 1]);
      DecodedItemCountsOk(items[n - 1]);
    }
  }

  lemma {:induction false} DecodedItemCountsOk(j: Json)
    requires DecodeItem(j).Success?
    ensures CountsOk(DecodeItem(j).value)
    decreases j, 1
  {
    if HasKey(j, "entries") {
      var entries := j.fields["entries"];
      if entries.JArr? {
        DecodedCountsOk(entries.items);
      }
    }
  }

  /** A word: its contents never change, and only `direction` is reassigned. */
  class Vocabulary {
    const sources: seq<string>
    const translations: seq<string>
    const sourceExample: string
    const targetExample: string
    const tries: QT.Tries
    var direction: Direction

    /** `Vocabulary(...)`: the direction starts FORWARDS. */
    constructor (w: Word)
      ensures Contents() == w && direction == Forward
    {
      sources := w.sources;
      translations := w.translations;
      sourceExample := w.sourceExample;
      targetExample := w.targetExample;
      tries := w.tries;
      direction := Forward;
    }

    /** The fixed part of the vocabulary. */
    function Contents(): Word
    {
      Word(sources, translations, sourceExample, targetExample, tries)
    }

    /** The side an answer must come from. */
    function Answers(): seq<string>
      reads this
    {
      if direction == Forward then translations else sources
    }

    /** `check(name)`: a hit when `name` is among the answers; a miss carries
        the answers. Nothing, neither the tries nor the direction, changes. */
    function Check(name: string): (r: TV.Reply)
      reads this
      ensures r.Hit? <==> name in (if direction == Forward then translations else sources)
      ensures r.Miss? ==> r.expected == (if direction == Forward then translations else sources)
    {
      TV.Check(Answers(), name)
    }

    /** `randomize()`: one of the two directions. Every direction is one of
        the two and every other field is `const`, so there is nothing to
        promise beyond the frame. */
    method Randomize()
      modifies this
    {
      var d := Draw.Choice([Forward, Backward]);
      direction := d.value;
    }

    /** The `source` property: a term of the asked side. */
    method Source() returns (r: Result<string, Exception>)
      ensures r.Success? <==> |if direction == Forward then sources else translations| > 0
      ensures r.Success? ==> r.value in (if direction == Forward then sources else translations)
      ensures r.Failure? ==> r.error == IndexError
    {
      if direction == Forward {
        r := Draw.Choice(sources);
      } else {
        r := Draw.Choice(translations);
      }
    }

    /** The `translation` property: a term of the answer side. */
    method Translation() returns (r: Result<string, Exception>)
      ensures r.Success? <==> |Answers()| > 0
      ensures r.Success? ==> r.value in Answers()
      ensures r.Failure? ==> r.error == IndexError
    {
      r := Draw.Choice(Answers());
    }

    /** `str(v)`: the first source, `-`, the first translation; `IndexError`
        when either list is empty. */
    function Str(): (r: Result<string, Exception>)
      ensures r.Success? <==> |sources| > 0 && |translations| > 0
      ensures r.Failure? ==> r.error == IndexError
      ensures r.Success? ==> (var s := sources[0];
                               |r.value| > |s| && r.value[..|s|] == s && r.value[|s|] == '-'
                               && r.value[|s| + 1..] == translations[0])
    {
      if |sources| == 0 || |translations| == 0 then Failure(IndexError)
      else Success(sources[0] + "-" + translations[0])
    }
  }

  /** An element of a `Vocabularies` list. */
  datatype Element = Single(v: Vocabulary) | Nested(g: Vocabularies)

  /** `Vocabularies(*vocabularies)`: a fixed tuple of elements and the
      vocabulary last drawn. */
  class Vocabularies {
    const elements: seq<Element>
    var current: Vocabulary?
    /** Nesting depth, for the recursion over the tree. */
    ghost const height: nat

    /** Nested groups are strictly lower, down to the leaves, and every leaf
        holds non-negative counts. */
    ghost predicate Wf()
      decreases height
    {
      forall i :: 0 <= i < |elements| ==>
        match elements[i]
        case Single(v) => v.tries.right >= 0 && v.tries.wrong >= 0
        case Nested(g) => g.height < height && g.Wf()
    }

    constructor (elements: seq<Element>, ghost height: nat)
      requires forall i :: 0 <= i < |elements| ==>
                 match elements[i]
                 case Single(v) => v.tries.right >= 0 && v.tries.wrong >= 0
                 case Nested(g) => g.height < height && g.Wf()
      ensures this.elements == elements && current == null && Wf()
    {
      this.elements := elements;
      this.height := height;
      current := null;
    }

    /** The tree this object stands for. */
    function Entries(): (r: seq<Entry>)
      requires Wf()
      ensures |r| == |elements|
      ensures forall i :: 0 <= i < |elements| && elements[i].Single? ==> r[i] == Leaf(elements[i].v.Contents())
      ensures forall i :: 0 <= i < |r| ==> CountsOk(r[i])
      decreases height, 1
    {
      EntriesUpTo(|elements|)
    }

    function EntriesUpTo(n: nat): (r: seq<Entry>)
      requires Wf() && n <= |elements|
      ensures |r| == n
      ensures forall i :: 0 <= i < n && elements[i].Single? ==> r[i] == Leaf(elements[i].v.Contents())
      ensures forall i :: 0 <= i < n && elements[i].Nested? ==> r[i] == Node(elements[i].g.Entries())
      ensures forall i :: 0 <= i < n ==> CountsOk(r[i])
      decreases height, 0, n
    {
      if n == 0 then []
      else
        var e := match elements[n - 1]
                 case Single(v) => Leaf(v.Contents())
                 case Nested(g) => Node(g.Entries());
        EntriesUpTo(n - 1) + [e]
    }

    /** The `json` property. */
    function Json(): Json
      requires Wf()
    {
      EncodeNode(Entries())
    }

    /** `random_vocabulary`. The weights `voc.tries.reciprocal` are computed
        for every element first, so a nested element, which has no `tries`,
        raises `AttributeError` before anything is drawn; an empty tuple makes
        `random.choices` raise `IndexError`. Otherwise every weight is positive
        and the draw is any element, a leaf, which becomes the current one. */
    method RandomVocabulary() returns (r: Result<Vocabulary, Exception>)
      requires Wf()
      modifies this
      ensures (exists i :: 0 <= i < |elements| && elements[i].Nested?) ==> r == Failure(AttributeError)
      ensures |elements| == 0 ==> r == Failure(IndexError)
      ensures r.Failure? ==> current == old(current)
      ensures r.Success? <==> |elements| > 0 && forall i :: 0 <= i < |elements| ==> elements[i].Single?
      ensures r.Success? ==> current == r.value && exists i :: 0 <= i < |elements| && elements[i] == Single(r.value)
    {
      var k := 0;
      while k < |elements|
        invariant 0 <= k <= |elements|
        invariant forall i :: 0 <= i < k ==> elements[i].Single?
      {
        if elements[k].Nested? {
          return Failure(AttributeError);
        }
        k := k + 1;
      }
      ghost var weights := seq(|elements|, i requires 0 <= i < |elements| => QT.Reciprocal(elements[i].v.tries));
      assert forall i :: 0 <= i < |weights| ==> weights[i] > 0.0;
      var d := Draw.PositiveWeightedIndex(|elements|);
      if d.Failure? {
        return Failure(d.error);
      }
      current := elements[d.value].v;
      r := Success(current);
    }

    /** `check(name)`: delegated to the vocabulary last drawn; before any draw
        `current_vocabulary` is `None` and the call raises `AttributeError`. */
    function Check(name: string): (r: Result<TV.Reply, Exception>)
      reads this, current
      ensures current == null <==> r == Failure(AttributeError)
      ensures r.Success? ==> (r.value.Hit? <==> name in current.Answers())
      ensures r.Success? && r.value.Miss? ==> r.value.expected == current.Answers()
    {
      if current == null then Failure(AttributeError) else Success(current.Check(name))
    }
  }

  /** Builds the objects for a decoded list, leaves first made, nested lists
      built recursively. */
  method Build(es: seq<Entry>) returns (g: Vocabularies)
    requires forall i :: 0 <= i < |es| ==> CountsOk(es[i])
    ensures fresh(g) && g.Wf() && g.Entries() == es && g.current == null
    decreases es
  {
    var elements: seq<Element> := [];
    ghost var height: nat := 0;
    var k := 0;
    while k < |es|
      invariant 0 <= k <= |es| && |elements| == k
      invariant forall i :: 0 <= i < k ==>
                  match elements[i]
                  case Single(v) => v.tries.right >= 0 && v.tries.wrong >= 0 && es[i] == Leaf(v.Contents())
                  case Nested(g) => g.height < height && g.Wf() && es[i] == Node(g.Entries())
      decreases |es| - k
    {
      match es[k] {
        case Leaf(w) =>
          var v := new Vocabulary(w);
          elements := elements + [Single(v)];
        case Node(sub) =>
          assert CountsOk(es[k]);
          var h := Build(sub);
          height := if h.height + 1 > height then h.height + 1 else height;
          elements := elements + [Nested(h)];
      }
      k := k + 1;
    }
    g := new Vocabularies(elements, height);
    assert g.Entries() == es;
  }

  /** `Vocabularies.from_json`: decodes the whole tree, then builds it. */
  method FromJson(j: Json) returns (r: Result<Vocabularies, Exception>)
    ensures r.Success? <==> DecodeNode(j).Success?
    ensures r.Failure? ==> r.error == DecodeNode(j).error
    ensures r.Success? ==> fresh(r.value) && r.value.Wf() && r.value.current == null
                           && r.value.Entries() == DecodeNode(j).value
  {
    var d := DecodeNode(j);
    if d.Failure? {
      return Failure(d.error);
    }
    if j.fields["entries"].JArr? {
      DecodedCountsOk(j.fields["entries"].items);
    }
    var g := Build(d.value);
    r := Success(g);
  }
}
