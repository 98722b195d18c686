/** The dictionary forms of the vocabulary classes of `vocabulary_trainer/__init__.py`
    (what `to_json` writes and `from_json`/`from_dict` read), as values. */
module TrainerJson {
  import opened Wrappers
  import opened PyErrors
  import opened JsonValue
  import opened TrainerStats

  /** One vocabulary as `to_json` writes it and `from_json` reads it. */
  datatype VocabRecord = VocabRecord(
    sources: seq<string>, targets: seq<string>,
    sourceExample: string, targetExample: string,
    stats: Counts)

  /** The same vocabulary seen from the other side. */
  function Swap(v: VocabRecord): VocabRecord
  {
    VocabRecord(v.targets, v.sources, v.targetExample, v.sourceExample, v.stats)
  }

  /** What reading back the written counts yields: the total lands in the wrong count. */
  function Inflate(v: VocabRecord): VocabRecord
  {
    v.(stats := Counts(v.stats.right, v.stats.right + v.stats.wrong))
  }

  /** `Vocabulary.to_json` on a vocabulary whose properties read as `v`. */
  function EncodeVocab(v: VocabRecord): Json
  {
    JObj(map[
      "sources" := Strings(v.sources),
      "targets" := Strings(v.targets),
      "stats" := StatsJson(v.stats),
      "examples" := JObj(map["target" := JStr(v.targetExample), "source" := JStr(v.sourceExample)])
    ])
  }

  /** `Vocabulary.from_json`: the lookups in the order Python evaluates them
      (`examples`, `sources`, `targets`, the two examples, `stats`). */
  function DecodeVocab(j: Json): Result<VocabRecord, Exception>
  {
    var example :- Get(j, "examples");
    var sources :- Get(j, "sources");
    var targets :- Get(j, "targets");
    var source :- Get(example, "source");
    var target :- Get(example, "target");
    var statsJson :- Get(j, "stats");
    var stats :- StatsFromDict(statsJson);
    var ss :- AsStrings(sources);
    var ts :- AsStrings(targets);
    var se :- AsString(source);
    var te :- AsString(target);
    Success(VocabRecord(ss, ts, se, te, stats))
  }

  /** Writing a vocabulary and reading it back keeps the terms and examples and
      turns the wrong count into the total. */
  lemma VocabJsonRoundTrip(v: VocabRecord)
    ensures DecodeVocab(EncodeVocab(v)) == Success(Inflate(v))
  {
    StringsRoundTrip(v.sources);
    StringsRoundTrip(v.targets);
    StatsFromDictOfToJson(v.stats);
  }

  /** A `TreeVocabulary` as a value: the main entry and the sub-entries. */
  datatype TreeRecord = TreeRecord(main: VocabRecord, subs: seq<VocabRecord>)

  function InflateTree(t: TreeRecord): TreeRecord
  {
    TreeRecord(Inflate(t.main), InflateAll(t.subs))
  }

  function InflateAll(vs: seq<VocabRecord>): (r: seq<VocabRecord>)
    ensures |r| == |vs| && forall i :: 0 <= i < |vs| ==> r[i] == Inflate(vs[i])
  {
    seq(|vs|, i requires 0 <= i < |vs| => Inflate(vs[i]))
  }

  function EncodeVocabs(vs: seq<VocabRecord>): (r: seq<Json>)
    ensures |r| == |vs| && forall i :: 0 <= i < |vs| ==> r[i] == EncodeVocab(vs[i])
  {
    seq(|vs|, i requires 0 <= i < |vs| => EncodeVocab(vs[i]))
  }

  lemma VocabsJsonRoundTrip(vs: seq<VocabRecord>)
    ensures DecodeEach(EncodeVocabs(vs), DecodeVocab) == Success(InflateAll(vs))
  {
    var es := EncodeVocabs(vs);
    var rs := InflateAll(vs);
    forall i | 0 <= i < |es| ensures DecodeVocab(es[i]) == Success(rs[i]) {
      VocabJsonRoundTrip(vs[i]);
    }
    DecodeEachAll(es, DecodeVocab, rs);
  }

  /** `from_json` looks at four keys only. */
  lemma DecodeVocabIgnores(fields: map<string, Json>, k: string, x: Json)
    requires k !in {"examples", "sources", "targets", "stats"}
    ensures DecodeVocab(JObj(fields[k := x])) == DecodeVocab(JObj(fields))
  {
    var j, j' := JObj(fields[k := x]), JObj(fields);
    assert Get(j, "examples") == Get(j', "examples");
    assert Get(j, "sources") == Get(j', "sources");
    assert Get(j, "targets") == Get(j', "targets");
    assert Get(j, "stats") == Get(j', "stats");
  }

  /** `TreeVocabulary.to_json`: the main entry's keys plus `subentries`. */
  function EncodeTree(t: TreeRecord): Json
  {
    JObj(EncodeVocab(t.main).fields["subentries" := JArr(EncodeVocabs(t.subs))])
  }

  /** `TreeVocabulary.from_dict`: the sub-entries are read first, then the main entry. */
  function DecodeTree(j: Json): Result<TreeRecord, Exception>
  {
    var subsJson :- Get(j, "subentries");
    var items :- Iterate(subsJson);
    var subs :- DecodeEach(items, DecodeVocab);
    var main :- DecodeVocab(j);
    Success(TreeRecord(main, subs))
  }

  lemma TreeJsonRoundTrip(t: TreeRecord)
    ensures DecodeTree(EncodeTree(t)) == Success(InflateTree(t))
  {
    VocabsJsonRoundTrip(t.subs);
    VocabJsonRoundTrip(t.main);
    DecodeVocabIgnores(EncodeVocab(t.main).fields, "subentries", JArr(EncodeVocabs(t.subs)));
  }

  /** A `Vocabularies` deck as a value; `name` and `random_direction` are kept as
      the JSON values they were read as. */
  datatype DeckRecord = DeckRecord(entries: seq<TreeRecord>, name: Json, randomDirection: Json)

  function InflateDeck(d: DeckRecord): DeckRecord
  {
    d.(entries := seq(|d.entries|, i requires 0 <= i < |d.entries| => InflateTree(d.entries[i])))
  }

  function EncodeTrees(ts: seq<TreeRecord>): (r: seq<Json>)
    ensures |r| == |ts| && forall i :: 0 <= i < |ts| ==> r[i] == EncodeTree(ts[i])
  {
    seq(|ts|, i requires 0 <= i < |ts| => EncodeTree(ts[i]))
  }

  lemma TreesJsonRoundTrip(ts: seq<TreeRecord>)
    ensures DecodeEach(EncodeTrees(ts), DecodeTree) == Success(InflateDeck(DeckRecord(ts, JNull, JNull)).entries)
  {
    var es := EncodeTrees(ts);
    var rs := InflateDeck(DeckRecord(ts, JNull, JNull)).entries;
    forall i | 0 <= i < |es| ensures DecodeTree(es[i]) == Success(rs[i]) {
      TreeJsonRoundTrip(ts[i]);
    }
    DecodeEachAll(es, DecodeTree, rs);
  }

  /** `Vocabularies.to_json`. */
  function EncodeDeck(d: DeckRecord): Json
  {
    JObj(map[
      "entries" := JArr(EncodeTrees(d.entries)),
      "name" := d.name,
      "random_direction" := d.randomDirection
    ])
  }

  /** The groups under `entries`, as both `from_dict`s read them. */
  function DecodeEntries(j: Json): Result<seq<TreeRecord>, Exception>
  {
    var entriesJson :- Get(j, "entries");
    var items :- Iterate(entriesJson);
    DecodeEach(items, DecodeTree)
  }

  /** `Vocabularies.from_dict`: the entries first, then `name`, then `random_direction`. */
  function DecodeDeck(j: Json): Result<DeckRecord, Exception>
  {
    var entries :- DecodeEntries(j);
    var name :- Get(j, "name");
    var randomDirection :- Get(j, "random_direction");
    Success(DeckRecord(entries, name, randomDirection))
  }

  /** Saving and reloading a deck keeps its name, flag, entries, terms and
      examples, and replaces every wrong count by the total. */
  lemma DeckJsonRoundTrip(d: DeckRecord)
    ensures DecodeDeck(EncodeDeck(d)) == Success(InflateDeck(d))
  {
    TreesJsonRoundTrip(d.entries);
  }
}
