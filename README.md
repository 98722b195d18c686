# vocabulary_trainer in Dafny

This project models the core of the vocabulary trainer. The trainer asks
for one side of a vocabulary (a word or one of its translations) and checks
the answer against the other side. Every vocabulary keeps counts of right
and wrong tries, and the counts give it a quote. The model covers:

- **The trainer package** (`vocabulary_trainer/__init__.py`):
  - `Stats`, with its integer quote and its comparisons on the quote.
  - The two-sided `Vocabulary`, which shares one `Stats` between its forward
    and its backward `_SimpleVocabulary`.
  - `TreeVocabulary`, a main vocabulary with sub-vocabularies whose stats add
    up.
  - `VocabularyList` and `Vocabularies`. Each draws a group, then a
    vocabulary of the group, weighted by quote.
  - The JSON form of all of these.
- **The earlier draft** (`vocabulary_trainer/vocabularies.py`): the same
  entities drawn uniformly with `randint`, and a different reply shape.
- **The console trainer** (`main.py`): its float quote, its inverse-quote
  draw, and the session summary `get_state`. One turn of its `input` loop is
  modelled as a function of the typed text.
- **The draft `new.py`**: a vocabulary with a `max_tries` counter.
- **The quiz framework's parts that carry logic**:
  - `Tries` (`quiz_enchanter/tries.py`), with its quote, its arithmetic and
    its rendering.
  - The vocabulary extension's nested `Vocabularies`, with its
    reciprocal-weighted draw.
  - The `match` and `select` quiz models and their console runs.
- **The settings package**. A value setter validates and otherwise corrects
  (`settings/__init__.py`, `settings/settings.py`). The settings package also has
  validators and a worked example.
- **The translators** (`translator/__init__.py`).

How the model is built:

- **Classes and functions.** Objects whose fields the source updates are
  Dafny classes with `modifies` clauses, and their invariants are ghost
  predicates. Pure code becomes functions. Python exceptions are the
  `Failure` side of a `Result`. An operation fails where the source raises,
  with the exception it raises (`KeyError`, `TypeError`, `IndexError`,
  `ValueError`, `AttributeError`, `ZeroDivisionError`, `CorrectionError`,
  `LanguageNotSupportedError`). `CorrectionError` is the settings package's
  class; `ErrorsCorrectionError` is the distinct class of
  `settings/errors.py`, which the validators raise. Two exceptions are the
  model's own. The JSON decoders refuse word lists, examples and counts of
  the wrong type with `TypeError`, where the source stores them unchecked,
  and they refuse negative counts with `NegativeCount`. "Left out" lists
  each decoder this affects.
- **JSON.** JSON input is a `Json` value. Decoding goes from JSON to a
  plain record (a function), and a method then builds the objects. Each
  decoder is proved against its encoder by a round-trip lemma.
- **Drawing.** `random.choice`, `random.randint` and `random.choices` are
  nondeterministic methods whose contracts say only which outcomes are
  possible.
- **Stats decoding as written.** `Stats.from_dict` reads `tries_total` into
  the wrong-try count, while `to_json` writes the total there. A JSON round
  trip therefore adds the right tries to the wrong ones
  (`TrainerStats.StatsRoundTripIffNoRight`, `TrainerJson.VocabJsonRoundTrip`
  through `Inflate`).
- **The integer quote.** The trainer's `int(((r + 1) / (t + 1)) * 100)` is
  modelled as the exact floor `(100 * (r + 1)) / (t + 1)`.

## Model

| member | source | states |
|---|---|---|
| Draw.Choice | vocabulary_trainer/__init__.py:102-108 | `random.choice`: an element of the sequence, or `IndexError` exactly when it is empty |
| Draw.RandInt | vocabulary_trainer/vocabularies.py:147 | `randint(0, n - 1)`: an index below `n`, or `ValueError` exactly when `n == 0` |
| Draw.WeightedIndex | vocabulary_trainer/__init__.py:228-231 | `random.choices` with integer weights: an index whose weight is positive, `IndexError` for no weights, `ValueError` when all are zero |
| Draw.PositiveWeightedIndex | main.py:88-89 | `random.choices` over positive weights: some index below `n`, `IndexError` exactly when there is none |
| Draw.PositiveSumHasPositiveWeight | vocabulary_trainer/__init__.py:228-231 | a positive weight total has a positive member |
| Draw.ZeroSumIffAllZero | vocabulary_trainer/__init__.py:286-289 | the weights sum to zero if and only if every weight is zero |
| JsonValue.Get | vocabulary_trainer/__init__.py:30 | `data[key]`: the stored value for a present key, `KeyError` on an object without it, `TypeError` on a non-object |
| JsonValue.Iterate | vocabulary_trainer/__init__.py:220 | `for item in j`: an array's items, nothing for `""` and `{}`, and `TypeError` for every other value; a non-empty string or object counts as failing, since its `str` items fail every decoder |
| JsonValue.StringsRoundTrip | vocabulary_trainer/__init__.py:144-145 | a list of strings written to JSON reads back as the same list |
| JsonValue.DecodeEach | vocabulary_trainer/__init__.py:220 | a list comprehension of decodes: on success, one result per item |
| JsonValue.DecodeEachAll | vocabulary_trainer/__init__.py:279 | when every item decodes, the comprehension yields exactly those results in order |
| Text.Strip | quiz_enchanter/extensions/default_extension/match_extension.py:19 | `str.strip()`: an infix of the input that neither starts nor ends with whitespace, everything cut off being whitespace |
| Text.ParseIntToString | quiz_enchanter/extensions/default_extension/select_extension.py:32 | `int(str(i)) == i` for every integer |
| Text.ParseDigits | quiz_enchanter/extensions/default_extension/select_extension.py:32 | `int()` of a non-empty digit string is the number the digits denote |
| Text.LowerIsLowerIffLetter | settings/examples.py:7-12 | `s.lower().islower()` holds exactly when `s` has a cased letter |
| Text.ContainsAt | translator/__init__.py:38 | the substring test `a in s` holds exactly when `a` occurs at some position of `s` |
| PyValues.Truncate | settings/__init__.py:73 | `int(f)` rounds towards zero: within one of `f`, on the side of zero |
| PyValues.ToInt | settings/__init__.py:73 | `int(v)`: `TypeError` for `None`, `ValueError` for text that is no integer, the integer itself for an int |
| PyValues.ToIntOfString | settings/__init__.py:73 | `int(str(i)) == i` on setting values |
| PyValues.ToFloat | settings/__init__.py:85 | `float(v)`: `TypeError` for `None`, `ValueError` for text that is no decimal, exact for ints, bools and floats |
| PyValues.ToFloatOfIntString | settings/__init__.py:85 | `float(str(i))` is `i` as a real |
| PyValues.DigitsBelowPow10 | settings/__init__.py:85 | `n` decimal digits denote a number below `10 ** n` |
| PyValues.DecimalValue | settings/__init__.py:85 | the value of the literal `a.b` lies between `a` and `a + 1` |
| TrainerStats.QuoteAtMost100 | vocabulary_trainer/__init__.py:51-53 | the integer quote never exceeds 100 |
| TrainerStats.QuoteFullIffNoWrong | vocabulary_trainer/__init__.py:51-53 | the quote is 100 if and only if there are no wrong tries |
| TrainerStats.QuoteZeroIff | vocabulary_trainer/__init__.py:51-53 | the quote is 0 if and only if `wrong >= 99 * right + 100` |
| TrainerStats.RightTryKeepsOrRaisesQuote | vocabulary_trainer/__init__.py:39-41 | right tries never lower the quote |
| TrainerStats.WrongTryKeepsOrLowersQuote | vocabulary_trainer/__init__.py:43-45 | wrong tries never raise the quote |
| TrainerStats.StatsFromDict | vocabulary_trainer/__init__.py:28-30 | `from_dict` takes `tries_right` as right tries and `tries_total` as wrong tries |
| TrainerStats.StatsFromDictOfToJson | vocabulary_trainer/__init__.py:28-37 | reading back `to_json` gives wrong tries equal to the former total |
| TrainerStats.StatsRoundTripIffNoRight | vocabulary_trainer/__init__.py:28-37 | the stats survive a JSON round trip if and only if there are no right tries |
| TrainerStats.Stats.constructor | vocabulary_trainer/__init__.py:18-26 | a new `Stats` holds the given counts, its total and its quote |
| TrainerStats.Stats.UpdateTotalTries | vocabulary_trainer/__init__.py:51-53 | recomputes total and quote from the counts, which stay as they are |
| TrainerStats.Stats.RightTry | vocabulary_trainer/__init__.py:39-41 | adds `points` right tries and keeps total and quote consistent |
| TrainerStats.Stats.WrongTry | vocabulary_trainer/__init__.py:43-45 | adds `points` wrong tries and keeps total and quote consistent |
| TrainerStats.Stats.TriesTotal | vocabulary_trainer/__init__.py:47-49 | the total is right plus wrong tries |
| TrainerStats.Stats.Add | vocabulary_trainer/__init__.py:79-90 | `a + b` is a new `Stats` with the counts added |
| TrainerStats.Stats.ToJson | vocabulary_trainer/__init__.py:32-37 | the dictionary of total, right and wrong tries |
| TrainerStats.StatsFromDictObject | vocabulary_trainer/__init__.py:28-30 | builds a fresh consistent `Stats` from what `from_dict` reads, or raises its error |
| TrainerStats.ComparisonsSeeOnlyQuote | vocabulary_trainer/__init__.py:55-77 | all six comparisons depend on the two quotes only |
| TrainerStats.EqualQuotesForDifferentCounts | vocabulary_trainer/__init__.py:67-68 | `Stats(0, 0) == Stats(1, 0)`: both quotes are 100 |
| TrainerStats.Values | vocabulary_trainer/__init__.py:265 | the counts of each `Stats` in the list, in order |
| TrainerStats.BetterSum | vocabulary_trainer/__init__.py:11-15 | `IndexError` on an empty list; the list's only element itself; otherwise a fresh `Stats` holding the summed counts |
| TrainerStats.SumValuesSnoc | vocabulary_trainer/__init__.py:13-14 | one step of the loop adds the next element's counts |
| TrainerStats.PositiveSumQuoteHasPositiveMember | vocabulary_trainer/__init__.py:263-266 | a group with positive combined quote has a member with positive quote |
| TrainerStats.AllZeroSumBound | vocabulary_trainer/__init__.py:285-289 | members all of quote 0 give a sum with `wrong >= 99 * right + 100 * n` |
| TrainerJson.VocabJsonRoundTrip | vocabulary_trainer/__init__.py:136-151 | `from_json(to_json(v))` gives `v` back, with its stats read as `from_dict` reads them |
| TrainerJson.DecodeVocabIgnores | vocabulary_trainer/__init__.py:136-140 | keys other than `examples`, `sources`, `targets` and `stats` do not affect decoding |
| TrainerJson.InflateAll | vocabulary_trainer/__init__.py:220 | the round-trip image of each vocabulary of a list, in order |
| TrainerJson.EncodeVocabs | vocabulary_trainer/__init__.py:225 | the JSON of each vocabulary of a list, in order |
| TrainerJson.VocabsJsonRoundTrip | vocabulary_trainer/__init__.py:220-225 | a list of vocabularies written and read back gives each one's round-trip image |
| TrainerJson.TreeJsonRoundTrip | vocabulary_trainer/__init__.py:218-225 | a tree with its `subentries` survives a round trip up to the stats reading |
| TrainerJson.EncodeTrees | vocabulary_trainer/__init__.py:325 | the JSON of each tree of a list, in order |
| TrainerJson.TreesJsonRoundTrip | vocabulary_trainer/__init__.py:279 | a list of trees round-trips tree by tree |
| TrainerJson.DeckJsonRoundTrip | vocabulary_trainer/__init__.py:313-328 | `Vocabularies.from_dict(to_json())` restores entries, `name` and `random_direction` |
| Trainer.SimpleVocabulary.constructor | vocabulary_trainer/__init__.py:93-100 | stores the two word lists, the examples and the shared `Stats` |
| Trainer.SimpleVocabulary.Translation | vocabulary_trainer/__init__.py:102-104 | one of the translations, or `IndexError` when there are none |
| Trainer.SimpleVocabulary.Source | vocabulary_trainer/__init__.py:106-108 | one of the sources, or `IndexError` when there are none |
| Trainer.SimpleVocabulary.NextTry | vocabulary_trainer/__init__.py:110-116 | right exactly when the answer is a translation; counts one right or one wrong try; a wrong answer returns the translations |
| Trainer.Vocabulary.constructor | vocabulary_trainer/__init__.py:126-134 | builds the forward side and its mirrored backward side over one `Stats`, direction forwards |
| Trainer.Vocabulary.Side | vocabulary_trainer/__init__.py:153-158 | the side the current direction selects |
| Trainer.Vocabulary.Translations | vocabulary_trainer/__init__.py:160-165 | the forward translations going forwards, the forward sources going backwards |
| Trainer.Vocabulary.Sources | vocabulary_trainer/__init__.py:174-179 | the forward sources going forwards, the forward translations going backwards |
| Trainer.Vocabulary.Record | vocabulary_trainer/__init__.py:142-151 | the stored record going forwards, its swap of sides and examples going backwards |
| Trainer.Vocabulary.ToJson | vocabulary_trainer/__init__.py:142-151 | the JSON of the record as seen from the current direction |
| Trainer.Vocabulary.Translation | vocabulary_trainer/__init__.py:153-158 | one of the current translations, or `IndexError` |
| Trainer.Vocabulary.Source | vocabulary_trainer/__init__.py:167-172 | one of the current sources, or `IndexError` |
| Trainer.Vocabulary.NextTry | vocabulary_trainer/__init__.py:195-201 | checks against the current side's translations and counts the try on the shared `Stats` |
| Trainer.Vocabulary.RandomizeDirection | vocabulary_trainer/__init__.py:203-205 | the direction changes only when random direction is on |
| Trainer.Vocabulary.FromJson | vocabulary_trainer/__init__.py:136-140 | succeeds exactly when the JSON decodes; builds a fresh forwards vocabulary holding the decoded record |
| Trainer.Vocabulary.FromRecord | vocabulary_trainer/__init__.py:139-140 | a fresh forwards vocabulary holding the given record |
| Trainer.BuildVocabularies | vocabulary_trainer/__init__.py:220 | one fresh vocabulary per record, each holding its record |
| Trainer.StatsList | vocabulary_trainer/__init__.py:265 | the `states` of each vocabulary, in order |
| Trainer.Quotes | vocabulary_trainer/__init__.py:230 | the quote of each vocabulary, in order |
| Trainer.Records | vocabulary_trainer/__init__.py:225 | the record of each vocabulary, in order |
| Trainer.TreeVocabulary.SoundParts | vocabulary_trainer/__init__.py:215 | the main vocabulary and the sub-vocabularies are all in `all_vocabularies` and consistent |
| Trainer.TreeVocabulary.constructor | vocabulary_trainer/__init__.py:212-216 | `all_vocabularies` is the sub-vocabularies followed by the main one; no current vocabulary |
| Trainer.TreeVocabulary.States | vocabulary_trainer/__init__.py:263-266 | the summed counts of all vocabularies; the main vocabulary's own `Stats` when there are no subs |
| Trainer.TreeVocabulary.Pick | vocabulary_trainer/__init__.py:228-231 | an index of positive quote, or `ValueError` exactly when all quotes are 0 |
| Trainer.TreeVocabulary.GetNewVocabulary | vocabulary_trainer/__init__.py:227-234 | draws a vocabulary of positive quote, which alone may turn; succeeds exactly when it has sources, returning one of them, and raises `IndexError` otherwise; `ValueError` when all quotes are 0 |
| Trainer.TreeVocabulary.NextTry | vocabulary_trainer/__init__.py:236-237 | forwards the answer to the current vocabulary; `AttributeError` before any draw |
| Trainer.TreeVocabulary.Translations | vocabulary_trainer/__init__.py:247-249 | the current vocabulary's translations, or `AttributeError` |
| Trainer.TreeVocabulary.Sources | vocabulary_trainer/__init__.py:251-253 | the current vocabulary's sources, or `AttributeError` |
| Trainer.TreeVocabulary.Translation | vocabulary_trainer/__init__.py:239-241 | one current translation, `AttributeError` or `IndexError` |
| Trainer.TreeVocabulary.Source | vocabulary_trainer/__init__.py:243-245 | one current source, `AttributeError` or `IndexError` |
| Trainer.TreeVocabulary.ToJson | vocabulary_trainer/__init__.py:223-225 | the main vocabulary's JSON with the sub-vocabularies under `subentries` |
| Trainer.TreeVocabulary.FromRecord | vocabulary_trainer/__init__.py:220-221 | a fresh tree of fresh forwards vocabularies holding the record |
| Trainer.TreeVocabulary.FromDict | vocabulary_trainer/__init__.py:218-221 | succeeds exactly when the JSON decodes as a tree, and holds the decoded tree |
| Trainer.GroupHasDrawable | vocabulary_trainer/__init__.py:228-231 | a group with positive combined quote has a drawable vocabulary |
| Trainer.GroupQuotes | vocabulary_trainer/__init__.py:288 | the combined quote of each group, in order |
| Trainer.BuildTrees | vocabulary_trainer/__init__.py:279 | one fresh tree per record, each holding its record |
| Trainer.VocabularyList.constructor | vocabulary_trainer/__init__.py:273-275 | holds the groups; no current group |
| Trainer.VocabularyList.Weights | vocabulary_trainer/__init__.py:288 | the combined quote of each group |
| Trainer.VocabularyList.Pick | vocabulary_trainer/__init__.py:286-289 | a group of positive combined quote; `IndexError` with no groups, `ValueError` when all weights are 0 |
| Trainer.VocabularyList.GetNewVocabulary | vocabulary_trainer/__init__.py:285-290 | draws a group of positive weight and then one of its vocabularies; succeeds exactly when that vocabulary has sources, returning one of them, else `IndexError`; other groups keep their current vocabulary, and no other vocabulary turns; with no groups (`IndexError`) or all weights 0 (`ValueError`), nothing changes |
| Trainer.VocabularyList.Enter | vocabulary_trainer/__init__.py:290 | makes the group current and draws inside it; the draw succeeds exactly when the drawn vocabulary has sources; other groups and vocabularies stay as they were |
| Trainer.VocabularyList.NextTry | vocabulary_trainer/__init__.py:292-293 | forwards the answer to the current group's current vocabulary; `AttributeError` before any draw |
| Trainer.VocabularyList.Skip | vocabulary_trainer/__init__.py:295-296 | the current translations, or `AttributeError` |
| Trainer.VocabularyList.Records | vocabulary_trainer/__init__.py:325 | the record of each group, in order |
| Trainer.VocabularyList.FromRecords | vocabulary_trainer/__init__.py:279-280 | a fresh list of fresh groups holding the records |
| Trainer.VocabularyList.FromDict | vocabulary_trainer/__init__.py:277-280 | succeeds exactly when `entries` decodes, and holds the decoded groups |
| Trainer.Vocabularies.constructor | vocabulary_trainer/__init__.py:307-311 | holds the list, the name and the random-direction flag |
| Trainer.Vocabularies.ToJson | vocabulary_trainer/__init__.py:323-328 | `entries`, `name` and `random_direction` |
| Trainer.Vocabularies.FromDict | vocabulary_trainer/__init__.py:313-316 | succeeds exactly when the deck decodes, and holds the decoded deck |
| TrainerVocabularies.Stats.constructor | vocabulary_trainer/vocabularies.py:10-18 | a new `Stats` holds the counts, total and quote |
| TrainerVocabularies.Stats.UpdateTotalTries | vocabulary_trainer/vocabularies.py:36-38 | recomputes total and quote; the counts stay |
| TrainerVocabularies.Stats.RightTry | vocabulary_trainer/vocabularies.py:24-26 | adds `points` right tries |
| TrainerVocabularies.Stats.FalseTry | vocabulary_trainer/vocabularies.py:28-30 | adds `points` false tries |
| TrainerVocabularies.Stats.TriesTotal | vocabulary_trainer/vocabularies.py:32-34 | the total is right plus false tries |
| TrainerVocabularies.StatsFromJson | vocabulary_trainer/vocabularies.py:20-22 | reads `tries_right` and `tries_total` as right and false tries, or raises |
| TrainerVocabularies.Check | vocabulary_trainer/vocabularies.py:58-64 | `(True,)` exactly when the answer is accepted, else `(False, accepted)` |
| TrainerVocabularies.SimpleVocabulary.constructor | vocabulary_trainer/vocabularies.py:41-48 | stores lists, examples and `Stats` |
| TrainerVocabularies.SimpleVocabulary.Translation | vocabulary_trainer/vocabularies.py:50-52 | one translation, or `IndexError` |
| TrainerVocabularies.SimpleVocabulary.Source | vocabulary_trainer/vocabularies.py:54-56 | one source, or `IndexError` |
| TrainerVocabularies.SimpleVocabulary.NextTry | vocabulary_trainer/vocabularies.py:58-64 | the reply of `Check` and one counted right or false try |
| TrainerVocabularies.Vocabulary.constructor | vocabulary_trainer/vocabularies.py:74-82 | mirrored sides over one `Stats`, direction forwards |
| TrainerVocabularies.Vocabulary.Side | vocabulary_trainer/vocabularies.py:90-95 | the side the direction selects |
| TrainerVocabularies.Vocabulary.Translations | vocabulary_trainer/vocabularies.py:97-102 | the current side's translations |
| TrainerVocabularies.Vocabulary.Sources | vocabulary_trainer/vocabularies.py:111-116 | the current side's sources |
| TrainerVocabularies.Vocabulary.Translation | vocabulary_trainer/vocabularies.py:90-95 | one current translation, or `IndexError` |
| TrainerVocabularies.Vocabulary.Source | vocabulary_trainer/vocabularies.py:104-109 | one current source, or `IndexError` |
| TrainerVocabularies.Vocabulary.NextTry | vocabulary_trainer/vocabularies.py:118-124 | checks against the current side and counts the try |
| TrainerVocabularies.Vocabulary.SetRandomDirection | vocabulary_trainer/vocabularies.py:126-128 | the direction changes only when random direction is on |
| TrainerVocabularies.Vocabulary.FromJson | vocabulary_trainer/vocabularies.py:84-88 | succeeds exactly when the JSON decodes, holding the decoded record |
| TrainerVocabularies.Vocabulary.FromRecord | vocabulary_trainer/vocabularies.py:87-88 | a fresh forwards vocabulary holding the record |
| TrainerVocabularies.Bases | vocabulary_trainer/vocabularies.py:138 | the record of each vocabulary, in order |
| TrainerVocabularies.BuildVocabularies | vocabulary_trainer/vocabularies.py:143 | one fresh vocabulary per record |
| TrainerVocabularies.Group.constructor | vocabulary_trainer/vocabularies.py:135-139 | subs followed by main; current index 0 |
| TrainerVocabularies.Group.Current | vocabulary_trainer/vocabularies.py:151-152 | `all_vocabularies[current_index]`: the first sub, or the main vocabulary when there are none, before any draw |
| TrainerVocabularies.Group.GetNewVocabulary | vocabulary_trainer/vocabularies.py:146-149 | draws any vocabulary of the group, may turn only that one, returns one of its sources |
| TrainerVocabularies.Group.NextTry | vocabulary_trainer/vocabularies.py:151-152 | forwards the answer to the current vocabulary |
| TrainerVocabularies.Group.Translations | vocabulary_trainer/vocabularies.py:162-164 | the current vocabulary's translations |
| TrainerVocabularies.Group.Sources | vocabulary_trainer/vocabularies.py:166-168 | the current vocabulary's sources |
| TrainerVocabularies.Group.Translation | vocabulary_trainer/vocabularies.py:154-156 | one current translation, or `IndexError` |
| TrainerVocabularies.Group.Source | vocabulary_trainer/vocabularies.py:158-160 | one current source, or `IndexError` |
| TrainerVocabularies.Group.FromRecord | vocabulary_trainer/vocabularies.py:143-144 | a fresh group holding the record |
| TrainerVocabularies.Group.FromJson | vocabulary_trainer/vocabularies.py:141-144 | succeeds exactly when the tree decodes, holding it |
| TrainerVocabularies.BuildGroups | vocabulary_trainer/vocabularies.py:181 | one fresh group per record |
| TrainerVocabularies.VocabularyList.constructor | vocabulary_trainer/vocabularies.py:175-177 | holds the groups; current index 0 |
| TrainerVocabularies.VocabularyList.GetNewVocabulary | vocabulary_trainer/vocabularies.py:184-186 | draws any group and a vocabulary in it; succeeds exactly when that vocabulary has sources, else `IndexError`; other groups keep their index, and no other vocabulary turns; `ValueError` (from `randint(0, -1)`) with no groups, changing nothing |
| TrainerVocabularies.VocabularyList.Enter | vocabulary_trainer/vocabularies.py:186 | makes the group current and draws inside it; success exactly when the drawn vocabulary has sources; other groups and vocabularies unchanged |
| TrainerVocabularies.VocabularyList.NextTry | vocabulary_trainer/vocabularies.py:188-189 | forwards the answer to the current group; the current vocabulary gains one right try on a hit and one false try otherwise; `IndexError` with no groups |
| TrainerVocabularies.VocabularyList.FromJson | vocabulary_trainer/vocabularies.py:179-182 | succeeds exactly when `entries` decodes |
| ConsoleTrainer.SetterQuoteBounds | main.py:32-35 | the float quote after a try lies strictly between 0 and 100 |
| ConsoleTrainer.InitialQuoteIsSetterQuote | main.py:17 | the initial quote 50 is what the setter gives for no tries |
| ConsoleTrainer.Vocabulary.constructor | main.py:12-21 | stores the lists and examples; quote 50, no tries, forwards |
| ConsoleTrainer.Vocabulary.SetTries | main.py:32-35 | stores `tries` and recomputes the quote; `ZeroDivisionError` for `tries == -1` |
| ConsoleTrainer.Vocabulary.NextTry | main.py:37-49 | right exactly when the answer is on the other side; counts the try; the quote stays strictly between 0 and 100 |
| ConsoleTrainer.Vocabulary.SetRandomDirection | main.py:51-52 | only the direction may change |
| ConsoleTrainer.Vocabulary.Name | main.py:54-59 | one word of the asked side, or `IndexError` |
| ConsoleTrainer.DecodeWordJson | main.py:23-26 | `from_json` reads back every word record of the expected shape |
| ConsoleTrainer.DecodeWordMissingKey | main.py:25-26 | a missing `example`, `word` or `translation` key raises `KeyError`, in that order |
| ConsoleTrainer.VocabularyFromJson | main.py:23-26 | succeeds exactly when the record decodes; a fresh forwards vocabulary holding the decoded words, translations and examples, with no tries and quote 50 |
| ConsoleTrainer.SumRightAtMostSumTries | main.py:97-99 | summed right tries lie between 0 and summed tries |
| ConsoleTrainer.StatePercentBounds | main.py:100-107 | the percent lies in 0..100, and is 100 exactly when every try was right |
| ConsoleTrainer.Vocabularies.constructor | main.py:73-76 | holds the list, index 0 and the random-direction flag |
| ConsoleTrainer.Vocabularies.Add | main.py:83-85 | `+` appends a vocabulary and ignores anything else |
| ConsoleTrainer.Vocabularies.GetNewVocabulary | main.py:87-92 | draws an index into the list and returns that vocabulary; `IndexError` on an empty list; only the drawn one may turn, and no counts or quotes change |
| ConsoleTrainer.Vocabularies.NextTry | main.py:94-95 | the current vocabulary's verdict on the answer; it gains one right or one false try, `tries` becomes their sum and the quote is the setter's, and its direction stays; `IndexError` on an empty list |
| ConsoleTrainer.Vocabularies.GetState | main.py:97-107 | right tries, tries and the truncated percent, `(0, 0, 0)` for no tries |
| ConsoleTrainer.VocabulariesFromJson | main.py:78-81 | succeeds exactly when `json_data` is iterable and every item decodes; `TypeError` when it is not iterable, else the error of the first item that fails; on success one vocabulary per item, built from its record, at index 0 and with the given random-direction flag |
| ConsoleTrainer.Respond | main.py:123-139 | `exit` and `stats` report the state, and `skip` shows the translations; any other text is scored and counts one right or one false try on the current vocabulary, whose quote is the setter's and whose direction stays |
| NewVocabulary.Vocabulary.constructor | new.py:67-76 | mirrored sides over one `Stats`; `max_tries` is the `tries` argument, `current_tries` 0 |
| NewVocabulary.Vocabulary.NextTry | new.py:98-105 | counts one more `max_tries` and answers as the forward side does |
| NewVocabulary.Vocabulary.Translation | new.py:84-89 | one translation of the current side, or `IndexError` |
| NewVocabulary.Vocabulary.Source | new.py:91-96 | one source of the current side, or `IndexError` |
| NewVocabulary.DecodeEncode | new.py:78-82 | a record written in the `example`/`translations` layout reads back unchanged |
| NewVocabulary.FromJson | new.py:78-82 | succeeds exactly when the record decodes; fresh vocabulary |
| QuizVocabulary.DecodeEncodeWord | quiz_enchanter/extensions/vocabulary_extension/main.py:21-29 | `from_json(json)` gives back a vocabulary with non-negative tries |
| QuizVocabulary.DecodeItems | quiz_enchanter/extensions/vocabulary_extension/main.py:89-94 | one decoded entry per JSON entry |
| QuizVocabulary.EncodeItems | quiz_enchanter/extensions/vocabulary_extension/main.py:98-102 | one JSON entry per entry |
| QuizVocabulary.DecodeEncodeNode | quiz_enchanter/extensions/vocabulary_extension/main.py:86-102 | a nested collection written to JSON reads back unchanged |
| QuizVocabulary.DecodeEncodeItem | quiz_enchanter/extensions/vocabulary_extension/main.py:90-94 | one entry, leaf or nested, round-trips |
| QuizVocabulary.DecodeEncodeItems | quiz_enchanter/extensions/vocabulary_extension/main.py:89-96 | a list of entries round-trips |
| QuizVocabulary.DecodedCountsOk | quiz_enchanter/extensions/vocabulary_extension/main.py:86-96 | every decoded entry has non-negative counts |
| QuizVocabulary.DecodedItemCountsOk | quiz_enchanter/extensions/vocabulary_extension/main.py:90-94 | a decoded entry has non-negative counts |
| QuizVocabulary.Vocabulary.constructor | quiz_enchanter/extensions/vocabulary_extension/main.py:13-19 | holds the word and starts forwards |
| QuizVocabulary.Vocabulary.Check | quiz_enchanter/extensions/vocabulary_extension/main.py:58-70 | `(True,)` exactly when the answer is on the other side, else `(False, that side)` |
| QuizVocabulary.Vocabulary.Source | quiz_enchanter/extensions/vocabulary_extension/main.py:34-39 | one word of the asked side, or `IndexError` |
| QuizVocabulary.Vocabulary.Translation | quiz_enchanter/extensions/vocabulary_extension/main.py:41-46 | one word of the answer side, or `IndexError` |
| QuizVocabulary.Vocabulary.Str | quiz_enchanter/extensions/vocabulary_extension/main.py:77-78 | `"<first source>-<first translation>"`, or `IndexError` when a list is empty |
| QuizVocabulary.Vocabularies.constructor | quiz_enchanter/extensions/vocabulary_extension/main.py:82-84 | holds the elements; no current vocabulary |
| QuizVocabulary.Vocabularies.Entries | quiz_enchanter/extensions/vocabulary_extension/main.py:98-102 | the entry of each element, a leaf for a single vocabulary |
| QuizVocabulary.Vocabularies.EntriesUpTo | quiz_enchanter/extensions/vocabulary_extension/main.py:101 | the first `n` entries: leaves for vocabularies, nodes for nested collections |
| QuizVocabulary.Vocabularies.RandomVocabulary | quiz_enchanter/extensions/vocabulary_extension/main.py:111-121 | a listed vocabulary when all elements are vocabularies; `IndexError` when empty; `AttributeError` when any element is nested |
| QuizVocabulary.Vocabularies.Check | quiz_enchanter/extensions/vocabulary_extension/main.py:123-124 | the current vocabulary's reply, or `AttributeError` before any draw |
| QuizVocabulary.Build | quiz_enchanter/extensions/vocabulary_extension/main.py:86-96 | a fresh collection whose entries are the given ones |
| QuizVocabulary.FromJson | quiz_enchanter/extensions/vocabulary_extension/main.py:86-96 | succeeds exactly when the JSON decodes |
| QuizTries.QuoteAsWrittenIgnoresWrong | quiz_enchanter/tries.py:12-17 | as written, the quote is `right * 100` whatever the wrong tries |
| QuizTries.QuoteAsWrittenCounterexample | quiz_enchanter/tries.py:14-15 | `Tries(3, 1)` has quote 300 as written and 75 as intended |
| QuizTries.Quote | quiz_enchanter/tries.py:12-17 | `right / total * 100`, 0 for no tries, within 0..100 for counts |
| QuizTries.QuoteExtremes | quiz_enchanter/tries.py:12-17 | quote 100 exactly without wrong tries, 0 exactly without right tries |
| QuizTries.QuoteScaleInvariant | quiz_enchanter/tries.py:78 | multiplying both counts by a non-zero number keeps the intended quote |
| QuizTries.FromJson | quiz_enchanter/tries.py:23-26 | succeeds exactly with both keys; `TypeError` on a non-object, `KeyError` on a missing key |
| QuizTries.FromJsonToJson | quiz_enchanter/tries.py:23-34 | `from_json(t.json) == t` |
| QuizTries.ToJsonFromJson | quiz_enchanter/tries.py:23-34 | the written keys repeat what was read |
| QuizTries.AddSubLaws | quiz_enchanter/tries.py:53-65 | `+` and `-` work component-wise: totals add, `-` undoes `+`, `+` commutes |
| QuizTries.RSubNotReversed | quiz_enchanter/tries.py:62-65 | `__rsub__` is `__sub__` unswapped, so `b.__rsub__(a) == a - b` only when `a == b` |
| QuizTries.AddQuoteBetween | quiz_enchanter/tries.py:64 | the sum's intended quote lies between the two intended quotes |
| QuizTries.WeightedMean | quiz_enchanter/tries.py:64 | a weighted mean lies between its values (the step `AddQuoteBetween` needs for the intended quote) |
| QuizTries.FloorDivMod | quiz_enchanter/tries.py:80-81 | Python's `//` and `%`: `a == b * (a // b) + a % b`, remainder with the divisor's sign |
| QuizTries.FloorDivBy | quiz_enchanter/tries.py:80 | `t // n` component-wise; `ZeroDivisionError` exactly for 0 |
| QuizTries.ModBy | quiz_enchanter/tries.py:81 | `t % n` component-wise; `ZeroDivisionError` exactly for 0 |
| QuizTries.DivModRecombine | quiz_enchanter/tries.py:78-81 | `(t // n) * n + t % n == t` |
| QuizTries.ReflectedNumberOpsNotReversed | quiz_enchanter/tries.py:79-81 | `__rfloordiv__` and `__rmod__` are `//` and `%` unswapped: `7 // Tries(2, 3)` is `Tries(0, 0)`, not `Tries(3, 2)`, and `7 % Tries(2, 3)` is `Tries(2, 3)`, not `Tries(1, 1)` |
| QuizTries.CompareSeesOnlyQuote | quiz_enchanter/tries.py:36-51 | with the intended quote, comparisons depend on the quotes only and relate as on numbers |
| QuizTries.EqualityIsOnQuotes | quiz_enchanter/tries.py:46-51 | with the intended quote, `Tries(1, 1) == Tries(5, 5)` and `Tries(1, 0) - Tries(1, 0) == Tries(0, 0)` |
| QuizTries.EqualityAsWritten | quiz_enchanter/tries.py:46-51 | as written (`CompareAsWritten`), two `Tries` with tries are equal exactly when their right counts are, so `Tries(1, 1) == Tries(5, 5)` is false, while it holds with the intended quote |
| QuizTries.Reciprocal | quiz_enchanter/tries.py:83-88 | `1 / quote` of the intended quote, or 1 for quote 0; positive for counts |
| QuizTries.ReciprocalAsWritten | quiz_enchanter/tries.py:83-88 | `1 / quote` of the as-written quote, or 1 for quote 0 |
| QuizTries.ReciprocalAsWrittenCounterexample | quiz_enchanter/tries.py:83-88 | as written `Tries(3, 1)` weighs `1/300` in the draw, as intended `1/75` |
| QuizTries.NoSlashInInt | quiz_enchanter/tries.py:91 | an integer's text has no `/` |
| QuizTries.StrInjective | quiz_enchanter/tries.py:90-91 | `str(a) == str(b)` exactly when `a == b` |
| SettingsPackage.AsCorrection | settings/__init__.py:71-75 | a conversion's `ValueError` becomes `CorrectionError`; other outcomes pass |
| SettingsPackage.Assign | settings/__init__.py:35-48 | valid values are stored as they are; otherwise the corrected value, or the value itself after `CorrectionError`, if valid; else `ValueError`; other errors escape |
| SettingsPackage.BaseAcceptsAll | settings/__init__.py:23-29 | a plain `Setting` accepts every value |
| SettingsPackage.BooleanAlwaysBool | settings/__init__.py:54-63 | a `BooleanSetting` stores a bool, the truthiness of a non-bool |
| SettingsPackage.StringAlwaysString | settings/__init__.py:90-96 | a `StringSetting` stores a string, `str(v)` of a non-string |
| SettingsPackage.IntegerOnlyInts | settings/__init__.py:66-75 | an `IntegerSetting` stores ints only; `ValueError`, or `TypeError` for `None`, when `int()` fails |
| SettingsPackage.FloatOnlyFloats | settings/__init__.py:78-87 | a `FloatSetting` stores floats only, with the same errors |
| SettingsPackage.CorrectFloat | settings/__init__.py:83-87 | `FloatSetting.correct` gives `float(v)`, turns its `ValueError` into `CorrectionError` and lets the `TypeError` of `None` escape |
| SettingsPackage.IntegerTextIsCorrected | settings/__init__.py:71-75 | the text of an integer is stored as that integer |
| SettingsPackage.Setting.Init | settings/__init__.py:17-21 | stores rules, value, names and description |
| SettingsPackage.Setting.Create | settings/__init__.py:10-21 | raises what the first assignment raises; stores its value; `name` defaults to the display name |
| SettingsPackage.Setting.SetValue | settings/__init__.py:35-48 | stores what `Assign` gives, or raises and keeps the old value |
| SettingsPackage.ByDisplayNameKeys | settings/__init__.py:100-101 | the keys are exactly the display names |
| SettingsPackage.ByDisplayNameLast | settings/__init__.py:100-101 | each key maps to the last setting with that display name |
| SettingsPackage.Settings.constructor | settings/__init__.py:100-101 | the dictionary of settings by display name |
| SettingsPackage.Settings.GetItem | settings/__init__.py:106-107 | the stored setting, or `KeyError` |
| SettingsPackage.Settings.SetItem | settings/__init__.py:109-111 | stores a `Setting` and silently ignores anything else |
| SettingsPackage.Settings.AddSetting | settings/__init__.py:113-115 | keyed by the given name, or by the setting's `name` |
| SettingsModule.Create | settings/settings.py:25-39 | the documented `Setting`: same behaviour as the settings package's, extra keyword arguments ignored |
| SettingValidators.BooleanValidatorIsStringValidator | settings/validators.py:6-19 | `BooleanValidator` validates and corrects as `StringValidator` does, and refuses bools |
| SettingValidators.StringValidatorsCorrectToValid | settings/validators.py:10-19 | the string validators always correct to a valid string |
| SettingValidators.IntegerValidatorMeaning | settings/validators.py:22-30 | ints (bools included) are valid; correction is `int()`, with its `ValueError` turned into the `CorrectionError` of `settings/errors.py` |
| SettingValidators.FloatValidatorMeaning | settings/validators.py:33-43 | floats are valid; correction is `float()`, with its `ValueError` turned into the `CorrectionError` of `settings/errors.py` |
| SettingValidators.AsErrorsCorrection | settings/validators.py:26-30 | a conversion's `ValueError` becomes the `CorrectionError` of `settings/errors.py`; other outcomes pass |
| SettingValidators.IntegerValidatorErrorEscapes | settings/validators.py:22-30 | a setting with `IntegerValidator`'s rules accepts exactly what `int()` converts; otherwise it raises that `CorrectionError`, which the setter's `except` (settings/__init__.py:42) does not catch, or the `TypeError` of `None` |
| SettingValidators.FloatValidatorErrorEscapes | settings/validators.py:33-43 | the same for `FloatValidator` and `float()` |
| SettingExamples.LowerWithoutUpper | settings/examples.py:12 | lower-casing a string without capitals changes nothing |
| SettingExamples.StoresLowerCase | settings/examples.py:7-12 | `MySetting` stores the lower case of any text with a letter |
| SettingExamples.RefusesWithoutLetters | settings/examples.py:7-14 | `MySetting` raises `ValueError` for non-strings and for text without letters |
| SettingExamples.WalkthroughValues | settings/examples.py:18-29 | `"FOO"` is stored as `"foo"` and `"HELLO WORLD"` as `"hello world"` rather than raising |
| SettingExamples.Walkthrough | settings/examples.py:17-38 | prints `foo`, `bar`, `foo`, stores `hello world`, and stops with `KeyError` at `settings["bar"]` |
| Translator.OneLanguageTranslator.constructor | translator/__init__.py:8-10 | holds the table |
| Translator.OneLanguageTranslator.Translate | translator/__init__.py:12-16 | the stored text, or the key itself |
| Translator.AllSupportsEverything | translator/__init__.py:21 | the default `"all"` accepts every language |
| Translator.TextSupportsSubstrings | translator/__init__.py:38 | a string of languages admits its substrings, which a list does not |
| Translator.BaseTranslator.Init | translator/__init__.py:31-33 | stores table, language and supported languages |
| Translator.BaseTranslator.Create | translator/__init__.py:29-35 | `LanguageNotSupportedError` exactly when the default language is unsupported |
| Translator.BaseTranslator.Install | translator/__init__.py:37-41 | switches exactly to a supported language; raises otherwise and keeps the current one |
| Translator.BaseTranslator.Translate | translator/__init__.py:43-47 | the current language's text, or the key on any `KeyError` |
| Translator.OneAsBase | translator/__init__.py:43-47 | a one-language table translates as a multi-language one holding it for the installed language |
| QuizMatch.MatchModel.Init | quiz_enchanter/extensions/default_extension/match_extension.py:10-15 | stores question, answer and strip flag; no selection |
| QuizMatch.MatchModel.FromJson | quiz_enchanter/extensions/default_extension/match_extension.py:10-15 | needs `question` and `right`; `strip_start_and_end` defaults to true |
| QuizMatch.MatchModel.IsRight | quiz_enchanter/extensions/default_extension/match_extension.py:17-20 | compares the (stripped) selection with `right`; `AttributeError` for stripping no selection |
| QuizMatch.MatchModel.Run | quiz_enchanter/extensions/default_extension/match_extension.py:23-28 | stores the input and is right exactly when the (stripped) input equals `right` |
| QuizMatch.PaddedRightNeverMatches | quiz_enchanter/extensions/default_extension/match_extension.py:19-20 | with stripping on, a `right` with edge whitespace never matches |
| QuizMatch.PaddingIgnored | quiz_enchanter/extensions/default_extension/match_extension.py:19 | with stripping on, whitespace typed around the answer is ignored |
| QuizMatch.StripPadding | quiz_enchanter/extensions/default_extension/match_extension.py:19 | stripping removes whitespace added on either side |
| QuizSelect.SelectionNoneIffNoNumber | quiz_enchanter/extensions/default_extension/select_extension.py:29-36 | the loop never selects exactly when no line is an integer |
| QuizSelect.SelectionIsFirstNumber | quiz_enchanter/extensions/default_extension/select_extension.py:29-36 | the selection is the first integer line minus one; earlier lines are skipped |
| QuizSelect.Labels | quiz_enchanter/extensions/default_extension/select_extension.py:26-27 | one label `[i+1]` per option |
| QuizSelect.LabelSelects | quiz_enchanter/extensions/default_extension/select_extension.py:26-32 | typing the number shown in a label selects that option |
| QuizSelect.NoBoundsCheck | quiz_enchanter/extensions/default_extension/select_extension.py:32 | `0` is accepted and selects index -1, also after a skipped line |
| QuizSelect.SelectionStep | quiz_enchanter/extensions/default_extension/select_extension.py:29-36 | one pass of the loop: a number ends it, other text is skipped |
| QuizSelect.ExpectedIndexIsReachable | quiz_enchanter/extensions/default_extension/select_extension.py:17-19 | any integer `right` is matched by typing `right + 1` |
| QuizSelect.BooleanRightIsAnIndex | quiz_enchanter/extensions/default_extension/select_extension.py:17-19 | a bool `right` compares as 0 or 1: `2` matches `true`, `1` matches `false` |
| QuizSelect.SelectModel.Init | quiz_enchanter/extensions/default_extension/select_extension.py:9-15 | stores question, options and answer; no selection |
| QuizSelect.SelectModel.FromJson | quiz_enchanter/extensions/default_extension/select_extension.py:9-15 | needs `question`, `options` and `right`, in that order |
| QuizSelect.SelectModel.Run | quiz_enchanter/extensions/default_extension/select_extension.py:22-38 | `TypeError` before any input when the options are not iterable; otherwise selects the first integer line minus one and answers `is_right`; running out of input leaves the selection unchanged |

## Findings

| source | as written | input that shows it | evidently intended | confidence | as-written member | corrected member |
|---|---|---|---|---|---|---|
| quiz_enchanter/tries.py:14 | `if total := self.total_tries != 0` binds the bool `total_tries != 0` to `total`, so the quote is `right_tries / True * 100 == right_tries * 100` | `Tries(3, 1)` gives quote 300.0; quiz_enchanter/tests/test_stats.py:6 expects 75 | `right_tries / total_tries * 100`, in 0..100 | not executed | QuizTries.QuoteAsWrittenCounterexample | QuizTries.Quote |

`QuizTries.QuoteAsWritten` is the as-written quote, and
`QuizTries.QuoteAsWrittenIgnoresWrong` shows that it ignores the wrong
tries. The comparisons and `reciprocal` carry the fault too.
`QuizTries.CompareAsWritten` and `QuizTries.ReciprocalAsWritten` are their
as-written forms (`QuizTries.EqualityAsWritten`,
`QuizTries.ReciprocalAsWrittenCounterexample`). `QuizTries.Compare`,
`QuizTries.Reciprocal` and the vocabulary extension's draw use the corrected
`QuizTries.Quote`.

## Left out

- **User interface and framework.**
  - The Qt interfaces (`GUI.py`, `quiz_enchanter/gui.py`,
    `vocabulary_trainer/gui.py`, `settings/gui/`) and the theme files: all
    user-interface code.
  - The plugin registry of `quiz_enchanter/__init__.py`, the
    `Plugin`/`BaseModel`/`EmptyModel` base classes and the `timeperiod`
    and group extensions: framework plumbing outside this core.
- **Printing and files.**
  - All `print` output, including the question and option lines of the
    quiz runs and the console trainer's messages. Console input is the
    sequence of lines typed, decided by its caller.
  - File reads: `Vocabularies.from_file`, the schema loads at
    vocabulary_trainer/__init__.py:8 and vocabulary_trainer/vocabularies.py:6,
    the vocabulary file of `main.py`, the `OneLanguageTranslator` file
    (replaced by its table) and `MultipleLanguageTranslator`, which reads
    one file per language.
- **Representation.**
  - `__repr__`, `__iter__` and the settings' `__iter__`.
  - `VocabularyList.to_json`, which returns the objects themselves rather
    than JSON.
  - JSON key order.
- **Randomness.** Every draw is nondeterministic. The model states which
  outcomes are possible, not their probabilities.
  - Draw.Choice: does not model the uniform distribution.
  - Draw.WeightedIndex: does not model the probability being proportional
    to the weight.
  - Trainer.Vocabulary.RandomizeDirection: the new direction is any
    direction, not a fair coin.
  - QuizVocabulary.Vocabulary.Randomize: the same; it has no ensures, since any value of its one `var` field is a direction.
- **Floating point.**
  - TrainerStats.QuoteAtMost100: the trainer's float expression
    `int(((r + 1) / (t + 1)) * 100)` is modelled as the exact floor, which
    can differ from the float result by one near integer quotes.
  - `main.py`'s float quote, the `Tries` quote and `reciprocal`, and
    `float()` are exact reals.
  - ConsoleTrainer.Vocabularies.GetState: the percent is the exact truncation
    of `100 * right / tries`. Python computes `int(right / tries * 100)` in
    floats, which can be one lower: for 57 right of 100 tries Python gives 56
    and the model 57.
  - PyValues.FloatText: `str()` of a float is rendered with at most 17
    truncated fraction digits, not Python's shortest round-trip digits.
  - `float()` of text accepts decimal literals only, with no exponent,
    `inf` or `nan`.
- **Text.** Strings are ASCII as far as `strip`, `lower` and `islower` are
  concerned. `int()` of text has no underscores and no other bases.
- **Value domains.**
  - Counts of the trainer's `Stats` are natural numbers. A negative count
    in the JSON is refused with `NegativeCount`, an error of the model only;
    the source accepts it.
  - QuizVocabulary.DecodeWord: refuses negative `Tries` counts with the
    same `NegativeCount`, which the source accepts.
  - QuizVocabulary.Vocabularies.RandomVocabulary: relies on those counts for
    positive weights. The source passes a zero or negative `reciprocal`
    (from negative counts) to `random.choices`, which the model does not
    follow.
  - The JSON value type has no floats, so `select`'s `1 == 1.0` case is not
    modelled.
  - Setting values are `None`, bool, int, float and str only.
- **`Tries`.**
  - True division `/` of `Tries` by a number is not modelled; only `*`,
    `//` and `%` are.
  - QuizTries.Mul, QuizTries.FloorDivBy and QuizTries.ModBy: the other
    operand is an `int`. quiz_enchanter/tries.py:70 accepts any `Number`,
    floats included.
  - The `NotImplemented` returns for operands of other types, of `Tries`
    and of the trainer's `Stats` (vocabulary_trainer/__init__.py:59, :87).
  - QuizTries.Compare, QuizTries.CompareSeesOnlyQuote,
    QuizTries.EqualityIsOnQuotes and QuizTries.Reciprocal: they use the
    intended quote, not the one the source computes (see "Findings"). Their
    as-written forms are QuizTries.CompareAsWritten and
    QuizTries.ReciprocalAsWritten.
- **Types the JSON decoders refuse.** Python stores these values without
  looking. The model refuses them with `TypeError`, so it does not follow a
  vocabulary holding, say, a string instead of a list of words.
  - Trainer.Vocabulary.FromJson: `sources` or `targets` that is not a list
    of strings, or example texts that are not strings;
    Trainer.TreeVocabulary.FromDict, Trainer.VocabularyList.FromDict and
    Trainer.Vocabularies.FromDict inherit this for every vocabulary they
    read.
  - TrainerStats.StatsFromDict: counts that are not ints, and bools, which
    Python's arithmetic would take as 0 and 1.
  - TrainerVocabularies.Vocabulary.FromJson, TrainerVocabularies.Group.FromJson
    and TrainerVocabularies.VocabularyList.FromJson: the same word lists,
    examples and counts.
  - ConsoleTrainer.VocabularyFromJson and ConsoleTrainer.VocabulariesFromJson:
    `word` and `translation` that are not lists of strings, and example texts
    that are not strings.
  - NewVocabulary.FromJson: `sources`, `translations` and the example texts
    likewise.
  - QuizVocabulary.FromJson: `sources`, `translations` and example texts
    likewise, and `Tries` counts that are not ints.
  - QuizTries.FromJson: `right_tries` and `wrong_tries` that are not ints,
    bools included. Python stores any value until the quote is computed.
  - JsonValue.Iterate: a non-empty string or object is a failure with
    `TypeError`. Python iterates its characters or keys, and each such `str`
    item then fails the item decoder with the `TypeError` of `str[key]`.
- **Unreachable branches.** The nested branch of `random_vocabulary`
  (quiz_enchanter/extensions/vocabulary_extension/main.py:119) cannot run,
  because the weights already raise `AttributeError` for a nested
  collection. It is modelled as that error.
- **Sharing and reuse.**
  - `Vocabularies` subclasses `VocabularyList`; the model holds the list as
    a field.
  - The `target_example` and `source_example` properties are captured only
    through `Record`.
  - `new.py`'s `Stats` and `SimpleVocabulary`, and the `Setting` of
    `settings/settings.py`, repeat the code of
    vocabulary_trainer/vocabularies.py and settings/__init__.py, and reuse
    those models.
- **Tests.** The test at quiz_enchanter/tests/test_stats.py:48 calls
  `from_json` with an extra argument, which Python would reject. The tests
  themselves are not modelled.
