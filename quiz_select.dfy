/** The select quiz type (`quiz_enchanter/extensions/default_extension/select_extension.py`):
    the options are listed as `[1]`, `[2]`, ..., and the number typed in,
    less one, is compared with the expected index. */
module QuizSelect {
  import opened Wrappers
  import opened PyErrors
  import opened JsonValue
  import Text

  /** `selected_index == right` in Python: `None` equals only `null`, and an
      int equals the same int or the bool with that value (`1 == True`). */
  predicate SameIndex(selected: Option<int>, right: Json)
  {
    match selected
    case None => right == JNull
    case Some(i) => (right.JInt? && right.i == i) || (right.JBool? && (if right.b then 1 else 0) == i)
  }

  /** The index chosen by a run of input lines: the first line `int()`
      accepts, less one; `None` when no line does. */
  function Selection(lines: seq<string>): Option<int>
  {
    if lines == [] then None
    else match Text.ParseInt(lines[0])
      case Some(p) => Some(p - 1)
      case None => Selection(lines[1..])
  }

  /** Line `k` is the first line that `int()` accepts. */
  predicate FirstNumber(lines: seq<string>, k: int)
  {
    0 <= k < |lines| && Text.ParseInt(lines[k]).Some? && forall m :: 0 <= m < k ==> Text.ParseInt(lines[m]).None?
  }

  /** `Selection` is absent exactly when no line is a number. */
  lemma {:induction false} SelectionNoneIffNoNumber(lines: seq<string>)
    ensures Selection(lines).None? <==> forall m :: 0 <= m < |lines| ==> Text.ParseInt(lines[m]).None?
  {
    if lines != [] && Text.ParseInt(lines[0]).None? {
      var rest := lines[1..];
      SelectionNoneIffNoNumber(rest);
      assert forall m :: 1 <= m < |lines| ==> lines[m] == rest[m - 1];
    }
  }

  /** `Selection` is the first accepted number less one. */
  lemma {:induction false} SelectionIsFirstNumber(lines: seq<string>)
    requires Selection(lines).Some?
    ensures exists k :: FirstNumber(lines, k) && Selection(lines).value == Text.ParseInt(lines[k]).value - 1
  {
    var p := Text.ParseInt(lines[0]);
    if p.Some? {
      assert FirstNumber(lines, 0) && Selection(lines).value == p.value - 1;
    } else {
      var rest := lines[1..];
      assert Selection(lines) == Selection(rest);
      SelectionIsFirstNumber(rest);
      var k :| FirstNumber(rest, k) && Selection(rest).value == Text.ParseInt(rest[k]).value - 1;
      assert lines[k + 1] == rest[k];
      forall m | 1 <= m < k + 1
        ensures Text.ParseInt(lines[m]).None?
      {
        assert lines[m] == rest[m - 1];
      }
      assert FirstNumber(lines, k + 1);
    }
  }

  /** The option labels `run` prints: `[1]`, `[2]`, ... for the options in
      order. */
  function Labels(n: nat): (r: seq<string>)
    ensures |r| == n
    ensures forall i :: 0 <= i < n ==> r[i] == "[" + Text.IntToString(i + 1) + "]"
  {
    if n == 0 then [] else Labels(n - 1) + ["[" + Text.IntToString(n) + "]"]
  }

  /** Typing the number inside the label of option `i` selects index `i`. */
  lemma LabelSelects(n: nat, i: int, rest: seq<string>)
    requires 0 <= i < n
    ensures var tag := Labels(n)[i];
            Selection([tag[1..|tag| - 1]] + rest) == Some(i)
  {
    var tag := Labels(n)[i];
    assert tag[1..|tag| - 1] == Text.IntToString(i + 1);
    Text.ParseIntToString(i + 1);
  }

  /** The index is not checked against the options: `0` selects -1, and any
      number is accepted. */
  lemma NoBoundsCheck(rest: seq<string>)
    ensures Selection(["0"] + rest) == Some(-1)
    ensures Selection(["x", "0"] + rest) == Some(-1)
  {
    var s := ["0"] + rest;
    assert Text.Strip("0") == "0";
    assert Text.Strip("x") == "x";
    assert (["x", "0"] + rest)[1..] == s;
  }

  /** One line of the run: a number ends it, anything else is skipped. */
  lemma SelectionStep(lines: seq<string>, k: int)
    requires 0 <= k < |lines|
    ensures Selection(lines[k..]) == match Text.ParseInt(lines[k])
                                     case Some(p) => Some(p - 1)
                                     case None => Selection(lines[k + 1..])
  {
    assert lines[k..][0] == lines[k];
    assert lines[k..][1..] == lines[k + 1..];
  }

  /** Whatever integer index is expected, typing that index plus one is right. */
  lemma ExpectedIndexIsReachable(k: int)
    ensures SameIndex(Selection([Text.IntToString(k + 1)]), JInt(k))
  {
    Text.ParseIntToString(k + 1);
  }

  /** A boolean `right` compares as an int: typing `2` matches `true` and
      typing `1` matches `false`, and not the other way round. */
  lemma BooleanRightIsAnIndex()
    ensures SameIndex(Selection(["2"]), JBool(true)) && !SameIndex(Selection(["1"]), JBool(true))
    ensures SameIndex(Selection(["1"]), JBool(false)) && !SameIndex(Selection(["2"]), JBool(false))
  {
    Text.ParseDigits("1");
    Text.OneDigitValue("1");
    Text.ParseDigits("2");
    Text.OneDigitValue("2");
  }

  class SelectModel {
    const question: Json
    const options: Json
    const right: Json
    var selectedIndex: Option<int>

    constructor Init(question: Json, options: Json, right: Json)
      ensures this.question == question && this.options == options && this.right == right && selectedIndex.None?
    {
      this.question := question;
      this.options := options;
      this.right := right;
      selectedIndex := None;
    }

    /** `SelectModel(json_data)`: `question`, `options` and `right` are
        required. */
    static method FromJson(j: Json) returns (r: Result<SelectModel, Exception>)
      ensures r.Success? <==> HasKey(j, "question") && HasKey(j, "options") && HasKey(j, "right")
      ensures r.Failure? ==> r.error == (if j.JObj? then KeyError else TypeError)
      ensures r.Success? ==> && fresh(r.value) && r.value.selectedIndex.None?
                             && r.value.question == j.fields["question"] && r.value.options == j.fields["options"]
                             && r.value.right == j.fields["right"]
    {
      var question := Get(j, "question");
      if question.Failure? {
        return Failure(question.error);
      }
      var options := Get(j, "options");
      if options.Failure? {
        return Failure(options.error);
      }
      var right := Get(j, "right");
      if right.Failure? {
        return Failure(right.error);
      }
      var m := new SelectModel.Init(question.value, options.value, right.value);
      r := Success(m);
    }

    /** `is_right`. */
    predicate IsRight()
      reads this
    {
      SameIndex(selectedIndex, right)
    }

    /** `run(model)` fed the input lines `lines`: listing options that are
        not iterable raises `TypeError` before any input; otherwise lines
        that `int()` refuses are asked again, the first number less one
        becomes the selected index and the verdict is returned; running out
        of lines is `EOFError`, with the index left as it was. */
    method Run(lines: seq<string>) returns (r: Result<bool, Exception>)
      modifies this
      ensures !Iterable(options) ==> selectedIndex == old(selectedIndex) && r == Failure(TypeError)
      ensures Iterable(options) && Selection(lines).Some? ==> selectedIndex == Selection(lines) && r == Success(SameIndex(selectedIndex, right))
      ensures Iterable(options) && Selection(lines).None? ==> selectedIndex == old(selectedIndex) && r == Failure(EndOfInput)
    {
      if !Iterable(options) {
        return Failure(TypeError);   // `enumerate(model.options)`
      }
      var k := 0;
      while k < |lines|
        invariant 0 <= k <= |lines| && Selection(lines) == Selection(lines[k..])
        invariant selectedIndex == old(selectedIndex)
      {
        var p := Text.ParseInt(lines[k]);
        SelectionStep(lines, k);
        if p.Some? {
          selectedIndex := Some(p.value - 1);
          return Success(IsRight());
        }
        k := k + 1;
      }
      assert lines[k..] == [];
      r := Failure(EndOfInput);
    }
  }
}
