/** The settings package (`settings/__init__.py`): a `Setting` holds a value
    that its `value` setter validates and, failing that, tries to correct; the
    subclasses differ only in `validate` and `correct`; `Settings` is a
    dictionary of settings. */
module SettingsPackage {
  import opened Wrappers
  import opened PyErrors
  import opened PyValues
  import Text

  /** A setting class's pair of overridable methods. Subclasses are values of
      this type; `correct` may raise. */
  datatype Rules = Rules(validate: Value -> bool, correct: Value -> Result<Value, Exception>)

  /** The setting classes of the settings package. */
  datatype Kind = BaseKind | BooleanKind | IntegerKind | FloatKind | StringKind

  /** `validate` of each class: the base class accepts everything, the others
      test `isinstance`. */
  function Validate(kind: Kind, v: Value): bool
  {
    match kind
    case BaseKind => true
    case BooleanKind => v.BoolValue?
    case IntegerKind => IsInt(v)
    case FloatKind => v.FloatValue?
    case StringKind => v.StrValue?
  }

  /** A conversion's `ValueError` turned into `CorrectionError`, as
      `except ValueError: raise CorrectionError` does; other errors pass. */
  function AsCorrection<T>(r: Result<T, Exception>): (c: Result<T, Exception>)
    ensures r.Success? ==> c == r
    ensures r.Failure? ==> c.Failure? && c.error == (if r.error == ValueError then CorrectionError else r.error)
  {
    if r.Failure? && r.error == ValueError then Failure(CorrectionError) else r
  }

  /** `correct` of each class: the base class always gives up; the others
      convert with `bool()`, `int()`, `float()` or `str()`. */
  function Correct(kind: Kind, v: Value): Result<Value, Exception>
  {
    match kind
    case BaseKind => Failure(CorrectionError)
    case BooleanKind => Success(BoolValue(Truth(v)))
    case IntegerKind =>
      var i :- AsCorrection(ToInt(v));
      Success(IntValue(i))
    case FloatKind =>
      var f :- AsCorrection(ToFloat(v));
      Success(FloatValue(f))
    case StringKind => Success(StrValue(ToStr(v)))
  }

  /** The rules of one of the settings package's classes. */
  function KindRules(kind: Kind): Rules
  {
    Rules(v => Validate(kind, v), v => Correct(kind, v))
  }

  /** The outcome of `setting.value = v`: the value stored, or the exception
      raised (the stored value then stays as it was). A valid value is stored
      as it is; otherwise the corrected value, or the value itself when
      `correct` raises `CorrectionError`, is stored if it validates, and
      `ValueError` is raised if it does not. Any other exception from
      `correct` escapes. */
  function Assign(rules: Rules, v: Value): (r: Result<Value, Exception>)
    ensures rules.validate(v) ==> r == Success(v)
    ensures r.Success? ==> rules.validate(r.value)
    ensures !rules.validate(v) && rules.correct(v).Success? ==>
              r == (if rules.validate(rules.correct(v).value) then Success(rules.correct(v).value) else Failure(ValueError))
    ensures !rules.validate(v) && rules.correct(v) == Failure(CorrectionError) ==> r == Failure(ValueError)
    ensures r.Failure? ==> r.error == ValueError || rules.correct(v) == Failure(r.error)
  {
    if rules.validate(v) then Success(v)
    else
      var corrected :- match rules.correct(v)
                       case Success(c) => Success(c)
                       case Failure(e) => if e == CorrectionError then Success(v) else Failure(e);
      if rules.validate(corrected) then Success(corrected) else Failure(ValueError)
  }

  /** The base `Setting` accepts every value as it is. */
  lemma BaseAcceptsAll(v: Value)
    ensures Assign(KindRules(BaseKind), v) == Success(v)
  {
  }

  /** A `BooleanSetting` always ends up with a bool: the value itself, or its
      truthiness. */
  lemma BooleanAlwaysBool(v: Value)
    ensures Assign(KindRules(BooleanKind), v) == Success(if v.BoolValue? then v else BoolValue(Truth(v)))
  {
  }

  /** A `StringSetting` always succeeds, with `str(v)` for a non-string. */
  lemma StringAlwaysString(v: Value)
    ensures Assign(KindRules(StringKind), v) == Success(if v.StrValue? then v else StrValue(ToStr(v)))
  {
  }

  /** An `IntegerSetting` stores only ints (a bool counts as one), converted
      with `int()`; a failed conversion ends in `ValueError`, and `None`, which
      `int()` refuses with a `TypeError` that the setter does not catch, in
      that `TypeError`. */
  lemma IntegerOnlyInts(v: Value)
    ensures var r := Assign(KindRules(IntegerKind), v);
            && (r.Success? ==> IsInt(r.value))
            && (r.Success? <==> ToInt(v).Success?)
            && (IsInt(v) ==> r == Success(v))
            && (!IsInt(v) && r.Success? ==> r.value == IntValue(ToInt(v).value))
            && (r.Failure? ==> r.error == (if v.NoneValue? then TypeError else ValueError))
  {
  }

  /** A `FloatSetting` stores only floats, converted with `float()`, with the
      same error outcomes as the integer setting. */
  lemma FloatOnlyFloats(v: Value)
    ensures var r := Assign(KindRules(FloatKind), v);
            && (r.Success? ==> r.value.FloatValue?)
            && (r.Success? <==> ToFloat(v).Success?)
            && (v.FloatValue? ==> r == Success(v))
            && (!v.FloatValue? && r.Success? ==> r.value == FloatValue(ToFloat(v).value))
            && (r.Failure? ==> r.error == (if v.NoneValue? then TypeError else ValueError))
  {
    CorrectFloat(v);
  }

  /** `FloatSetting.correct` in terms of `float()`. */
  lemma CorrectFloat(v: Value)
    ensures Correct(FloatKind, v) == if ToFloat(v).Success? then Success(FloatValue(ToFloat(v).value))
                                     else Failure(if v.NoneValue? then TypeError else CorrectionError)
  {
  }

  /** Assigning the text of an integer to an `IntegerSetting` stores the
      integer rather than raising. */
  lemma IntegerTextIsCorrected(i: int)
    ensures Assign(KindRules(IntegerKind), StrValue(Text.IntToString(i))) == Success(IntValue(i))
  {
    ToIntOfString(i);
  }

  /** A setting: the rules of its class and the stored value. */
  class Setting {
    const rules: Rules
    var value: Value
    const displayName: string
    const name: string
    const description: string

    constructor Init(rules: Rules, value: Value, displayName: string, name: string, description: string)
      ensures this.rules == rules && this.value == value && this.displayName == displayName
      ensures this.name == name && this.description == description
    {
      this.rules := rules;
      this.value := value;
      this.displayName := displayName;
      this.name := name;
      this.description := description;
    }

    /** `Setting(value, display_name, name=None, description="")`: the initial
        value goes through the setter (an invalid one makes the constructor
        raise), and `name` defaults to `display_name`. */
    static method Create(rules: Rules, value: Value, displayName: string, name: Option<string>, description: string)
      returns (r: Result<Setting, Exception>)
      ensures r.Success? <==> Assign(rules, value).Success?
      ensures r.Failure? ==> r.error == Assign(rules, value).error
      ensures r.Success? ==> && fresh(r.value) && r.value.rules == rules
                             && r.value.value == Assign(rules, value).value
                             && r.value.displayName == displayName && r.value.description == description
                             && r.value.name == (if name.None? then displayName else name.value)
    {
      var n := if name.None? then displayName else name.value;
      var s := new Setting.Init(rules, NoneValue, displayName, n, description);
      var e := s.SetValue(value);
      if e.Some? {
        return Failure(e.value);
      }
      r := Success(s);
    }

    /** The `value` setter: stores what `Assign` gives, or raises and keeps the
        old value. */
    method SetValue(v: Value) returns (e: Option<Exception>)
      modifies this
      ensures e.None? <==> Assign(rules, v).Success?
      ensures e.Some? ==> e.value == Assign(rules, v).error
      ensures value == if e.None? then Assign(rules, v).value else old(value)
    {
      if rules.validate(v) {
        value := v;
        return None;
      }
      var corrected: Value;
      var c := rules.correct(v);
      if c.Success? {
        corrected := c.value;
      } else if c.error == CorrectionError {
        corrected := v;
      } else {
        return Some(c.error);
      }
      if rules.validate(corrected) {
        value := corrected;
        e := None;
      } else {
        e := Some(ValueError);
      }
    }
  }

  /** `{setting.display_name: setting for setting in settings}`: a later
      setting replaces an earlier one with the same display name. */
  function ByDisplayName(items: seq<Setting>): map<string, Setting>
  {
    if items == [] then map[]
    else
      var last := items[|items| - 1];
      ByDisplayName(items[..|items| - 1])[last.displayName := last]
  }

  /** The keys are exactly the display names. */
  lemma {:induction false} ByDisplayNameKeys(items: seq<Setting>)
    ensures ByDisplayName(items).Keys == set s | s in items :: s.displayName
  {
    if items != [] {
      var n := |items|;
      var init := items[..n - 1];
      ByDisplayNameKeys(init);
      assert items == init + [items[n - 1]];
      assert (set s | s in items :: s.displayName) == (set s | s in init :: s.displayName) + {items[n - 1].displayName};
    }
  }

  /** The setting stored under a key is the last one with that display name. */
  predicate LastWithName(items: seq<Setting>, i: int, k: string)
  {
    0 <= i < |items| && items[i].displayName == k && forall j :: i < j < |items| ==> items[j].displayName != k
  }

  /** Every key maps to the last setting carrying that display name. */
  lemma {:induction false} ByDisplayNameLast(items: seq<Setting>, k: string)
    requires k in ByDisplayName(items)
    ensures exists i :: LastWithName(items, i, k) && items[i] == ByDisplayName(items)[k]
  {
    var n := |items|;
    var init := items[..n - 1];
    if k == items[n - 1].displayName {
      assert LastWithName(items, n - 1, k);
    } else {
      ByDisplayNameLast(init, k);
      var i :| LastWithName(init, i, k) && init[i] == ByDisplayName(init)[k];
      assert LastWithName(items, i, k);
    }
  }

  /** `Settings(*settings)`: a dictionary of settings. */
  class Settings {
    var settings: map<string, Setting>

    /** The settings keyed by display name. */
    constructor (items: seq<Setting>)
      ensures settings == ByDisplayName(items)
    {
      var m: map<string, Setting> := map[];
      var k := 0;
      while k < |items|
        invariant 0 <= k <= |items| && m == ByDisplayName(items[..k])
      {
        assert items[..k + 1][..k] == items[..k];
        m := m[items[k].displayName := items[k]];
        k := k + 1;
      }
      assert items[..|items|] == items;
      settings := m;
    }

    /** `settings[key]`: `KeyError` for an absent key. */
    function GetItem(key: string): (r: Result<Setting, Exception>)
      reads this
      ensures r.Success? <==> key in settings
      ensures r.Success? ==> r.value == settings[key]
      ensures r.Failure? ==> r.error == KeyError
    {
      if key in settings then Success(settings[key]) else Failure(KeyError)
    }

    /** `settings[key] = value`: stored only when `value` is a `Setting`, and
        silently ignored otherwise. */
    method SetItem(key: string, value: object)
      modifies this
      ensures value is Setting ==> settings == old(settings)[key := value as Setting]
      ensures !(value is Setting) ==> settings == old(settings)
    {
      if value is Setting {
        settings := settings[key := value as Setting];
      }
    }

    /** `add_setting(setting, name=None)`: keyed by `name`, or by the setting's
        own `name` (not its display name) when none is given. */
    method AddSetting(setting: Setting, name: Option<string>)
      modifies this
      ensures settings == old(settings)[(if name.None? then setting.name else name.value) := setting]
    {
      var key := if name.None? then setting.name else name.value;
      settings := settings[key := setting];
    }
  }
}
