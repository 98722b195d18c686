/** The example of `settings/examples.py`: `MySetting`, a setting for lower
    case strings, and the walk through its setter in `main`. */
module SettingExamples {
  import opened Wrappers
  import opened PyErrors
  import opened PyValues
  import Text
  import SP = SettingsPackage

  /** `value.islower() if isinstance(value, str) else False`. */
  function MyValidate(v: Value): bool
  {
    v.StrValue? && Text.IsLower(v.s)
  }

  /** `value.lower()` for a string, `CorrectionError` for anything else. */
  function MyCorrect(v: Value): Result<Value, Exception>
  {
    if v.StrValue? then Success(StrValue(Text.Lower(v.s))) else Failure(CorrectionError)
  }

  /** `MySetting` as the rules of a setting class. */
  function MyRules(): SP.Rules
  {
    SP.Rules(MyValidate, MyCorrect)
  }

  /** A string without upper case letters is its own lower case. */
  lemma LowerWithoutUpper(s: string)
    requires forall i :: 0 <= i < |s| ==> !Text.IsUpper(s[i])
    ensures Text.Lower(s) == s
  {
  }

  /** Any string holding a letter is stored in lower case, whether or not it
      was already; the setter corrects rather than raises. */
  lemma StoresLowerCase(s: string)
    requires Text.HasLetter(s)
    ensures SP.Assign(MyRules(), StrValue(s)) == Success(StrValue(Text.Lower(s)))
  {
    Text.LowerIsLowerIffLetter(s);
    if Text.IsLower(s) {
      LowerWithoutUpper(s);
    }
  }

  /** A string without letters fails `islower()` even after lowering, and so
      does every non-string; both raise `ValueError`. */
  lemma RefusesWithoutLetters(v: Value)
    requires !v.StrValue? || !Text.HasLetter(v.s)
    ensures SP.Assign(MyRules(), v) == Failure(ValueError)
  {
    if v.StrValue? {
      Text.LowerIsLowerIffLetter(v.s);
    }
  }

  /** How `MySetting` takes the literals of `main`. */
  lemma WalkthroughValues()
    ensures SP.Assign(MyRules(), StrValue("foo")) == Success(StrValue("foo"))
    ensures SP.Assign(MyRules(), StrValue("bar")) == Success(StrValue("bar"))
    ensures SP.Assign(MyRules(), StrValue("FOO")) == Success(StrValue("foo"))
    ensures SP.Assign(MyRules(), StrValue("HELLO WORLD")) == Success(StrValue("hello world"))
  {
    assert Text.IsLower("foo") by { assert Text.IsLowerLetter("foo"[0]); }
    assert Text.IsLower("bar") by { assert Text.IsLowerLetter("bar"[0]); }
    assert Text.Lower("FOO") == "foo";
    assert Text.Lower("HELLO WORLD") == "hello world";
    assert Text.IsLower("hello world") by { assert Text.IsLowerLetter("hello world"[0]); }
  }

  /** `main` up to where it stops: the values it prints, the value the second
      setting ends with, and the exception that ends it. `"FOO"` and
      `"HELLO WORLD"` are corrected, not refused, and `settings["bar"]` raises
      `KeyError` because `Settings` keys by display name (`"Bar"`). */
  method Walkthrough() returns (shown: seq<Value>, second: Value, raised: Option<Exception>)
    ensures shown == [StrValue("foo"), StrValue("bar"), StrValue("foo")]
    ensures second == StrValue("hello world")
    ensures raised == Some(KeyError)
  {
    WalkthroughValues();
    var rules := MyRules();
    var r := SP.Setting.Create(rules, StrValue("foo"), "Foo", Some("foo"), "The foo");
    var setting := r.value;
    var v1 := setting.value;
    assert v1 == StrValue("foo");
    var e := setting.SetValue(StrValue("bar"));
    var v2 := setting.value;
    assert v2 == StrValue("bar");
    e := setting.SetValue(StrValue("FOO"));
    var v3 := setting.value;
    assert v3 == StrValue("foo");
    shown := [v1, v2, v3];
    r := SP.Setting.Create(rules, StrValue("foo"), "Foo", Some("foo"), "Bar");
    setting := r.value;
    e := setting.SetValue(StrValue("HELLO WORLD"));
    second := setting.value;
    r := SP.Setting.Create(rules, StrValue("bar"), "Bar", Some("bar"), "Desc.");
    var settings := new SP.Settings([r.value]);
    assert settings.settings.Keys == {"Bar"};
    var found := settings.GetItem("bar");
    raised := if found.Failure? then Some(found.error) else None;
  }
}
