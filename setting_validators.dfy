/** The validator mixins of `settings/validators.py`: `validate`/`correct`
    pairs that a setting class can take over. */
module SettingValidators {
  import opened Wrappers
  import opened PyErrors
  import opened PyValues
  import SP = SettingsPackage

  datatype Validator = BooleanValidator | StringValidator | IntegerValidator | FloatValidator

  /** `validate`: note that `BooleanValidator` tests for `str`, like
      `StringValidator`. */
  function Validate(val: Validator, v: Value): bool
  {
    match val
    case BooleanValidator => v.StrValue?
    case StringValidator => v.StrValue?
    case IntegerValidator => IsInt(v)
    case FloatValidator => v.FloatValue?
  }

  /** A conversion's `ValueError` turned into the `CorrectionError` of
      `settings/errors.py`, a class of its own that no setter catches. */
  function AsErrorsCorrection<T>(r: Result<T, Exception>): (c: Result<T, Exception>)
    ensures r.Success? ==> c == r
    ensures r.Failure? ==> c.Failure? && c.error == (if r.error == ValueError then ErrorsCorrectionError else r.error)
  {
    if r.Failure? && r.error == ValueError then Failure(ErrorsCorrectionError) else r
  }

  /** `correct`: `str(v)` for the first two; `int(v)` or `float(v)` with a
      `ValueError` turned into that `CorrectionError` for the others. */
  function Correct(val: Validator, v: Value): Result<Value, Exception>
  {
    match val
    case BooleanValidator => Success(StrValue(ToStr(v)))
    case StringValidator => Success(StrValue(ToStr(v)))
    case IntegerValidator =>
      var i :- AsErrorsCorrection(ToInt(v));
      Success(IntValue(i))
    case FloatValidator =>
      var f :- AsErrorsCorrection(ToFloat(v));
      Success(FloatValue(f))
  }

  /** A validator as the rules of a setting class. */
  function AsRules(val: Validator): SP.Rules
  {
    SP.Rules(v => Validate(val, v), v => Correct(val, v))
  }

  /** `BooleanValidator` behaves as `StringValidator` on every value; in
      particular it rejects the booleans themselves. */
  lemma BooleanValidatorIsStringValidator(v: Value)
    ensures Validate(BooleanValidator, v) == Validate(StringValidator, v)
    ensures Correct(BooleanValidator, v) == Correct(StringValidator, v)
    ensures v.BoolValue? ==> !Validate(BooleanValidator, v)
  {
  }

  /** For the string-typed validators, whatever `correct` returns validates,
      so a setting built on them stores `str(v)` for every value. */
  lemma StringValidatorsCorrectToValid(val: Validator, v: Value)
    requires val == BooleanValidator || val == StringValidator
    ensures Correct(val, v).Success? && Validate(val, Correct(val, v).value)
    ensures SP.Assign(AsRules(val), v) == Success(if v.StrValue? then v else StrValue(ToStr(v)))
  {
  }

  /** `IntegerValidator` validates exactly the ints (bools included); its
      `correct` gives `int(v)`, raises the `CorrectionError` of
      `settings/errors.py` where `int()` raises `ValueError`, and lets
      `TypeError` through. */
  lemma IntegerValidatorMeaning(v: Value)
    ensures Validate(IntegerValidator, v) <==> IsInt(v)
    ensures var c := Correct(IntegerValidator, v);
            && (c.Success? <==> ToInt(v).Success?)
            && (c.Success? ==> c.value == IntValue(ToInt(v).value) && Validate(IntegerValidator, c.value))
            && (c.Failure? ==> c.error == (if v.NoneValue? then TypeError else ErrorsCorrectionError))
  {
  }

  /** `FloatValidator` validates exactly the floats; its `correct` gives
      `float(v)` with the same error outcomes. */
  lemma FloatValidatorMeaning(v: Value)
    ensures Validate(FloatValidator, v) <==> v.FloatValue?
    ensures var c := Correct(FloatValidator, v);
            && (c.Success? <==> ToFloat(v).Success?)
            && (c.Success? ==> c.value == FloatValue(ToFloat(v).value) && Validate(FloatValidator, c.value))
            && (c.Failure? ==> c.error == (if v.NoneValue? then TypeError else ErrorsCorrectionError))
  {
  }

  /** A setting class taking its rules from `IntegerValidator` lets the
      validator's `CorrectionError` escape from the value setter, which catches
      only the settings package's own class: an assignment `int()` cannot
      convert raises that error instead of the setter's `ValueError`. */
  lemma IntegerValidatorErrorEscapes(v: Value)
    ensures var r := SP.Assign(AsRules(IntegerValidator), v);
            && (r.Success? <==> ToInt(v).Success?)
            && (r.Failure? ==> r.error == (if v.NoneValue? then TypeError else ErrorsCorrectionError))
  {
  }

  /** The same for `FloatValidator` and `float()`. */
  lemma FloatValidatorErrorEscapes(v: Value)
    ensures var r := SP.Assign(AsRules(FloatValidator), v);
            && (r.Success? <==> ToFloat(v).Success?)
            && (r.Failure? ==> r.error == (if v.NoneValue? then TypeError else ErrorsCorrectionError))
  {
    var c := Correct(FloatValidator, v);
    assert c.Failure? <==> ToFloat(v).Failure?;
  }
}
