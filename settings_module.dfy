/** The settings module (`settings/settings.py`). Its `Setting` state machine,
    the four subclasses and the `Settings` dictionary are the code of the
    settings package line for line (with docstrings), and are taken from that
    model; what differs is the constructor, which also takes and ignores
    arbitrary keyword arguments. */
module SettingsModule {
  import opened Wrappers
  import opened PyErrors
  import opened PyValues
  import SP = SettingsPackage

  /** `Setting(value, display_name, name=None, description="", **kwargs)`: the
      value goes through the setter, `name` defaults to `display_name`, and
      `kwargs` leave no trace. */
  method Create(rules: SP.Rules, value: Value, displayName: string, name: Option<string>, description: string,
                kwargs: map<string, Value>)
    returns (r: Result<SP.Setting, Exception>)
    ensures r.Success? <==> SP.Assign(rules, value).Success?
    ensures r.Failure? ==> r.error == SP.Assign(rules, value).error
    ensures r.Success? ==> && fresh(r.value) && r.value.rules == rules
                           && r.value.value == SP.Assign(rules, value).value
                           && r.value.displayName == displayName && r.value.description == description
                           && r.value.name == (if name.None? then displayName else name.value)
  {
    r := SP.Setting.Create(rules, value, displayName, name, description);
  }
}
