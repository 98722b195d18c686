/** The match quiz type (`quiz_enchanter/extensions/default_extension/match_extension.py`):
    the answer typed in is compared with the expected one, by default after
    stripping surrounding whitespace from the answer. */
module QuizMatch {
  import opened Wrappers
  import opened PyErrors
  import opened JsonValue
  import Text

  class MatchModel {
    const question: Json
    const right: Json
    const strip: bool
    var selection: Option<string>

    constructor Init(question: Json, right: Json, strip: bool)
      ensures this.question == question && this.right == right && this.strip == strip && selection.None?
    {
      this.question := question;
      this.right := right;
      this.strip := strip;
      selection := None;
    }

    /** `MatchModel(json_data)`: `question` and `right` are required, and
        `strip_start_and_end` (taken for its truth value) defaults to true. */
    static method FromJson(j: Json) returns (r: Result<MatchModel, Exception>)
      ensures r.Success? <==> HasKey(j, "question") && HasKey(j, "right")
      ensures r.Failure? ==> r.error == (if j.JObj? then KeyError else TypeError)
      ensures r.Success? ==> && fresh(r.value) && r.value.selection.None?
                             && r.value.question == j.fields["question"] && r.value.right == j.fields["right"]
                             && r.value.strip == (!HasKey(j, "strip_start_and_end") || Truthy(j.fields["strip_start_and_end"]))
    {
      var question := Get(j, "question");
      if question.Failure? {
        return Failure(question.error);
      }
      var right := Get(j, "right");
      if right.Failure? {
        return Failure(right.error);
      }
      var strip := if HasKey(j, "strip_start_and_end") then Truthy(j.fields["strip_start_and_end"]) else true;
      var m := new MatchModel.Init(question.value, right.value, strip);
      r := Success(m);
    }

    /** `is_right`: the (stripped) selection equals `right`. Before `run`
        the selection is `None`: stripping it raises `AttributeError`, and
        unstripped it equals only a JSON `null`. */
    function IsRight(): (r: Result<bool, Exception>)
      reads this
      ensures selection.None? ==> r == if strip then Failure(AttributeError) else Success(right == JNull)
      ensures selection.Some? && strip ==> r == Success(right == JStr(Text.Strip(selection.value)))
      ensures selection.Some? && !strip ==> r == Success(right == JStr(selection.value))
    {
      match selection
      case None => if strip then Failure(AttributeError) else Success(right == JNull)
      case Some(s) => Success(JStr(if strip then Text.Strip(s) else s) == right)
    }

    /** `run(model)`: the raw input line becomes the selection, and the verdict
        is returned. */
    method Run(input: string) returns (r: bool)
      modifies this
      ensures selection == Some(input)
      ensures r <==> right == JStr(if strip then Text.Strip(input) else input)
    {
      selection := Some(input);
      var v := IsRight();
      r := v.value;
    }
  }

  /** `right` itself is never stripped: with stripping on, an expected answer
      with leading or trailing whitespace matches no input at all. */
  lemma PaddedRightNeverMatches(m: MatchModel, input: string)
    requires m.strip && m.right.JStr? && |m.right.s| > 0
    requires Text.IsSpace(m.right.s[0]) || Text.IsSpace(m.right.s[|m.right.s| - 1])
    ensures m.right != JStr(Text.Strip(input))
  {
  }

  /** With stripping on, padding around the input does not matter. */
  lemma PaddingIgnored(m: MatchModel, input: string, pad: string)
    requires m.strip && forall i :: 0 <= i < |pad| ==> Text.IsSpace(pad[i])
    requires m.right.JStr? && m.right.s != [] && !Text.IsSpace(m.right.s[0]) && !Text.IsSpace(m.right.s[|m.right.s| - 1])
    ensures m.right == JStr(Text.Strip(m.right.s + pad)) && m.right == JStr(Text.Strip(pad + m.right.s))
  {
    var t := m.right.s;
    StripPadding(t, pad);
  }

  /** Stripping removes whitespace padding on either side of a trimmed word. */
  lemma StripPadding(t: string, pad: string)
    requires t != [] && !Text.IsSpace(t[0]) && !Text.IsSpace(t[|t| - 1])
    requires forall i :: 0 <= i < |pad| ==> Text.IsSpace(pad[i])
    ensures Text.Strip(t + pad) == t && Text.Strip(pad + t) == t
  {
    StripOf(t + pad, |pad|, 0, t);
    StripOf(pad + t, 0, |pad|, t);
  }

  /** `t` between a whitespace run of length `front` and one of length `back`
      strips to `t`. */
  lemma StripOf(s: string, back: nat, front: nat, t: string)
    requires |s| == front + |t| + back && s[front..front + |t|] == t
    requires t != [] && !Text.IsSpace(t[0]) && !Text.IsSpace(t[|t| - 1])
    requires forall i :: 0 <= i < front ==> Text.IsSpace(s[i])
    requires forall i :: front + |t| <= i < |s| ==> Text.IsSpace(s[i])
    ensures Text.Strip(s) == t
  {
  }
}
