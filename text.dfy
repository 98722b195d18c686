/** The few Python string operations the modelled code uses: `str.strip()`,
    `str(int)`, `int(str)`, `str.lower()`, `str.islower()` and the substring test
    `a in b`. Only ASCII behaviour is modelled. */
module Text {
  import opened Wrappers

  /** The ASCII characters for which `str.isspace()` is true: tab, line feed,
      vertical tab, form feed, carriage return, the four separators 0x1c-0x1f and space. */
  predicate IsSpace(c: char)
  {
    (9 <= c as int <= 13) || (28 <= c as int <= 32)
  }

  /** `s` with its leading whitespace removed. */
  function TrimStart(s: string): (r: string)
    ensures |r| <= |s| && r == s[|s| - |r|..]
    ensures forall i :: 0 <= i < |s| - |r| ==> IsSpace(s[i])
    ensures r == [] || !IsSpace(r[0])
  {
    if s != [] && IsSpace(s[0]) then TrimStart(s[1..]) else s
  }

  /** `s` with its trailing whitespace removed. */
  function TrimEnd(s: string): (r: string)
    ensures |r| <= |s| && r == s[..|r|]
    ensures forall i :: |r| <= i < |s| ==> IsSpace(s[i])
    ensures r == [] || !IsSpace(r[|r| - 1])
  {
    if s != [] && IsSpace(s[|s| - 1]) then TrimEnd(s[..|s| - 1]) else s
  }

  /** `r` is `s[a..]` cut to length `|r|`, and everything of `s` left out is whitespace. */
  predicate CutAt(s: string, r: string, a: int)
  {
    && 0 <= a <= |s| - |r| && r == s[a..a + |r|]
    && (forall i :: 0 <= i < a ==> IsSpace(s[i]))
    && (forall i :: a + |r| <= i < |s| ==> IsSpace(s[i]))
  }

  /** `s.strip()`: the infix of `s` that neither starts nor ends with whitespace,
      everything cut off being whitespace. */
  function Strip(s: string): (r: string)
    ensures exists a :: CutAt(s, r, a)
    ensures r == [] || (!IsSpace(r[0]) && !IsSpace(r[|r| - 1]))
  {
    var t := TrimStart(s);
    var r := TrimEnd(t);
    var a := |s| - |t|;
    assert t == s[a..];
    assert r == s[a..][..|r|] == s[a..a + |r|];
    forall i | a + |r| <= i < |s|
      ensures IsSpace(s[i])
    {
      assert s[i] == t[i - a];
    }
    assert CutAt(s, r, a);
    r
  }

  /** A string that neither starts nor ends with whitespace is its own strip. */
  lemma {:induction false} StripUnchanged(s: string)
    requires s == [] || (!IsSpace(s[0]) && !IsSpace(s[|s| - 1]))
    ensures Strip(s) == s
  {
  }

  predicate IsDigit(c: char)
  {
    '0' <= c <= '9'
  }

  predicate AllDigits(s: string)
  {
    forall i :: 0 <= i < |s| ==> IsDigit(s[i])
  }

  /** The number a string of decimal digits denotes (leading zeros allowed). */
  function DigitsValue(s: string): nat
    requires AllDigits(s)
  {
    if s == [] then 0 else DigitsValue(s[..|s| - 1]) * 10 + (s[|s| - 1] as int - '0' as int)
  }

  function DigitChar(d: nat): (c: char)
    requires d < 10
    ensures IsDigit(c) && c as int - '0' as int == d
  {
    ('0' as int + d) as char
  }

  /** `str(n)` for a non-negative integer: its decimal digits, no leading zeros. */
  function NatToString(n: nat): (r: string)
    ensures |r| > 0 && AllDigits(r) && DigitsValue(r) == n
    ensures r[0] != '0' || n == 0
  {
    if n < 10 then [DigitChar(n)]
    else
      var prefix := NatToString(n / 10);
      var r := prefix + [DigitChar(n % 10)];
      assert r[..|r| - 1] == prefix;
      r
  }

  /** `str(i)` for any integer. */
  function IntToString(i: int): (r: string)
    ensures |r| > 0 && !IsSpace(r[0]) && !IsSpace(r[|r| - 1])
  {
    if i < 0 then "-" + NatToString(-i) else NatToString(i)
  }

  /** `int(s)` on a string: surrounding whitespace is ignored, an optional `+` or
      `-` sign is followed by one or more decimal digits; anything else is the
      `ValueError` case, here `None`. */
  function ParseInt(s: string): (r: Option<int>)
  {
    var t := Strip(s);
    if |t| > 0 && (t[0] == '-' || t[0] == '+') then
      var d := t[1..];
      if |d| > 0 && AllDigits(d) then
        Some(if t[0] == '-' then 0 - DigitsValue(d) else DigitsValue(d))
      else None
    else if |t| > 0 && AllDigits(t) then Some(DigitsValue(t))
    else None
  }

  /** `int(s)` of a string of digits is the number they denote. */
  lemma ParseDigits(s: string)
    requires |s| > 0 && AllDigits(s)
    ensures ParseInt(s) == Some(DigitsValue(s))
  {
    assert IsDigit(s[0]) && IsDigit(s[|s| - 1]);
    StripUnchanged(s);
  }

  /** One digit denotes its own value. */
  lemma OneDigitValue(s: string)
    requires |s| == 1 && IsDigit(s[0])
    ensures AllDigits(s) && DigitsValue(s) == s[0] as int - '0' as int
  {
    assert s[..0] == [];
  }

  /** `int(str(i)) == i`: the rendering of an integer parses back to it. */
  lemma {:induction false} ParseIntToString(i: int)
    ensures ParseInt(IntToString(i)) == Some(i)
  {
    var s := IntToString(i);
    StripUnchanged(s);
    if i < 0 {
      assert s[1..] == NatToString(-i);
    }
  }

  /** A string that `int()` accepts starts, after the stripped whitespace, with a
      sign or a digit, so text made of letters never parses. */
  lemma ParsedStartsWithSignOrDigit(s: string)
    requires ParseInt(s).Some?
    ensures var t := Strip(s); |t| > 0 && (t[0] == '-' || t[0] == '+' || IsDigit(t[0]))
  {
  }

  predicate IsUpper(c: char)
  {
    'A' <= c <= 'Z'
  }

  predicate IsLowerLetter(c: char)
  {
    'a' <= c <= 'z'
  }

  function LowerChar(c: char): (r: char)
    ensures !IsUpper(r)
    ensures IsUpper(c) ==> IsLowerLetter(r)
    ensures IsLowerLetter(r) <==> IsUpper(c) || IsLowerLetter(c)
    ensures !IsUpper(c) ==> r == c
  {
    if IsUpper(c) then (c as int + 32) as char else c
  }

  /** `s.lower()`. */
  function Lower(s: string): (r: string)
    ensures |r| == |s|
    ensures forall i :: 0 <= i < |s| ==> r[i] == LowerChar(s[i])
  {
    seq(|s|, i requires 0 <= i < |s| => LowerChar(s[i]))
  }

  /** `s.islower()`: at least one cased character, and none of them upper case. */
  predicate IsLower(s: string)
  {
    (exists i :: 0 <= i < |s| && IsLowerLetter(s[i])) && (forall i :: 0 <= i < |s| ==> !IsUpper(s[i]))
  }

  predicate HasLetter(s: string)
  {
    exists i :: 0 <= i < |s| && (IsUpper(s[i]) || IsLowerLetter(s[i]))
  }

  /** Lowering makes a string `islower()` exactly when it holds a letter at all. */
  lemma LowerIsLowerIffLetter(s: string)
    ensures IsLower(Lower(s)) <==> HasLetter(s)
  {
    var r := Lower(s);
    if HasLetter(s) {
      var i :| 0 <= i < |s| && (IsUpper(s[i]) || IsLowerLetter(s[i]));
      assert IsLowerLetter(r[i]);
    }
    if IsLower(r) {
      var i :| 0 <= i < |r| && IsLowerLetter(r[i]);
      assert IsUpper(s[i]) || IsLowerLetter(s[i]);
    }
  }

  /** `prefix == s[:len(prefix)]`. */
  predicate IsPrefix(prefix: string, s: string)
  {
    |prefix| <= |s| && prefix == s[..|prefix|]
  }

  /** `sub in s` for two strings: `sub` occurs somewhere in `s` (the empty string
      occurs in every string). */
  predicate Contains(s: string, sub: string)
    decreases |s|
  {
    IsPrefix(sub, s) || (s != [] && Contains(s[1..], sub))
  }

  /** `sub` occurs in `s` starting at offset `k`. */
  predicate OccursAt(s: string, sub: string, k: int)
  {
    0 <= k <= |s| - |sub| && s[k..k + |sub|] == sub
  }

  /** `Contains` is the usual "occurs at some offset". */
  lemma {:induction false} ContainsAt(s: string, sub: string)
    ensures Contains(s, sub) <==> exists k :: OccursAt(s, sub, k)
    decreases |s|
  {
    if IsPrefix(sub, s) {
      assert OccursAt(s, sub, 0);
    }
    if s != [] {
      ContainsAt(s[1..], sub);
      if Contains(s[1..], sub) {
        var k :| OccursAt(s[1..], sub, k);
        assert s[1..][k..k + |sub|] == s[k + 1..k + 1 + |sub|];
        assert OccursAt(s, sub, k + 1);
      }
      if exists k :: OccursAt(s, sub, k) {
        var k :| OccursAt(s, sub, k);
        if k > 0 {
          assert s[1..][k - 1..k - 1 + |sub|] == s[k..k + |sub|];
          assert OccursAt(s[1..], sub, k - 1);
        }
      }
    } else if exists k :: OccursAt(s, sub, k) {
      var k :| OccursAt(s, sub, k);
      assert sub == [];
    }
  }
}
