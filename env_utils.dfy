/** Masking of environment values before they are shown to an operator
    (`summarize_value` in core/env_utils.py). */
module EnvUtils {

  /** Python's `str.lower` on one character. Only ASCII letters are folded: no other
      Unicode character lowers to a letter of "true" or "false", so the boolean test
      below is decided exactly as Python decides it. */
  function LowerChar(c: char): char {
    if 'A' <= c <= 'Z' then (c as int + 32) as char else c
  }

  function Lower(s: string): (r: string)
    ensures |r| == |s|
  {
    seq(|s|, i requires 0 <= i < |s| => LowerChar(s[i]))
  }

  /** The value spells a boolean, in any letter case. */
  predicate IsBooleanText(value: string) {
    Lower(value) == "true" || Lower(value) == "false"
  }

  /** The last four characters (Python `value[-4:]` when the value is longer than four). */
  function LastFour(value: string): string
    requires |value| >= 4
  {
    value[|value| - 4..]
  }

  /** A boolean is shown in lower case; anything else is hidden behind four stars,
      revealing only its last four characters, and only when it is longer than four. */
  function SummarizeValue(value: string): (r: string)
    ensures (r == "true" || r == "false") <==> IsBooleanText(value)
    ensures IsBooleanText(value) ==> r == Lower(value)
    ensures !IsBooleanText(value) ==> |r| == 8 && r[..4] == "****"
    ensures !IsBooleanText(value) && |value| > 4 ==> r[4..] == LastFour(value)
    ensures !IsBooleanText(value) && |value| <= 4 ==> forall i :: 0 <= i < |r| ==> r[i] == '*'
  {
    var lower := Lower(value);
    if lower == "true" || lower == "false" then lower
    else if |value| > 4 then "****" + value[|value| - 4..]
    else "********"
  }

  /** The mask depends on nothing but the last four characters and on whether the value
      is longer than four: two secrets that agree there are indistinguishable. */
  lemma MaskRevealsOnlyLastFour(v: string, w: string)
    requires !IsBooleanText(v) && !IsBooleanText(w)
    requires (|v| > 4) == (|w| > 4)
    requires |v| > 4 ==> LastFour(v) == LastFour(w)
    ensures SummarizeValue(v) == SummarizeValue(w)
  {
    var r, q := SummarizeValue(v), SummarizeValue(w);
    assert r == r[..4] + r[4..] && q == q[..4] + q[4..];
    if |v| <= 4 {
      assert r[4..] == "****" == q[4..];
    }
  }

  /** The boolean test comes first: "FALSE" has five characters but is shown as "false". */
  lemma BooleanBeforeMask()
    ensures SummarizeValue("FALSE") == "false"
    ensures SummarizeValue("True") == "true"
  {
    assert Lower("FALSE") == "false";
    assert Lower("True") == "true";
  }
}
