/** The grammar `int.TryParse` accepts with its default style (`NumberStyles.Integer`): optional white space, an optional sign,
    one or more decimal digits, optional white space, and a value that fits in 32
    bits. */
module Int32Parsing {
  import opened Wrappers
  import opened Constants

  /** The white space `NumberStyles.Integer` skips: U+0009 to U+000D and U+0020. */
  predicate IsWhite(c: char) {
    '\t' <= c <= '\r' || c == ' '
  }

  predicate IsDigit(c: char) {
    '0' <= c <= '9'
  }

  predicate AllWhite(s: string) {
    forall i :: 0 <= i < |s| ==> IsWhite(s[i])
  }

  predicate AllDigits(s: string) {
    forall i :: 0 <= i < |s| ==> IsDigit(s[i])
  }

  predicate IsSign(s: string) {
    s == "" || s == "+" || s == "-"
  }

  /** The decimal value of a string of digits (leading zeros allowed). */
  function DigitsValue(digits: string): nat
    requires AllDigits(digits)
  {
    if |digits| == 0 then 0
    else 10 * DigitsValue(digits[..|digits| - 1]) + (digits[|digits| - 1] as int - '0' as int)
  }

  function SignedValue(sign: string, digits: string): int
    requires AllDigits(digits)
  {
    if sign == "-" then -(DigitsValue(digits) as int) else DigitsValue(digits)
  }

  /** `lead + sign + digits + trail` is an integer in the accepted grammar. */
  predicate IntegerText(lead: string, sign: string, digits: string, trail: string) {
    AllWhite(lead) && IsSign(sign) && |digits| > 0 && AllDigits(digits) && AllWhite(trail)
  }

  /** The length of the longest all-white prefix of `s`. */
  function LeadingWhiteCount(s: string): (n: nat)
    ensures n <= |s|
    ensures AllWhite(s[..n])
    ensures n < |s| ==> !IsWhite(s[n])
  {
    if |s| == 0 || !IsWhite(s[0]) then 0
    else
      var n := 1 + LeadingWhiteCount(s[1..]);
      assert s[..n] == [s[0]] + s[1..][..n - 1];
      n
  }

  /** The length of the longest all-white suffix of `s`. */
  function TrailingWhiteCount(s: string): (n: nat)
    ensures n <= |s|
    ensures AllWhite(s[|s| - n..])
    ensures n < |s| ==> !IsWhite(s[|s| - n - 1])
  {
    if |s| == 0 || !IsWhite(s[|s| - 1]) then 0
    else
      var front := s[..|s| - 1];
      var m := TrailingWhiteCount(front);
      assert s[|s| - (m + 1)..] == front[|front| - m..] + [s[|s| - 1]];
      AllWhiteAppend(front[|front| - m..], s[|s| - 1]);
      assert m < |front| ==> s[|s| - (m + 1) - 1] == front[|front| - m - 1];
      m + 1
  }

  lemma AllWhiteAppend(s: string, c: char)
    requires AllWhite(s) && IsWhite(c)
    ensures AllWhite(s + [c])
  {
    assert forall i :: 0 <= i < |s| ==> (s + [c])[i] == s[i];
  }

  /** `s` without its leading and trailing white space. */
  function TrimWhite(s: string): string {
    var afterLead := s[LeadingWhiteCount(s)..];
    afterLead[..|afterLead| - TrailingWhiteCount(afterLead)]
  }

  /** An optional sign followed by one or more digits, within 32 bits. */
  function ParseSignedDigits(body: string): Option<int32> {
    var signLength := if |body| > 0 && (body[0] == '+' || body[0] == '-') then 1 else 0;
    var digits := body[signLength..];
    if |digits| == 0 || !AllDigits(digits) then None
    else
      var v := SignedValue(body[..signLength], digits);
      if MinInt32 <= v <= MaxInt32 then Some(v as int32) else None
  }

  /** `int.TryParse(s, out v)`: `Some(v)` on success, `None` on failure. */
  function TryParse(s: string): Option<int32> {
    ParseSignedDigits(TrimWhite(s))
  }

  lemma {:induction false} LeadingWhiteOfConcat(lead: string, rest: string)
    requires AllWhite(lead)
    requires |rest| > 0 && !IsWhite(rest[0])
    ensures LeadingWhiteCount(lead + rest) == |lead|
    decreases |lead|
  {
    if |lead| > 0 {
      assert (lead + rest)[1..] == lead[1..] + rest;
      LeadingWhiteOfConcat(lead[1..], rest);
    }
  }

  lemma {:induction false} TrailingWhiteOfConcat(body: string, trail: string)
    requires AllWhite(trail)
    requires |body| > 0 && !IsWhite(body[|body| - 1])
    ensures TrailingWhiteCount(body + trail) == |trail|
    decreases |trail|
  {
    if |trail| > 0 {
      assert (body + trail)[..|body + trail| - 1] == body + trail[..|trail| - 1];
      TrailingWhiteOfConcat(body, trail[..|trail| - 1]);
    }
  }

  lemma TrimWhiteOfConcat(lead: string, body: string, trail: string)
    requires AllWhite(lead) && AllWhite(trail)
    requires |body| > 0 && !IsWhite(body[0]) && !IsWhite(body[|body| - 1])
    ensures TrimWhite(lead + body + trail) == body
  {
    var s := lead + body + trail;
    assert s == lead + (body + trail);
    LeadingWhiteOfConcat(lead, body + trail);
    assert s[|lead|..] == body + trail;
    TrailingWhiteOfConcat(body, trail);
  }

  lemma ParseSignedDigitsOfConcat(sign: string, digits: string)
    requires IsSign(sign) && |digits| > 0 && AllDigits(digits)
    ensures var v := SignedValue(sign, digits);
            ParseSignedDigits(sign + digits)
            == if MinInt32 <= v <= MaxInt32 then Some(v as int32) else None
  {
    var body := sign + digits;
    var signLength := if sign == "" then 0 else 1;
    assert body[0] == if sign == "" then digits[0] else sign[0];
    assert IsDigit(digits[0]);
    assert signLength == if |body| > 0 && (body[0] == '+' || body[0] == '-') then 1 else 0;
    assert body[..signLength] == sign;
    assert body[signLength..] == digits;
  }

  /** Every text in the grammar parses, to its value when that fits in 32 bits. */
  lemma TryParseComplete(lead: string, sign: string, digits: string, trail: string)
    requires IntegerText(lead, sign, digits, trail)
    ensures var v := SignedValue(sign, digits);
            TryParse(lead + sign + digits + trail)
            == if MinInt32 <= v <= MaxInt32 then Some(v as int32) else None
  {
    var body := sign + digits;
    assert IsDigit(digits[0]) && IsDigit(digits[|digits| - 1]);
    assert body[0] == if sign == "" then digits[0] else sign[0];
    assert body[|body| - 1] == digits[|digits| - 1];
    assert lead + sign + digits + trail == lead + body + trail;
    TrimWhiteOfConcat(lead, body, trail);
    ParseSignedDigitsOfConcat(sign, digits);
  }

  /** Only texts in the grammar parse, and they parse to their value. */
  lemma TryParseSound(s: string)
    ensures TryParse(s).Some? ==>
              exists i, j, k :: 0 <= i <= j <= k <= |s|
                && IntegerText(s[..i], s[i..j], s[j..k], s[k..])
                && TryParse(s).value as int == SignedValue(s[i..j], s[j..k])
  {
    if TryParse(s).Some? {
      var i := LeadingWhiteCount(s);
      var afterLead := s[i..];
      var t := TrailingWhiteCount(afterLead);
      var body := afterLead[..|afterLead| - t];
      var signLength := if |body| > 0 && (body[0] == '+' || body[0] == '-') then 1 else 0;
      var j := i + signLength;
      var k := i + |afterLead| - t;
      assert body == s[i..k];
      assert s[i..j] == body[..signLength];
      assert s[j..k] == body[signLength..];
      assert s[k..] == afterLead[|afterLead| - t..];
      assert IntegerText(s[..i], s[i..j], s[j..k], s[k..]);
    }
  }
}
