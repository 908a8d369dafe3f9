/** The signup form's password-strength meter and confirmation check
    (frontend/src/components/SignupForm.tsx). The five tests use the same
    character classes as the backend, but without `.`: they look at the whole
    password, line breaks included. */
module PasswordStrength {
  import opened Wire
  import opened Chars
  import opened Validation

  const Labels: seq<string> := ["Very Weak", "Weak", "Fair", "Good", "Strong"]
  const Colours: seq<string> :=
    ["text-red-500", "text-orange-500", "text-yellow-500", "text-blue-500", "text-green-500"]

  datatype Strength = Strength(score: int, labelText: string, colour: string)

  function Min(a: int, b: int): int
  {
    if a <= b then a else b
  }

  /** How many of the five criteria `p` meets: length at least 8, a lowercase
      letter, an uppercase letter, a digit, any other character. */
  function CriteriaMet(p: string): (n: nat)
    ensures n <= 5
  {
    (if |p| >= 8 then 1 else 0)
      + (if Contains(p, IsLower) then 1 else 0)
      + (if Contains(p, IsUpper) then 1 else 0)
      + (if Contains(p, IsDigit) then 1 else 0)
      + (if Contains(p, IsOther) then 1 else 0)
  }

  /** Every character is in one of the four classes, so a non-empty password
      meets at least one criterion. */
  lemma NonEmptyMeetsACriterion(p: string)
    requires p != ""
    ensures CriteriaMet(p) >= 1
  {
    var c := p[0];
    if IsLower(c) { assert Contains(p, IsLower); }
    else if IsUpper(c) { assert Contains(p, IsUpper); }
    else if IsDigit(c) { assert Contains(p, IsDigit); }
    else { assert Contains(p, IsOther); }
  }

  /** `getPasswordStrength` (lines 30-48): five conditional increments, then the
      score capped at 5 and the label and colour at index `min(score - 1, 4)`. */
  method GetPasswordStrength(password: string) returns (s: Strength)
    ensures password == "" ==> s == Strength(0, "", "")
    ensures password != "" ==> 1 <= s.score <= 5 && s.score == CriteriaMet(password)
    ensures password != "" ==> s.labelText == Labels[s.score - 1] && s.colour == Colours[s.score - 1]
  {
    if password == "" {
      return Strength(0, "", "");
    }
    var score := 0;
    if |password| >= 8 { score := score + 1; }
    if Contains(password, IsLower) { score := score + 1; }
    if Contains(password, IsUpper) { score := score + 1; }
    if Contains(password, IsDigit) { score := score + 1; }
    if Contains(password, IsOther) { score := score + 1; }
    NonEmptyMeetsACriterion(password);
    var index := Min(score - 1, 4);
    s := Strength(Min(score, 5), Labels[index], Colours[index]);
  }

  /** Typing one more character never lowers the score. */
  lemma AppendNeverLowersScore(p: string, c: char)
    ensures CriteriaMet(p + [c]) >= CriteriaMet(p)
  {
    if Contains(p, IsLower) { ContainsPrefix(p, [c], IsLower); }
    if Contains(p, IsUpper) { ContainsPrefix(p, [c], IsUpper); }
    if Contains(p, IsDigit) { ContainsPrefix(p, [c], IsDigit); }
    if Contains(p, IsOther) { ContainsPrefix(p, [c], IsOther); }
  }

  /** A password the backend signup rule accepts scores at least 4: its label is
      "Good" or "Strong" and its bar is green. */
  lemma BackendValidScoresGood(p: string)
    requires SignupPasswordMessages(p) == []
    ensures CriteriaMet(p) >= 4
    ensures Labels[CriteriaMet(p) - 1] == "Good" || Labels[CriteriaMet(p) - 1] == "Strong"
    ensures BarColour(CriteriaMet(p)) == "bg-green-500"
  {
    var line := FirstLine(p);
    assert p == line + p[|line|..];
    ContainsPrefix(line, p[|line|..], IsLower);
    ContainsPrefix(line, p[|line|..], IsUpper);
    ContainsPrefix(line, p[|line|..], IsDigit);
  }

  /** The bar colours in the order of the label colours: the same five hues. */
  const BarColours: seq<string> := ["bg-red-500", "bg-orange-500", "bg-yellow-500", "bg-blue-500", "bg-green-500"]

  /** The strength bar's colour (lines 154-157): the first threshold met. Label
      and text colour sit at index score-1, the bar at index min(score, 4), so
      for scores 1 to 4 the bar shows the hue of the next label. */
  function BarColour(score: int): (r: string)
    ensures r == BarColours[if score <= 0 then 0 else Min(score, 4)]
  {
    if score >= 4 then "bg-green-500"
    else if score >= 3 then "bg-blue-500"
    else if score >= 2 then "bg-yellow-500"
    else if score >= 1 then "bg-orange-500"
    else "bg-red-500"
  }

  /** The bar is drawn only for a non-empty password (line 148), so it is never red. */
  lemma ShownBarNeverRed(p: string)
    requires p != ""
    ensures BarColour(CriteriaMet(p)) != "bg-red-500"
  {
    NonEmptyMeetsACriterion(p);
  }

  /** The confirmation hint (lines 196-208): nothing while the confirmation is
      empty, otherwise whether the two entries are exactly equal. */
  function MatchIndicator(password: string, confirm: string): (r: Option<bool>)
    ensures r.None? <==> confirm == ""
    ensures r == Some(true) <==> confirm != "" && password == confirm
  {
    if confirm == "" then None else Some(password == confirm)
  }
}
