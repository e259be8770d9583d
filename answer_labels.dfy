/** How one answer of a response becomes a display label: the prioritised
    rule of the primary path of `fetchSurveyData` (which can resolve choice
    ids through the survey structure) and the narrower rule of its fallback
    path (which cannot). */
module AnswerLabels {
  import opened Strings
  import opened SurveyModel

  /** `s && s.trim() !== ''`. */
  predicate HasText(s: string) {
    !IsBlank(s)
  }

  /** `choiceMapping[id]` as a string: "" when the id is unknown or its
      text was absent, both of which JavaScript treats as falsy. */
  function Mapped(choiceMapping: map<string, string>, id: string): string {
    if id in choiceMapping then choiceMapping[id] else ""
  }

  /** `Option ${id}`. */
  function OptionLabel(id: string): string {
    "Option " + id
  }

  /** The label before clean-up, by the primary priority rule: trimmed
      text, trimmed other text, the mapped text of the choice, trimmed
      choice text, `row: choice` for a matrix cell, `Option id`, and
      finally the literal 'No answer'. */
  function RawPrimaryLabel(a: Answer, choiceMapping: map<string, string>): string {
    if HasText(a.text) then Trim(a.text)
    else if HasText(a.otherText) then Trim(a.otherText)
    else if a.choiceId != "" && Mapped(choiceMapping, a.choiceId) != "" then Mapped(choiceMapping, a.choiceId)
    else if HasText(a.choiceText) then Trim(a.choiceText)
    else if a.rowId != "" && a.choiceId != "" then
      var rowText := if Mapped(choiceMapping, a.rowId) != "" then Mapped(choiceMapping, a.rowId) else "Row " + a.rowId;
      var choiceText := if Mapped(choiceMapping, a.choiceId) != "" then Mapped(choiceMapping, a.choiceId) else OptionLabel(a.choiceId);
      rowText + ": " + choiceText
    else if a.choiceId != "" then OptionLabel(a.choiceId)
    else "No answer"
  }

  /** `s.replace(/^Choice\s+/i, '')`: a leading "choice" in any letter case
      followed by at least one whitespace character loses both. */
  function StripChoicePrefix(s: string): (r: string)
    ensures |r| <= |s| && r == s[|s| - |r|..]
    ensures r != s ==> |s| - |r| > 6 && ToLower(s[..6]) == "choice" && IsBlank(s[6..|s| - |r|])
                       && (r == [] || !IsWhitespace(r[0]))
  {
    if |s| > 6 && ToLower(s[..6]) == "choice" && IsWhitespace(s[6]) then
      var t := TrimStart(s[6..]);
      var k := |s| - |t|;
      assert k > 6;
      var run := s[6..k];
      assert IsBlank(run) by {
        forall i | 0 <= i < |run| ensures IsWhitespace(run[i]) {
          assert run[i] == s[6..][i];
        }
      }
      t
    else s
  }

  /** The clean-up of the primary path: strip the prefix, trim, and turn
      an empty, 'undefined' or 'null' result into 'No answer provided'. */
  function CleanLabel(raw: string): string {
    var c := Trim(StripChoicePrefix(raw));
    if c == "" || c == "undefined" || c == "null" then "No answer provided" else c
  }

  function PrimaryLabel(a: Answer, choiceMapping: map<string, string>): string {
    CleanLabel(RawPrimaryLabel(a, choiceMapping))
  }

  /** Every cleaned label is non-empty, trimmed and never the strings
      'undefined' or 'null'. */
  lemma CleanLabelIsClean(raw: string)
    ensures var l := CleanLabel(raw);
      l != "" && l != "undefined" && l != "null" && Trim(l) == l
  {
    var c := Trim(StripChoicePrefix(raw));
    if c == "" || c == "undefined" || c == "null" {
      NoAnswerProvidedIsTrimmed();
    } else {
      TrimIdempotent(StripChoicePrefix(raw));
    }
  }

  lemma NoAnswerProvidedIsTrimmed()
    ensures Trim("No answer provided") == "No answer provided"
  {
    var n := "No answer provided";
    assert n[0] == 'N' && n[|n| - 1] == 'd';
    TrimOfTrimmed(n);
  }

  /** Every primary label is clean in that sense. */
  lemma PrimaryLabelIsClean(a: Answer, choiceMapping: map<string, string>)
    ensures var l := PrimaryLabel(a, choiceMapping);
      l != "" && l != "undefined" && l != "null" && Trim(l) == l
  {
    CleanLabelIsClean(RawPrimaryLabel(a, choiceMapping));
  }

  /** The clean-up leaves alone a label without surrounding whitespace or
      a `choice` prefix that is neither 'undefined' nor 'null'. */
  lemma CleanLabelKeeps(s: string)
    requires s != [] && !IsWhitespace(s[0]) && !IsWhitespace(s[|s| - 1])
    requires StripChoicePrefix(s) == s && s != "undefined" && s != "null"
    ensures CleanLabel(s) == s
  {
    TrimOfTrimmed(s);
  }

  /** Priority: non-blank text decides the label whatever the other fields
      and the choice map hold. */
  lemma TextFirst(a: Answer, b: Answer, m: map<string, string>, m': map<string, string>)
    requires HasText(a.text) && b.text == a.text
    ensures PrimaryLabel(a, m) == PrimaryLabel(b, m') == CleanLabel(Trim(a.text))
  {
  }

  /** Priority: with blank text, non-blank other text decides the label. */
  lemma OtherTextSecond(a: Answer, b: Answer, m: map<string, string>, m': map<string, string>)
    requires !HasText(a.text) && !HasText(b.text) && HasText(a.otherText) && b.otherText == a.otherText
    ensures PrimaryLabel(a, m) == PrimaryLabel(b, m') == CleanLabel(Trim(a.otherText))
  {
  }

  /** Priority: with blank text and other text, a choice id the survey
      structure knows decides the label, whatever the choice text and the
      row hold. */
  lemma MappedChoiceThird(a: Answer, b: Answer, m: map<string, string>)
    requires !HasText(a.text) && !HasText(a.otherText) && !HasText(b.text) && !HasText(b.otherText)
    requires a.choiceId != "" && a.choiceId == b.choiceId && Mapped(m, a.choiceId) != ""
    ensures PrimaryLabel(a, m) == PrimaryLabel(b, m) == CleanLabel(m[a.choiceId])
  {
    assert RawPrimaryLabel(a, m) == m[a.choiceId];
    assert RawPrimaryLabel(b, m) == m[a.choiceId];
  }

  /** A matrix cell whose choice the structure does not know is labelled
      by its row (mapped text or `Row id`) and `Option id`. */
  lemma RowAndUnmappedChoice(a: Answer, m: map<string, string>)
    requires !HasText(a.text) && !HasText(a.otherText) && !HasText(a.choiceText)
    requires a.rowId != "" && a.choiceId != "" && Mapped(m, a.choiceId) == ""
    ensures PrimaryLabel(a, m)
         == CleanLabel((if Mapped(m, a.rowId) != "" then m[a.rowId] else "Row " + a.rowId) + ": Option " + a.choiceId)
  {
    var rowText := if Mapped(m, a.rowId) != "" then m[a.rowId] else "Row " + a.rowId;
    assert rowText + ": " + OptionLabel(a.choiceId) == rowText + ": Option " + a.choiceId;
  }

  /** Priority: with blank text and other text and a choice id the
      structure does not resolve, non-blank choice text decides the label,
      whatever the row holds. */
  lemma ChoiceTextFourth(a: Answer, m: map<string, string>)
    requires !HasText(a.text) && !HasText(a.otherText) && HasText(a.choiceText)
    requires a.choiceId == "" || Mapped(m, a.choiceId) == ""
    ensures PrimaryLabel(a, m) == CleanLabel(Trim(a.choiceText))
  {
  }

  /** Priority: a choice id with nothing else to go on (no text, no
      resolvable choice, no choice text and no row) shows as `Option id`. */
  lemma OptionIdSixth(a: Answer, m: map<string, string>)
    requires !HasText(a.text) && !HasText(a.otherText) && !HasText(a.choiceText)
    requires a.choiceId != "" && Mapped(m, a.choiceId) == "" && a.rowId == ""
    ensures PrimaryLabel(a, m) == CleanLabel("Option " + a.choiceId)
  {
  }

  /** An answer whose text, other text and choice text are blank and which
      names no choice gets the literal 'No answer' on both paths: the
      default, which neither clean-up changes. */
  lemma EmptyAnswerIsNoAnswer(a: Answer, m: map<string, string>)
    requires !HasText(a.text) && !HasText(a.otherText) && !HasText(a.choiceText) && a.choiceId == ""
    ensures PrimaryLabel(a, m) == "No answer"
    ensures FallbackLabel(a) == "No answer"
  {
    assert RawPrimaryLabel(a, m) == "No answer";
    NoAnswerIsClean();
    var n := "No answer";
    assert n[..6] != "Choice" by {
      assert n[..6][0] != "Choice"[0];
    }
  }

  lemma NoAnswerIsClean()
    ensures CleanLabel("No answer") == "No answer"
  {
    var n := "No answer";
    NoAnswerHasNoPrefix();
    assert n[0] == 'N' && n[|n| - 1] == 'r';
    assert n != "undefined" by {
      assert n[0] != "undefined"[0];
    }
    CleanLabelKeeps(n);
  }

  lemma NoAnswerHasNoPrefix()
    ensures StripChoicePrefix("No answer") == "No answer"
  {
    var n := "No answer";
    assert ToLower(n[..6])[0] == 'n';
  }

  /** A label made of `choice` in any letter case, a run of whitespace and
      a rest that does not start with whitespace loses the word and the
      run, and the clean-up then works on the rest alone. */
  lemma ChoicePrefixRemoved(c: string, w: string, rest: string)
    requires |c| == 6 && ToLower(c) == "choice"
    requires w != [] && IsBlank(w) && (rest == [] || !IsWhitespace(rest[0]))
    ensures StripChoicePrefix(c + w + rest) == rest
    ensures CleanLabel(c + w + rest)
         == (var t := Trim(rest); if t == "" || t == "undefined" || t == "null" then "No answer provided" else t)
  {
    var s := c + w + rest;
    assert s[..6] == c;
    assert s[6] == w[0];
    var tail := s[6..];
    assert tail == w + rest;
    assert tail[..|w|] == w;
    assert |w| < |tail| ==> tail[|w|] == rest[0];
    TrimStartSkips(tail, |w|);
    assert tail[|w|..] == rest;
  }

  // ----- the fallback rule -----

  /** The label before clean-up, by the fallback priority rule: trimmed
      text, trimmed other text, trimmed choice text, `Option id`, and
      finally 'No answer'. Choice ids are not resolved. */
  function RawFallbackLabel(a: Answer): string {
    if HasText(a.text) then Trim(a.text)
    else if HasText(a.otherText) then Trim(a.otherText)
    else if HasText(a.choiceText) then Trim(a.choiceText)
    else if a.choiceId != "" then OptionLabel(a.choiceId)
    else "No answer"
  }

  predicate AllDigits(s: string) {
    forall i :: 0 <= i < |s| ==> IsDigit(s[i])
  }

  /** The whole string matches `/^Choice\s+\d+$/` (case-sensitive). */
  predicate IsNumberedChoice(s: string) {
    |s| > 6 && s[..6] == "Choice" && IsWhitespace(s[6])
    && var digits := TrimStart(s[6..]); digits != [] && AllDigits(digits)
  }

  /** `label.replace(/^Choice\s+\d+$/, 'Option')`. */
  function FallbackLabel(a: Answer): string {
    var raw := RawFallbackLabel(a);
    if IsNumberedChoice(raw) then "Option" else raw
  }

  /** Fallback labels are never empty, so the `'Unknown Answer'` default
      of the structuring step is never used on this path. */
  lemma FallbackLabelNonEmpty(a: Answer)
    ensures FallbackLabel(a) != ""
  {
    var raw := RawFallbackLabel(a);
    if HasText(a.text) || HasText(a.otherText) || HasText(a.choiceText) {
      assert raw != "";
    }
  }

  /** `Choice`, a run of whitespace and a run of digits is a numbered
      choice. */
  lemma NumberedChoiceMatches(w: string, d: string)
    requires w != [] && IsBlank(w) && d != [] && AllDigits(d)
    ensures IsNumberedChoice("Choice" + w + d)
  {
    var s := "Choice" + w + d;
    assert s[..6] == "Choice";
    assert s[6] == w[0];
    var tail := s[6..];
    assert tail == w + d;
    assert tail[..|w|] == w;
    assert tail[|w|] == d[0];
    TrimStartSkips(tail, |w|);
    assert tail[|w|..] == d;
  }

  /** ... and every numbered choice has that shape. */
  lemma NumberedChoiceSplits(s: string)
    requires IsNumberedChoice(s)
    ensures var k := |s| - |TrimStart(s[6..])|;
      6 < k < |s| && s[..6] == "Choice" && IsBlank(s[6..k]) && AllDigits(s[k..])
  {
    var t := TrimStart(s[6..]);
    var k := |s| - |t|;
    assert k > 6;
    var run := s[6..k];
    assert IsBlank(run) by {
      forall i | 0 <= i < |run| ensures IsWhitespace(run[i]) {
        assert run[i] == s[6..][i];
      }
    }
    assert s[k..] == t;
  }

  /** Whatever field it comes from, a fallback label of the form `Choice`,
      whitespace, digits collapses to the single label 'Option'. */
  lemma NumberedChoiceCollapses(a: Answer, w: string, d: string)
    requires RawFallbackLabel(a) == "Choice" + w + d
    requires w != [] && IsBlank(w) && d != [] && AllDigits(d)
    ensures FallbackLabel(a) == "Option"
  {
    NumberedChoiceMatches(w, d);
  }

  /** Fallback priority: text, then other text, then choice text, then the
      choice id; each field decides the label once the earlier ones are
      blank, whatever the later fields and the row hold. */
  lemma FallbackOrder(a: Answer, b: Answer)
    ensures HasText(a.text) && b.text == a.text ==> FallbackLabel(a) == FallbackLabel(b)
    ensures !HasText(a.text) && !HasText(b.text) && HasText(a.otherText) && b.otherText == a.otherText
            ==> FallbackLabel(a) == FallbackLabel(b)
    ensures !HasText(a.text) && !HasText(b.text) && !HasText(a.otherText) && !HasText(b.otherText)
            && HasText(a.choiceText) && b.choiceText == a.choiceText
            ==> FallbackLabel(a) == FallbackLabel(b)
    ensures !HasText(a.text) && !HasText(b.text) && !HasText(a.otherText) && !HasText(b.otherText)
            && !HasText(a.choiceText) && !HasText(b.choiceText) && b.choiceId == a.choiceId
            ==> FallbackLabel(a) == FallbackLabel(b)
  {
  }

  /** Outside matrix cells, the fallback rule is the primary rule with a
      survey structure that resolves nothing. */
  lemma FallbackIsPrimaryWithoutMap(a: Answer)
    requires a.rowId == "" || a.choiceId == ""
    ensures RawFallbackLabel(a) == RawPrimaryLabel(a, map[])
  {
  }

  /** The two rules differ: the fallback never consults the choice map, so
      a choice that the primary path names by its text shows as its id. */
  lemma FallbackIgnoresChoiceMap()
    ensures PrimaryLabel(Answer("", "", "c1", "", ""), map["c1" := "Red"]) == "Red"
    ensures FallbackLabel(Answer("", "", "c1", "", "")) == "Option c1"
  {
    RedIsRaw();
    RedIsClean();
    OptionIsRaw();
    OptionIsNotNumbered();
  }

  lemma RedIsRaw()
    ensures RawPrimaryLabel(Answer("", "", "c1", "", ""), map["c1" := "Red"]) == "Red"
  {
    assert !HasText("");
    assert Mapped(map["c1" := "Red"], "c1") == "Red";
  }

  lemma OptionIsRaw()
    ensures RawFallbackLabel(Answer("", "", "c1", "", "")) == "Option c1"
  {
    assert !HasText("");
  }

  lemma RedIsClean()
    ensures CleanLabel("Red") == "Red"
  {
    var red := "Red";
    assert red[0] == 'R' && red[|red| - 1] == 'd';
    CleanLabelKeeps(red);
  }

  lemma OptionIsNotNumbered()
    ensures !IsNumberedChoice("Option c1")
  {
    var o := "Option c1";
    assert o[0] != "Choice"[0];
  }
}
