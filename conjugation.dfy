/** The conjugation view of the keyboard: the choice between the 3x2 and the
    2x2 grid, the tense identifiers shown in the grid, the text each slot
    shows, and the choice of preposition-annotation labels. */
module Conjugation {

  // ---------------------------------------------------------------------------
  // Layout and keys
  // ---------------------------------------------------------------------------

  /** The 2x2 grid is used for Swedish and for Russian in the past tense. */
  function AlternateView(language: string, ruPast: bool): bool
  {
    if language == "Swedish" then true
    else if language == "Russian" && ruPast then true
    else false
  }

  /** The key names of the 3x2 grid, in slot order. */
  const ThreeByTwoKeys: seq<string> := [
    "firstPersonSingular", "secondPersonSingular", "thirdPersonSingular",
    "firstPersonPlural", "secondPersonPlural", "thirdPersonPlural"]

  /** The key names of the 2x2 grid, in slot order. */
  const TwoByTwoKeys: seq<string> := [
    "conjugateTopLeft", "conjugateTopRight", "conjugateBottomLeft", "conjugateBottomRight"]

  /** The slot keys of a grid. */
  function ConjugationButtons(alternate: bool): seq<string>
  {
    if alternate then TwoByTwoKeys else ThreeByTwoKeys
  }

  /** Person and number of the six 3x2 slots. */
  const PersonSuffixes: seq<string> := ["FPS", "SPS", "TPS", "FPP", "SPP", "TPP"]

  /** The four Russian past forms of the 2x2 grid. */
  const RussianPastTenses: seq<string> := ["pastMasculine", "pastFeminine", "pastNeutral", "pastPlural"]

  /** What the language's paging functions report about the page on display:
      the name of its conjugation state, the title of the view, and (Swedish
      only) the four tenses of the 2x2 grid. */
  datatype ConjugationPage = ConjugationPage(stateName: string, title: string, swedishTenses: seq<string>)

  /** Swedish pages name at least the four tenses the grid reads. */
  predicate PageFits(language: string, page: ConjugationPage)
  {
    language == "Swedish" ==> |page.swedishTenses| >= 4
  }

  /** The tense identifiers shown in the grid, slot by slot. */
  function TenseIds(language: string, ruPast: bool, page: ConjugationPage): seq<string>
    requires PageFits(language, page)
  {
    if !AlternateView(language, ruPast) then
      seq(6, i requires 0 <= i < 6 => page.stateName + PersonSuffixes[i])
    else if language == "Russian" then RussianPastTenses
    else page.swedishTenses[..4]
  }

  /** There is one tense per slot key, and the 2x2 grid (four slots) is used
      exactly for Swedish and for Russian in the past. */
  lemma TenseIdsMatchButtons(language: string, ruPast: bool, page: ConjugationPage)
    requires PageFits(language, page)
    ensures |TenseIds(language, ruPast, page)| == |ConjugationButtons(AlternateView(language, ruPast))|
    ensures |TenseIds(language, ruPast, page)| == 4 <==> language == "Swedish" || (language == "Russian" && ruPast)
    ensures |TenseIds(language, ruPast, page)| == 6 <==> !(language == "Swedish" || (language == "Russian" && ruPast))
  {
  }

  /** In the 3x2 grid the identifiers are the state name followed by the
      person and number, and no two slots share one. */
  lemma ThreeByTwoIds(language: string, ruPast: bool, page: ConjugationPage)
    requires PageFits(language, page)
    requires !AlternateView(language, ruPast)
    ensures forall i :: 0 <= i < 6 ==> TenseIds(language, ruPast, page)[i] == page.stateName + PersonSuffixes[i]
    ensures forall i, j :: 0 <= i < j < 6 ==> TenseIds(language, ruPast, page)[i] != TenseIds(language, ruPast, page)[j]
  {
    var ids := TenseIds(language, ruPast, page);
    forall i, j | 0 <= i < j < 6 ensures ids[i] != ids[j] {
      var n := |page.stateName|;
      assert ids[i][n..] == PersonSuffixes[i];
      assert ids[j][n..] == PersonSuffixes[j];
    }
  }

  // ---------------------------------------------------------------------------
  // Slot texts
  // ---------------------------------------------------------------------------

  function UpperAscii(c: char): char
  {
    if 'a' <= c <= 'z' then (c as int - 32) as char else c
  }

  function LowerAscii(c: char): char
  {
    if 'A' <= c <= 'Z' then (c as int + 32) as char else c
  }

  /** Position `i` of `s` starts a word. */
  predicate WordStart(s: string, i: int)
    requires 0 <= i < |s|
  {
    i == 0 || s[i - 1] == ' '
  }

  /** Each word with its first letter upper case and the rest lower case
      (letters outside ASCII unchanged): no word starts with a lower-case
      ASCII letter, no upper-case ASCII letter is left inside a word, and
      every character is the original one up to ASCII case. */
  function Capitalized(s: string): (r: string)
    ensures |r| == |s|
    ensures forall i :: 0 <= i < |s| ==> CaseFits(s, i, r[i])
  {
    var r := seq(|s|, i requires 0 <= i < |s| => if WordStart(s, i) then UpperAscii(s[i]) else LowerAscii(s[i]));
    assert forall i :: 0 <= i < |s| ==> CaseFits(s, i, r[i]) by {
      forall i | 0 <= i < |s| ensures CaseFits(s, i, r[i]) {
        CaseMapped(s[i]);
      }
    }
    r
  }

  /** `d` can stand at position `i` of the capitalized `s`: it is `s[i]` up to
      ASCII case, upper case at a word start and lower case inside a word. */
  predicate CaseFits(s: string, i: int, d: char)
    requires 0 <= i < |s|
  {
    && LowerAscii(d) == LowerAscii(s[i])
    && (WordStart(s, i) ==> !('a' <= d <= 'z'))
    && (!WordStart(s, i) ==> !('A' <= d <= 'Z'))
  }

  /** Upper-casing leaves no lower-case letter, lower-casing no upper-case
      one, and both agree with the character up to case. */
  lemma CaseMapped(c: char)
    ensures !('a' <= UpperAscii(c) <= 'z') && LowerAscii(UpperAscii(c)) == LowerAscii(c)
    ensures !('A' <= LowerAscii(c) <= 'Z') && LowerAscii(LowerAscii(c)) == LowerAscii(c)
  {
  }

  /** The case rules pin the capitalized text down: any text of the same
      length meeting them at every position is `Capitalized(s)`. */
  lemma {:induction false} CapitalizedUnique(s: string, t: string)
    requires |t| == |s|
    requires forall i :: 0 <= i < |s| ==> CaseFits(s, i, t[i])
    ensures t == Capitalized(s)
  {
    var r := Capitalized(s);
    forall i | 0 <= i < |s| ensures t[i] == r[i] {
      CaseDetermined(s[i], t[i], WordStart(s, i));
      CaseDetermined(s[i], r[i], WordStart(s, i));
    }
  }

  /** A character fitting the case rule at a position is the one the rule
      maps the original to. */
  lemma CaseDetermined(c: char, d: char, start: bool)
    requires LowerAscii(d) == LowerAscii(c)
    requires start ==> !('a' <= d <= 'z')
    requires !start ==> !('A' <= d <= 'Z')
    ensures d == if start then UpperAscii(c) else LowerAscii(c)
  {
  }

  /** Capitalizing twice changes nothing more: the spaces, and so the word
      starts, are where they were. */
  lemma CapitalizedIdempotent(s: string)
    ensures Capitalized(Capitalized(s)) == Capitalized(s)
  {
    var r := Capitalized(s);
    forall i | 0 <= i < |s| ensures WordStart(r, i) == WordStart(s, i) {
      if i > 0 {
        assert r[i - 1] == ' ' <==> s[i - 1] == ' ';
      }
    }
    forall i | 0 <= i < |s| ensures Capitalized(r)[i] == r[i] {
      assert WordStart(r, i) == WordStart(s, i);
    }
  }

  /** The text of one slot: the not-found message for an empty form, else
      the form, capitalized when the typed verb was capitalized, except in
      the German indicative perfect. */
  function SlotText(form: string, inputWordIsCapitalized: bool, indicativePerfect: bool,
                    invalidCommandMsg: string): string
  {
    if form == "" then invalidCommandMsg
    else if inputWordIsCapitalized && !indicativePerfect then Capitalized(form)
    else form
  }

  /** Every tense of the grid has an entry in the verb's forms. */
  predicate FormsCover(tenses: seq<string>, forms: map<string, string>)
  {
    forall i :: 0 <= i < |tenses| ==> tenses[i] in forms
  }

  /** The texts of all slots of the grid. */
  function ConjugationDisplay(tenses: seq<string>, forms: map<string, string>, inputWordIsCapitalized: bool,
                              indicativePerfect: bool, invalidCommandMsg: string): (display: seq<string>)
    requires FormsCover(tenses, forms)
    ensures |display| == |tenses|
  {
    seq(|tenses|, i requires 0 <= i < |tenses| =>
      SlotText(forms[tenses[i]], inputWordIsCapitalized, indicativePerfect, invalidCommandMsg))
  }

  /** The loop that fills the grid, slot by slot. */
  method FillConjugationSlots(tenses: seq<string>, forms: map<string, string>, inputWordIsCapitalized: bool,
                              indicativePerfect: bool, invalidCommandMsg: string) returns (display: seq<string>)
    requires FormsCover(tenses, forms)
    ensures display == ConjugationDisplay(tenses, forms, inputWordIsCapitalized, indicativePerfect, invalidCommandMsg)
  {
    display := [];
    for index := 0 to |tenses|
      invariant |display| == index
      invariant forall k :: 0 <= k < index ==>
        display[k] == SlotText(forms[tenses[k]], inputWordIsCapitalized, indicativePerfect, invalidCommandMsg)
    {
      var text: string;
      if forms[tenses[index]] == "" {
        text := invalidCommandMsg;
      } else {
        text := forms[tenses[index]];
        if inputWordIsCapitalized && !indicativePerfect {
          text := Capitalized(text);
        }
      }
      display := display + [text];
    }
  }

  /** A slot shows the not-found message when its form is empty; otherwise
      it shows the form itself, or the form capitalized exactly when the typed
      verb was capitalized outside the indicative perfect. */
  lemma SlotShows(tenses: seq<string>, forms: map<string, string>, inputWordIsCapitalized: bool,
                  indicativePerfect: bool, invalidCommandMsg: string, i: int)
    requires FormsCover(tenses, forms) && 0 <= i < |tenses|
    ensures var shown := ConjugationDisplay(tenses, forms, inputWordIsCapitalized, indicativePerfect, invalidCommandMsg)[i];
      && (forms[tenses[i]] == "" ==> shown == invalidCommandMsg)
      && (forms[tenses[i]] != "" && (!inputWordIsCapitalized || indicativePerfect) ==> shown == forms[tenses[i]])
      && (forms[tenses[i]] != "" && inputWordIsCapitalized && !indicativePerfect ==> shown == Capitalized(forms[tenses[i]]))
  {
  }

  /** Changing the form of one tense changes only the slots showing that tense. */
  lemma DisplayLocality(tenses: seq<string>, forms: map<string, string>, t: string, v: string,
                        inputWordIsCapitalized: bool, indicativePerfect: bool, invalidCommandMsg: string)
    requires FormsCover(tenses, forms)
    ensures FormsCover(tenses, forms[t := v])
    ensures forall i :: 0 <= i < |tenses| && tenses[i] != t ==>
      ConjugationDisplay(tenses, forms[t := v], inputWordIsCapitalized, indicativePerfect, invalidCommandMsg)[i]
      == ConjugationDisplay(tenses, forms, inputWordIsCapitalized, indicativePerfect, invalidCommandMsg)[i]
  {
  }

  // ---------------------------------------------------------------------------
  // Preposition annotation labels
  // ---------------------------------------------------------------------------

  /** The decimal digit of 0 <= d <= 9. */
  function Digit(d: int): char
    requires 0 <= d <= 9
  {
    ('0' as int + d) as char
  }

  /** The four preposition-annotation labels that follow `nounAnnotations`
      noun annotations (at most two): group 1, 2 or 3. Any other count gets
      no labels. */
  function PrepAnnotationLabels(nounAnnotations: int): (labels: seq<string>)
    ensures 0 <= nounAnnotations <= 2 ==> |labels| == 4 && forall i :: 0 <= i < 4 ==>
      labels[i] == "prepAnnotation" + [Digit(nounAnnotations + 1), Digit(i + 1)]
    ensures !(0 <= nounAnnotations <= 2) ==> labels == []
  {
    if nounAnnotations == 0 then
      ["prepAnnotation11", "prepAnnotation12", "prepAnnotation13", "prepAnnotation14"]
    else if nounAnnotations == 1 then
      ["prepAnnotation21", "prepAnnotation22", "prepAnnotation23", "prepAnnotation24"]
    else if nounAnnotations == 2 then
      ["prepAnnotation31", "prepAnnotation32", "prepAnnotation33", "prepAnnotation34"]
    else []
  }
}
