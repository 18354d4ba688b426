/** The keyboard's state machine, as functions from one session state to the
    next: the key handler of every logical key, the double-tap handler, and
    the helpers they share (reloading the keys, clearing the command bar,
    deleting, auto-capitalization). */
module KeyboardSession {
  import opened Interface
  import opened CommandText
  import opened Conjugation

  // ---------------------------------------------------------------------------
  // State
  // ---------------------------------------------------------------------------

  /** The command-mode flags: a command is being typed, the Scribe key is
      armed (the command keys are shown), which query the return key answers,
      and whether a translation has switched the input method (only the flag;
      the switched layout itself is not modelled). */
  datatype Mode = Mode(
    commandState: bool,
    scribeKeyState: bool,
    getTranslation: bool,
    getConjugation: bool,
    getPlural: bool,
    switchInput: bool)

  /** The conjugation query: whether its view is shown, the Russian and
      German conjugation states (`ruPast` stands for the Russian state being
      the past, `indicativePerfect` for the German one being the indicative
      perfect), the page on display, and the verb's forms. */
  datatype View = View(
    conjugateView: bool,
    ruPast: bool,
    indicativePerfect: bool,
    page: ConjugationPage,
    verbForms: map<string, string>,
    inputWordIsCapitalized: bool)

  /** What the last reload of the keys put on screen: the key rows, the grid
      choice, and the tenses and texts of the grid's slots. */
  datatype Display = Display(
    keyboard: Layout,
    conjugateAlternateView: bool,
    allTenses: seq<string>,
    conjugationDisplay: seq<string>)

  /** The controller-wide state the key handlers read and write. `document`
      is the host's text before the cursor. */
  datatype Session = Session(
    keyboardState: KeyboardState,
    shiftButtonState: ShiftState,
    mode: Mode,
    invalidState: bool,
    isAlreadyPluralState: bool,
    capsLockPossible: bool,
    doubleSpacePeriodPossible: bool,
    document: string,
    commandBar: string,
    nounAnnotationsToDisplay: int,
    view: View,
    display: Display)

  /** What the handlers read but never write: the language's interface
      globals, the keyboard's language, and whether the host reports an empty
      text before the cursor as nil (rather than as the empty string). */
  datatype Env = Env(cfg: LayoutConfig, language: string, emptyContextIsNil: bool)

  /** The host reports the text before the cursor as nil. */
  predicate ContextIsNil(env: Env, document: string)
  {
    env.emptyContextIsNil && document == []
  }

  /** The host reports the text before the cursor with a count of zero. */
  predicate ContextCountIsZero(env: Env, document: string)
  {
    !env.emptyContextIsNil && document == []
  }

  // ---------------------------------------------------------------------------
  // What the query functions report
  // ---------------------------------------------------------------------------

  datatype PluralResult = PluralFound(plural: string) | PluralNotFound | AlreadyPlural(message: string)

  /** The answer of the function a key calls into: a translation, a verb's
      conjugation table, a plural, a new conjugation page, or the conjugated
      form a slot key commits. */
  datatype Answer =
    | NoAnswer
    | TranslationAnswer(found: bool, translation: string)
    | ConjugationAnswer(verbFound: bool, forms: map<string, string>, capitalized: bool, firstPage: ConjugationPage)
    | PluralAnswer(result: PluralResult)
    | PageTurn(newRuPast: bool, newIndicativePerfect: bool, newPage: ConjugationPage)
    | Committed(text: string)

  /** The verb's forms cover every tense either grid of the page can show. */
  predicate ViewReady(env: Env, page: ConjugationPage, forms: map<string, string>)
  {
    && PageFits(env.language, page)
    && FormsCover(TenseIds(env.language, false, page), forms)
    && FormsCover(TenseIds(env.language, true, page), forms)
  }

  /** The conjugation view, when shown, can be filled. */
  predicate ViewShowable(env: Env, v: View)
  {
    v.conjugateView ==> ViewReady(env, v.page, v.verbForms)
  }

  // ---------------------------------------------------------------------------
  // Shared helpers
  // ---------------------------------------------------------------------------

  /** The layout of a keyboard layer. */
  function LayerKeys(cfg: LayoutConfig, state: KeyboardState): Layout
  {
    match state
    case Letters => cfg.letterKeys
    case Numbers => cfg.numberKeys
    case Symbols => cfg.symbolKeys
  }

  /** The conjugation view's title and slots for the current page. */
  function SetConjugationState(env: Env, s: Session): (r: Session)
    requires ViewReady(env, s.view.page, s.view.verbForms)
    ensures r == s.(commandBar := r.commandBar, display := r.display)
    ensures r.commandBar == s.view.page.title
    ensures r.display.keyboard == s.display.keyboard
    ensures r.display.allTenses == TenseIds(env.language, s.view.ruPast, s.view.page)
  {
    var tenses := TenseIds(env.language, s.view.ruPast, s.view.page);
    var shown := ConjugationDisplay(tenses, s.view.verbForms, s.view.inputWordIsCapitalized,
                                    s.view.indicativePerfect, env.cfg.invalidCommandMsg);
    s.(commandBar := s.view.page.title, display := s.display.(allTenses := tenses, conjugationDisplay := shown))
  }

  /** The state effects of reloading the keys: the grid choice, the invalid
      flag cleared, the layer's layout, auto-capitalization at the start of an
      empty text, and the command bar emptied or filled with the conjugation
      view. Nothing else changes. */
  function LoadKeys(env: Env, s: Session): (r: Session)
    requires ViewShowable(env, s.view)
    ensures r == s.(invalidState := false, shiftButtonState := r.shiftButtonState,
                    commandBar := r.commandBar, display := r.display)
    ensures r.shiftButtonState ==
      if s.keyboardState == Letters && ContextCountIsZero(env, s.document) then Shift else s.shiftButtonState
    ensures r.display.keyboard == LayerKeys(env.cfg, s.keyboardState)
    ensures !s.view.conjugateView && (s.mode.scribeKeyState || s.mode.commandState) ==> r.commandBar == s.commandBar
    ensures !s.view.conjugateView && !s.mode.scribeKeyState && !s.mode.commandState ==> r.commandBar == ""
    ensures s.view.conjugateView ==> r.commandBar == s.view.page.title
  {
    var autoCap := s.keyboardState == Letters && ContextCountIsZero(env, s.document);
    var shown := s.display.(keyboard := LayerKeys(env.cfg, s.keyboardState),
                            conjugateAlternateView := AlternateView(env.language, s.view.ruPast));
    var s2 := s.(invalidState := false, display := shown,
                 shiftButtonState := if autoCap then Shift else s.shiftButtonState);
    if !s2.view.conjugateView then
      s2.(commandBar := if !s2.mode.scribeKeyState && !s2.mode.commandState then "" else s2.commandBar)
    else SetConjugationState(env, s2)
  }

  /** Outside a command the command bar shows a single space. */
  function ClearCommandBar(s: Session): (r: Session)
    ensures r == s.(commandBar := r.commandBar)
    ensures r.commandBar == if s.mode.commandState then s.commandBar else " "
  {
    s.(commandBar := if !s.mode.commandState then " " else s.commandBar)
  }

  /** Shift is set when the text before the cursor is empty. */
  function AutoCapAtStartOfProxy(env: Env, s: Session): (r: Session)
    requires ViewShowable(env, s.view)
    ensures r.keyboardState == s.keyboardState && r.mode == s.mode && r.view == s.view
    ensures r.document == s.document && r.nounAnnotationsToDisplay == s.nounAnnotationsToDisplay
    ensures r.capsLockPossible == s.capsLockPossible && r.doubleSpacePeriodPossible == s.doubleSpacePeriodPossible
    ensures r.isAlreadyPluralState == s.isAlreadyPluralState
    ensures r.shiftButtonState == if s.document == [] && s.shiftButtonState == Normal then Shift else s.shiftButtonState
    ensures !s.view.conjugateView && (s.mode.scribeKeyState || s.mode.commandState) ==> r.commandBar == s.commandBar
  {
    if s.document == [] && s.shiftButtonState == Normal then
      var t := s.(shiftButtonState := Shift);
      LoadKeys(env, t)
    else s
  }

  function ChangeKeyboardToLetterKeys(env: Env, s: Session): (r: Session)
    requires ViewShowable(env, s.view)
  {
    var t := s.(keyboardState := Letters);
    LoadKeys(env, t)
  }

  function ChangeKeyboardToNumberKeys(env: Env, s: Session): (r: Session)
    requires ViewShowable(env, s.view)
  {
    var t := s.(keyboardState := Numbers, shiftButtonState := Normal);
    LoadKeys(env, t)
  }

  function ChangeKeyboardToSymbolKeys(env: Env, s: Session): (r: Session)
    requires ViewShowable(env, s.view)
  {
    var t := s.(keyboardState := Symbols);
    LoadKeys(env, t)
  }

  /** Deletes in the document outside a command, else in front of the
      cursor unless the command bar holds just a prompt (or nothing). */
  function HandleDeleteButtonPressed(env: Env, s: Session): (r: Session)
    ensures r == s.(document := r.document, commandBar := r.commandBar)
    ensures !s.mode.commandState ==> r.document == DropLast(s.document) && r.commandBar == s.commandBar
    ensures s.mode.commandState ==> r.document == s.document
    ensures s.mode.commandState && s.commandBar in env.cfg.allPrompts ==> r.commandBar == s.commandBar
    ensures s.mode.commandState && s.commandBar !in env.cfg.allPrompts && EndsWith(s.commandBar, env.cfg.commandCursor)
            && s.commandBar != "" ==>
      EndsWith(r.commandBar, env.cfg.commandCursor) &&
      Body(r.commandBar, env.cfg.commandCursor) == DropLast(Body(s.commandBar, env.cfg.commandCursor))
  {
    if !s.mode.commandState then s.(document := DropLast(s.document))
    else if s.commandBar !in env.cfg.allPrompts && s.commandBar != "" then
      s.(commandBar := DeletePriorToCursor(s.commandBar, env.cfg.commandCursor))
    else s
  }

  /** No command, no armed Scribe key, no pending query. */
  const Idle: Mode := Mode(false, false, false, false, false, false)

  // ---------------------------------------------------------------------------
  // The invariant
  // ---------------------------------------------------------------------------

  /** A command is on exactly when one query is pending; only a translation
      switches the input; an armed Scribe key means no command. */
  predicate ModeValid(m: Mode)
  {
    && (m.commandState <==> m.getTranslation || m.getConjugation || m.getPlural)
    && (m.getTranslation ==> !m.getConjugation && !m.getPlural)
    && (m.getConjugation ==> !m.getPlural)
    && (m.switchInput ==> m.getTranslation)
    && (m.scribeKeyState ==> !m.commandState)
  }

  /** The flags and buffers agree: the mode flags agree; the armed Scribe
      key, a command and the conjugation view exclude each other; the view
      can be filled; a command's text ends in the cursor marker; and no
      already-plural report is pending. */
  predicate Consistent(env: Env, s: Session)
  {
    && PromptsWellFormed(env.cfg)
    && ModeValid(s.mode)
    && (s.mode.scribeKeyState ==> !s.view.conjugateView)
    && (s.view.conjugateView ==> !s.mode.commandState)
    && ViewShowable(env, s.view)
    && (s.mode.commandState ==> EndsWith(s.commandBar, env.cfg.commandCursor))
    && !s.isAlreadyPluralState
  }

  /** What holds between key presses, except for what the conjugation view
      shows: the flags and buffers agree, no failure is left to report, and
      the keys on screen are those of the current layer. */
  predicate Steady(env: Env, s: Session)
  {
    && Consistent(env, s)
    && !s.invalidState
    && s.display.keyboard == LayerKeys(env.cfg, s.keyboardState)
  }

  /** The conjugation view, when shown, has the page's title in the command
      bar and the page's tenses in its slots. */
  predicate ShowsPage(env: Env, s: Session)
    requires ViewShowable(env, s.view)
  {
    s.view.conjugateView ==>
      && s.commandBar == s.view.page.title
      && s.display.allTenses == TenseIds(env.language, s.view.ruPast, s.view.page)
  }

  /** What holds between key presses. */
  predicate Valid(env: Env, s: Session)
  {
    Steady(env, s) && ShowsPage(env, s)
  }

  // ---------------------------------------------------------------------------
  // Keys
  // ---------------------------------------------------------------------------

  /** What a key name does, in the order the key switch tries the names. */
  datatype KeyAction =
    | ScribeKey | TranslateKey | ConjugateKey | PluralKey
    | PageLeft | PageRight | SlotKey
    | DeleteKey | SpaceKey | SelectKeyboard | HideKeyboard | ReturnKey
    | NumbersKey | SymbolsKey | LettersKey | ApostropheKey | ShiftKey | Literal

  function Classify(key: string, spaceBar: string): KeyAction
  {
    if key == "Scribe" then ScribeKey
    else if key == "Translate" then TranslateKey
    else if key == "Conjugate" then ConjugateKey
    else if key == "Plural" then PluralKey
    else if key == "shiftConjugateLeft" then PageLeft
    else if key == "shiftConjugateRight" then PageRight
    else if key in ThreeByTwoKeys || key in TwoByTwoKeys then SlotKey
    else if key == "delete" then DeleteKey
    else if key == spaceBar then SpaceKey
    else if key == "selectKeyboard" then SelectKeyboard
    else if key == "hideKeyboard" then HideKeyboard
    else if key == "return" then ReturnKey
    else if key == "123" || key == ".?123" then NumbersKey
    else if key == "#+=" then SymbolsKey
    else if key == "ABC" || key == "АБВ" then LettersKey
    else if key == "'" then ApostropheKey
    else if key == "shift" then ShiftKey
    else Literal
  }

  /** The languages whose conjugation views can be paged. */
  const PagingLanguages: seq<string> := ["French", "German", "Portuguese", "Russian", "Spanish", "Swedish"]

  /** What every key press does first: the caps-lock and double-space
      shortcuts are forgotten unless the key is shift or the space bar, and
      the Russian view goes back to the present. */
  function BeforeKey(env: Env, s: Session, key: string): Session
  {
    s.(capsLockPossible := if key != "shift" then false else s.capsLockPossible,
       doubleSpacePeriodPossible := if key != env.cfg.spaceBar then false else s.doubleSpacePeriodPossible,
       view := s.view.(ruPast := false))
  }

  function ScribePressed(env: Env, s: Session, hasSelection: bool): Session
    requires ViewShowable(env, s.view)
  {
    var m := s.mode;
    var escapes := !hasSelection && !m.commandState && (m.scribeKeyState || s.view.conjugateView);
    var mode :=
      if hasSelection && !m.commandState then m.(scribeKeyState := false)
      else if m.commandState then Idle
      else if !m.scribeKeyState && !s.view.conjugateView then m.(scribeKeyState := true)
      else Idle;
    var t := s.(mode := mode, view := s.view.(conjugateView := if escapes then false else s.view.conjugateView));
    LoadKeys(env, t)
  }

  function TranslatePressed(env: Env, s: Session): Session
    requires ViewShowable(env, s.view)
  {
    var t := s.(mode := s.mode.(scribeKeyState := false, commandState := true, getTranslation := true,
                                switchInput := true), keyboardState := Letters);
    var u := LoadKeys(env, t);
    u.(commandBar := env.cfg.translatePromptAndCursor)
  }

  function ConjugatePressed(env: Env, s: Session): Session
    requires ViewShowable(env, s.view)
  {
    var t := s.(mode := s.mode.(scribeKeyState := false, commandState := true, getConjugation := true));
    var u := LoadKeys(env, t);
    u.(commandBar := env.cfg.conjugatePromptAndCursor)
  }

  function PluralPressed(env: Env, s: Session): Session
    requires ViewShowable(env, s.view)
  {
    var shift := if env.language == "German" && s.shiftButtonState == Normal then Shift else s.shiftButtonState;
    var t := s.(mode := s.mode.(scribeKeyState := false, commandState := true, getPlural := true),
                shiftButtonState := shift);
    var u := LoadKeys(env, t);
    u.(commandBar := env.cfg.pluralPromptAndCursor)
  }

  /** A page turn in the languages that page; what the page turn reports
      stands for the language's paging function. */
  predicate PageTurnFits(env: Env, s: Session, answer: Answer)
  {
    env.language in PagingLanguages ==> answer.PageTurn? && ViewReady(env, answer.newPage, s.view.verbForms)
  }

  function PagePressed(env: Env, s: Session, answer: Answer): Session
    requires ViewShowable(env, s.view) && PageTurnFits(env, s, answer)
  {
    var t := s.(view := TurnedView(env, s.view, answer));
    LoadKeys(env, t)
  }

  /** The view after a page turn: in the languages that page, the new page
      and (in Russian and German) the new conjugation state. */
  function TurnedView(env: Env, v: View, answer: Answer): View
    requires env.language in PagingLanguages ==> answer.PageTurn?
  {
    if env.language in PagingLanguages then
      v.(ruPast := if env.language == "Russian" then answer.newRuPast else v.ruPast,
         indicativePerfect := if env.language == "German" then answer.newIndicativePerfect else v.indicativePerfect,
         page := answer.newPage)
    else v
  }

  /** A slot key commits its conjugated form and closes the view. */
  function SlotPressed(env: Env, s: Session, answer: Answer): Session
  {
    var committed := if answer.Committed? then answer.text else "";
    var t := s.(document := s.document + committed, view := s.view.(conjugateView := false));
    LoadKeys(env, t)
  }

  /** Shift goes back to normal before a deletion or a typed character. */
  function Unshift(env: Env, s: Session): (r: Session)
    requires ViewShowable(env, s.view)
  {
    if s.shiftButtonState == Shift then
      var t := s.(shiftButtonState := Normal);
      LoadKeys(env, t)
    else s
  }

  function DeletePressed(env: Env, s: Session): Session
    requires ViewShowable(env, s.view)
  {
    var s1 := Unshift(env, s);
    if s1.mode.commandState && s1.commandBar in env.cfg.allPrompts then
      var t := s1.(shiftButtonState := Shift);
      LoadKeys(env, t)
    else
      var s2 := HandleDeleteButtonPressed(env, s1);
      var s3 := if ContextIsNil(env, s2.document) && !s2.mode.commandState
                   && s2.keyboardState == Letters && s2.shiftButtonState == Normal
                then var t := s2.(shiftButtonState := Shift); LoadKeys(env, t)
                else s2;
      ClearCommandBar(s3)
  }

  /** The sentence ends that make a following space set shift. */
  const SentenceEnds: seq<string> := [". ", "? ", "! "]

  /** The space typed into the document or in front of the cursor; shift
      follows a sentence end, and the keys go back to the letters. */
  function SpaceTyped(env: Env, s: Session): (r: Session)
    requires ViewShowable(env, s.view)
    ensures r.mode == s.mode && r.view == s.view
    ensures r.capsLockPossible == s.capsLockPossible && r.doubleSpacePeriodPossible == s.doubleSpacePeriodPossible
  {
    var cursor := env.cfg.commandCursor;
    var t :=
      if !s.mode.commandState then
        var doc := s.document + " ";
        s.(document := doc, shiftButtonState := if Suffix(doc, 2) in SentenceEnds then Shift else s.shiftButtonState)
      else
        var bar := InsertPriorToCursor(s.commandBar, cursor, " ");
        s.(commandBar := bar,
           shiftButtonState := if Suffix(bar, 3) in [". " + cursor, "? " + cursor, "! " + cursor]
                               then Shift else s.shiftButtonState);
    if t.keyboardState != Letters then ChangeKeyboardToLetterKeys(env, t) else t
  }

  /** After the space: annotations cleared outside a translation or
      conjugation, the command bar cleared after two spaces, and the
      double-space period made possible. */
  function AfterSpace(s: Session): Session
  {
    var s2 := s.(nounAnnotationsToDisplay :=
                   if !s.mode.getConjugation && !s.mode.getTranslation then 0 else s.nounAnnotationsToDisplay);
    var s3 := if Suffix(s2.document, 2) == "  " then ClearCommandBar(s2) else s2;
    s3.(doubleSpacePeriodPossible := true)
  }

  function SpacePressed(env: Env, s: Session): Session
    requires ViewShowable(env, s.view)
  {
    AfterSpace(SpaceTyped(env, s))
  }

  /** The conjugation lookup found the verb. */
  predicate ConjugationFound(answer: Answer)
  {
    answer.ConjugationAnswer? && answer.verbFound
  }

  /** A found verb's table covers its first page. */
  predicate ConjugationFits(env: Env, answer: Answer)
  {
    ConjugationFound(answer) ==> ViewReady(env, answer.firstPage, answer.forms)
  }

  /** A found translation is typed into the document; otherwise the command
      is invalid. */
  function Translated(s: Session, answer: Answer): (r: Session)
    ensures r.view == s.view && r.mode == s.mode
    ensures r.capsLockPossible == s.capsLockPossible && r.doubleSpacePeriodPossible == s.doubleSpacePeriodPossible
  {
    if answer.TranslationAnswer? && answer.found then s.(document := s.document + answer.translation)
    else s.(invalidState := true)
  }

  /** A found plural is typed into the document; a word that is already
      plural shows the language's message; otherwise the command is invalid. */
  function Pluralized(s: Session, answer: Answer): (r: Session)
    ensures r.view == s.view && r.mode == s.mode
    ensures r.capsLockPossible == s.capsLockPossible && r.doubleSpacePeriodPossible == s.doubleSpacePeriodPossible
  {
    if answer.PluralAnswer? && answer.result.PluralFound? then s.(document := s.document + answer.result.plural)
    else if answer.PluralAnswer? && answer.result.AlreadyPlural? then
      s.(commandBar := answer.result.message, invalidState := true, isAlreadyPluralState := true)
    else s.(invalidState := true)
  }

  /** A found verb opens the conjugation view at its first page, in the
      German indicative present; otherwise the command is invalid. */
  function Conjugated(env: Env, s: Session, answer: Answer): (r: Session)
    requires ConjugationFits(env, answer)
    ensures ViewShowable(env, s.view) || ConjugationFound(answer) ==> ViewShowable(env, r.view)
    ensures r.mode == s.mode
    ensures r.capsLockPossible == s.capsLockPossible && r.doubleSpacePeriodPossible == s.doubleSpacePeriodPossible
  {
    if ConjugationFound(answer) then
      var t := s.(view := View(true, s.view.ruPast, false, answer.firstPage, answer.forms, answer.capitalized));
      LoadKeys(env, t)
    else s.(invalidState := true, view := s.view.(indicativePerfect := false))
  }

  /** The pending query answered, its flag cleared. */
  function Answered(env: Env, s: Session, answer: Answer): (r: Session)
    requires ViewShowable(env, s.view) && ConjugationFits(env, answer)
    ensures ViewShowable(env, r.view)
  {
    var m := s.mode;
    var s1 := if m.getTranslation && m.commandState
              then var t := Translated(s, answer); t.(mode := t.mode.(getTranslation := false, switchInput := false))
              else s;
    var s2 := if s1.mode.getConjugation && s1.mode.commandState
              then var t := Conjugated(env, s1, answer); t.(mode := t.mode.(getConjugation := false))
              else s1;
    if s2.mode.getPlural && s2.mode.commandState
    then var t := Pluralized(s2, answer); t.(mode := t.mode.(getPlural := false))
    else s2
  }

  /** A failed command closes and reports itself in the command bar (unless
      the word was already plural, whose message stays). */
  function ReportInvalid(env: Env, s: Session): Session
    requires ViewShowable(env, s.view)
  {
    var t := s.(mode := s.mode.(commandState := false));
    var t2 := if t.mode.switchInput then var u := t.(mode := t.mode.(switchInput := false)); LoadKeys(env, u) else t;
    var t3 := AutoCapAtStartOfProxy(env, t2);
    var bar := if !t3.isAlreadyPluralState then env.cfg.commandPromptSpacing + env.cfg.invalidCommandMsg
               else t3.commandBar;
    t3.(commandBar := bar, invalidState := false, isAlreadyPluralState := false)
  }

  /** A successful command closes. */
  function CloseCommand(env: Env, s: Session): Session
    requires ViewShowable(env, s.view)
  {
    var t := s.(mode := s.mode.(commandState := false));
    var u := LoadKeys(env, AutoCapAtStartOfProxy(env, ClearCommandBar(t)));
    u.(nounAnnotationsToDisplay := if !u.view.conjugateView then 0 else u.nounAnnotationsToDisplay)
  }

  /** The return key: answers a pending query, then either types a newline
      (no command), reports the failure (invalid), or closes the command. */
  function ReturnPressed(env: Env, s: Session, answer: Answer): Session
    requires ViewShowable(env, s.view) && ConjugationFits(env, answer)
  {
    var s3 := Answered(env, s, answer);
    if !s3.mode.commandState then
      var t := s3.(document := s3.document + "\n");
      ClearCommandBar(t)
    else if s3.invalidState then ReportInvalid(env, s3)
    else CloseCommand(env, s3)
  }

  function ApostrophePressed(env: Env, s: Session): Session
    requires ViewShowable(env, s.view)
  {
    var t := if !s.mode.commandState then s.(document := s.document + "'")
             else s.(commandBar := InsertPriorToCursor(s.commandBar, env.cfg.commandCursor, "'"));
    ClearCommandBar(ChangeKeyboardToLetterKeys(env, t))
  }

  function ShiftPressed(env: Env, s: Session): Session
    requires ViewShowable(env, s.view)
  {
    var t := s.(shiftButtonState := if s.shiftButtonState == Normal then Shift else Normal);
    var u := ClearCommandBar(LoadKeys(env, t));
    u.(capsLockPossible := true)
  }

  function LiteralPressed(env: Env, s: Session, keyToDisplay: string): Session
    requires ViewShowable(env, s.view)
  {
    var t := Unshift(env, s);
    if !t.mode.commandState then
      var u := t.(document := t.document + keyToDisplay);
      ClearCommandBar(u)
    else t.(commandBar := InsertPriorToCursor(t.commandBar, env.cfg.commandCursor, keyToDisplay))
  }

  /** The actions that can be taken in the current state, with the answers
      their query functions give: the command keys only while the Scribe key
      is armed, the paging and slot keys only in the conjugation view, and
      nothing but those and the Scribe key while the view is shown. */
  predicate Allowed(env: Env, s: Session, a: KeyAction, answer: Answer)
  {
    && (s.view.conjugateView ==> a.ScribeKey? || a.PageLeft? || a.PageRight? || a.SlotKey?)
    && (a.TranslateKey? || a.ConjugateKey? || a.PluralKey? ==> s.mode.scribeKeyState)
    && (a.PageLeft? || a.PageRight? || a.SlotKey? ==> s.view.conjugateView)
    && (a.PageLeft? || a.PageRight? ==> PageTurnFits(env, s, answer))
    && (a.ReturnKey? ==> ConjugationFits(env, answer))
  }

  /** The keys that can be pressed in the current state. */
  predicate Pressable(env: Env, s: Session, key: string, answer: Answer)
  {
    Allowed(env, s, Classify(key, env.cfg.spaceBar), answer)
  }

  /** The handler of a key's logical action, in the key switch's order. */
  function HandleKey(env: Env, s: Session, a: KeyAction, keyToDisplay: string,
                     hasSelection: bool, answer: Answer): Session
    requires ViewShowable(env, s.view) && Allowed(env, s, a, answer)
  {
    match a
    case ScribeKey => ScribePressed(env, s, hasSelection)
    case TranslateKey => TranslatePressed(env, s)
    case ConjugateKey => ConjugatePressed(env, s)
    case PluralKey => PluralPressed(env, s)
    case PageLeft => PagePressed(env, s, answer)
    case PageRight => PagePressed(env, s, answer)
    case SlotKey => SlotPressed(env, s, answer)
    case DeleteKey => DeletePressed(env, s)
    case SpaceKey => SpacePressed(env, s)
    case SelectKeyboard => s
    case HideKeyboard => s
    case ReturnKey => ReturnPressed(env, s, answer)
    case NumbersKey => ClearCommandBar(ChangeKeyboardToNumberKeys(env, s))
    case SymbolsKey => ClearCommandBar(ChangeKeyboardToSymbolKeys(env, s))
    case LettersKey => AutoCapAtStartOfProxy(env, ClearCommandBar(ChangeKeyboardToLetterKeys(env, s)))
    case ApostropheKey => ApostrophePressed(env, s)
    case ShiftKey => ShiftPressed(env, s)
    case Literal => LiteralPressed(env, s, keyToDisplay)
  }

  /** One key press: `key` is the key's name, `keyToDisplay` the text it
      types, `hasSelection` whether the host has text selected. */
  function ExecuteKeyActions(env: Env, s: Session, key: string, keyToDisplay: string,
                             hasSelection: bool, answer: Answer): Session
    requires ViewShowable(env, s.view) && Pressable(env, s, key, answer)
  {
    var s0 := BeforeKey(env, s, key);
    HandleKey(env, s0, Classify(key, env.cfg.spaceBar), keyToDisplay, hasSelection, answer)
  }

  // ---------------------------------------------------------------------------
  // Double taps
  // ---------------------------------------------------------------------------

  /** Characters before a space that cancel the double-space period. */
  const CancellingPunctuation: seq<char> := ['?', '!', ',', '.', ':', ';', '-']

  /** A double tap of shift while caps lock is possible locks caps. */
  function CapsLockTap(env: Env, s: Session, key: string, tapCount: int): Session
    requires ViewShowable(env, s.view)
  {
    if tapCount == 2 && key == "shift" && s.capsLockPossible then
      var t := s.(shiftButtonState := Caps);
      ClearCommandBar(LoadKeys(env, t))
    else s
  }

  /** Double taps reach only the shift key and the space bar, which the
      conjugation view hides. The
      cancellation check reads the character before the last one of the
      active text, which must then exist. */
  predicate MultiPressable(env: Env, s: Session, key: string)
  {
    && !s.view.conjugateView
    && (key == "shift" || key == env.cfg.spaceBar)
    && (key != "shift" && |s.document| != 1 && !s.mode.commandState ==> |s.document| >= 2)
    && (s.mode.commandState ==> |s.commandBar| >= 2)
  }

  /** The shortcut is cancelled by punctuation before the space. */
  function ShortcutCancelled(env: Env, s: Session, key: string): bool
    requires MultiPressable(env, s, key)
  {
    if key != "shift" && |s.document| != 1 && !s.mode.commandState then SecondToLast(s.document) in CancellingPunctuation
    else if s.mode.commandState then SecondToLast(s.commandBar) in CancellingPunctuation
    else false
  }

  /** The double-space period: the space just typed becomes ". " (in the
      document, or in front of the cursor), unless two spaces end the text. */
  function DoubleSpacePeriod(env: Env, s: Session): Session
    requires ViewShowable(env, s.view)
  {
    var cursor := env.cfg.commandCursor;
    var s2 :=
      if Suffix(s.document, 2) != "  " && !s.mode.commandState then
        var t := s.(document := DropLast(s.document) + ". ", keyboardState := Letters, shiftButtonState := Shift);
        LoadKeys(env, t)
      else if Suffix(s.commandBar, 2) != "  " && s.mode.commandState then
        var bar := InsertPriorToCursor(DeletePriorToCursor(s.commandBar, cursor), cursor, ". ");
        var t := s.(commandBar := bar, keyboardState := Letters, shiftButtonState := Shift);
        LoadKeys(env, t)
      else s;
    ClearCommandBar(s2)
  }

  /** A repeated tap: a double tap of shift locks caps; a double tap of the
      space bar turns the space just typed into ". ", unless cancelled. */
  function KeyMultiPress(env: Env, s: Session, key: string, tapCount: int): Session
    requires ViewShowable(env, s.view) && MultiPressable(env, CapsLockTap(env, s, key, tapCount), key)
  {
    var s1 := CapsLockTap(env, s, key, tapCount);
    var effectiveKey := if ShortcutCancelled(env, s1, key) then "Cancel shortcut" else key;
    if tapCount == 2 && effectiveKey == env.cfg.spaceBar && |s1.document| != 1 && s1.doubleSpacePeriodPossible then
      DoubleSpacePeriod(env, s1)
    else s1
  }
}
