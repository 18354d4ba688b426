/** The keyboard view controller: the state its key handlers update in
    place, one method per event. The command-mode flags, the conjugation
    view's state and what the last reload put on screen are kept as three
    record-valued fields (`mode`, `view`, `display`), updated field by field.
    Each method is proved to take the controller from a state to the state
    the matching function of `KeyboardSession` gives, and the key handlers to
    keep the invariant `KeyboardSession.Valid`. */
module KeyboardController {
  import opened Interface
  import opened CommandText
  import opened Conjugation
  import opened KeyboardSession
  import KeyboardProperties

  class KeyboardViewController {
    /** The language globals, the keyboard's language and how the host
        reports an empty text; no handler writes them. */
    const env: Env

    var keyboardState: KeyboardState
    var shiftButtonState: ShiftState
    /** `commandState`, `scribeKeyState`, the three query flags and
        `switchInput`. */
    var mode: Mode
    var invalidState: bool
    var isAlreadyPluralState: bool
    var capsLockPossible: bool
    var doubleSpacePeriodPossible: bool
    /** The host's text before the cursor. */
    var document: string
    var commandBar: string
    var nounAnnotationsToDisplay: int
    /** `conjugateView`, the Russian and German conjugation states, the page
        on display, the verb's forms and whether the verb was capitalized. */
    var view: View
    /** The key rows, the grid choice and the grid's tenses and texts. */
    var display: Display

    /** The fields, as the value the session functions take. */
    function Snapshot(): Session
      reads this
    {
      Session(keyboardState, shiftButtonState, mode, invalidState, isAlreadyPluralState,
        capsLockPossible, doubleSpacePeriodPossible, document, commandBar, nounAnnotationsToDisplay,
        view, display)
    }

    /** What holds between key presses. */
    ghost predicate Inv()
      reads this
    {
      Valid(env, Snapshot())
    }

    /** The conjugation view, when shown, can be filled. */
    predicate Showable()
      reads this
    {
      ViewShowable(env, view)
    }

    // -------------------------------------------------------------------------
    // Reloading the keys
    // -------------------------------------------------------------------------

    /** The view's title in the command bar and the slots of the current page,
        filled by the slot loop. */
    method SetConjugationState()
      requires ViewReady(env, view.page, view.verbForms)
      modifies this
      ensures Snapshot() == KeyboardSession.SetConjugationState(env, old(Snapshot()))
    {
      var tenses := TenseIds(env.language, view.ruPast, view.page);
      var shown := FillConjugationSlots(tenses, view.verbForms, view.inputWordIsCapitalized,
                                        view.indicativePerfect, env.cfg.invalidCommandMsg);
      commandBar := view.page.title;
      display := display.(allTenses := tenses, conjugationDisplay := shown);
    }

    /** The grid choice, the invalid flag cleared, the layer's keys on screen,
        and shift at the start of an empty text. */
    method ReloadLayer()
      modifies this
      ensures var s := old(Snapshot());
        Snapshot() == s.(invalidState := false,
                         display := s.display.(keyboard := LayerKeys(env.cfg, s.keyboardState),
                                               conjugateAlternateView := AlternateView(env.language, s.view.ruPast)),
                         shiftButtonState := if s.keyboardState == Letters && ContextCountIsZero(env, s.document)
                                             then Shift else s.shiftButtonState)
    {
      display := display.(conjugateAlternateView := AlternateView(env.language, view.ruPast),
                          keyboard := LayerKeys(env.cfg, keyboardState));
      invalidState := false;
      if keyboardState == Letters && ContextCountIsZero(env, document) {
        shiftButtonState := Shift;
      }
    }

    /** The state-changing part of reloading the keys. */
    method LoadKeys()
      requires Showable()
      modifies this
      ensures Snapshot() == KeyboardSession.LoadKeys(env, old(Snapshot()))
    {
      ReloadLayer();
      if !view.conjugateView {
        if !mode.scribeKeyState && !mode.commandState {
          commandBar := "";
        }
      } else {
        SetConjugationState();
      }
    }

    method ClearCommandBar()
      modifies this
      ensures Snapshot() == KeyboardSession.ClearCommandBar(old(Snapshot()))
    {
      if !mode.commandState {
        commandBar := " ";
      }
    }

    method HandleDeleteButtonPressed()
      modifies this
      ensures Snapshot() == KeyboardSession.HandleDeleteButtonPressed(env, old(Snapshot()))
    {
      if !mode.commandState {
        document := DropLast(document);
      } else if commandBar !in env.cfg.allPrompts && commandBar != "" {
        commandBar := DeletePriorToCursor(commandBar, env.cfg.commandCursor);
      }
    }

    method ChangeKeyboardToLetterKeys()
      requires Showable()
      modifies this
      ensures Snapshot() == KeyboardSession.ChangeKeyboardToLetterKeys(env, old(Snapshot()))
    {
      keyboardState := Letters;
      LoadKeys();
    }

    method ChangeKeyboardToNumberKeys()
      requires Showable()
      modifies this
      ensures Snapshot() == KeyboardSession.ChangeKeyboardToNumberKeys(env, old(Snapshot()))
    {
      keyboardState, shiftButtonState := Numbers, Normal;
      LoadKeys();
    }

    method ChangeKeyboardToSymbolKeys()
      requires Showable()
      modifies this
      ensures Snapshot() == KeyboardSession.ChangeKeyboardToSymbolKeys(env, old(Snapshot()))
    {
      keyboardState := Symbols;
      LoadKeys();
    }

    method AutoCapAtStartOfProxy()
      requires Showable()
      modifies this
      ensures Snapshot() == KeyboardSession.AutoCapAtStartOfProxy(env, old(Snapshot()))
    {
      if document == [] && shiftButtonState == Normal {
        ShiftAndLoad();
      }
    }

    /** Shift set and the keys reloaded. */
    method ShiftAndLoad()
      requires Showable()
      modifies this
      ensures Snapshot() == KeyboardSession.LoadKeys(env, old(Snapshot()).(shiftButtonState := Shift))
    {
      shiftButtonState := Shift;
      LoadKeys();
    }

    /** Shift goes back to normal before a deletion or a typed character. */
    method Unshift()
      requires Showable()
      modifies this
      ensures Snapshot() == KeyboardSession.Unshift(env, old(Snapshot()))
    {
      if shiftButtonState == Shift {
        shiftButtonState := Normal;
        LoadKeys();
      }
    }

    // -------------------------------------------------------------------------
    // Key handlers
    // -------------------------------------------------------------------------

    /** What every key press does first. */
    method BeforeKey(key: string)
      modifies this
      ensures Snapshot() == KeyboardSession.BeforeKey(env, old(Snapshot()), key)
    {
      if key != "shift" {
        capsLockPossible := false;
      }
      if key != env.cfg.spaceBar {
        doubleSpacePeriodPossible := false;
      }
      view := view.(ruPast := false);
    }

    method ScribePressed(hasSelection: bool)
      requires Showable()
      modifies this
      ensures Snapshot() == KeyboardSession.ScribePressed(env, old(Snapshot()), hasSelection)
    {
      ScribeMode(hasSelection);
      LoadKeys();
    }

    /** What the Scribe key does to the mode flags and the view: disarmed
        over a selection, an escape from a command, armed, or an escape from
        the armed key or the conjugation view. */
    method ScribeMode(hasSelection: bool)
      modifies this
      ensures var m := old(mode);
        var escapes := !hasSelection && !m.commandState && (m.scribeKeyState || old(view).conjugateView);
        && mode == (if hasSelection && !m.commandState then m.(scribeKeyState := false)
                    else if m.commandState then Idle
                    else if !m.scribeKeyState && !old(view).conjugateView then m.(scribeKeyState := true)
                    else Idle)
        && view == old(view).(conjugateView := if escapes then false else old(view).conjugateView)
      ensures Snapshot() == old(Snapshot()).(mode := mode, view := view)
    {
      if hasSelection && !mode.commandState {
        mode := mode.(scribeKeyState := false);
      } else if mode.commandState {
        mode := Idle;
      } else if !mode.scribeKeyState && !view.conjugateView {
        mode := mode.(scribeKeyState := true);
      } else {
        view := view.(conjugateView := false);
        mode := Idle;
      }
    }

    method TranslatePressed()
      requires Showable()
      modifies this
      ensures Snapshot() == KeyboardSession.TranslatePressed(env, old(Snapshot()))
    {
      mode := mode.(scribeKeyState := false, commandState := true, getTranslation := true, switchInput := true);
      keyboardState := Letters;
      LoadKeys();
      commandBar := env.cfg.translatePromptAndCursor;
    }

    method ConjugatePressed()
      requires Showable()
      modifies this
      ensures Snapshot() == KeyboardSession.ConjugatePressed(env, old(Snapshot()))
    {
      mode := mode.(scribeKeyState := false, commandState := true, getConjugation := true);
      LoadKeys();
      commandBar := env.cfg.conjugatePromptAndCursor;
    }

    method PluralPressed()
      requires Showable()
      modifies this
      ensures Snapshot() == KeyboardSession.PluralPressed(env, old(Snapshot()))
    {
      if env.language == "German" && shiftButtonState == Normal {
        shiftButtonState := Shift;
      }
      mode := mode.(scribeKeyState := false, commandState := true, getPlural := true);
      LoadKeys();
      commandBar := env.cfg.pluralPromptAndCursor;
    }

    /** A conjugation page turn; `answer` stands for what the language's
        paging function sets. */
    method PagePressed(answer: Answer)
      requires Showable() && PageTurnFits(env, Snapshot(), answer)
      modifies this
      ensures Snapshot() == KeyboardSession.PagePressed(env, old(Snapshot()), answer)
    {
      view := TurnedView(env, view, answer);
      LoadKeys();
    }

    /** A slot key; `answer` stands for the committed conjugation. */
    method SlotPressed(answer: Answer)
      modifies this
      ensures Snapshot() == KeyboardSession.SlotPressed(env, old(Snapshot()), answer)
    {
      if answer.Committed? {
        document := document + answer.text;
      }
      view := view.(conjugateView := false);
      LoadKeys();
    }

    method DeletePressed()
      requires Showable()
      modifies this
      ensures Snapshot() == KeyboardSession.DeletePressed(env, old(Snapshot()))
    {
      Unshift();
      if mode.commandState && commandBar in env.cfg.allPrompts {
        ShiftAndLoad();
      } else {
        DeleteOutsidePrompt();
      }
    }

    /** A deletion outside a protected prompt, with auto-capitalization when
        the host reports no text before the cursor. */
    method DeleteOutsidePrompt()
      requires Showable()
      modifies this
      ensures var s2 := KeyboardSession.HandleDeleteButtonPressed(env, old(Snapshot()));
        var s3 := if ContextIsNil(env, s2.document) && !s2.mode.commandState
                     && s2.keyboardState == Letters && s2.shiftButtonState == Normal
                  then KeyboardSession.LoadKeys(env, s2.(shiftButtonState := Shift))
                  else s2;
        Snapshot() == KeyboardSession.ClearCommandBar(s3)
    {
      HandleDeleteButtonPressed();
      if ContextIsNil(env, document) && !mode.commandState {
        if keyboardState == Letters && shiftButtonState == Normal {
          ShiftAndLoad();
        }
      }
      ClearCommandBar();
    }

    /** The space itself, in the document or in front of the cursor. */
    method SpaceTyped()
      requires Showable()
      modifies this
      ensures Snapshot() == KeyboardSession.SpaceTyped(env, old(Snapshot()))
    {
      if !mode.commandState {
        document := document + " ";
        if Suffix(document, 2) in SentenceEnds {
          shiftButtonState := Shift;
        }
      } else {
        var cursor := env.cfg.commandCursor;
        commandBar := InsertPriorToCursor(commandBar, cursor, " ");
        if Suffix(commandBar, 3) in [". " + cursor, "? " + cursor, "! " + cursor] {
          shiftButtonState := Shift;
        }
      }
      if keyboardState != Letters {
        ChangeKeyboardToLetterKeys();
      }
    }

    method SpacePressed()
      requires Showable()
      modifies this
      ensures Snapshot() == KeyboardSession.SpacePressed(env, old(Snapshot()))
    {
      SpaceTyped();
      AfterSpace();
    }

    method AfterSpace()
      modifies this
      ensures Snapshot() == KeyboardSession.AfterSpace(old(Snapshot()))
    {
      if !mode.getConjugation && !mode.getTranslation {
        nounAnnotationsToDisplay := 0;
      }
      if Suffix(document, 2) == "  " {
        ClearCommandBar();
      }
      doubleSpacePeriodPossible := true;
    }

    /** The translation query answered; `answer` stands for its result. */
    method ReturnTranslation(answer: Answer)
      modifies this
      ensures var t := Translated(old(Snapshot()), answer);
        Snapshot() == t.(mode := t.mode.(getTranslation := false, switchInput := false))
    {
      if answer.TranslationAnswer? && answer.found {
        document := document + answer.translation;
      } else {
        invalidState := true;
      }
      mode := mode.(getTranslation := false, switchInput := false);
    }

    /** The conjugation query answered, from the German indicative present;
        `answer` stands for its result. */
    method ReturnConjugation(answer: Answer)
      requires ConjugationFits(env, answer)
      modifies this
      ensures var t := Conjugated(env, old(Snapshot()), answer);
        Snapshot() == t.(mode := t.mode.(getConjugation := false))
    {
      view := view.(indicativePerfect := false);
      if ConjugationFound(answer) {
        OpenConjugationView(answer);
      } else {
        invalidState := true;
      }
      mode := mode.(getConjugation := false);
    }

    /** The found verb's view at its first page. */
    method OpenConjugationView(answer: Answer)
      requires ConjugationFound(answer) && ViewReady(env, answer.firstPage, answer.forms)
      modifies this
      ensures var s := old(Snapshot());
        Snapshot() == KeyboardSession.LoadKeys(env, s.(view :=
          View(true, s.view.ruPast, s.view.indicativePerfect, answer.firstPage, answer.forms, answer.capitalized)))
    {
      view := View(true, view.ruPast, view.indicativePerfect, answer.firstPage, answer.forms, answer.capitalized);
      LoadKeys();
    }

    /** The plural query answered; `answer` stands for its result. */
    method ReturnPlural(answer: Answer)
      modifies this
      ensures var t := Pluralized(old(Snapshot()), answer);
        Snapshot() == t.(mode := t.mode.(getPlural := false))
    {
      if answer.PluralAnswer? && answer.result.PluralFound? {
        document := document + answer.result.plural;
      } else if answer.PluralAnswer? && answer.result.AlreadyPlural? {
        commandBar := answer.result.message;
        invalidState := true;
        isAlreadyPluralState := true;
      } else {
        invalidState := true;
      }
      mode := mode.(getPlural := false);
    }

    /** The pending query answered and its flag cleared. */
    method Answered(answer: Answer)
      requires Showable() && ConjugationFits(env, answer)
      modifies this
      ensures Snapshot() == KeyboardSession.Answered(env, old(Snapshot()), answer)
    {
      if mode.getTranslation && mode.commandState {
        ReturnTranslation(answer);
      }
      if mode.getConjugation && mode.commandState {
        ReturnConjugation(answer);
      }
      if mode.getPlural && mode.commandState {
        ReturnPlural(answer);
      }
    }

    method ReportInvalid()
      requires Showable()
      modifies this
      ensures Snapshot() == KeyboardSession.ReportInvalid(env, old(Snapshot()))
    {
      EndCommand();
      AutoCapAtStartOfProxy();
      if !isAlreadyPluralState {
        commandBar := env.cfg.commandPromptSpacing + env.cfg.invalidCommandMsg;
      }
      invalidState := false;
      isAlreadyPluralState := false;
    }

    /** The command closed, and the input switched back if the translation
        switched it. */
    method EndCommand()
      requires Showable()
      modifies this
      ensures var t := old(Snapshot()).(mode := old(Snapshot()).mode.(commandState := false));
        Snapshot() == if t.mode.switchInput then KeyboardSession.LoadKeys(env, t.(mode := t.mode.(switchInput := false)))
                      else t
    {
      mode := mode.(commandState := false);
      if mode.switchInput {
        mode := mode.(switchInput := false);
        LoadKeys();
      }
    }

    method CloseCommand()
      requires Showable()
      modifies this
      ensures Snapshot() == KeyboardSession.CloseCommand(env, old(Snapshot()))
    {
      mode := mode.(commandState := false);
      ClearCommandBar();
      AutoCapAtStartOfProxy();
      LoadKeys();
      if !view.conjugateView {
        nounAnnotationsToDisplay := 0;
      }
    }

    /** The return key; `answer` stands for the pending query's result. */
    method ReturnPressed(answer: Answer)
      requires Showable() && ConjugationFits(env, answer)
      modifies this
      ensures Snapshot() == KeyboardSession.ReturnPressed(env, old(Snapshot()), answer)
    {
      Answered(answer);
      if !mode.commandState {
        document := document + "\n";
        ClearCommandBar();
      } else if invalidState {
        ReportInvalid();
      } else {
        CloseCommand();
      }
    }

    method ApostrophePressed()
      requires Showable()
      modifies this
      ensures Snapshot() == KeyboardSession.ApostrophePressed(env, old(Snapshot()))
    {
      if !mode.commandState {
        document := document + "'";
      } else {
        commandBar := InsertPriorToCursor(commandBar, env.cfg.commandCursor, "'");
      }
      ChangeKeyboardToLetterKeys();
      ClearCommandBar();
    }

    method ShiftPressed()
      requires Showable()
      modifies this
      ensures Snapshot() == KeyboardSession.ShiftPressed(env, old(Snapshot()))
    {
      shiftButtonState := if shiftButtonState == Normal then Shift else Normal;
      LoadKeys();
      ClearCommandBar();
      capsLockPossible := true;
    }

    /** Any other key types `keyToDisplay`. */
    method LiteralPressed(keyToDisplay: string)
      requires Showable()
      modifies this
      ensures Snapshot() == KeyboardSession.LiteralPressed(env, old(Snapshot()), keyToDisplay)
    {
      Unshift();
      if !mode.commandState {
        document := document + keyToDisplay;
        ClearCommandBar();
      } else {
        commandBar := InsertPriorToCursor(commandBar, env.cfg.commandCursor, keyToDisplay);
      }
    }

    /** The key switch, on the key's logical action. */
    method HandleKey(a: KeyAction, keyToDisplay: string, hasSelection: bool, answer: Answer)
      requires Showable() && Allowed(env, Snapshot(), a, answer)
      modifies this
      ensures Snapshot() == KeyboardSession.HandleKey(env, old(Snapshot()), a, keyToDisplay, hasSelection, answer)
    {
      match a
      case ScribeKey => ScribePressed(hasSelection);
      case TranslateKey => TranslatePressed();
      case ConjugateKey => ConjugatePressed();
      case PluralKey => PluralPressed();
      case PageLeft => PagePressed(answer);
      case PageRight => PagePressed(answer);
      case SlotKey => SlotPressed(answer);
      case DeleteKey => DeletePressed();
      case SpaceKey => SpacePressed();
      case SelectKeyboard =>
      case HideKeyboard =>
      case ReturnKey => ReturnPressed(answer);
      case NumbersKey =>
        ChangeKeyboardToNumberKeys();
        ClearCommandBar();
      case SymbolsKey =>
        ChangeKeyboardToSymbolKeys();
        ClearCommandBar();
      case LettersKey =>
        ChangeKeyboardToLetterKeys();
        ClearCommandBar();
        AutoCapAtStartOfProxy();
      case ApostropheKey => ApostrophePressed();
      case ShiftKey => ShiftPressed();
      case Literal => LiteralPressed(keyToDisplay);
    }

    /** One key press: the key named `key`, typing `keyToDisplay`, with
        `hasSelection` telling whether the host has text selected and
        `answer` standing for what the key's query function reports. The
        invariant is kept. */
    method ExecuteKeyActions(key: string, keyToDisplay: string, hasSelection: bool, answer: Answer)
      requires Showable() && Pressable(env, Snapshot(), key, answer)
      modifies this
      ensures Snapshot() == KeyboardSession.ExecuteKeyActions(env, old(Snapshot()), key, keyToDisplay, hasSelection, answer)
      ensures old(Inv()) ==> Inv()
    {
      ghost var s := Snapshot();
      BeforeKey(key);
      HandleKey(Classify(key, env.cfg.spaceBar), keyToDisplay, hasSelection, answer);
      if Valid(env, s) {
        KeyboardProperties.ExecuteKeepsValid(env, s, key, keyToDisplay, hasSelection, answer);
      }
    }

    // -------------------------------------------------------------------------
    // Double taps
    // -------------------------------------------------------------------------

    /** The double-space period, unless two spaces end the text. */
    method DoubleSpacePeriod()
      requires Showable()
      modifies this
      ensures Snapshot() == KeyboardSession.DoubleSpacePeriod(env, old(Snapshot()))
    {
      var cursor := env.cfg.commandCursor;
      if Suffix(document, 2) != "  " && !mode.commandState {
        RestartSentence(DropLast(document) + ". ", commandBar);
      } else if Suffix(commandBar, 2) != "  " && mode.commandState {
        RestartSentence(document, InsertPriorToCursor(DeletePriorToCursor(commandBar, cursor), cursor, ". "));
      }
      ClearCommandBar();
    }

    /** The texts with a sentence ended, then letters with shift set. */
    method RestartSentence(doc: string, bar: string)
      requires Showable()
      modifies this
      ensures Snapshot() == KeyboardSession.LoadKeys(env, old(Snapshot()).(document := doc, commandBar := bar,
                                                                           keyboardState := Letters, shiftButtonState := Shift))
    {
      document, commandBar := doc, bar;
      keyboardState, shiftButtonState := Letters, Shift;
      LoadKeys();
    }

    /** A double tap of shift while caps lock is possible locks caps. */
    method CapsLockTap(key: string, tapCount: int)
      requires Showable()
      modifies this
      ensures Snapshot() == KeyboardSession.CapsLockTap(env, old(Snapshot()), key, tapCount)
    {
      if tapCount == 2 && key == "shift" && capsLockPossible {
        shiftButtonState := Caps;
        LoadKeys();
        ClearCommandBar();
      }
    }

    /** A repeated tap of `key`, the `tapCount`-th in a row. The invariant is
        kept. */
    method KeyMultiPress(key: string, tapCount: int)
      requires Showable() && MultiPressable(env, KeyboardSession.CapsLockTap(env, Snapshot(), key, tapCount), key)
      modifies this
      ensures Snapshot() == KeyboardSession.KeyMultiPress(env, old(Snapshot()), key, tapCount)
      ensures old(Inv()) ==> Inv()
    {
      ghost var s := Snapshot();
      var originalKey := key;
      CapsLockTap(key, tapCount);
      if originalKey != "shift" && |document| != 1 && !mode.commandState {
        if SecondToLast(document) in CancellingPunctuation {
          originalKey := "Cancel shortcut";
        }
      } else if mode.commandState {
        if SecondToLast(commandBar) in CancellingPunctuation {
          originalKey := "Cancel shortcut";
        }
      }
      if tapCount == 2 && originalKey == env.cfg.spaceBar && |document| != 1 && doubleSpacePeriodPossible {
        DoubleSpacePeriod();
      }
      if Valid(env, s) {
        KeyboardProperties.MultiPressKeepsValid(env, s, key, tapCount);
      }
    }

    // -------------------------------------------------------------------------
    // Loading
    // -------------------------------------------------------------------------

    /** Loading the interface: letters, no command, no armed Scribe key, no
        conjugation view, and the keys reloaded. */
    method LoadInterface()
      modifies this
      ensures var s := old(Snapshot());
        Snapshot() == KeyboardSession.LoadKeys(env, s.(keyboardState := Letters,
          mode := s.mode.(switchInput := false, scribeKeyState := false, commandState := false),
          view := s.view.(conjugateView := false)))
    {
      keyboardState := Letters;
      mode := mode.(switchInput := false, scribeKeyState := false, commandState := false);
      view := view.(conjugateView := false);
      LoadKeys();
    }

    /** A controller over the host text `document` with the interface
        loaded: the letters, no command, no armed Scribe key, no conjugation
        view, an empty command bar, and shift set only at the start of a text
        the host reports as empty. It starts in the invariant. */
    constructor (env: Env, document: string)
      requires PromptsWellFormed(env.cfg)
      ensures this.env == env && this.document == document
      ensures keyboardState == Letters && mode == Idle && !view.conjugateView
      ensures shiftButtonState == if ContextCountIsZero(env, document) then Shift else Normal
      ensures commandBar == "" && display.keyboard == env.cfg.letterKeys
      ensures !invalidState && !capsLockPossible && !doubleSpacePeriodPossible
      ensures Inv()
    {
      this.env := env;
      keyboardState, shiftButtonState, mode := Letters, Normal, Idle;
      invalidState, isAlreadyPluralState, capsLockPossible, doubleSpacePeriodPossible := false, false, false, false;
      this.document, commandBar, nounAnnotationsToDisplay := document, " ", 0;
      view := View(false, false, false, ConjugationPage("", "", []), map[], false);
      display := Display([], false, [], []);
      new;
      ghost var s := Snapshot();
      LoadInterface();
      KeyboardProperties.LoadKeysValid(env, s);
    }
  }
}
