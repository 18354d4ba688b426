/** What the key handlers promise: the invariant they keep, and the effect of
    each key on the shift state, the shortcuts, the command flags and the two
    text buffers. */
module KeyboardProperties {
  import opened Interface
  import opened CommandText
  import opened Conjugation
  import opened KeyboardSession

  // ---------------------------------------------------------------------------
  // The invariant, key by key
  // ---------------------------------------------------------------------------

  /** The first thing a key press does keeps everything but what the view shows. */
  lemma BeforeKeySteady(env: Env, s: Session, key: string)
    requires Steady(env, s)
    ensures Steady(env, BeforeKey(env, s, key))
  {
  }

  /** Reloading the keys puts the current layer and (in the view) the current
      page on screen and clears the invalid flag. */
  lemma LoadKeysValid(env: Env, s: Session)
    requires Consistent(env, s)
    ensures Valid(env, LoadKeys(env, s))
  {
  }

  lemma ScribeKeepsValid(env: Env, s: Session, hasSelection: bool)
    requires Steady(env, s)
    ensures Valid(env, ScribePressed(env, s, hasSelection))
  {
  }

  lemma CommandKeysKeepValid(env: Env, s: Session)
    requires Steady(env, s) && s.mode.scribeKeyState
    ensures Valid(env, TranslatePressed(env, s))
    ensures Valid(env, ConjugatePressed(env, s))
    ensures Valid(env, PluralPressed(env, s))
  {
  }

  lemma PageKeepsValid(env: Env, s: Session, answer: Answer)
    requires Steady(env, s) && PageTurnFits(env, s, answer)
    ensures Valid(env, PagePressed(env, s, answer))
  {
  }

  lemma SlotKeepsValid(env: Env, s: Session, answer: Answer)
    requires Steady(env, s)
    ensures Valid(env, SlotPressed(env, s, answer))
  {
  }

  /** Shift going back to normal keeps the state steady and touches
      neither the flags nor the document nor a command's text. */
  lemma UnshiftSteady(env: Env, s: Session)
    requires Steady(env, s) && !s.view.conjugateView
    ensures var r := Unshift(env, s);
      && Steady(env, r) && r.mode == s.mode && r.view == s.view && r.document == s.document
      && (s.mode.commandState ==> r.commandBar == s.commandBar)
      && r.keyboardState == s.keyboardState
      && r.capsLockPossible == s.capsLockPossible && r.doubleSpacePeriodPossible == s.doubleSpacePeriodPossible
  {
  }

  lemma DeleteKeepsValid(env: Env, s: Session)
    requires Steady(env, s) && !s.view.conjugateView
    ensures Valid(env, DeletePressed(env, s))
  {
    var s1 := Unshift(env, s);
    UnshiftSteady(env, s);
    if s1.mode.commandState && s1.commandBar in env.cfg.allPrompts {
      LoadKeysValid(env, s1.(shiftButtonState := Shift));
    } else {
      var s2 := HandleDeleteButtonPressed(env, s1);
      assert Steady(env, s2);
      if ContextIsNil(env, s2.document) && !s2.mode.commandState
         && s2.keyboardState == Letters && s2.shiftButtonState == Normal {
        LoadKeysValid(env, s2.(shiftButtonState := Shift));
      }
    }
  }

  /** The typed space keeps the state steady. */
  lemma SpaceTypedSteady(env: Env, s: Session)
    requires Steady(env, s) && !s.view.conjugateView
    ensures var r := SpaceTyped(env, s);
      Steady(env, r) && !r.view.conjugateView && r.mode == s.mode
  {
    var cursor := env.cfg.commandCursor;
    var t :=
      if !s.mode.commandState then
        var doc := s.document + " ";
        s.(document := doc, shiftButtonState := if Suffix(doc, 2) in SentenceEnds then Shift else s.shiftButtonState)
      else
        var bar := InsertPriorToCursor(s.commandBar, cursor, " ");
        s.(commandBar := bar,
           shiftButtonState := if Suffix(bar, 3) in [". " + cursor, "? " + cursor, "! " + cursor]
                               then Shift else s.shiftButtonState);
    assert Consistent(env, t);
    if t.keyboardState != Letters {
      LoadKeysValid(env, t.(keyboardState := Letters));
    }
  }

  lemma SpaceKeepsValid(env: Env, s: Session)
    requires Steady(env, s) && !s.view.conjugateView
    ensures Valid(env, SpacePressed(env, s))
  {
    SpaceTypedSteady(env, s);
  }

  /** Outside a command the space is typed at the end of the document. */
  lemma SpaceTypedInDocument(env: Env, s: Session)
    requires ViewShowable(env, s.view) && !s.mode.commandState
    ensures var r := SpaceTyped(env, s);
      && r.document == s.document + " "
      && (Suffix(s.document + " ", 2) in SentenceEnds ==> r.shiftButtonState == Shift)
      && (r.shiftButtonState == Shift || r.shiftButtonState == s.shiftButtonState)
      && r.keyboardState == Letters
  {
  }

  /** Outside a command the space bar types a space at the end of the
      document; shift follows a sentence end (and is otherwise only ever set,
      never cleared), the keys go back to the letters, and the double-space
      period becomes possible. */
  lemma SpaceTypesInDocument(env: Env, s: Session)
    requires ViewShowable(env, s.view) && !s.mode.commandState
    ensures var r := SpacePressed(env, s);
      && r.document == s.document + " "
      && (Suffix(s.document + " ", 2) in SentenceEnds ==> r.shiftButtonState == Shift)
      && (r.shiftButtonState == Shift || r.shiftButtonState == s.shiftButtonState)
      && r.keyboardState == Letters && r.mode == s.mode && r.doubleSpacePeriodPossible
  {
    SpaceTypedInDocument(env, s);
  }

  /** During a command the space bar types a space in front of the cursor
      and leaves the document alone; shift follows a sentence end in the
      command bar, the keys go back to the letters, and the double-space
      period becomes possible. */
  lemma SpaceTypesInCommand(env: Env, s: Session)
    requires ViewShowable(env, s.view) && s.mode.commandState && !s.view.conjugateView
    ensures var r := SpacePressed(env, s);
      var cursor := env.cfg.commandCursor;
      && r.document == s.document
      && EndsWith(r.commandBar, cursor)
      && Body(r.commandBar, cursor) == Body(s.commandBar, cursor) + " "
      && (Suffix(r.commandBar, 3) in [". " + cursor, "? " + cursor, "! " + cursor] ==> r.shiftButtonState == Shift)
      && (r.shiftButtonState == Shift || r.shiftButtonState == s.shiftButtonState)
      && r.keyboardState == Letters && r.mode == s.mode && r.doubleSpacePeriodPossible
  {
  }

  /** The apostrophe is typed like a character and brings back the letters. */
  lemma ApostropheTypes(env: Env, s: Session)
    requires ViewShowable(env, s.view)
    ensures var r := ApostrophePressed(env, s);
      var cursor := env.cfg.commandCursor;
      && r.keyboardState == Letters && r.mode == s.mode
      && (!s.mode.commandState ==> r.document == s.document + "'" && r.commandBar == " ")
      && (s.mode.commandState && !s.view.conjugateView ==>
            && r.document == s.document
            && EndsWith(r.commandBar, cursor)
            && Body(r.commandBar, cursor) == Body(s.commandBar, cursor) + "'")
  {
  }

  /** The number key shows the numbers with shift off; it touches neither
      the document nor the mode. */
  lemma NumberKeysSwitch(env: Env, s: Session)
    requires ViewShowable(env, s.view)
    ensures var r := ClearCommandBar(ChangeKeyboardToNumberKeys(env, s));
      && r.keyboardState == Numbers && r.shiftButtonState == Normal
      && r.document == s.document && r.mode == s.mode
      && (!s.mode.commandState ==> r.commandBar == " ")
  {
  }

  /** The symbol key shows the symbols and keeps shift; it touches neither
      the document nor the mode. */
  lemma SymbolKeysSwitch(env: Env, s: Session)
    requires ViewShowable(env, s.view)
    ensures var r := ClearCommandBar(ChangeKeyboardToSymbolKeys(env, s));
      && r.keyboardState == Symbols && r.shiftButtonState == s.shiftButtonState
      && r.document == s.document && r.mode == s.mode
      && (!s.mode.commandState ==> r.commandBar == " ")
  {
  }

  /** The letter key shows the letters, with shift set at the start of an
      empty text; it touches neither the document nor the mode. */
  lemma LetterKeysSwitch(env: Env, s: Session)
    requires ViewShowable(env, s.view)
    ensures var r := AutoCapAtStartOfProxy(env, ClearCommandBar(ChangeKeyboardToLetterKeys(env, s)));
      && r.keyboardState == Letters && r.document == s.document && r.mode == s.mode
      && (s.document == [] ==> r.shiftButtonState != Normal)
      && (s.document != [] ==> r.shiftButtonState == s.shiftButtonState)
  {
  }

  /** Answering the pending query clears its flag (and the input switch),
      and leaves the command on; the view opens exactly for a found verb, and
      the command is marked already plural exactly for a plural query whose
      word is already plural. */
  lemma AnsweredKeepsCommand(env: Env, s: Session, answer: Answer)
    requires Steady(env, s) && !s.view.conjugateView && s.mode.commandState && ConjugationFits(env, answer)
    ensures var r := Answered(env, s, answer);
      && r.mode == s.mode.(getTranslation := false, getConjugation := false, getPlural := false, switchInput := false)
      && ViewShowable(env, r.view)
      && (r.isAlreadyPluralState ==> r.invalidState && !r.view.conjugateView)
      && (r.view.conjugateView <==> s.mode.getConjugation && ConjugationFound(answer))
      && (r.isAlreadyPluralState <==> s.mode.getPlural && answer.PluralAnswer? && answer.result.AlreadyPlural?)
      && (r.view.conjugateView ==> !r.invalidState && ShowsPage(env, r))
      && (!r.invalidState ==> EndsWith(r.commandBar, env.cfg.commandCursor) || r.view.conjugateView)
      && r.display.keyboard == LayerKeys(env.cfg, r.keyboardState)
  {
    var m := s.mode;
    if m.getTranslation {
      var t := Translated(s, answer);
      assert Answered(env, s, answer) == t.(mode := m.(getTranslation := false, switchInput := false));
    } else if m.getConjugation {
      var t := Conjugated(env, s, answer);
      assert Answered(env, s, answer) == t.(mode := m.(getConjugation := false));
    } else {
      var t := Pluralized(s, answer);
      assert Answered(env, s, answer) == t.(mode := m.(getPlural := false));
    }
  }

  lemma ReportInvalidValid(env: Env, s: Session)
    requires !s.mode.scribeKeyState && !s.mode.getTranslation && !s.mode.getConjugation && !s.mode.getPlural
    requires !s.mode.switchInput && !s.view.conjugateView && ViewShowable(env, s.view) && PromptsWellFormed(env.cfg)
    requires s.display.keyboard == LayerKeys(env.cfg, s.keyboardState)
    ensures Valid(env, ReportInvalid(env, s))
  {
  }

  lemma CloseCommandValid(env: Env, s: Session)
    requires !s.mode.scribeKeyState && !s.mode.getTranslation && !s.mode.getConjugation && !s.mode.getPlural
    requires !s.mode.switchInput && ViewShowable(env, s.view) && PromptsWellFormed(env.cfg) && !s.isAlreadyPluralState
    ensures Valid(env, CloseCommand(env, s))
  {
    var t := s.(mode := s.mode.(commandState := false));
    LoadKeysValid(env, AutoCapAtStartOfProxy(env, ClearCommandBar(t)));
  }

  lemma ReturnKeepsValid(env: Env, s: Session, answer: Answer)
    requires Steady(env, s) && !s.view.conjugateView && ConjugationFits(env, answer)
    ensures Valid(env, ReturnPressed(env, s, answer))
  {
    if s.mode.commandState {
      AnsweredKeepsCommand(env, s, answer);
      var s3 := Answered(env, s, answer);
      if s3.invalidState {
        ReportInvalidValid(env, s3);
      } else {
        CloseCommandValid(env, s3);
      }
    }
  }

  lemma LayerKeysKeepValid(env: Env, s: Session)
    requires Steady(env, s) && !s.view.conjugateView
    ensures Valid(env, ClearCommandBar(ChangeKeyboardToNumberKeys(env, s)))
    ensures Valid(env, ClearCommandBar(ChangeKeyboardToSymbolKeys(env, s)))
    ensures Valid(env, AutoCapAtStartOfProxy(env, ClearCommandBar(ChangeKeyboardToLetterKeys(env, s))))
  {
  }

  lemma ApostropheKeepsValid(env: Env, s: Session)
    requires Steady(env, s) && !s.view.conjugateView
    ensures Valid(env, ApostrophePressed(env, s))
  {
    var t := if !s.mode.commandState then s.(document := s.document + "'")
             else s.(commandBar := InsertPriorToCursor(s.commandBar, env.cfg.commandCursor, "'"));
    LoadKeysValid(env, t.(keyboardState := Letters));
  }

  lemma ShiftKeepsValid(env: Env, s: Session)
    requires Steady(env, s) && !s.view.conjugateView
    ensures Valid(env, ShiftPressed(env, s))
  {
    LoadKeysValid(env, s.(shiftButtonState := if s.shiftButtonState == Normal then Shift else Normal));
  }

  lemma LiteralKeepsValid(env: Env, s: Session, keyToDisplay: string)
    requires Steady(env, s) && !s.view.conjugateView
    ensures Valid(env, LiteralPressed(env, s, keyToDisplay))
  {
    UnshiftSteady(env, s);
  }

  /** Every key press that can happen keeps the invariant. */
  lemma HandleKeepsValid(env: Env, s: Session, a: KeyAction, keyToDisplay: string,
                         hasSelection: bool, answer: Answer)
    requires Steady(env, s) && Allowed(env, s, a, answer)
    ensures Valid(env, HandleKey(env, s, a, keyToDisplay, hasSelection, answer))
  {
    match a
    case ScribeKey => ScribeKeepsValid(env, s, hasSelection);
    case TranslateKey => CommandKeysKeepValid(env, s);
    case ConjugateKey => CommandKeysKeepValid(env, s);
    case PluralKey => CommandKeysKeepValid(env, s);
    case PageLeft => PageKeepsValid(env, s, answer);
    case PageRight => PageKeepsValid(env, s, answer);
    case SlotKey => SlotKeepsValid(env, s, answer);
    case DeleteKey => DeleteKeepsValid(env, s);
    case SpaceKey => SpaceKeepsValid(env, s);
    case SelectKeyboard =>
    case HideKeyboard =>
    case ReturnKey => ReturnKeepsValid(env, s, answer);
    case NumbersKey => LayerKeysKeepValid(env, s);
    case SymbolsKey => LayerKeysKeepValid(env, s);
    case LettersKey => LayerKeysKeepValid(env, s);
    case ApostropheKey => ApostropheKeepsValid(env, s);
    case ShiftKey => ShiftKeepsValid(env, s);
    case Literal => LiteralKeepsValid(env, s, keyToDisplay);
  }

  lemma ExecuteKeepsValid(env: Env, s: Session, key: string, keyToDisplay: string,
                          hasSelection: bool, answer: Answer)
    requires Valid(env, s) && Pressable(env, s, key, answer)
    ensures Valid(env, ExecuteKeyActions(env, s, key, keyToDisplay, hasSelection, answer))
  {
    BeforeKeySteady(env, s, key);
    HandleKeepsValid(env, BeforeKey(env, s, key), Classify(key, env.cfg.spaceBar), keyToDisplay, hasSelection, answer);
  }

  /** The double-space period keeps the invariant. */
  lemma DoubleSpacePeriodKeepsValid(env: Env, s: Session)
    requires Steady(env, s) && !s.view.conjugateView
    ensures Valid(env, DoubleSpacePeriod(env, s))
  {
    var cursor := env.cfg.commandCursor;
    if Suffix(s.document, 2) != "  " && !s.mode.commandState {
      LoadKeysValid(env, s.(document := DropLast(s.document) + ". ", keyboardState := Letters, shiftButtonState := Shift));
    } else if Suffix(s.commandBar, 2) != "  " && s.mode.commandState {
      var bar := InsertPriorToCursor(DeletePriorToCursor(s.commandBar, cursor), cursor, ". ");
      LoadKeysValid(env, s.(commandBar := bar, keyboardState := Letters, shiftButtonState := Shift));
    }
  }

  /** Every double tap that can happen keeps the invariant. */
  lemma MultiPressKeepsValid(env: Env, s: Session, key: string, tapCount: int)
    requires Valid(env, s) && MultiPressable(env, CapsLockTap(env, s, key, tapCount), key)
    ensures Valid(env, KeyMultiPress(env, s, key, tapCount))
  {
    if tapCount == 2 && key == "shift" && s.capsLockPossible {
      LoadKeysValid(env, s.(shiftButtonState := Caps));
    }
    var s1 := CapsLockTap(env, s, key, tapCount);
    if tapCount == 2 && !ShortcutCancelled(env, s1, key) && key == env.cfg.spaceBar
       && |s1.document| != 1 && s1.doubleSpacePeriodPossible {
      DoubleSpacePeriodKeepsValid(env, s1);
    }
  }

  // ---------------------------------------------------------------------------
  // What each key does
  // ---------------------------------------------------------------------------

  /** Both double-tap shortcuts are as possible in `r` as in `s`. */
  predicate SameShortcuts(s: Session, r: Session)
  {
    r.capsLockPossible == s.capsLockPossible && r.doubleSpacePeriodPossible == s.doubleSpacePeriodPossible
  }

  lemma AnsweredKeepsShortcuts(env: Env, s: Session, answer: Answer)
    requires ViewShowable(env, s.view) && ConjugationFits(env, answer)
    ensures SameShortcuts(s, Answered(env, s, answer))
  {
    var m := s.mode;
    var s1 := if m.getTranslation && m.commandState
              then var t := Translated(s, answer); t.(mode := t.mode.(getTranslation := false, switchInput := false))
              else s;
    assert SameShortcuts(s, s1);
    var s2 := if s1.mode.getConjugation && s1.mode.commandState
              then var t := Conjugated(env, s1, answer); t.(mode := t.mode.(getConjugation := false))
              else s1;
    assert SameShortcuts(s1, s2);
  }

  lemma ReturnKeepsShortcuts(env: Env, s: Session, answer: Answer)
    requires ViewShowable(env, s.view) && ConjugationFits(env, answer)
    ensures SameShortcuts(s, ReturnPressed(env, s, answer))
  {
    var s3 := Answered(env, s, answer);
    AnsweredKeepsShortcuts(env, s, answer);
    if !s3.mode.commandState {
    } else if s3.invalidState {
      assert SameShortcuts(s3, ReportInvalid(env, s3));
    } else {
      assert SameShortcuts(s3, CloseCommand(env, s3));
    }
  }

  lemma DeleteKeepsShortcuts(env: Env, s: Session)
    requires ViewShowable(env, s.view)
    ensures SameShortcuts(s, DeletePressed(env, s))
  {
    var s1 := Unshift(env, s);
    assert SameShortcuts(s, s1);
    if !(s1.mode.commandState && s1.commandBar in env.cfg.allPrompts) {
      var s2 := HandleDeleteButtonPressed(env, s1);
      assert SameShortcuts(s1, s2);
    }
  }

  lemma SpaceKeepsShortcuts(env: Env, s: Session)
    requires ViewShowable(env, s.view)
    ensures SpacePressed(env, s).capsLockPossible == s.capsLockPossible
  {
  }

  lemma ScribeKeepsShortcuts(env: Env, s: Session, hasSelection: bool)
    requires ViewShowable(env, s.view)
    ensures SameShortcuts(s, ScribePressed(env, s, hasSelection))
  {
  }

  lemma LiteralKeepsShortcuts(env: Env, s: Session, keyToDisplay: string)
    requires ViewShowable(env, s.view)
    ensures SameShortcuts(s, LiteralPressed(env, s, keyToDisplay))
  {
  }

  lemma CommandKeysKeepShortcuts(env: Env, s: Session)
    requires ViewShowable(env, s.view)
    ensures SameShortcuts(s, TranslatePressed(env, s))
    ensures SameShortcuts(s, ConjugatePressed(env, s))
    ensures SameShortcuts(s, PluralPressed(env, s))
  {
  }

  lemma ViewKeysKeepShortcuts(env: Env, s: Session, answer: Answer)
    requires ViewShowable(env, s.view)
    ensures SameShortcuts(s, SlotPressed(env, s, answer))
    ensures PageTurnFits(env, s, answer) ==> SameShortcuts(s, PagePressed(env, s, answer))
  {
  }

  lemma LayerKeysKeepShortcuts(env: Env, s: Session)
    requires ViewShowable(env, s.view)
    ensures SameShortcuts(s, ClearCommandBar(ChangeKeyboardToNumberKeys(env, s)))
    ensures SameShortcuts(s, ClearCommandBar(ChangeKeyboardToSymbolKeys(env, s)))
    ensures SameShortcuts(s, AutoCapAtStartOfProxy(env, ClearCommandBar(ChangeKeyboardToLetterKeys(env, s))))
    ensures SameShortcuts(s, ApostrophePressed(env, s))
    ensures ShiftPressed(env, s).capsLockPossible
    ensures ShiftPressed(env, s).doubleSpacePeriodPossible == s.doubleSpacePeriodPossible
  {
  }

  /** How the shortcuts stand after handler `a`: shift makes caps lock
      possible, the space bar the double-space period, and every other
      handler keeps both as they were. */
  predicate ShortcutsAfter(s: Session, a: KeyAction, r: Session)
  {
    && (a != ShiftKey && a != SpaceKey ==> SameShortcuts(s, r))
    && (a == ShiftKey ==> r.capsLockPossible && r.doubleSpacePeriodPossible == s.doubleSpacePeriodPossible)
    && (a == SpaceKey ==> r.doubleSpacePeriodPossible && r.capsLockPossible == s.capsLockPossible)
  }

  /** The command and view keys. */
  predicate CommandAction(a: KeyAction)
  {
    a.ScribeKey? || a.TranslateKey? || a.ConjugateKey? || a.PluralKey? || a.PageLeft? || a.PageRight? || a.SlotKey?
  }

  lemma CommandKeysShortcuts(env: Env, s: Session, a: KeyAction, keyToDisplay: string, hasSelection: bool, answer: Answer)
    requires ViewShowable(env, s.view) && Allowed(env, s, a, answer) && CommandAction(a)
    ensures ShortcutsAfter(s, a, HandleKey(env, s, a, keyToDisplay, hasSelection, answer))
  {
    match a
    case ScribeKey => ScribeKeepsShortcuts(env, s, hasSelection);
    case TranslateKey => CommandKeysKeepShortcuts(env, s);
    case ConjugateKey => CommandKeysKeepShortcuts(env, s);
    case PluralKey => CommandKeysKeepShortcuts(env, s);
    case PageLeft => ViewKeysKeepShortcuts(env, s, answer);
    case PageRight => ViewKeysKeepShortcuts(env, s, answer);
    case SlotKey => ViewKeysKeepShortcuts(env, s, answer);
  }

  /** The keys that edit the text. */
  predicate TextAction(a: KeyAction)
  {
    a.DeleteKey? || a.SpaceKey? || a.ReturnKey? || a.Literal?
  }

  lemma TextKeysShortcuts(env: Env, s: Session, a: KeyAction, keyToDisplay: string, hasSelection: bool, answer: Answer)
    requires ViewShowable(env, s.view) && Allowed(env, s, a, answer) && TextAction(a)
    ensures ShortcutsAfter(s, a, HandleKey(env, s, a, keyToDisplay, hasSelection, answer))
  {
    match a
    case DeleteKey => DeleteKeepsShortcuts(env, s);
    case SpaceKey => SpaceKeepsShortcuts(env, s);
    case ReturnKey => ReturnKeepsShortcuts(env, s, answer);
    case Literal => LiteralKeepsShortcuts(env, s, keyToDisplay);
  }

  lemma LayerKeysShortcuts(env: Env, s: Session, a: KeyAction, keyToDisplay: string, hasSelection: bool, answer: Answer)
    requires ViewShowable(env, s.view) && Allowed(env, s, a, answer) && !CommandAction(a) && !TextAction(a)
    ensures ShortcutsAfter(s, a, HandleKey(env, s, a, keyToDisplay, hasSelection, answer))
  {
    LayerKeysKeepShortcuts(env, s);
  }

  /** Every handler but those of shift and the space bar keeps both
      shortcuts as they are; those two make their own possible. */
  lemma HandleShortcuts(env: Env, s: Session, a: KeyAction, keyToDisplay: string, hasSelection: bool, answer: Answer)
    requires ViewShowable(env, s.view) && Allowed(env, s, a, answer)
    ensures ShortcutsAfter(s, a, HandleKey(env, s, a, keyToDisplay, hasSelection, answer))
  {
    if CommandAction(a) {
      CommandKeysShortcuts(env, s, a, keyToDisplay, hasSelection, answer);
    } else if TextAction(a) {
      TextKeysShortcuts(env, s, a, keyToDisplay, hasSelection, answer);
    } else {
      LayerKeysShortcuts(env, s, a, keyToDisplay, hasSelection, answer);
    }
  }

  /** Only the shift key is shift, and only the space bar is a space. */
  lemma ClassifyNames(key: string, spaceBar: string)
    ensures Classify(key, spaceBar) == ShiftKey ==> key == "shift"
    ensures Classify(key, spaceBar) == SpaceKey ==> key == spaceBar
  {
  }

  /** A key press forgets the caps-lock shortcut unless the key is shift and
      the double-space shortcut unless it is the space bar; shift and the
      space bar make their own shortcut possible. */
  lemma ShortcutsReset(env: Env, s: Session, key: string, keyToDisplay: string, hasSelection: bool, answer: Answer)
    requires ViewShowable(env, s.view) && Pressable(env, s, key, answer)
    ensures var r := ExecuteKeyActions(env, s, key, keyToDisplay, hasSelection, answer);
      && (key != "shift" ==> !r.capsLockPossible)
      && (key != env.cfg.spaceBar ==> !r.doubleSpacePeriodPossible)
      && (Classify(key, env.cfg.spaceBar) == ShiftKey ==> r.capsLockPossible)
      && (Classify(key, env.cfg.spaceBar) == SpaceKey ==> r.doubleSpacePeriodPossible)
  {
    ClassifyNames(key, env.cfg.spaceBar);
    HandleShortcuts(env, BeforeKey(env, s, key), Classify(key, env.cfg.spaceBar), keyToDisplay, hasSelection, answer);
  }

  /** Shift turns normal into shift, and shift or caps lock into normal
      (unless the reload sets shift at the start of an empty text), and makes
      caps lock possible. */
  lemma ShiftToggles(env: Env, s: Session, keyToDisplay: string, hasSelection: bool, answer: Answer)
    requires ViewShowable(env, s.view) && Pressable(env, s, "shift", answer) && env.cfg.spaceBar != "shift"
    ensures var r := ExecuteKeyActions(env, s, "shift", keyToDisplay, hasSelection, answer);
      && (s.shiftButtonState == Normal ==> r.shiftButtonState == Shift)
      && (s.shiftButtonState != Normal ==>
            r.shiftButtonState == if s.keyboardState == Letters && ContextCountIsZero(env, s.document) then Shift else Normal)
      && r.capsLockPossible
      && r.document == s.document && r.mode == s.mode
  {
  }

  /** A double tap of shift while caps lock is possible locks caps (unless
      the reload sets shift at the start of an empty text). */
  lemma DoubleTapLocksCaps(env: Env, s: Session)
    requires ViewShowable(env, s.view) && s.capsLockPossible
    requires env.cfg.spaceBar != "shift" && env.cfg.spaceBar != "Cancel shortcut"
    requires MultiPressable(env, CapsLockTap(env, s, "shift", 2), "shift")
    ensures var r := KeyMultiPress(env, s, "shift", 2);
      && r.shiftButtonState == (if s.keyboardState == Letters && ContextCountIsZero(env, s.document) then Shift else Caps)
      && r.document == s.document && r.mode == s.mode
  {
  }

  /** A typed character goes into the document outside a command and in
      front of the cursor during one; shift goes back to normal after it,
      caps lock stays. */
  lemma LiteralTypes(env: Env, s: Session, key: string, keyToDisplay: string, hasSelection: bool, answer: Answer)
    requires ViewShowable(env, s.view) && Pressable(env, s, key, answer) && Classify(key, env.cfg.spaceBar) == Literal
    ensures var r := ExecuteKeyActions(env, s, key, keyToDisplay, hasSelection, answer);
      var cursor := env.cfg.commandCursor;
      && (s.shiftButtonState == Caps ==> r.shiftButtonState == Caps)
      && (s.shiftButtonState == Normal ==> r.shiftButtonState == Normal)
      && (s.shiftButtonState == Shift ==>
            r.shiftButtonState == if s.keyboardState == Letters && ContextCountIsZero(env, s.document) then Shift else Normal)
      && (!s.mode.commandState ==> r.document == s.document + keyToDisplay && r.commandBar == " ")
      && (s.mode.commandState ==>
            && r.document == s.document
            && EndsWith(r.commandBar, cursor)
            && Body(r.commandBar, cursor) == Body(s.commandBar, cursor) + keyToDisplay)
      && r.mode == s.mode
  {
  }

  /** The Scribe key: during a command, or with the key armed or the view
      shown, it escapes, clearing every command flag and the command bar
      (and closing the view in the second case); otherwise it arms the
      command keys, keeping the bar, or with a selection it disarms them. */
  lemma ScribeEscapes(env: Env, s: Session, keyToDisplay: string, hasSelection: bool, answer: Answer)
    requires ViewShowable(env, s.view) && Pressable(env, s, "Scribe", answer)
    ensures var r := ExecuteKeyActions(env, s, "Scribe", keyToDisplay, hasSelection, answer);
      && (s.mode.commandState ==> r.mode == Idle && r.view.conjugateView == s.view.conjugateView)
      && (!s.mode.commandState && !hasSelection && (s.mode.scribeKeyState || s.view.conjugateView) ==>
            r.mode == Idle && !r.view.conjugateView)
      && (!s.mode.commandState && !hasSelection && !s.mode.scribeKeyState && !s.view.conjugateView ==>
            r.mode == s.mode.(scribeKeyState := true) && !r.view.conjugateView)
      && (!s.mode.commandState && hasSelection ==> r.mode == s.mode.(scribeKeyState := false))
      && (s.mode.commandState && !s.view.conjugateView ==> r.commandBar == "")
      && (!s.mode.commandState && !hasSelection && (s.mode.scribeKeyState || s.view.conjugateView) ==> r.commandBar == "")
      && (!s.mode.commandState && !hasSelection && !s.mode.scribeKeyState && !s.view.conjugateView ==>
            r.commandBar == s.commandBar)
      && r.document == s.document
  {
    var s0 := BeforeKey(env, s, "Scribe");
    assert ExecuteKeyActions(env, s, "Scribe", keyToDisplay, hasSelection, answer) == ScribePressed(env, s0, hasSelection);
  }

  /** Translate, Conjugate and Plural start a command waiting for exactly
      their own query, with their prompt and the cursor in the command bar;
      Translate also switches to the letters and sets the input-switch flag. */
  lemma CommandKeysStartCommand(env: Env, s: Session, key: string, keyToDisplay: string, hasSelection: bool,
                                answer: Answer)
    requires Valid(env, s) && Pressable(env, s, key, answer)
    requires key == "Translate" || key == "Conjugate" || key == "Plural"
    ensures var r := ExecuteKeyActions(env, s, key, keyToDisplay, hasSelection, answer);
      var cfg := env.cfg;
      var prompt := if key == "Translate" then cfg.translatePrompt
                    else if key == "Conjugate" then cfg.conjugatePrompt else cfg.pluralPrompt;
      && r.mode.commandState && !r.mode.scribeKeyState
      && r.mode.getTranslation == (key == "Translate")
      && r.mode.getConjugation == (key == "Conjugate")
      && r.mode.getPlural == (key == "Plural")
      && r.mode.switchInput == (key == "Translate")
      && r.commandBar in cfg.allPrompts
      && EndsWith(r.commandBar, cfg.commandCursor) && Body(r.commandBar, cfg.commandCursor) == prompt
      && (key == "Translate" ==> r.keyboardState == Letters)
      && r.document == s.document
  {
    var cfg := env.cfg;
    BodyOfCursorEnded(cfg.translatePrompt, cfg.commandCursor);
    BodyOfCursorEnded(cfg.conjugatePrompt, cfg.commandCursor);
    BodyOfCursorEnded(cfg.pluralPrompt, cfg.commandCursor);
  }

  /** The delete handler on a command bar holding just a prompt. */
  lemma DeletePressedSparesPrompt(env: Env, s: Session)
    requires ViewShowable(env, s.view) && !s.view.conjugateView
    requires s.mode.commandState && s.commandBar in env.cfg.allPrompts
    ensures var r := DeletePressed(env, s);
      r.commandBar == s.commandBar && r.document == s.document && r.shiftButtonState == Shift && r.mode == s.mode
  {
    var s1 := Unshift(env, s);
    assert s1.commandBar == s.commandBar && s1.mode == s.mode && s1.view == s.view;
    var t := s1.(shiftButtonState := Shift);
    assert DeletePressed(env, s) == LoadKeys(env, t);
  }

  /** The delete handler during a command keeps the command bar's prompt. */
  lemma DeletePressedKeepsPrompt(env: Env, s: Session, prompt: string)
    requires Steady(env, s) && !s.view.conjugateView
    requires s.mode.commandState && prompt + env.cfg.commandCursor in env.cfg.allPrompts
    requires var body := Body(s.commandBar, env.cfg.commandCursor); |prompt| <= |body| && body[..|prompt|] == prompt
    ensures var r := DeletePressed(env, s);
      var body := Body(r.commandBar, env.cfg.commandCursor);
      && EndsWith(r.commandBar, env.cfg.commandCursor)
      && |prompt| <= |body| && body[..|prompt|] == prompt
  {
    var cursor := env.cfg.commandCursor;
    var s1 := Unshift(env, s);
    UnshiftSteady(env, s);
    if s1.commandBar !in env.cfg.allPrompts {
      var body := Body(s.commandBar, cursor);
      assert s.commandBar == body + cursor;
      assert body != prompt;
      DeleteKeepsPrefix(s.commandBar, cursor, prompt);
      var s2 := HandleDeleteButtonPressed(env, s1);
      assert s2.commandBar == DeletePriorToCursor(s.commandBar, cursor);
      assert DeletePressed(env, s).commandBar == s2.commandBar;
    }
  }

  /** While the command bar holds just a prompt, the delete key leaves it
      and the document alone (and sets shift for the command's first
      letter). */
  lemma DeleteSparesPrompt(env: Env, s: Session, key: string, keyToDisplay: string, hasSelection: bool,
                           answer: Answer)
    requires ViewShowable(env, s.view) && Pressable(env, s, key, answer) && Classify(key, env.cfg.spaceBar) == DeleteKey
    requires s.mode.commandState && s.commandBar in env.cfg.allPrompts
    ensures var r := ExecuteKeyActions(env, s, key, keyToDisplay, hasSelection, answer);
      r.commandBar == s.commandBar && r.document == s.document && r.shiftButtonState == Shift && r.mode == s.mode
  {
    DeletePressedSparesPrompt(env, BeforeKey(env, s, key));
  }

  /** During a command, the delete key never reaches into the prompt the
      command bar starts with: it deletes the character in front of the
      cursor only when something was typed after the prompt. */
  lemma DeleteKeepsPrompt(env: Env, s: Session, key: string, keyToDisplay: string, hasSelection: bool,
                          answer: Answer, prompt: string)
    requires Valid(env, s) && Pressable(env, s, key, answer) && Classify(key, env.cfg.spaceBar) == DeleteKey
    requires s.mode.commandState && prompt + env.cfg.commandCursor in env.cfg.allPrompts
    requires var body := Body(s.commandBar, env.cfg.commandCursor); |prompt| <= |body| && body[..|prompt|] == prompt
    ensures var r := ExecuteKeyActions(env, s, key, keyToDisplay, hasSelection, answer);
      var body := Body(r.commandBar, env.cfg.commandCursor);
      && EndsWith(r.commandBar, env.cfg.commandCursor)
      && |prompt| <= |body| && body[..|prompt|] == prompt
  {
    BeforeKeySteady(env, s, key);
    DeletePressedKeepsPrompt(env, BeforeKey(env, s, key), prompt);
  }

  // ---------------------------------------------------------------------------
  // The return key, the conjugation view and double taps
  // ---------------------------------------------------------------------------

  /** Outside a command, return types a newline. */
  lemma ReturnTypesNewline(env: Env, s: Session, key: string, answer: Answer)
    requires Valid(env, s) && !s.mode.commandState && !s.view.conjugateView
    requires Classify(key, env.cfg.spaceBar) == ReturnKey && ConjugationFits(env, answer)
    ensures Pressable(env, s, key, answer)
    ensures var r := ExecuteKeyActions(env, s, key, "", false, answer);
      r.document == s.document + "\n" && r.commandBar == " " && r.mode == s.mode
  {
  }

  /** A found translation is typed into the document and closes the command. */
  lemma ReturnTypesTranslation(env: Env, s: Session, key: string, answer: Answer)
    requires Valid(env, s) && s.mode.getTranslation
    requires Classify(key, env.cfg.spaceBar) == ReturnKey && answer.TranslationAnswer? && answer.found
    ensures Pressable(env, s, key, answer)
    ensures var r := ExecuteKeyActions(env, s, key, "", false, answer);
      && r.document == s.document + answer.translation
      && r.mode == Idle && r.commandBar == "" && !r.view.conjugateView
  {
  }

  /** A found plural is typed into the document and closes the command. */
  lemma ReturnTypesPlural(env: Env, s: Session, key: string, answer: Answer)
    requires Valid(env, s) && s.mode.getPlural
    requires Classify(key, env.cfg.spaceBar) == ReturnKey && answer.PluralAnswer? && answer.result.PluralFound?
    ensures Pressable(env, s, key, answer)
    ensures var r := ExecuteKeyActions(env, s, key, "", false, answer);
      && r.document == s.document + answer.result.plural
      && r.mode == Idle && r.commandBar == "" && !r.view.conjugateView
  {
  }

  /** A query that finds nothing leaves the command invalid, the view
      closed and the document untouched. */
  lemma AnsweredFails(env: Env, s: Session, answer: Answer)
    requires Steady(env, s) && !s.view.conjugateView && s.mode.commandState && ConjugationFits(env, answer)
    requires s.mode.getTranslation ==> !(answer.TranslationAnswer? && answer.found)
    requires s.mode.getConjugation ==> !ConjugationFound(answer)
    requires s.mode.getPlural ==> !answer.PluralAnswer? || answer.result.PluralNotFound?
    ensures var r := Answered(env, s, answer);
      && r.invalidState && !r.isAlreadyPluralState && !r.view.conjugateView && r.document == s.document
  {
    var m := s.mode;
    var s1 := if m.getTranslation && m.commandState
              then var t := Translated(s, answer); t.(mode := t.mode.(getTranslation := false, switchInput := false))
              else s;
    assert m.getTranslation ==> s1.invalidState;
    assert s1.document == s.document && !s1.isAlreadyPluralState && s1.view == s.view;
    var s2 := if s1.mode.getConjugation && s1.mode.commandState
              then var t := Conjugated(env, s1, answer); t.(mode := t.mode.(getConjugation := false))
              else s1;
    assert m.getConjugation ==> s2.invalidState;
    assert s2.document == s.document && !s2.isAlreadyPluralState && !s2.view.conjugateView;
    assert s2.mode.getPlural == m.getPlural && s2.mode.commandState;
  }

  /** A query that finds nothing closes the command and shows the
      not-found message; the document is untouched. */
  lemma ReturnReportsFailure(env: Env, s: Session, key: string, answer: Answer)
    requires Valid(env, s) && s.mode.commandState
    requires Classify(key, env.cfg.spaceBar) == ReturnKey && ConjugationFits(env, answer)
    requires s.mode.getTranslation ==> !(answer.TranslationAnswer? && answer.found)
    requires s.mode.getConjugation ==> !ConjugationFound(answer)
    requires s.mode.getPlural ==> !answer.PluralAnswer? || answer.result.PluralNotFound?
    ensures Pressable(env, s, key, answer)
    ensures var r := ExecuteKeyActions(env, s, key, "", false, answer);
      && r.document == s.document && r.mode == Idle && !r.view.conjugateView
      && r.commandBar == env.cfg.commandPromptSpacing + env.cfg.invalidCommandMsg
  {
    var s0 := BeforeKey(env, s, key);
    BeforeKeySteady(env, s, key);
    AnsweredKeepsCommand(env, s0, answer);
    AnsweredFails(env, s0, answer);
    var s3 := Answered(env, s0, answer);
    assert ExecuteKeyActions(env, s, key, "", false, answer) == ReportInvalid(env, s3);
  }

  /** A word that is already plural closes the command and keeps the
      language's message in the command bar, unless the document is empty
      (the reload that sets shift there empties the command bar). */
  lemma ReturnReportsAlreadyPlural(env: Env, s: Session, key: string, answer: Answer)
    requires Valid(env, s) && s.mode.getPlural
    requires Classify(key, env.cfg.spaceBar) == ReturnKey && answer.PluralAnswer? && answer.result.AlreadyPlural?
    ensures Pressable(env, s, key, answer)
    ensures var r := ExecuteKeyActions(env, s, key, "", false, answer);
      && r.document == s.document && r.mode == Idle
      && r.commandBar == (if s.document == [] && s.shiftButtonState == Normal then "" else answer.result.message)
  {
  }

  /** A found verb opens the conjugation view at its first page, in the
      present, with the page's title in the command bar and its tenses and
      forms in the grid. */
  lemma ReturnOpensConjugationView(env: Env, s: Session, key: string, answer: Answer)
    requires Valid(env, s) && s.mode.getConjugation
    requires Classify(key, env.cfg.spaceBar) == ReturnKey && ConjugationFound(answer) && ConjugationFits(env, answer)
    ensures Pressable(env, s, key, answer)
    ensures var r := ExecuteKeyActions(env, s, key, "", false, answer);
      && r.view.conjugateView && r.mode == Idle
      && r.view.page == answer.firstPage && r.view.verbForms == answer.forms
      && !r.view.ruPast && !r.view.indicativePerfect
      && r.commandBar == answer.firstPage.title
      && r.display.allTenses == TenseIds(env.language, false, answer.firstPage)
      && r.display.conjugationDisplay ==
           ConjugationDisplay(r.display.allTenses, answer.forms, answer.capitalized, false, env.cfg.invalidCommandMsg)
      && r.document == s.document
  {
  }

  /** A page turn shows the new page: its title and its tenses. */
  lemma PageTurnShowsNewPage(env: Env, s: Session, key: string, answer: Answer)
    requires Valid(env, s) && s.view.conjugateView
    requires Classify(key, env.cfg.spaceBar) == PageLeft || Classify(key, env.cfg.spaceBar) == PageRight
    requires env.language in PagingLanguages && answer.PageTurn? && ViewReady(env, answer.newPage, s.view.verbForms)
    ensures Pressable(env, s, key, answer)
    ensures var r := ExecuteKeyActions(env, s, key, "", false, answer);
      && r.view.conjugateView && r.view.page == answer.newPage
      && r.view.ruPast == (env.language == "Russian" && answer.newRuPast)
      && r.commandBar == answer.newPage.title
      && r.display.allTenses == TenseIds(env.language, r.view.ruPast, answer.newPage)
      && r.document == s.document && r.mode == s.mode
  {
  }

  /** A slot key types its form into the document and closes the view. */
  lemma SlotCommits(env: Env, s: Session, key: string, answer: Answer)
    requires Valid(env, s) && s.view.conjugateView
    requires Classify(key, env.cfg.spaceBar) == SlotKey && answer.Committed?
    ensures Pressable(env, s, key, answer)
    ensures var r := ExecuteKeyActions(env, s, key, "", false, answer);
      && r.document == s.document + answer.text && !r.view.conjugateView
      && r.mode == s.mode && r.commandBar == ""
      && r.display.keyboard == LayerKeys(env.cfg, s.keyboardState)
  {
  }

  /** A double tap of the space bar turns the space just typed into ". ",
      and sets shift on the letters. */
  lemma DoubleSpaceTypesPeriod(env: Env, s: Session)
    requires Steady(env, s) && !s.view.conjugateView && !s.mode.commandState && s.doubleSpacePeriodPossible
    requires |s.document| >= 2 && SecondToLast(s.document) !in CancellingPunctuation
    requires Suffix(s.document, 2) != "  "
    ensures MultiPressable(env, CapsLockTap(env, s, env.cfg.spaceBar, 2), env.cfg.spaceBar)
    ensures var r := KeyMultiPress(env, s, env.cfg.spaceBar, 2);
      && r.document == DropLast(s.document) + ". "
      && r.keyboardState == Letters && r.shiftButtonState == Shift && r.commandBar == " "
      && Valid(env, r)
  {
  }

  /** During a command, the double-space period goes in front of the cursor. */
  lemma DoubleSpaceTypesPeriodInCommand(env: Env, s: Session)
    requires Steady(env, s) && !s.view.conjugateView && s.mode.commandState && s.doubleSpacePeriodPossible
    requires |s.commandBar| >= 2 && SecondToLast(s.commandBar) !in CancellingPunctuation
    requires Suffix(s.commandBar, 2) != "  " && |s.document| != 1
    ensures MultiPressable(env, CapsLockTap(env, s, env.cfg.spaceBar, 2), env.cfg.spaceBar)
    ensures var r := KeyMultiPress(env, s, env.cfg.spaceBar, 2);
      var cursor := env.cfg.commandCursor;
      && r.document == s.document
      && EndsWith(r.commandBar, cursor)
      && Body(r.commandBar, cursor) == DropLast(Body(s.commandBar, cursor)) + ". "
      && r.keyboardState == Letters && r.shiftButtonState == Shift
      && Valid(env, r)
  {
  }

  /** Punctuation before the space cancels the double-space period: the
      double tap changes nothing. */
  lemma PunctuationCancelsPeriod(env: Env, s: Session)
    requires ViewShowable(env, s.view) && env.cfg.spaceBar != "shift" && env.cfg.spaceBar != "Cancel shortcut"
    requires MultiPressable(env, s, env.cfg.spaceBar)
    requires || (!s.mode.commandState && |s.document| != 1 && SecondToLast(s.document) in CancellingPunctuation)
             || (s.mode.commandState && SecondToLast(s.commandBar) in CancellingPunctuation)
    ensures KeyMultiPress(env, s, env.cfg.spaceBar, 2) == s
  {
  }

  /** Two spaces already ending the document leave it as it is: a series of
      spaces is wanted. */
  lemma SpacesStaySpaces(env: Env, s: Session)
    requires ViewShowable(env, s.view) && env.cfg.spaceBar != "shift"
    requires MultiPressable(env, s, env.cfg.spaceBar) && !s.mode.commandState
    requires |s.document| >= 2 && Suffix(s.document, 2) == "  "
    ensures KeyMultiPress(env, s, env.cfg.spaceBar, 2) == s.(commandBar := if s.doubleSpacePeriodPossible then " " else s.commandBar)
  {
  }
}
