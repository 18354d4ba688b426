# Scribe keyboard core, modelled in Dafny

This project models three parts of the Scribe iOS keyboards:

- **The keyboard view controller's state machine** (`KeyboardViewController.swift`).
  - What each key press does to the controller's state:
    - the layer (letters, numbers, symbols) and the shift state;
    - the command-mode flags of the Scribe key;
    - the translation, conjugation and plural queries;
    - the conjugation view and its grid;
    - the command bar and the host text before the cursor;
    - the caps-lock and double-space-period shortcuts.
  - `executeKeyActions`, `keyMultiPress`, `loadKeys`, `loadInterface` and their helpers.
- **The Russian keyboard's tables and its layout function** (`RUInterfaceVariables.swift`, `setRUKeyboardLayout`).
- **The German preposition formatter** (`format_prepositions.py`).
  - It shortens Wikidata case labels and joins the cases of one preposition with "/".
  - It sorts each joined annotation into canonical order.
  - It sorts the table by preposition.

## Modules

- **`KeyboardSession`** (`keyboard_session.dfy`)
  - The controller's state as a `Session` value. The command flags, the conjugation view and what the last reload put on screen are grouped into the records `Mode`, `View` and `Display`.
  - One function per handler, giving the next state.
  - The invariant `Valid`: the mode flags agree, a command's text ends in the cursor marker, the keys on screen are those of the current layer, and the conjugation view shows its page.
- **`KeyboardController`** (`keyboard_controller.dfy`)
  - The controller as a class whose fields the handlers update in place.
  - Every method is proved to leave the fields as the matching `KeyboardSession` function gives.
  - `ExecuteKeyActions` and `KeyMultiPress` also keep the invariant.
- **`KeyboardProperties`** (`keyboard_properties.dfy`): what the handlers promise.
  - The invariant, key by key.
  - The shortcut resets.
  - Shift toggling and caps lock.
  - Typing, in the document and in front of the cursor.
  - The Scribe key's escape.
  - The command keys' prompts.
  - Delete never reaching into a prompt.
  - Return's outcomes for found, not found and already-plural answers.
  - Page turns and slot commits.
  - The double-space period and what cancels it.
- **`Interface`, `CommandText` and `Conjugation`**
  - The language globals as one `LayoutConfig` record, and the command-bar text helpers.
  - The conjugation grid: the tense identifiers, the slot texts and the slot-filling loop.
- **`RussianInterface`**: the Russian tables, and `SetRUKeyboardLayout` as a method over an `InterfaceGlobals` object.
- **`GermanPrepositions`**: the formatter.
  - Python's `split`, `join` and `sorted`, proved as a round trip, a sort and a permutation.
  - The aggregation loop and the final ordering, as methods proved against functions.

The inputs that come from outside the controller are parameters:

- **Host text and selection:** the host text before the cursor is the `document` field, and `hasSelection` says whether text is selected.
- **Empty text:** whether the host reports an empty text as nil or as a zero count is `Env.emptyContextIsNil`.
- **Query answers:** an `Answer` stands for what a query function reports. That is the translation, the verb's table and first page, the plural, the new page of a page turn, or the form a slot commits.

## Model

| member | source | states |
|---|---|---|
| GermanPrepositions.BeforeFirst | Data/German/prepositions/format_prepositions.py:25 | the part before the first " case" is a prefix of the label |
| GermanPrepositions.BeforeFirstNoOccurrence | Data/German/prepositions/format_prepositions.py:25 | a label without the separator's first character is kept whole |
| GermanPrepositions.BeforeFirstCuts | Data/German/prepositions/format_prepositions.py:25 | everything from the first " case" on is cut away |
| GermanPrepositions.BeforeFirstFree | Data/German/prepositions/format_prepositions.py:25 | what is kept holds no " case" |
| GermanPrepositions.BeforeFirstIdempotent | Data/German/prepositions/format_prepositions.py:25 | cutting twice is cutting once |
| GermanPrepositions.BeforeFirstWhole | Data/German/prepositions/format_prepositions.py:25 | a label without " case" is kept whole |
| GermanPrepositions.Split | Data/German/prepositions/format_prepositions.py:49 | `split("/")` gives at least one part and no part holds "/" |
| GermanPrepositions.JoinSplit | Data/German/prepositions/format_prepositions.py:49-51 | joining the parts with "/" gives back the annotation |
| GermanPrepositions.SplitJoin | Data/German/prepositions/format_prepositions.py:49-51 | splitting a join of "/"-free parts gives back the parts |
| GermanPrepositions.SplitNoSeparator | Data/German/prepositions/format_prepositions.py:45-47 | an annotation without "/" is one part |
| GermanPrepositions.JoinSnoc | Data/German/prepositions/format_prepositions.py:64-67 | appending "/" and a case to a join is joining one more part |
| GermanPrepositions.BelowTotal | Data/German/prepositions/format_prepositions.py:49 | Python's string order is total |
| GermanPrepositions.BelowAntisymmetric | Data/German/prepositions/format_prepositions.py:49 | Python's string order is antisymmetric |
| GermanPrepositions.BelowTransitive | Data/German/prepositions/format_prepositions.py:49 | Python's string order is transitive |
| GermanPrepositions.InsertKeepsSorted | Data/German/prepositions/format_prepositions.py:49 | inserting into a sorted list keeps it sorted |
| GermanPrepositions.InsertPermutes | Data/German/prepositions/format_prepositions.py:49 | inserting adds exactly the element |
| GermanPrepositions.Sort | Data/German/prepositions/format_prepositions.py:49 | `sorted` returns an ordered permutation of its input |
| GermanPrepositions.SortOfSorted | Data/German/prepositions/format_prepositions.py:49 | sorting a sorted list changes nothing |
| GermanPrepositions.ConvertCases | Data/German/prepositions/format_prepositions.py:21-33 | the tag is "Acc", "Dat", "Gen" or "" |
| GermanPrepositions.ConvertCasesIgnoresCaseSuffix | Data/German/prepositions/format_prepositions.py:25 | only the text before the first " case" decides the tag |
| GermanPrepositions.ConvertCasesForms | Data/German/prepositions/format_prepositions.py:25-33 | a case word gives the same tag with or without " case"; the words and Wikidata IDs of the three cases give their tags, and every other word gives "" |
| GermanPrepositions.OrderAnnotationsSingle | Data/German/prepositions/format_prepositions.py:45-51 | an annotation without "/" is returned unchanged |
| GermanPrepositions.OrderAnnotationsSortsComponents | Data/German/prepositions/format_prepositions.py:36-51 | in both branches the result is the "/"-join of the sorted components, a permutation of them |
| GermanPrepositions.OrderAnnotationsIdempotent | Data/German/prepositions/format_prepositions.py:36-51 | ordering an ordered annotation changes nothing |
| GermanPrepositions.AggregatePrepositions | Data/German/prepositions/format_prepositions.py:54-72 | the loop builds the table that folding the records one by one gives |
| GermanPrepositions.AggregateIgnoresMissingPreposition | Data/German/prepositions/format_prepositions.py:57 | a record without a preposition changes nothing |
| GermanPrepositions.AggregateCaselessRecord | Data/German/prepositions/format_prepositions.py:69-72 | a record without a case empties its preposition's annotation, except for "a" |
| GermanPrepositions.AggregateJoins | Data/German/prepositions/format_prepositions.py:58-67 | with no emptying record, a preposition is in the table exactly when it has a case record, and its annotation is the "/"-join of its converted cases in input order |
| GermanPrepositions.AggregateComponents | Data/German/prepositions/format_prepositions.py:58-67 | splitting that annotation gives its converted cases, in input order |
| GermanPrepositions.CasesAreTags | Data/German/prepositions/format_prepositions.py:60-67 | every component is a tag and holds no "/" |
| GermanPrepositions.AggregateKeys | Data/German/prepositions/format_prepositions.py:56-72 | a preposition is in the table exactly when some record names it with a case, or without a case unless it is "a" |
| GermanPrepositions.ReorderAnnotations | Data/German/prepositions/format_prepositions.py:74-75 | same keys, and every annotation put into canonical order |
| GermanPrepositions.KeysOf | Data/German/prepositions/format_prepositions.py:74 | each key of the table exactly once |
| GermanPrepositions.SortDistinct | Data/German/prepositions/format_prepositions.py:77 | sorting distinct keys gives strictly ascending keys |
| GermanPrepositions.SortByPreposition | Data/German/prepositions/format_prepositions.py:77 | strictly ascending prepositions, each entry as in the table, every key present |
| GermanPrepositions.FormatPrepositions | Data/German/prepositions/format_prepositions.py:54-77 | the output entries cover exactly the aggregated prepositions, in strictly ascending order, each annotation canonical |
| RussianInterface.RussianLayout | Keyboards/LanguageKeyboards/Russian/RUInterfaceVariables.swift:62-94 | the prompt spacing, cursor marker and protected prompts are left as they were |
| RussianInterface.SetRUKeyboardLayout | Keyboards/LanguageKeyboards/Russian/RUInterfaceVariables.swift:62-94 | the globals become the Russian layout of the old globals |
| RussianInterface.StoreTables | Keyboards/LanguageKeyboards/Russian/RUInterfaceVariables.swift:63-71 | phone tables on a phone, pad tables otherwise |
| RussianInterface.StoreAlternates | Keyboards/LanguageKeyboards/Russian/RUInterfaceVariables.swift:73-77 | the registry of keys with alternates, and their alternates |
| RussianInterface.StoreMessages | Keyboards/LanguageKeyboards/Russian/RUInterfaceVariables.swift:78-81 | the currency, the space bar label and the not-found message |
| RussianInterface.StoreTranslate | Keyboards/LanguageKeyboards/Russian/RUInterfaceVariables.swift:83-85 | the Translate label, prompt and prompt with cursor |
| RussianInterface.StoreConjugate | Keyboards/LanguageKeyboards/Russian/RUInterfaceVariables.swift:87-89 | the Conjugate label, prompt and prompt with cursor |
| RussianInterface.StorePlural | Keyboards/LanguageKeyboards/Russian/RUInterfaceVariables.swift:91-93 | the Plural label, prompt and prompt with cursor |
| RussianInterface.RussianLayoutDevice | Keyboards/LanguageKeyboards/Russian/RUInterfaceVariables.swift:63-71 | each stored table is the phone table exactly on a phone and the pad table exactly otherwise |
| RussianInterface.RussianLayoutStrings | Keyboards/LanguageKeyboards/Russian/RUInterfaceVariables.swift:78-81 | space bar "Пробел", message "Нет в каталоге", currency "₽" with the rouble alternates |
| RussianInterface.RussianPrompts | Keyboards/LanguageKeyboards/Russian/RUInterfaceVariables.swift:83-93 | each prompt starts with the prompt spacing; each prompt-and-cursor is the prompt followed by the cursor marker |
| RussianInterface.RussianTablesRows | Keyboards/LanguageKeyboards/Russian/RUInterfaceVariables.swift:10-50 | all six tables have four non-empty rows |
| RussianInterface.RussianTablesKeys | Keyboards/LanguageKeyboards/Russian/RUInterfaceVariables.swift:10-50 | the letter tables have shift and delete; the number and symbol tables have "АБВ" |
| RussianInterface.RussianAlternatesRegistry | Keyboards/LanguageKeyboards/Russian/RUInterfaceVariables.swift:53-58 | the left and right registries split the keys with alternates, and each such key has an alternate |
| RussianInterface.RussianLayoutWellFormed | Keyboards/LanguageKeyboards/Russian/RUInterfaceVariables.swift:10-94 | with its prompts protected, the Russian layout meets everything the controller needs of a layout |
| CommandText.Suffix | Keyboards/KeyboardsBase/KeyboardViewController.swift:1181 | Swift's `suffix(n)`: the last n characters, or all of a shorter text |
| CommandText.DropLast | Keyboards/KeyboardsBase/KeyboardViewController.swift:193 | `deleteBackward`: the last character removed; the empty text stays empty |
| CommandText.Body | Keyboards/KeyboardsBase/KeyboardViewController.swift:1188 | the command text in front of the cursor marker |
| CommandText.BodyOfCursorEnded | Keyboards/KeyboardsBase/KeyboardViewController.swift:1188 | a text followed by the marker has that text as its body |
| CommandText.InsertPriorToCursor | Keyboards/KeyboardsBase/KeyboardViewController.swift:1188 | the text is typed in front of the marker, and the marker stays last |
| CommandText.DeletePriorToCursor | Keyboards/KeyboardsBase/KeyboardViewController.swift:201 | the character in front of the marker is removed, and the marker stays last |
| CommandText.InsertThenDelete | Keyboards/KeyboardsBase/KeyboardViewController.swift:1413-1415 | deleting the character just typed in front of the cursor gives back the bar as it was before it |
| CommandText.DeleteKeepsPrefix | Keyboards/KeyboardsBase/KeyboardViewController.swift:1162-1168 | a deletion does not reach into a shorter prefix of the body |
| Conjugation.TenseIdsMatchButtons | Keyboards/KeyboardsBase/KeyboardViewController.swift:348-363 | one tense per slot key; the 2x2 grid is used exactly for Swedish and for the Russian past |
| Conjugation.ThreeByTwoIds | Keyboards/KeyboardsBase/KeyboardViewController.swift:448-463 | in the 3x2 grid, slot i shows the state name followed by person and number i; no two slots share a tense |
| Conjugation.Capitalized | Keyboards/KeyboardsBase/KeyboardViewController.swift:534 | same length; every character is the original up to ASCII case, with no lower-case letter at a word start (the first character, or one after a space) and no upper-case letter inside a word |
| Conjugation.CapitalizedUnique | Keyboards/KeyboardsBase/KeyboardViewController.swift:534 | those case rules determine the result: any text of the same length meeting them is the capitalized text |
| Conjugation.CapitalizedIdempotent | Keyboards/KeyboardsBase/KeyboardViewController.swift:534 | capitalizing twice is capitalizing once |
| Conjugation.ConjugationDisplay | Keyboards/KeyboardsBase/KeyboardViewController.swift:518-538 | one text per tense of the grid |
| Conjugation.FillConjugationSlots | Keyboards/KeyboardsBase/KeyboardViewController.swift:527-538 | the loop fills every slot with its text |
| Conjugation.SlotShows | Keyboards/KeyboardsBase/KeyboardViewController.swift:528-536 | an empty form shows the not-found message; otherwise the form, capitalized exactly when the verb was typed capitalized outside the German indicative perfect |
| Conjugation.DisplayLocality | Keyboards/KeyboardsBase/KeyboardViewController.swift:527-538 | changing one tense's form changes only the slots showing that tense |
| Conjugation.PrepAnnotationLabels | Keyboards/KeyboardsBase/KeyboardViewController.swift:589-601 | after 0, 1 or 2 noun annotations, the four labels of group 1, 2 or 3; otherwise none |
| KeyboardSession.SetConjugationState | Keyboards/KeyboardsBase/KeyboardViewController.swift:482-539 | the page's title in the command bar and the page's tenses in the grid; nothing else changes |
| KeyboardSession.LoadKeys | Keyboards/KeyboardsBase/KeyboardViewController.swift:635-681 | the layer's keys on screen, the invalid flag cleared, shift at the start of an empty text; the command bar emptied outside a command and the armed key, kept in them, the page title in the view |
| KeyboardSession.ClearCommandBar | Keyboards/KeyboardsBase/KeyboardViewController.swift:180-188 | outside a command the bar is " ", during one it is kept |
| KeyboardSession.AutoCapAtStartOfProxy | Keyboards/KeyboardsBase/KeyboardViewController.swift:1351-1360 | shift is set when the text before the cursor is empty and shift is off; the flags, document and view are kept |
| KeyboardSession.HandleDeleteButtonPressed | Keyboards/KeyboardsBase/KeyboardViewController.swift:191-206 | outside a command the document loses its last character; during one the character in front of the cursor goes, unless the bar holds just a prompt or nothing |
| KeyboardSession.SpaceTyped | Keyboards/KeyboardsBase/KeyboardViewController.swift:1179-1199 | typing the space keeps the mode, the view and both shortcuts (what it types: SpaceTypedInDocument, SpaceTypesInCommand) |
| KeyboardSession.Translated | Keyboards/KeyboardsBase/KeyboardViewController.swift:1228-1232 | the translation query keeps the mode, the view and the shortcuts |
| KeyboardSession.Conjugated | Keyboards/KeyboardsBase/KeyboardViewController.swift:1233-1244 | a found verb's view can be filled; the mode and shortcuts are kept |
| KeyboardSession.Pluralized | Keyboards/KeyboardsBase/KeyboardViewController.swift:1245-1248 | the plural query keeps the mode, the view and the shortcuts |
| KeyboardSession.Answered | Keyboards/KeyboardsBase/KeyboardViewController.swift:1227-1248 | after the query the view can still be filled |
| KeyboardProperties.BeforeKeySteady | Keyboards/KeyboardsBase/KeyboardViewController.swift:998-1008 | the shortcut resets and the Russian present keep the state steady |
| KeyboardProperties.LoadKeysValid | Keyboards/KeyboardsBase/KeyboardViewController.swift:635-681 | reloading the keys from consistent flags gives a valid state |
| KeyboardProperties.ScribeKeepsValid | Keyboards/KeyboardsBase/KeyboardViewController.swift:1011-1049 | the Scribe key keeps the invariant |
| KeyboardProperties.CommandKeysKeepValid | Keyboards/KeyboardsBase/KeyboardViewController.swift:1052-1081 | Translate, Conjugate and Plural keep the invariant |
| KeyboardProperties.PageKeepsValid | Keyboards/KeyboardsBase/KeyboardViewController.swift:1084-1115 | a page turn keeps the invariant |
| KeyboardProperties.SlotKeepsValid | Keyboards/KeyboardsBase/KeyboardViewController.swift:1117-1155 | a slot key keeps the invariant |
| KeyboardProperties.UnshiftSteady | Keyboards/KeyboardsBase/KeyboardViewController.swift:1158-1161 | shift back to normal keeps the state steady, the flags, document, layer and a command's text |
| KeyboardProperties.DeleteKeepsValid | Keyboards/KeyboardsBase/KeyboardViewController.swift:1157-1176 | delete keeps the invariant |
| KeyboardProperties.SpaceTypedSteady | Keyboards/KeyboardsBase/KeyboardViewController.swift:1179-1199 | typing the space keeps the state steady and the mode |
| KeyboardProperties.SpaceTypedInDocument | Keyboards/KeyboardsBase/KeyboardViewController.swift:1179-1186 | outside a command the space ends the document; shift after ". ", "? " or "! ", otherwise never cleared; back to letters |
| KeyboardProperties.SpaceTypesInDocument | Keyboards/KeyboardsBase/KeyboardViewController.swift:1178-1219 | outside a command the space bar appends a space, sets shift after a sentence end, shows the letters, keeps the mode and makes the double-space period possible |
| KeyboardProperties.SpaceTypesInCommand | Keyboards/KeyboardsBase/KeyboardViewController.swift:1187-1219 | during a command the space goes in front of the cursor, the document is untouched, shift follows a sentence end in the bar, the letters come back and the double-space period becomes possible |
| KeyboardProperties.SpaceKeepsValid | Keyboards/KeyboardsBase/KeyboardViewController.swift:1178-1219 | the space bar keeps the invariant |
| KeyboardProperties.AnsweredKeepsCommand | Keyboards/KeyboardsBase/KeyboardViewController.swift:1227-1248 | answering clears every query flag and the input switch, keeps the command; the view opens if and only if a verb was asked for and found, and the command is marked already plural if and only if a plural was asked for and the word already is one, which also marks it invalid and keeps the view closed |
| KeyboardProperties.ReportInvalidValid | Keyboards/KeyboardsBase/KeyboardViewController.swift:1252-1268 | reporting a failed command gives a valid state |
| KeyboardProperties.CloseCommandValid | Keyboards/KeyboardsBase/KeyboardViewController.swift:1269-1289 | closing a successful command gives a valid state |
| KeyboardProperties.ReturnKeepsValid | Keyboards/KeyboardsBase/KeyboardViewController.swift:1227-1289 | return keeps the invariant |
| KeyboardProperties.LayerKeysKeepValid | Keyboards/KeyboardsBase/KeyboardViewController.swift:1291-1311 | the layer keys keep the invariant |
| KeyboardProperties.ApostropheTypes | Keyboards/KeyboardsBase/KeyboardViewController.swift:1313-1321 | the apostrophe is appended to the document (bar cleared) or typed in front of the cursor, and the letters come back; the mode is kept |
| KeyboardProperties.NumberKeysSwitch | Keyboards/KeyboardsBase/KeyboardViewController.swift:1291-1297 | "123" shows the numbers with shift off, keeping document and mode, and clears the bar outside a command |
| KeyboardProperties.SymbolKeysSwitch | Keyboards/KeyboardsBase/KeyboardViewController.swift:1299-1301 | "#+=" shows the symbols, keeping shift, document and mode, and clears the bar outside a command |
| KeyboardProperties.LetterKeysSwitch | Keyboards/KeyboardsBase/KeyboardViewController.swift:1303-1311 | "ABC" shows the letters with shift set at the start of an empty text, otherwise kept; document and mode kept |
| KeyboardProperties.ApostropheKeepsValid | Keyboards/KeyboardsBase/KeyboardViewController.swift:1313-1321 | the apostrophe keeps the invariant |
| KeyboardProperties.ShiftKeepsValid | Keyboards/KeyboardsBase/KeyboardViewController.swift:1323-1327 | shift keeps the invariant |
| KeyboardProperties.LiteralKeepsValid | Keyboards/KeyboardsBase/KeyboardViewController.swift:1329-1339 | typing a character keeps the invariant |
| KeyboardProperties.HandleKeepsValid | Keyboards/KeyboardsBase/KeyboardViewController.swift:1010-1340 | every key that can be pressed keeps the invariant |
| KeyboardProperties.ExecuteKeepsValid | Keyboards/KeyboardsBase/KeyboardViewController.swift:987-1346 | a whole key press keeps the invariant |
| KeyboardProperties.DoubleSpacePeriodKeepsValid | Keyboards/KeyboardsBase/KeyboardViewController.swift:1401-1421 | the double-space period keeps the invariant |
| KeyboardProperties.MultiPressKeepsValid | Keyboards/KeyboardsBase/KeyboardViewController.swift:1375-1422 | every double tap that can happen keeps the invariant |
| KeyboardProperties.AnsweredKeepsShortcuts | Keyboards/KeyboardsBase/KeyboardViewController.swift:1227-1248 | the queries leave both shortcuts as they were |
| KeyboardProperties.ReturnKeepsShortcuts | Keyboards/KeyboardsBase/KeyboardViewController.swift:1227-1289 | return leaves both shortcuts as they were |
| KeyboardProperties.DeleteKeepsShortcuts | Keyboards/KeyboardsBase/KeyboardViewController.swift:1157-1176 | delete leaves both shortcuts as they were |
| KeyboardProperties.SpaceKeepsShortcuts | Keyboards/KeyboardsBase/KeyboardViewController.swift:1178-1219 | the space bar leaves caps lock as it was |
| KeyboardProperties.ScribeKeepsShortcuts | Keyboards/KeyboardsBase/KeyboardViewController.swift:1011-1049 | the Scribe key leaves both shortcuts as they were |
| KeyboardProperties.LiteralKeepsShortcuts | Keyboards/KeyboardsBase/KeyboardViewController.swift:1329-1339 | typing leaves both shortcuts as they were |
| KeyboardProperties.CommandKeysKeepShortcuts | Keyboards/KeyboardsBase/KeyboardViewController.swift:1052-1081 | the command keys leave both shortcuts as they were |
| KeyboardProperties.ViewKeysKeepShortcuts | Keyboards/KeyboardsBase/KeyboardViewController.swift:1084-1155 | page turns and slot keys leave both shortcuts as they were |
| KeyboardProperties.LayerKeysKeepShortcuts | Keyboards/KeyboardsBase/KeyboardViewController.swift:1291-1327 | the layer keys and the apostrophe leave both shortcuts alone; shift makes caps lock possible and keeps the double-space shortcut |
| KeyboardProperties.CommandKeysShortcuts | Keyboards/KeyboardsBase/KeyboardViewController.swift:1011-1155 | the Scribe, command and view keys keep both shortcuts |
| KeyboardProperties.TextKeysShortcuts | Keyboards/KeyboardsBase/KeyboardViewController.swift:1157-1289 | delete, return and typing keep both shortcuts; the space bar makes the double-space period possible |
| KeyboardProperties.LayerKeysShortcuts | Keyboards/KeyboardsBase/KeyboardViewController.swift:1221-1327 | the layer keys keep both shortcuts; shift makes caps lock possible |
| KeyboardProperties.HandleShortcuts | Keyboards/KeyboardsBase/KeyboardViewController.swift:1010-1340 | every handler but shift and the space bar keeps both shortcuts; those two make their own possible and keep the other |
| KeyboardProperties.ClassifyNames | Keyboards/KeyboardsBase/KeyboardViewController.swift:1010-1329 | only "shift" reaches the shift case and only the space bar label the space case |
| KeyboardProperties.ShortcutsReset | Keyboards/KeyboardsBase/KeyboardViewController.swift:998-1005 | after a key other than shift caps lock is impossible, after a key other than the space bar the period shortcut is; shift and the space bar make their own possible |
| KeyboardProperties.ShiftToggles | Keyboards/KeyboardsBase/KeyboardViewController.swift:1323-1327 | shift turns normal into shift and shift or caps into normal (unless the reload sets shift at an empty start), makes caps lock possible, keeps document and mode |
| KeyboardProperties.DoubleTapLocksCaps | Keyboards/KeyboardsBase/KeyboardViewController.swift:1380-1385 | a double tap of shift while possible sets caps (or shift at an empty start) |
| KeyboardProperties.LiteralTypes | Keyboards/KeyboardsBase/KeyboardViewController.swift:1329-1339 | the character goes into the document outside a command, in front of the cursor in one; shift goes back to normal, caps stays |
| KeyboardProperties.ScribeEscapes | Keyboards/KeyboardsBase/KeyboardViewController.swift:1011-1049 | during a command the key clears every flag and empties the bar; armed or over the view it escapes, closes the view and empties the bar; otherwise it arms and keeps the bar; with a selection it disarms |
| KeyboardProperties.CommandKeysStartCommand | Keyboards/KeyboardsBase/KeyboardViewController.swift:1052-1081 | each command key starts a command waiting for exactly its own query, its prompt and the cursor in the bar; Translate switches to letters and sets the input-switch flag |
| KeyboardProperties.DeletePressedSparesPrompt | Keyboards/KeyboardsBase/KeyboardViewController.swift:1162-1167 | a bar holding just a prompt is kept, and shift is set |
| KeyboardProperties.DeletePressedKeepsPrompt | Keyboards/KeyboardsBase/KeyboardViewController.swift:1157-1176 | during a command, delete keeps the prompt the bar starts with |
| KeyboardProperties.DeleteSparesPrompt | Keyboards/KeyboardsBase/KeyboardViewController.swift:1162-1167 | the delete key press leaves a bar holding just a prompt, and the document, alone |
| KeyboardProperties.DeleteKeepsPrompt | Keyboards/KeyboardsBase/KeyboardViewController.swift:1157-1176 | the delete key press never reaches into the prompt |
| KeyboardProperties.ReturnTypesNewline | Keyboards/KeyboardsBase/KeyboardViewController.swift:1249-1251 | outside a command, return types a newline and clears the bar |
| KeyboardProperties.ReturnTypesTranslation | Keyboards/KeyboardsBase/KeyboardViewController.swift:1228-1232 | a found translation is typed into the document; no command or armed key remains, the bar is emptied and no view is open |
| KeyboardProperties.ReturnTypesPlural | Keyboards/KeyboardsBase/KeyboardViewController.swift:1245-1248 | a found plural is typed into the document; no command or armed key remains, the bar is emptied and no view is open |
| KeyboardProperties.AnsweredFails | Keyboards/KeyboardsBase/KeyboardViewController.swift:1227-1248 | a query that finds nothing marks the command invalid, leaving the view closed and the document alone |
| KeyboardProperties.ReturnReportsFailure | Keyboards/KeyboardsBase/KeyboardViewController.swift:1252-1268 | a failed query leaves no command, shows the prompt spacing and the not-found message, and leaves the document alone |
| KeyboardProperties.ReturnReportsAlreadyPlural | Keyboards/KeyboardsBase/KeyboardViewController.swift:1252-1268 | an already-plural word closes the command and keeps its message, except on an empty document with shift off, where the reload empties the bar |
| KeyboardProperties.ReturnOpensConjugationView | Keyboards/KeyboardsBase/KeyboardViewController.swift:1233-1244 | a found verb opens the view at its first page, in the present, title in the bar, tenses and forms in the grid |
| KeyboardProperties.PageTurnShowsNewPage | Keyboards/KeyboardsBase/KeyboardViewController.swift:1084-1115 | a page turn shows the new page's title and tenses |
| KeyboardProperties.SlotCommits | Keyboards/KeyboardsBase/KeyboardViewController.swift:1117-1155 | a slot key types its form, closes the view, empties the bar and shows the layer's keys again |
| KeyboardProperties.DoubleSpaceTypesPeriod | Keyboards/KeyboardsBase/KeyboardViewController.swift:1401-1411 | the space just typed becomes ". ", with letters and shift set |
| KeyboardProperties.DoubleSpaceTypesPeriodInCommand | Keyboards/KeyboardsBase/KeyboardViewController.swift:1413-1419 | during a command the period goes in front of the cursor |
| KeyboardProperties.PunctuationCancelsPeriod | Keyboards/KeyboardsBase/KeyboardViewController.swift:1388-1399 | punctuation before the space cancels the double tap: nothing changes |
| KeyboardProperties.SpacesStaySpaces | Keyboards/KeyboardsBase/KeyboardViewController.swift:1405-1406 | two spaces ending the document are left alone; only the bar is cleared, when the shortcut was possible |
| KeyboardController.KeyboardViewController.SetConjugationState | Keyboards/KeyboardsBase/KeyboardViewController.swift:482-539 | the fields become the view's title and filled slots |
| KeyboardController.KeyboardViewController.ReloadLayer | Keyboards/KeyboardsBase/KeyboardViewController.swift:643-681 | the grid choice, the invalid flag cleared, the layer's keys, and shift at an empty start |
| KeyboardController.KeyboardViewController.LoadKeys | Keyboards/KeyboardsBase/KeyboardViewController.swift:635-978 | the fields as reloading the keys leaves them |
| KeyboardController.KeyboardViewController.ClearCommandBar | Keyboards/KeyboardsBase/KeyboardViewController.swift:180-188 | the bar is " " outside a command |
| KeyboardController.KeyboardViewController.HandleDeleteButtonPressed | Keyboards/KeyboardsBase/KeyboardViewController.swift:191-206 | the deletion in the document or in front of the cursor |
| KeyboardController.KeyboardViewController.ChangeKeyboardToLetterKeys | Keyboards/KeyboardsBase/KeyboardViewController.swift:20-23 | letters, keys reloaded |
| KeyboardController.KeyboardViewController.ChangeKeyboardToNumberKeys | Keyboards/KeyboardsBase/KeyboardViewController.swift:26-30 | numbers, shift off, keys reloaded |
| KeyboardController.KeyboardViewController.ChangeKeyboardToSymbolKeys | Keyboards/KeyboardsBase/KeyboardViewController.swift:33-36 | symbols, keys reloaded |
| KeyboardController.KeyboardViewController.ShiftAndLoad | Keyboards/KeyboardsBase/KeyboardViewController.swift:1354-1356 | shift set, then the keys reloaded |
| KeyboardController.KeyboardViewController.AutoCapAtStartOfProxy | Keyboards/KeyboardsBase/KeyboardViewController.swift:1351-1360 | shift at the start of an empty text |
| KeyboardController.KeyboardViewController.Unshift | Keyboards/KeyboardsBase/KeyboardViewController.swift:1158-1161 | shift back to normal, keys reloaded |
| KeyboardController.KeyboardViewController.BeforeKey | Keyboards/KeyboardsBase/KeyboardViewController.swift:998-1008 | the shortcut resets and the Russian present |
| KeyboardController.KeyboardViewController.ScribeMode | Keyboards/KeyboardsBase/KeyboardViewController.swift:1011-1047 | the mode and view after the Scribe key: disarmed over a selection, escaped from a command, armed, or escaped from the armed key or the view |
| KeyboardController.KeyboardViewController.ScribePressed | Keyboards/KeyboardsBase/KeyboardViewController.swift:1011-1049 | the Scribe key's flags, then the reload |
| KeyboardController.KeyboardViewController.TranslatePressed | Keyboards/KeyboardsBase/KeyboardViewController.swift:1052-1060 | the translation command started |
| KeyboardController.KeyboardViewController.ConjugatePressed | Keyboards/KeyboardsBase/KeyboardViewController.swift:1063-1068 | the conjugation command started |
| KeyboardController.KeyboardViewController.PluralPressed | Keyboards/KeyboardsBase/KeyboardViewController.swift:1071-1081 | the plural command started, shift set in German |
| KeyboardController.KeyboardViewController.PagePressed | Keyboards/KeyboardsBase/KeyboardViewController.swift:1084-1115 | the new page shown |
| KeyboardController.KeyboardViewController.SlotPressed | Keyboards/KeyboardsBase/KeyboardViewController.swift:1117-1155 | the form committed, the view closed |
| KeyboardController.KeyboardViewController.DeletePressed | Keyboards/KeyboardsBase/KeyboardViewController.swift:1157-1176 | the delete key's effect |
| KeyboardController.KeyboardViewController.DeleteOutsidePrompt | Keyboards/KeyboardsBase/KeyboardViewController.swift:1168-1176 | the deletion, then shift at a nil start and the bar cleared |
| KeyboardController.KeyboardViewController.SpaceTyped | Keyboards/KeyboardsBase/KeyboardViewController.swift:1179-1199 | the fields become the session's typed space (its content stated by SpaceTypedInDocument and SpaceTypesInCommand) |
| KeyboardController.KeyboardViewController.AfterSpace | Keyboards/KeyboardsBase/KeyboardViewController.swift:1200-1219 | annotations reset, bar cleared after two spaces, period shortcut possible |
| KeyboardController.KeyboardViewController.SpacePressed | Keyboards/KeyboardsBase/KeyboardViewController.swift:1178-1219 | the fields become the session's space bar press (its content stated by SpaceTypesInDocument and SpaceTypesInCommand) |
| KeyboardController.KeyboardViewController.ReturnTranslation | Keyboards/KeyboardsBase/KeyboardViewController.swift:1228-1232 | the translation answered, its flag and the input switch cleared |
| KeyboardController.KeyboardViewController.ReturnConjugation | Keyboards/KeyboardsBase/KeyboardViewController.swift:1233-1244 | the conjugation answered from the indicative present, its flag cleared |
| KeyboardController.KeyboardViewController.OpenConjugationView | Keyboards/KeyboardsBase/KeyboardViewController.swift:1237-1239 | the found verb's view at its first page, keys reloaded |
| KeyboardController.KeyboardViewController.ReturnPlural | Keyboards/KeyboardsBase/KeyboardViewController.swift:1245-1248 | the plural answered, its flag cleared |
| KeyboardController.KeyboardViewController.Answered | Keyboards/KeyboardsBase/KeyboardViewController.swift:1227-1248 | the pending query answered |
| KeyboardController.KeyboardViewController.EndCommand | Keyboards/KeyboardsBase/KeyboardViewController.swift:1253-1259 | the command off, the input switched back |
| KeyboardController.KeyboardViewController.ReportInvalid | Keyboards/KeyboardsBase/KeyboardViewController.swift:1252-1268 | the failed command reported |
| KeyboardController.KeyboardViewController.CloseCommand | Keyboards/KeyboardsBase/KeyboardViewController.swift:1269-1289 | the successful command closed |
| KeyboardController.KeyboardViewController.ReturnPressed | Keyboards/KeyboardsBase/KeyboardViewController.swift:1227-1289 | the return key's effect |
| KeyboardController.KeyboardViewController.ApostrophePressed | Keyboards/KeyboardsBase/KeyboardViewController.swift:1313-1321 | the apostrophe typed, back to letters |
| KeyboardController.KeyboardViewController.ShiftPressed | Keyboards/KeyboardsBase/KeyboardViewController.swift:1323-1327 | shift toggled, caps lock possible |
| KeyboardController.KeyboardViewController.LiteralPressed | Keyboards/KeyboardsBase/KeyboardViewController.swift:1329-1339 | the character typed |
| KeyboardController.KeyboardViewController.HandleKey | Keyboards/KeyboardsBase/KeyboardViewController.swift:1010-1340 | the key switch |
| KeyboardController.KeyboardViewController.ExecuteKeyActions | Keyboards/KeyboardsBase/KeyboardViewController.swift:987-1346 | a whole key press, and the invariant kept |
| KeyboardController.KeyboardViewController.DoubleSpacePeriod | Keyboards/KeyboardsBase/KeyboardViewController.swift:1401-1421 | the double-space period |
| KeyboardController.KeyboardViewController.RestartSentence | Keyboards/KeyboardsBase/KeyboardViewController.swift:1406-1418 | the period typed, letters and shift set, keys reloaded |
| KeyboardController.KeyboardViewController.CapsLockTap | Keyboards/KeyboardsBase/KeyboardViewController.swift:1380-1385 | caps locked on a double tap of shift |
| KeyboardController.KeyboardViewController.KeyMultiPress | Keyboards/KeyboardsBase/KeyboardViewController.swift:1375-1422 | a repeated tap, and the invariant kept |
| KeyboardController.KeyboardViewController.LoadInterface | Keyboards/KeyboardsBase/KeyboardViewController.swift:41-57 | letters, no command, no armed key, no view, keys reloaded |
| KeyboardController.KeyboardViewController.constructor | Keyboards/KeyboardsBase/KeyboardViewController.swift:126-136 | letters, no command, no armed key, no view, an empty bar, shift only at the start of a text reported as empty, no shortcut possible; it starts in the invariant |

## Left out

- Drawing and layout: UIKit views, colours, fonts, corner radii, key widths, dark mode, the stack views' margins, button styling and activation. `loadKeys` is modelled only for the state it changes.
- Timers and long presses: the backspace timer, `keyLongPressed`, the alternates view and `keyUntouched`. These are event plumbing and hold no logical state.
- The noun and preposition annotation routines (`selectedNounAnnotation`, `typedNounAnnotation` and the like). They are defined outside `KeyboardViewController.swift`. The model keeps only `nounAnnotationsToDisplay` and the choice of preposition labels.
- The query functions (`queryTranslation`, `triggerConjugation`, `queryPlural`), `returnConjugation` and each language's paging functions. They are defined outside the file. Their outcomes are the `Answer` parameter, and a page turn reports the new page through it.
- Prompt protection assumes two things about globals set outside these files. `allPrompts` holds the three prompt-and-cursor strings of the language. `commandCursor` is not empty. `PromptsWellFormed` states both, and the controller requires it. The delete key's guard keeps a bare prompt only under these assumptions, and so do `CommandKeysStartCommand` and `RussianLayoutWellFormed`.
- KeyboardSession.SlotPressed: `returnConjugation` is defined outside the file. The model assumes it types the committed form and closes the conjugation view; the subsequent `loadKeys` then shows the layer's keys again.
- `controllerLanguage`, the key-name strings of the per-language globals and `commandCursor`/`commandPromptSpacing` are inputs (`Env`). Their initial values in the globals file are not part of this model.
- The switched input layout: `loadKeys` calls `setKeyboard()` (KeyboardViewController.swift:640), which is defined outside the file. While `switchInput` is set during a translation, it shows another input method's keys. The model keeps one configuration for the whole session and records only the flag. During a translation it therefore shows the keyboard language's own layer keys (`LayerKeys`), and the reload when the flag is cleared changes nothing on screen.
- `roubleAlternateKeys` and `getControllerLanguageAbbr()` are defined outside the Russian file, so they are parameters of `SetRUKeyboardLayout`.
- Grouped fields: the controller's flags are grouped into the records `mode`, `view` and `display` instead of separate stored properties. Each record is still updated field by field, and no aliasing is involved.
- Host text: the proxy's text before the cursor is modelled as the whole document. A selection is the `hasSelection` flag. `insertText` and `deleteBackward` are sequence updates.
- KeyboardProperties.SpaceTypesInCommand: during a plural command the space key also passes the command bar to `typedNounAnnotation` and `typedPrepAnnotation` (KeyboardViewController.swift:1201–1213). These routines are defined outside the file, and the model takes them to leave the bar as it is. The stated bar body, with its trailing space, rests on that assumption.
- KeyboardProperties.ReturnTypesTranslation: after a successful command closes, return passes the emptied bar to `typedNounAnnotation` and `typedPrepAnnotation` (KeyboardViewController.swift:1276–1288). The model takes them to leave the bar as it is, and the stated empty bar rests on that assumption.
- KeyboardProperties.ReturnTypesPlural: the same calls at KeyboardViewController.swift:1276–1288 follow a found plural. Its stated empty bar likewise rests on the assumption that the annotation routines leave the bar alone.
- The Scribe key over a selection calls annotation routines that change what the bar shows. The model only disarms the key and reloads the keys.
- `advanceToNextInputMode` and `dismissKeyboard` (the select and hide keys) leave the modelled state alone.
- Force unwraps that would crash are preconditions instead:
  - the command keys are pressable only while the Scribe key is armed;
  - the paging and slot keys only in the conjugation view;
  - a double tap reads the character before the last only when it exists (`MultiPressable`);
  - while the conjugation view is shown, only the Scribe key, the paging keys and the slot keys are pressable (`Allowed`), because the source disables the key rows there (lines 956–958 of KeyboardViewController.swift);
  - a conjugation page is shown only when the verb's forms hold every tense of both grids (`ViewReady`), where the source's `as! String` cast on a missing tense would crash.
- KeyboardSession.AutoCapAtStartOfProxy: the source types a space, reloads the keys with that space in the host and deletes it again. The model reloads over the unchanged text. The only difference is whether the reload sees a zero-length text, and shift is already set at that point.
- RussianInterface.SetRUKeyboardLayout: the Swift globals `еAlternateKeys` and `ьAlternateKeys` are kept as the entries for "е" and "ь" of one `alternateKeys` map. Storing a list there is the same as assigning its global.
- The Python script's file input and output, `sys.argv` and the final `print` are left out. `FormatPrepositions` starts from the parsed records and returns the ordered entries.
- GermanPrepositions.OrderAnnotations: the script's single-annotation list holds "Akk" while `convert_cases` produces "Acc". An "Acc" annotation therefore takes the sorting branch. `OrderAnnotationsSortsComponents` proves that both branches give the same result.
- Strings are sequences of characters. Python's string order is modelled as lexicographic order on characters.
- Conjugation.Capitalized: only ASCII letters change case, and only a space starts a word. Swift's `capitalized` also maps Cyrillic and accented letters and treats other whitespace as word breaks. A capitalized Russian or German verb with such letters would show in lower case in the model.
