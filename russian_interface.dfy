/** The Russian keyboard: its key tables, its registry of keys with
    alternates, and the layout function that stores them, with the Russian
    command strings, in the interface globals. */
module RussianInterface {
  import opened Interface
  import opened CommandText

  // ---------------------------------------------------------------------------
  // Key tables
  // ---------------------------------------------------------------------------

  const LetterKeysPhone: Layout := [
    ["й", "ц", "у", "к", "е", "н", "г", "ш", "щ", "з", "х"],
    ["ф", "ы", "в", "а", "п", "р", "о", "л", "д", "ж", "э"],
    ["shift", "я", "ч", "с", "м", "и", "т", "ь", "б", "ю", "delete"],
    ["123", "selectKeyboard", "space", "return"]
  ]

  const NumberKeysPhone: Layout := [
    ["1", "2", "3", "4", "5", "6", "7", "8", "9", "0"],
    ["-", "/", ":", ";", "(", ")", "₽", "&", "@", "\""],
    ["#+=", ".", ",", "?", "!", "'", "delete"],
    ["АБВ", "selectKeyboard", "space", "return"]
  ]

  const SymbolKeysPhone: Layout := [
    ["[", "]", "{", "}", "#", "%", "^", "*", "+", "="],
    ["_", "\\", "|", "~", "<", ">", "$", "€", "£", "·"],
    ["123", ".", ",", "?", "!", "'", "delete"],
    ["АБВ", "selectKeyboard", "space", "return"]
  ]

  const LetterKeysPad: Layout := [
    ["й", "ц", "у", "к", "е", "н", "г", "ш", "щ", "з", "х", "delete"],
    ["ф", "ы", "в", "а", "п", "р", "о", "л", "д", "ж", "э", "return"],
    ["shift", "я", "ч", "с", "м", "и", "т", "ь", "б", "ю", ".", "shift"],
    [".?123", "selectKeyboard", "space", ".?123", "hideKeyboard"]
  ]

  const NumberKeysPad: Layout := [
    ["1", "2", "3", "4", "5", "6", "7", "8", "9", "0", "—", "delete"],
    ["@", "#", "№", "₽", "ʼ", "&", "*", "(", ")", "'", "\"", "return"],
    ["#+=", "%", "_", "-", "+", "=", "≠", ";", ":", ",", ".", "#+="],
    ["АБВ", "selectKeyboard", "space", "АБВ", "hideKeyboard"]
  ]

  const SymbolKeysPad: Layout := [
    ["1", "2", "3", "4", "5", "6", "7", "8", "9", "0", "—", "delete"],
    ["$", "€", "£", "¥", "±", "·", "`", "[", "]", "{", "}", "return"],
    ["123", "§", "|", "~", "...", "^", "\\", "<", ">", "!", "?", "123"],
    ["АБВ", "selectKeyboard", "space", "АБВ", "hideKeyboard"]
  ]

  // ---------------------------------------------------------------------------
  // Keys with alternates
  // ---------------------------------------------------------------------------

  const KeysWithAlternates: seq<string> := ["е", "ь"]
  const KeysWithAlternatesLeft: seq<string> := ["е"]
  const KeysWithAlternatesRight: seq<string> := ["ь"]

  /** The alternate of the Cyrillic "е" is written as the Latin "ë" (U+00EB). */
  const YeAlternateKeys: seq<string> := ["\U{00EB}"]
  /** The alternate of the soft sign "ь" is the capital hard sign "Ъ". */
  const SoftSignAlternateKeys: seq<string> := ["Ъ"]

  /** The key that returns from the number and symbol layers to letters. */
  const BackToLetters: string := "АБВ"

  // ---------------------------------------------------------------------------
  // The layout function
  // ---------------------------------------------------------------------------

  /** The globals after the Russian layout function: the phone tables exactly
      on a phone, the Russian registry, messages, labels and prompts, the
      prompts built from the prompt spacing and cursor marker already in
      place. Everything else keeps its value. */
  function RussianLayout(cfg: LayoutConfig, isPhone: bool, languageAbbr: string,
                         roubleAlternateKeys: seq<string>): (r: LayoutConfig)
    ensures r.commandPromptSpacing == cfg.commandPromptSpacing
    ensures r.commandCursor == cfg.commandCursor
    ensures r.allPrompts == cfg.allPrompts
  {
    WithPlural(WithConjugate(WithTranslate(WithMessages(WithAlternates(WithTables(cfg, isPhone)),
      roubleAlternateKeys), languageAbbr)))
  }

  function WithTables(cfg: LayoutConfig, isPhone: bool): LayoutConfig
  {
    if isPhone then cfg.(letterKeys := LetterKeysPhone, numberKeys := NumberKeysPhone, symbolKeys := SymbolKeysPhone)
    else cfg.(letterKeys := LetterKeysPad, numberKeys := NumberKeysPad, symbolKeys := SymbolKeysPad)
  }

  function WithAlternates(cfg: LayoutConfig): LayoutConfig
  {
    cfg.(keysWithAlternates := KeysWithAlternates,
         keysWithAlternatesLeft := KeysWithAlternatesLeft,
         keysWithAlternatesRight := KeysWithAlternatesRight,
         alternateKeys := cfg.alternateKeys["е" := YeAlternateKeys]["ь" := SoftSignAlternateKeys])
  }

  function WithMessages(cfg: LayoutConfig, roubleAlternateKeys: seq<string>): LayoutConfig
  {
    cfg.(currencySymbol := "₽", currencySymbolAlternates := roubleAlternateKeys,
         spaceBar := "Пробел", invalidCommandMsg := "Нет в каталоге")
  }

  function WithTranslate(cfg: LayoutConfig, languageAbbr: string): LayoutConfig
  {
    var prompt := cfg.commandPromptSpacing + "ru -› " + languageAbbr + ": ";
    cfg.(translateKeyLbl := "Перевести", translatePrompt := prompt,
         translatePromptAndCursor := prompt + cfg.commandCursor)
  }

  function WithConjugate(cfg: LayoutConfig): LayoutConfig
  {
    var prompt := cfg.commandPromptSpacing + "Спрягать: ";
    cfg.(conjugateKeyLbl := "Спрягать", conjugatePrompt := prompt,
         conjugatePromptAndCursor := prompt + cfg.commandCursor)
  }

  function WithPlural(cfg: LayoutConfig): LayoutConfig
  {
    var prompt := cfg.commandPromptSpacing + "Множ: ";
    cfg.(pluralKeyLbl := "Множ", pluralPrompt := prompt,
         pluralPromptAndCursor := prompt + cfg.commandCursor)
  }

  /** Stores the Russian layout in the interface globals. The device class,
      the language abbreviation of the translation target and the rouble
      alternates, all defined outside this file, are parameters. */
  method SetRUKeyboardLayout(g: InterfaceGlobals, isPhone: bool, languageAbbr: string,
                             roubleAlternateKeys: seq<string>)
    modifies g
    ensures g.Config() == RussianLayout(old(g.Config()), isPhone, languageAbbr, roubleAlternateKeys)
  {
    StoreTables(g, isPhone);
    StoreAlternates(g);
    StoreMessages(g, roubleAlternateKeys);
    StoreTranslate(g, languageAbbr);
    StoreConjugate(g);
    StorePlural(g);
  }

  /** The phone tables on a phone, the pad tables otherwise. */
  method StoreTables(g: InterfaceGlobals, isPhone: bool)
    modifies g
    ensures g.Config() == WithTables(old(g.Config()), isPhone)
  {
    if isPhone {
      g.letterKeys := LetterKeysPhone;
      g.numberKeys := NumberKeysPhone;
      g.symbolKeys := SymbolKeysPhone;
    } else {
      g.letterKeys := LetterKeysPad;
      g.numberKeys := NumberKeysPad;
      g.symbolKeys := SymbolKeysPad;
    }
  }

  /** The registry of keys with alternates, and their alternates. */
  method StoreAlternates(g: InterfaceGlobals)
    modifies g
    ensures g.Config() == WithAlternates(old(g.Config()))
  {
    g.keysWithAlternates := KeysWithAlternates;
    g.keysWithAlternatesLeft := KeysWithAlternatesLeft;
    g.keysWithAlternatesRight := KeysWithAlternatesRight;
    g.alternateKeys := g.alternateKeys["е" := YeAlternateKeys];
    g.alternateKeys := g.alternateKeys["ь" := SoftSignAlternateKeys];
  }

  /** The currency, the space bar label and the not-found message. */
  method StoreMessages(g: InterfaceGlobals, roubleAlternateKeys: seq<string>)
    modifies g
    ensures g.Config() == WithMessages(old(g.Config()), roubleAlternateKeys)
  {
    g.currencySymbol := "₽";
    g.currencySymbolAlternates := roubleAlternateKeys;
    g.spaceBar := "Пробел";
    g.invalidCommandMsg := "Нет в каталоге";
  }

  /** Each command key's label, its prompt and the prompt followed by the cursor. */
  method StoreTranslate(g: InterfaceGlobals, languageAbbr: string)
    modifies g
    ensures g.Config() == WithTranslate(old(g.Config()), languageAbbr)
  {
    g.translateKeyLbl := "Перевести";
    g.translatePrompt := g.commandPromptSpacing + "ru -› " + languageAbbr + ": ";
    g.translatePromptAndCursor := g.translatePrompt + g.commandCursor;
  }

  method StoreConjugate(g: InterfaceGlobals)
    modifies g
    ensures g.Config() == WithConjugate(old(g.Config()))
  {
    g.conjugateKeyLbl := "Спрягать";
    g.conjugatePrompt := g.commandPromptSpacing + "Спрягать: ";
    g.conjugatePromptAndCursor := g.conjugatePrompt + g.commandCursor;
  }

  method StorePlural(g: InterfaceGlobals)
    modifies g
    ensures g.Config() == WithPlural(old(g.Config()))
  {
    g.pluralKeyLbl := "Множ";
    g.pluralPrompt := g.commandPromptSpacing + "Множ: ";
    g.pluralPromptAndCursor := g.pluralPrompt + g.commandCursor;
  }

  // ---------------------------------------------------------------------------
  // Properties of the tables and of the layout function
  // ---------------------------------------------------------------------------

  /** The phone tables are stored exactly on a phone, the pad tables otherwise. */
  lemma RussianLayoutDevice(cfg: LayoutConfig, isPhone: bool, languageAbbr: string,
                            roubleAlternateKeys: seq<string>)
    ensures var r := RussianLayout(cfg, isPhone, languageAbbr, roubleAlternateKeys);
      && (r.letterKeys == LetterKeysPhone <==> isPhone)
      && (r.numberKeys == NumberKeysPhone <==> isPhone)
      && (r.symbolKeys == SymbolKeysPhone <==> isPhone)
      && (r.letterKeys == LetterKeysPad <==> !isPhone)
      && (r.numberKeys == NumberKeysPad <==> !isPhone)
      && (r.symbolKeys == SymbolKeysPad <==> !isPhone)
  {
    assert |LetterKeysPhone[0]| != |LetterKeysPad[0]|;
    assert |NumberKeysPhone[0]| != |NumberKeysPad[0]|;
    assert |SymbolKeysPhone[0]| != |SymbolKeysPad[0]|;
  }

  /** The Russian space bar label, not-found message and currency. */
  lemma RussianLayoutStrings(cfg: LayoutConfig, isPhone: bool, languageAbbr: string,
                             roubleAlternateKeys: seq<string>)
    ensures var r := RussianLayout(cfg, isPhone, languageAbbr, roubleAlternateKeys);
      && r.spaceBar == "Пробел" && r.invalidCommandMsg == "Нет в каталоге"
      && r.currencySymbol == "₽" && r.currencySymbolAlternates == roubleAlternateKeys
  {
  }

  /** Each prompt starts with the prompt spacing, and each prompt-and-cursor
      string is its prompt followed by the cursor marker. */
  lemma RussianPrompts(cfg: LayoutConfig, isPhone: bool, languageAbbr: string,
                       roubleAlternateKeys: seq<string>)
    ensures var r := RussianLayout(cfg, isPhone, languageAbbr, roubleAlternateKeys);
      && r.translatePrompt[..|cfg.commandPromptSpacing|] == cfg.commandPromptSpacing
      && r.conjugatePrompt[..|cfg.commandPromptSpacing|] == cfg.commandPromptSpacing
      && r.pluralPrompt[..|cfg.commandPromptSpacing|] == cfg.commandPromptSpacing
      && r.translatePromptAndCursor == r.translatePrompt + cfg.commandCursor
      && r.conjugatePromptAndCursor == r.conjugatePrompt + cfg.commandCursor
      && r.pluralPromptAndCursor == r.pluralPrompt + cfg.commandCursor
      && EndsWith(r.translatePromptAndCursor, cfg.commandCursor)
      && Body(r.translatePromptAndCursor, cfg.commandCursor) == r.translatePrompt
  {
    var r := RussianLayout(cfg, isPhone, languageAbbr, roubleAlternateKeys);
    var spacing := cfg.commandPromptSpacing;
    assert (spacing + ("ru -› " + languageAbbr + ": "))[..|spacing|] == spacing;
    assert spacing + "ru -› " + languageAbbr + ": " == spacing + ("ru -› " + languageAbbr + ": ");
    assert (spacing + "Спрягать: ")[..|spacing|] == spacing;
    assert (spacing + "Множ: ")[..|spacing|] == spacing;
    BodyOfCursorEnded(r.translatePrompt, cfg.commandCursor);
  }

  /** Every Russian layout, phone and pad, has the four rows the keyboard
      fills, none of them empty. */
  lemma RussianTablesRows()
    ensures |LetterKeysPhone| == |NumberKeysPhone| == |SymbolKeysPhone| == 4
    ensures |LetterKeysPad| == |NumberKeysPad| == |SymbolKeysPad| == 4
    ensures RowsNonEmpty(LetterKeysPhone) && RowsNonEmpty(NumberKeysPhone) && RowsNonEmpty(SymbolKeysPhone)
    ensures RowsNonEmpty(LetterKeysPad) && RowsNonEmpty(NumberKeysPad) && RowsNonEmpty(SymbolKeysPad)
  {
  }

  /** The letter layouts carry shift and delete; the number and symbol
      layouts carry the key back to letters. */
  lemma RussianTablesKeys()
    ensures HasKey(LetterKeysPhone, "shift") && HasKey(LetterKeysPhone, "delete")
    ensures HasKey(LetterKeysPad, "shift") && HasKey(LetterKeysPad, "delete")
    ensures HasKey(NumberKeysPhone, BackToLetters) && HasKey(SymbolKeysPhone, BackToLetters)
    ensures HasKey(NumberKeysPad, BackToLetters) && HasKey(SymbolKeysPad, BackToLetters)
  {
    assert "shift" in LetterKeysPhone[2] && "delete" in LetterKeysPhone[2];
    assert "shift" in LetterKeysPad[2] && "delete" in LetterKeysPad[0];
    assert BackToLetters in NumberKeysPhone[3] && BackToLetters in SymbolKeysPhone[3];
    assert BackToLetters in NumberKeysPad[3] && BackToLetters in SymbolKeysPad[3];
  }

  /** The left and right registries split the keys with alternates, and each
      of them has at least one alternate. */
  lemma RussianAlternatesRegistry(cfg: LayoutConfig, isPhone: bool, languageAbbr: string,
                                  roubleAlternateKeys: seq<string>)
    ensures var r := RussianLayout(cfg, isPhone, languageAbbr, roubleAlternateKeys);
      && (forall k :: k in r.keysWithAlternates <==> k in r.keysWithAlternatesLeft || k in r.keysWithAlternatesRight)
      && (forall k :: k in r.keysWithAlternatesLeft ==> k !in r.keysWithAlternatesRight)
      && (forall k :: k in r.keysWithAlternates ==> k in r.alternateKeys && |r.alternateKeys[k]| > 0)
  {
  }

  /** With its three prompts registered as the protected prompts and a
      non-empty cursor marker, the Russian layout meets everything the
      controller needs of a layout. */
  lemma RussianLayoutWellFormed(cfg: LayoutConfig, isPhone: bool, languageAbbr: string,
                                roubleAlternateKeys: seq<string>)
    requires |cfg.commandCursor| > 0
    ensures var r := RussianLayout(cfg, isPhone, languageAbbr, roubleAlternateKeys);
      WellFormed(r.(allPrompts := [r.translatePromptAndCursor, r.conjugatePromptAndCursor, r.pluralPromptAndCursor]),
                 BackToLetters)
  {
    RussianTablesRows();
    RussianTablesKeys();
    RussianAlternatesRegistry(cfg, isPhone, languageAbbr, roubleAlternateKeys);
  }
}
