/** The per-language interface globals that the keyboard controller reads:
    key layouts, the registry of keys with alternates, and the localized
    command strings. */
module Interface {

  /** The keyboard layer on display. */
  datatype KeyboardState = Letters | Numbers | Symbols

  /** The state of the shift key. */
  datatype ShiftState = Normal | Shift | Caps

  /** A key layout: rows of key names. */
  type Layout = seq<seq<string>>

  /** The values of the interface globals, as one record. */
  datatype LayoutConfig = LayoutConfig(
    letterKeys: Layout,
    numberKeys: Layout,
    symbolKeys: Layout,
    keysWithAlternates: seq<string>,
    keysWithAlternatesLeft: seq<string>,
    keysWithAlternatesRight: seq<string>,
    alternateKeys: map<string, seq<string>>,
    currencySymbol: string,
    currencySymbolAlternates: seq<string>,
    spaceBar: string,
    invalidCommandMsg: string,
    translateKeyLbl: string,
    translatePrompt: string,
    translatePromptAndCursor: string,
    conjugateKeyLbl: string,
    conjugatePrompt: string,
    conjugatePromptAndCursor: string,
    pluralKeyLbl: string,
    pluralPrompt: string,
    pluralPromptAndCursor: string,
    commandPromptSpacing: string,
    commandCursor: string,
    allPrompts: seq<string>)

  /** The module-level globals a language's layout function assigns. The
      alternates of each key with alternates are kept in `alternateKeys`,
      keyed by the key. */
  class InterfaceGlobals {
    var letterKeys: Layout
    var numberKeys: Layout
    var symbolKeys: Layout
    var keysWithAlternates: seq<string>
    var keysWithAlternatesLeft: seq<string>
    var keysWithAlternatesRight: seq<string>
    var alternateKeys: map<string, seq<string>>
    var currencySymbol: string
    var currencySymbolAlternates: seq<string>
    var spaceBar: string
    var invalidCommandMsg: string
    var translateKeyLbl: string
    var translatePrompt: string
    var translatePromptAndCursor: string
    var conjugateKeyLbl: string
    var conjugatePrompt: string
    var conjugatePromptAndCursor: string
    var pluralKeyLbl: string
    var pluralPrompt: string
    var pluralPromptAndCursor: string
    var commandPromptSpacing: string
    var commandCursor: string
    var allPrompts: seq<string>

    /** The globals as one value. */
    function Config(): LayoutConfig
      reads this
    {
      LayoutConfig(letterKeys, numberKeys, symbolKeys,
        keysWithAlternates, keysWithAlternatesLeft, keysWithAlternatesRight, alternateKeys,
        currencySymbol, currencySymbolAlternates, spaceBar, invalidCommandMsg,
        translateKeyLbl, translatePrompt, translatePromptAndCursor,
        conjugateKeyLbl, conjugatePrompt, conjugatePromptAndCursor,
        pluralKeyLbl, pluralPrompt, pluralPromptAndCursor,
        commandPromptSpacing, commandCursor, allPrompts)
    }

    /** Globals that start out empty, except for the command prompt spacing
        and cursor marker, which the keyboard sets up before any language. */
    constructor (spacing: string, cursor: string)
      ensures commandPromptSpacing == spacing && commandCursor == cursor
      ensures letterKeys == [] && numberKeys == [] && symbolKeys == []
      ensures allPrompts == []
    {
      letterKeys, numberKeys, symbolKeys := [], [], [];
      keysWithAlternates, keysWithAlternatesLeft, keysWithAlternatesRight := [], [], [];
      alternateKeys := map[];
      currencySymbol, currencySymbolAlternates := "", [];
      spaceBar, invalidCommandMsg := "", "";
      translateKeyLbl, translatePrompt, translatePromptAndCursor := "", "", "";
      conjugateKeyLbl, conjugatePrompt, conjugatePromptAndCursor := "", "", "";
      pluralKeyLbl, pluralPrompt, pluralPromptAndCursor := "", "", "";
      commandPromptSpacing, commandCursor := spacing, cursor;
      allPrompts := [];
    }
  }

  /** Every row of a layout holds at least one key. */
  predicate RowsNonEmpty(layout: Layout)
  {
    forall r :: 0 <= r < |layout| ==> |layout[r]| > 0
  }

  /** `key` appears somewhere in `layout`. */
  predicate HasKey(layout: Layout, key: string)
  {
    exists r :: 0 <= r < |layout| && key in layout[r]
  }

  /** What the controller needs from the layout tables: four non-empty rows
      per layer, as there are four stack views to fill; a way back to letters
      from the number and symbol layers, and shift and delete on the letter
      layer; the left and right alternates registries split the list of keys
      with alternates, and each such key has alternates. */
  ghost predicate TablesWellFormed(cfg: LayoutConfig, backToLetters: string)
  {
    && |cfg.letterKeys| == 4 && |cfg.numberKeys| == 4 && |cfg.symbolKeys| == 4
    && RowsNonEmpty(cfg.letterKeys) && RowsNonEmpty(cfg.numberKeys) && RowsNonEmpty(cfg.symbolKeys)
    && HasKey(cfg.letterKeys, "shift") && HasKey(cfg.letterKeys, "delete")
    && HasKey(cfg.numberKeys, backToLetters) && HasKey(cfg.symbolKeys, backToLetters)
    && (forall k :: k in cfg.keysWithAlternates <==> k in cfg.keysWithAlternatesLeft || k in cfg.keysWithAlternatesRight)
    && (forall k :: k in cfg.keysWithAlternatesLeft ==> k !in cfg.keysWithAlternatesRight)
    && (forall k :: k in cfg.keysWithAlternates ==> k in cfg.alternateKeys && |cfg.alternateKeys[k]| > 0)
  }

  /** What the controller needs from the command strings: each
      prompt-and-cursor string is its prompt followed by a non-empty cursor
      marker and is one of the protected prompts, and the space bar is not
      named "shift". */
  predicate PromptsWellFormed(cfg: LayoutConfig)
  {
    && cfg.translatePromptAndCursor == cfg.translatePrompt + cfg.commandCursor
    && cfg.conjugatePromptAndCursor == cfg.conjugatePrompt + cfg.commandCursor
    && cfg.pluralPromptAndCursor == cfg.pluralPrompt + cfg.commandCursor
    && cfg.translatePromptAndCursor in cfg.allPrompts
    && cfg.conjugatePromptAndCursor in cfg.allPrompts
    && cfg.pluralPromptAndCursor in cfg.allPrompts
    && |cfg.commandCursor| > 0
    && cfg.spaceBar != "shift"
  }

  ghost predicate WellFormed(cfg: LayoutConfig, backToLetters: string)
  {
    TablesWellFormed(cfg, backToLetters) && PromptsWellFormed(cfg)
  }
}
