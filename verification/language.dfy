/** `src/contexts/LanguageContext.tsx`: the current language, how it starts
    from the browser's stored value, how it changes, and the `t` it binds.
    The stored value `portal_lang` is kept in the state next to the language.
    The language is a plain code string: the page casts whatever is stored
    without checking it. */
module LanguageContext {
  import opened JsValues
  import opened Translations

  datatype LanguageState = LanguageState(language: string, stored: Option<string>)

  /** The language at start-up: the stored value when it is non-empty, else "en". */
  function Initial(stored: Option<string>): (s: LanguageState)
    ensures Truthy(stored) ==> s.language == stored.value
    ensures !Truthy(stored) ==> s.language == "en"
    ensures s.stored == stored
    ensures s.language != ""
  {
    LanguageState(OrElse(stored, "en"), stored)
  }

  /** `setLanguage(l)`: the language and the stored value both become `l`. */
  function SetLanguage(s: LanguageState, l: Language): (t: LanguageState)
    ensures t.language == Code(l) && t.stored == Some(Code(l))
  {
    LanguageState(Code(l), Some(Code(l)))
  }

  /** The `t` the context hands out: the table lookup in the current language. */
  function Translate(table: Table, s: LanguageState, key: string): (r: string)
    ensures r == T(table, key, s.language)
    ensures key != "" ==> r != ""
  {
    T(table, key, s.language)
  }

  /** After choosing a language and starting again from what was stored, the
      same language is in force. */
  lemma ChoiceSurvivesReload(s: LanguageState, l: Language)
    ensures Initial(SetLanguage(s, l).stored).language == Code(l)
  {
  }

  /** A stored code that is no language is adopted as it is, and every lookup
      then reads the English text. */
  lemma UnknownStoredCodeReadsEnglish(table: Table, stored: string, key: string)
    requires stored != "" && ParseCode(stored).None?
    ensures Initial(Some(stored)).language == stored
    ensures Translate(table, Initial(Some(stored)), key) == T(table, key, "en")
  {
  }

  /** With a complete table, after choosing a language every key of the
      table reads its text in that language. */
  lemma ChosenLanguageIsShown(table: Table, s: LanguageState, l: Language, key: string)
    requires Complete(table)
    requires key in table
    ensures Translate(table, SetLanguage(s, l), key) == TextIn(table[key], Code(l)).value
  {
    CompleteTableTranslates(table, key, l);
  }
}
