/** `src/lib/translations.ts`: the three interface languages and the lookup
    `t(key, lang)` with its two fallbacks. The table itself (one entry per
    key, each with up to three texts) is a parameter. */
module Translations {
  import opened JsValues

  /** The languages the table is written in. */
  datatype Language = En | Am | Om

  const LANGUAGES: seq<Language> := [En, Am, Om]

  /** The code a language is stored and indexed as. */
  function Code(l: Language): string
  {
    match l
    case En => "en"
    case Am => "am"
    case Om => "om"
  }

  /** Reads a language code; any other string names no language. */
  function ParseCode(s: string): (r: Option<Language>)
    ensures r.Some? ==> Code(r.value) == s
  {
    if s == "en" then Some(En) else if s == "am" then Some(Am) else if s == "om" then Some(Om) else None
  }

  /** There are exactly three languages, each listed once, and each code reads back as its language. */
  lemma LanguagesComplete()
    ensures |LANGUAGES| == 3
    ensures forall l: Language :: l in LANGUAGES
    ensures forall i, j :: 0 <= i < j < |LANGUAGES| ==> LANGUAGES[i] != LANGUAGES[j]
    ensures forall l: Language :: ParseCode(Code(l)) == Some(l)
  {
    forall l: Language ensures l in LANGUAGES && ParseCode(Code(l)) == Some(l) {
      match l
      case En =>
      case Am =>
      case Om =>
    }
  }

  /** One entry of the table: the text in each language, where present. */
  datatype Entry = Entry(en: Option<string>, am: Option<string>, om: Option<string>)

  /** The table, by key. */
  type Table = map<string, Entry>

  /** `entry[lang]` for a language code: a code that is not one of the three reads as absent. */
  function TextIn(e: Entry, lang: string): (r: Option<string>)
    ensures lang == "en" ==> r == e.en
    ensures lang == "am" ==> r == e.am
    ensures lang == "om" ==> r == e.om
    ensures ParseCode(lang).None? ==> r.None?
  {
    if lang == "en" then e.en else if lang == "am" then e.am else if lang == "om" then e.om else None
  }

  /** `entry?.[lang] || entry?.['en'] || key`: the text in the language, else
      the English text, else the key itself (also when the key has no entry). */
  function T(table: Table, key: string, lang: string): (r: string)
    ensures key in table && Truthy(TextIn(table[key], lang)) ==> r == TextIn(table[key], lang).value
    ensures key in table && !Truthy(TextIn(table[key], lang)) && Truthy(table[key].en) ==> r == table[key].en.value
    ensures key in table && !Truthy(TextIn(table[key], lang)) && !Truthy(table[key].en) ==> r == key
    ensures key !in table ==> r == key
    ensures key != "" ==> r != ""
  {
    if key in table then OrElse(Or(TextIn(table[key], lang), table[key].en), key) else key
  }

  /** Every entry has a non-empty text in all three languages. */
  predicate Complete(table: Table)
  {
    forall k :: k in table ==> Truthy(table[k].en) && Truthy(table[k].am) && Truthy(table[k].om)
  }

  /** In a complete table the lookup never falls back for a known language:
      it returns the entry's own text. */
  lemma CompleteTableTranslates(table: Table, key: string, l: Language)
    requires Complete(table)
    requires key in table
    ensures T(table, key, Code(l)) == TextIn(table[key], Code(l)).value
  {
  }

  /** An unknown language code reads the English text, or the key when there is none. */
  lemma UnknownLanguageReadsEnglish(table: Table, key: string, lang: string)
    requires ParseCode(lang).None?
    ensures T(table, key, lang) == T(table, key, "en")
  {
  }

  /** The lookup only falls back to the key when the key has no usable text:
      a result other than the key is a text of the key's entry. */
  lemma ResultComesFromEntry(table: Table, key: string, lang: string)
    requires T(table, key, lang) != key
    ensures key in table
    ensures Some(T(table, key, lang)) == TextIn(table[key], lang) || Some(T(table, key, lang)) == table[key].en
  {
  }
}
