/** The storefront's translation lookup (`LanguageProvider` in App.jsx). */
module Language {

  /** The two languages of the interface; French is the default. */
  datatype Lang = French | Arabic

  /** `t(key)`: `translations[lang][key] ?? key`, over the table of the
      current language. A key missing from the table shows as itself. */
  function T(table: map<string, string>, key: string): (r: string)
    ensures key in table ==> r == table[key]
    ensures key !in table ==> r == key
  {
    if key in table then table[key] else key
  }
}
