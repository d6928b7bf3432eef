/**
 * The language switch of the login and profile screens: Arabic and English
 * swap, and the layout direction follows the new language.
 */
module Language {
  /** `language === 'ar' ? 'en' : 'ar'` */
  function Toggled(language: string): (next: string)
    ensures next == "ar" || next == "en"
    ensures next == "en" <==> language == "ar"
  {
    if language == "ar" then "en" else "ar"
  }

  /** `allowRTL`/`forceRTL` take whether the new language is Arabic. */
  predicate RightToLeft(language: string) {
    language == "ar"
  }

  /** Switching twice comes back exactly from the two supported languages. */
  lemma ToggleTwice(language: string)
    ensures Toggled(Toggled(language)) == language <==> language == "ar" || language == "en"
  {
  }

  /** Every switch flips the layout direction, whatever the language was. */
  lemma ToggleFlipsDirection(language: string)
    ensures RightToLeft(Toggled(language)) <==> !RightToLeft(language)
  {
  }
}
