/**
 * The language selection of the weather widget (src/App/App.js, lines 23-33
 * and 46-54): two constant records and the toggle between them.
 */
module Locale {

  /** Text direction of the layout. */
  datatype Direction = Ltr | Rtl

  /**
   * A language record. `btnContent` is the label of the toggle button, which
   * names the language to switch to, and `locale` is the locale code that the
   * toggle hands to the translation and date libraries when it switches AWAY
   * from this record; it is therefore also the code of the other language.
   */
  datatype LangRecord = LangRecord(dir: Direction, btnContent: string, locale: string)

  /** `englishLang`. */
  const EnglishLang: LangRecord := LangRecord(Ltr, "عربي", "ar")

  /** `arabicLang`. */
  const ArabicLang: LangRecord := LangRecord(Rtl, "English", "en")

  /** The selection is always one of the two constant records. */
  predicate IsLangRecord(l: LangRecord)
  {
    l == EnglishLang || l == ArabicLang
  }

  /** The locale code of the language whose layout and texts `l` selects. */
  function Language(l: LangRecord): (code: string)
    requires IsLangRecord(l)
    ensures code == "en" || code == "ar"
    ensures code == "en" <==> l.dir == Ltr
  {
    if l == EnglishLang then "en" else "ar"
  }

  /** `langToggle`'s new selection: English becomes Arabic, anything else English. */
  function Toggled(l: LangRecord): (r: LangRecord)
    ensures IsLangRecord(r)
    ensures IsLangRecord(l) ==> r != l && r.dir != l.dir
    ensures !IsLangRecord(l) ==> r == EnglishLang
  {
    if l == EnglishLang then ArabicLang else EnglishLang
  }

  /** Toggling twice restores the selection. */
  lemma ToggleInvolution(l: LangRecord)
    requires IsLangRecord(l)
    ensures Toggled(Toggled(l)) == l
  {
  }

  /**
   * The locale code the toggle passes on (that of the OLD record) is the
   * language of the NEW record.
   */
  lemma LocaleIsLanguageOfToggled(l: LangRecord)
    requires IsLangRecord(l)
    ensures l.locale == Language(Toggled(l))
  {
  }

  /**
   * Direction, button label and language change together: left-to-right goes
   * with the label "عربي" and English, right-to-left with "English" and Arabic.
   */
  lemma DirectionLabelLanguageLockstep(l: LangRecord)
    requires IsLangRecord(l)
    ensures l.dir == Ltr <==> l.btnContent == "عربي"
    ensures l.dir == Rtl <==> l.btnContent == "English"
    ensures l.dir == Ltr <==> Language(l) == "en"
    ensures l.dir == Rtl <==> Language(l) == "ar"
  {
    assert "عربي" != "English" by {
      assert "عربي"[0] != "English"[0];
    }
  }
}
